/**
  A small model of PHP values, enough to state the plugin's defensive checks:
  the strict identity operator `===` and the boolean conversion `(bool)` that
  `if`, `!`, `&&` and `||` apply to their operands.

  Floats are real numbers here: NAN and INF are not representable, which is
  why `===` coincides with structural equality (see StrictEqIsEquality).
  Objects are compared by handle, as `===` does.
 */
module Php {

  /** An array key: PHP arrays are keyed by integers or strings. */
  datatype ArrayKey = IntKey(k: int) | StrKey(name: string)

  /** One key/value pair of an ordered PHP array. */
  datatype Entry = Entry(key: ArrayKey, val: PhpValue)

  datatype PhpValue =
    | Null
    | Bool(b: bool)
    | Int(i: int)
    | Float(f: real)
    | Str(s: string)
    | Arr(entries: seq<Entry>)
    | Obj(handle: nat)

  const False: PhpValue := Bool(false)
  const True: PhpValue := Bool(true)

  /** PHP's `a === b`: same type and same value; arrays must hold identical
      pairs in the same order; objects must be the same instance. */
  predicate StrictEq(a: PhpValue, b: PhpValue)
    decreases a
  {
    match (a, b)
    case (Null, Null) => true
    case (Bool(x), Bool(y)) => x == y
    case (Int(x), Int(y)) => x == y
    case (Float(x), Float(y)) => x == y
    case (Str(x), Str(y)) => x == y
    case (Arr(xs), Arr(ys)) =>
      |xs| == |ys| &&
      forall j :: 0 <= j < |xs| ==>
        xs[j].key == ys[j].key && StrictEq(xs[j].val, ys[j].val)
    case (Obj(x), Obj(y)) => x == y
    case _ => false
  }

  /** PHP's conversion to bool: null, false, 0, 0.0, "", "0" and the empty
      array are false; everything else, every object included, is true. */
  predicate Truthy(v: PhpValue) {
    match v
    case Null => false
    case Bool(b) => b
    case Int(i) => i != 0
    case Float(f) => f != 0.0
    case Str(s) => s != "" && s != "0"
    case Arr(es) => |es| > 0
    case Obj(_) => true
  }

  /** In this model `===` is exactly value identity. */
  lemma {:induction false} StrictEqIsEquality(a: PhpValue, b: PhpValue)
    ensures StrictEq(a, b) <==> a == b
    decreases a
  {
    match (a, b)
    case (Arr(xs), Arr(ys)) =>
      forall j | 0 <= j < |xs| && j < |ys|
        ensures StrictEq(xs[j].val, ys[j].val) <==> xs[j].val == ys[j].val
      {
        StrictEqIsEquality(xs[j].val, ys[j].val);
      }
      if StrictEq(a, b) {
        assert forall j :: 0 <= j < |xs| ==> xs[j] == ys[j];
        assert xs == ys;
      }
    case _ =>
  }

  /** The values a misused filter typically returns (nothing, 0, "", "0",
      an empty array) are all falsy, yet none of them is `=== false`. */
  lemma FalsyButNotFalse(v: PhpValue)
    requires v in {Null, Int(0), Float(0.0), Str(""), Str("0"), Arr([])}
    ensures !Truthy(v)
    ensures !StrictEq(v, False) && !StrictEq(v, True)
  {
  }
}
