/**
  WordPress filter dispatch, reduced to what the plugin relies on.

  A filter is the list of callbacks registered under one hook name, already in
  priority order. `apply_filters(name, value, ...args)` passes the value
  through every callback in turn, each receiving the previous result and the
  same extra arguments; with no callback registered it returns the value it
  was given.
 */
module Hooks {
  import opened Php

  /** A filter callback: the value being filtered and the extra arguments. */
  type Callback = (PhpValue, seq<PhpValue>) -> PhpValue

  /** `apply_filters` over a chain of callbacks, folded left. */
  function ApplyFilters(chain: seq<Callback>, value: PhpValue, args: seq<PhpValue>): (r: PhpValue)
    ensures chain == [] ==> r == value
    decreases |chain|
  {
    if chain == [] then value
    else ApplyFilters(chain[1..], chain[0](value, args), args)
  }

  /** The callback registered last has the final word: the result is its
      answer to whatever the earlier callbacks produced. */
  lemma {:induction false} LastCallbackDecides(chain: seq<Callback>, value: PhpValue, args: seq<PhpValue>)
    requires |chain| > 0
    ensures ApplyFilters(chain, value, args)
         == chain[|chain| - 1](ApplyFilters(chain[..|chain| - 1], value, args), args)
    decreases |chain|
  {
    if |chain| > 1 {
      var tail := chain[1..];
      LastCallbackDecides(tail, chain[0](value, args), args);
      assert tail[..|tail| - 1] == chain[..|chain| - 1][1..];
      assert tail[|tail| - 1] == chain[|chain| - 1];
    }
  }

  /** WordPress's `__return_false`, the usual way to switch a feature off. */
  function ReturnFalse(value: PhpValue, args: seq<PhpValue>): PhpValue {
    False
  }

  /** WordPress's `__return_true`. */
  function ReturnTrue(value: PhpValue, args: seq<PhpValue>): PhpValue {
    True
  }

  /** The filters the plugin consults, by hook name. */
  datatype Filters = Filters(
    enabledForPostType: seq<Callback>,  // 'cybocfi_enabled_for_post_type'
    legacyPostType: seq<Callback>,      // 'cybocfi_post_type' (deprecated)
    hideByDefault: seq<Callback>,       // 'cybocfi_hide_by_default'
    onlyHideInTheLoop: seq<Callback>    // 'cybocfi_only_hide_in_the_loop'
  )

  /** A site where no callback is registered on any of those hooks. */
  const NoFilters: Filters := Filters([], [], [], [])
}
