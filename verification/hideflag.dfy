/**
  The stored hide flag. Every writer stores "yes" or ""; the front end reads
  the flag back with PHP's `(bool)` cast of the stored string.
 */
module HideFlag {
  import opened Php

  /** The two strings the plugin ever writes. */
  predicate IsStoredFlag(s: string) {
    s == "yes" || s == ""
  }

  /** `(bool) get_post_meta(...)`: a stored string reads as "hide" when it is
      neither empty nor "0". */
  predicate ReadHideFlag(stored: string) {
    Truthy(Str(stored))
  }

  /** The value `save_hide_flag($post_id, $bool)` stores: `$bool ? 'yes' : ''`. */
  function EncodeHideFlag(hidden: bool): (r: string)
    ensures IsStoredFlag(r)
    ensures ReadHideFlag(r) == hidden
    ensures r == "yes" <==> hidden
  {
    if hidden then "yes" else ""
  }

  /** The REST `sanitize_callback`: `'yes' === $value ? 'yes' : ''`, for any
      value a client sends. */
  function SanitizeHideFlag(value: PhpValue): (r: string)
    ensures IsStoredFlag(r)
    ensures r == "yes" <==> value == Str("yes")
  {
    StrictEqIsEquality(Str("yes"), value);
    if StrictEq(Str("yes"), value) then "yes" else ""
  }

  /** Sanitising an already sanitised value changes nothing. */
  lemma SanitizeIdempotent(value: PhpValue)
    ensures SanitizeHideFlag(Str(SanitizeHideFlag(value))) == SanitizeHideFlag(value)
  {
  }

  /** The REST sanitiser and the classic writer agree: sanitising a value
      stores what `save_hide_flag` stores for "is it exactly 'yes'". */
  lemma SanitizeMatchesEncode(value: PhpValue)
    ensures SanitizeHideFlag(value) == EncodeHideFlag(value == Str("yes"))
  {
  }

  /** On the strings the plugin writes, the `(bool)` reader is exactly the
      comparison with "yes" (other strings, e.g. "no", would read as true). */
  lemma ReaderAgreesOnStoredFlags(s: string)
    requires IsStoredFlag(s)
    ensures ReadHideFlag(s) <==> s == "yes"
  {
  }
}
