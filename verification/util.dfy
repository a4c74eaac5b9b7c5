/**
  The post-type gate `Cybocfi_Util::is_enabled_for_post_type`: the plugin acts
  on a post type unless one of two filters answers exactly `false`.
 */
module Util {
  import opened Php
  import opened Hooks

  /** The value of 'cybocfi_enabled_for_post_type' for a post type (default `true`). */
  function PrimaryAnswer(filters: Filters, postType: string): PhpValue {
    ApplyFilters(filters.enabledForPostType, True, [Str(postType)])
  }

  /** The value of the deprecated 'cybocfi_post_type' filter. It is applied
      with the argument list `array($post_type, true)`, so the value being
      filtered is the post-type string and `true` is only an extra argument. */
  function LegacyAnswer(filters: Filters, postType: string): PhpValue {
    ApplyFilters(filters.legacyPostType, Str(postType), [True])
  }

  /** The decision on two filter answers: `false !== $enabled && false !== $deprecated`. */
  function EnabledGate(enabled: PhpValue, deprecated: PhpValue): (r: bool)
    ensures !r <==> enabled == False || deprecated == False
  {
    StrictEqIsEquality(False, enabled);
    StrictEqIsEquality(False, deprecated);
    !StrictEq(False, enabled) && !StrictEq(False, deprecated)
  }

  /** `is_enabled_for_post_type($post_type)`. */
  function IsEnabledForPostType(filters: Filters, postType: string): (r: bool)
    ensures !r <==> (PrimaryAnswer(filters, postType) == False
                     || LegacyAnswer(filters, postType) == False)
    ensures filters.enabledForPostType == [] && filters.legacyPostType == [] ==> r
  {
    EnabledGate(PrimaryAnswer(filters, postType), LegacyAnswer(filters, postType))
  }

  /** With nothing hooked to the legacy filter, only the primary filter can
      disable the type; its unfiltered value (the post type) is a string. */
  lemma UnhookedLegacyNeverDisables(filters: Filters, postType: string)
    requires filters.legacyPostType == []
    ensures IsEnabledForPostType(filters, postType) <==> PrimaryAnswer(filters, postType) != False
  {
  }

  /** Falsy answers other than `false` itself (a callback that forgot to
      return, 0, '', '0', an empty array) never disable the plugin. */
  lemma FalsyAnswersDoNotDisable(enabled: PhpValue, deprecated: PhpValue)
    requires enabled != False && deprecated != False
    ensures EnabledGate(enabled, deprecated)
    ensures EnabledGate(Null, Null) && EnabledGate(Int(0), Str("0")) && EnabledGate(Str(""), Arr([]))
  {
  }

  /** The two sources form a conjunction: an exact `false` from either one
      disables the type, whatever the other answers. */
  lemma FalseFromEitherSourceWins(filters: Filters, postType: string)
    requires PrimaryAnswer(filters, postType) == False || LegacyAnswer(filters, postType) == False
    ensures !IsEnabledForPostType(filters, postType)
  {
  }

  /** A `__return_false` callback registered last on the primary hook
      disables the type regardless of the callbacks that ran before it. */
  lemma LastPrimaryFalseDisables(filters: Filters, earlier: seq<Callback>, postType: string)
    ensures !IsEnabledForPostType(filters.(enabledForPostType := earlier + [ReturnFalse]), postType)
  {
    var chain := earlier + [ReturnFalse];
    assert chain[..|chain| - 1] == earlier;
    LastCallbackDecides(chain, True, [Str(postType)]);
  }
}
