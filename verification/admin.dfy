/**
  The admin side (`Cybocfi_Admin`): the classic-editor save path, the
  hide-by-default policy, seeding of programmatically created posts, the
  checkbox state, and the CPT UI compatibility filter.
 */
module Admin {
  import opened Options
  import opened Php
  import opened Hooks
  import opened Meta
  import opened HideFlag
  import Util

  /** What a classic-editor `save_post` request carries, WordPress's answers included. */
  datatype SaveRequest = SaveRequest(
    isAutosave: bool,             // wp_is_post_autosave($post_id) is truthy
    isRevision: bool,             // wp_is_post_revision($post_id) is truthy
    nonce: Option<PhpValue>,      // $_POST['cybocfi_nonce'], if posted
    nonceVerifies: bool,          // wp_verify_nonce(...) is truthy
    hideField: Option<PhpValue>   // $_POST['cybocfi_hide_featured_image'], if posted
  )

  /** PHP's `isset` on a request field: present and not null. */
  predicate Isset(field: Option<PhpValue>) {
    field.Some? && field.value != Null
  }

  /** The form value the classic metabox posts: a hidden "no" followed by the
      checkbox's "yes" when it is ticked; PHP keeps the last value of a name. */
  function PostedHideField(checked: bool): (r: PhpValue)
    ensures r == Str("yes") <==> checked
    ensures !checked ==> r == Str("no")
    ensures Truthy(r)
  {
    if checked then Str("yes") else Str("no")
  }

  /** `$is_valid_nonce`: the verification outcome, kept as the STRING 'true'
      or 'false'. Both strings are truthy. */
  function NonceMarker(req: SaveRequest): (r: PhpValue)
    ensures r == Str("true") <==> Isset(req.nonce) && req.nonceVerifies
    ensures !(Isset(req.nonce) && req.nonceVerifies) ==> r == Str("false")
    ensures Truthy(r)
  {
    if Isset(req.nonce) && req.nonceVerifies then Str("true") else Str("false")
  }

  /** `save_hide_flag($post_id, $bool)`: store "yes" or "" under the hide key,
      leaving every other key alone. */
  function SaveHideFlag(meta: PostMeta, hidden: bool): (m: PostMeta)
    ensures ReadHideFlag(FirstValue(m, HideKey)) == hidden
    ensures FirstValue(m, HideKey) == (if hidden then "yes" else "")
    ensures m.Keys == meta.Keys + {HideKey}
    ensures forall k :: k in meta && k != HideKey ==> m[k] == meta[k]
  {
    UpdatePostMeta(meta, HideKey, EncodeHideFlag(hidden))
  }

  /** `save_custom_meta_content($post_id)` as written: the guard tests
      `! $is_valid_nonce` on a non-empty string, so only autosaves and
      revisions are skipped. */
  function SaveCustomMetaContent(req: SaveRequest, meta: PostMeta): (m: PostMeta)
    ensures req.isAutosave || req.isRevision || !Isset(req.hideField) ==> m == meta
    ensures !req.isAutosave && !req.isRevision && Isset(req.hideField) ==>
              && m.Keys == meta.Keys + {HideKey}
              && (forall k :: k in meta && k != HideKey ==> m[k] == meta[k])
              && IsStoredFlag(FirstValue(m, HideKey))
              && (FirstValue(m, HideKey) == "yes" <==> req.hideField.value == Str("yes"))
  {
    if req.isAutosave || req.isRevision || !Truthy(NonceMarker(req)) then meta
    else if Isset(req.hideField) then
      StrictEqIsEquality(Str("yes"), req.hideField.value);
      SaveHideFlag(meta, StrictEq(Str("yes"), req.hideField.value))
    else meta
  }

  /** The nonce has no influence on the save as written: a request without a
      nonce, or with a forged one, stores exactly what a verified one does. */
  lemma NonceGuardIneffective(req: SaveRequest, meta: PostMeta, nonce: Option<PhpValue>, verifies: bool)
    ensures SaveCustomMetaContent(req.(nonce := nonce, nonceVerifies := verifies), meta)
         == SaveCustomMetaContent(req, meta)
  {
  }

  /** A concrete forged request: no nonce at all, yet "yes" is stored. */
  lemma ForgedRequestIsSaved(meta: PostMeta)
    ensures FirstValue(SaveCustomMetaContent(SaveRequest(false, false, None, false, Some(Str("yes"))), meta), HideKey) == "yes"
  {
  }

  /** `save_custom_meta_content` as evidently intended: a missing or failing
      nonce skips the save like an autosave does. */
  function SaveCustomMetaContentIntended(req: SaveRequest, meta: PostMeta): (m: PostMeta)
    ensures !(Isset(req.nonce) && req.nonceVerifies) ==> m == meta
    ensures req.isAutosave || req.isRevision || !Isset(req.hideField) ==> m == meta
    ensures !req.isAutosave && !req.isRevision && Isset(req.nonce) && req.nonceVerifies && Isset(req.hideField) ==>
              && m.Keys == meta.Keys + {HideKey}
              && (forall k :: k in meta && k != HideKey ==> m[k] == meta[k])
              && (FirstValue(m, HideKey) == "yes" <==> req.hideField.value == Str("yes"))
  {
    if req.isAutosave || req.isRevision || !(Isset(req.nonce) && req.nonceVerifies) then meta
    else if Isset(req.hideField) then
      StrictEqIsEquality(Str("yes"), req.hideField.value);
      SaveHideFlag(meta, StrictEq(Str("yes"), req.hideField.value))
    else meta
  }

  /** With a verified nonce the intended and the written save agree. */
  lemma IntendedAgreesOnVerifiedNonce(req: SaveRequest, meta: PostMeta)
    requires Isset(req.nonce) && req.nonceVerifies
    ensures SaveCustomMetaContentIntended(req, meta) == SaveCustomMetaContent(req, meta)
  {
  }

  /** Ticking or unticking the checkbox and saving stores a flag that reads
      back as the checkbox state. */
  lemma ClassicFormRoundTrip(req: SaveRequest, meta: PostMeta, checked: bool)
    requires !req.isAutosave && !req.isRevision
    requires req.hideField == Some(PostedHideField(checked))
    ensures ReadHideFlag(FirstValue(SaveCustomMetaContent(req, meta), HideKey)) == checked
    ensures FirstValue(SaveCustomMetaContent(req, meta), HideKey) == EncodeHideFlag(checked)
  {
  }

  /** `get_default_checkbox_value($post_type)`: the 'cybocfi_hide_by_default'
      filter (default `false`) must answer exactly `true`. */
  function DefaultCheckboxValue(filters: Filters, postType: string): (r: bool)
    ensures r <==> ApplyFilters(filters.hideByDefault, False, [Str(postType)]) == True
    ensures filters.hideByDefault == [] ==> !r
  {
    var enabled := ApplyFilters(filters.hideByDefault, False, [Str(postType)]);
    StrictEqIsEquality(True, enabled);
    StrictEq(True, enabled)
  }

  /** Truthy answers other than `true` (1, "yes", a non-empty array) do not
      make hiding the default. */
  lemma TruthyButNotTrueIsNoDefault(filters: Filters, postType: string)
    requires ApplyFilters(filters.hideByDefault, False, [Str(postType)]) in {Int(1), Str("yes"), Str("1")}
    ensures !DefaultCheckboxValue(filters, postType)
  {
  }

  /** `__return_true` registered last on 'cybocfi_hide_by_default' makes
      hiding the default, whatever the earlier callbacks answered. */
  lemma LastReturnTrueHidesByDefault(filters: Filters, earlier: seq<Callback>, postType: string)
    ensures DefaultCheckboxValue(filters.(hideByDefault := earlier + [ReturnTrue]), postType)
  {
    var chain := earlier + [ReturnTrue];
    assert chain[..|chain| - 1] == earlier;
    LastCallbackDecides(chain, False, [Str(postType)]);
  }

  /** `handle_imports($id, $post, $update)`: seed the flag of a newly
      inserted post when hiding is the default for its enabled type and no
      flag has been stored for it yet. */
  function HandleImports(update: bool, filters: Filters, postType: string, meta: PostMeta): (m: PostMeta)
    ensures m == meta || m == meta[HideKey := ["yes"]]
    ensures m != meta <==>
              && !update
              && DefaultCheckboxValue(filters, postType)
              && Util.IsEnabledForPostType(filters, postType)
              && HideKey !in meta
    ensures HideKey in meta ==> m == meta
  {
    if update then meta
    else if !DefaultCheckboxValue(filters, postType) then meta
    else if !Util.IsEnabledForPostType(filters, postType) then meta
    else if HideKey in meta then meta
    else
      var m := SaveHideFlag(meta, true);
      assert m[HideKey] == ["yes"];
      assert m == meta[HideKey := ["yes"]];
      m
  }

  /** An imported post that gets seeded reads as hidden on the front end and
      shows a ticked box in the editor. */
  lemma ImportSeedIsHidden(filters: Filters, postType: string, meta: PostMeta)
    requires DefaultCheckboxValue(filters, postType) && Util.IsEnabledForPostType(filters, postType)
    requires HideKey !in meta
    ensures ReadHideFlag(FirstValue(HandleImports(false, filters, postType, meta), HideKey))
    ensures CheckedTag(false, false, HandleImports(false, filters, postType, meta))
  {
  }

  /** `(string)` of a boolean, as `checked()` compares its arguments: "1" or "". */
  function BoolToString(b: bool): string {
    if b then "1" else ""
  }

  /** Whether `the_checked_tag()` prints `checked`. A new post follows the
      hidden-by-default value, through `checked($default)`; an existing one
      compares its first stored flag with 'yes', through
      `checked($stored[0], 'yes')`. */
  function CheckedTag(isNew: bool, hideByDefault: bool, meta: PostMeta): (r: bool)
    ensures isNew ==> (r <==> hideByDefault)
    ensures !isNew ==> (r <==> HideKey in meta && |meta[HideKey]| > 0 && meta[HideKey][0] == "yes")
    ensures !isNew && HideKey !in meta ==> !r
  {
    if isNew then BoolToString(hideByDefault) == BoolToString(true)
    else if HideKey in meta then FirstValue(meta, HideKey) == "yes"
    else false
  }

  /** For an existing post whose flag was written by the plugin, the editor's
      checkbox shows what the front end will do. */
  lemma CheckedTagMatchesReader(meta: PostMeta, hideByDefault: bool)
    requires IsStoredFlag(FirstValue(meta, HideKey))
    ensures CheckedTag(false, hideByDefault, meta) == ReadHideFlag(FirstValue(meta, HideKey))
  {
  }

  /** `cptui_compatibility($value, $name)`: for an enabled type append
      'custom-fields' to the supports list (`array_merge` on a list), even
      if it is already there; otherwise return the list unchanged. */
  function CptuiCompatibility(supports: seq<string>, name: string, filters: Filters): (r: seq<string>)
    ensures Util.IsEnabledForPostType(filters, name) ==>
              |r| == |supports| + 1 && r[..|supports|] == supports && r[|supports|] == "custom-fields"
    ensures !Util.IsEnabledForPostType(filters, name) ==> r == supports
  {
    if Util.IsEnabledForPostType(filters, name) then supports + ["custom-fields"] else supports
  }

  /** The appended entry is not de-duplicated: one more 'custom-fields' each call. */
  lemma CptuiAppendsOneCustomFields(supports: seq<string>, name: string, filters: Filters)
    requires Util.IsEnabledForPostType(filters, name)
    ensures multiset(CptuiCompatibility(supports, name, filters))["custom-fields"]
         == multiset(supports)["custom-fields"] + 1
    ensures forall s :: s != "custom-fields" ==>
              multiset(CptuiCompatibility(supports, name, filters))[s] == multiset(supports)[s]
  {
    var r := CptuiCompatibility(supports, name, filters);
    assert r == supports + ["custom-fields"];
    assert multiset(r) == multiset(supports) + multiset{"custom-fields"};
  }
}
