/**
  Version 1.3.0 of the plugin, kept in the main plugin file: the same save
  path, and a front end that hooks 'the_post' and hides the image of any
  single post or page whose flag is set, with no main-query, embed or
  post-type check and no retraction.
 */
module Legacy {
  import opened Options
  import opened Php
  import opened Hooks
  import opened Meta
  import opened HideFlag
  import Admin
  import Frontend
  import Util

  /** 1.3.0 `save_custom_meta_content($post_id)` as written: the value is
      computed inline, and the nonce marker is again a truthy string. */
  function LegacySaveCustomMetaContent(req: Admin.SaveRequest, meta: PostMeta): (m: PostMeta)
    ensures req.isAutosave || req.isRevision || !Admin.Isset(req.hideField) ==> m == meta
    ensures !req.isAutosave && !req.isRevision && Admin.Isset(req.hideField) ==>
              && m.Keys == meta.Keys + {HideKey}
              && (forall k :: k in meta && k != HideKey ==> m[k] == meta[k])
              && IsStoredFlag(FirstValue(m, HideKey))
              && (FirstValue(m, HideKey) == "yes" <==> req.hideField.value == Str("yes"))
  {
    if req.isAutosave || req.isRevision || !Truthy(Admin.NonceMarker(req)) then meta
    else if Admin.Isset(req.hideField) then
      StrictEqIsEquality(Str("yes"), req.hideField.value);
      var value := if StrictEq(Str("yes"), req.hideField.value) then "yes" else "";
      UpdatePostMeta(meta, HideKey, value)
    else meta
  }

  /** The 1.3.0 save ignores the nonce just like the current one. */
  lemma LegacyNonceGuardIneffective(req: Admin.SaveRequest, meta: PostMeta, nonce: Option<PhpValue>, verifies: bool)
    ensures LegacySaveCustomMetaContent(req.(nonce := nonce, nonceVerifies := verifies), meta)
         == LegacySaveCustomMetaContent(req, meta)
    // a request carrying no nonce at all still stores "yes"
    ensures FirstValue(LegacySaveCustomMetaContent(Admin.SaveRequest(false, false, None, false, Some(Str("yes"))), meta), HideKey)
         == "yes"
  {
  }

  /** 1.3.0 `save_custom_meta_content` as evidently intended: a missing or
      failing nonce skips the save. */
  function LegacySaveIntended(req: Admin.SaveRequest, meta: PostMeta): (m: PostMeta)
    ensures !(Admin.Isset(req.nonce) && req.nonceVerifies) ==> m == meta
    ensures req.isAutosave || req.isRevision || !Admin.Isset(req.hideField) ==> m == meta
    ensures Admin.Isset(req.nonce) && req.nonceVerifies ==> m == LegacySaveCustomMetaContent(req, meta)
  {
    if !(Admin.Isset(req.nonce) && req.nonceVerifies) then meta
    else LegacySaveCustomMetaContent(req, meta)
  }

  /** Writing the value inline or through `save_hide_flag` makes no
      difference: both versions store the same meta for every request. */
  lemma LegacySaveAgreesWithCurrent(req: Admin.SaveRequest, meta: PostMeta)
    ensures LegacySaveCustomMetaContent(req, meta) == Admin.SaveCustomMetaContent(req, meta)
    ensures LegacySaveIntended(req, meta) == Admin.SaveCustomMetaContentIntended(req, meta)
  {
  }

  /** `$this->post_id` and whether `hide_featured_image` is hooked. */
  datatype LegacyState = LegacyState(postId: Option<int>, filterInstalled: bool)

  /** `filter_featured_image($post_id)`. */
  function FilterFeaturedImage(st: LegacyState, id: int): (r: LegacyState)
    ensures r.filterInstalled && r.postId == Some(id)
  {
    st.(postId := Some(id), filterInstalled := true)
  }

  /** 1.3.0 `set_visibility($post)` on 'the_post': for a single post or page
      whose stored flag casts to true, record it and install the callback. */
  function LegacySetVisibility(st: LegacyState, postId: int, isSingleOrPage: bool, site: Site): (r: LegacyState)
    ensures isSingleOrPage && ReadHideFlag(GetPostMetaSingle(site, postId, HideKey)) ==>
              r.filterInstalled && r.postId == Some(postId)
    ensures !(isSingleOrPage && ReadHideFlag(GetPostMetaSingle(site, postId, HideKey))) ==> r == st
    // never retracts
    ensures st.filterInstalled ==> r.filterInstalled
  {
    if !isSingleOrPage then st
    else
      var hidden := ReadHideFlag(GetPostMetaSingle(site, postId, HideKey));
      if hidden then FilterFeaturedImage(st, postId) else st
  }

  /** 1.3.0 `hide_featured_image($value, $object_id, $meta_key)`: `false` for
      the recorded post's '_thumbnail_id' (a loose `==` on two strings, one
      of them non-numeric, is plain equality), and null, the implicit return
      value, for everything else. */
  function LegacyHideFeaturedImage(st: LegacyState, value: PhpValue, objectId: int, metaKey: string): (r: PhpValue)
    ensures metaKey == ThumbnailKey && st.postId == Some(objectId) ==> r == False
    ensures !(metaKey == ThumbnailKey && st.postId == Some(objectId)) ==> r == Null
  {
    if metaKey == ThumbnailKey && st.postId == Some(objectId) then False else Null
  }

  /** The current callback passes unrelated lookups through; the 1.3.0 one
      replaces them by null, whatever value it was handed. */
  lemma LegacyDropsOtherValues(cur: Frontend.State, prior: LegacyState, env: Frontend.Env, value: PhpValue, objectId: int, metaKey: string)
    requires metaKey != ThumbnailKey
    ensures Frontend.HideFeaturedImageInTheLoop(cur, env, value, objectId, metaKey) == value
    ensures LegacyHideFeaturedImage(prior, value, objectId, metaKey) == Null
  {
  }

  /** On a single view of a post whose type is switched off and whose flag
      casts to true, 1.3.0 installs its callback; the current version, from
      a state with nothing installed, does not. */
  lemma LegacyIgnoresPostTypeGate(st: Frontend.State, prior: LegacyState, q: Frontend.Query, env: Frontend.Env)
    requires env.theId in env.site
    requires Truthy(Str(env.site[env.theId].postType))
    requires !Util.IsEnabledForPostType(env.filters, env.site[env.theId].postType)
    requires ReadHideFlag(GetPostMetaSingle(env.site, env.theId, HideKey))
    requires q.isMainQuery && !q.isEmbed && env.isSingleOrPage
    requires Frontend.Consistent(st) && !st.filterInstalled
    ensures LegacySetVisibility(prior, env.theId, env.isSingleOrPage, env.site).filterInstalled
    ensures !Frontend.SetVisibility(st, Frontend.QueryArg(q), env).filterInstalled
  {
  }

  /** A page of a post type switched off by `__return_false` is such a post. */
  lemma LegacyIgnoresGateExample()
    ensures var site := map[7 := Post("page", map[HideKey := ["yes"]])];
            var filters := NoFilters.(enabledForPostType := [ReturnFalse]);
            var env := Frontend.Env(site, filters, None, 7, true, true, true, true);
            var q := Frontend.Query(true, true, false, map[]);
            && LegacySetVisibility(LegacyState(None, false), 7, true, site).filterInstalled
            && !Frontend.SetVisibility(Frontend.Initial, Frontend.QueryArg(q), env).filterInstalled
  {
    var site := map[7 := Post("page", map[HideKey := ["yes"]])];
    var filters := NoFilters.(enabledForPostType := [ReturnFalse]);
    Util.LastPrimaryFalseDisables(NoFilters, [], "page");
    assert [] + [ReturnFalse] == filters.enabledForPostType;
    LegacyIgnoresPostTypeGate(Frontend.Initial, LegacyState(None, false), Frontend.Query(true, true, false, map[]),
                              Frontend.Env(site, filters, None, 7, true, true, true, true));
  }

  /** Once installed, the 1.3.0 callback stays: a later 'the_post' of another
      post outside a single view leaves it in place, and the recorded post's
      '_thumbnail_id' still reads `false` (the current version retracts its
      callback when a secondary query starts, see
      Frontend.SecondaryQueryUnaffected). */
  lemma LegacyNeverRetracts(st: LegacyState, recorded: int, other: int, site: Site, value: PhpValue)
    requires st.filterInstalled && st.postId == Some(recorded)
    ensures LegacySetVisibility(st, other, false, site) == st
    ensures LegacyHideFeaturedImage(LegacySetVisibility(st, other, false, site), value, recorded, ThumbnailKey) == False
  {
  }
}
