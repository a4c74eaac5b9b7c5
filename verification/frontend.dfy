/**
  The front end (`Cybocfi_Frontend`). Its state is the query being processed,
  the id of the post whose image is hidden, and whether its
  'get_post_metadata' callback is currently installed. `set_visibility`
  installs or retracts that callback; the other handlers only compute an
  output from their input and the state.
 */
module Frontend {
  import opened Options
  import opened Php
  import opened Hooks
  import opened Meta
  import opened HideFlag
  import Util

  /** The parts of a `WP_Query` the plugin looks at. */
  datatype Query = Query(
    isMainQuery: bool,            // $query->is_main_query()
    isSingular: bool,             // $query->is_singular()
    isEmbed: bool,                // $query->is_embed()
    vars: map<string, PhpValue>   // $query->query
  )

  /** The value the startup action hands to `set_visibility`: a `WP_Query`
      for the default 'loop_start', anything at all for a custom hook. */
  datatype HookArg = QueryArg(q: Query) | OtherArg(v: PhpValue)

  /** `$this->query`, `$this->post_id`, and whether `hide_featured_image_in_the_loop`
      is hooked to 'get_post_metadata'. */
  datatype State = State(query: Option<Query>, postId: Option<int>, filterInstalled: bool)

  const Initial: State := State(None, None, false)

  /** The callback is installed exactly when a post id is recorded. */
  predicate Consistent(st: State) {
    st.filterInstalled <==> st.postId.Some?
  }

  /** What WordPress answers while a handler runs. */
  datatype Env = Env(
    site: Site,
    filters: Filters,
    wpQuery: Option<Query>,  // global $wp_query, when it is a WP_Query
    theId: int,              // get_the_ID()
    isSingleOrPage: bool,    // is_single($id) || is_page($id) for that id
    isSingular: bool,        // is_singular()
    isMainQuery: bool,       // is_main_query()
    inTheLoop: bool          // in_the_loop()
  )

  /** `is_image_marked_hidden($post_id)`: never for a known post of a
      disabled type; otherwise the `(bool)` cast of the stored flag. A post
      type that is itself falsy ("0") skips the type check. */
  function IsImageMarkedHidden(site: Site, filters: Filters, id: int): (r: bool)
    ensures (GetPostType(site, id).Some? && GetPostType(site, id).value != "" && GetPostType(site, id).value != "0"
             && !Util.IsEnabledForPostType(filters, GetPostType(site, id).value)) ==> !r
    ensures !(GetPostType(site, id).Some? && GetPostType(site, id).value != "" && GetPostType(site, id).value != "0"
              && !Util.IsEnabledForPostType(filters, GetPostType(site, id).value)) ==>
              (r <==> GetPostMetaSingle(site, id, HideKey) != "" && GetPostMetaSingle(site, id, HideKey) != "0")
    ensures id !in site ==> !r
  {
    var postType := GetPostType(site, id);
    if postType.Some? && Truthy(Str(postType.value)) && !Util.IsEnabledForPostType(filters, postType.value) then false
    else ReadHideFlag(GetPostMetaSingle(site, id, HideKey))
  }

  /** For a post of an enabled type whose flag the plugin wrote, the image
      is hidden exactly when the flag is "yes". */
  lemma HiddenIffStoredYes(site: Site, filters: Filters, id: int)
    requires id in site && Util.IsEnabledForPostType(filters, site[id].postType)
    requires IsStoredFlag(GetPostMetaSingle(site, id, HideKey))
    ensures IsImageMarkedHidden(site, filters, id) <==> GetPostMetaSingle(site, id, HideKey) == "yes"
  {
  }

  /** `set_query($startup_hook_value)`: the argument if it is a `WP_Query`,
      else the global `$wp_query` if that is one, else nothing. */
  function SetQuery(arg: HookArg, env: Env): (r: Option<Query>)
    ensures arg.QueryArg? ==> r == Some(arg.q)
    ensures arg.OtherArg? ==> r == env.wpQuery
    ensures r.None? <==> arg.OtherArg? && env.wpQuery.None?
  {
    match arg
    case QueryArg(q) => Some(q)
    case OtherArg(_) => env.wpQuery
  }

  /** `add_featured_image_filter($post_id)`. */
  function AddFeaturedImageFilter(st: State, id: int): (r: State)
    ensures Consistent(r) && r.postId == Some(id) && r.query == st.query
  {
    st.(postId := Some(id), filterInstalled := true)
  }

  /** `remove_featured_image_filter()`. */
  function RemoveFeaturedImageFilter(st: State): (r: State)
    ensures Consistent(r) && !r.filterInstalled && r.query == st.query
  {
    st.(postId := None, filterInstalled := false)
  }

  /** `set_visibility($startup_hook_value)`. */
  function SetVisibility(st: State, arg: HookArg, env: Env): (r: State)
    // no query at hand: nothing changes
    ensures SetQuery(arg, env).None? ==> r == st
    // otherwise the query is recorded
    ensures SetQuery(arg, env).Some? ==> r.query == SetQuery(arg, env)
    // a secondary query retracts the callback
    ensures SetQuery(arg, env).Some? && !SetQuery(arg, env).value.isMainQuery ==>
              !r.filterInstalled && r.postId.None?
    // a main query that is not a single post or page leaves the callback alone
    ensures SetQuery(arg, env).Some? && SetQuery(arg, env).value.isMainQuery && !env.isSingleOrPage ==>
              r.filterInstalled == st.filterInstalled && r.postId == st.postId
    // an embed retracts the callback
    ensures SetQuery(arg, env).Some? && SetQuery(arg, env).value.isMainQuery && env.isSingleOrPage
            && SetQuery(arg, env).value.isEmbed ==>
              !r.filterInstalled && r.postId.None?
    // a hidden single post or page installs it for the current id
    ensures SetQuery(arg, env).Some? && SetQuery(arg, env).value.isMainQuery && env.isSingleOrPage
            && !SetQuery(arg, env).value.isEmbed && IsImageMarkedHidden(env.site, env.filters, env.theId) ==>
              r.filterInstalled && r.postId == Some(env.theId)
    // a single post or page whose image is shown leaves the callback alone
    ensures SetQuery(arg, env).Some? && SetQuery(arg, env).value.isMainQuery && env.isSingleOrPage
            && !SetQuery(arg, env).value.isEmbed && !IsImageMarkedHidden(env.site, env.filters, env.theId) ==>
              r.filterInstalled == st.filterInstalled && r.postId == st.postId
    // the callback is only ever installed for a hidden image
    ensures r.postId != st.postId && r.postId.Some? ==>
              r.postId == Some(env.theId) && IsImageMarkedHidden(env.site, env.filters, env.theId)
    ensures Consistent(st) ==> Consistent(r)
  {
    match SetQuery(arg, env)
    case None => st
    case Some(q) =>
      var st1 := st.(query := Some(q));
      if !q.isMainQuery then RemoveFeaturedImageFilter(st1)
      else if !env.isSingleOrPage then st1
      else if q.isEmbed then RemoveFeaturedImageFilter(st1)
      else if IsImageMarkedHidden(env.site, env.filters, env.theId) then AddFeaturedImageFilter(st1, env.theId)
      else st1
  }

  /** The value of 'cybocfi_only_hide_in_the_loop' (default `true`). */
  function OnlyHideInTheLoop(filters: Filters): PhpValue {
    ApplyFilters(filters.onlyHideInTheLoop, True, [])
  }

  /** `hide_featured_image_in_the_loop($value, $object_id, $meta_key)`:
      answer `false` for the recorded post's '_thumbnail_id' when hiding is
      not restricted to the loop or the loop is running; pass the value
      through otherwise. */
  function HideFeaturedImageInTheLoop(st: State, env: Env, value: PhpValue, objectId: int, metaKey: string): (r: PhpValue)
    ensures r == value || r == False
    ensures metaKey != ThumbnailKey || st.postId != Some(objectId) ==> r == value
    ensures metaKey == ThumbnailKey && st.postId == Some(objectId) &&
            (!Truthy(OnlyHideInTheLoop(env.filters)) || env.inTheLoop) ==>
              r == False
    ensures Truthy(OnlyHideInTheLoop(env.filters)) && !env.inTheLoop ==> r == value
  {
    if metaKey != ThumbnailKey then value
    else if st.postId != Some(objectId) then value
    else if !Truthy(OnlyHideInTheLoop(env.filters)) then False
    else if env.inTheLoop then False
    else value
  }

  /** What a 'get_post_metadata' lookup returns given the plugin's state:
      the callback's answer when it is installed, the value otherwise. */
  function MetadataLookup(st: State, env: Env, value: PhpValue, objectId: int, metaKey: string): (r: PhpValue)
    ensures !st.filterInstalled ==> r == value
    ensures st.filterInstalled ==> r == HideFeaturedImageInTheLoop(st, env, value, objectId, metaKey)
    ensures r == value || r == False
  {
    if st.filterInstalled then HideFeaturedImageInTheLoop(st, env, value, objectId, metaKey) else value
  }

  /** A secondary query started after the main one never sees the main
      post's image hidden: `set_visibility` retracts the callback first. */
  lemma SecondaryQueryUnaffected(st: State, arg: HookArg, env: Env, env2: Env, value: PhpValue, objectId: int, metaKey: string)
    requires SetQuery(arg, env).Some? && !SetQuery(arg, env).value.isMainQuery
    ensures MetadataLookup(SetVisibility(st, arg, env), env2, value, objectId, metaKey) == value
  {
  }

  /** An embed of a hidden post still shows its image. */
  lemma EmbedKeepsImage(st: State, q: Query, env: Env, env2: Env, value: PhpValue, objectId: int, metaKey: string)
    requires q.isMainQuery && q.isEmbed && env.isSingleOrPage
    ensures MetadataLookup(SetVisibility(st, QueryArg(q), env), env2, value, objectId, metaKey) == value
  {
  }

  /** On a hidden single post, its '_thumbnail_id' reads as `false` inside the loop. */
  lemma HiddenSingularHidesInLoop(st: State, q: Query, env: Env, value: PhpValue)
    requires q.isMainQuery && !q.isEmbed && env.isSingleOrPage
    requires IsImageMarkedHidden(env.site, env.filters, env.theId)
    requires env.inTheLoop
    ensures MetadataLookup(SetVisibility(st, QueryArg(q), env), env, value, env.theId, ThumbnailKey) == False
  {
  }

  /** `is_query_block()`: the query's 'pagename' var is exactly 'query-block'. */
  function IsQueryBlock(q: Query): (r: bool)
    ensures r <==> "pagename" in q.vars && q.vars["pagename"] == Str("query-block")
  {
    if "pagename" in q.vars then
      StrictEqIsEquality(Str("query-block"), q.vars["pagename"]);
      StrictEq(Str("query-block"), q.vars["pagename"])
    else false
  }

  /** The block filter's condition: a main singular query that is not a
      query-loop block, showing a hidden image. */
  predicate BlockHidden(query: Option<Query>, env: Env) {
    && query.Some?
    && query.value.isSingular
    && query.value.isMainQuery
    && !IsQueryBlock(query.value)
    && IsImageMarkedHidden(env.site, env.filters, env.theId)
  }

  /** `featured_image_block($block_content)`: fill in the query from the
      global one if none was recorded yet, then drop the block for the
      hidden image of a main singular query that is not a query-loop block. */
  function FeaturedImageBlock(st: State, content: string, env: Env): (r: (string, State))
    ensures r.1.postId == st.postId && r.1.filterInstalled == st.filterInstalled
    ensures st.query.Some? ==> r.1 == st
    ensures st.query.None? ==> r.1.query == env.wpQuery
    ensures BlockHidden(r.1.query, env) ==> r.0 == ""
    ensures !BlockHidden(r.1.query, env) ==> r.0 == content
  {
    var st1 :=
      if st.query.Some? then st
      else match SetQuery(OtherArg(Null), env)
           case Some(q) => st.(query := Some(q))
           case None => st;
    var q := st1.query;
    if q.Some? && q.value.isSingular && q.value.isMainQuery && !IsQueryBlock(q.value) &&
       IsImageMarkedHidden(env.site, env.filters, env.theId)
    then ("", st1)
    else (content, st1)
  }

  /** A featured-image block rendered inside a query-loop block is never
      dropped, whether the query was recorded by the startup hook or is
      taken from the global one when the block renders first. */
  lemma QueryLoopBlockKeepsImage(st: State, content: string, env: Env)
    requires var q := if st.query.Some? then st.query else env.wpQuery;
             q.Some? && IsQueryBlock(q.value)
    ensures FeaturedImageBlock(st, content, env).0 == content
  {
  }

  /** Unlike `set_visibility`, the block filter does not look at `is_embed()`:
      its answer is the same when the query in use, recorded or global, is
      an embed. */
  lemma BlockFilterIgnoresEmbed(st: State, content: string, env: Env, embed: bool)
    ensures var st2 := if st.query.Some? then st.(query := Some(st.query.value.(isEmbed := embed))) else st;
            var env2 := if st.query.None? && env.wpQuery.Some?
                        then env.(wpQuery := Some(env.wpQuery.value.(isEmbed := embed)))
                        else env;
            FeaturedImageBlock(st2, content, env2).0 == FeaturedImageBlock(st, content, env).0
  {
  }

  /** `twentynineteen($can_show_thumbnail)`. */
  function Twentynineteen(canShow: PhpValue, env: Env): (r: PhpValue)
    ensures env.isSingular && env.isMainQuery && IsImageMarkedHidden(env.site, env.filters, env.theId) ==> r == False
    ensures !(env.isSingular && env.isMainQuery && IsImageMarkedHidden(env.site, env.filters, env.theId)) ==> r == canShow
  {
    if env.isSingular && env.isMainQuery && IsImageMarkedHidden(env.site, env.filters, env.theId) then False
    else canShow
  }

  /** The theme check and the block filter agree: when the query in use
      answers `is_singular()` and `is_main_query()` like the global tags and
      is not a query-loop block, a non-empty block is dropped exactly when
      the theme is told not to show the thumbnail. */
  lemma TwentynineteenAgreesWithBlock(st: State, content: string, env: Env, q: Query)
    requires (if st.query.Some? then st.query else env.wpQuery) == Some(q)
    requires q.isSingular == env.isSingular && q.isMainQuery == env.isMainQuery
    requires !IsQueryBlock(q) && content != ""
    ensures FeaturedImageBlock(st, content, env).0 == "" <==> Twentynineteen(True, env) == False
  {
  }

  /** Like the block filter, the theme check has no `is_embed()` test: on an
      embed of a hidden single post it still says "no thumbnail", while
      `set_visibility` leaves the metadata callback uninstalled. */
  lemma TwentynineteenIgnoresEmbed(st: State, q: Query, env: Env)
    requires q.isMainQuery && q.isEmbed && env.isSingleOrPage
    requires env.isSingular && env.isMainQuery
    requires IsImageMarkedHidden(env.site, env.filters, env.theId)
    ensures Twentynineteen(True, env) == False
    ensures !SetVisibility(st, QueryArg(q), env).filterInstalled
  {
  }

  /** A schema piece; whether it is a Yoast `Main_Image` generator is all
      the plugin asks of it. */
  datatype Piece = Piece(name: string, isMainImage: bool)

  /** One element of the pieces array, with its key. */
  datatype SchemaEntry = SchemaEntry(key: ArrayKey, piece: Piece)

  /** The position of the first `Main_Image` piece, if any. */
  function FirstMainImage(pieces: seq<SchemaEntry>): (r: Option<nat>)
    ensures r.None? ==> forall j :: 0 <= j < |pieces| ==> !pieces[j].piece.isMainImage
    ensures r.Some? ==> r.value < |pieces| && pieces[r.value].piece.isMainImage
    ensures r.Some? ==> forall j :: 0 <= j < r.value ==> !pieces[j].piece.isMainImage
  {
    if pieces == [] then None
    else if pieces[0].piece.isMainImage then Some(0)
    else match FirstMainImage(pieces[1..])
         case None => None
         case Some(i) => Some(i + 1)
  }

  /** `remove_mainimage_schema_block($pieces)`: unset the first `Main_Image`
      piece and stop; every other piece keeps its key and position. */
  method RemoveMainImageSchemaBlock(pieces: seq<SchemaEntry>) returns (r: seq<SchemaEntry>)
    ensures FirstMainImage(pieces).None? ==> r == pieces
    ensures FirstMainImage(pieces).Some? ==>
              var i := FirstMainImage(pieces).value;
              r == pieces[..i] + pieces[i + 1..]
  {
    var i := 0;
    while i < |pieces|
      invariant 0 <= i <= |pieces|
      invariant forall j :: 0 <= j < i ==> !pieces[j].piece.isMainImage
    {
      if pieces[i].piece.isMainImage {
        return pieces[..i] + pieces[i + 1..];
      }
      i := i + 1;
    }
    return pieces;
  }

  /** `set_schema_visibility($pieces, $context)`: pieces change only for a
      hidden image, and then by at most the first `Main_Image`. */
  method SetSchemaVisibility(pieces: seq<SchemaEntry>, contextId: int, env: Env) returns (r: seq<SchemaEntry>)
    ensures !IsImageMarkedHidden(env.site, env.filters, contextId) ==> r == pieces
    ensures IsImageMarkedHidden(env.site, env.filters, contextId) && FirstMainImage(pieces).Some? ==>
              var i := FirstMainImage(pieces).value;
              r == pieces[..i] + pieces[i + 1..]
    ensures FirstMainImage(pieces).None? ==> r == pieces
  {
    if IsImageMarkedHidden(env.site, env.filters, contextId) {
      r := RemoveMainImageSchemaBlock(pieces);
    } else {
      r := pieces;
    }
  }

  /** The front-end events that change the state. */
  datatype Event =
    | StartupHook(arg: HookArg, env: Env)
    | BlockRender(content: string, env: Env)

  /** The state after a sequence of events, in order. */
  function Run(st: State, events: seq<Event>): State
    decreases |events|
  {
    if events == [] then st
    else
      var next := match events[0]
                  case StartupHook(arg, env) => SetVisibility(st, arg, env)
                  case BlockRender(content, env) => FeaturedImageBlock(st, content, env).1;
      Run(next, events[1..])
  }

  /** Across any request, the callback is installed exactly while a post id
      is recorded. */
  lemma {:induction false} RunKeepsConsistent(st: State, events: seq<Event>)
    requires Consistent(st)
    ensures Consistent(Run(st, events))
    decreases |events|
  {
    if events != [] {
      var next := match events[0]
                  case StartupHook(arg, env) => SetVisibility(st, arg, env)
                  case BlockRender(content, env) => FeaturedImageBlock(st, content, env).1;
      RunKeepsConsistent(next, events[1..]);
    }
  }
}
