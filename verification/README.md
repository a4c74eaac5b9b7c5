# Conditionally display featured image — decision layer in Dafny

This project models the decision layer of the WordPress plugin "Conditionally
display featured image on singular pages and posts" (prefix `cybocfi`). Each
post carries a hide flag in the meta key `cybocfi_hide_featured_image`, stored
as `"yes"` or `""`. Editors set it from a classic metabox checkbox or through
the REST meta field. The front end suppresses the post's featured image on its
own singular view by answering the `_thumbnail_id` metadata lookup with
`false`. It also drops the `core/post-featured-image` block, answers the
twentynineteen theme's thumbnail check and removes Yoast's `Main_Image` schema
piece.

Every WordPress call becomes an input. Filters (`apply_filters`) are chains of
callbacks. Conditional tags (`is_singular`, `is_main_query`, `in_the_loop`,
`is_single`/`is_page`, `get_the_ID`) are fields of an `Env` record. Post meta
and post types are a `Site` map. Hook registration shrinks to one boolean in
the front-end state: whether the `get_post_metadata` callback is installed.

Modules, one per concern:

- `Php`: PHP values, `===` (`StrictEq`) and `(bool)` (`Truthy`).
- `Hooks`: filter chains and the four plugin filters.
- `Meta`: per-post meta as key to list of values; `get_post_meta` and `update_post_meta`.
- `Util`: `Cybocfi_Util::is_enabled_for_post_type`.
- `HideFlag`: the stored encoding, the REST sanitiser and the `(bool)` reader.
- `Admin`: `Cybocfi_Admin` (save, defaults, import seeding, checkbox, CPT UI).
- `Frontend`: `Cybocfi_Frontend` (install/retract state machine and output filters).
- `Legacy`: the 1.3.0 classes kept in `conditional-featured-image.php`.

## Behaviour worth noting

- The deprecated `cybocfi_post_type` filter goes through
  `apply_filters_deprecated` with `array($post_type, true)`, so the value
  being filtered is the post-type string, not `true`. A string is never
  `=== false` (include/class-conditional-featured-image-util.php:43-49).
- The front end reads the flag with `(bool)`, so any stored string other
  than `""` and `"0"` reads as set
  (include/class-conditional-featured-image-frontend.php:290). On the two
  strings the plugin writes, this agrees with a comparison against `"yes"`
  (`HideFlag.ReaderAgreesOnStoredFlags`).
- The nonce check in the classic save has no effect
  (include/class-conditional-featured-image-admin.php:329-334; see Findings).
- `set_visibility` checks main query, then single/page, then embed, then the
  flag, and the flag check includes the post-type check. A main query that
  is not a single view leaves an installed callback in place
  (include/class-conditional-featured-image-frontend.php:198-237).
- `cptui_compatibility` always appends `'custom-fields'`, even when it is
  already present (include/class-conditional-featured-image-admin.php:404-410).
- Neither the block filter nor the twentynineteen filter checks `is_embed()`
  (include/class-conditional-featured-image-frontend.php:99-105 and 128-133;
  `Frontend.BlockFilterIgnoresEmbed`, `Frontend.TwentynineteenIgnoresEmbed`).

## Model

| member | source | states |
|---|---|---|
| Php.StrictEqIsEquality | include/class-conditional-featured-image-util.php:51-53 | The strict `===` test the gate relies on is exact identity of PHP values: same type, same value, arrays pairwise, objects by instance |
| Php.FalsyButNotFalse | include/class-conditional-featured-image-util.php:9-11 | null, 0, 0.0, '', '0' and [] are falsy, yet none is `=== false` or `=== true` |
| Hooks.LastCallbackDecides | include/class-conditional-featured-image-util.php:28 | A filter's value is the last registered callback applied to what the earlier callbacks produced |
| Util.EnabledGate | include/class-conditional-featured-image-util.php:51-53 | The gate is false exactly when one of the two filter answers is the value `false` |
| Util.IsEnabledForPostType | include/class-conditional-featured-image-util.php:17-54 | Disabled iff the primary answer or the legacy answer is exactly `false`; with no callbacks on either hook, the type is enabled |
| Util.UnhookedLegacyNeverDisables | include/class-conditional-featured-image-util.php:43-49 | With nothing on the deprecated hook, its value is the post-type string, so only the primary filter decides |
| Util.FalsyAnswersDoNotDisable | include/class-conditional-featured-image-util.php:9-11 | Any answers other than `false` keep the type enabled, including null, 0, '0', '' and [] |
| Util.FalseFromEitherSourceWins | include/class-conditional-featured-image-util.php:28-53 | An exact `false` from either source disables the type, whatever the other source says |
| Util.LastPrimaryFalseDisables | include/class-conditional-featured-image-util.php:19-28 | A `__return_false` callback added last on 'cybocfi_enabled_for_post_type' disables the type whatever came before it |
| HideFlag.EncodeHideFlag | include/class-conditional-featured-image-admin.php:349-352 | The saved flag is "yes" or "", and it reads back through `(bool)` as the boolean saved |
| HideFlag.SanitizeHideFlag | include/class-conditional-featured-image-admin.php:154-156 | The REST sanitiser outputs only "yes" or "", and outputs "yes" iff the input is exactly the string "yes" |
| HideFlag.SanitizeIdempotent | include/class-conditional-featured-image-admin.php:154-156 | Sanitising a sanitised value returns it unchanged |
| HideFlag.SanitizeMatchesEncode | include/class-conditional-featured-image-admin.php:154-156 | The REST path and the classic path store the same string for the same choice |
| HideFlag.ReaderAgreesOnStoredFlags | include/class-conditional-featured-image-frontend.php:290 | On "yes"/"" the `(bool)` reader is true exactly for "yes" |
| Admin.PostedHideField | include/class-conditional-featured-image-admin.php:286-290 | The form posts "yes" iff the box is ticked and "no" from the hidden input otherwise |
| Admin.NonceMarker | include/class-conditional-featured-image-admin.php:329 | The nonce outcome is the string 'true' or 'false', and both are truthy |
| Admin.SaveHideFlag | include/class-conditional-featured-image-admin.php:349-352 | Stores "yes" for true and "" for false under the hide key; other keys are unchanged |
| Admin.SaveCustomMetaContent | include/class-conditional-featured-image-admin.php:323-341 | Autosaves, revisions and posts without the field change nothing. Otherwise only the flag key is written: "yes" iff the posted value is exactly "yes", else "" |
| Admin.NonceGuardIneffective | include/class-conditional-featured-image-admin.php:329-334 | The save result does not depend on the nonce field or its verification |
| Admin.ForgedRequestIsSaved | include/class-conditional-featured-image-admin.php:329-340 | A request with no nonce that posts "yes" stores "yes" |
| Admin.SaveCustomMetaContentIntended | include/class-conditional-featured-image-admin.php:328-334 | Corrected save: a missing or failing nonce changes nothing; otherwise behaves as the written save |
| Admin.IntendedAgreesOnVerifiedNonce | include/class-conditional-featured-image-admin.php:328-340 | With a verified nonce, the corrected save and the written save store the same meta |
| Admin.ClassicFormRoundTrip | include/class-conditional-featured-image-admin.php:286-352 | Saving the posted checkbox stores a flag that reads back as the checkbox state |
| Admin.DefaultCheckboxValue | include/class-conditional-featured-image-admin.php:364-383 | Hide-by-default holds iff 'cybocfi_hide_by_default' answers exactly `true`; with no callbacks it is false |
| Admin.TruthyButNotTrueIsNoDefault | include/class-conditional-featured-image-admin.php:380-382 | Truthy answers such as 1, "1" and "yes" do not make hiding the default |
| Admin.LastReturnTrueHidesByDefault | include/class-conditional-featured-image-admin.php:364-383 | `__return_true` added last on 'cybocfi_hide_by_default' makes hiding the default whatever came before it |
| Admin.HandleImports | include/class-conditional-featured-image-admin.php:69-98 | Writes only "yes" and only into a fresh key. It writes iff the post is new, hide-by-default holds, the type is enabled and no flag key exists; an existing flag is never overwritten |
| Admin.ImportSeedIsHidden | include/class-conditional-featured-image-admin.php:97 | A seeded import reads as hidden and shows a ticked box in the editor |
| Admin.CheckedTag | include/class-conditional-featured-image-admin.php:302-316 | A new post is ticked iff hide-by-default holds. An existing post is ticked iff its first stored value is "yes"; with no stored key it is unticked |
| Admin.CheckedTagMatchesReader | include/class-conditional-featured-image-admin.php:310-314 | For flags the plugin wrote, the editor's checkbox agrees with the front end's `(bool)` reading |
| Admin.CptuiCompatibility | include/class-conditional-featured-image-admin.php:404-410 | An enabled type gets the input list with 'custom-fields' appended at the end; otherwise the input is returned unchanged |
| Admin.CptuiAppendsOneCustomFields | include/class-conditional-featured-image-admin.php:406 | The appended entry is not de-duplicated: one more 'custom-fields' per call, other entries' counts unchanged |
| Frontend.IsImageMarkedHidden | include/class-conditional-featured-image-frontend.php:278-291 | False for a known post of a disabled type (a falsy type such as "0" skips this check) and for unknown ids. Otherwise true iff the stored flag is non-empty and not "0" |
| Frontend.HiddenIffStoredYes | include/class-conditional-featured-image-frontend.php:284-290 | For an enabled type with a plugin-written flag, hidden iff the flag is "yes" |
| Frontend.SetQuery | include/class-conditional-featured-image-frontend.php:251-269 | A WP_Query hook argument is used as the query; otherwise the global `$wp_query` if it is one. No query is found only when neither is a WP_Query |
| Frontend.AddFeaturedImageFilter | include/class-conditional-featured-image-frontend.php:299-302 | Records the post id and installs the callback; the recorded query is kept |
| Frontend.RemoveFeaturedImageFilter | include/class-conditional-featured-image-frontend.php:307-310 | Retracts the callback and clears the post id |
| Frontend.SetVisibility | include/class-conditional-featured-image-frontend.php:198-237 | No query: no change. A non-main query or an embed retracts the callback. A non-single main query, and a non-embed single view whose image is not hidden, keep the callback state. A hidden single view installs it for the current id. It is only ever installed for a hidden image, and the installed-iff-id-recorded invariant is kept |
| Frontend.HideFeaturedImageInTheLoop | include/class-conditional-featured-image-frontend.php:324-357 | Answers `false` or passes the value through. Any key other than '_thumbnail_id', or another object id, passes through. For the recorded post it answers `false` when 'cybocfi_only_hide_in_the_loop' is falsy or the loop is running |
| Frontend.MetadataLookup | include/class-conditional-featured-image-frontend.php:299-310 | While the callback is installed, a lookup returns the callback's answer; while it is not, every lookup returns its value unchanged |
| Frontend.SecondaryQueryUnaffected | include/class-conditional-featured-image-frontend.php:203-213 | After `set_visibility` sees a non-main query, no metadata lookup is altered |
| Frontend.EmbedKeepsImage | include/class-conditional-featured-image-frontend.php:222-231 | An embed view of a single post alters no lookup, even for a hidden post |
| Frontend.HiddenSingularHidesInLoop | include/class-conditional-featured-image-frontend.php:233-236 | On a hidden main, non-embed single view, the post's '_thumbnail_id' reads `false` in the loop |
| Frontend.IsQueryBlock | include/class-conditional-featured-image-frontend.php:150-153 | True iff the query vars have 'pagename' equal to exactly 'query-block' |
| Frontend.FeaturedImageBlock | include/class-conditional-featured-image-frontend.php:119-138 | Returns '' iff there is a query, it is singular and main, it is not a query block and the post is hidden; otherwise the content. Only a missing query is filled in, from the global one |
| Frontend.QueryLoopBlockKeepsImage | include/class-conditional-featured-image-frontend.php:120-133 | A featured-image block inside a query-loop block is never dropped, whether the query was recorded earlier or is taken from the global one when the block renders first |
| Frontend.BlockFilterIgnoresEmbed | include/class-conditional-featured-image-frontend.php:128-133 | The block filter's answer does not depend on the embed flag of the query in use, recorded or global |
| Frontend.Twentynineteen | include/class-conditional-featured-image-frontend.php:99-105 | Returns `false` on a main singular view of a hidden post; otherwise returns the input unchanged |
| Frontend.TwentynineteenAgreesWithBlock | include/class-conditional-featured-image-frontend.php:99-138 | When the query in use answers singular and main like the global tags and is not a query-loop block, a non-empty block is dropped iff the theme is told not to show the thumbnail |
| Frontend.TwentynineteenIgnoresEmbed | include/class-conditional-featured-image-frontend.php:99-105 | On a main singular embed of a hidden post the theme check still answers `false`, while `set_visibility` leaves the metadata callback uninstalled |
| Frontend.FirstMainImage | include/class-conditional-featured-image-frontend.php:182-187 | Finds the first Main_Image piece: every earlier piece is not one; no result means no piece is one |
| Frontend.RemoveMainImageSchemaBlock | include/class-conditional-featured-image-frontend.php:181-190 | Removes exactly the first Main_Image piece. Every other piece keeps its key and relative order; with no Main_Image the pieces are unchanged |
| Frontend.SetSchemaVisibility | include/class-conditional-featured-image-frontend.php:164-172 | Pieces change only when the context post is hidden, and then by at most one removed piece, the first Main_Image |
| Frontend.RunKeepsConsistent | include/class-conditional-featured-image-frontend.php:299-310 | Over any sequence of startup-hook and block events, the callback is installed exactly while a post id is recorded |
| Legacy.LegacySaveCustomMetaContent | conditional-featured-image.php:130-148 | Autosaves, revisions and absent fields change nothing. Otherwise stores "yes" iff the posted value is exactly "yes", else "" |
| Legacy.LegacyNonceGuardIneffective | conditional-featured-image.php:136-140 | The 1.3.0 save result does not depend on the nonce, and a request without one is saved |
| Legacy.LegacySaveIntended | conditional-featured-image.php:135-141 | Corrected 1.3.0 save: no change without a verified nonce |
| Legacy.LegacySaveAgreesWithCurrent | conditional-featured-image.php:143-147 | The 1.3.0 save and the current save store the same meta for every request |
| Legacy.FilterFeaturedImage | conditional-featured-image.php:197-200 | Records the post id and installs the callback |
| Legacy.LegacySetVisibility | conditional-featured-image.php:175-189 | Installs the callback for the post iff it is a single view and its flag casts to true; otherwise no change. It never retracts |
| Legacy.LegacyHideFeaturedImage | conditional-featured-image.php:214-218 | `false` for the recorded post's '_thumbnail_id'; null (no return statement) for every other key or id |
| Legacy.LegacyDropsOtherValues | conditional-featured-image.php:214-218 | For unrelated keys the current callback passes the value through, while 1.3.0 returns null |
| Legacy.LegacyIgnoresPostTypeGate | conditional-featured-image.php:175-189 | On a main, non-embed single view of a known post whose type is truthy but switched off and whose flag casts to true, 1.3.0 installs its callback while the current version, starting with nothing installed, does not |
| Legacy.LegacyIgnoresGateExample | conditional-featured-image.php:175-189 | A concrete case: a page of a type switched off by `__return_false`, flag "yes" |
| Legacy.LegacyNeverRetracts | conditional-featured-image.php:175-189 | After a later 'the_post' of any post outside a single view, the 1.3.0 callback stays installed and the recorded post's '_thumbnail_id' still reads `false` |

## Findings

| source | as written | input that shows it | evidently intended | confidence | as-written member | corrected member |
|---|---|---|---|---|---|---|
| include/class-conditional-featured-image-admin.php:329-334 | `$is_valid_nonce` is the string 'true' or 'false'. Both are truthy, so `! $is_valid_nonce` is always false | A non-autosave save of a post that posts `cybocfi_hide_featured_image=yes` and no `cybocfi_nonce` stores "yes" | Skip the save unless the nonce is present and verifies | high; not executed | Admin.SaveCustomMetaContent (shown by Admin.ForgedRequestIsSaved, Admin.NonceGuardIneffective) | Admin.SaveCustomMetaContentIntended |
| conditional-featured-image.php:136-140 | Same string-valued nonce marker in the 1.3.0 save | The same request against 1.3.0 stores "yes" | Skip the save unless the nonce verifies | high; not executed | Legacy.LegacySaveCustomMetaContent (shown by Legacy.LegacyNonceGuardIneffective) | Legacy.LegacySaveIntended |

## Left out

- Hook registration and dispatch are not modelled: `run()`, `add_action`, `add_filter`, `remove_filter` and the 'cybocfi_startup_hook' choice. They appear only as the `filterInstalled` flag and as the events of `Frontend.Run`.
- Filter callbacks receive all extra arguments. Priorities are assumed already applied, since the chain is in run order. The deprecation notice that `apply_filters_deprecated` emits is I/O.
- WordPress conditional tags and `get_the_ID()` are inputs (`Env`). The case where `get_the_ID()` returns `false` is not modelled; the id is an integer.
- `get_default_checkbox_value` with no argument reads the current screen's post type. The model always takes the post type as an argument.
- The metabox HTML output (`new_post_thumbnail_meta_box`) is left out as UI output; its form values are modelled as `Admin.PostedHideField`. Also left out as UI: `modify_postimagediv_metabox`, `is_block_editor`, `initialize_metabox`, `check_post_type_and_load` (it only calls the gate), script enqueueing, `get_block_editor_inline_script`, localisation and `set_checkbox_label`, so the label-override behaviour is not modelled.
- `register_meta` wiring beyond the sanitiser is left out, including `auth_callback`: it is a capability check inside WordPress.
- The 1.3.0 metabox is left out. Its checked decision is the existing-post branch of `Admin.CheckedTag`.
- The block-editor script (src/index.js) is a React UI. Its encoding `value ? 'yes' : ''` is the same as `HideFlag.EncodeHideFlag`.
- Singleton `get_instance` plumbing is left out, and so is the Yoast class hierarchy. `Main_Image` is the `isMainImage` field of a piece.
- PHP floats have no NAN or INF here. Objects are compared by handle. `(string)` casts are modelled only for the bool and string arguments that `checked()` receives.
- `get_post_meta($id)` returning `false` for post id 0 is not modelled. In that case `array_key_exists` in `handle_imports` would fail at run time.
- `Frontend.Query` is a snapshot of a WP_Query's answers. In the code, `$this->query` is a handle, and the block filter asks the live object `is_singular()` and `is_main_query()` when it renders. A query whose answers change after it is recorded is not modelled.
- Admin.HandleImports: the no-overwrite clause is about the meta map the function reads. For an inserted revision or autosave, WordPress's `update_post_meta` writes to the parent post, whose existing flag could then be overwritten. That redirect lies inside WordPress and is not modelled, and `handle_imports` has no revision or autosave guard.
- `update_post_meta` is modelled as replacing every stored value of the key. Its return value is not used by the plugin.
