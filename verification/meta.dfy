/**
  Post metadata as WordPress stores it: every post maps each meta key to the
  list of values stored under it (a key may be stored more than once).
 */
module Meta {
  import opened Options

  /** The meta of one post: key to stored values, as `get_post_meta($id)` returns it. */
  type PostMeta = map<string, seq<string>>

  datatype Post = Post(postType: string, meta: PostMeta)

  /** All posts of the site by id. */
  type Site = map<int, Post>

  /** `CYBOCFI_PLUGIN_PREFIX . '_hide_featured_image'`, the plugin's one meta key. */
  const HideKey: string := "cybocfi_hide_featured_image"

  /** The key WordPress stores a post's featured-image attachment id under. */
  const ThumbnailKey: string := "_thumbnail_id"

  /** `get_post_meta($id, $key, true)` on one post's meta: the first stored
      value, or '' when the key holds nothing. */
  function FirstValue(meta: PostMeta, key: string): (r: string)
    ensures key !in meta ==> r == ""
    ensures key in meta && |meta[key]| > 0 ==> r == meta[key][0]
  {
    if key in meta && |meta[key]| > 0 then meta[key][0] else ""
  }

  /** `update_post_meta($id, $key, $value)` without a previous value: every
      value stored under the key is replaced, or the value is added if the
      key holds nothing. No other key changes. */
  function UpdatePostMeta(meta: PostMeta, key: string, value: string): (m: PostMeta)
    ensures key in m && FirstValue(m, key) == value
    ensures forall v :: v in m[key] ==> v == value
    ensures m.Keys == meta.Keys + {key}
    ensures forall k :: k in meta && k != key ==> m[k] == meta[k]
  {
    var n := if key in meta && |meta[key]| > 0 then |meta[key]| else 1;
    meta[key := seq(n, _ => value)]
  }

  /** `get_post_type($id)`: the post's type, or false (None) for an unknown id. */
  function GetPostType(site: Site, id: int): Option<string> {
    if id in site then Some(site[id].postType) else None
  }

  /** `get_post_meta($id, $key, true)` on the site: '' for an unknown post. */
  function GetPostMetaSingle(site: Site, id: int, key: string): (r: string)
    ensures id !in site ==> r == ""
  {
    if id in site then FirstValue(site[id].meta, key) else ""
  }
}
