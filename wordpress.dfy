/**
 * The host platform as the plugin uses it.
 *
 * Everything WordPress (or PHP's runtime) computes on the plugin's behalf and
 * that the plugin does not define itself is a field of `Platform`: the
 * sanitizers, `is_email`, `wp_verify_nonce`, `md5(wp_json_encode(...))`, the
 * haversine distance, `version_compare`, `add_query_arg` and the database
 * query behind `WP_Query`. The persistent state the plugin reads and writes
 * (posts with their meta, transients, site transients, its option array) is
 * the class `Site`; its methods are the storage calls, each stating exactly
 * what it changes.
 */
module WordPress {
  import opened Php

  /** Post type of gym units (Post_Type_Unidade::CPT). */
  const UnitType := "sou_unidade"
  /** Post type of leads (Post_Type_Lead::CPT). */
  const LeadType := "sou_lead"
  /** Transient that lists every cache key written by the unit listing. */
  const CacheIndexKey := "soumais_locator_cache_keys"

  /** One unit as the `/unidades` endpoint returns it. */
  datatype UnitPayload = UnitPayload(
    id: int,
    title: string,
    address: string,
    phone: Value,
    whatsapp: Value,
    hours: string,
    url: string,
    distance: Option<real>,
    thumbnail: Value)

  /**
   * What a transient can hold here: a cached unit list, the key index, or any
   * other value (a non-array index after corruption, for instance).
   */
  datatype Cached =
    | UnitList(units: seq<UnitPayload>)
    | KeyIndex(keys: seq<string>)
    | Scalar(v: Value)

  /** A post row with its meta. */
  datatype Post = Post(postType: string, title: string, status: string, meta: map<string, Value>)

  /** Observable effects, in the order they happen. */
  datatype Event =
    | Inserted(id: int)
    | MetaSaved(id: int, key: string)
    | Dispatched(payload: map<string, Value>)

  /** The functions WordPress and PHP supply, left uninterpreted. */
  datatype Platform = Platform(
    casts: Casts,
    sanitizeText: string -> string,                     // sanitize_text_field
    sanitizeEmail: string -> string,                    // sanitize_email
    isEmail: string -> bool,                            // is_email
    verifyNonce: (string, string) -> bool,              // wp_verify_nonce($nonce, $action)
    escUrlRaw: string -> string,                        // esc_url_raw
    ksesPost: string -> string,                         // wp_kses_post
    stripAllTags: string -> string,                     // wp_strip_all_tags
    unslash: string -> string,                          // wp_unslash
    rawUrlEncode: string -> string,                     // rawurlencode
    addQueryArg: (seq<(string, string)>, string) -> string,  // add_query_arg($args, $url)
    homeUrl: string,                                    // home_url()
    jsonMd5: seq<(string, Value)> -> string,            // md5(wp_json_encode($args))
    distance: (real, real, real, real) -> real,         // Helpers::calculate_distance
    versionLe: (string, string) -> bool,                // version_compare($a, $b, '<=')
    thumbnailUrl: int -> Value,                         // get_the_post_thumbnail_url($id, 'medium')
    unitsQueryArgs: (seq<(string, Value)>, seq<(string, Value)>) -> seq<(string, Value)>,
                                                        // the 'soumais_locator_units_query_args' filter
    query: (seq<(string, Value)>, seq<Post>) -> seq<int>,   // WP_Query($args)->posts, as IDs
    insertFails: (seq<Post>, Post) -> bool,             // wp_insert_post's database write failing
    sameTitle: (string, string) -> bool,                // post_title = %s under the table's collation
    theTitle: Post -> string,                           // the 'the_title' filters get_the_title runs on a post:
                                                        // wptexturize, convert_chars, trim and the
                                                        // "Private:" / "Protected:" prefixes
    sanitizeMeta: (string, string, Value) -> Value      // sanitize_meta($key, $value, 'post', $post_type): the
                                                        // sanitize_callback register_post_meta installed for the
                                                        // post type and key, which update_post_meta applies
  )

  /** `sanitize_text_field`, which answers '' for an array. */
  function TextField(wp: Platform, v: Value): string
  {
    if v.Arr? then "" else wp.sanitizeText(ToStr(wp.casts, v))
  }

  /** Whether a sequence of meta writes touches `key`. */
  predicate WritesKey(writes: seq<(string, Value)>, key: string)
  {
    exists i :: 0 <= i < |writes| && writes[i].0 == key
  }

  /**
   * The meta of a post of type `postType` after `update_post_meta` for each
   * write in turn: written keys hold their last written value as the
   * registered sanitizer leaves it, every other key is untouched.
   */
  function ApplyMeta(wp: Platform, postType: string, meta: map<string, Value>, writes: seq<(string, Value)>): (r: map<string, Value>)
    ensures forall k :: k in r <==> k in meta || WritesKey(writes, k)
    ensures forall k :: k in meta && !WritesKey(writes, k) ==> r[k] == meta[k]
  {
    if writes == [] then meta
    else
      var last := writes[|writes| - 1];
      var init := writes[..|writes| - 1];
      var m := ApplyMeta(wp, postType, meta, init);
      assert forall k :: WritesKey(writes, k) <==> WritesKey(init, k) || k == last.0 by {
        forall k | WritesKey(writes, k) && k != last.0
          ensures WritesKey(init, k)
        {
          var i :| 0 <= i < |writes| && writes[i].0 == k;
          assert init[i].0 == k;
        }
        forall k | WritesKey(init, k)
          ensures WritesKey(writes, k)
        {
          var i :| 0 <= i < |init| && init[i].0 == k;
          assert writes[i].0 == k;
        }
      }
      m[last.0 := wp.sanitizeMeta(postType, last.0, last.1)]
  }

  /** Of several writes to one key, the last one is what the post keeps. */
  lemma {:induction false} ApplyMetaLastWins(wp: Platform, postType: string, meta: map<string, Value>, writes: seq<(string, Value)>, i: nat)
    requires i < |writes|
    requires forall j :: i < j < |writes| ==> writes[j].0 != writes[i].0
    ensures writes[i].0 in ApplyMeta(wp, postType, meta, writes)
    ensures ApplyMeta(wp, postType, meta, writes)[writes[i].0] == wp.sanitizeMeta(postType, writes[i].0, writes[i].1)
  {
    var init := writes[..|writes| - 1];
    if i < |init| {
      assert writes[|writes| - 1].0 != writes[i].0;
      assert init[i] == writes[i];
      forall j | i < j < |init| ensures init[j].0 != init[i].0 {
        assert init[j] == writes[j];
      }
      ApplyMetaLastWins(wp, postType, meta, init, i);
    }
  }

  /** A written key holds what the registered sanitizer made of one of the values written to it. */
  lemma {:induction false} ApplyMetaWritten(wp: Platform, postType: string, meta: map<string, Value>, writes: seq<(string, Value)>, key: string)
    requires WritesKey(writes, key)
    ensures exists i :: (0 <= i < |writes| && writes[i].0 == key
                         && ApplyMeta(wp, postType, meta, writes)[key] == wp.sanitizeMeta(postType, key, writes[i].1))
  {
    var n := |writes| - 1;
    var init := writes[..n];
    if writes[n].0 != key {
      var j :| 0 <= j < |writes| && writes[j].0 == key;
      assert init[j].0 == key;
      ApplyMetaWritten(wp, postType, meta, init, key);
      var i :| 0 <= i < |init| && init[i].0 == key
        && ApplyMeta(wp, postType, meta, init)[key] == wp.sanitizeMeta(postType, key, init[i].1);
      assert writes[i] == init[i];
    }
  }

  /** The post table after the writes; an unknown post ID changes nothing. */
  function WithMeta(wp: Platform, posts: seq<Post>, id: int, writes: seq<(string, Value)>): (r: seq<Post>)
    ensures |r| == |posts|
    ensures forall k :: 0 <= k < |posts| && k != id - 1 ==> r[k] == posts[k]
    ensures 1 <= id <= |posts| ==>
      r[id - 1] == posts[id - 1].(meta := ApplyMeta(wp, posts[id - 1].postType, posts[id - 1].meta, writes))
  {
    if 1 <= id <= |posts| then posts[id - 1 := posts[id - 1].(meta := ApplyMeta(wp, posts[id - 1].postType, posts[id - 1].meta, writes))]
    else posts
  }

  /** The events the writes log: one per write, for a known post only. */
  function MetaEvents(posts: seq<Post>, id: int, writes: seq<(string, Value)>): (r: seq<Event>)
    ensures 1 <= id <= |posts| ==> |r| == |writes| && forall i :: 0 <= i < |writes| ==> r[i] == MetaSaved(id, writes[i].0)
    ensures !(1 <= id <= |posts|) ==> r == []
  {
    if 1 <= id <= |posts| then seq(|writes|, i requires 0 <= i < |writes| => MetaSaved(id, writes[i].0)) else []
  }

  /** The post table after one `update_post_meta`, sanitized as registered; an unknown post ID changes nothing. */
  function SetMeta(wp: Platform, posts: seq<Post>, id: int, key: string, value: Value): (r: seq<Post>)
    ensures |r| == |posts|
    ensures forall k :: 0 <= k < |posts| && k != id - 1 ==> r[k] == posts[k]
    ensures 1 <= id <= |posts| ==>
      r[id - 1].meta == posts[id - 1].meta[key := wp.sanitizeMeta(posts[id - 1].postType, key, value)]
  {
    if 1 <= id <= |posts| then
      posts[id - 1 := posts[id - 1].(meta := posts[id - 1].meta[key := wp.sanitizeMeta(posts[id - 1].postType, key, value)])]
    else posts
  }

  /** The event one `update_post_meta` logs: none for an unknown post. */
  function SetMetaEvents(posts: seq<Post>, id: int, key: string): seq<Event>
  {
    if 1 <= id <= |posts| then [MetaSaved(id, key)] else []
  }

  /** Writing one more pair is one more `update_post_meta`. */
  lemma WithMetaSnoc(wp: Platform, posts: seq<Post>, id: int, writes: seq<(string, Value)>, x: (string, Value))
    ensures WithMeta(wp, posts, id, writes + [x]) == SetMeta(wp, WithMeta(wp, posts, id, writes), id, x.0, x.1)
    ensures MetaEvents(posts, id, writes + [x]) ==
      MetaEvents(posts, id, writes) + SetMetaEvents(WithMeta(wp, posts, id, writes), id, x.0)
  {
    assert (writes + [x])[..|writes|] == writes;
  }

  /** `get_post_meta($id, $key, true)` on a post table: '' when the post or the key is absent. */
  function PostMeta(posts: seq<Post>, id: int, key: string): Value
  {
    if 1 <= id <= |posts| && key in posts[id - 1].meta then posts[id - 1].meta[key] else Str("")
  }

  /**
   * `get_the_title($id)` on a post table: the stored post as the `the_title`
   * filters display it, '' for an unknown ID.
   */
  function PostTitle(wp: Platform, posts: seq<Post>, id: int): string
  {
    if 1 <= id <= |posts| then wp.theTitle(posts[id - 1]) else ""
  }

  /**
   * `wp_insert_post(['ID' => $id, ...])` without `$wp_error`, as the new ID
   * and post table: 0 and no change when the write fails, the given ID when
   * updating an existing post (whose meta stays), a new ID for `$id == 0`.
   */
  function InsertResult(wp: Platform, posts: seq<Post>, id: int, postType: string, title: string, status: string): (r: (int, seq<Post>))
    requires id == 0 || 1 <= id <= |posts|
    ensures var p := Post(postType, title, status, if id == 0 then map[] else posts[id - 1].meta);
      if wp.insertFails(posts, p) then r == (0, posts)
      else if id == 0 then r == (|posts| + 1, posts + [p])
      else r == (id, posts[id - 1 := p])
  {
    var p := Post(postType, title, status, if id == 0 then map[] else posts[id - 1].meta);
    if wp.insertFails(posts, p) then (0, posts)
    else if id == 0 then (|posts| + 1, posts + [p])
    else (id, posts[id - 1 := p])
  }

  /** The site's persistent state. Post ID `k` (k >= 1) is `posts[k - 1]`. */
  class Site {
    var posts: seq<Post>
    var transients: map<string, Cached>
    var siteTransients: set<string>
    var options: map<string, Value>
    var log: seq<Event>

    constructor ()
      ensures posts == [] && transients == map[] && siteTransients == {}
      ensures options == map[] && log == []
    {
      posts := [];
      transients := map[];
      siteTransients := {};
      options := map[];
      log := [];
    }

    /** `get_post($id)`: the post, or none for an unknown ID. */
    function PostOf(id: int): Option<Post>
      reads this
    {
      if 1 <= id <= |posts| then Some(posts[id - 1]) else None
    }

    /** `get_post_meta($id, $key, true)`. */
    function MetaOf(id: int, key: string): Value
      reads this
    {
      PostMeta(posts, id, key)
    }

    /** `get_the_title($id)`. */
    function TitleOf(wp: Platform, id: int): string
      reads this
    {
      PostTitle(wp, posts, id)
    }

    /** `set_transient($key, $value, $ttl)`; expiry is not modelled. */
    method SetTransient(key: string, value: Cached)
      modifies this`transients
      ensures transients == old(transients)[key := value]
    {
      transients := transients[key := value];
    }

    /** `delete_transient($key)`. */
    method DeleteTransient(key: string)
      modifies this`transients
      ensures transients == old(transients) - {key}
    {
      transients := transients - {key};
    }

    /** `delete_site_transient($key)`. */
    method DeleteSiteTransient(key: string)
      modifies this`siteTransients
      ensures siteTransients == old(siteTransients) - {key}
    {
      siteTransients := siteTransients - {key};
    }

    /**
     * `wp_insert_post(['ID' => $id, ...])` without `$wp_error`: it returns 0
     * when the write fails, the given ID when updating an existing post (whose
     * meta stays), and a new ID for `$id == 0`.
     */
    method InsertPost(wp: Platform, id: int, postType: string, title: string, status: string) returns (r: int)
      requires id == 0 || 1 <= id <= |posts|
      modifies this`posts, this`log
      ensures (r, posts) == InsertResult(wp, old(posts), id, postType, title, status)
      ensures log == old(log) + (if r == 0 then [] else [Inserted(r)])
    {
      var p := Post(postType, title, status, if id == 0 then map[] else posts[id - 1].meta);
      if wp.insertFails(posts, p) {
        r := 0;
      } else if id == 0 {
        posts := posts + [p];
        r := |posts|;
        log := log + [Inserted(r)];
      } else {
        posts := posts[id - 1 := p];
        r := id;
        log := log + [Inserted(r)];
      }
    }

    /**
     * `update_post_meta($id, $key, $value)`: the value goes through the
     * sanitizer registered for the post's type and the key; a no-op for an
     * unknown post.
     */
    method UpdatePostMeta(wp: Platform, id: int, key: string, value: Value)
      modifies this`posts, this`log
      ensures posts == SetMeta(wp, old(posts), id, key, value)
      ensures log == old(log) + SetMetaEvents(old(posts), id, key)
    {
      if 1 <= id <= |posts| {
        var stored := wp.sanitizeMeta(posts[id - 1].postType, key, value);
        posts := posts[id - 1 := posts[id - 1].(meta := posts[id - 1].meta[key := stored])];
        log := log + [MetaSaved(id, key)];
      }
    }

    /**
     * A call to `Webhook::dispatch($payload)`, recorded as an event. Whether it
     * posts anything (its enabled and URL checks, the payload filter and the
     * HTTP call) is not modelled.
     */
    method Dispatch(payload: map<string, Value>)
      modifies this`log
      ensures log == old(log) + [Dispatched(payload)]
    {
      log := log + [Dispatched(payload)];
    }
  }

  /**
   * `update_post_meta` as one more write after `writes`: a site whose post
   * table and log are those writes applied to `posts0`, `log0` gets them
   * with the new write appended.
   */
  method AppendMeta(site: Site, wp: Platform, id: int, ghost posts0: seq<Post>, ghost log0: seq<Event>,
                    ghost writes: seq<(string, Value)>, key: string, value: Value)
    requires site.posts == WithMeta(wp, posts0, id, writes)
    requires site.log == log0 + MetaEvents(posts0, id, writes)
    modifies site`posts, site`log
    ensures site.posts == WithMeta(wp, posts0, id, writes + [(key, value)])
    ensures site.log == log0 + MetaEvents(posts0, id, writes + [(key, value)])
  {
    WithMetaSnoc(wp, posts0, id, writes, (key, value));
    site.UpdatePostMeta(wp, id, key, value);
  }
}
