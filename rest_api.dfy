/**
 * The two REST routes of includes/class-rest-api.php: `GET /unidades`, which
 * lists the active units (cached per request, every cache key recorded in an
 * index transient), and `POST /lead`, which validates a lead, stores it and
 * hands it to `Webhook::dispatch`.
 */
module RestApi {
  import opened Php
  import opened WordPress
  import opened Settings
  import opened Helpers
  import LeadPostType

  // ---------------------------------------------------------------------------
  // validate_coordinate
  // ---------------------------------------------------------------------------

  /**
   * `REST_API::validate_coordinate`: a number within [-180, 180]. Null,
   * booleans and arrays are refused; an integer or a float is accepted
   * exactly when it lies within the range.
   */
  function ValidateCoordinate(c: Casts, v: Value): (ok: bool)
    ensures ok ==> v.Int? || v.Num? || v.Str?
    ensures v.Int? ==> (ok <==> -180 <= v.i <= 180)
    ensures v.Num? ==> (ok <==> -180.0 <= v.r <= 180.0)
  {
    IsNumeric(c, v) && -180.0 <= ToFloat(c, v) <= 180.0
  }

  // ---------------------------------------------------------------------------
  // The key index: store_cache_key
  // ---------------------------------------------------------------------------

  /** The index as `store_cache_key` reads it: anything but a key list reads as empty. */
  function IndexOf(transients: map<string, Cached>): seq<string>
  {
    if CacheIndexKey in transients && transients[CacheIndexKey].KeyIndex? then transients[CacheIndexKey].keys else []
  }

  /**
   * The index key holds a key list whenever it is set. The plugin's own
   * writes keep this: `store_cache_key` always stores a key list there, and a
   * purge deletes it.
   */
  predicate IndexWellFormed(transients: map<string, Cached>)
  {
    CacheIndexKey in transients ==> transients[CacheIndexKey].KeyIndex?
  }

  predicate NoDuplicates(keys: seq<string>)
  {
    forall i, j :: 0 <= i < j < |keys| ==> keys[i] != keys[j]
  }

  /**
   * The transients after `store_cache_key($key)`: the key is appended to the
   * index unless it is already there; no other transient changes.
   */
  function IndexAfterStore(transients: map<string, Cached>, key: string): (r: map<string, Cached>)
    ensures IndexOf(r) == IndexOf(transients) + (if key in IndexOf(transients) then [] else [key])
    ensures IndexWellFormed(r)
    ensures forall k :: k != CacheIndexKey ==> (k in r <==> k in transients)
    ensures forall k :: k != CacheIndexKey && k in transients ==> r[k] == transients[k]
  {
    var keys := IndexOf(transients);
    if key in keys then transients else transients[CacheIndexKey := KeyIndex(keys + [key])]
  }

  /** After storing, the key is indexed, and an index without duplicates keeps none. */
  lemma StoreCacheKeyIndexes(transients: map<string, Cached>, key: string)
    ensures key in IndexOf(IndexAfterStore(transients, key))
    ensures NoDuplicates(IndexOf(transients)) ==> NoDuplicates(IndexOf(IndexAfterStore(transients, key)))
    ensures forall k :: k in IndexOf(transients) ==> k in IndexOf(IndexAfterStore(transients, key))
  {
    var keys := IndexOf(transients);
    if key !in keys {
      assert IndexOf(IndexAfterStore(transients, key))[|keys|] == key;
    }
  }

  /** Storing the same key twice is storing it once. */
  lemma StoreCacheKeyIdempotent(transients: map<string, Cached>, key: string)
    ensures IndexAfterStore(IndexAfterStore(transients, key), key) == IndexAfterStore(transients, key)
  {
    StoreCacheKeyIndexes(transients, key);
  }

  /** `REST_API::store_cache_key`. */
  method StoreCacheKey(site: Site, key: string)
    modifies site`transients
    ensures site.transients == IndexAfterStore(old(site.transients), key)
  {
    var keys: seq<string> := [];
    if CacheIndexKey in site.transients && site.transients[CacheIndexKey].KeyIndex? {
      keys := site.transients[CacheIndexKey].keys;
    }
    if key !in keys {
      keys := keys + [key];
      site.SetTransient(CacheIndexKey, KeyIndex(keys));
    }
  }

  /** Every cached unit list is listed in the index, so `purge_cache` can find it. */
  predicate CacheIndexed(transients: map<string, Cached>)
  {
    forall k :: k in transients && transients[k].UnitList? ==> k in IndexOf(transients)
  }

  // ---------------------------------------------------------------------------
  // get_units
  // ---------------------------------------------------------------------------

  /** The meta query on `_sou_status = active`, kept as an opaque array value. */
  const ActiveMetaQuery: Value := Arr([Arr([Str("_sou_status"), Str("active")])])

  /**
   * The `WP_Query` arguments before the filter: the limit always goes into
   * `posts_per_page`, and a non-empty `query` becomes the search term `s`.
   */
  function QueryArgs(c: Casts, options: map<string, Value>, params: Assoc): (r: Assoc)
    ensures DistinctKeys(r)
    ensures Lookup(r, "post_type") == Some(Str(UnitType)) && Lookup(r, "post_status") == Some(Str("publish"))
    ensures IsSet(params, "limit") ==> Lookup(r, "posts_per_page") == Some(Int(ToInt(c, Get(params, "limit"))))
    ensures !IsSet(params, "limit") ==> Lookup(r, "posts_per_page") == Some(GetOption(options, "results_limit", Int(6)))
    ensures Truthy(Get(params, "query")) <==> HasKey(r, "s")
    ensures Truthy(Get(params, "query")) ==> Lookup(r, "s") == Some(Get(params, "query"))
  {
    var limit := if IsSet(params, "limit") then Int(ToInt(c, Get(params, "limit"))) else GetOption(options, "results_limit", Int(6));
    var base := [("post_type", Str(UnitType)), ("posts_per_page", limit), ("post_status", Str("publish")), ("meta_query", ActiveMetaQuery)];
    var r := if Truthy(Get(params, "query")) then base + [("s", Get(params, "query"))] else base;
    assert forall i :: 0 <= i < |base| ==> base[i].0 != "s";
    assert r[0].0 == "post_type" && r[1].0 == "posts_per_page" && r[2].0 == "post_status" && r[3].0 == "meta_query";
    assert Truthy(Get(params, "query")) ==> r[4].0 == "s";
    LookupAt(r, 0);
    LookupAt(r, 1);
    LookupAt(r, 2);
    if Truthy(Get(params, "query")) then LookupAt(r, 4); r else r
  }

  /**
   * The arguments after the `soumais_locator_units_query_args` filter, which
   * is handed the query arguments and the request; with no callback hooked
   * (a filter that answers its first argument) they are the query arguments.
   */
  function FilteredArgs(wp: Platform, options: map<string, Value>, params: Assoc): (r: Assoc)
    ensures (forall args, request :: wp.unitsQueryArgs(args, request) == args) ==> r == QueryArgs(wp.casts, options, params)
  {
    wp.unitsQueryArgs(QueryArgs(wp.casts, options, params), params)
  }

  /** The transient key of a request: the filtered arguments merged with the request. */
  function RequestCacheKey(wp: Platform, options: map<string, Value>, params: Assoc): (r: string)
    ensures |r| >= |CachePrefix| && r[..|CachePrefix|] == CachePrefix
  {
    BuildCacheKey(wp, ArrayMerge(FilteredArgs(wp, options, params), params))
  }

  /** An MD5 digest has 32 characters, so no cache key is the index key. */
  lemma CacheKeyIsNotIndexKey(wp: Platform, args: Assoc)
    requires |wp.jsonMd5(KSort(args))| == 32
    ensures BuildCacheKey(wp, args) != CacheIndexKey
  {
    assert |CacheIndexKey| == 26;
  }

  /**
   * The distance of a unit: only when the request carries both `lat` and
   * `lng` and the unit's own coordinates are both non-zero.
   */
  function UnitDistance(wp: Platform, posts: seq<Post>, params: Assoc, id: int): (r: Option<real>)
    ensures r.Some? <==>
      IsSet(params, "lat") && IsSet(params, "lng")
      && ToFloat(wp.casts, PostMeta(posts, id, "_sou_lat")) != 0.0
      && ToFloat(wp.casts, PostMeta(posts, id, "_sou_lng")) != 0.0
  {
    var lat := ToFloat(wp.casts, PostMeta(posts, id, "_sou_lat"));
    var lng := ToFloat(wp.casts, PostMeta(posts, id, "_sou_lng"));
    if IsSet(params, "lat") && IsSet(params, "lng") && lat != 0.0 && lng != 0.0 then
      Some(wp.distance(ToFloat(wp.casts, Get(params, "lat")), ToFloat(wp.casts, Get(params, "lng")), lat, lng))
    else None
  }

  /** A unit with a distance beyond a non-empty `radius` is skipped. */
  predicate OutOfRadius(c: Casts, params: Assoc, distance: Option<real>)
  {
    distance.Some? && Truthy(Get(params, "radius")) && distance.value > ToFloat(c, Get(params, "radius"))
  }

  /** The payload of one unit. */
  function UnitOf(wp: Platform, posts: seq<Post>, id: int, distance: Option<real>): (r: UnitPayload)
    ensures r.id == id && r.distance == distance
  {
    UnitPayload(
      id := id,
      title := PostTitle(wp, posts, id),
      address := UnitAddress(wp.casts, posts, id),
      phone := PostMeta(posts, id, "_sou_tel"),
      whatsapp := PostMeta(posts, id, "_sou_whatsapp"),
      hours := wp.ksesPost(ToStr(wp.casts, PostMeta(posts, id, "_sou_horario"))),
      url := wp.escUrlRaw(ToStr(wp.casts, PostMeta(posts, id, "_sou_tecno_url"))),
      distance := distance,
      thumbnail := wp.thumbnailUrl(id))
  }

  /** The units the `foreach` over the query's posts collects, in query order. */
  function CollectUnits(wp: Platform, posts: seq<Post>, params: Assoc, ids: seq<int>): (r: seq<UnitPayload>)
    ensures |r| <= |ids|
  {
    if ids == [] then []
    else
      var init := CollectUnits(wp, posts, params, ids[..|ids| - 1]);
      var id := ids[|ids| - 1];
      var d := UnitDistance(wp, posts, params, id);
      if OutOfRadius(wp.casts, params, d) then init else init + [UnitOf(wp, posts, id, d)]
  }

  /** A unit the loop may collect: a queried post within the radius, built from its own meta and distance. */
  predicate Collectable(wp: Platform, posts: seq<Post>, params: Assoc, ids: seq<int>, u: UnitPayload)
  {
    u.id in ids
    && u == UnitOf(wp, posts, u.id, UnitDistance(wp, posts, params, u.id))
    && !OutOfRadius(wp.casts, params, u.distance)
  }

  /** Every collected unit is collectable. */
  lemma {:induction false} CollectUnitsSound(wp: Platform, posts: seq<Post>, params: Assoc, ids: seq<int>)
    ensures forall u :: u in CollectUnits(wp, posts, params, ids) ==> Collectable(wp, posts, params, ids, u)
  {
    if ids != [] {
      var front := ids[..|ids| - 1];
      CollectUnitsSound(wp, posts, params, front);
      var init := CollectUnits(wp, posts, params, front);
      var id := ids[|ids| - 1];
      var d := UnitDistance(wp, posts, params, id);
      forall u | u in init ensures Collectable(wp, posts, params, ids, u) {
        assert Collectable(wp, posts, params, front, u);
        assert u.id in front;
      }
      if !OutOfRadius(wp.casts, params, d) {
        var u := UnitOf(wp, posts, id, d);
        assert u.id == id && u.distance == d;
        assert Collectable(wp, posts, params, ids, u);
      }
    }
  }

  /** No queried unit within the radius is lost: each appears in the list. */
  lemma {:induction false} CollectUnitsComplete(wp: Platform, posts: seq<Post>, params: Assoc, ids: seq<int>, k: int)
    requires 0 <= k < |ids|
    requires !OutOfRadius(wp.casts, params, UnitDistance(wp, posts, params, ids[k]))
    ensures UnitOf(wp, posts, ids[k], UnitDistance(wp, posts, params, ids[k])) in CollectUnits(wp, posts, params, ids)
    decreases |ids|
  {
    var init := ids[..|ids| - 1];
    if k < |ids| - 1 {
      assert init[k] == ids[k];
      CollectUnitsComplete(wp, posts, params, init, k);
    }
  }

  /** The response of `get_units`: a cached value as stored, or a fresh list. */
  datatype UnitsResponse = FromCache(cached: Cached) | Fresh(units: seq<UnitPayload>)

  /** `get_transient` answers false for a missing key and for a stored false alike. */
  predicate CacheHit(transients: map<string, Cached>, key: string)
  {
    key in transients && transients[key] != Scalar(Bool(false))
  }

  /**
   * `REST_API::get_units`. A cache hit answers the stored value and writes
   * nothing; a miss queries, collects, sorts, stores the list under the key
   * and records the key in the index.
   */
  method GetUnits(site: Site, wp: Platform, params: Assoc) returns (r: UnitsResponse)
    modifies site`transients
    ensures var key := RequestCacheKey(wp, old(site.options), params);
      CacheHit(old(site.transients), key) ==> r == FromCache(old(site.transients)[key]) && site.transients == old(site.transients)
    ensures var key := RequestCacheKey(wp, old(site.options), params);
      var ids := wp.query(FilteredArgs(wp, old(site.options), params), old(site.posts));
      !CacheHit(old(site.transients), key) ==>
        r.Fresh?
        && multiset(r.units) == multiset(CollectUnits(wp, old(site.posts), params, ids))
        && ByDistance(r.units)
        && site.transients == IndexAfterStore(old(site.transients)[key := UnitList(r.units)], key)
    ensures CacheIndexed(old(site.transients)) && RequestCacheKey(wp, old(site.options), params) != CacheIndexKey
      ==> CacheIndexed(site.transients)
    ensures IndexWellFormed(old(site.transients)) ==> IndexWellFormed(site.transients)
  {
    var args := FilteredArgs(wp, site.options, params);
    var key := BuildCacheKey(wp, ArrayMerge(args, params));
    if CacheHit(site.transients, key) {
      return FromCache(site.transients[key]);
    }
    var ids := wp.query(args, site.posts);
    var units := CollectLoop(wp, site.posts, params, ids);
    units := SortByDistance(units);
    ghost var before := site.transients;
    site.SetTransient(key, UnitList(units));
    StoreCacheKey(site, key);
    if CacheIndexed(before) && key != CacheIndexKey {
      CachingKeepsIndexed(before, key, units);
    }
    r := Fresh(units);
  }

  /** The `foreach` of `get_units`: `continue` past a unit out of the radius, else append it. */
  method CollectLoop(wp: Platform, posts: seq<Post>, params: Assoc, ids: seq<int>) returns (units: seq<UnitPayload>)
    ensures units == CollectUnits(wp, posts, params, ids)
  {
    units := [];
    var i := 0;
    while i < |ids|
      invariant 0 <= i <= |ids|
      invariant units == CollectUnits(wp, posts, params, ids[..i])
    {
      var id := ids[i];
      var distance := UnitDistance(wp, posts, params, id);
      assert ids[..i + 1][..i] == ids[..i];
      i := i + 1;
      if OutOfRadius(wp.casts, params, distance) {
        continue;
      }
      units := units + [UnitOf(wp, posts, id, distance)];
    }
    assert ids[..i] == ids;
  }

  /** Storing a list and then its key keeps every cached list indexed. */
  lemma CachingKeepsIndexed(transients: map<string, Cached>, key: string, units: seq<UnitPayload>)
    requires CacheIndexed(transients) && key != CacheIndexKey
    ensures CacheIndexed(IndexAfterStore(transients[key := UnitList(units)], key))
  {
    var t := transients[key := UnitList(units)];
    var after := IndexAfterStore(t, key);
    StoreCacheKeyIndexes(t, key);
    forall k | k in after && after[k].UnitList?
      ensures k in IndexOf(after)
    {
      if k == CacheIndexKey {
        assert false;
      } else if k != key {
        assert after[k] == t[k] == transients[k];
        assert k in IndexOf(transients);
        assert IndexOf(t) == IndexOf(transients);
      }
    }
  }

  /** Every unit of a fresh list lies within a non-empty radius. */
  lemma FreshUnitsWithinRadius(c: Casts, params: Assoc, collected: seq<UnitPayload>, units: seq<UnitPayload>)
    requires multiset(units) == multiset(collected)
    requires forall i :: 0 <= i < |collected| ==> !OutOfRadius(c, params, collected[i].distance)
    ensures forall i :: (0 <= i < |units| && Truthy(Get(params, "radius")) && units[i].distance.Some?
      ==> units[i].distance.value <= ToFloat(c, Get(params, "radius")))
  {
    forall i | 0 <= i < |units| && Truthy(Get(params, "radius")) && units[i].distance.Some?
      ensures units[i].distance.value <= ToFloat(c, Get(params, "radius"))
    {
      assert units[i] in multiset(collected);
      var j :| 0 <= j < |collected| && collected[j] == units[i];
      assert !OutOfRadius(c, params, collected[j].distance);
    }
  }

  // ---------------------------------------------------------------------------
  // create_lead
  // ---------------------------------------------------------------------------

  /**
   * The parameters `create_lead` starts from: the request's parameters when
   * non-empty, else its JSON body (none when it is not an array), with the
   * server-side `ip` and `data_envio` written over whatever the client sent.
   */
  function PreparedParams(request: map<string, Value>, json: Option<map<string, Value>>, ip: string, now: string): (r: map<string, Value>)
    ensures At(r, "ip") == Str(ip) && At(r, "data_envio") == Str(now)
    ensures forall k :: k != "ip" && k != "data_envio" ==>
      At(r, k) == (if request != map[] then At(request, k) else if json.Some? then At(json.value, k) else Null)
  {
    var params := if request != map[] then request else if json.Some? then json.value else map[];
    params["ip" := Str(ip)]["data_envio" := Str(now)]
  }

  /** The client cannot choose the lead's IP or submission time. */
  lemma LeadIpIsServerSide(wp: Platform, request: map<string, Value>, json: Option<map<string, Value>>, ip: string, now: string)
    requires Validate(wp, PreparedParams(request, json, ip, now)).Valid?
    ensures Validate(wp, PreparedParams(request, json, ip, now)).lead.ip == wp.sanitizeText(ip)
    ensures Validate(wp, PreparedParams(request, json, ip, now)).lead.dataEnvio == wp.sanitizeText(now)
  {
  }

  /** The outcome of the checks of `create_lead`, before anything is written. */
  datatype Decision = Reject(error: LeadError) | Accept(lead: Lead)

  /** `empty($params['recaptcha'])` on the validated array. */
  predicate RecaptchaMissing(lead: Lead)
  {
    lead.recaptcha.None? || Empty(Str(lead.recaptcha.value))
  }

  /** The unit post exists and is a unit; its status is not looked at. */
  predicate IsUnitPost(posts: seq<Post>, id: int)
  {
    id != 0 && 1 <= id <= |posts| && posts[id - 1].postType == UnitType
  }

  /**
   * The checks of `create_lead` in order: validation, then the reCAPTCHA gate
   * when a key is configured (`recaptchaPasses` is the verdict of
   * `apply_recaptcha_check`), then the unit.
   */
  function Decide(wp: Platform, options: map<string, Value>, posts: seq<Post>, params: map<string, Value>, recaptchaPasses: bool): (d: Decision)
    ensures Validate(wp, params).Invalid? ==> d == Reject(Validate(wp, params).error)
    ensures d == Reject(RecaptchaFailed) <==>
      Validate(wp, params).Valid? && RecaptchaEnabled(options)
      && (RecaptchaMissing(Validate(wp, params).lead) || !recaptchaPasses)
    ensures d == Reject(InvalidUnit) <==>
      Validate(wp, params).Valid?
      && !(RecaptchaEnabled(options) && (RecaptchaMissing(Validate(wp, params).lead) || !recaptchaPasses))
      && !IsUnitPost(posts, Validate(wp, params).lead.unidade)
    ensures d.Accept? ==> Validate(wp, params) == Valid(d.lead) && IsUnitPost(posts, d.lead.unidade)
  {
    match Validate(wp, params)
    case Invalid(e) => Reject(e)
    case Valid(lead) =>
      if RecaptchaEnabled(options) && (RecaptchaMissing(lead) || !recaptchaPasses) then Reject(RecaptchaFailed)
      else if !IsUnitPost(posts, lead.unidade) then Reject(InvalidUnit)
      else Accept(lead)
  }

  /** The response of `create_lead`. */
  datatype LeadResponse = Created(leadId: int, redirectUrl: string) | Failed(error: LeadError)
  {
    /** The HTTP status. */
    function Status(): int
    {
      if Created? then 201 else error.Status()
    }
  }

  /** The title of a new lead post: the sanitized name, " - ", then the clock reading taken for it. */
  function LeadTitle(wp: Platform, lead: Lead, now: string): (r: string)
    ensures |r| == |wp.sanitizeText(lead.nome)| + 3 + |now|
    ensures r[..|wp.sanitizeText(lead.nome)|] == wp.sanitizeText(lead.nome)
    ensures r[|r| - |now| - 3..|r| - |now|] == " - " && r[|r| - |now|..] == now
  {
    wp.sanitizeText(lead.nome) + " - " + now
  }

  /** Where the visitor goes next: the unit's URL when set, else the built redirect. */
  function LeadRedirect(wp: Platform, options: map<string, Value>, params: map<string, Value>): (r: string)
    ensures Present(params, "unidade_url") ==> r == wp.escUrlRaw(ToStr(wp.casts, At(params, "unidade_url")))
    ensures !Present(params, "unidade_url") ==> r == wp.escUrlRaw(BuildRedirectUrl(wp, options, params))
  {
    wp.escUrlRaw(if Present(params, "unidade_url") then ToStr(wp.casts, At(params, "unidade_url")) else BuildRedirectUrl(wp, options, params))
  }

  /** The events an accepted lead logs: the insert, its meta writes, then the call to `Webhook::dispatch`. */
  function AcceptedLog(posts: seq<Post>, leadId: int, writes: seq<(string, Value)>, payload: map<string, Value>): seq<Event>
  {
    (if leadId == 0 then [] else [Inserted(leadId)]) + MetaEvents(posts, leadId, writes) + [Dispatched(payload)]
  }

  /** `Webhook::dispatch` is called last, after the insert and every meta write. */
  lemma AcceptedLogOrder(posts: seq<Post>, leadId: int, writes: seq<(string, Value)>, payload: map<string, Value>)
    ensures var log := AcceptedLog(posts, leadId, writes, payload);
      log[|log| - 1] == Dispatched(payload)
      && (forall i :: 0 <= i < |log| - 1 ==> !log[i].Dispatched?)
      && (leadId != 0 ==> log[0] == Inserted(leadId))
      && (forall i :: 0 < i < |log| - 1 ==> log[i].MetaSaved? && log[i].id == leadId)
  {
  }

  /**
   * `REST_API::create_lead`. `ip` is `get_request_ip()` and `recaptchaPasses`
   * the reCAPTCHA verdict. The clock is read twice: `now` is the
   * `current_time('mysql')` stored as `data_envio`, `titleNow` the later one
   * in the post title; the two need not agree.
   */
  method CreateLead(site: Site, wp: Platform, request: map<string, Value>, json: Option<map<string, Value>>,
                    ip: string, now: string, titleNow: string, recaptchaPasses: bool) returns (r: LeadResponse)
    modifies site`posts, site`log
    ensures var d := Decide(wp, old(site.options), old(site.posts), PreparedParams(request, json, ip, now), recaptchaPasses);
      d.Reject? ==> r == Failed(d.error) && site.posts == old(site.posts) && site.log == old(site.log)
    ensures var d := Decide(wp, old(site.options), old(site.posts), PreparedParams(request, json, ip, now), recaptchaPasses);
      d.Accept? ==>
        var unitId := d.lead.unidade;
        var params := LeadParams(d.lead, PostTitle(wp, old(site.posts), unitId), PostMeta(old(site.posts), unitId, "_sou_tecno_url"));
        var writes := LeadMetaWrites(wp, params, LeadMetaMap);
        var inserted := InsertResult(wp, old(site.posts), 0, LeadType, LeadTitle(wp, d.lead, titleNow), "publish");
        r.Created?
        && r.leadId == inserted.0
        && (r.leadId == 0 || r.leadId == |old(site.posts)| + 1)
        && site.posts == WithMeta(wp, inserted.1, r.leadId, writes)
        && site.log == old(site.log) + AcceptedLog(site.posts, r.leadId, writes, params)
        && r.redirectUrl == LeadRedirect(wp, old(site.options), params)
  {
    var params := PreparedParams(request, json, ip, now);
    var d := CheckLead(wp, site.options, site.posts, params, recaptchaPasses);
    if d.Reject? {
      return Failed(d.error);
    }
    var lead := d.lead;
    var unitId := lead.unidade;
    var unitParams := LeadParams(lead, site.TitleOf(wp, unitId), site.MetaOf(unitId, "_sou_tecno_url"));
    var leadId := SaveLead(site, wp, LeadTitle(wp, lead, titleNow), unitParams);
    r := Created(leadId, LeadRedirect(wp, site.options, unitParams));
  }

  /** The checks of `create_lead`, as the early returns they are. */
  method CheckLead(wp: Platform, options: map<string, Value>, posts: seq<Post>, params: map<string, Value>, recaptchaPasses: bool)
    returns (d: Decision)
    ensures d == Decide(wp, options, posts, params, recaptchaPasses)
  {
    var verified := ValidateLeadPayload(wp, params);
    if verified.Invalid? {
      return Reject(verified.error);
    }
    var lead := verified.lead;
    if RecaptchaEnabled(options) {
      if RecaptchaMissing(lead) || !recaptchaPasses {
        return Reject(RecaptchaFailed);
      }
    }
    var unitId := lead.unidade;
    if unitId == 0 || !(1 <= unitId <= |posts|) || posts[unitId - 1].postType != UnitType {
      return Reject(InvalidUnit);
    }
    d := Accept(lead);
  }

  /** The writes of an accepted lead: insert the post, persist its meta, call `Webhook::dispatch`. */
  method SaveLead(site: Site, wp: Platform, title: string, params: map<string, Value>) returns (leadId: int)
    modifies site`posts, site`log
    ensures leadId == InsertResult(wp, old(site.posts), 0, LeadType, title, "publish").0
    ensures leadId == 0 || leadId == |old(site.posts)| + 1
    ensures site.posts == WithMeta(wp, InsertResult(wp, old(site.posts), 0, LeadType, title, "publish").1, leadId,
                                   LeadMetaWrites(wp, params, LeadMetaMap))
    ensures site.log == old(site.log) + AcceptedLog(site.posts, leadId, LeadMetaWrites(wp, params, LeadMetaMap), params)
  {
    ghost var log0 := site.log;
    leadId := site.InsertPost(wp, 0, LeadType, title, "publish");
    ghost var inserted: seq<Event> := if leadId == 0 then [] else [Inserted(leadId)];
    assert site.log == log0 + inserted;
    PersistAndDispatch(site, wp, leadId, params);
    AcceptedLogAfter(log0, site.posts, leadId, LeadMetaWrites(wp, params, LeadMetaMap), params);
  }

  /** The accepted log appended to an earlier log, split at the insert. */
  lemma AcceptedLogAfter(log0: seq<Event>, posts: seq<Post>, leadId: int, writes: seq<(string, Value)>, payload: map<string, Value>)
    ensures log0 + AcceptedLog(posts, leadId, writes, payload) ==
      log0 + (if leadId == 0 then [] else [Inserted(leadId)]) + MetaEvents(posts, leadId, writes) + [Dispatched(payload)]
  {
  }

  /** `persist_lead_meta` followed by the call to `Webhook::dispatch`. */
  method PersistAndDispatch(site: Site, wp: Platform, leadId: int, params: map<string, Value>)
    modifies site`posts, site`log
    ensures site.posts == WithMeta(wp, old(site.posts), leadId, LeadMetaWrites(wp, params, LeadMetaMap))
    ensures site.log == old(site.log) + MetaEvents(site.posts, leadId, LeadMetaWrites(wp, params, LeadMetaMap)) + [Dispatched(params)]
  {
    ghost var posts1 := site.posts;
    PersistLeadMeta(site, wp, leadId, params);
    assert |site.posts| == |posts1|;
    site.Dispatch(params);
  }

  /**
   * The post an accepted lead leaves behind: when the insert succeeds, a new
   * last post of type `sou_lead`, published, titled as given, whose meta is
   * exactly the persisted fields as their registered callbacks store them;
   * every earlier post is untouched. When it fails, no post changes.
   */
  lemma CreatedLeadPost(wp: Platform, posts: seq<Post>, title: string, params: map<string, Value>)
    ensures var inserted := InsertResult(wp, posts, 0, LeadType, title, "publish");
      var after := WithMeta(wp, inserted.1, inserted.0, LeadMetaWrites(wp, params, LeadMetaMap));
      && (inserted.0 == 0 ==> after == posts)
      && (inserted.0 != 0 ==>
            |after| == |posts| + 1 && after[..|posts|] == posts
            && after[|posts|] == Post(LeadType, title, "publish", ApplyMeta(wp, LeadType, map[], LeadMetaWrites(wp, params, LeadMetaMap))))
  {
    var inserted := InsertResult(wp, posts, 0, LeadType, title, "publish");
    var after := WithMeta(wp, inserted.1, inserted.0, LeadMetaWrites(wp, params, LeadMetaMap));
    if inserted.0 != 0 {
      assert after[..|posts|] == posts by {
        forall k | 0 <= k < |posts|
          ensures after[k] == posts[k]
        {
          assert inserted.1[k] == posts[k];
        }
      }
    }
  }

  /**
   * The registered callbacks on what `persist_lead_meta` writes: the unit and
   * the consent are stored exactly as written (they are already `absint`),
   * the e-mail goes through `sanitize_email` and every text field through
   * `sanitize_text_field` a second time.
   */
  lemma LeadCallbackOnPersistedValue(wp: Platform, key: string, v: Value)
    ensures var written := LeadMetaValue(wp, key, v);
      && (IsIntegerMeta(key) ==> LeadPostType.LeadMetaCallback(wp, key, written) == written)
      && (key == "_sou_email" ==> LeadPostType.LeadMetaCallback(wp, key, written) == Str(wp.sanitizeEmail(written.s)))
      && (key in LeadPostType.TextMetaKeys ==> LeadPostType.LeadMetaCallback(wp, key, written) == Str(wp.sanitizeText(written.s)))
  {
    var written := LeadMetaValue(wp, key, v);
    if IsIntegerMeta(key) {
      assert key !in LeadPostType.TextMetaKeys;
      assert AbsInt(wp.casts, written) == written.i;
    }
  }
}
