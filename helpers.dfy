/**
 * The static helpers of includes/helpers.php: ordering units by distance,
 * the address line, the cache key, the lead payload validator and the
 * normalizers it uses, writing a lead's meta, and the post-submit redirect.
 */
module Helpers {
  import opened Php
  import opened WordPress
  import opened Settings

  // ---------------------------------------------------------------------------
  // sort_by_distance
  // ---------------------------------------------------------------------------

  /** `a` may stand before `b`: a null distance only before another null. */
  predicate DistanceLe(a: Option<real>, b: Option<real>)
  {
    b.None? || (a.Some? && a.value <= b.value)
  }

  /** Units with a distance first, nearest first; the units without one last. */
  predicate ByDistance(units: seq<UnitPayload>)
  {
    forall i, j :: 0 <= i < j < |units| ==> DistanceLe(units[i].distance, units[j].distance)
  }

  /** The comparator `sort_by_distance` hands to `usort`. */
  function Compare(a: UnitPayload, b: UnitPayload): (c: int)
    ensures c == -1 || c == 0 || c == 1
    ensures c > 0 ==> DistanceLe(b.distance, a.distance)
    ensures c <= 0 ==> DistanceLe(a.distance, b.distance)
    ensures c == 0 <==> a.distance.Some? && a.distance == b.distance
  {
    if a.distance.None? then 1
    else if b.distance.None? then -1
    else if a.distance.value == b.distance.value then 0
    else if a.distance.value < b.distance.value then -1
    else 1
  }

  /** The units at distance `d`, in their order: what a stable sort keeps. */
  function AtDistance(units: seq<UnitPayload>, d: real): (r: seq<UnitPayload>)
    ensures |r| <= |units|
  {
    if units == [] then []
    else (if units[0].distance == Some(d) then [units[0]] else []) + AtDistance(units[1..], d)
  }

  /** Units at the same distance stand in `b` in the order they stood in `a`. */
  ghost predicate TiesInOrder(a: seq<UnitPayload>, b: seq<UnitPayload>)
  {
    forall d :: AtDistance(b, d) == AtDistance(a, d)
  }

  /** `AtDistance` of a concatenation. */
  lemma {:induction false} AtDistanceAppend(a: seq<UnitPayload>, b: seq<UnitPayload>, d: real)
    ensures AtDistance(a + b, d) == AtDistance(a, d) + AtDistance(b, d)
  {
    if a == [] {
      assert a + b == b;
    } else {
      var head := if a[0].distance == Some(d) then [a[0]] else [];
      assert (a + b)[0] == a[0] && (a + b)[1..] == a[1..] + b;
      AtDistanceAppend(a[1..], b, d);
      calc {
        AtDistance(a + b, d);
        head + AtDistance(a[1..] + b, d);
        head + (AtDistance(a[1..], d) + AtDistance(b, d));
        (head + AtDistance(a[1..], d)) + AtDistance(b, d);
        AtDistance(a, d) + AtDistance(b, d);
      }
    }
  }

  /** Swapping two neighbours the comparator does not call equal keeps every tie in order. */
  lemma SwapKeepsTies(units: seq<UnitPayload>, r: seq<UnitPayload>, j: nat)
    requires 0 < j < |r| && Compare(r[j - 1], r[j]) != 0
    requires TiesInOrder(units, r)
    ensures TiesInOrder(units, r[j - 1 := r[j]][j := r[j - 1]])
  {
    var t := r[j - 1 := r[j]][j := r[j - 1]];
    var pre, post := r[..j - 1], r[j + 1..];
    assert r == pre + [r[j - 1], r[j]] + post;
    assert t == pre + [r[j], r[j - 1]] + post;
    forall d ensures AtDistance(t, d) == AtDistance(r, d) {
      AtDistanceAppend(pre + [r[j - 1], r[j]], post, d);
      AtDistanceAppend(pre, [r[j - 1], r[j]], d);
      AtDistanceAppend(pre + [r[j], r[j - 1]], post, d);
      AtDistanceAppend(pre, [r[j], r[j - 1]], d);
      assert [r[j - 1], r[j]][1..] == [r[j]];
      assert [r[j], r[j - 1]][1..] == [r[j - 1]];
    }
  }

  /**
   * The state of an insertion step that has moved the unit from `i` down to
   * `j`: the prefix up to `i` is ordered around `j`, the unit at `j` is
   * below everything after it, and nothing beyond `i` has moved.
   */
  ghost predicate Inserting(units: seq<UnitPayload>, r: seq<UnitPayload>, i: nat, j: nat)
  {
    j <= i < |r| == |units| && r[i + 1..] == units[i + 1..]
    && multiset(r) == multiset(units)
    && (forall p, q :: 0 <= p < q <= i && p != j && q != j ==> DistanceLe(r[p].distance, r[q].distance))
    && (forall q :: j < q <= i ==> DistanceLe(r[j].distance, r[q].distance))
    && TiesInOrder(units, r)
  }

  /** Swapping the moving unit with a left neighbour the comparator puts after it. */
  lemma SwapStep(units: seq<UnitPayload>, r: seq<UnitPayload>, i: nat, j: nat)
    requires Inserting(units, r, i, j) && 0 < j && Compare(r[j - 1], r[j]) > 0
    ensures Inserting(units, r[j - 1 := r[j]][j := r[j - 1]], i, j - 1)
  {
    SwapKeepsUnits(r, j);
    SwapKeepsTies(units, r, j);
  }

  /**
   * One insertion step: the unit at `i` is swapped backwards while the
   * comparator says it belongs before its left neighbour.
   */
  method InsertAt(units: seq<UnitPayload>, i: nat) returns (r: seq<UnitPayload>)
    requires i < |units|
    requires forall p, q :: 0 <= p < q < i ==> DistanceLe(units[p].distance, units[q].distance)
    ensures |r| == |units| && r[i + 1..] == units[i + 1..]
    ensures multiset(r) == multiset(units)
    ensures forall p, q :: 0 <= p < q <= i ==> DistanceLe(r[p].distance, r[q].distance)
    ensures TiesInOrder(units, r)
  {
    r := units;
    var j := i;
    while j > 0 && Compare(r[j - 1], r[j]) > 0
      invariant 0 <= j && Inserting(units, r, i, j)
    {
      SwapStep(units, r, i, j);
      r := r[j - 1 := r[j]][j := r[j - 1]];
      j := j - 1;
    }
  }

  /** Swapping two neighbours keeps the same units. */
  lemma SwapKeepsUnits(r: seq<UnitPayload>, j: nat)
    requires 0 < j < |r|
    ensures multiset(r[j - 1 := r[j]][j := r[j - 1]]) == multiset(r)
  {
    var t := r[j - 1 := r[j]][j := r[j - 1]];
    assert r == r[..j - 1] + [r[j - 1], r[j]] + r[j + 1..];
    assert t == r[..j - 1] + [r[j], r[j - 1]] + r[j + 1..];
  }

  /**
   * `Helpers::sort_by_distance`: `usort` with `Compare`, written out as an
   * insertion sort.
   */
  method SortByDistance(units: seq<UnitPayload>) returns (r: seq<UnitPayload>)
    ensures multiset(r) == multiset(units)
    ensures ByDistance(r)
    ensures forall i, j :: 0 <= i < j < |r| && r[i].distance.None? ==> r[j].distance.None?
    ensures TiesInOrder(units, r)
  {
    r := units;
    var i := 0;
    while i < |r|
      invariant 0 <= i <= |r| == |units|
      invariant multiset(r) == multiset(units)
      invariant TiesInOrder(units, r)
      invariant forall p, q :: 0 <= p < q < i ==> DistanceLe(r[p].distance, r[q].distance)
    {
      r := InsertAt(r, i);
      i := i + 1;
    }
  }

  // ---------------------------------------------------------------------------
  // format_unit_address
  // ---------------------------------------------------------------------------

  /** `(string)` of every value, in order. */
  function Strings(c: Casts, vs: seq<Value>): (r: seq<string>)
    ensures |r| == |vs| && forall i :: 0 <= i < |vs| ==> r[i] == ToStr(c, vs[i])
  {
    if vs == [] then [] else [ToStr(c, vs[0])] + Strings(c, vs[1..])
  }

  /**
   * `Helpers::format_unit_address`: the street, district, city and state meta
   * of a unit, the empty ones dropped, joined with " - ".
   */
  function FormatUnitAddress(c: Casts, endereco: Value, bairro: Value, cidade: Value, uf: Value): (r: string)
    ensures r == Implode(" - ", FilledParts(c, [endereco, bairro, cidade, uf]))
  {
    var parts := [("0", endereco), ("1", bairro), ("2", cidade), ("3", uf)];
    FilterThenStrings(c, parts);
    assert Values(parts) == [endereco, bairro, cidade, uf];
    Implode(" - ", Strings(c, Values(ArrayFilter(parts))))
  }

  /** The parts an address keeps: the non-empty values, as strings, in their order. */
  function FilledParts(c: Casts, vs: seq<Value>): (r: seq<string>)
    ensures |r| <= |vs|
    ensures (forall i :: 0 <= i < |vs| ==> Empty(vs[i])) ==> r == []
  {
    if vs == [] then [] else (if Truthy(vs[0]) then [ToStr(c, vs[0])] else []) + FilledParts(c, vs[1..])
  }

  /** `array_filter` then `implode` sees exactly the filled parts. */
  lemma {:induction false} FilterThenStrings(c: Casts, a: Assoc)
    ensures Strings(c, Values(ArrayFilter(a))) == FilledParts(c, Values(a))
  {
    if a != [] {
      var vs := Values(a);
      assert vs[1..] == Values(a[1..]);
      var tail := Values(ArrayFilter(a[1..]));
      FilterThenStrings(c, a[1..]);
      if Truthy(a[0].1) {
        assert ArrayFilter(a) == [a[0]] + ArrayFilter(a[1..]);
        assert Values(ArrayFilter(a)) == [a[0].1] + tail;
        assert Strings(c, [a[0].1] + tail) == [ToStr(c, a[0].1)] + Strings(c, tail);
      } else {
        assert ArrayFilter(a) == ArrayFilter(a[1..]);
      }
    }
  }

  /** With no part filled in, the address is empty. */
  lemma FormatUnitAddressNoParts(c: Casts, endereco: Value, bairro: Value, cidade: Value, uf: Value)
    requires Empty(endereco) && Empty(bairro) && Empty(cidade) && Empty(uf)
    ensures FormatUnitAddress(c, endereco, bairro, cidade, uf) == ""
  {
  }

  /** The address line of a stored unit, read from its meta. */
  function UnitAddress(c: Casts, posts: seq<Post>, id: int): string
  {
    FormatUnitAddress(c, PostMeta(posts, id, "_sou_endereco"), PostMeta(posts, id, "_sou_bairro"),
      PostMeta(posts, id, "_sou_cidade"), PostMeta(posts, id, "_sou_uf"))
  }

  // ---------------------------------------------------------------------------
  // build_cache_key
  // ---------------------------------------------------------------------------

  /** Keys in `ksort` order. */
  predicate KeySorted(a: Assoc)
  {
    forall i, j :: 0 <= i < j < |a| ==> StrLe(a[i].0, a[j].0)
  }

  /** The pairs of `a`, as a set: what `ksort` must keep. */
  ghost predicate SamePairs(a: Assoc, b: Assoc)
  {
    forall y :: y in a <==> y in b
  }

  /** One pair placed before the first key that is not smaller. */
  function KInsert(x: (string, Value), a: Assoc): (r: Assoc)
    ensures |r| == |a| + 1
    ensures forall y :: y in r <==> y == x || y in a
  {
    if a == [] then [x]
    else if StrLt(a[0].0, x.0) then
      var rest := KInsert(x, a[1..]);
      assert forall y :: y in a <==> y == a[0] || y in a[1..];
      [a[0]] + rest
    else [x] + a
  }

  /** In a key-sorted array, the first key is below or equal to every key. */
  lemma FirstKeyLeast(a: Assoc, y: (string, Value))
    requires KeySorted(a) && y in a
    ensures StrLe(a[0].0, y.0)
  {
    var k :| 0 <= k < |a| && a[k] == y;
    if k == 0 {
      StrLeReflexive(y.0);
    }
  }

  lemma {:induction false} KInsertSorted(x: (string, Value), a: Assoc)
    requires KeySorted(a)
    ensures KeySorted(KInsert(x, a))
  {
    if a != [] {
      if StrLt(a[0].0, x.0) {
        var rest := KInsert(x, a[1..]);
        KInsertSorted(x, a[1..]);
        forall y | y in rest
          ensures StrLe(a[0].0, y.0)
        {
          if y == x {
            StrLtAsymmetric(a[0].0, x.0);
          } else {
            FirstKeyLeast(a, y);
          }
        }
        var r := [a[0]] + rest;
        forall p, q | 0 <= p < q < |r|
          ensures StrLe(r[p].0, r[q].0)
        {
          if p == 0 {
            assert r[q] == rest[q - 1];
          } else {
            assert r[p] == rest[p - 1] && r[q] == rest[q - 1];
          }
        }
      } else {
        forall j | 1 <= j < |a|
          ensures StrLe(x.0, a[j].0)
        {
          StrLeTransitive(x.0, a[0].0, a[j].0);
        }
      }
    }
  }

  /** No pair of `a` has key `k`. */
  predicate KeyAbsent(a: Assoc, k: string)
  {
    forall y :: y in a ==> y.0 != k
  }

  lemma {:induction false} KInsertDistinct(x: (string, Value), a: Assoc)
    requires DistinctKeys(a) && KeyAbsent(a, x.0)
    ensures DistinctKeys(KInsert(x, a))
  {
    if a != [] && StrLt(a[0].0, x.0) {
      var rest := KInsert(x, a[1..]);
      assert KeyAbsent(a[1..], a[0].0) by {
        forall y | y in a[1..] ensures y.0 != a[0].0 {
          var k :| 0 <= k < |a[1..]| && a[1..][k] == y;
          assert a[k + 1] == y;
        }
      }
      KInsertDistinct(x, a[1..]);
      var r := [a[0]] + rest;
      forall p, q | 0 <= p < q < |r|
        ensures r[p].0 != r[q].0
      {
        if p == 0 {
          assert r[q] == rest[q - 1] && r[q] in rest;
        } else {
          assert r[p] == rest[p - 1] && r[q] == rest[q - 1];
        }
      }
    }
  }

  /** `ksort($args)`, by byte-wise key order. */
  function KSort(a: Assoc): (r: Assoc)
    ensures |r| == |a|
    ensures SamePairs(r, a)
  {
    if a == [] then []
    else
      var rest := KSort(a[1..]);
      assert forall y :: y in a <==> y == a[0] || y in a[1..];
      KInsert(a[0], rest)
  }

  /** `ksort` puts the keys in order and, on a PHP array, keeps them distinct. */
  lemma {:induction false} KSortSorted(a: Assoc)
    ensures KeySorted(KSort(a))
    ensures DistinctKeys(a) ==> DistinctKeys(KSort(a))
  {
    if a != [] {
      var rest := KSort(a[1..]);
      KSortSorted(a[1..]);
      KInsertSorted(a[0], rest);
      if DistinctKeys(a) {
        assert DistinctKeys(a[1..]);
        assert KeyAbsent(rest, a[0].0) by {
          forall y | y in rest ensures y.0 != a[0].0 {
            assert y in a[1..];
            var k :| 0 <= k < |a[1..]| && a[1..][k] == y;
            assert a[k + 1] == y;
          }
        }
        KInsertDistinct(a[0], rest);
      }
    }
  }

  /** Two key-sorted arrays with distinct keys and the same pairs are equal. */
  lemma {:induction false} SortedUnique(a: Assoc, b: Assoc)
    requires KeySorted(a) && KeySorted(b) && DistinctKeys(a) && DistinctKeys(b)
    requires SamePairs(a, b)
    ensures a == b
  {
    if a != [] || b != [] {
      assert a != [] && b != [] by {
        if a != [] { assert a[0] in b; }
        if b != [] { assert b[0] in a; }
      }
      SameHead(a, b);
      assert SamePairs(a[1..], b[1..]) by {
        forall y
          ensures y in a[1..] <==> y in b[1..]
        {
          TailMembers(a, y);
          TailMembers(b, y);
        }
      }
      assert KeySorted(a[1..]) && KeySorted(b[1..]) && DistinctKeys(a[1..]) && DistinctKeys(b[1..]);
      SortedUnique(a[1..], b[1..]);
      assert a == [a[0]] + a[1..] && b == [b[0]] + b[1..];
    }
  }

  /** In an array with distinct keys, the tail holds every pair but the first. */
  lemma TailMembers(a: Assoc, y: (string, Value))
    requires a != [] && DistinctKeys(a)
    ensures y in a[1..] <==> y in a && y != a[0]
  {
    if y in a[1..] {
      var k :| 0 <= k < |a[1..]| && a[1..][k] == y;
      assert a[k + 1] == y;
    }
    if y in a && y != a[0] {
      var k :| 0 <= k < |a| && a[k] == y;
      assert a[1..][k - 1] == y;
    }
  }

  /** Two such arrays start with the same pair: the one with the least key. */
  lemma SameHead(a: Assoc, b: Assoc)
    requires a != [] && b != []
    requires KeySorted(a) && KeySorted(b) && DistinctKeys(a) && DistinctKeys(b)
    requires SamePairs(a, b)
    ensures a[0] == b[0]
  {
    assert a[0] in b && b[0] in a;
    var j :| 0 <= j < |b| && b[j] == a[0];
    var i :| 0 <= i < |a| && a[i] == b[0];
    if i != 0 && j != 0 {
      assert StrLe(a[0].0, a[i].0);
      assert StrLe(b[0].0, b[j].0);
      StrLeAntisymmetric(a[0].0, b[0].0);
    }
  }

  /** The transient prefix of every cache key. */
  const CachePrefix := "soumais_locator_"

  /** `Helpers::build_cache_key`. */
  function BuildCacheKey(wp: Platform, args: Assoc): (r: string)
    ensures |r| >= |CachePrefix| && r[..|CachePrefix|] == CachePrefix
  {
    CachePrefix + wp.jsonMd5(KSort(args))
  }

  /** The key depends on the key/value pairs only, not on their order. */
  lemma CacheKeyOrderIndependent(wp: Platform, a: Assoc, b: Assoc)
    requires DistinctKeys(a) && DistinctKeys(b)
    requires SamePairs(a, b)
    ensures BuildCacheKey(wp, a) == BuildCacheKey(wp, b)
  {
    KSortSorted(a);
    KSortSorted(b);
    SortedUnique(KSort(a), KSort(b));
  }

  // ---------------------------------------------------------------------------
  // sanitize_phone, normalize_digits
  // ---------------------------------------------------------------------------

  /** The largest number of digits a phone keeps. */
  const PhoneDigits := 11

  /** `Helpers::sanitize_phone`: the first eleven digits of the value. */
  function SanitizePhone(c: Casts, phone: Value): (r: string)
    ensures AllDigits(r)
    ensures |r| == (if |Digits(ToStr(c, phone))| > PhoneDigits then PhoneDigits else |Digits(ToStr(c, phone))|)
    ensures r == Digits(ToStr(c, phone))[..|r|]
  {
    var digits := Digits(ToStr(c, phone));
    if |digits| > PhoneDigits then digits[..PhoneDigits] else digits
  }

  /** Sanitizing a sanitized phone changes nothing. */
  lemma SanitizePhoneIdempotent(c: Casts, phone: Value)
    ensures SanitizePhone(c, Str(SanitizePhone(c, phone))) == SanitizePhone(c, phone)
  {
    DigitsOfDigits(SanitizePhone(c, phone));
  }

  /** `Helpers::normalize_digits`. */
  function NormalizeDigits(c: Casts, value: Value): (r: string)
    ensures AllDigits(r)
    ensures forall s :: value == Str(s) && AllDigits(s) ==> r == s
  {
    var s := ToStr(c, value);
    if AllDigits(s) then DigitsOfDigits(s); Digits(s) else Digits(s)
  }

  /** Normalizing twice is normalizing once. */
  lemma NormalizeDigitsIdempotent(c: Casts, value: Value)
    ensures NormalizeDigits(c, Str(NormalizeDigits(c, value))) == NormalizeDigits(c, value)
  {
  }

  // ---------------------------------------------------------------------------
  // validate_lead_payload
  // ---------------------------------------------------------------------------

  datatype LeadError =
    | MissingField(field: string)
    | InvalidEmail
    | InvalidPhone
    | InvalidNonce
    | RecaptchaFailed
    | InvalidUnit
  {
    /** The `WP_Error` code. */
    function Code(): string
    {
      match this
      case MissingField(_) => "missing_field"
      case InvalidEmail => "invalid_email"
      case InvalidPhone => "invalid_phone"
      case InvalidNonce => "invalid_nonce"
      case RecaptchaFailed => "recaptcha_failed"
      case InvalidUnit => "invalid_unit"
    }

    /** The HTTP status of the error: only the nonce failure is a 403. */
    function Status(): int
    {
      if InvalidNonce? then 403 else 400
    }
  }

  /** The normalized lead `validate_lead_payload` returns. */
  datatype Lead = Lead(
    nome: string,
    email: string,
    telefone: string,
    unidade: nat,
    origem: string,
    utmSource: string,
    utmMedium: string,
    utmCampaign: string,
    utmTerm: string,
    utmContent: string,
    ip: string,
    dataEnvio: string,
    aceite: nat,
    redirect: string,
    recaptcha: Option<string>)

  datatype Validated = Valid(lead: Lead) | Invalid(error: LeadError)

  /** The fields that must be non-empty, in the order they are checked. */
  const Required: seq<string> := ["nome", "email", "telefone", "unidade"]

  /** `$params[$key]`, which reads null for a missing key. */
  function At(params: map<string, Value>, key: string): Value
  {
    if key in params then params[key] else Null
  }

  /** `! empty($params[$field])`. */
  predicate Present(params: map<string, Value>, field: string)
  {
    Truthy(At(params, field))
  }

  /** `$params[$key] ?? ''`. */
  function OrEmpty(params: map<string, Value>, key: string): (r: Value)
    ensures At(params, key) != Null ==> r == At(params, key)
    ensures At(params, key) == Null ==> r == Str("")
  {
    if At(params, key) != Null then At(params, key) else Str("")
  }

  /** The first field of `fields` that is not present. */
  function FirstMissing(params: map<string, Value>, fields: seq<string>): (r: Option<string>)
    ensures r.None? <==> forall i :: 0 <= i < |fields| ==> Present(params, fields[i])
    ensures r.Some? ==> exists i :: (0 <= i < |fields| && fields[i] == r.value && !Present(params, fields[i])
                                     && forall j :: 0 <= j < i ==> Present(params, fields[j]))
  {
    if fields == [] then None
    else if !Present(params, fields[0]) then Some(fields[0])
    else
      var r := FirstMissing(params, fields[1..]);
      if r.Some? then
        var i :| 0 <= i < |fields[1..]| && fields[1..][i] == r.value && !Present(params, fields[1..][i])
          && forall j :: 0 <= j < i ==> Present(params, fields[1..][j]);
        assert fields[i + 1] == r.value;
        r
      else r
  }

  /** The normalized record built once every check has passed. */
  function Clean(wp: Platform, params: map<string, Value>, phone: string): (r: Lead)
    ensures r.telefone == phone
    ensures r.aceite <= 1 && (r.aceite == 1 <==> Present(params, "aceite"))
    ensures !Present(params, "redirect") ==> r.redirect == ""
    ensures r.recaptcha.Some? <==> Present(params, "recaptcha")
  {
    var aceite := if Present(params, "aceite") then 1 else 0;
    var redirect := if Present(params, "redirect") then wp.escUrlRaw(ToStr(wp.casts, At(params, "redirect"))) else "";
    var recaptcha := if Present(params, "recaptcha") then Some(TextField(wp, At(params, "recaptcha"))) else None;
    Lead(
      nome := TextField(wp, At(params, "nome")),
      email := wp.sanitizeEmail(ToStr(wp.casts, At(params, "email"))),
      telefone := phone,
      unidade := AbsInt(wp.casts, At(params, "unidade")),
      origem := TextField(wp, OrEmpty(params, "origem")),
      utmSource := TextField(wp, OrEmpty(params, "utm_source")),
      utmMedium := TextField(wp, OrEmpty(params, "utm_medium")),
      utmCampaign := TextField(wp, OrEmpty(params, "utm_campaign")),
      utmTerm := TextField(wp, OrEmpty(params, "utm_term")),
      utmContent := TextField(wp, OrEmpty(params, "utm_content")),
      ip := TextField(wp, OrEmpty(params, "ip")),
      dataEnvio := TextField(wp, OrEmpty(params, "data_envio")),
      aceite := aceite,
      redirect := redirect,
      recaptcha := recaptcha)
  }

  /** The nonce `validate_lead_payload` checks, `$params['nonce'] ?? ''`. */
  function NonceOf(wp: Platform, params: map<string, Value>): string
  {
    ToStr(wp.casts, OrEmpty(params, "nonce"))
  }

  /** Every required field is present, so no `missing_field` error applies. */
  predicate AllPresent(params: map<string, Value>)
  {
    forall i :: 0 <= i < |Required| ==> Present(params, Required[i])
  }

  /**
   * What `validate_lead_payload` answers: the first failing check in the order
   * required fields, e-mail, phone, nonce, otherwise the clean record.
   */
  function Validate(wp: Platform, params: map<string, Value>): (r: Validated)
    ensures forall i :: (0 <= i < |Required| && !Present(params, Required[i])
                         && (forall j :: 0 <= j < i ==> Present(params, Required[j]))) ==> r == Invalid(MissingField(Required[i]))
    ensures r.Invalid? && r.error.MissingField? ==> r.error.field in Required && !Present(params, r.error.field)
    ensures r.Invalid? && !r.error.MissingField? ==> forall i :: 0 <= i < |Required| ==> Present(params, Required[i])
    ensures r.Invalid? && r.error != InvalidEmail && !r.error.MissingField? ==> wp.isEmail(ToStr(wp.casts, At(params, "email")))
    ensures r.Invalid? && r.error == InvalidNonce ==> |SanitizePhone(wp.casts, At(params, "telefone"))| >= 10
    ensures r.Invalid? ==> r.error.MissingField? || r.error in {InvalidEmail, InvalidPhone, InvalidNonce}
    ensures r == Invalid(InvalidEmail) <==>
      AllPresent(params) && !wp.isEmail(ToStr(wp.casts, At(params, "email")))
    ensures r == Invalid(InvalidPhone) <==>
      AllPresent(params) && wp.isEmail(ToStr(wp.casts, At(params, "email")))
      && |SanitizePhone(wp.casts, At(params, "telefone"))| < 10
    ensures r == Invalid(InvalidNonce) <==>
      AllPresent(params) && wp.isEmail(ToStr(wp.casts, At(params, "email")))
      && |SanitizePhone(wp.casts, At(params, "telefone"))| >= 10
      && !wp.verifyNonce(NonceOf(wp, params), "soumais_locator")
    ensures r.Valid? <==>
      AllPresent(params)
      && wp.isEmail(ToStr(wp.casts, At(params, "email")))
      && |SanitizePhone(wp.casts, At(params, "telefone"))| >= 10
      && wp.verifyNonce(NonceOf(wp, params), "soumais_locator")
    ensures r.Valid? ==> r.lead == Clean(wp, params, SanitizePhone(wp.casts, At(params, "telefone")))
  {
    var missing := FirstMissing(params, Required);
    if missing.Some? then
      var i :| 0 <= i < |Required| && Required[i] == missing.value && !Present(params, Required[i])
        && forall j :: 0 <= j < i ==> Present(params, Required[j]);
      Invalid(MissingField(missing.value))
    else if !wp.isEmail(ToStr(wp.casts, At(params, "email"))) then Invalid(InvalidEmail)
    else
      var phone := SanitizePhone(wp.casts, At(params, "telefone"));
      if |phone| < 10 then Invalid(InvalidPhone)
      else if !wp.verifyNonce(NonceOf(wp, params), "soumais_locator") then Invalid(InvalidNonce)
      else Valid(Clean(wp, params, phone))
  }

  /**
   * A successful validation yields a phone of 10 or 11 digits, a 0/1 consent
   * flag, and '' for every optional field the request did not carry.
   */
  lemma ValidLeadShape(wp: Platform, params: map<string, Value>)
    requires Validate(wp, params).Valid?
    ensures var lead := Validate(wp, params).lead;
      AllDigits(lead.telefone) && 10 <= |lead.telefone| <= 11
      && (lead.aceite == 0 || lead.aceite == 1)
      && ("origem" !in params ==> lead.origem == TextField(wp, Str("")))
      && ("redirect" !in params ==> lead.redirect == "")
      && (lead.recaptcha.Some? <==> Present(params, "recaptcha"))
  {
  }

  /**
   * `Helpers::validate_lead_payload`, as the early-return sequence it is: the
   * required fields in a loop, then the e-mail, the phone (whose digits are
   * counted again after sanitizing) and the nonce.
   */
  method ValidateLeadPayload(wp: Platform, params: map<string, Value>) returns (r: Validated)
    ensures r == Validate(wp, params)
  {
    var i := 0;
    while i < |Required|
      invariant 0 <= i <= |Required|
      invariant forall j :: 0 <= j < i ==> Present(params, Required[j])
    {
      if !Present(params, Required[i]) {
        return Invalid(MissingField(Required[i]));
      }
      i := i + 1;
    }
    if !wp.isEmail(ToStr(wp.casts, At(params, "email"))) {
      return Invalid(InvalidEmail);
    }
    var phone := SanitizePhone(wp.casts, At(params, "telefone"));
    DigitsOfDigits(phone);
    if |Digits(phone)| < 10 {
      return Invalid(InvalidPhone);
    }
    if !wp.verifyNonce(NonceOf(wp, params), "soumais_locator") {
      return Invalid(InvalidNonce);
    }
    r := Valid(Clean(wp, params, phone));
  }

  /** The record as the PHP array the rest of `create_lead` works on. */
  function LeadArray(lead: Lead): (r: map<string, Value>)
    ensures "telefone" in r && r["telefone"] == Str(lead.telefone)
    ensures "unidade" in r && r["unidade"] == Int(lead.unidade)
    ensures "aceite" in r && r["aceite"] == Int(lead.aceite)
    ensures "recaptcha" in r <==> lead.recaptcha.Some?
  {
    var base := map[
      "nome" := Str(lead.nome), "email" := Str(lead.email), "telefone" := Str(lead.telefone),
      "unidade" := Int(lead.unidade), "origem" := Str(lead.origem), "utm_source" := Str(lead.utmSource),
      "utm_medium" := Str(lead.utmMedium), "utm_campaign" := Str(lead.utmCampaign),
      "utm_term" := Str(lead.utmTerm), "utm_content" := Str(lead.utmContent), "ip" := Str(lead.ip),
      "data_envio" := Str(lead.dataEnvio), "aceite" := Int(lead.aceite), "redirect" := Str(lead.redirect)];
    if lead.recaptcha.Some? then base["recaptcha" := Str(lead.recaptcha.value)] else base
  }

  // ---------------------------------------------------------------------------
  // persist_lead_meta
  // ---------------------------------------------------------------------------

  /** Meta key and the lead field it is read from. */
  const LeadMetaMap: seq<(string, string)> := [
    ("_sou_nome", "nome"), ("_sou_email", "email"), ("_sou_telefone", "telefone"),
    ("_sou_unidade", "unidade"), ("_sou_origem", "origem"), ("_sou_utm_source", "utm_source"),
    ("_sou_utm_medium", "utm_medium"), ("_sou_utm_campaign", "utm_campaign"),
    ("_sou_utm_term", "utm_term"), ("_sou_utm_content", "utm_content"), ("_sou_ip", "ip"),
    ("_sou_data", "data_envio"), ("_sou_aceite", "aceite")]

  /** Whether a meta key holds an integer (`absint`) rather than text. */
  predicate IsIntegerMeta(metaKey: string)
  {
    metaKey == "_sou_unidade" || metaKey == "_sou_aceite"
  }

  /** The value stored for one lead field. */
  function LeadMetaValue(wp: Platform, metaKey: string, v: Value): (r: Value)
    ensures IsIntegerMeta(metaKey) ==> r.Int? && r.i >= 0
    ensures !IsIntegerMeta(metaKey) ==> r.Str?
  {
    if IsIntegerMeta(metaKey) then Int(AbsInt(wp.casts, v))
    else if v.Arr? then Str("")
    else Str(wp.sanitizeText(wp.unslash(ToStr(wp.casts, v))))
  }

  /** `isset($params[$key])`. */
  predicate IsSetIn(params: map<string, Value>, key: string)
  {
    At(params, key) != Null
  }

  /** The meta writes of `persist_lead_meta` for a prefix of the key map, in order. */
  function LeadMetaWrites(wp: Platform, params: map<string, Value>, pairs: seq<(string, string)>): (r: seq<(string, Value)>)
    ensures |r| <= |pairs|
    ensures forall i :: 0 <= i < |r| ==> IsIntegerMeta(r[i].0) ==> r[i].1.Int? && r[i].1.i >= 0
    ensures (forall i :: 0 <= i < |pairs| ==> IsSetIn(params, pairs[i].1)) ==>
      |r| == |pairs| && forall i :: 0 <= i < |pairs| ==> r[i] == (pairs[i].0, LeadMetaValue(wp, pairs[i].0, At(params, pairs[i].1)))
  {
    if pairs == [] then []
    else
      var init := pairs[..|pairs| - 1];
      var last := pairs[|pairs| - 1];
      var w := LeadMetaWrites(wp, params, init);
      assert forall i :: 0 <= i < |init| ==> init[i] == pairs[i];
      if IsSetIn(params, last.1) then w + [(last.0, LeadMetaValue(wp, last.0, At(params, last.1)))] else w
  }

  /** Some mapped field whose meta key is `key` is set in `params`. */
  predicate Selected(params: map<string, Value>, pairs: seq<(string, string)>, key: string)
  {
    exists i :: 0 <= i < |pairs| && pairs[i].0 == key && IsSetIn(params, pairs[i].1)
  }

  /** `persist_lead_meta` writes a meta key exactly when its field is set. */
  lemma {:induction false} LeadMetaWritesOnlySetFields(wp: Platform, params: map<string, Value>, pairs: seq<(string, string)>, key: string)
    ensures WritesKey(LeadMetaWrites(wp, params, pairs), key) <==> Selected(params, pairs, key)
    decreases |pairs|
  {
    if pairs != [] {
      var init := pairs[..|pairs| - 1];
      var last := pairs[|pairs| - 1];
      var w := LeadMetaWrites(wp, params, init);
      var r := LeadMetaWrites(wp, params, pairs);
      LeadMetaWritesOnlySetFields(wp, params, init, key);
      assert forall i :: 0 <= i < |init| ==> init[i] == pairs[i];
      assert forall i :: 0 <= i < |w| ==> r[i] == w[i];
      if WritesKey(r, key) {
        var i :| 0 <= i < |r| && r[i].0 == key;
        if i == |w| {
          assert pairs[|pairs| - 1].0 == key && IsSetIn(params, pairs[|pairs| - 1].1);
        } else {
          assert WritesKey(w, key);
          var j :| 0 <= j < |init| && init[j].0 == key && IsSetIn(params, init[j].1);
          assert pairs[j] == init[j];
        }
      }
      if Selected(params, pairs, key) {
        var j :| 0 <= j < |pairs| && pairs[j].0 == key && IsSetIn(params, pairs[j].1);
        if j == |pairs| - 1 {
          assert r[|r| - 1].0 == key;
        } else {
          assert Selected(params, init, key);
          var i :| 0 <= i < |w| && w[i].0 == key;
          assert r[i].0 == key;
        }
      }
    }
  }

  /**
   * `Helpers::persist_lead_meta`: one `update_post_meta` per mapped field that
   * is set in `params`, in the order of the map.
   */
  method PersistLeadMeta(site: Site, wp: Platform, leadId: int, params: map<string, Value>)
    modifies site`posts, site`log
    ensures site.posts == WithMeta(wp, old(site.posts), leadId, LeadMetaWrites(wp, params, LeadMetaMap))
    ensures site.log == old(site.log) + MetaEvents(old(site.posts), leadId, LeadMetaWrites(wp, params, LeadMetaMap))
  {
    PersistPairs(site, wp, leadId, params, LeadMetaMap);
  }

  /** The loop of `persist_lead_meta` over a key map `pairs`. */
  method PersistPairs(site: Site, wp: Platform, leadId: int, params: map<string, Value>, pairs: seq<(string, string)>)
    modifies site`posts, site`log
    ensures site.posts == WithMeta(wp, old(site.posts), leadId, LeadMetaWrites(wp, params, pairs))
    ensures site.log == old(site.log) + MetaEvents(old(site.posts), leadId, LeadMetaWrites(wp, params, pairs))
  {
    ghost var posts0 := site.posts;
    ghost var log0 := site.log;
    var i := 0;
    while i < |pairs|
      invariant 0 <= i <= |pairs|
      invariant site.posts == WithMeta(wp, posts0, leadId, LeadMetaWrites(wp, params, pairs[..i]))
      invariant site.log == log0 + MetaEvents(posts0, leadId, LeadMetaWrites(wp, params, pairs[..i]))
    {
      PersistPair(site, wp, leadId, params, pairs, i, posts0, log0);
      i := i + 1;
    }
    assert pairs[..i] == pairs;
  }

  /** One pass of the loop of `persist_lead_meta`: pair `i` written when its field is set. */
  method PersistPair(site: Site, wp: Platform, leadId: int, params: map<string, Value>, pairs: seq<(string, string)>, i: nat,
                     ghost posts0: seq<Post>, ghost log0: seq<Event>)
    requires i < |pairs|
    requires site.posts == WithMeta(wp, posts0, leadId, LeadMetaWrites(wp, params, pairs[..i]))
    requires site.log == log0 + MetaEvents(posts0, leadId, LeadMetaWrites(wp, params, pairs[..i]))
    modifies site`posts, site`log
    ensures site.posts == WithMeta(wp, posts0, leadId, LeadMetaWrites(wp, params, pairs[..i + 1]))
    ensures site.log == log0 + MetaEvents(posts0, leadId, LeadMetaWrites(wp, params, pairs[..i + 1]))
  {
    var metaKey := pairs[i].0;
    var paramKey := pairs[i].1;
    ghost var writes := LeadMetaWrites(wp, params, pairs[..i]);
    LeadMetaWritesSnoc(wp, params, pairs, i);
    if IsSetIn(params, paramKey) {
      var value := LeadMetaValue(wp, metaKey, At(params, paramKey));
      assert LeadMetaWrites(wp, params, pairs[..i + 1]) == writes + [(metaKey, value)];
      AppendMeta(site, wp, leadId, posts0, log0, writes, metaKey, value);
    } else {
      assert LeadMetaWrites(wp, params, pairs[..i + 1]) == writes + [] == writes;
    }
  }

  /** One more entry of the key map adds at most its own write. */
  lemma LeadMetaWritesSnoc(wp: Platform, params: map<string, Value>, pairs: seq<(string, string)>, i: int)
    requires 0 <= i < |pairs|
    ensures LeadMetaWrites(wp, params, pairs[..i + 1]) ==
      LeadMetaWrites(wp, params, pairs[..i])
      + (if IsSetIn(params, pairs[i].1) then [(pairs[i].0, LeadMetaValue(wp, pairs[i].0, At(params, pairs[i].1)))] else [])
  {
    assert pairs[..i + 1][..i] == pairs[..i];
  }

  /**
   * The array `create_lead` persists: the clean lead plus the unit's name and
   * URL, every validated field kept as it was.
   */
  function LeadParams(lead: Lead, unitName: string, unitUrl: Value): (r: map<string, Value>)
    ensures r.Keys == LeadArray(lead).Keys + {"unidade_nome", "unidade_url"}
    ensures r["unidade_nome"] == Str(unitName) && r["unidade_url"] == unitUrl
    ensures forall k :: k in LeadArray(lead) && k != "unidade_nome" && k != "unidade_url" ==> r[k] == LeadArray(lead)[k]
  {
    LeadArray(lead)["unidade_nome" := Str(unitName)]["unidade_url" := unitUrl]
  }

  /** Every field the key map reads is set in the clean lead's array. */
  lemma LeadArraySetsMappedFields(lead: Lead)
    ensures forall i :: 0 <= i < |LeadMetaMap| ==> IsSetIn(LeadArray(lead), LeadMetaMap[i].1)
  {
    var base := LeadArray(lead);
    assert forall k :: k in base ==> base[k] != Null;
    forall i | 0 <= i < |LeadMetaMap|
      ensures IsSetIn(base, LeadMetaMap[i].1)
    {
      assert LeadMetaMap[i].1 in base;
    }
  }

  /** Every field the key map reads is set in the array `create_lead` persists. */
  lemma LeadParamsSetEveryField(lead: Lead, unitName: string, unitUrl: Value)
    ensures forall i :: 0 <= i < |LeadMetaMap| ==> IsSetIn(LeadParams(lead, unitName, unitUrl), LeadMetaMap[i].1)
  {
    var params := LeadParams(lead, unitName, unitUrl);
    LeadArraySetsMappedFields(lead);
    forall i | 0 <= i < |LeadMetaMap|
      ensures IsSetIn(params, LeadMetaMap[i].1)
    {
      var field := LeadMetaMap[i].1;
      assert IsSetIn(LeadArray(lead), field);
      assert field != "unidade_nome" && field != "unidade_url";
    }
  }

  /**
   * For a validated lead every mapped field is set, so all thirteen meta keys
   * are written, in the order of the key map.
   */
  lemma LeadParamsPersistEveryField(wp: Platform, lead: Lead, unitName: string, unitUrl: Value)
    ensures var writes := LeadMetaWrites(wp, LeadParams(lead, unitName, unitUrl), LeadMetaMap);
      |writes| == |LeadMetaMap|
      && forall i :: 0 <= i < |LeadMetaMap| ==> writes[i].0 == LeadMetaMap[i].0
  {
    LeadParamsSetEveryField(lead, unitName, unitUrl);
  }

  // ---------------------------------------------------------------------------
  // build_redirect_url
  // ---------------------------------------------------------------------------

  /** The target: the lead's own redirect when non-empty, else the configured base URL. */
  function RedirectBase(wp: Platform, options: map<string, Value>, params: map<string, Value>): (r: Value)
    ensures Present(params, "redirect") ==> r == At(params, "redirect")
    ensures !Present(params, "redirect") && "base_url" in options && options["base_url"] != Null ==> r == options["base_url"]
    ensures !Present(params, "redirect") && !("base_url" in options && options["base_url"] != Null) ==> r == Str(wp.homeUrl)
  {
    if Present(params, "redirect") then At(params, "redirect") else GetOption(options, "base_url", Str(wp.homeUrl))
  }

  /** The query of the redirect before encoding: name, phone, unit name, e-mail. */
  function RedirectPairs(params: map<string, Value>): Assoc
  {
    [("nome", OrEmpty(params, "nome")), ("telefone", OrEmpty(params, "telefone")),
     ("unidade", OrEmpty(params, "unidade_nome")), ("email", OrEmpty(params, "email"))]
  }

  /** The query arguments: the non-empty pairs, each value URL-encoded. */
  function RedirectQuery(wp: Platform, params: map<string, Value>): (r: seq<(string, string)>)
    ensures |r| <= 4
    ensures forall i :: 0 <= i < |r| ==> r[i].0 in {"nome", "telefone", "unidade", "email"}
  {
    EncodeAll(wp, ArrayFilter(RedirectPairs(params)))
  }

  /** `array_map('rawurlencode', $a)`: every value encoded, keys and order kept. */
  function EncodeAll(wp: Platform, a: Assoc): (r: seq<(string, string)>)
    ensures |r| == |a| && forall i :: 0 <= i < |a| ==> r[i].0 == a[i].0
  {
    if a == [] then [] else [(a[0].0, wp.rawUrlEncode(ToStr(wp.casts, a[0].1)))] + EncodeAll(wp, a[1..])
  }

  /** The non-empty pairs of `a`, in order, each value URL-encoded. */
  function EncodedFilled(wp: Platform, a: Assoc): (r: seq<(string, string)>)
    ensures |r| <= |a|
  {
    if a == [] then []
    else (if Truthy(a[0].1) then [(a[0].0, wp.rawUrlEncode(ToStr(wp.casts, a[0].1)))] else []) + EncodedFilled(wp, a[1..])
  }

  /** `array_filter` then `array_map('rawurlencode', ...)` keeps and encodes exactly the non-empty pairs. */
  lemma {:induction false} FilterThenEncode(wp: Platform, a: Assoc)
    ensures EncodeAll(wp, ArrayFilter(a)) == EncodedFilled(wp, a)
  {
    if a != [] {
      FilterThenEncode(wp, a[1..]);
      if Truthy(a[0].1) {
        assert ArrayFilter(a) == [a[0]] + ArrayFilter(a[1..]);
      } else {
        assert ArrayFilter(a) == ArrayFilter(a[1..]);
      }
    }
  }

  /**
   * The query carries `nome`, `telefone`, `unidade` (from `unidade_nome`) and
   * `email`, in that order, each only when non-empty, each value encoded.
   */
  lemma RedirectQueryEncodesFilledFields(wp: Platform, params: map<string, Value>)
    ensures RedirectQuery(wp, params) == EncodedFilled(wp, RedirectPairs(params))
  {
    FilterThenEncode(wp, RedirectPairs(params));
  }

  /** With all four fields filled in, the query carries all four, encoded, in order. */
  lemma RedirectQueryAllFields(wp: Platform, params: map<string, Value>)
    requires Present(params, "nome") && Present(params, "telefone") && Present(params, "unidade_nome") && Present(params, "email")
    ensures RedirectQuery(wp, params) == EncodeAll(wp, RedirectPairs(params))
  {
    var q := RedirectPairs(params);
    assert forall i :: 0 <= i < |q| ==> Truthy(q[i].1);
  }

  /**
   * `Helpers::build_redirect_url`: the filled fields added as query
   * arguments to the lead's own redirect, else the stored `base_url`, else
   * `home_url()`.
   */
  function BuildRedirectUrl(wp: Platform, options: map<string, Value>, params: map<string, Value>): (r: string)
    ensures Present(params, "redirect") ==>
      r == wp.addQueryArg(RedirectQuery(wp, params), ToStr(wp.casts, At(params, "redirect")))
    ensures !Present(params, "redirect") && "base_url" in options && options["base_url"] != Null ==>
      r == wp.addQueryArg(RedirectQuery(wp, params), ToStr(wp.casts, options["base_url"]))
    ensures !Present(params, "redirect") && !("base_url" in options && options["base_url"] != Null) ==>
      r == wp.addQueryArg(RedirectQuery(wp, params), wp.homeUrl)
  {
    wp.addQueryArg(RedirectQuery(wp, params), ToStr(wp.casts, RedirectBase(wp, options, params)))
  }

  /**
   * Once the settings form has been saved, `base_url` is always stored, so a
   * lead without its own redirect never falls back to `home_url()`.
   */
  lemma RedirectBaseAfterSettingsSaved(wp: Platform, input: map<string, Value>, d: string, params: map<string, Value>)
    requires !Present(params, "redirect")
    ensures RedirectBase(wp, Sanitize(wp, input, d), params) == Sanitize(wp, input, d)["base_url"]
  {
    SanitizedOptionsAreFound(wp, input, d, "base_url", Str(wp.homeUrl));
  }
}
