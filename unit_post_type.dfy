/**
 * The unit post type of includes/class-post-type-unidade.php: the status and
 * coordinate sanitizers, the admin list columns, purging the listing cache
 * when a unit is saved or deleted, and saving the metabox fields.
 */
module UnitPostType {
  import opened Php
  import opened WordPress
  import opened Helpers
  import opened RestApi

  // ---------------------------------------------------------------------------
  // sanitize_status, sanitize_coordinate
  // ---------------------------------------------------------------------------

  /** `Post_Type_Unidade::sanitize_status`: only 'active' and 'inactive' pass, by strict comparison. */
  function SanitizeStatus(v: Value): (r: Value)
    ensures r == Str("active") || r == Str("inactive")
    ensures v == Str("active") || v == Str("inactive") ==> r == v
    ensures v != Str("active") && v != Str("inactive") ==> r == Str("inactive")
  {
    if v == Str("active") || v == Str("inactive") then v else Str("inactive")
  }

  /** Sanitizing a status twice is sanitizing it once. */
  lemma SanitizeStatusIdempotent(v: Value)
    ensures SanitizeStatus(SanitizeStatus(v)) == SanitizeStatus(v)
  {
  }

  /**
   * `Post_Type_Unidade::sanitize_coordinate`: `floatval`, kept when within
   * [-180, 180], otherwise 0.
   */
  function SanitizeCoordinate(c: Casts, v: Value): (r: real)
    ensures -180.0 <= r <= 180.0
    ensures -180.0 <= ToFloat(c, v) <= 180.0 ==> r == ToFloat(c, v)
    ensures !(-180.0 <= ToFloat(c, v) <= 180.0) ==> r == 0.0
  {
    var f := ToFloat(c, v);
    if -180.0 <= f <= 180.0 then f else 0.0
  }

  /**
   * The REST validator and the meta sanitizer agree: a coordinate the
   * validator accepts is stored as is, and whatever the sanitizer stores the
   * validator accepts.
   */
  lemma CoordinateSanitizerAgreesWithValidator(c: Casts, v: Value)
    ensures ValidateCoordinate(c, v) ==> SanitizeCoordinate(c, v) == ToFloat(c, v)
    ensures ValidateCoordinate(c, Num(SanitizeCoordinate(c, v)))
    ensures SanitizeCoordinate(c, Num(SanitizeCoordinate(c, v))) == SanitizeCoordinate(c, v)
  {
  }

  // ---------------------------------------------------------------------------
  // register_meta
  // ---------------------------------------------------------------------------

  /** The meta keys registered with `sanitize_text_field`. */
  const TextMetaKeys: set<string> := {
    "_sou_endereco", "_sou_bairro", "_sou_cidade", "_sou_uf", "_sou_cep", "_sou_tel", "_sou_whatsapp", "_sou_tecno_url"}

  /**
   * The `sanitize_callback` registered for a unit meta key; a key registered
   * without one passes unchanged. `sanitize_coordinate` answers the float or
   * the integer 0, which the database stores alike, so both are a `Num`.
   */
  function UnitMetaCallback(wp: Platform, key: string, v: Value): Value
  {
    if key in TextMetaKeys then Str(TextField(wp, v))
    else if key == "_sou_horario" then Str(wp.ksesPost(ToStr(wp.casts, v)))
    else if key == "_sou_image_id" then Int(AbsInt(wp.casts, v))
    else if key == "_sou_status" then SanitizeStatus(v)
    else if key == "_sou_lat" || key == "_sou_lng" then Num(SanitizeCoordinate(wp.casts, v))
    else v
  }

  /** The platform runs the callbacks `register_meta` installs for units. */
  ghost predicate UnitMetaRegistered(wp: Platform)
  {
    forall key, v :: wp.sanitizeMeta(UnitType, key, v) == UnitMetaCallback(wp, key, v)
  }

  /** A written unit meta key holds what its registered callback makes of some written value. */
  lemma {:induction false} WrittenUnitKey(wp: Platform, posts: seq<Post>, id: int, writes: seq<(string, Value)>, key: string)
    requires UnitMetaRegistered(wp) && 1 <= id <= |posts| && posts[id - 1].postType == UnitType
    requires WritesKey(writes, key)
    ensures key in WithMeta(wp, posts, id, writes)[id - 1].meta
    ensures exists v :: WithMeta(wp, posts, id, writes)[id - 1].meta[key] == UnitMetaCallback(wp, key, v)
  {
    ApplyMetaWritten(wp, UnitType, posts[id - 1].meta, writes, key);
    var i :| 0 <= i < |writes| && writes[i].0 == key
             && ApplyMeta(wp, UnitType, posts[id - 1].meta, writes)[key] == wp.sanitizeMeta(UnitType, key, writes[i].1);
    assert WithMeta(wp, posts, id, writes)[id - 1].meta[key] == UnitMetaCallback(wp, key, writes[i].1);
  }

  /**
   * Whatever code writes a unit's meta (the metabox, the importer), a written
   * status is 'active' or 'inactive', a written coordinate lies within
   * [-180, 180] and a written image ID is a non-negative integer.
   */
  lemma WrittenUnitMetaIsSanitized(wp: Platform, posts: seq<Post>, id: int, writes: seq<(string, Value)>, key: string)
    requires UnitMetaRegistered(wp) && 1 <= id <= |posts| && posts[id - 1].postType == UnitType
    requires WritesKey(writes, key)
    ensures var stored := WithMeta(wp, posts, id, writes)[id - 1].meta[key];
      && (key == "_sou_status" ==> stored == Str("active") || stored == Str("inactive"))
      && (key == "_sou_lat" || key == "_sou_lng" ==> stored.Num? && -180.0 <= stored.r <= 180.0)
      && (key == "_sou_image_id" ==> stored.Int? && stored.i >= 0)
  {
    WrittenUnitKey(wp, posts, id, writes, key);
    var v :| WithMeta(wp, posts, id, writes)[id - 1].meta[key] == UnitMetaCallback(wp, key, v);
  }

  // ---------------------------------------------------------------------------
  // columns
  // ---------------------------------------------------------------------------

  /** The two columns added after the title, with their labels. */
  const CityColumn: (string, Value) := ("sou_cidade", Str("Cidade"))
  const StatusColumn: (string, Value) := ("sou_status", Str("Status"))

  /** One step of the `foreach` of `columns`. */
  function AddColumn(acc: Assoc, col: (string, Value)): Assoc
  {
    var a := Put(acc, col.0, col.1);
    if col.0 == "title" then Put(Put(a, CityColumn.0, CityColumn.1), StatusColumn.0, StatusColumn.1) else a
  }

  /** `Post_Type_Unidade::columns`: every column copied in order, the two extra ones written after `title`. */
  function Columns(cols: Assoc): (r: Assoc)
    ensures DistinctKeys(r)
  {
    if cols == [] then [] else AddColumn(Columns(cols[..|cols| - 1]), cols[|cols| - 1])
  }

  /** The intended layout: each column, the two extra ones right after `title`. */
  function Expand(cols: Assoc): (r: Assoc)
    ensures forall i :: 0 <= i < |r| ==>
      HasKey(cols, r[i].0) || ((r[i].0 == CityColumn.0 || r[i].0 == StatusColumn.0) && HasKey(cols, "title"))
  {
    if cols == [] then []
    else
      var init := cols[..|cols| - 1];
      var x := cols[|cols| - 1];
      var e := Expand(init);
      assert forall k :: HasKey(init, k) ==> HasKey(cols, k) by {
        forall k | HasKey(init, k) ensures HasKey(cols, k) {
          var i :| 0 <= i < |init| && init[i].0 == k;
          assert cols[i].0 == k;
        }
      }
      assert cols[|cols| - 1].0 == x.0;
      e + [x] + (if x.0 == "title" then [CityColumn, StatusColumn] else [])
  }

  /** Writing a key the array does not hold appends it. */
  lemma {:induction false} PutNewKey(a: Assoc, k: string, v: Value)
    requires !HasKey(a, k)
    ensures Put(a, k, v) == a + [(k, v)]
  {
    if a != [] {
      assert a[0].0 != k;
      assert !HasKey(a[1..], k);
      PutNewKey(a[1..], k, v);
      assert [a[0]] + (a[1..] + [(k, v)]) == a + [(k, v)];
    }
  }

  /** A PHP column array whose keys are distinct and which has no column of its own named like the extra ones. */
  predicate PlainColumns(cols: Assoc)
  {
    DistinctKeys(cols) && !HasKey(cols, CityColumn.0) && !HasKey(cols, StatusColumn.0)
  }

  /** On plain columns, `columns` builds the intended layout. */
  lemma {:induction false} ColumnsIsExpand(cols: Assoc)
    requires PlainColumns(cols)
    ensures Columns(cols) == Expand(cols)
    decreases |cols|
  {
    if cols != [] {
      var init := cols[..|cols| - 1];
      var x := cols[|cols| - 1];
      PlainPrefix(cols);
      ColumnsIsExpand(init);
      var e := Expand(init);
      NotInExpand(cols);
      AddNewColumn(e, x);
    }
  }

  /** Adding a column the array does not hold appends it, and after `title` the two extra ones. */
  lemma AddNewColumn(e: Assoc, x: (string, Value))
    requires !HasKey(e, x.0)
    requires x.0 == "title" ==> !HasKey(e, CityColumn.0) && !HasKey(e, StatusColumn.0)
    ensures AddColumn(e, x) == e + [x] + (if x.0 == "title" then [CityColumn, StatusColumn] else [])
  {
    PutNewKey(e, x.0, x.1);
    if x.0 == "title" {
      AddExtraColumns(e + [x]);
    }
  }

  /** The two extra columns are appended to an array that holds neither. */
  lemma AddExtraColumns(a: Assoc)
    requires !HasKey(a, CityColumn.0) && !HasKey(a, StatusColumn.0)
    ensures Put(Put(a, CityColumn.0, CityColumn.1), StatusColumn.0, StatusColumn.1) == a + [CityColumn, StatusColumn]
  {
    var withCity := a + [CityColumn];
    PutNewKey(a, CityColumn.0, CityColumn.1);
    assert Put(a, CityColumn.0, CityColumn.1) == withCity;
    assert [CityColumn][0].0 != StatusColumn.0;
    HasKeyAppend(a, [CityColumn], StatusColumn.0);
    assert !HasKey(withCity, StatusColumn.0);
    PutNewKey(withCity, StatusColumn.0, StatusColumn.1);
  }

  /** A key is in a concatenation when it is in either part. */
  lemma HasKeyAppend(a: Assoc, b: Assoc, k: string)
    ensures HasKey(a + b, k) <==> HasKey(a, k) || HasKey(b, k)
  {
    if HasKey(a + b, k) {
      var i :| 0 <= i < |a + b| && (a + b)[i].0 == k;
      if i >= |a| {
        assert b[i - |a|].0 == k;
      }
    }
    if HasKey(a, k) {
      var i :| 0 <= i < |a| && a[i].0 == k;
      assert (a + b)[i].0 == k;
    }
    if HasKey(b, k) {
      var i :| 0 <= i < |b| && b[i].0 == k;
      assert (a + b)[|a| + i].0 == k;
    }
  }

  /** Dropping the last column keeps the columns plain. */
  lemma PlainPrefix(cols: Assoc)
    requires PlainColumns(cols) && cols != []
    ensures PlainColumns(cols[..|cols| - 1])
  {
    var init := cols[..|cols| - 1];
    forall k | HasKey(init, k) ensures HasKey(cols, k) {
      var i :| 0 <= i < |init| && init[i].0 == k;
      assert cols[i].0 == k;
    }
  }

  /**
   * The last column's key is not in the layout of the others, and when it is
   * the title neither extra column is there yet.
   */
  lemma NotInExpand(cols: Assoc)
    requires PlainColumns(cols) && cols != []
    ensures !HasKey(Expand(cols[..|cols| - 1]), cols[|cols| - 1].0)
    ensures cols[|cols| - 1].0 == "title" ==>
      !HasKey(Expand(cols[..|cols| - 1]), CityColumn.0) && !HasKey(Expand(cols[..|cols| - 1]), StatusColumn.0)
  {
    var init := cols[..|cols| - 1];
    var x := cols[|cols| - 1];
    var e := Expand(init);
    assert !HasKey(init, x.0) by {
      forall i | 0 <= i < |init| ensures init[i].0 != x.0 {
        assert init[i] == cols[i];
      }
    }
    assert x.0 != CityColumn.0 && x.0 != StatusColumn.0 by {
      assert HasKey(cols, x.0);
    }
  }

  /** The intended layout without a title is the input itself. */
  lemma {:induction false} ExpandWithoutTitle(cols: Assoc)
    requires !HasKey(cols, "title")
    ensures Expand(cols) == cols
    decreases |cols|
  {
    if cols != [] {
      var init := cols[..|cols| - 1];
      assert !HasKey(init, "title");
      ExpandWithoutTitle(init);
      assert cols[|cols| - 1].0 != "title";
      assert init + [cols[|cols| - 1]] == cols;
    }
  }

  /** The intended layout inserts the two columns right after the title at `t`. */
  lemma {:induction false} ExpandWithTitle(cols: Assoc, t: int)
    requires 0 <= t < |cols| && cols[t].0 == "title"
    requires forall i :: 0 <= i < |cols| && i != t ==> cols[i].0 != "title"
    ensures Expand(cols) == cols[..t + 1] + [CityColumn, StatusColumn] + cols[t + 1..]
    decreases |cols|
  {
    var init := cols[..|cols| - 1];
    var x := cols[|cols| - 1];
    if t == |cols| - 1 {
      ExpandWithoutTitle(init);
      assert cols[..t + 1] == init + [x];
      assert cols[t + 1..] == [];
    } else {
      ExpandWithTitle(init, t);
      assert init[..t + 1] == cols[..t + 1];
      assert init[t + 1..] + [x] == cols[t + 1..];
    }
  }

  /**
   * `columns` keeps every column in order and puts `sou_cidade` and
   * `sou_status` immediately after `title`; without a `title` it changes
   * nothing.
   */
  lemma ColumnsInsertAfterTitle(cols: Assoc, t: int)
    requires PlainColumns(cols)
    requires 0 <= t < |cols| && cols[t].0 == "title"
    ensures Columns(cols) == cols[..t + 1] + [CityColumn, StatusColumn] + cols[t + 1..]
  {
    ColumnsIsExpand(cols);
    ExpandWithTitle(cols, t);
  }

  /** Without a `title` column, `columns` returns its input, whatever other columns it holds. */
  lemma {:induction false} ColumnsWithoutTitle(cols: Assoc)
    requires DistinctKeys(cols) && !HasKey(cols, "title")
    ensures Columns(cols) == cols
    decreases |cols|
  {
    if cols != [] {
      var init := cols[..|cols| - 1];
      var x := cols[|cols| - 1];
      assert !HasKey(init, "title") && !HasKey(init, x.0) by {
        forall i | 0 <= i < |init| ensures init[i].0 != "title" && init[i].0 != x.0 {
          assert init[i] == cols[i];
        }
      }
      ColumnsWithoutTitle(init);
      PutNewKey(init, x.0, x.1);
      assert x.0 != "title";
      assert init + [x] == cols;
    }
  }

  /** Reading an array with one more entry appended. */
  lemma {:induction false} LookupSnoc(a: Assoc, x: (string, Value), k: string)
    ensures Lookup(a + [x], k) == if HasKey(a, k) then Lookup(a, k) else if x.0 == k then Some(x.1) else None
    decreases |a|
  {
    if a != [] {
      assert (a + [x])[1..] == a[1..] + [x];
      LookupSnoc(a[1..], x, k);
      if a[0].0 != k {
        assert HasKey(a, k) == HasKey(a[1..], k) by {
          if HasKey(a, k) {
            var i :| 0 <= i < |a| && a[i].0 == k;
            assert a[1..][i - 1].0 == k;
          }
          if HasKey(a[1..], k) {
            var i :| 0 <= i < |a[1..]| && a[1..][i].0 == k;
            assert a[i + 1].0 == k;
          }
        }
      } else {
        assert HasKey(a, k);
      }
    }
  }

  /** A `title` column comes after every column keyed `k`, so the title's label for `k` is written last. */
  predicate LabelWins(cols: Assoc, k: string)
  {
    exists t :: 0 <= t < |cols| && cols[t].0 == "title" && forall p :: t < p < |cols| ==> cols[p].0 != k
  }

  /** Whether the title's label wins, after one more column. */
  lemma LabelWinsSnoc(init: Assoc, x: (string, Value), k: string)
    requires k != "title"
    ensures LabelWins(init + [x], k) == (x.0 == "title" || (x.0 != k && LabelWins(init, k)))
  {
    var cols := init + [x];
    if x.0 == "title" {
      assert cols[|cols| - 1].0 == "title";
    } else if x.0 == k {
      assert cols[|cols| - 1].0 == k;
    } else {
      if LabelWins(init, k) {
        var t :| 0 <= t < |init| && init[t].0 == "title" && forall p :: t < p < |init| ==> init[p].0 != k;
        assert cols[t].0 == "title";
        assert forall p :: t < p < |cols| ==> cols[p].0 != k by {
          forall p | t < p < |cols| ensures cols[p].0 != k {
            if p < |init| {
              assert cols[p] == init[p];
            }
          }
        }
      }
      if LabelWins(cols, k) {
        var t :| 0 <= t < |cols| && cols[t].0 == "title" && forall p :: t < p < |cols| ==> cols[p].0 != k;
        assert init[t].0 == "title";
        assert forall p :: t < p < |init| ==> init[p].0 != k by {
          forall p | t < p < |init| ensures init[p].0 != k {
            assert cols[p] == init[p];
          }
        }
      }
    }
  }

  /** One loop step of `columns`, read under a key. */
  lemma AddColumnLookup(acc: Assoc, x: (string, Value), k: string)
    ensures Lookup(AddColumn(acc, x), k) ==
      if x.0 == "title" && k == CityColumn.0 then Some(CityColumn.1)
      else if x.0 == "title" && k == StatusColumn.0 then Some(StatusColumn.1)
      else if x.0 == k then Some(x.1)
      else Lookup(acc, k)
  {
  }

  /** An array with distinct keys, split before its last entry. */
  lemma DistinctInit(cols: Assoc)
    requires DistinctKeys(cols) && cols != []
    ensures DistinctKeys(cols[..|cols| - 1]) && !HasKey(cols[..|cols| - 1], cols[|cols| - 1].0)
    ensures cols[..|cols| - 1] + [cols[|cols| - 1]] == cols
  {
    var init := cols[..|cols| - 1];
    forall i | 0 <= i < |init| ensures init[i] == cols[i] && init[i].0 != cols[|cols| - 1].0 { }
  }

  /** `columns` reads every key other than the two extra ones as its input does. */
  lemma {:induction false} ColumnsLookupOthers(cols: Assoc, k: string)
    requires DistinctKeys(cols)
    ensures k != CityColumn.0 && k != StatusColumn.0 ==> Lookup(Columns(cols), k) == Lookup(cols, k)
    decreases |cols|
  {
    if cols != [] {
      var init := cols[..|cols| - 1];
      var x := cols[|cols| - 1];
      DistinctInit(cols);
      ColumnsLookupOthers(init, k);
      AddColumnLookup(Columns(init), x, k);
      LookupSnoc(init, x, k);
    }
  }

  /**
   * What `columns` reads under `sou_cidade` and `sou_status`, also for an
   * input that already holds them: the title's label when a `title` column
   * comes after the input's own column (or there is none), which the label
   * then overwrites in place; otherwise the input's own value.
   */
  lemma {:induction false} ColumnsLookupExtra(cols: Assoc, e: (string, Value))
    requires DistinctKeys(cols)
    requires e == CityColumn || e == StatusColumn
    ensures Lookup(Columns(cols), e.0) == if LabelWins(cols, e.0) then Some(e.1) else Lookup(cols, e.0)
    decreases |cols|
  {
    if cols != [] {
      var init := cols[..|cols| - 1];
      var x := cols[|cols| - 1];
      DistinctInit(cols);
      ColumnsLookupExtra(init, e);
      AddColumnLookup(Columns(init), x, e.0);
      LookupSnoc(init, x, e.0);
      LabelWinsSnoc(init, x, e.0);
    }
  }

  // ---------------------------------------------------------------------------
  // purge_cache, handle_delete
  // ---------------------------------------------------------------------------

  /** The index exists as a key list (`is_array`). */
  predicate HasIndex(transients: map<string, Cached>)
  {
    CacheIndexKey in transients && transients[CacheIndexKey].KeyIndex?
  }

  /** The transients after a purge: every indexed key and the index are gone. */
  function Purged(transients: map<string, Cached>): (r: map<string, Cached>)
    ensures HasIndex(transients) ==> forall k :: k in IndexOf(transients) ==> k !in r
    ensures CacheIndexKey in transients && !HasIndex(transients) ==> CacheIndexKey in r
    ensures HasIndex(transients) ==> CacheIndexKey !in r
    ensures IndexWellFormed(transients) ==> CacheIndexKey !in r
    ensures forall k :: k in r ==> k in transients && r[k] == transients[k]
    ensures forall k :: k in transients && k !in IndexOf(transients) && k != CacheIndexKey ==> k in r
  {
    if HasIndex(transients) then transients - (set k | k in IndexOf(transients)) - {CacheIndexKey} else transients
  }

  /** After a purge of an indexed cache no unit list is left. */
  lemma PurgeLeavesNoUnitList(transients: map<string, Cached>)
    requires CacheIndexed(transients)
    ensures forall k :: k in Purged(transients) ==> !Purged(transients)[k].UnitList?
  {
  }

  /**
   * `Post_Type_Unidade::purge_cache`: for a unit, delete every transient the
   * index lists, then the index; nothing for another post type or when the
   * index is not a list.
   */
  method PurgeCache(site: Site, postType: string)
    modifies site`transients
    ensures postType == UnitType ==> site.transients == Purged(old(site.transients))
    ensures postType != UnitType ==> site.transients == old(site.transients)
  {
    if postType != UnitType {
      return;
    }
    if !(CacheIndexKey in site.transients && site.transients[CacheIndexKey].KeyIndex?) {
      return;
    }
    var keys := site.transients[CacheIndexKey].keys;
    ghost var t0 := site.transients;
    var i := 0;
    while i < |keys|
      invariant 0 <= i <= |keys|
      invariant site.transients == t0 - (set j | 0 <= j < i :: keys[j])
    {
      site.DeleteTransient(keys[i]);
      assert (set j | 0 <= j < i + 1 :: keys[j]) == (set j | 0 <= j < i :: keys[j]) + {keys[i]};
      i := i + 1;
    }
    assert (set j | 0 <= j < |keys| :: keys[j]) == (set k | k in keys);
    site.DeleteTransient(CacheIndexKey);
  }

  /** `Post_Type_Unidade::handle_delete`: purge when the post is a unit. */
  method HandleDelete(site: Site, postId: int)
    modifies site`transients
    ensures site.PostOf(postId).Some? && site.PostOf(postId).value.postType == UnitType
      ==> site.transients == Purged(old(site.transients))
    ensures !(site.PostOf(postId).Some? && site.PostOf(postId).value.postType == UnitType)
      ==> site.transients == old(site.transients)
  {
    var post := site.PostOf(postId);
    if post.Some? && post.value.postType == UnitType {
      PurgeCache(site, post.value.postType);
    }
  }

  // ---------------------------------------------------------------------------
  // save_meta
  // ---------------------------------------------------------------------------

  /** The metabox fields, in the order `save_meta` writes them. */
  const MetaboxFields: seq<string> := [
    "endereco", "bairro", "cidade", "uf", "cep", "tel", "whatsapp", "tecno_url",
    "horario", "image_id", "status", "lat", "lng"]

  /** `str_replace(',', '.', $s)`. */
  function CommaToDot(s: string): (r: string)
    ensures |r| == |s| && ',' !in r
    ensures forall i :: 0 <= i < |s| ==> r[i] == (if s[i] == ',' then '.' else s[i])
  {
    if s == [] then [] else [if s[0] == ',' then '.' else s[0]] + CommaToDot(s[1..])
  }

  /** The value `save_meta` stores for one field. */
  function CleanField(wp: Platform, key: string, v: Value): (r: Value)
    ensures key == "status" ==> r == Str("active") || r == Str("inactive")
    ensures key == "image_id" ==> r.Int? && r.i >= 0
    ensures (key == "lat" || key == "lng") && v == Str("") ==> r == Str("")
    ensures (key == "lat" || key == "lng") && v != Str("") ==>
      r == Str(wp.casts.formatFloat(ToFloat(wp.casts, Str(CommaToDot(ToStr(wp.casts, v))))))
    ensures key !in {"horario", "lat", "lng", "tecno_url", "status", "image_id"} ==> r == Str(TextField(wp, v))
  {
    if key == "horario" then Str(wp.ksesPost(ToStr(wp.casts, v)))
    else if key == "lat" || key == "lng" then
      if v == Str("") then Str("") else Str(wp.casts.formatFloat(ToFloat(wp.casts, Str(CommaToDot(ToStr(wp.casts, v))))))
    else if key == "tecno_url" then Str(wp.escUrlRaw(ToStr(wp.casts, v)))
    else if key == "status" then SanitizeStatus(v)
    else if key == "image_id" then Int(AbsInt(wp.casts, v))
    else Str(TextField(wp, v))
  }

  /** `$data[$key] ?? ''`. */
  function FieldValue(data: map<string, Value>, key: string): Value
  {
    if key in data && data[key] != Null then data[key] else Str("")
  }

  /** The meta writes of `save_meta`: one per metabox field, in order. */
  function SaveMetaWrites(wp: Platform, data: map<string, Value>, fields: seq<string>): (r: seq<(string, Value)>)
    ensures |r| == |fields|
    ensures forall i :: 0 <= i < |fields| ==> r[i] == ("_sou_" + fields[i], CleanField(wp, fields[i], FieldValue(data, fields[i])))
  {
    seq(|fields|, i requires 0 <= i < |fields| => ("_sou_" + fields[i], CleanField(wp, fields[i], FieldValue(data, fields[i]))))
  }

  /**
   * The guards of `save_meta`: a nonce that verifies for
   * 'soumais_unidade_meta', no autosave, and the right to edit the post.
   */
  function MaySaveMeta(wp: Platform, nonce: Option<string>, doingAutosave: bool, canEdit: bool): (ok: bool)
    ensures nonce.None? || doingAutosave || !canEdit ==> !ok
    ensures nonce.Some? && !doingAutosave && canEdit ==>
      (ok <==> wp.verifyNonce(wp.sanitizeText(wp.unslash(nonce.value)), "soumais_unidade_meta"))
  {
    nonce.Some? && wp.verifyNonce(wp.sanitizeText(wp.unslash(nonce.value)), "soumais_unidade_meta")
    && !doingAutosave && canEdit
  }

  /**
   * `Post_Type_Unidade::save_meta`. `nonce` is `$_POST['soumais_unidade_nonce']`,
   * `data` the unslashed `$_POST['soumais']` array (empty when it is missing or
   * not an array), `canEdit` is `current_user_can('edit_post', $post_id)`.
   */
  method SaveMeta(site: Site, wp: Platform, postId: int, nonce: Option<string>, doingAutosave: bool, canEdit: bool,
                  data: map<string, Value>)
    modifies site`posts, site`log
    ensures !MaySaveMeta(wp, nonce, doingAutosave, canEdit) ==> site.posts == old(site.posts) && site.log == old(site.log)
    ensures MaySaveMeta(wp, nonce, doingAutosave, canEdit) ==>
      site.posts == WithMeta(wp, old(site.posts), postId, SaveMetaWrites(wp, data, MetaboxFields))
      && site.log == old(site.log) + MetaEvents(old(site.posts), postId, SaveMetaWrites(wp, data, MetaboxFields))
  {
    if nonce.None? || !wp.verifyNonce(wp.sanitizeText(wp.unslash(nonce.value)), "soumais_unidade_meta") {
      return;
    }
    if doingAutosave {
      return;
    }
    if !canEdit {
      return;
    }
    SaveFields(site, wp, postId, data, MetaboxFields);
  }

  /** The `foreach` of `save_meta` over `fields`. */
  method SaveFields(site: Site, wp: Platform, postId: int, data: map<string, Value>, fields: seq<string>)
    modifies site`posts, site`log
    ensures site.posts == WithMeta(wp, old(site.posts), postId, SaveMetaWrites(wp, data, fields))
    ensures site.log == old(site.log) + MetaEvents(old(site.posts), postId, SaveMetaWrites(wp, data, fields))
  {
    ghost var posts0 := site.posts;
    ghost var log0 := site.log;
    ghost var writes: seq<(string, Value)> := [];
    var i := 0;
    while i < |fields|
      invariant 0 <= i <= |fields|
      invariant writes == SaveMetaWrites(wp, data, fields[..i])
      invariant site.posts == WithMeta(wp, posts0, postId, writes)
      invariant site.log == log0 + MetaEvents(posts0, postId, writes)
    {
      var key := fields[i];
      var clean := CleanField(wp, key, FieldValue(data, key));
      AppendMeta(site, wp, postId, posts0, log0, writes, "_sou_" + key, clean);
      writes := writes + [("_sou_" + key, clean)];
      SaveMetaWritesSnoc(wp, data, fields, i);
      i := i + 1;
    }
    assert fields[..i] == fields;
  }

  /** One more field is one more write. */
  lemma SaveMetaWritesSnoc(wp: Platform, data: map<string, Value>, fields: seq<string>, i: int)
    requires 0 <= i < |fields|
    ensures SaveMetaWrites(wp, data, fields[..i + 1]) ==
      SaveMetaWrites(wp, data, fields[..i]) + [("_sou_" + fields[i], CleanField(wp, fields[i], FieldValue(data, fields[i])))]
  {
    var a := SaveMetaWrites(wp, data, fields[..i + 1]);
    var b := SaveMetaWrites(wp, data, fields[..i]);
    assert forall j :: 0 <= j < i ==> fields[..i + 1][j] == fields[..i][j];
    assert forall j :: 0 <= j < i ==> a[j] == b[j];
  }

  /** Distinct fields give distinct meta keys. */
  lemma MetaKeysDistinct(a: string, b: string)
    requires a != b
    ensures "_sou_" + a != "_sou_" + b
  {
    assert a == ("_sou_" + a)[5..] && b == ("_sou_" + b)[5..];
  }

  /**
   * After `save_meta` on an existing post, every field holds its cleaned
   * value as the sanitizer registered for the key leaves it.
   */
  lemma SaveMetaStoresEveryField(wp: Platform, posts: seq<Post>, postId: int, data: map<string, Value>, fields: seq<string>, i: int)
    requires 1 <= postId <= |posts|
    requires forall p, q :: 0 <= p < q < |fields| ==> fields[p] != fields[q]
    requires 0 <= i < |fields|
    ensures var meta := WithMeta(wp, posts, postId, SaveMetaWrites(wp, data, fields))[postId - 1].meta;
      "_sou_" + fields[i] in meta
      && meta["_sou_" + fields[i]]
         == wp.sanitizeMeta(posts[postId - 1].postType, "_sou_" + fields[i], CleanField(wp, fields[i], FieldValue(data, fields[i])))
  {
    var writes := SaveMetaWrites(wp, data, fields);
    forall j | i < j < |writes|
      ensures writes[j].0 != writes[i].0
    {
      MetaKeysDistinct(fields[j], fields[i]);
    }
    ApplyMetaLastWins(wp, posts[postId - 1].postType, posts[postId - 1].meta, writes, i);
  }

  /** On a unit, `save_meta` leaves each metabox field as its registered callback makes of the cleaned value. */
  lemma SavedUnitMeta(wp: Platform, posts: seq<Post>, postId: int, data: map<string, Value>, i: int)
    requires UnitMetaRegistered(wp) && 1 <= postId <= |posts| && posts[postId - 1].postType == UnitType
    requires 0 <= i < |MetaboxFields|
    ensures var meta := WithMeta(wp, posts, postId, SaveMetaWrites(wp, data, MetaboxFields))[postId - 1].meta;
      "_sou_" + MetaboxFields[i] in meta
      && meta["_sou_" + MetaboxFields[i]]
         == UnitMetaCallback(wp, "_sou_" + MetaboxFields[i], CleanField(wp, MetaboxFields[i], FieldValue(data, MetaboxFields[i])))
  {
    SaveMetaStoresEveryField(wp, posts, postId, data, MetaboxFields, i);
  }

  /**
   * A coordinate left blank in the metabox is cleaned to '' but stored as 0,
   * because `sanitize_coordinate` runs `floatval('')`.
   */
  lemma BlankCoordinateIsStoredAsZero(wp: Platform, posts: seq<Post>, postId: int, data: map<string, Value>, i: int)
    requires UnitMetaRegistered(wp) && 1 <= postId <= |posts| && posts[postId - 1].postType == UnitType
    requires 0 <= i < |MetaboxFields| && (MetaboxFields[i] == "lat" || MetaboxFields[i] == "lng")
    requires FieldValue(data, MetaboxFields[i]) == Str("") && wp.casts.parseFloat("") == 0.0
    ensures WithMeta(wp, posts, postId, SaveMetaWrites(wp, data, MetaboxFields))[postId - 1].meta["_sou_" + MetaboxFields[i]]
            == Num(0.0)
  {
    SavedUnitMeta(wp, posts, postId, data, i);
    BlankCoordinateCallback(wp, MetaboxFields[i]);
  }

  /** The callback of a coordinate key on the blank value `save_meta` cleans it to. */
  lemma BlankCoordinateCallback(wp: Platform, field: string)
    requires field == "lat" || field == "lng"
    ensures UnitMetaCallback(wp, "_sou_" + field, CleanField(wp, field, Str(""))) == Num(SanitizeCoordinate(wp.casts, Str("")))
  {
    var key := "_sou_" + field;
    assert key == "_sou_lat" || key == "_sou_lng";
    assert key !in TextMetaKeys && key != "_sou_horario" && key != "_sou_image_id" && key != "_sou_status";
  }
}
