/**
 * The CSV importer of includes/class-importer.php: each row of a
 * ';'-separated file, keyed by the header, is upserted as a unit by title.
 * The file itself (upload, `fopen`, `fgetcsv`) is not modelled: the header
 * and the rows arrive as sequences of cells.
 */
module Importer {
  import opened Php
  import opened WordPress

  /** Meta key and the CSV column it is read from. */
  const ImportMetaMap: seq<(string, string)> := [
    ("_sou_endereco", "endereco"), ("_sou_bairro", "bairro"), ("_sou_cidade", "cidade"),
    ("_sou_uf", "uf"), ("_sou_cep", "cep"), ("_sou_tel", "telefone"), ("_sou_whatsapp", "whatsapp"),
    ("_sou_tecno_url", "tecnofit_url"), ("_sou_horario", "horario"), ("_sou_status", "status")]

  /** `array_combine($header, $row)`: a later column with a repeated name wins. */
  function Combine(header: seq<string>, row: seq<string>): (r: map<string, string>)
    requires |header| == |row|
    ensures forall i :: 0 <= i < |header| ==> header[i] in r
    ensures forall k :: k in r ==> k in header
  {
    if header == [] then map[]
    else
      var n := |header| - 1;
      Combine(header[..n], row[..n])[header[n] := row[n]]
  }

  /** A unit post whose title the database compares equal to `title`. */
  predicate Titled(wp: Platform, p: Post, title: string)
  {
    p.postType == UnitType && wp.sameTitle(p.title, title)
  }

  /**
   * `get_page_by_title($title, OBJECT, 'sou_unidade')`: the first unit, in
   * table order, whose title matches under the database's collation.
   */
  function FindByTitle(wp: Platform, posts: seq<Post>, title: string): (r: nat)
    ensures r == 0 ==> forall i :: 0 <= i < |posts| ==> !Titled(wp, posts[i], title)
    ensures r != 0 ==> r <= |posts| && Titled(wp, posts[r - 1], title)
    ensures r != 0 ==> forall i :: 0 <= i < r - 1 ==> !Titled(wp, posts[i], title)
  {
    if posts == [] then 0
    else
      var n := |posts| - 1;
      var r := FindByTitle(wp, posts[..n], title);
      assert forall i :: 0 <= i < n ==> posts[..n][i] == posts[i];
      if r != 0 then r
      else if Titled(wp, posts[n], title) then n + 1
      else 0
  }

  /** The meta writes of the columns present in the row, in the order of the map. */
  function ColumnWrites(wp: Platform, data: map<string, string>, pairs: seq<(string, string)>): (r: seq<(string, Value)>)
    ensures |r| <= |pairs|
    ensures forall i :: 0 <= i < |r| ==> r[i].1.Str?
  {
    if pairs == [] then []
    else
      var n := |pairs| - 1;
      var w := ColumnWrites(wp, data, pairs[..n]);
      if pairs[n].1 in data then w + [(pairs[n].0, Str(wp.sanitizeText(data[pairs[n].1])))] else w
  }

  /** A meta key is written exactly when its column is in the row. */
  lemma {:induction false} ColumnWritesOnlyPresent(wp: Platform, data: map<string, string>, pairs: seq<(string, string)>, key: string)
    ensures WritesKey(ColumnWrites(wp, data, pairs), key) <==>
      exists i :: 0 <= i < |pairs| && pairs[i].0 == key && pairs[i].1 in data
    decreases |pairs|
  {
    if pairs != [] {
      var n := |pairs| - 1;
      var init := pairs[..n];
      var w := ColumnWrites(wp, data, init);
      var r := ColumnWrites(wp, data, pairs);
      ColumnWritesOnlyPresent(wp, data, init, key);
      assert forall i :: 0 <= i < n ==> init[i] == pairs[i];
      assert forall i :: 0 <= i < |w| ==> r[i] == w[i];
      if WritesKey(r, key) {
        var i :| 0 <= i < |r| && r[i].0 == key;
        if i == |w| {
          assert pairs[n].0 == key && pairs[n].1 in data;
        } else {
          assert WritesKey(w, key);
          var j :| 0 <= j < n && init[j].0 == key && init[j].1 in data;
          assert pairs[j] == init[j];
        }
      }
      if exists i :: 0 <= i < |pairs| && pairs[i].0 == key && pairs[i].1 in data {
        var j :| 0 <= j < |pairs| && pairs[j].0 == key && pairs[j].1 in data;
        if j == n {
          assert r[|r| - 1].0 == key;
        } else {
          assert init[j] == pairs[j];
          var i :| 0 <= i < |w| && w[i].0 == key;
          assert r[i].0 == key;
        }
      }
    }
  }

  /** A coordinate column, written as `(float)` only when present. */
  function CoordinateWrite(c: Casts, data: map<string, string>, column: string, metaKey: string): seq<(string, Value)>
  {
    if column in data then [(metaKey, Num(c.parseFloat(data[column])))] else []
  }

  /** All meta writes of one row: the mapped columns, then `lat`, then `lng`. */
  function RowWrites(wp: Platform, cols: seq<(string, string)>, data: map<string, string>): seq<(string, Value)>
  {
    ColumnWrites(wp, data, cols) + CoordinateWrite(wp.casts, data, "lat", "_sou_lat")
      + CoordinateWrite(wp.casts, data, "lng", "_sou_lng")
  }

  /** The effect of one upsert: the ID returned, the post table after it, the events it logs. */
  datatype Outcome = Outcome(id: int, posts: seq<Post>, events: seq<Event>)

  /** The unit title of a row, `sanitize_text_field($data['nome'] ?? '')`. */
  function RowTitle(wp: Platform, data: map<string, string>): string
  {
    wp.sanitizeText(if "nome" in data then data["nome"] else "")
  }

  /**
   * `Importer::upsert_unit` as a state transition. A row with an empty
   * title, or whose insert fails, changes nothing and returns 0; otherwise
   * the returned ID names a unit with the row's title: the first existing
   * unit of that title, updated in place, or a new post appended to the
   * table. No other post changes.
   */
  function Upsert(wp: Platform, cols: seq<(string, string)>, posts: seq<Post>, data: map<string, string>): (o: Outcome)
    ensures Empty(Str(RowTitle(wp, data))) ==> o == Outcome(0, posts, [])
    ensures o.id == 0 ==> o.posts == posts && o.events == []
    ensures o.id != 0 ==>
      1 <= o.id <= |o.posts| && o.posts[o.id - 1].title == RowTitle(wp, data)
      && o.posts[o.id - 1].postType == UnitType && |o.events| >= 1 && o.events[0] == Inserted(o.id)
    ensures o.id != 0 && FindByTitle(wp, posts, RowTitle(wp, data)) != 0 ==>
      o.id == FindByTitle(wp, posts, RowTitle(wp, data)) && |o.posts| == |posts|
    ensures o.id != 0 && FindByTitle(wp, posts, RowTitle(wp, data)) == 0 ==> o.id == |posts| + 1 && |o.posts| == |posts| + 1
    ensures KeepsOtherPosts(posts, o.posts, o.id)
  {
    var title := RowTitle(wp, data);
    if Empty(Str(title)) then Outcome(0, posts, [])
    else
      var existing := FindByTitle(wp, posts, title);
      var inserted := InsertResult(wp, posts, existing, UnitType, title, "publish");
      var id := inserted.0;
      if id == 0 then Outcome(0, posts, [])
      else
        var writes := RowWrites(wp, cols, data);
        Outcome(id, WithMeta(wp, inserted.1, id, writes), [Inserted(id)] + MetaEvents(inserted.1, id, writes))
  }

  /** Every post of `posts` other than post `id` is unchanged in `next`. */
  predicate KeepsOtherPosts(posts: seq<Post>, next: seq<Post>, id: int)
  {
    |posts| <= |next| && forall k :: 0 <= k < |posts| && k != id - 1 ==> next[k] == posts[k]
  }

  /** A key written by a concatenation of writes is written by one of the parts. */
  lemma WritesKeyAppend(a: seq<(string, Value)>, b: seq<(string, Value)>, key: string)
    ensures WritesKey(a + b, key) <==> WritesKey(a, key) || WritesKey(b, key)
  {
    if WritesKey(a + b, key) {
      var i :| 0 <= i < |a + b| && (a + b)[i].0 == key;
      if i < |a| {
        assert a[i].0 == key;
      } else {
        assert b[i - |a|].0 == key;
      }
    }
    if WritesKey(b, key) {
      var i :| 0 <= i < |b| && b[i].0 == key;
      assert (a + b)[|a| + i].0 == key;
    }
    if WritesKey(a, key) {
      var i :| 0 <= i < |a| && a[i].0 == key;
      assert (a + b)[i].0 == key;
    }
  }

  /** The meta keys one row writes: its mapped columns that are present, and the coordinates it has. */
  lemma {:induction false} RowWritesKeys(wp: Platform, cols: seq<(string, string)>, data: map<string, string>, key: string)
    ensures WritesKey(RowWrites(wp, cols, data), key) <==>
      (exists i :: 0 <= i < |cols| && cols[i].0 == key && cols[i].1 in data)
      || (key == "_sou_lat" && "lat" in data) || (key == "_sou_lng" && "lng" in data)
  {
    var cw := ColumnWrites(wp, data, cols);
    var lat := CoordinateWrite(wp.casts, data, "lat", "_sou_lat");
    var lng := CoordinateWrite(wp.casts, data, "lng", "_sou_lng");
    ColumnWritesOnlyPresent(wp, data, cols, key);
    WritesKeyAppend(cw + lat, lng, key);
    WritesKeyAppend(cw, lat, key);
    if "lat" in data {
      assert lat[0].0 == "_sou_lat";
    }
    if "lng" in data {
      assert lng[0].0 == "_sou_lng";
    }
  }

  /**
   * Updating an existing unit applies the row's writes, through the
   * registered sanitizers, over the meta the unit already had.
   */
  lemma UpsertUpdatesMeta(wp: Platform, cols: seq<(string, string)>, posts: seq<Post>, data: map<string, string>)
    requires Upsert(wp, cols, posts, data).id != 0 && FindByTitle(wp, posts, RowTitle(wp, data)) != 0
    ensures var o := Upsert(wp, cols, posts, data);
      o.posts[o.id - 1].meta == ApplyMeta(wp, UnitType, posts[o.id - 1].meta, RowWrites(wp, cols, data))
  {
    var title := RowTitle(wp, data);
    var existing := FindByTitle(wp, posts, title);
    var writes := RowWrites(wp, cols, data);
    var o := Upsert(wp, cols, posts, data);
    var p := Post(UnitType, title, "publish", posts[existing - 1].meta);
    assert !Empty(Str(title));
    UpsertSteps(wp, cols, posts, data);
    var inserted := InsertResult(wp, posts, existing, UnitType, title, "publish");
    assert !wp.insertFails(posts, p);
    assert inserted == (existing, posts[existing - 1 := p]);
    assert o.posts == WithMeta(wp, inserted.1, existing, writes);
  }

  /**
   * Updating an existing unit leaves the meta of every column absent from the
   * row as it was.
   */
  lemma UpsertKeepsAbsentColumns(wp: Platform, cols: seq<(string, string)>, posts: seq<Post>, data: map<string, string>, metaKey: string)
    requires Upsert(wp, cols, posts, data).id != 0 && FindByTitle(wp, posts, RowTitle(wp, data)) != 0
    requires forall i :: 0 <= i < |cols| && cols[i].0 == metaKey ==> cols[i].1 !in data
    requires !(metaKey == "_sou_lat" && "lat" in data) && !(metaKey == "_sou_lng" && "lng" in data)
    ensures var o := Upsert(wp, cols, posts, data);
      var before := posts[o.id - 1].meta;
      var after := o.posts[o.id - 1].meta;
      (metaKey in before ==> metaKey in after && after[metaKey] == before[metaKey])
      && (metaKey in after ==> metaKey in before)
  {
    var writes := RowWrites(wp, cols, data);
    RowWritesKeys(wp, cols, data, metaKey);
    assert !WritesKey(writes, metaKey);
    UpsertUpdatesMeta(wp, cols, posts, data);
  }

  /** The IDs, post table and events of a run over the rows, row by row. */
  datatype Run = Run(ids: seq<int>, posts: seq<Post>, events: seq<Event>)

  /** The loop of `import_csv` as a fold of `Upsert` over the rows. */
  function ImportRun(wp: Platform, cols: seq<(string, string)>, posts: seq<Post>, log: seq<Event>, header: seq<string>, rows: seq<seq<string>>): (r: Run)
    requires forall i :: 0 <= i < |rows| ==> |rows[i]| == |header|
    ensures |r.ids| == |rows|
  {
    if rows == [] then Run([], posts, log)
    else
      var n := |rows| - 1;
      var prev := ImportRun(wp, cols, posts, log, header, rows[..n]);
      var o := Upsert(wp, cols, prev.posts, Combine(header, rows[n]));
      Run(prev.ids + [o.id], o.posts, prev.events + o.events)
  }

  /** One more row is one more upsert after the run over the rows before it. */
  lemma ImportRunSnoc(wp: Platform, cols: seq<(string, string)>, posts: seq<Post>, log: seq<Event>, header: seq<string>, rows: seq<seq<string>>, i: nat)
    requires forall k :: 0 <= k < |rows| ==> |rows[k]| == |header|
    requires i < |rows|
    ensures var prev := ImportRun(wp, cols, posts, log, header, rows[..i]);
      var o := Upsert(wp, cols, prev.posts, Combine(header, rows[i]));
      ImportRun(wp, cols, posts, log, header, rows[..i + 1]) == Run(prev.ids + [o.id], o.posts, prev.events + o.events)
      && CountNonZero(prev.ids + [o.id]) == CountNonZero(prev.ids) + (if o.id != 0 then 1 else 0)
  {
    assert rows[..i + 1][..i] == rows[..i];
    var prev := ImportRun(wp, cols, posts, log, header, rows[..i]);
    var o := Upsert(wp, cols, prev.posts, Combine(header, rows[i]));
    assert (prev.ids + [o.id])[..|prev.ids|] == prev.ids;
  }

  /** How many upserts returned an ID. */
  function CountNonZero(ids: seq<int>): (n: nat)
    ensures n <= |ids|
    ensures (forall i :: 0 <= i < |ids| ==> ids[i] != 0) ==> n == |ids|
    ensures (forall i :: 0 <= i < |ids| ==> ids[i] == 0) ==> n == 0
  {
    if ids == [] then 0
    else
      var n := |ids| - 1;
      CountNonZero(ids[..n]) + (if ids[n] != 0 then 1 else 0)
  }

  /** `Importer::upsert_unit`. */
  method UpsertUnit(site: Site, wp: Platform, cols: seq<(string, string)>, data: map<string, string>) returns (id: int)
    modifies site`posts, site`log
    ensures id == Upsert(wp, cols, old(site.posts), data).id
    ensures site.posts == Upsert(wp, cols, old(site.posts), data).posts
    ensures site.log == old(site.log) + Upsert(wp, cols, old(site.posts), data).events
  {
    ghost var posts0 := site.posts;
    var title := RowTitle(wp, data);
    if Empty(Str(title)) {
      return 0;
    }
    var existing := FindByTitle(wp, site.posts, title);
    UpsertSteps(wp, cols, posts0, data);
    id := InsertAndWrite(site, wp, cols, data, existing, title);
  }

  /**
   * The body of `upsert_unit` once the existing unit is looked up: the post is
   * inserted (or updated) and, when that succeeds, the row's meta is written.
   */
  method InsertAndWrite(site: Site, wp: Platform, cols: seq<(string, string)>, data: map<string, string>, existing: int, title: string)
    returns (id: int)
    requires existing == 0 || 1 <= existing <= |site.posts|
    modifies site`posts, site`log
    ensures var inserted := InsertResult(wp, old(site.posts), existing, UnitType, title, "publish");
      id == inserted.0
      && (id == 0 ==> site.posts == old(site.posts) && site.log == old(site.log))
      && (id != 0 ==> site.posts == WithMeta(wp, inserted.1, id, RowWrites(wp, cols, data))
                      && site.log == old(site.log) + ([Inserted(id)] + MetaEvents(inserted.1, id, RowWrites(wp, cols, data))))
  {
    ghost var log0 := site.log;
    id := site.InsertPost(wp, existing, UnitType, title, "publish");
    if id == 0 {
      return 0;
    }
    ghost var posts1 := site.posts;
    WriteRow(site, wp, cols, id, data);
    assert site.log == log0 + ([Inserted(id)] + MetaEvents(posts1, id, RowWrites(wp, cols, data)));
  }

  /** `Upsert` for a non-empty title, as the insert followed by the row's writes. */
  lemma UpsertSteps(wp: Platform, cols: seq<(string, string)>, posts: seq<Post>, data: map<string, string>)
    requires !Empty(Str(RowTitle(wp, data)))
    ensures var title := RowTitle(wp, data);
      var inserted := InsertResult(wp, posts, FindByTitle(wp, posts, title), UnitType, title, "publish");
      var writes := RowWrites(wp, cols, data);
      Upsert(wp, cols, posts, data)
      == if inserted.0 == 0 then Outcome(0, posts, [])
         else Outcome(inserted.0, WithMeta(wp, inserted.1, inserted.0, writes), [Inserted(inserted.0)] + MetaEvents(inserted.1, inserted.0, writes))
  {
  }

  /** The meta writes of `upsert_unit` once the unit has its ID. */
  method WriteRow(site: Site, wp: Platform, cols: seq<(string, string)>, id: int, data: map<string, string>)
    modifies site`posts, site`log
    ensures site.posts == WithMeta(wp, old(site.posts), id, RowWrites(wp, cols, data))
    ensures site.log == old(site.log) + MetaEvents(old(site.posts), id, RowWrites(wp, cols, data))
  {
    ghost var posts1 := site.posts;
    ghost var log1 := site.log;
    WriteColumns(site, wp, cols, id, data);
    ghost var cw := ColumnWrites(wp, data, cols);
    WriteCoordinate(site, wp, id, data, "lat", "_sou_lat", posts1, cw, log1);
    ghost var lat := CoordinateWrite(wp.casts, data, "lat", "_sou_lat");
    WriteCoordinate(site, wp, id, data, "lng", "_sou_lng", posts1, cw + lat, log1);
  }

  /** The loop over the mapped columns of `upsert_unit`: one `update_post_meta` per present column. */
  method WriteColumns(site: Site, wp: Platform, cols: seq<(string, string)>, id: int, data: map<string, string>)
    modifies site`posts, site`log
    ensures site.posts == WithMeta(wp, old(site.posts), id, ColumnWrites(wp, data, cols))
    ensures site.log == old(site.log) + MetaEvents(old(site.posts), id, ColumnWrites(wp, data, cols))
  {
    ghost var posts1 := site.posts;
    ghost var log1 := site.log;
    var i := 0;
    ghost var writes: seq<(string, Value)> := [];
    while i < |cols|
      invariant 0 <= i <= |cols|
      invariant writes == ColumnWrites(wp, data, cols[..i])
      invariant site.posts == WithMeta(wp, posts1, id, writes)
      invariant site.log == log1 + MetaEvents(posts1, id, writes)
    {
      var metaKey := cols[i].0;
      var column := cols[i].1;
      assert cols[..i + 1][..i] == cols[..i];
      if column in data {
        var value := Str(wp.sanitizeText(data[column]));
        AppendMeta(site, wp, id, posts1, log1, writes, metaKey, value);
        writes := writes + [(metaKey, value)];
      }
      i := i + 1;
    }
    assert cols[..i] == cols;
  }

  /** One coordinate of `upsert_unit`, written after the writes already made. */
  method WriteCoordinate(site: Site, wp: Platform, id: int, data: map<string, string>, column: string, metaKey: string,
                         ghost posts1: seq<Post>, ghost writes: seq<(string, Value)>, ghost log0: seq<Event>)
    requires site.posts == WithMeta(wp, posts1, id, writes)
    requires site.log == log0 + MetaEvents(posts1, id, writes)
    modifies site`posts, site`log
    ensures site.posts == WithMeta(wp, posts1, id, writes + CoordinateWrite(wp.casts, data, column, metaKey))
    ensures site.log == log0 + MetaEvents(posts1, id, writes + CoordinateWrite(wp.casts, data, column, metaKey))
  {
    if column in data {
      var value := Num(wp.casts.parseFloat(data[column]));
      AppendMeta(site, wp, id, posts1, log0, writes, metaKey, value);
    } else {
      assert writes + [] == writes;
    }
  }

  /**
   * `Importer::import_csv` after the file is read: 0 for an empty header,
   * otherwise one upsert per row, counting the rows that yielded a unit.
   */
  method ImportCsv(site: Site, wp: Platform, header: seq<string>, rows: seq<seq<string>>) returns (count: nat)
    requires forall i :: 0 <= i < |rows| ==> |rows[i]| == |header|
    modifies site`posts, site`log
    ensures count <= |rows|
    ensures header == [] ==> count == 0 && site.posts == old(site.posts) && site.log == old(site.log)
    ensures header != [] ==>
      var run := ImportRun(wp, ImportMetaMap, old(site.posts), old(site.log), header, rows);
      count == CountNonZero(run.ids) && site.posts == run.posts && site.log == run.events
  {
    count := ImportRows(site, wp, ImportMetaMap, header, rows);
  }

  /** The row loop of `import_csv`, for a column map `cols`. */
  method ImportRows(site: Site, wp: Platform, cols: seq<(string, string)>, header: seq<string>, rows: seq<seq<string>>)
    returns (count: nat)
    requires forall i :: 0 <= i < |rows| ==> |rows[i]| == |header|
    modifies site`posts, site`log
    ensures count <= |rows|
    ensures header == [] ==> count == 0 && site.posts == old(site.posts) && site.log == old(site.log)
    ensures header != [] ==>
      var run := ImportRun(wp, cols, old(site.posts), old(site.log), header, rows);
      count == CountNonZero(run.ids) && site.posts == run.posts && site.log == run.events
  {
    if header == [] {
      return 0;
    }
    ghost var posts0 := site.posts;
    ghost var log0 := site.log;
    count := 0;
    var i := 0;
    while i < |rows|
      invariant 0 <= i <= |rows|
      invariant count == CountNonZero(ImportRun(wp, cols, posts0, log0, header, rows[..i]).ids)
      invariant site.posts == ImportRun(wp, cols, posts0, log0, header, rows[..i]).posts
      invariant site.log == ImportRun(wp, cols, posts0, log0, header, rows[..i]).events
    {
      count := ImportRow(site, wp, cols, header, rows, i, count, posts0, log0);
      i := i + 1;
    }
    assert rows[..i] == rows;
  }

  /** One pass of the `import_csv` loop: row `i` upserted and counted when it yields a unit. */
  method ImportRow(site: Site, wp: Platform, cols: seq<(string, string)>, header: seq<string>, rows: seq<seq<string>>,
                   i: nat, count: nat, ghost posts0: seq<Post>, ghost log0: seq<Event>) returns (count': nat)
    requires forall k :: 0 <= k < |rows| ==> |rows[k]| == |header|
    requires i < |rows|
    requires count == CountNonZero(ImportRun(wp, cols, posts0, log0, header, rows[..i]).ids)
    requires site.posts == ImportRun(wp, cols, posts0, log0, header, rows[..i]).posts
    requires site.log == ImportRun(wp, cols, posts0, log0, header, rows[..i]).events
    modifies site`posts, site`log
    ensures count' == CountNonZero(ImportRun(wp, cols, posts0, log0, header, rows[..i + 1]).ids)
    ensures site.posts == ImportRun(wp, cols, posts0, log0, header, rows[..i + 1]).posts
    ensures site.log == ImportRun(wp, cols, posts0, log0, header, rows[..i + 1]).events
  {
    var data := Combine(header, rows[i]);
    ghost var prev := ImportRun(wp, cols, posts0, log0, header, rows[..i]);
    ghost var next := ImportRun(wp, cols, posts0, log0, header, rows[..i + 1]);
    ghost var o := Upsert(wp, cols, prev.posts, data);
    ImportRunSnoc(wp, cols, posts0, log0, header, rows, i);
    assert next.posts == o.posts && next.events == prev.events + o.events;
    assert CountNonZero(next.ids) == CountNonZero(prev.ids) + (if o.id != 0 then 1 else 0);
    var id := UpsertUnit(site, wp, cols, data);
    count' := if id != 0 then count + 1 else count;
  }

  /**
   * Upserting finds its own unit again: after a row produced a unit, the same
   * title looks up that unit, so importing the row again updates it instead
   * of adding a duplicate. This needs only that the collation compares the
   * title equal to itself.
   */
  lemma UpsertFindsItsUnit(wp: Platform, cols: seq<(string, string)>, posts: seq<Post>, data: map<string, string>)
    requires Upsert(wp, cols, posts, data).id != 0
    requires wp.sameTitle(RowTitle(wp, data), RowTitle(wp, data))
    ensures FindByTitle(wp, Upsert(wp, cols, posts, data).posts, RowTitle(wp, data)) == Upsert(wp, cols, posts, data).id
  {
    var o := Upsert(wp, cols, posts, data);
    var title := RowTitle(wp, data);
    var f := FindByTitle(wp, o.posts, title);
    assert forall i :: 0 <= i < o.id - 1 ==> o.posts[i] == posts[i];
  }
}
