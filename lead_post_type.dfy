/**
 * The lead post type's admin side (includes/class-post-type-lead.php): the
 * list-table columns, the bulk "export selected" request, and the CSV export
 * (its query, its header and one row per lead).
 *
 * Writing the file (HTTP headers, `fputcsv` to php://output, `exit`) is not
 * modelled: the export answers its header and rows as values. Translation
 * (`__()`) is the identity here, so labels are the source's own strings.
 */
module LeadPostType {
  import opened Php
  import opened WordPress

  /** The bulk action `register_bulk_actions` adds. */
  const ExportSelected := "soumais_export_selected"

  // ---------------------------------------------------------------------------
  // register_post_meta
  // ---------------------------------------------------------------------------

  /** The lead meta keys registered with `sanitize_text_field`. */
  const TextMetaKeys: set<string> := {
    "_sou_nome", "_sou_telefone", "_sou_origem", "_sou_utm_source", "_sou_utm_medium", "_sou_utm_campaign",
    "_sou_utm_term", "_sou_utm_content", "_sou_ip", "_sou_data"}

  /**
   * The `sanitize_callback` registered for a lead meta key: `sanitize_email`
   * for the e-mail, `absint` for the unit and the consent, `sanitize_text_field`
   * for the rest (which answers '' for an array); a key registered without
   * one passes unchanged.
   */
  function LeadMetaCallback(wp: Platform, key: string, v: Value): Value
  {
    if key == "_sou_email" then Str(wp.sanitizeEmail(ToStr(wp.casts, v)))
    else if key == "_sou_unidade" || key == "_sou_aceite" then Int(AbsInt(wp.casts, v))
    else if key in TextMetaKeys then Str(TextField(wp, v))
    else v
  }

  /** The platform runs the callbacks `register_post_meta` installs for leads. */
  ghost predicate LeadMetaRegistered(wp: Platform)
  {
    forall key, v :: wp.sanitizeMeta(LeadType, key, v) == LeadMetaCallback(wp, key, v)
  }

  /** The last write of a lead meta key is stored as its registered callback leaves it. */
  lemma LastLeadWrite(wp: Platform, posts: seq<Post>, leadId: int, writes: seq<(string, Value)>, i: int)
    requires LeadMetaRegistered(wp) && 1 <= leadId <= |posts| && posts[leadId - 1].postType == LeadType
    requires 0 <= i < |writes| && forall j :: i < j < |writes| ==> writes[j].0 != writes[i].0
    ensures writes[i].0 in WithMeta(wp, posts, leadId, writes)[leadId - 1].meta
    ensures WithMeta(wp, posts, leadId, writes)[leadId - 1].meta[writes[i].0] == LeadMetaCallback(wp, writes[i].0, writes[i].1)
  {
    ApplyMetaLastWins(wp, LeadType, posts[leadId - 1].meta, writes, i);
  }

  // ---------------------------------------------------------------------------
  // columns
  // ---------------------------------------------------------------------------

  /** The keys of the lead list table, in display order. */
  const ColumnKeys: seq<string> := ["cb", "title", "sou_email", "sou_telefone", "sou_unidade", "sou_data"]

  /**
   * `columns($columns)`: a fresh array of the six lead columns; only the
   * checkbox column is taken from the incoming one (null when it is missing).
   */
  function Columns(columns: map<string, Value>): (r: seq<(string, Value)>)
    ensures |r| == |ColumnKeys| && forall i :: 0 <= i < |r| ==> r[i].0 == ColumnKeys[i]
    ensures r[0].1 == (if "cb" in columns then columns["cb"] else Null)
    ensures forall k :: k in columns && k !in ColumnKeys ==> forall i :: 0 <= i < |r| ==> r[i].0 != k
  {
    [ ("cb", if "cb" in columns then columns["cb"] else Null),
      ("title", Str("Lead")),
      ("sou_email", Str("E-mail")),
      ("sou_telefone", Str("Telefone")),
      ("sou_unidade", Str("Unidade")),
      ("sou_data", Str("Data")) ]
  }

  // ---------------------------------------------------------------------------
  // csv_value
  // ---------------------------------------------------------------------------

  predicate IsLineBreak(ch: char)
  {
    ch == '\r' || ch == '\n'
  }

  predicate NoLineBreaks(s: string)
  {
    forall i :: 0 <= i < |s| ==> !IsLineBreak(s[i])
  }

  /** `preg_replace("/\r|\n/", ' ', $s)`: each CR and each LF becomes one space. */
  function BreaksToSpaces(s: string): (r: string)
    ensures |r| == |s|
    ensures forall i :: 0 <= i < |s| ==> r[i] == (if IsLineBreak(s[i]) then ' ' else s[i])
  {
    if s == [] then []
    else
      var rest := BreaksToSpaces(s[1..]);
      var r := [if IsLineBreak(s[0]) then ' ' else s[0]] + rest;
      assert forall i :: 1 <= i < |s| ==> r[i] == rest[i - 1] && s[i] == s[1..][i - 1];
      r
  }

  /** The array items as `implode` converts them. */
  function ItemStrings(c: Casts, items: seq<Value>): (r: seq<string>)
    ensures |r| == |items| && forall i :: 0 <= i < |items| ==> r[i] == ToStr(c, items[i])
  {
    if items == [] then []
    else
      var rest := ItemStrings(c, items[1..]);
      assert forall i :: 1 <= i < |items| ==> items[i] == items[1..][i - 1];
      [ToStr(c, items[0])] + rest
  }

  /** The text `csv_value` cleans: an array is imploded with ", ", anything else cast to string. */
  function CsvText(c: Casts, v: Value): string
  {
    if v.Arr? then Implode(", ", ItemStrings(c, v.items)) else ToStr(c, v)
  }

  /** Trimming keeps only characters of the trimmed string. */
  lemma TrimKeepsNoLineBreaks(s: string)
    requires NoLineBreaks(s)
    ensures NoLineBreaks(Trim(s))
  {
    var r := Trim(s);
    var l := LeadingSpaces(s);
    forall i | 0 <= i < |r| ensures !IsLineBreak(r[i]) {
      assert r[i] == s[l + i];
    }
  }

  /** The cleaning `csv_value` applies to text: tags stripped, line breaks made spaces, trimmed. */
  function CleanCell(wp: Platform, text: string): (r: string)
    ensures NoLineBreaks(r)
    ensures r == [] || (!IsTrimSpace(r[0]) && !IsTrimSpace(r[|r| - 1]))
    ensures Trim(r) == r
  {
    var flat := BreaksToSpaces(wp.stripAllTags(text));
    TrimKeepsNoLineBreaks(flat);
    TrimIdempotent(flat);
    Trim(flat)
  }

  /** One line without surrounding blanks: what `csv_value` answers. */
  predicate OneLine(s: string)
  {
    NoLineBreaks(s) && Trim(s) == s
  }

  /** `csv_value($value)`: a cell is one line without surrounding blanks. */
  function CsvValue(wp: Platform, v: Value): (r: string)
    ensures OneLine(r)
  {
    CleanCell(wp, CsvText(wp.casts, v))
  }

  /** An array of one scalar item is exported as the item itself would be. */
  lemma CsvValueOneItem(wp: Platform, a: Value)
    requires !a.Arr?
    ensures CsvValue(wp, Arr([a])) == CsvValue(wp, a)
  {
    assert ItemStrings(wp.casts, [a]) == [ToStr(wp.casts, a)];
  }

  /** Two items are one cell with ", " between them. */
  lemma CsvValueJoinsTwo(wp: Platform, a: Value, b: Value)
    ensures CsvValue(wp, Arr([a, b])) == CleanCell(wp, ToStr(wp.casts, a) + ", " + ToStr(wp.casts, b))
  {
    var parts := ItemStrings(wp.casts, [a, b]);
    assert parts == [ToStr(wp.casts, a), ToStr(wp.casts, b)];
    assert parts[1..] == [ToStr(wp.casts, b)];
    assert Implode(", ", parts[1..]) == ToStr(wp.casts, b);
    var text := Implode(", ", parts);
    assert text == ToStr(wp.casts, a) + ", " + ToStr(wp.casts, b);
    assert CsvText(wp.casts, Arr([a, b])) == text;
  }

  // ---------------------------------------------------------------------------
  // maybe_export_selected
  // ---------------------------------------------------------------------------

  /** `$_REQUEST[$key] ?? ''`. */
  function RequestOrEmpty(request: map<string, Value>, key: string): Value
  {
    if key in request && request[key] != Null then request[key] else Str("")
  }

  /**
   * The bulk action the request asks for: 'action', unless that is not the
   * export, in which case 'action2' (the list table's bottom selector).
   */
  function BulkAction(request: map<string, Value>): (r: Value)
    ensures RequestOrEmpty(request, "action") == Str(ExportSelected) ==> r == Str(ExportSelected)
    ensures RequestOrEmpty(request, "action") != Str(ExportSelected) ==> r == RequestOrEmpty(request, "action2")
  {
    var action := RequestOrEmpty(request, "action");
    if action != Str(ExportSelected) then RequestOrEmpty(request, "action2") else action
  }

  /** `wp_unslash` on one submitted value. */
  function Unslash(wp: Platform, v: Value): Value
  {
    if v.Str? then Str(wp.unslash(v.s)) else v
  }

  /** `array_map('absint', wp_unslash($_REQUEST['post']))`. */
  function AbsIds(wp: Platform, items: seq<Value>): (r: seq<nat>)
    ensures |r| == |items| && forall i :: 0 <= i < |items| ==> r[i] == AbsInt(wp.casts, Unslash(wp, items[i]))
  {
    if items == [] then []
    else
      var rest := AbsIds(wp, items[1..]);
      assert forall i :: 1 <= i < |items| ==> items[i] == items[1..][i - 1];
      [AbsInt(wp.casts, Unslash(wp, items[0]))] + rest
  }

  /** `array_filter` on the IDs: the zeros dropped, the order kept. */
  function DropZeros(ids: seq<nat>): (r: seq<nat>)
    ensures |r| <= |ids|
    ensures forall i :: 0 <= i < |r| ==> r[i] > 0
    ensures forall x :: x in r ==> x in ids
    ensures forall i :: 0 <= i < |ids| && ids[i] > 0 ==> ids[i] in r
  {
    if ids == [] then []
    else
      var rest := DropZeros(ids[1..]);
      assert forall i :: 1 <= i < |ids| ==> ids[i] == ids[1..][i - 1];
      var r := (if ids[0] > 0 then [ids[0]] else []) + rest;
      assert forall x :: x in rest ==> x in r;
      r
  }

  /** Dropping zeros distributes over concatenation, so the selection keeps the list order. */
  lemma {:induction false} DropZerosAppend(a: seq<nat>, b: seq<nat>)
    ensures DropZeros(a + b) == DropZeros(a) + DropZeros(b)
  {
    if a == [] {
      assert a + b == b;
    } else {
      assert (a + b)[1..] == a[1..] + b;
      DropZerosAppend(a[1..], b);
    }
  }

  /** What the bulk request leads to. */
  datatype ExportDecision = NoExport | Denied | Export(ids: seq<nat>)

  /**
   * `maybe_export_selected()`. `onLeadList` is the screen check (the lead
   * list table) and `canManage` is `current_user_can('manage_options')`;
   * `Denied` is the `wp_die` answer.
   */
  function SelectedExport(wp: Platform, onLeadList: bool, canManage: bool, request: map<string, Value>): (r: ExportDecision)
    ensures r != NoExport ==> onLeadList && BulkAction(request) == Str(ExportSelected)
    ensures r != NoExport ==> "post" in request && request["post"].Arr? && request["post"].items != []
    ensures r == Denied <==> (onLeadList && BulkAction(request) == Str(ExportSelected)
                              && "post" in request && request["post"].Arr? && request["post"].items != [] && !canManage)
    ensures r.Export? ==> canManage && r.ids != [] && (forall i :: 0 <= i < |r.ids| ==> r.ids[i] > 0)
    ensures r.Export? ==> r.ids == DropZeros(AbsIds(wp, request["post"].items))
  {
    if !onLeadList then NoExport
    else if BulkAction(request) != Str(ExportSelected) then NoExport
    else if !("post" in request) || Empty(request["post"]) || !request["post"].Arr? then NoExport
    else if !canManage then Denied
    else
      var ids := DropZeros(AbsIds(wp, request["post"].items));
      if ids == [] then NoExport else Export(ids)
  }

  /** Only zeros leave nothing. */
  lemma {:induction false} DropZerosAllZero(ids: seq<nat>)
    requires forall i :: 0 <= i < |ids| ==> ids[i] == 0
    ensures DropZeros(ids) == []
  {
    if ids != [] {
      assert forall i :: 0 <= i < |ids| - 1 ==> ids[1..][i] == ids[i + 1];
      DropZerosAllZero(ids[1..]);
    }
  }

  /** A selection made only of IDs that are not positive exports nothing. */
  lemma AllZeroSelectionExportsNothing(wp: Platform, request: map<string, Value>)
    requires "post" in request && request["post"].Arr?
    requires forall i :: 0 <= i < |request["post"].items| ==> AbsInt(wp.casts, Unslash(wp, request["post"].items[i])) == 0
    ensures SelectedExport(wp, true, true, request) == NoExport
  {
    DropZerosAllZero(AbsIds(wp, request["post"].items));
  }

  // ---------------------------------------------------------------------------
  // export_csv
  // ---------------------------------------------------------------------------

  /** The `post__in` value: the IDs as integers. */
  function IdValues(ids: seq<nat>): (r: seq<Value>)
    ensures |r| == |ids| && forall i :: 0 <= i < |ids| ==> r[i] == Int(ids[i])
  {
    if ids == [] then []
    else
      var rest := IdValues(ids[1..]);
      assert forall i :: 1 <= i < |ids| ==> ids[i] == ids[1..][i - 1];
      [Int(ids[0])] + rest
  }

  /**
   * The `WP_Query` arguments of `export_csv($post_ids)`: every published
   * lead, newest first; with a selection, only those leads in the given order.
   */
  function ExportQueryArgs(ids: seq<nat>): (r: Assoc)
    ensures DistinctKeys(r) && |r| >= 6
    ensures r[..3] == [("post_type", Str(LeadType)), ("post_status", Str("publish")), ("posts_per_page", Int(-1))]
    ensures ids == [] ==> |r| == 6 && r[3] == ("orderby", Str("date")) && r[4] == ("order", Str("DESC"))
    ensures ids != [] ==> |r| == 7 && r[3] == ("orderby", Str("post__in")) && r[4] == ("order", Str("ASC"))
    ensures ids != [] ==> r[6] == ("post__in", Arr(IdValues(ids)))
    ensures ids == [] ==> forall i :: 0 <= i < |r| ==> r[i].0 != "post__in"
  {
    var head := [("post_type", Str(LeadType)), ("post_status", Str("publish")), ("posts_per_page", Int(-1))];
    if ids != [] then
      // `$args['orderby']` and `$args['order']` are overwritten in place, `post__in` is appended.
      head + [("orderby", Str("post__in")), ("order", Str("ASC")), ("no_found_rows", Bool(true)), ("post__in", Arr(IdValues(ids)))]
    else
      head + [("orderby", Str("date")), ("order", Str("DESC")), ("no_found_rows", Bool(true))]
  }

  /** The CSV header: twelve labels, in row order. */
  const CsvHeader: seq<string> := [
    "Nome", "E-mail", "Telefone", "Unidade", "Data", "Origem",
    "UTM Source", "UTM Medium", "UTM Campaign", "UTM Term", "UTM Content", "IP"]

  /** The meta keys of the row, in column order; `_sou_unidade` is shown as the unit's title. */
  const RowMetaKeys: seq<string> := [
    "_sou_nome", "_sou_email", "_sou_telefone", "_sou_unidade", "_sou_data", "_sou_origem",
    "_sou_utm_source", "_sou_utm_medium", "_sou_utm_campaign", "_sou_utm_term", "_sou_utm_content", "_sou_ip"]

  /** The unit column: the title of the stored unit ID, '' for ID 0. */
  function UnitColumn(wp: Platform, posts: seq<Post>, leadId: int): string
  {
    var unitId := ToInt(wp.casts, PostMeta(posts, leadId, "_sou_unidade"));
    if unitId != 0 then PostTitle(wp, posts, unitId) else ""
  }

  /** Column `i` of a lead's row, passed through `csv_value`. */
  function Cell(wp: Platform, posts: seq<Post>, leadId: int, i: nat): (r: string)
    requires i < |RowMetaKeys|
    ensures OneLine(r)
  {
    if i == 3 then CsvValue(wp, Str(UnitColumn(wp, posts, leadId)))
    else CsvValue(wp, PostMeta(posts, leadId, RowMetaKeys[i]))
  }

  /** One lead's row: twelve cleaned cells, in header order. */
  function LeadRow(wp: Platform, posts: seq<Post>, leadId: int): (r: seq<string>)
    ensures |r| == |CsvHeader|
    ensures forall i :: 0 <= i < |r| ==> OneLine(r[i])
  {
    seq(|RowMetaKeys|, i requires 0 <= i < |RowMetaKeys| => Cell(wp, posts, leadId, i))
  }

  /**
   * `export_csv($post_ids)`: the header, then one row per lead the query
   * returns, in the query's order.
   */
  method ExportCsv(site: Site, wp: Platform, ids: seq<nat>) returns (header: seq<string>, rows: seq<seq<string>>)
    ensures header == CsvHeader
    ensures |rows| == |wp.query(ExportQueryArgs(ids), site.posts)|
    ensures forall i :: 0 <= i < |rows| ==> rows[i] == LeadRow(wp, site.posts, wp.query(ExportQueryArgs(ids), site.posts)[i])
  {
    header := CsvHeader;
    rows := LeadRows(site, wp, wp.query(ExportQueryArgs(ids), site.posts));
  }

  /** The rows of the leads, one per lead, in order. */
  function Rows(wp: Platform, posts: seq<Post>, leads: seq<int>): (r: seq<seq<string>>)
    ensures |r| == |leads|
    ensures forall i :: 0 <= i < |leads| ==> r[i] == LeadRow(wp, posts, leads[i])
  {
    if leads == [] then [] else Rows(wp, posts, leads[..|leads| - 1]) + [LeadRow(wp, posts, leads[|leads| - 1])]
  }

  /** The `foreach` over the query's posts: one row per lead, in order. */
  method LeadRows(site: Site, wp: Platform, leads: seq<int>) returns (rows: seq<seq<string>>)
    ensures |rows| == |leads|
    ensures forall i :: 0 <= i < |rows| ==> rows[i] == LeadRow(wp, site.posts, leads[i])
  {
    var posts := site.posts;
    rows := [];
    var i := 0;
    while i < |leads|
      invariant 0 <= i <= |leads|
      invariant rows == Rows(wp, posts, leads[..i])
    {
      assert leads[..i + 1][..i] == leads[..i];
      rows := rows + [LeadRow(wp, posts, leads[i])];
      i := i + 1;
    }
    assert leads[..i] == leads;
  }
}
