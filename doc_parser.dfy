/**
 * The string and record logic of the documentation crawler: a page of the
 * Kaiten developer documentation becomes an endpoint record (method, URL,
 * path, key, the routed attribute tables, deduplicated extras, a text
 * summary, a search string and a compact schema), and the site's links are
 * collected without duplicates. The DOM walks that produce the element
 * texts, the tables under their nearest header and the extras of a section
 * are inputs here.
 */
module DocParser {
  import opened Wrappers
  import opened Strings
  import Seqs

  // ---------------------------------------------------------------------
  // the page's identity

  /** The documentation's base URL with its trailing slash, as `processHtml` strips it. */
  const DocsPrefix: string := "https://developers.kaiten.ru/"

  /** `docUrl.replace(DocsPrefix, '').replace(/\//g, '.')` */
  function OperationId(docUrl: string): (r: string)
    ensures '/' !in r
  {
    ReplaceAllChar(ReplaceFirst(docUrl, DocsPrefix, ""), '/', '.')
  }

  /**
   * For a page under the documentation's base URL, the operation id is
   * the rest of the URL with every `/` turned into `.`.
   */
  lemma OperationIdOfDocPage(docUrl: string)
    requires StartsWith(docUrl, DocsPrefix)
    ensures var rest := docUrl[|DocsPrefix|..];
      && |OperationId(docUrl)| == |rest|
      && forall i :: 0 <= i < |rest| ==> OperationId(docUrl)[i] == (if rest[i] == '/' then '.' else rest[i])
  {
    assert MatchAt(docUrl, DocsPrefix, 0);
    assert ReplaceFirst(docUrl, DocsPrefix, "") == docUrl[|DocsPrefix|..];
  }

  /** `$('h4').first().text().trim() || $('h1').first().text().trim() || 'Unknown Endpoint'` */
  function PageTitle(h4: string, h1: string): (r: string)
    ensures r != ""
    ensures Trim(h4) != "" ==> r == Trim(h4)
    ensures Trim(h4) == "" && Trim(h1) != "" ==> r == Trim(h1)
    ensures Trim(h4) == "" && Trim(h1) == "" ==> r == "Unknown Endpoint"
  {
    if Trim(h4) != "" then Trim(h4)
    else if Trim(h1) != "" then Trim(h1)
    else "Unknown Endpoint"
  }

  // ---------------------------------------------------------------------
  // method and URL recognition

  const MethodNames: seq<string> := ["GET", "POST", "PUT", "DELETE", "PATCH"]

  /** `/^(GET|POST|PUT|DELETE|PATCH)$/i.test(text)` */
  predicate IsMethodText(text: string) {
    ToUpper(text) in MethodNames
  }

  /** `/^https?:\/\//i.test(text) && text.includes('api')` */
  predicate IsApiUrl(text: string) {
    (StartsWith(ToLower(text), "http://") || StartsWith(ToLower(text), "https://")) && Contains(text, "api")
  }

  /** An element whose trimmed text is a method name. */
  predicate StatesMethod(raw: string) {
    IsMethodText(Trim(raw))
  }

  /** An element whose trimmed text is an API URL. */
  predicate StatesApiUrl(raw: string) {
    IsApiUrl(Trim(raw))
  }

  /** The position of the first text that satisfies `p`, or `|texts|` when none does. */
  function FirstIndex(texts: seq<string>, p: string -> bool, from: nat): (i: nat)
    requires from <= |texts|
    ensures from <= i <= |texts|
    ensures i < |texts| ==> p(texts[i])
    ensures forall j :: from <= j < i ==> !p(texts[j])
    decreases |texts| - from
  {
    if from == |texts| || p(texts[from]) then from else FirstIndex(texts, p, from + 1)
  }

  /** The method the page states: the first trimmed element text that is a method name, upper-cased. */
  function PageMethod(texts: seq<string>): Option<string> {
    var i := FirstIndex(texts, StatesMethod, 0);
    if i < |texts| then Some(ToUpper(Trim(texts[i]))) else None
  }

  /** The URL the page states: the first trimmed element text that is an API URL, stored trimmed. */
  function PageUrl(texts: seq<string>): Option<string> {
    var i := FirstIndex(texts, StatesApiUrl, 0);
    if i < |texts| then Some(Trim(texts[i])) else None
  }

  /** A method is found exactly when some element's trimmed text is a method name, and it is stored as a method name. */
  lemma PageMethodFound(texts: seq<string>)
    ensures PageMethod(texts).Some? <==> exists i :: 0 <= i < |texts| && StatesMethod(texts[i])
    ensures PageMethod(texts).Some? ==> PageMethod(texts).value in MethodNames
    ensures forall i :: 0 <= i < |texts| && StatesMethod(texts[i]) && PageMethod(texts) != Some(ToUpper(Trim(texts[i]))) ==>
      exists j :: 0 <= j < i && StatesMethod(texts[j])
  {
  }

  /** A URL is found exactly when some element's trimmed text is an API URL; an earlier one always wins. */
  lemma PageUrlFound(texts: seq<string>)
    ensures PageUrl(texts).Some? <==> exists i :: 0 <= i < |texts| && StatesApiUrl(texts[i])
    ensures PageUrl(texts).Some? ==> IsApiUrl(PageUrl(texts).value)
    ensures forall i :: 0 <= i < |texts| && StatesApiUrl(texts[i]) && PageUrl(texts) != Some(Trim(texts[i])) ==>
      exists j :: 0 <= j < i && StatesApiUrl(texts[j])
  {
    var f := FirstIndex(texts, StatesApiUrl, 0);
    forall i | 0 <= i < |texts| && StatesApiUrl(texts[i]) && PageUrl(texts) != Some(Trim(texts[i]))
      ensures exists j :: 0 <= j < i && StatesApiUrl(texts[j])
    {
      assert f <= i && f != i;
      assert StatesApiUrl(texts[f]);
    }
  }

  /** Surrounding whitespace does not hide a method name: ` get ` is found as `GET`. */
  lemma PaddedMethod()
    ensures PageMethod([" get "]) == Some("GET")
  {
    var raw := " get ";
    assert TrimStart(raw) == "get " by { assert IsJsSpace(raw[0]) && !IsJsSpace(raw[1]); }
    assert TrimEnd("get ") == "get";
    assert ToUpper("get") == "GET";
    assert StatesMethod(raw);
  }

  /**
   * The scan of `$('div, p, span, code')` in document order: the first
   * method name and the first API URL, stopping once both are found.
   */
  method FindMethodAndUrl(texts: seq<string>) returns (method_: Option<string>, url: Option<string>)
    ensures method_ == PageMethod(texts) && url == PageUrl(texts)
  {
    method_, url := None, None;
    ghost var m := FirstIndex(texts, StatesMethod, 0);
    ghost var u := FirstIndex(texts, StatesApiUrl, 0);
    var i := 0;
    while i < |texts|
      invariant 0 <= i <= |texts|
      invariant method_ == (if m < i then Some(ToUpper(Trim(texts[m]))) else None)
      invariant url == (if u < i then Some(Trim(texts[u])) else None)
    {
      if method_.Some? && url.Some? {
        break;
      }
      var text := Trim(texts[i]);
      if method_.None? {
        FirstIndexAt(texts, StatesMethod, i);
        if IsMethodText(text) {
          method_ := Some(ToUpper(text));
        }
      }
      if url.None? {
        FirstIndexAt(texts, StatesApiUrl, i);
        if IsApiUrl(text) {
          url := Some(text);
        }
      }
      i := i + 1;
    }
  }

  /** Once the scan has passed every text before `i` without a match, text `i` is the first match exactly when it matches. */
  lemma FirstIndexAt(texts: seq<string>, p: string -> bool, i: nat)
    requires i < |texts| && FirstIndex(texts, p, 0) >= i
    ensures FirstIndex(texts, p, 0) == i <==> p(texts[i])
  {
  }

  /**
   * `decodeURIComponent(new URL(url).pathname)`, or the URL itself when
   * either call throws; `pathname` stands for the two calls.
   */
  function EndpointPath(url: string, pathname: string -> Option<string>): string {
    match pathname(url)
    case Some(path) => path
    case None => url
  }

  /** `${method} ${path}` */
  function EndpointKey(method_: string, path: string): (r: string)
    ensures StartsWith(r, method_ + " ") && r[|method_| + 1..] == path
  {
    method_ + " " + path
  }

  // ---------------------------------------------------------------------
  // tables

  /** A documentation table: the texts of its `thead th` cells and, row by row, of its `tbody td` cells. */
  datatype HtmlTable = HtmlTable(columns: seq<string>, rows: seq<seq<string>>)

  /** A row object `{ column: text }`: its properties in the order they were first assigned. */
  type Record = seq<(string, string)>

  /** `obj[key] || ''` */
  function Get(r: Record, key: string): string {
    if r == [] then "" else if r[0].0 == key then r[0].1 else Get(r[1..], key)
  }

  /** `obj[key] = value`: an existing property keeps its place, a new one goes last. */
  function Put(r: Record, key: string, value: string): (r': Record)
    ensures |r'| == |r| || |r'| == |r| + 1
  {
    if r == [] then [(key, value)]
    else if r[0].0 == key then [(key, value)] + r[1..]
    else [r[0]] + Put(r[1..], key, value)
  }

  /** After an assignment the property reads the new value and every other property its old one. */
  lemma {:induction false} GetPut(r: Record, key: string, value: string, other: string)
    ensures Get(Put(r, key, value), key) == value
    ensures other != key ==> Get(Put(r, key, value), other) == Get(r, other)
  {
    if r != [] && r[0].0 != key {
      GetPut(r[1..], key, value, other);
    }
  }

  /** The property a cell is stored under: its column's header, or `"undefined"` past the last header. */
  function CellKey(columns: seq<string>, j: nat): string {
    if j < |columns| then columns[j] else "undefined"
  }

  /** The object of a row after its first `n` cells. */
  function RowRecord(columns: seq<string>, cells: seq<string>, n: nat): Record
    requires n <= |cells|
  {
    if n == 0 then [] else Put(RowRecord(columns, cells, n - 1), CellKey(columns, n - 1), cells[n - 1])
  }

  /** The object of a whole row. */
  function RowOf(columns: seq<string>, cells: seq<string>): Record {
    RowRecord(columns, cells, |cells|)
  }

  /** With distinct headers, each cell is read back under its column's header, and a missing cell reads as empty. */
  lemma {:induction false} RowRecordCells(columns: seq<string>, cells: seq<string>, n: nat, j: nat)
    requires n <= |cells| <= |columns| && j < |columns|
    requires forall a, b :: 0 <= a < b < |columns| ==> columns[a] != columns[b]
    ensures Get(RowRecord(columns, cells, n), columns[j]) == if j < n then cells[j] else ""
  {
    if n > 0 {
      RowRecordCells(columns, cells, n - 1, j);
      GetPut(RowRecord(columns, cells, n - 1), CellKey(columns, n - 1), cells[n - 1], columns[j]);
    }
  }

  /** `values.filter(v => v.length > 0).length`, the values trimmed. */
  function Filled(r: Record): (k: nat)
    ensures k <= |r|
  {
    if r == [] then 0 else (if Trim(r[0].1) != "" then 1 else 0) + Filled(r[1..])
  }

  /** `(obj[headers[0]] || '').trim().toLowerCase()`, `first` being the first header. */
  function RowName(first: string, r: Record): string {
    ToLower(Trim(Get(r, first)))
  }

  /** The three rows `tableToObjects` drops, checked in this order. */
  predicate KeepsRow(first: string, r: Record) {
    if RowName(first, r) == "number" && Trim(Get(r, "Type")) == "" && Filled(r) <= 1 then false
    else if Filled(r) == 0 then false
    else if RowName(first, r) == "null" && Filled(r) == 1 then false
    else true
  }

  /** The cleanup as the filter the loop applies. */
  function Keeper(first: string): Record -> bool {
    r => KeepsRow(first, r)
  }

  /** The objects of the rows, in order. */
  function RowObjects(columns: seq<string>, rows: seq<seq<string>>): (r: seq<Record>)
    ensures |r| == |rows| && forall i :: 0 <= i < |rows| ==> r[i] == RowOf(columns, rows[i])
  {
    seq(|rows|, i requires 0 <= i < |rows| => RowOf(columns, rows[i]))
  }

  /** `tableToObjects`: no objects for a table without headers. */
  function TableObjects(t: HtmlTable): seq<Record> {
    if t.columns == [] then [] else Seqs.Filter(RowObjects(t.columns, t.rows), Keeper(t.columns[0]))
  }

  /**
   * The cleanup of `tableToObjects`: a row is dropped when all its values
   * are empty, when its first column reads `null` and only one value is
   * filled, or when its first column reads `number`, its `Type` is empty
   * and at most one value is filled; every other row is kept.
   */
  lemma TableObjectsRows(t: HtmlTable)
    ensures |TableObjects(t)| <= |t.rows|
    ensures t.columns == [] ==> TableObjects(t) == []
    ensures t.columns != [] ==> forall r :: r in TableObjects(t) ==>
      && Filled(r) > 0
      && !(RowName(t.columns[0], r) == "null" && Filled(r) == 1)
      && !(RowName(t.columns[0], r) == "number" && Trim(Get(r, "Type")) == "" && Filled(r) <= 1)
    ensures t.columns != [] ==> forall i :: 0 <= i < |t.rows| && KeepsRow(t.columns[0], RowOf(t.columns, t.rows[i])) ==>
      RowOf(t.columns, t.rows[i]) in TableObjects(t)
  {
    if t.columns != [] {
      var records := RowObjects(t.columns, t.rows);
      var p := Keeper(t.columns[0]);
      forall r | r in TableObjects(t)
        ensures Filled(r) > 0 && !(RowName(t.columns[0], r) == "null" && Filled(r) == 1)
        ensures !(RowName(t.columns[0], r) == "number" && Trim(Get(r, "Type")) == "" && Filled(r) <= 1)
      {
        assert p(r);
      }
      forall i | 0 <= i < |t.rows| && KeepsRow(t.columns[0], RowOf(t.columns, t.rows[i]))
        ensures RowOf(t.columns, t.rows[i]) in TableObjects(t)
      {
        assert records[i] in records && p(records[i]);
      }
    }
  }

  /** `tableToObjects` */
  method TableToObjects(t: HtmlTable) returns (objects: seq<Record>)
    ensures objects == TableObjects(t)
  {
    objects := [];
    if |t.columns| == 0 {
      return;
    }
    ghost var records := RowObjects(t.columns, t.rows);
    var i := 0;
    while i < |t.rows|
      invariant 0 <= i <= |t.rows|
      invariant objects == Seqs.Filter(records[..i], Keeper(t.columns[0]))
    {
      var obj := RowToObject(t.columns, t.rows[i]);
      KeptStep(records, i, t.columns[0]);
      if KeepsRow(t.columns[0], obj) {
        objects := objects + [obj];
      }
      i := i + 1;
    }
    assert records[..i] == records;
  }

  /** One more row through the cleanup: it is appended exactly when it is kept. */
  lemma KeptStep(records: seq<Record>, i: nat, first: string)
    requires i < |records|
    ensures Seqs.Filter(records[..i + 1], Keeper(first))
      == Seqs.Filter(records[..i], Keeper(first)) + (if KeepsRow(first, records[i]) then [records[i]] else [])
  {
    Seqs.PrefixStep(records, i);
    Seqs.FilterConcat(records[..i], [records[i]], Keeper(first));
    assert Seqs.Filter([records[i]], Keeper(first)) == if KeepsRow(first, records[i]) then [records[i]] else [];
  }

  /** The object of one `tbody tr`: `obj[headers[j]] = text` cell by cell. */
  method RowToObject(columns: seq<string>, cells: seq<string>) returns (obj: Record)
    ensures obj == RowOf(columns, cells)
  {
    obj := [];
    var j := 0;
    while j < |cells|
      invariant 0 <= j <= |cells|
      invariant obj == RowRecord(columns, cells, j)
    {
      obj := Put(obj, CellKey(columns, j), cells[j]);
      j := j + 1;
    }
  }

  // ---------------------------------------------------------------------
  // sections

  /** A heading element: its identity in the document and its text. */
  datatype Header = Header(node: nat, text: string)

  /**
   * A table of the page with the heading `findNearestHeader` finds above
   * it (none when there is none) and the extras `collectSectionExtras`
   * gathers between that heading and this table.
   */
  datatype PlacedTable = PlacedTable(header: Option<Header>, extras: seq<string>, table: HtmlTable)

  /** An entry of `sectionMap`: the heading's title, the extras found at its first table, its tables in order. */
  datatype Section = Section(node: nat, title: string, extras: seq<string>, tables: seq<HtmlTable>)

  /**
   * `interestingSections.find(s => sectionTitle.toLowerCase().includes(s.toLowerCase()))`
   * finds a name: `Headers`, `Attributes`, `Responses`, `Response Attributes`,
   * `Path parameters` or `Query parameters`, here already lower-cased.
   */
  predicate IsInteresting(title: string) {
    var lower := ToLower(title);
    || Contains(lower, "headers") || Contains(lower, "attributes") || Contains(lower, "responses")
    || Contains(lower, "response attributes") || Contains(lower, "path parameters") || Contains(lower, "query parameters")
  }

  /** `sectionMap.get(header)`: the position of the heading's entry, or `|sections|` when it has none. */
  function SectionAt(sections: seq<Section>, node: nat): (k: nat)
    ensures k <= |sections|
    ensures k < |sections| ==> sections[k].node == node
    ensures forall j :: 0 <= j < k ==> sections[j].node != node
  {
    if sections == [] then 0
    else if sections[0].node == node then 0
    else 1 + SectionAt(sections[1..], node)
  }

  /**
   * One table of the `$('table').each` loop: skipped unless `under` holds
   * of it, otherwise added to its heading's entry or starting a new entry.
   * The grouping is stated for any such test; the page uses `UnderSection`.
   */
  function AddTable(sections: seq<Section>, p: PlacedTable, under: PlacedTable -> bool): seq<Section> {
    if !under(p) || p.header.None? then sections
    else
      var h := p.header.value;
      var k := SectionAt(sections, h.node);
      if k == |sections| then sections + [Section(h.node, Trim(h.text), p.extras, [p.table])]
      else sections[k := sections[k].(tables := sections[k].tables + [p.table])]
  }

  /** `sectionMap` after the tables, in the order their headings were first met. */
  function Grouped(placed: seq<PlacedTable>, under: PlacedTable -> bool): seq<Section> {
    if placed == [] then [] else AddTable(Grouped(placed[..|placed| - 1], under), placed[|placed| - 1], under)
  }

  /** A table with a heading whose title names an interesting section. */
  predicate UnderSection(p: PlacedTable) {
    p.header.Some? && IsInteresting(Trim(p.header.value.text))
  }

  /** A table the grouping takes: one with a heading that passes `under`. */
  predicate Taken(p: PlacedTable, under: PlacedTable -> bool) {
    under(p) && p.header.Some?
  }

  /** The entries of `sectionMap` are distinct headings, each with at least one table. */
  ghost predicate WellGrouped(sections: seq<Section>) {
    && (forall a, b :: 0 <= a < b < |sections| ==> sections[a].node != sections[b].node)
    && (forall k :: 0 <= k < |sections| ==> sections[k].tables != [])
  }

  /** Entries with the same headings, position by position, find a heading at the same position. */
  lemma SectionAtSameNodes(a: seq<Section>, b: seq<Section>, node: nat)
    requires |a| == |b| && forall k :: 0 <= k < |a| ==> a[k].node == b[k].node
    ensures SectionAt(a, node) == SectionAt(b, node)
  {
    assert forall k :: 0 <= k < |a| ==> (a[k].node == node <==> b[k].node == node);
  }

  /** Entries that only grew find an existing heading at the same position. */
  lemma SectionAtPrefix(a: seq<Section>, b: seq<Section>, node: nat)
    requires |a| <= |b| && forall k :: 0 <= k < |a| ==> a[k].node == b[k].node
    requires SectionAt(a, node) < |a|
    ensures SectionAt(b, node) == SectionAt(a, node)
  {
    assert forall k :: 0 <= k < |a| ==> (a[k].node == node <==> b[k].node == node);
    assert b[SectionAt(a, node)].node == node;
  }

  /** One table only extends the entries: existing ones keep their heading and grow at the end. */
  lemma AddTableGrows(sections: seq<Section>, p: PlacedTable, under: PlacedTable -> bool)
    ensures !Taken(p, under) ==> AddTable(sections, p, under) == sections
    ensures |sections| <= |AddTable(sections, p, under)| <= |sections| + 1
    ensures Taken(p, under) ==> AddTable(sections, p, under) != []
    ensures forall k :: 0 <= k < |sections| ==>
      && AddTable(sections, p, under)[k].node == sections[k].node
      && sections[k].tables <= AddTable(sections, p, under)[k].tables
    ensures |AddTable(sections, p, under)| == |sections| + 1 ==>
      && Taken(p, under)
      && AddTable(sections, p, under) == sections + [Section(p.header.value.node, Trim(p.header.value.text), p.extras, [p.table])]
  {
    if Taken(p, under) {
      var h := p.header.value;
      var k := SectionAt(sections, h.node);
      if k == |sections| {
        assert AddTable(sections, p, under) == sections + [Section(h.node, Trim(h.text), p.extras, [p.table])];
      } else {
        assert AddTable(sections, p, under) == sections[k := sections[k].(tables := sections[k].tables + [p.table])];
      }
    }
  }

  /** One table keeps the entries well formed. */
  lemma AddTableWell(sections: seq<Section>, p: PlacedTable, under: PlacedTable -> bool)
    requires WellGrouped(sections)
    ensures WellGrouped(AddTable(sections, p, under))
  {
    AddTableGrows(sections, p, under);
  }

  /** `p`'s table is among the tables of its heading's entry. */
  predicate Filed(sections: seq<Section>, p: PlacedTable)
    requires p.header.Some?
  {
    var k := SectionAt(sections, p.header.value.node);
    k < |sections| && p.table in sections[k].tables
  }

  /** A new entry for a heading that had none files the table. */
  lemma FiledByAppend(sections: seq<Section>, p: PlacedTable, title: string)
    requires p.header.Some? && SectionAt(sections, p.header.value.node) == |sections|
    ensures Filed(sections + [Section(p.header.value.node, title, p.extras, [p.table])], p)
  {
    var node := p.header.value.node;
    var r := sections + [Section(node, title, p.extras, [p.table])];
    assert forall j :: 0 <= j < |sections| ==> r[j].node != node;
    assert r[|sections|].node == node;
    assert SectionAt(r, node) == |sections|;
    assert p.table in r[|sections|].tables;
  }

  /** Appending to the heading's existing entry files the table. */
  lemma FiledByExtend(sections: seq<Section>, p: PlacedTable)
    requires p.header.Some? && SectionAt(sections, p.header.value.node) < |sections|
    ensures var k := SectionAt(sections, p.header.value.node);
      Filed(sections[k := sections[k].(tables := sections[k].tables + [p.table])], p)
  {
    var k := SectionAt(sections, p.header.value.node);
    var r := sections[k := sections[k].(tables := sections[k].tables + [p.table])];
    SectionAtSameNodes(sections, r, p.header.value.node);
    assert p.table in r[k].tables;
  }

  /** A table the grouping takes lands in its heading's entry. */
  lemma AddTableLands(sections: seq<Section>, p: PlacedTable, under: PlacedTable -> bool)
    requires Taken(p, under)
    ensures Filed(AddTable(sections, p, under), p)
  {
    if SectionAt(sections, p.header.value.node) < |sections| {
      FiledByExtend(sections, p);
    } else {
      FiledByAppend(sections, p, Trim(p.header.value.text));
    }
  }

  /** A table already in its heading's entry stays there when entries only grow. */
  lemma StaysFiled(a: seq<Section>, b: seq<Section>, p: PlacedTable)
    requires p.header.Some?
    requires |a| <= |b|
    requires forall k :: 0 <= k < |a| ==> a[k].node == b[k].node && a[k].tables <= b[k].tables
    requires Filed(a, p)
    ensures Filed(b, p)
  {
    var node := p.header.value.node;
    SectionAtPrefix(a, b, node);
    var k := SectionAt(a, node);
    assert a[k].tables <= b[k].tables;
  }

  /** The entries of a grouping are well formed. */
  lemma {:induction false} GroupedWell(placed: seq<PlacedTable>, under: PlacedTable -> bool)
    ensures WellGrouped(Grouped(placed, under))
  {
    if placed != [] {
      var init := placed[..|placed| - 1];
      GroupedWell(init, under);
      AddTableWell(Grouped(init, under), placed[|placed| - 1], under);
    }
  }

  /** One more table keeps every taken table filed. */
  lemma FiledStep(before: seq<Section>, init: seq<PlacedTable>, last: PlacedTable, under: PlacedTable -> bool)
    requires forall i :: 0 <= i < |init| && Taken(init[i], under) ==> Filed(before, init[i])
    ensures forall i :: 0 <= i < |init| + 1 && Taken((init + [last])[i], under) ==>
      Filed(AddTable(before, last, under), (init + [last])[i])
  {
    var after := AddTable(before, last, under);
    AddTableGrows(before, last, under);
    forall i | 0 <= i < |init| + 1 && Taken((init + [last])[i], under)
      ensures Filed(after, (init + [last])[i])
    {
      if i < |init| {
        assert (init + [last])[i] == init[i];
        StaysFiled(before, after, init[i]);
      } else {
        AddTableLands(before, last, under);
      }
    }
  }

  /** Every table the grouping takes is in its heading's entry. */
  lemma {:induction false} GroupedTables(placed: seq<PlacedTable>, under: PlacedTable -> bool)
    ensures forall i :: 0 <= i < |placed| && Taken(placed[i], under) ==> Filed(Grouped(placed, under), placed[i])
  {
    if placed != [] {
      var init := placed[..|placed| - 1];
      var last := placed[|placed| - 1];
      GroupedTables(init, under);
      FiledStep(Grouped(init, under), init, last, under);
      assert init + [last] == placed;
    }
  }

  /** No entry at all exactly when the grouping takes no table. */
  lemma {:induction false} GroupedEmpty(placed: seq<PlacedTable>, under: PlacedTable -> bool)
    ensures Grouped(placed, under) == [] <==> forall i :: 0 <= i < |placed| ==> !Taken(placed[i], under)
  {
    if placed != [] {
      var init := placed[..|placed| - 1];
      var last := placed[|placed| - 1];
      var before := Grouped(init, under);
      assert Grouped(placed, under) == AddTable(before, last, under);
      GroupedEmpty(init, under);
      AddTableGrows(before, last, under);
      if !Taken(last, under) {
        assert forall i :: 0 <= i < |init| ==> init[i] == placed[i];
      }
    }
  }

  /** Every entry of the page's grouping has a heading whose title names an interesting section. */
  lemma {:induction false} GroupedInteresting(placed: seq<PlacedTable>)
    ensures forall k :: 0 <= k < |Grouped(placed, UnderSection)| ==> IsInteresting(Grouped(placed, UnderSection)[k].title)
  {
    if placed != [] {
      var init := placed[..|placed| - 1];
      var last := placed[|placed| - 1];
      var before := Grouped(init, UnderSection);
      assert Grouped(placed, UnderSection) == AddTable(before, last, UnderSection);
      GroupedInteresting(init);
      AddTableGrows(before, last, UnderSection);
    }
  }

  /** The `$('table').each` loop that fills `sectionMap`. */
  method GroupSections(placed: seq<PlacedTable>) returns (sections: seq<Section>)
    ensures sections == Grouped(placed, UnderSection)
  {
    sections := [];
    var i := 0;
    while i < |placed|
      invariant 0 <= i <= |placed|
      invariant sections == Grouped(placed[..i], UnderSection)
    {
      var p := placed[i];
      Seqs.PrefixStep(placed, i);
      assert placed[..i + 1][..i] == placed[..i];
      if p.header.Some? && IsInteresting(Trim(p.header.value.text)) {
        var h := p.header.value;
        var k := SectionAt(sections, h.node);
        if k == |sections| {
          sections := sections + [Section(h.node, Trim(h.text), p.extras, [p.table])];
        } else {
          sections := sections[k := sections[k].(tables := sections[k].tables + [p.table])];
        }
      }
      i := i + 1;
    }
    assert placed[..i] == placed;
  }

  // ---------------------------------------------------------------------
  // routing the sections' tables

  /** The list of the endpoint that a section's table objects go to. */
  datatype Destination = ToHeaders | ToResponseAttributes | ToResponseTable | ToRequestAttributes | Nowhere

  /** The `if … else if` chain on the lower-cased section title, in the source's order. */
  function RouteOf(lower: string): Destination {
    if Contains(lower, "headers") then ToHeaders
    else if Contains(lower, "response attributes") then ToResponseAttributes
    else if Contains(lower, "responses") && !Contains(lower, "attributes") then ToResponseTable
    else if Contains(lower, "attributes") then ToRequestAttributes
    else Nowhere
  }

  /** The section's extras go to the request. */
  predicate RequestExtras(lower: string) {
    Contains(lower, "attributes") && !Contains(lower, "response")
  }

  /** The section's extras go to the response. */
  predicate ResponseExtras(lower: string) {
    Contains(lower, "response") && Contains(lower, "attributes")
  }

  /** Of the interesting sections, only path and query parameter sections have their tables dropped. */
  lemma RouteDropsOnlyParameters(title: string)
    requires IsInteresting(title)
    ensures RouteOf(ToLower(title)) == Nowhere ==>
      Contains(ToLower(title), "path parameters") || Contains(ToLower(title), "query parameters")
  {
  }

  /** A title containing "response attributes" also contains "response" and "attributes". */
  lemma ResponseAttributesParts(lower: string)
    requires Contains(lower, "response attributes")
    ensures Contains(lower, "response") && Contains(lower, "attributes")
  {
    assert "response attributes" == "response" + " attributes";
    ContainsParts(lower, "response", " attributes");
    assert "response attributes" == "response " + "attributes";
    ContainsParts(lower, "response ", "attributes");
  }

  /** A section whose tables go to the response attributes has its extras go to the response too. */
  lemma ResponseAttributesKeepExtras(lower: string)
    ensures RouteOf(lower) == ToResponseAttributes ==> ResponseExtras(lower)
  {
    if Contains(lower, "response attributes") {
      ResponseAttributesParts(lower);
    }
  }

  /** A section whose extras go to the request has its tables go to the request attributes, unless it names headers. */
  lemma RequestExtrasKeepTables(lower: string)
    ensures RequestExtras(lower) && !Contains(lower, "headers") ==> RouteOf(lower) == ToRequestAttributes
  {
    if Contains(lower, "response attributes") {
      ResponseAttributesParts(lower);
    }
    if Contains(lower, "responses") {
      assert "responses" == "response" + "s";
      ContainsParts(lower, "response", "s");
    }
  }

  /**
   * The two tests disagree on a title such as "Responses Attributes":
   * its tables go to the request attributes while its extras go to the
   * response.
   */
  lemma ResponsesAttributesSplit(lower: string)
    requires Contains(lower, "responses") && Contains(lower, "attributes")
    requires !Contains(lower, "headers") && !Contains(lower, "response attributes")
    ensures RouteOf(lower) == ToRequestAttributes
    ensures ResponseExtras(lower) && !RequestExtras(lower)
  {
    assert "responses" == "response" + "s";
    ContainsParts(lower, "response", "s");
  }

  /** The lists `processHtml` fills from the sections: table objects by destination, and extras. */
  datatype Routed = Routed(
    headers: seq<Record>, requestAttributes: seq<Record>, responseTable: seq<Record>,
    responseAttributes: seq<Record>, requestExtras: seq<string>, responseExtras: seq<string>)

  /** The lists of a fresh `endpoint`: all empty. */
  const NoneRouted := Routed([], [], [], [], [], [])

  /** The list a destination names; `Nowhere` names none. */
  function ListOf(r: Routed, d: Destination): seq<Record> {
    match d
    case ToHeaders => r.headers
    case ToResponseAttributes => r.responseAttributes
    case ToResponseTable => r.responseTable
    case ToRequestAttributes => r.requestAttributes
    case Nowhere => []
  }

  /** `list.push(...objects)` on the list `d` names; for `Nowhere` nothing is kept. */
  function Push(r: Routed, d: Destination, objects: seq<Record>): (r': Routed)
    ensures forall e :: e != Nowhere ==> ListOf(r', e) == ListOf(r, e) + (if e == d then objects else [])
    ensures r'.requestExtras == r.requestExtras && r'.responseExtras == r.responseExtras
  {
    match d
    case ToHeaders => r.(headers := r.headers + objects)
    case ToResponseAttributes => r.(responseAttributes := r.responseAttributes + objects)
    case ToResponseTable => r.(responseTable := r.responseTable + objects)
    case ToRequestAttributes => r.(requestAttributes := r.requestAttributes + objects)
    case Nowhere => r
  }

  /** Two pushes onto the same list push the objects one after the other. */
  lemma PushPush(r: Routed, d: Destination, a: seq<Record>, b: seq<Record>)
    ensures Push(Push(r, d, a), d, b) == Push(r, d, a + b)
  {
    assert r.headers + a + b == r.headers + (a + b);
    assert r.responseAttributes + a + b == r.responseAttributes + (a + b);
    assert r.responseTable + a + b == r.responseTable + (a + b);
    assert r.requestAttributes + a + b == r.requestAttributes + (a + b);
  }

  /**
   * The objects of a section's tables, table after table, `objects`
   * giving those of one table; the page uses `TableObjects`.
   */
  function TablesObjects(tables: seq<HtmlTable>, objects: HtmlTable -> seq<Record>): seq<Record> {
    if tables == [] then [] else TablesObjects(tables[..|tables| - 1], objects) + objects(tables[|tables| - 1])
  }

  /** One more table appends its objects. */
  lemma TablesObjectsStep(tables: seq<HtmlTable>, objects: HtmlTable -> seq<Record>, j: nat)
    requires j < |tables|
    ensures TablesObjects(tables[..j + 1], objects) == TablesObjects(tables[..j], objects) + objects(tables[j])
  {
    assert tables[..j + 1][..j] == tables[..j];
  }

  /** An object comes from a section's tables exactly when one of its tables yields it. */
  lemma {:induction false} TablesObjectsHas(tables: seq<HtmlTable>, objects: HtmlTable -> seq<Record>, x: Record)
    ensures x in TablesObjects(tables, objects) <==> exists t :: t in tables && x in objects(t)
  {
    if tables != [] {
      var init := tables[..|tables| - 1];
      TablesObjectsHas(init, objects, x);
      assert tables == init + [tables[|tables| - 1]];
    }
  }

  /** What the title tests decide for a section: its tables' list, and where its extras go. */
  datatype Plan = Plan(dest: Destination, toRequest: bool, toResponse: bool)

  /** The tests of `processHtml` on the lower-cased title. */
  function PlanOf(title: string): Plan {
    var lower := ToLower(title);
    Plan(RouteOf(lower), RequestExtras(lower), ResponseExtras(lower))
  }

  /**
   * One pass of `for (const section of sectionMap.values())`. The routing
   * is stated for any plan of the titles; the page uses `PlanOf`.
   */
  function RouteSection(r: Routed, s: Section, p: Plan, objects: HtmlTable -> seq<Record>): Routed {
    var pushed := Push(r, p.dest, TablesObjects(s.tables, objects));
    var withRequest := if p.toRequest then pushed.(requestExtras := pushed.requestExtras + s.extras) else pushed;
    if p.toResponse then withRequest.(responseExtras := withRequest.responseExtras + s.extras) else withRequest
  }

  /** The lists after the sections, in order. */
  function Routes(sections: seq<Section>, plan: string -> Plan, objects: HtmlTable -> seq<Record>): Routed {
    if sections == [] then NoneRouted
    else
      var last := sections[|sections| - 1];
      RouteSection(Routes(sections[..|sections| - 1], plan, objects), last, plan(last.title), objects)
  }

  /** What one section adds to each list. */
  lemma RouteSectionAdds(r: Routed, s: Section, p: Plan, objects: HtmlTable -> seq<Record>, d: Destination)
    requires d != Nowhere
    ensures ListOf(RouteSection(r, s, p, objects), d) == ListOf(r, d) + (if p.dest == d then TablesObjects(s.tables, objects) else [])
    ensures RouteSection(r, s, p, objects).requestExtras == r.requestExtras + (if p.toRequest then s.extras else [])
    ensures RouteSection(r, s, p, objects).responseExtras == r.responseExtras + (if p.toResponse then s.extras else [])
  {
    var pushed := Push(r, p.dest, TablesObjects(s.tables, objects));
    var withRequest := if p.toRequest then pushed.(requestExtras := pushed.requestExtras + s.extras) else pushed;
    assert ListOf(withRequest, d) == ListOf(pushed, d);
  }

  /** The section `s`, planned as `p`, sends `x` to the list `d`. */
  ghost predicate Yields(s: Section, p: Plan, objects: HtmlTable -> seq<Record>, d: Destination, x: Record) {
    p.dest == d && exists t :: t in s.tables && x in objects(t)
  }

  /** Some section, planned by its title, sends `x` to the list `d`. */
  ghost predicate SentBy(sections: seq<Section>, plan: string -> Plan, objects: HtmlTable -> seq<Record>, d: Destination, x: Record) {
    exists k :: 0 <= k < |sections| && Yields(sections[k], plan(sections[k].title), objects, d, x)
  }

  /**
   * An object is in a list exactly when it comes from a table of a
   * section whose plan routes to that list.
   */
  lemma {:induction false} RoutesObjects(sections: seq<Section>, plan: string -> Plan, objects: HtmlTable -> seq<Record>, d: Destination, x: Record)
    requires d != Nowhere
    ensures x in ListOf(Routes(sections, plan, objects), d) <==> SentBy(sections, plan, objects, d, x)
  {
    if sections != [] {
      var n := |sections| - 1;
      var init := sections[..n];
      var last := sections[n];
      RoutesObjects(init, plan, objects, d, x);
      RouteSectionAdds(Routes(init, plan, objects), last, plan(last.title), objects, d);
      TablesObjectsHas(last.tables, objects, x);
      assert x in ListOf(Routes(sections, plan, objects), d) <==>
        x in ListOf(Routes(init, plan, objects), d) || Yields(last, plan(last.title), objects, d, x);
      SentByStep(sections, plan, objects, d, x);
    }
  }

  /** A section is sent by the sections before the last one or by the last one. */
  lemma SentByStep(sections: seq<Section>, plan: string -> Plan, objects: HtmlTable -> seq<Record>, d: Destination, x: Record)
    requires sections != []
    ensures var n := |sections| - 1;
      SentBy(sections, plan, objects, d, x) <==>
        SentBy(sections[..n], plan, objects, d, x) || Yields(sections[n], plan(sections[n].title), objects, d, x)
  {
    var n := |sections| - 1;
    var init := sections[..n];
    if SentBy(sections, plan, objects, d, x) {
      var k :| 0 <= k < |sections| && Yields(sections[k], plan(sections[k].title), objects, d, x);
      if k < n {
        assert sections[k] == init[k];
      }
    }
    if SentBy(init, plan, objects, d, x) {
      var k :| 0 <= k < n && Yields(init[k], plan(init[k].title), objects, d, x);
      assert sections[k] == init[k];
    }
  }

  /** The plan sends a section's extras to the request (`toRequest`) or to the response. */
  predicate Sends(p: Plan, toRequest: bool) {
    if toRequest then p.toRequest else p.toResponse
  }

  /** The extras of the sections whose plans send them to the request (`toRequest`) or to the response, in order. */
  function SentExtras(sections: seq<Section>, plan: string -> Plan, toRequest: bool): seq<string> {
    if sections == [] then []
    else
      var last := sections[|sections| - 1];
      SentExtras(sections[..|sections| - 1], plan, toRequest) + (if Sends(plan(last.title), toRequest) then last.extras else [])
  }

  /** The routed extras are the sent ones. */
  lemma {:induction false} RoutesExtras(sections: seq<Section>, plan: string -> Plan, objects: HtmlTable -> seq<Record>)
    ensures Routes(sections, plan, objects).requestExtras == SentExtras(sections, plan, true)
    ensures Routes(sections, plan, objects).responseExtras == SentExtras(sections, plan, false)
  {
    if sections != [] {
      var n := |sections| - 1;
      RoutesExtras(sections[..n], plan, objects);
      RouteSectionAdds(Routes(sections[..n], plan, objects), sections[n], plan(sections[n].title), objects, ToHeaders);
    }
  }

  /** An extra is sent exactly when some section planned to send its extras there has it. */
  lemma {:induction false} SentExtrasHas(sections: seq<Section>, plan: string -> Plan, toRequest: bool, x: string)
    ensures x in SentExtras(sections, plan, toRequest) <==>
      exists k :: 0 <= k < |sections| && Sends(plan(sections[k].title), toRequest) && x in sections[k].extras
  {
    if sections != [] {
      var n := |sections| - 1;
      var init := sections[..n];
      SentExtrasHas(init, plan, toRequest, x);
      var before := SentExtras(init, plan, toRequest);
      var added := if Sends(plan(sections[n].title), toRequest) then sections[n].extras else [];
      assert SentExtras(sections, plan, toRequest) == before + added;
      if x in before {
        var k :| 0 <= k < n && Sends(plan(init[k].title), toRequest) && x in init[k].extras;
        assert sections[k] == init[k];
      }
      if exists k :: 0 <= k < |sections| && Sends(plan(sections[k].title), toRequest) && x in sections[k].extras {
        var k :| 0 <= k < |sections| && Sends(plan(sections[k].title), toRequest) && x in sections[k].extras;
        if k < n {
          assert init[k] == sections[k];
        }
      }
    }
  }

  /** An extra goes to the request exactly when a section planned to send its extras there has it. */
  lemma RoutesRequestExtras(sections: seq<Section>, plan: string -> Plan, objects: HtmlTable -> seq<Record>, x: string)
    ensures x in Routes(sections, plan, objects).requestExtras <==>
      exists k :: 0 <= k < |sections| && plan(sections[k].title).toRequest && x in sections[k].extras
  {
    RoutesExtras(sections, plan, objects);
    SentExtrasHas(sections, plan, true, x);
  }

  /** An extra goes to the response exactly when a section planned to send its extras there has it. */
  lemma RoutesResponseExtras(sections: seq<Section>, plan: string -> Plan, objects: HtmlTable -> seq<Record>, x: string)
    ensures x in Routes(sections, plan, objects).responseExtras <==>
      exists k :: 0 <= k < |sections| && plan(sections[k].title).toResponse && x in sections[k].extras
  {
    RoutesExtras(sections, plan, objects);
    SentExtrasHas(sections, plan, false, x);
  }

  /** The `for … of sectionMap.values()` loop with its inner loop over the section's tables. */
  method RouteSections(sections: seq<Section>) returns (r: Routed)
    ensures r == Routes(sections, PlanOf, TableObjects)
  {
    r := NoneRouted;
    var i := 0;
    while i < |sections|
      invariant 0 <= i <= |sections|
      invariant r == Routes(sections[..i], PlanOf, TableObjects)
    {
      var section := sections[i];
      var plan := PlanOf(section.title);
      r := PushTables(r, plan.dest, section.tables);
      if plan.toRequest {
        r := r.(requestExtras := r.requestExtras + section.extras);
      }
      if plan.toResponse {
        r := r.(responseExtras := r.responseExtras + section.extras);
      }
      assert sections[..i + 1][..i] == sections[..i];
      i := i + 1;
    }
    assert sections[..i] == sections;
  }

  /** The inner loop: each table's objects pushed onto the section's list. */
  method PushTables(r0: Routed, dest: Destination, tables: seq<HtmlTable>) returns (r: Routed)
    ensures r == Push(r0, dest, TablesObjects(tables, TableObjects))
  {
    r := r0;
    var j := 0;
    while j < |tables|
      invariant 0 <= j <= |tables|
      invariant r == Push(r0, dest, TablesObjects(tables[..j], TableObjects))
    {
      var objects := TableToObjects(tables[j]);
      ghost var done := TablesObjects(tables[..j], TableObjects);
      TablesObjectsStep(tables, TableObjects, j);
      PushPush(r0, dest, done, objects);
      r := Push(r, dest, objects);
      j := j + 1;
    }
    assert tables[..j] == tables;
  }

  // ---------------------------------------------------------------------
  // one attribute line of the schema

  /** `(attr.Name || '').replace('(required)', '').trim()` */
  function AttrName(a: Record): string {
    Trim(ReplaceFirst(Get(a, "Name"), "(required)", ""))
  }

  /** `rawName.toLowerCase().includes('required')` */
  predicate AttrRequired(a: Record) {
    Contains(ToLower(Get(a, "Name")), "required")
  }

  /** `(attr.Type || 'any').trim() || 'any'` */
  function AttrBaseType(a: Record): string {
    var t := Trim(if Get(a, "Type") == "" then "any" else Get(a, "Type"));
    if t == "" then "any" else t
  }

  /** The end of the run of whitespace (`\s*`) that starts at `i`. */
  function SpaceEnd(s: string, i: nat): (j: nat)
    requires i <= |s|
    ensures i <= j <= |s| && (j == |s| || !IsJsSpace(s[j]))
    ensures forall k :: i <= k < j ==> IsJsSpace(s[k])
    decreases |s| - i
  {
    if i == |s| || !IsJsSpace(s[i]) then i else SpaceEnd(s, i + 1)
  }

  /** `schema` in any ASCII case at `j`, then a word boundary. */
  predicate SchemaWordAt(s: string, j: nat) {
    j + 6 <= |s| && ToLower(s[j..j + 6]) == "schema" && (j + 6 == |s| || !IsWordChar(s[j + 6]))
  }

  /**
   * The leftmost position at or after `i` where `/\s*schema\b/i` matches, or
   * -1: the whitespace run is taken whole, since a shorter one leaves a
   * space where `s` must be.
   */
  function SchemaMatch(s: string, i: nat): (r: int)
    requires i <= |s|
    ensures r == -1 || (i <= r <= |s| && SchemaWordAt(s, SpaceEnd(s, r)))
    ensures forall k :: i <= k < (if r == -1 then |s| + 1 else r) ==> !SchemaWordAt(s, SpaceEnd(s, k))
    decreases |s| - i
  {
    if SchemaWordAt(s, SpaceEnd(s, i)) then i
    else if i == |s| then -1
    else SchemaMatch(s, i + 1)
  }

  /** `type.replace(/\s*schema\b/i, '')`: the first match removed. */
  function StripSchema(s: string): (r: string)
    ensures |r| <= |s|
  {
    var i := SchemaMatch(s, 0);
    if i == -1 then s else s[..i] + s[SpaceEnd(s, i) + 6..]
  }

  /** The type as `formatAttrLine` writes it: stripping `Schema` can leave it empty. */
  function AttrTypeAsWritten(a: Record): string {
    Trim(StripSchema(AttrBaseType(a)))
  }

  /** A `Type` that is only the word `Schema` comes out as an empty type. */
  lemma AttrTypeAsWrittenEmpty()
    ensures AttrTypeAsWritten([("Type", "Schema")]) == ""
  {
    var s := "Schema";
    assert Get([("Type", "Schema")], "Type") == s;
    assert !IsJsSpace(s[0]) && !IsJsSpace(s[5]) && ToLower(s) == "schema";
    SchemaWordOnly(s);
  }

  /** A type that is only a word `schema` in some case is stripped to nothing. */
  lemma SchemaWordOnly(s: string)
    requires |s| == 6 && !IsJsSpace(s[0]) && !IsJsSpace(s[5]) && ToLower(s) == "schema"
    ensures Trim(s) == s && StripSchema(s) == ""
  {
    assert TrimStart(s) == s;
    assert TrimEnd(s) == s;
    assert SpaceEnd(s, 0) == 0;
    assert s[0..6] == s;
    assert SchemaWordAt(s, 0);
  }

  /** The type with the `any` fallback applied after `Schema` is stripped, so that it is never empty. */
  function AttrType(a: Record): (t: string)
    ensures t != ""
    ensures AttrTypeAsWritten(a) != "" ==> t == AttrTypeAsWritten(a)
  {
    var t := AttrTypeAsWritten(a);
    if t == "" then "any" else t
  }

  /** What `formatAttrLine` reads off an attribute row. */
  datatype Attr = Attr(name: string, type_: string, required: bool, desc: string, constr: string)

  /** The name, the type as written, the required flag, the trimmed description and constraints of a row. */
  function AttrOf(a: Record): Attr {
    Attr(AttrName(a), AttrTypeAsWritten(a), AttrRequired(a), Trim(Get(a, "Description")), Trim(Get(a, "Constraints")))
  }

  /**
   * The attribute with the `any` fallback applied last: its type is never
   * empty, and it is the attribute as written whenever that type is not empty.
   */
  function CorrectedAttrOf(a: Record): (x: Attr)
    ensures x.type_ != ""
    ensures AttrTypeAsWritten(a) != "" ==> x == AttrOf(a)
    ensures x.name == AttrOf(a).name && x.required == AttrOf(a).required
  {
    Attr(AttrName(a), AttrType(a), AttrRequired(a), Trim(Get(a, "Description")), Trim(Get(a, "Constraints")))
  }

  /** The parts of the line: name, type with the required flag, then the description and constraints when present. */
  function LineParts(x: Attr): seq<string> {
    ["- `" + x.name + "`", "(" + x.type_ + (if x.required then ", required" else "") + ")"]
      + (if x.desc != "" then [": " + x.desc] else [])
      + (if x.constr != "" then [" [" + x.constr + "]"] else [])
  }

  /** `formatAttrLine`: the parts joined with spaces. */
  function AttrLine(a: Record): string {
    Join(" ", LineParts(AttrOf(a)))
  }

  /** A join of two or more parts starts with the first two and the separator between them. */
  lemma JoinFirstTwo(sep: string, parts: seq<string>)
    requires |parts| >= 2
    ensures StartsWith(Join(sep, parts), parts[0] + sep + parts[1])
  {
    JoinFirst(sep, parts[1..]);
    assert Join(sep, parts) == parts[0] + sep + Join(sep, parts[1..]);
  }

  /** The closing of the type part: `, required)` or `)`. */
  function Flag(required: bool): string {
    if required then ", required)" else ")"
  }

  /** A line that starts with a head and a flag shows the flag right after the head. */
  lemma FlagAfterHead(line: string, head: string, required: bool)
    requires StartsWith(line, head + Flag(required))
    ensures StartsWith(line, head)
    ensures StartsWith(line[|head|..], ", required)") <==> required
    ensures !required ==> StartsWith(line[|head|..], ")")
  {
    var flag := Flag(required);
    assert line[..|head|] == (head + flag)[..|head|];
    assert line[|head|..][..|flag|] == flag;
    if !required {
      assert line[|head|..][0] == ')';
      assert |line[|head|..]| < |", required)"| || line[|head|..][0] != ", required)"[0];
    }
  }

  /** The line starts with its name part, a space and its type part. */
  lemma LineStart(x: Attr)
    ensures StartsWith(Join(" ", LineParts(x)), "- `" + x.name + "` (" + x.type_ + Flag(x.required))
  {
    var parts := LineParts(x);
    JoinFirstTwo(" ", parts);
    assert parts[0] + " " + parts[1] == "- `" + x.name + "` (" + x.type_ + Flag(x.required);
  }

  /**
   * The line starts with the bullet, the name in backticks and the type;
   * `, required` follows the type exactly when the flag is set, and `)`
   * otherwise.
   */
  lemma LineShape(x: Attr)
    ensures var line := Join(" ", LineParts(x));
      var head := "- `" + x.name + "` (" + x.type_;
      && StartsWith(line, head)
      && (StartsWith(line[|head|..], ", required)") <==> x.required)
      && (!x.required ==> StartsWith(line[|head|..], ")"))
  {
    LineStart(x);
    FlagAfterHead(Join(" ", LineParts(x)), "- `" + x.name + "` (" + x.type_, x.required);
  }

  /** With neither description nor constraints, nothing follows the type part. */
  lemma LineBare(x: Attr)
    requires x.desc == "" && x.constr == ""
    ensures Join(" ", LineParts(x)) == "- `" + x.name + "` (" + x.type_ + Flag(x.required)
  {
    var parts := LineParts(x);
    assert |parts| == 2;
    assert Join(" ", parts) == parts[0] + " " + Join(" ", parts[1..]);
  }

  /**
   * A row whose type strips to nothing, with no description or
   * constraints, is written with empty parentheses: `` - `name` () `` or
   * `` - `name` (, required) ``.
   */
  lemma EmptyTypeLine(a: Record)
    requires AttrTypeAsWritten(a) == "" && Trim(Get(a, "Description")) == "" && Trim(Get(a, "Constraints")) == ""
    ensures AttrLine(a) == "- `" + AttrName(a) + "` (" + Flag(AttrRequired(a))
  {
    var x := AttrOf(a);
    assert x.type_ == "" && x.desc == "" && x.constr == "" && x.name == AttrName(a) && x.required == AttrRequired(a);
    LineBare(x);
    assert "- `" + x.name + "` (" + x.type_ == "- `" + x.name + "` (";
  }

  // ---------------------------------------------------------------------
  // the endpoint record and its text fields

  /** The `endpoint` object `processHtml` returns. */
  datatype Endpoint = Endpoint(
    key: string, path: string, title: string, docUrl: string, operationId: string,
    method_: string, url: string, headers: seq<Record>,
    requestExtras: seq<string>, requestAttributes: seq<Record>,
    responseTable: seq<Record>, responseAttributes: seq<Record>, responseExtras: seq<string>,
    text: string, searchContent: string, schema: string)

  /** `attrs.map(a => a.Name)`, a missing name reading as empty. */
  function Names(attrs: seq<Record>): (r: seq<string>)
    ensures |r| == |attrs| && forall i :: 0 <= i < |attrs| ==> r[i] == Get(attrs[i], "Name")
  {
    seq(|attrs|, i requires 0 <= i < |attrs| => Get(attrs[i], "Name"))
  }

  /** The parts of `buildSearchContent`. */
  function SearchParts(e: Endpoint): seq<string> {
    [e.method_ + " " + e.path + " — " + e.title]
      + (if e.requestAttributes != [] then ["Request: " + Join(", ", Names(e.requestAttributes))] else [])
      + (if e.responseAttributes != [] then ["Response: " + Join(", ", Names(e.responseAttributes))] else [])
  }

  /** `buildSearchContent`: the parts joined with `. `. */
  function SearchContent(e: Endpoint): string {
    Join(". ", SearchParts(e))
  }

  /** `buildSearchContent`, pushing its parts one by one. */
  method BuildSearchContent(e: Endpoint) returns (content: string)
    ensures content == SearchContent(e)
  {
    var parts := [e.method_ + " " + e.path + " — " + e.title];
    parts := PushIf(parts, e.requestAttributes != [], "Request: " + Join(", ", Names(e.requestAttributes)));
    parts := PushIf(parts, e.responseAttributes != [], "Response: " + Join(", ", Names(e.responseAttributes)));
    content := Join(". ", parts);
  }

  /** The search string starts with the method, the path and the title. */
  lemma SearchContentStarts(e: Endpoint)
    ensures StartsWith(SearchContent(e), e.method_ + " " + e.path + " — " + e.title)
  {
    JoinFirst(". ", SearchParts(e));
  }

  /** The search string names the request attributes when there are any, right after a separator. */
  lemma SearchContentRequest(e: Endpoint)
    requires e.requestAttributes != []
    ensures Contains(SearchContent(e), ". Request: " + Join(", ", Names(e.requestAttributes)))
  {
    var request := "Request: " + Join(", ", Names(e.requestAttributes));
    var parts := SearchParts(e);
    assert parts[1] == request;
    JoinHasPart(". ", parts, 1);
    assert ". " + request == ". Request: " + Join(", ", Names(e.requestAttributes)) by {
      assert ". " + "Request: " == ". Request: ";
    }
  }

  /** The search string names the response attributes when there are any, as its last part. */
  lemma SearchContentResponse(e: Endpoint)
    requires e.responseAttributes != []
    ensures Contains(SearchContent(e), ". Response: " + Join(", ", Names(e.responseAttributes)))
    ensures EndsWith(SearchContent(e), ". Response: " + Join(", ", Names(e.responseAttributes)))
  {
    var response := "Response: " + Join(", ", Names(e.responseAttributes));
    var parts := SearchParts(e);
    assert |parts| >= 2 && parts[|parts| - 1] == response;
    JoinHasPart(". ", parts, |parts| - 1);
    JoinLast(". ", parts);
    assert ". " + response == ". Response: " + Join(", ", Names(e.responseAttributes)) by {
      assert ". " + "Response: " == ". Response: ";
    }
  }

  /** `a.Name && a.Type`: the summary lists only attributes with both. */
  predicate Listed(a: Record) {
    Get(a, "Name") != "" && Get(a, "Type") != ""
  }

  /** `${a.Name} (${a.Type}${desc})`, the description after a dash when there is one. */
  function FieldText(a: Record): string {
    var d := Get(a, "Description");
    Get(a, "Name") + " (" + Get(a, "Type") + (if d != "" then " — " + d else "") + ")"
  }

  /** `attrs.map(FieldText)` */
  function FieldTexts(attrs: seq<Record>): (r: seq<string>)
    ensures |r| == |attrs| && forall i :: 0 <= i < |attrs| ==> r[i] == FieldText(attrs[i])
  {
    seq(|attrs|, i requires 0 <= i < |attrs| => FieldText(attrs[i]))
  }

  /** `attrs.filter(Listed).map(FieldText).slice(0, 10)` */
  function Fields(attrs: seq<Record>): seq<string> {
    Seqs.Take(FieldTexts(Seqs.Filter(attrs, Listed)), 10)
  }

  /**
   * At most ten fields, each the text of a listed attribute, in order; when
   * no more than ten attributes are listed, every one of them appears.
   */
  lemma FieldsChosen(attrs: seq<Record>)
    ensures |Fields(attrs)| <= 10
    ensures Fields(attrs) <= FieldTexts(Seqs.Filter(attrs, Listed))
    ensures forall f :: f in Fields(attrs) ==> exists a :: a in attrs && Listed(a) && f == FieldText(a)
    ensures |Seqs.Filter(attrs, Listed)| <= 10 ==> forall a :: a in attrs && Listed(a) ==> FieldText(a) in Fields(attrs)
  {
    var listed := Seqs.Filter(attrs, Listed);
    var texts := FieldTexts(listed);
    forall f | f in Fields(attrs)
      ensures exists a :: a in attrs && Listed(a) && f == FieldText(a)
    {
      var i :| 0 <= i < |Fields(attrs)| && Fields(attrs)[i] == f;
      assert listed[i] in listed;
    }
    if |listed| <= 10 {
      forall a | a in attrs && Listed(a)
        ensures FieldText(a) in Fields(attrs)
      {
        var i :| 0 <= i < |listed| && listed[i] == a;
        assert texts[i] == FieldText(a);
      }
    }
  }

  /** A part that is pushed only when its condition holds. */
  function Opt(c: bool, part: string): seq<string> {
    if c then [part] else []
  }

  /** The parts of `buildTextSummary`. */
  function SummaryParts(e: Endpoint): seq<string> {
    var head := if e.method_ != "" && e.url != "" then e.method_ + " " + e.url + " — " + e.title + "." else e.title + ".";
    [head]
      + Opt(e.requestAttributes != [], "Request body fields: " + Join("; ", Fields(e.requestAttributes)) + ".")
      + Opt(e.responseAttributes != [], "Response fields: " + Join("; ", Fields(e.responseAttributes)) + ".")
      + Opt(e.requestExtras != [], "Request extras: " + Join(", ", e.requestExtras) + ".")
      + Opt(e.responseExtras != [], "Response extras: " + Join(", ", e.responseExtras) + ".")
  }

  /** `buildTextSummary`: the parts joined with spaces. */
  function TextSummary(e: Endpoint): string {
    Join(" ", SummaryParts(e))
  }

  /** `if (c) parts.push(part)` */
  method PushIf(parts: seq<string>, c: bool, part: string) returns (parts': seq<string>)
    ensures parts' == parts + Opt(c, part)
  {
    parts' := parts;
    if c {
      parts' := parts' + [part];
    }
  }

  /** `buildTextSummary`, pushing its parts one by one. */
  method BuildTextSummary(e: Endpoint) returns (text: string)
    ensures text == TextSummary(e)
  {
    var parts: seq<string>;
    if e.method_ != "" && e.url != "" {
      parts := [e.method_ + " " + e.url + " — " + e.title + "."];
    } else {
      parts := [e.title + "."];
    }
    parts := PushIf(parts, e.requestAttributes != [], "Request body fields: " + Join("; ", Fields(e.requestAttributes)) + ".");
    parts := PushIf(parts, e.responseAttributes != [], "Response fields: " + Join("; ", Fields(e.responseAttributes)) + ".");
    parts := PushIf(parts, e.requestExtras != [], "Request extras: " + Join(", ", e.requestExtras) + ".");
    parts := PushIf(parts, e.responseExtras != [], "Response extras: " + Join(", ", e.responseExtras) + ".");
    text := Join(" ", parts);
  }

  /** The summary opens with the method, the URL and the title when both are known, and with the title alone otherwise. */
  lemma TextSummaryStarts(e: Endpoint)
    ensures e.method_ != "" && e.url != "" ==> StartsWith(TextSummary(e), e.method_ + " " + e.url + " — " + e.title + ".")
    ensures !(e.method_ != "" && e.url != "") ==> StartsWith(TextSummary(e), e.title + ".")
  {
    JoinFirst(" ", SummaryParts(e));
  }

  /** `t['Description'] || 'Success'` on the first row of the response table. */
  function ResponseDescription(e: Endpoint): (r: string)
    ensures r != "" && (e.responseTable == [] ==> r == "Success")
  {
    if e.responseTable != [] && Get(e.responseTable[0], "Description") != "" then Get(e.responseTable[0], "Description")
    else "Success"
  }

  /** `t['Response type'] || 'Object'` on the first row of the response table. */
  function ResponseType(e: Endpoint): (r: string)
    ensures r != "" && (e.responseTable == [] ==> r == "Object")
  {
    if e.responseTable != [] && Get(e.responseTable[0], "Response type") != "" then Get(e.responseTable[0], "Response type")
    else "Object"
  }

  /** `attrs.forEach(a => lines.push(line(a)))` collects these; the schema uses `AttrLine`. */
  function MapLines(attrs: seq<Record>, line: Record -> string): (r: seq<string>)
    ensures |r| == |attrs| && forall i :: 0 <= i < |attrs| ==> r[i] == line(attrs[i])
  {
    seq(|attrs|, i requires 0 <= i < |attrs| => line(attrs[i]))
  }

  /** The formatted lines of some attributes. */
  function AttrLines(attrs: seq<Record>): seq<string> {
    MapLines(attrs, AttrLine)
  }

  /** The line written when the response has no attributes. */
  const NoFields: string := "- (no documented fields)"

  /** The title, the method and path, the documentation link and a blank line. */
  function SchemaHead(e: Endpoint): seq<string> {
    ["## " + e.title, e.method_ + " " + e.path, "Doc: " + e.docUrl, ""]
  }

  /** The request body block, present only when there are request attributes. */
  function RequestBlock(e: Endpoint): seq<string> {
    BodyBlock(e.requestAttributes, AttrLine)
  }

  /** A request body heading, one line per attribute and a blank line; nothing without attributes. */
  function BodyBlock(attrs: seq<Record>, line: Record -> string): seq<string> {
    if attrs != [] then ["### Request Body"] + MapLines(attrs, line) + [""] else []
  }

  /** The response heading with its description and type. */
  function ResponseHead(e: Endpoint): seq<string> {
    ["### Response (" + ResponseDescription(e) + ")", "Returns " + ResponseType(e) + ":"]
  }

  /** The response attribute lines, or the no-fields line. */
  function ResponseBody(e: Endpoint): seq<string> {
    if e.responseAttributes != [] then AttrLines(e.responseAttributes) else [NoFields]
  }

  /** The lines of `buildSchemaMarkdown`. */
  function SchemaLines(e: Endpoint): seq<string> {
    SchemaHead(e) + RequestBlock(e) + ResponseHead(e) + ResponseBody(e) + [""]
  }

  /** `buildSchemaMarkdown`: the lines joined with newlines. */
  function SchemaMarkdown(e: Endpoint): string {
    Join("\n", SchemaLines(e))
  }

  /** The `forEach` that pushes one line per attribute. */
  method PushLines(lines: seq<string>, attrs: seq<Record>, line: Record -> string) returns (lines': seq<string>)
    ensures lines' == lines + MapLines(attrs, line)
  {
    lines' := lines;
    var j := 0;
    while j < |attrs|
      invariant 0 <= j <= |attrs|
      invariant lines' == lines + MapLines(attrs[..j], line)
    {
      assert MapLines(attrs[..j + 1], line) == MapLines(attrs[..j], line) + [line(attrs[j])];
      lines' := lines' + [line(attrs[j])];
      j := j + 1;
    }
    assert attrs[..j] == attrs;
  }

  /** `buildSchemaMarkdown`, pushing its lines one by one. */
  method BuildSchemaMarkdown(e: Endpoint) returns (schema: string)
    ensures schema == SchemaMarkdown(e)
  {
    var lines := ["## " + e.title, e.method_ + " " + e.path, "Doc: " + e.docUrl, ""];
    lines := PushRequest(lines, e.requestAttributes, AttrLine);
    lines := PushResponse(lines, e);
    lines := lines + [""];
    assert lines == SchemaLines(e);
    schema := Join("\n", lines);
  }

  /** The request part of `buildSchemaMarkdown`, written only when there are request attributes. */
  method PushRequest(lines: seq<string>, attrs: seq<Record>, line: Record -> string) returns (lines': seq<string>)
    ensures lines' == lines + BodyBlock(attrs, line)
  {
    lines' := lines;
    if attrs != [] {
      lines' := PushLines(lines' + ["### Request Body"], attrs, line);
      lines' := lines' + [""];
    }
  }

  /** The response part of `buildSchemaMarkdown`: the defaults, the heading, then the attributes or the no-fields line. */
  method PushResponse(lines: seq<string>, e: Endpoint) returns (lines': seq<string>)
    ensures lines' == lines + ResponseHead(e) + ResponseBody(e)
  {
    var desc := "Success";
    var rtype := "Object";
    if e.responseTable != [] {
      var t := e.responseTable[0];
      if Get(t, "Description") != "" {
        desc := Get(t, "Description");
      }
      if Get(t, "Response type") != "" {
        rtype := Get(t, "Response type");
      }
    }
    lines' := lines + ["### Response (" + desc + ")", "Returns " + rtype + ":"];
    assert lines' == lines + ResponseHead(e);
    if e.responseAttributes != [] {
      lines' := PushLines(lines', e.responseAttributes, AttrLine);
    } else {
      lines' := lines' + [NoFields];
    }
  }

  /** A line of the attribute format is never the no-fields line: it has a backtick where that line has a parenthesis. */
  lemma LineNotNoFields(x: Attr)
    ensures Join(" ", LineParts(x)) != NoFields
  {
    LineStart(x);
    var head := "- `" + x.name + "` (" + x.type_ + Flag(x.required);
    assert Join(" ", LineParts(x))[2] == head[2] == '`';
    assert NoFields[2] == '(';
  }

  /** A formatted attribute line is never the no-fields line. */
  lemma AttrLineNotNoFields(a: Record)
    ensures AttrLine(a) != NoFields
  {
    LineNotNoFields(AttrOf(a));
  }

  /** No line before the response body is the no-fields line, given a method name from the documentation. */
  lemma NoFieldsNotBefore(e: Endpoint)
    requires e.method_ in MethodNames
    ensures NoFields !in SchemaHead(e) + RequestBlock(e) + ResponseHead(e)
  {
    assert NoFields[0] == '-';
    assert ("## " + e.title)[0] == '#';
    assert e.method_[0] in "GPD";
    assert (e.method_ + " " + e.path)[0] == e.method_[0];
    assert ("Doc: " + e.docUrl)[0] == 'D';
    assert ("### Response (" + ResponseDescription(e) + ")")[0] == '#';
    assert ("Returns " + ResponseType(e) + ":")[0] == 'R';
    assert "### Request Body"[0] == '#';
    forall a | a in e.requestAttributes ensures AttrLine(a) != NoFields {
      AttrLineNotNoFields(a);
    }
  }

  /**
   * The schema carries the no-fields line exactly when the response has no
   * attributes.
   */
  lemma SchemaNoFields(e: Endpoint)
    requires e.method_ in MethodNames
    ensures NoFields in SchemaLines(e) <==> e.responseAttributes == []
  {
    var before := SchemaHead(e) + RequestBlock(e) + ResponseHead(e);
    var body := ResponseBody(e);
    assert SchemaLines(e) == before + body + [""];
    NoFieldsNotBefore(e);
    BodyNoFields(e);
    Seqs.InConcat(NoFields, before + body, [""]);
    Seqs.InConcat(NoFields, before, body);
    assert NoFields != "";
  }

  /** The response body holds the no-fields line exactly when there are no response attributes. */
  lemma BodyNoFields(e: Endpoint)
    ensures NoFields in ResponseBody(e) <==> e.responseAttributes == []
  {
    if e.responseAttributes != [] {
      var lines := AttrLines(e.responseAttributes);
      forall i | 0 <= i < |lines| ensures lines[i] != NoFields {
        AttrLineNotNoFields(e.responseAttributes[i]);
      }
    }
  }
}
