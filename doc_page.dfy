/**
 * `processHtml` of the documentation crawler: one documentation page, as
 * the texts and tables its DOM walks produce, becomes an endpoint record,
 * or nothing when the page states no method, no API URL or no table
 * under an interesting section.
 */
module DocPage {
  import opened Wrappers
  import opened Strings
  import opened DocParser
  import Seqs

  /**
   * What `processHtml` reads from the parsed page: the texts of the first
   * `h4` and `h1`, the texts of the `div, p, span, code` elements in
   * document order (untrimmed: the scan trims them), and every table with its nearest heading and the
   * extras of that heading's section.
   */
  datatype Page = Page(h4: string, h1: string, texts: seq<string>, tables: seq<PlacedTable>)

  /** The page states a method and an API URL, and has a table under an interesting section. */
  predicate Found(page: Page) {
    PageMethod(page.texts).Some? && PageUrl(page.texts).Some? && Grouped(page.tables, UnderSection) != []
  }

  /**
   * The endpoint before its text fields are built: its identity, method,
   * URL, path and key, the routed lists, and the extras without
   * repetitions.
   */
  function Assembled(title: string, docUrl: string, m: string, url: string, path: string, r: Routed): Endpoint {
    Endpoint(
      EndpointKey(m, path), path, title, docUrl, OperationId(docUrl), m, url,
      r.headers, Seqs.Distinct(r.requestExtras), r.requestAttributes,
      r.responseTable, r.responseAttributes, Seqs.Distinct(r.responseExtras),
      "", "", "")
  }

  /**
   * The three builders' results stored on the endpoint. None of the
   * builders reads `text`, `search_content` or `schema`, so building them
   * one after the other or all from the same record is the same.
   */
  function Built(e: Endpoint): Endpoint {
    e.(text := TextSummary(e), searchContent := SearchContent(e), schema := SchemaMarkdown(e))
  }

  /**
   * The endpoint of a page, or `None` when `processHtml` returns a null
   * endpoint; `pathname` stands for `decodeURIComponent(new URL(url).pathname)`.
   */
  function PageEndpoint(page: Page, docUrl: string, pathname: string -> Option<string>): Option<Endpoint> {
    if Found(page) then
      var url := PageUrl(page.texts).value;
      var r := Routes(Grouped(page.tables, UnderSection), PlanOf, TableObjects);
      Some(Built(Assembled(PageTitle(page.h4, page.h1), docUrl, PageMethod(page.texts).value, url, EndpointPath(url, pathname), r)))
    else None
  }

  /** `processHtml`: the scan, the grouping, the routing, the deduplication and the builders. */
  method ProcessHtml(page: Page, docUrl: string, pathname: string -> Option<string>) returns (endpoint: Option<Endpoint>)
    ensures endpoint == PageEndpoint(page, docUrl, pathname)
  {
    var title := PageTitle(page.h4, page.h1);
    var m, u := FindMethodAndUrl(page.texts);
    if m.None? || u.None? {
      return None;
    }
    var path := EndpointPath(u.value, pathname);
    var key := EndpointKey(m.value, path);
    var sections := GroupSections(page.tables);
    if |sections| == 0 {
      return None;
    }
    var r := RouteSections(sections);
    var e := Endpoint(
      key, path, title, docUrl, OperationId(docUrl), m.value, u.value,
      r.headers, Seqs.Distinct(r.requestExtras), r.requestAttributes,
      r.responseTable, r.responseAttributes, Seqs.Distinct(r.responseExtras),
      "", "", "");
    var text := BuildTextSummary(e);
    var content := BuildSearchContent(e);
    var schema := BuildSchemaMarkdown(e);
    endpoint := Some(e.(text := text, searchContent := content, schema := schema));
  }

  /**
   * A page yields no endpoint exactly when no trimmed element text is a method
   * name, or none is an API URL, or no table sits under an interesting
   * section's heading.
   */
  lemma PageEndpointNone(page: Page, docUrl: string, pathname: string -> Option<string>)
    ensures PageEndpoint(page, docUrl, pathname).None? <==>
      || (forall i :: 0 <= i < |page.texts| ==> !StatesMethod(page.texts[i]))
      || (forall i :: 0 <= i < |page.texts| ==> !StatesApiUrl(page.texts[i]))
      || (forall i :: 0 <= i < |page.tables| ==> !Taken(page.tables[i], UnderSection))
  {
    PageFound(page);
  }

  /** `Found`, in terms of the page's texts and tables. */
  lemma PageFound(page: Page)
    ensures !Found(page) <==>
      || (forall i :: 0 <= i < |page.texts| ==> !StatesMethod(page.texts[i]))
      || (forall i :: 0 <= i < |page.texts| ==> !StatesApiUrl(page.texts[i]))
      || (forall i :: 0 <= i < |page.tables| ==> !Taken(page.tables[i], UnderSection))
  {
    PageMethodFound(page.texts);
    PageUrlFound(page.texts);
    GroupedEmpty(page.tables, UnderSection);
  }

  /**
   * The identity of an endpoint: a method name, an API URL, the key made
   * of the two, a non-empty title, an operation id without slashes, and
   * text fields that are the builders' results on the endpoint itself.
   */
  lemma PageEndpointIdentity(page: Page, docUrl: string, pathname: string -> Option<string>)
    requires PageEndpoint(page, docUrl, pathname).Some?
    ensures var e := PageEndpoint(page, docUrl, pathname).value;
      && e.method_ in MethodNames && IsApiUrl(e.url)
      && e.key == e.method_ + " " + e.path
      && e.title != "" && '/' !in e.operationId
      && Built(e) == e
  {
    PageMethodFound(page.texts);
    PageUrlFound(page.texts);
    var url := PageUrl(page.texts).value;
    var a := Assembled(PageTitle(page.h4, page.h1), docUrl, PageMethod(page.texts).value, url,
      EndpointPath(url, pathname), Routes(Grouped(page.tables, UnderSection), PlanOf, TableObjects));
    assert PageEndpoint(page, docUrl, pathname) == Some(Built(a));
    BuiltStable(a);
  }

  /** No builder reads the fields the builders fill, so building once more changes nothing. */
  lemma BuiltStable(e: Endpoint)
    ensures Built(Built(e)) == Built(e)
  {
    var b := Built(e);
    assert SummaryParts(b) == SummaryParts(e);
    assert SearchParts(b) == SearchParts(e);
    assert SchemaLines(b) == SchemaLines(e);
  }

  /** The endpoint's list that a destination names. */
  function EndpointList(e: Endpoint, d: Destination): seq<Record> {
    match d
    case ToHeaders => e.headers
    case ToResponseAttributes => e.responseAttributes
    case ToResponseTable => e.responseTable
    case ToRequestAttributes => e.requestAttributes
    case Nowhere => []
  }

  /**
   * An object is in one of the endpoint's lists exactly when it comes from
   * a table of a section whose title routes to that list.
   */
  lemma PageEndpointLists(page: Page, docUrl: string, pathname: string -> Option<string>, d: Destination, x: Record)
    requires PageEndpoint(page, docUrl, pathname).Some? && d != Nowhere
    ensures var e := PageEndpoint(page, docUrl, pathname).value;
      var sections := Grouped(page.tables, UnderSection);
      x in EndpointList(e, d) <==> SentBy(sections, PlanOf, TableObjects, d, x)
  {
    var sections := Grouped(page.tables, UnderSection);
    var r := Routes(sections, PlanOf, TableObjects);
    var url := PageUrl(page.texts).value;
    var e := Assembled(PageTitle(page.h4, page.h1), docUrl, PageMethod(page.texts).value, url, EndpointPath(url, pathname), r);
    assert PageEndpoint(page, docUrl, pathname) == Some(Built(e));
    RoutesObjects(sections, PlanOf, TableObjects, d, x);
    AssembledLists(PageTitle(page.h4, page.h1), docUrl, PageMethod(page.texts).value, url, EndpointPath(url, pathname), r, d);
    BuiltLists(e, d);
  }

  /** The lists of the assembled endpoint are the routed ones. */
  lemma AssembledLists(title: string, docUrl: string, m: string, url: string, path: string, r: Routed, d: Destination)
    ensures EndpointList(Assembled(title, docUrl, m, url, path, r), d) == ListOf(r, d)
  {
  }

  /** The builders leave the lists alone. */
  lemma BuiltLists(e: Endpoint, d: Destination)
    ensures EndpointList(Built(e), d) == EndpointList(e, d)
  {
  }

  /**
   * The extras of the endpoint hold no repetitions and are exactly those
   * of the sections whose titles send their extras to the request or to
   * the response.
   */
  lemma PageEndpointExtras(page: Page, docUrl: string, pathname: string -> Option<string>, x: string)
    requires PageEndpoint(page, docUrl, pathname).Some?
    ensures var e := PageEndpoint(page, docUrl, pathname).value;
      var sections := Grouped(page.tables, UnderSection);
      && Seqs.NoDup(e.requestExtras) && Seqs.NoDup(e.responseExtras)
      && (x in e.requestExtras <==> exists k :: 0 <= k < |sections| && PlanOf(sections[k].title).toRequest && x in sections[k].extras)
      && (x in e.responseExtras <==> exists k :: 0 <= k < |sections| && PlanOf(sections[k].title).toResponse && x in sections[k].extras)
  {
    var sections := Grouped(page.tables, UnderSection);
    var r := Routes(sections, PlanOf, TableObjects);
    Seqs.DistinctProperties(r.requestExtras);
    Seqs.DistinctProperties(r.responseExtras);
    RoutesRequestExtras(sections, PlanOf, TableObjects, x);
    RoutesResponseExtras(sections, PlanOf, TableObjects, x);
  }

  /** The endpoint's schema writes the no-fields line exactly when the response has no attributes. */
  lemma PageEndpointSchema(page: Page, docUrl: string, pathname: string -> Option<string>)
    requires PageEndpoint(page, docUrl, pathname).Some?
    ensures var e := PageEndpoint(page, docUrl, pathname).value;
      NoFields in SchemaLines(e) <==> e.responseAttributes == []
  {
    PageMethodFound(page.texts);
    SchemaNoFields(PageEndpoint(page, docUrl, pathname).value);
  }
}
