/**
 * The Kaiten API client (`lib/kaiten/client.ts`): normalising the base
 * URL, the offset-paginated fetch, the parent-to-children discovery of
 * boards, columns and lanes, and the per-space merge of active and
 * inactive users.
 *
 * The HTTP API is modelled two ways. A paginated endpoint is a script
 * of responses, one consumed per request; after the script the server
 * answers `[]`. A one-shot request is a function from endpoint and query
 * parameters to a response, `Err` standing for a rejected request.
 */
module KaitenClient {
  import opened Wrappers
  import opened Strings
  import opened JsValue
  import Seqs

  // ---------------------------------------------------------------------
  // `KAITEN_URL`

  function StripSuffix(s: string, suffix: string): (r: string)
    ensures EndsWith(s, suffix) ==> r + suffix == s
    ensures !EndsWith(s, suffix) ==> r == s
  {
    if EndsWith(s, suffix) then s[..|s| - |suffix|] else s
  }

  /**
   * `s.replace(/\/api\/<version>\/?$/, "")` given the two forms of the
   * suffix: the leftmost match is the longer one, with the slash.
   */
  function StripApiSuffix(s: string, withSlash: string, bare: string): string {
    if EndsWith(s, withSlash) then StripSuffix(s, withSlash) else StripSuffix(s, bare)
  }

  /** The configured URL with a trailing `/`, then `/api/latest[/]`, then `/api/v1[/]` removed. */
  function NormalizeBaseUrl(raw: string): string {
    var a := StripSuffix(raw, "/");
    var b := StripApiSuffix(a, "/api/latest/", "/api/latest");
    StripApiSuffix(b, "/api/v1/", "/api/v1")
  }

  /** None of the three suffixes the normalisation removes. */
  predicate Bare(s: string) {
    !EndsWith(s, "/") && !EndsWith(s, "/api/latest") && !EndsWith(s, "/api/v1")
  }

  /** A string ending in a suffix ends in that suffix's last character. */
  lemma EndsWithLast(s: string, t: string)
    requires t != []
    ensures EndsWith(s, t) ==> EndsWith(s, [t[|t| - 1]])
  {
    if EndsWith(s, t) {
      assert s[|s| - 1] == t[|t| - 1];
    }
  }

  lemma EndsWithConcat(b: string, t: string)
    ensures EndsWith(b + t, t) && StripSuffix(b + t, t) == b
  {
    assert (b + t)[|b + t| - |t|..] == t;
    assert (b + t)[..|b + t| - |t|] == b;
  }

  /** The normalised URL is the configured one or a prefix of it. */
  lemma NormalizeIsPrefix(raw: string)
    ensures |NormalizeBaseUrl(raw)| <= |raw| && raw[..|NormalizeBaseUrl(raw)|] == NormalizeBaseUrl(raw)
  {
    var a := StripSuffix(raw, "/");
    var b := StripApiSuffix(a, "/api/latest/", "/api/latest");
    var c := StripApiSuffix(b, "/api/v1/", "/api/v1");
    assert a == raw[..|a|];
    assert b == a[..|b|];
    assert c == b[..|c|];
  }

  /** A URL with none of the three suffixes is left as it is. */
  lemma NormalizeLeavesOthers(raw: string)
    requires Bare(raw)
    ensures NormalizeBaseUrl(raw) == raw
  {
    EndsWithLast(raw, "/api/latest/");
    EndsWithLast(raw, "/api/v1/");
  }

  /** Every form of the API root pasted after a bare base URL gives that base back. */
  lemma NormalizeStripsApiRoot(base: string)
    requires Bare(base)
    ensures NormalizeBaseUrl(base + "/") == base
    ensures NormalizeBaseUrl(base + "/api/latest") == base
    ensures NormalizeBaseUrl(base + "/api/latest/") == base
    ensures NormalizeBaseUrl(base + "/api/v1") == base
    ensures NormalizeBaseUrl(base + "/api/v1/") == base
  {
    NormalizeLeavesOthers(base);
    EndsWithLast(base, "/api/latest/");
    EndsWithLast(base, "/api/v1/");
    EndsWithConcat(base, "/");
    EndsWithConcat(base, "/api/latest/");
    EndsWithConcat(base, "/api/v1/");
    EndsWithConcat(base, "/api/latest");
    EndsWithConcat(base, "/api/v1");
    EndsWithConcat(base + "/api/latest", "/");
    EndsWithConcat(base + "/api/v1", "/");
    assert base + "/api/latest/" == (base + "/api/latest") + "/";
    assert base + "/api/v1/" == (base + "/api/v1") + "/";
    LastCharNotSlash(base + "/api/latest", "/api/latest");
    LastCharNotSlash(base + "/api/v1", "/api/v1");
    assert !EndsWith(base + "/api/latest", "/api/v1") by {
      assert (base + "/api/latest")[|base + "/api/latest"| - 2] == 's';
    }
    EndsWithLast(base + "/api/v1", "/api/latest");
  }

  lemma LastCharNotSlash(s: string, t: string)
    requires EndsWith(s, t) && t != [] && t[|t| - 1] != '/'
    ensures !EndsWith(s, "/") && !EndsWith(s, "/api/latest/") && !EndsWith(s, "/api/v1/")
  {
    EndsWithLast(s, t);
    EndsWithLast(s, "/api/latest/");
    EndsWithLast(s, "/api/v1/");
  }

  // ---------------------------------------------------------------------
  // `fetchAllPaginated`

  const DefaultPageSize: int := 100

  /**
   * The options object: `limit` and `offset` (`None` when the property is
   * `undefined`, so that the default applies), `updated_since`, and the
   * remaining properties (`from`, `to`, ...), which the destructuring
   * collects into `restParams`.
   */
  datatype PageOptions = PageOptions(limit: Option<int>, offset: Option<int>, updatedSince: Js, rest: seq<(string, Js)>)

  const NoOptions: PageOptions := PageOptions(None, None, Undefined, [])

  function LimitOf(o: PageOptions): int { if o.limit.Some? then o.limit.value else DefaultPageSize }

  function InitialOffset(o: PageOptions): int { if o.offset.Some? then o.offset.value else 0 }

  /** The query of one request: `{ limit, offset, ...restParams }`, and `updated_since` when truthy. */
  function RequestParams(limit: int, offset: int, o: PageOptions): seq<(string, Js)> {
    [("limit", Num(limit)), ("offset", Num(offset))] + o.rest
      + (if Truthy(o.updatedSince) then [("updated_since", o.updatedSince)] else [])
  }

  /** The query carries the limit, the offset, `updated_since` only when given, and every other option as it is. */
  lemma RequestParamsLookup(limit: int, offset: int, o: PageOptions, k: string)
    requires forall i :: 0 <= i < |o.rest| ==> o.rest[i].0 !in {"limit", "offset", "updated_since"}
    ensures k == "limit" ==> Lookup(RequestParams(limit, offset, o), k) == Num(limit)
    ensures k == "offset" ==> Lookup(RequestParams(limit, offset, o), k) == Num(offset)
    ensures k == "updated_since" ==>
      Lookup(RequestParams(limit, offset, o), k) == if Truthy(o.updatedSince) then o.updatedSince else Undefined
    ensures k !in {"limit", "offset", "updated_since"} ==> Lookup(RequestParams(limit, offset, o), k) == Lookup(o.rest, k)
  {
    var head := [("limit", Num(limit)), ("offset", Num(offset))];
    var p := RequestParams(limit, offset, o);
    LookupConcatOther(head, o.rest, k);
    if Truthy(o.updatedSince) {
      LookupAppend(head + o.rest, "updated_since", o.updatedSince, k);
    } else {
      assert p == head + o.rest;
    }
  }

  lemma {:induction false} LookupConcatOther(a: seq<(string, Js)>, b: seq<(string, Js)>, k: string)
    ensures (forall i :: 0 <= i < |b| ==> b[i].0 != k) ==> Lookup(a + b, k) == Lookup(a, k)
    ensures (exists i :: 0 <= i < |b| && b[i].0 == k) ==> Lookup(a + b, k) == Lookup(b, k)
    ensures (forall i :: 0 <= i < |a| ==> a[i].0 != k) ==> Lookup(a + b, k) == Lookup(b, k)
    decreases |b|
  {
    if b == [] {
      assert a + b == a;
    } else {
      var b' := b[..|b| - 1];
      assert (a + b)[..|a + b| - 1] == a + b';
      LookupConcatOther(a, b', k);
    }
  }

  /**
   * The items of one response: `items || data || time_logs || response`,
   * an empty page when that is not an array. Reading a property of a
   * `null` response throws.
   */
  function ExtractPage(response: Js): (r: Result<seq<Js>>)
    ensures r.Err? <==> IsNullish(response)
  {
    if IsNullish(response) then Err(TypeError)
    else
      var raw := Raw(response);
      Ok(if raw.Arr? then raw.items else [])
  }

  /** `response.items || response.data || response.time_logs || response` */
  function Raw(response: Js): Js
    requires !IsNullish(response)
  {
    Or(Or(Or(Prop(response, "items"), Prop(response, "data")), Prop(response, "time_logs")), response)
  }

  /** A bare array is read as it is. */
  lemma ExtractBareArray(xs: seq<Js>)
    ensures ExtractPage(Arr(xs)) == Ok(xs)
  {
  }

  /** An `items`, `data` or `time_logs` array is read, in that order of preference. */
  lemma ExtractWrapped(fields: seq<(string, Js)>, xs: seq<Js>)
    ensures Lookup(fields, "items") == Arr(xs) ==> ExtractPage(Obj(fields)) == Ok(xs)
    ensures !Truthy(Lookup(fields, "items")) && Lookup(fields, "data") == Arr(xs) ==> ExtractPage(Obj(fields)) == Ok(xs)
    ensures !Truthy(Lookup(fields, "items")) && !Truthy(Lookup(fields, "data")) && Lookup(fields, "time_logs") == Arr(xs)
      ==> ExtractPage(Obj(fields)) == Ok(xs)
  {
  }

  /** An object without any of the three arrays, or any other value, is an empty page. */
  lemma ExtractOther(fields: seq<(string, Js)>, s: string, n: int, b: bool)
    ensures !Truthy(Lookup(fields, "items")) && !Truthy(Lookup(fields, "data")) && !Truthy(Lookup(fields, "time_logs"))
      ==> ExtractPage(Obj(fields)) == Ok([])
    ensures ExtractPage(Str(s)) == Ok([]) && ExtractPage(Num(n)) == Ok([]) && ExtractPage(Bool(b)) == Ok([])
  {
  }

  /** The response to request number `k` of the script. */
  function Response(pages: seq<Result<Js>>, k: nat): Result<Js> {
    if k < |pages| then pages[k] else Ok(Arr([]))
  }

  /** What page `k` delivers: its items, or the error of the request or of reading the response. */
  function PageAt(pages: seq<Result<Js>>, k: nat): Result<seq<Js>> {
    var r := Response(pages, k);
    if r.Err? then Err(r.error) else ExtractPage(r.value)
  }

  // The loop is first stated over the pages as read and the offsets it
  // asks for; `Paginate` below turns each offset into its query.

  /** Page `k` as read, an empty page past the end of the script. */
  function Item(ps: seq<Result<seq<Js>>>, k: nat): Result<seq<Js>> {
    if k < |ps| then ps[k] else Ok([])
  }

  /** The items of page `k`, nothing if it failed. */
  function ItemsOf(ps: seq<Result<seq<Js>>>, k: nat): seq<Js> {
    var p := Item(ps, k);
    if p.Ok? then p.value else []
  }

  /** The items of the `n` pages from page `k` on, in order. */
  function Gathered(ps: seq<Result<seq<Js>>>, k: nat, n: nat): seq<Js> {
    if n == 0 then [] else Gathered(ps, k, n - 1) + ItemsOf(ps, k + n - 1)
  }

  /** A page that lets the loop go on: read, non-empty and not shorter than the limit. */
  predicate FullItem(ps: seq<Result<seq<Js>>>, k: nat, limit: int) {
    Item(ps, k).Ok? && |Item(ps, k).value| > 0 && |Item(ps, k).value| >= limit
  }

  /** What a run of the loop returns (the collected items, or the error) and the offsets it asked for. */
  datatype OffsetRun = OffsetRun(items: Result<seq<Js>>, offsets: seq<int>)

  /** The pagination loop from page `k` on, the next request asking for `offset`. */
  function Loop(ps: seq<Result<seq<Js>>>, k: nat, offset: int, limit: int): (run: OffsetRun)
    ensures |run.offsets| >= 1
    decreases |ps| - k
  {
    var page := Item(ps, k);
    if page.Err? then OffsetRun(Err(page.error), [offset])
    else if |page.value| == 0 || |page.value| < limit then OffsetRun(Ok(page.value), [offset])
    else
      assert k < |ps|;
      var next := Loop(ps, k + 1, offset + |page.value|, limit);
      OffsetRun(if next.items.Ok? then Ok(page.value + next.items.value) else next.items, [offset] + next.offsets)
  }

  lemma {:induction false} GatheredShift(ps: seq<Result<seq<Js>>>, k: nat, n: nat)
    ensures Gathered(ps, k, n + 1) == ItemsOf(ps, k) + Gathered(ps, k + 1, n)
  {
    if n > 0 {
      GatheredShift(ps, k, n - 1);
    }
  }

  /** The loop stops at the first page that is not full. */
  lemma {:induction false} LoopStops(ps: seq<Result<seq<Js>>>, k: nat, offset: int, limit: int)
    ensures var n := |Loop(ps, k, offset, limit).offsets|;
      && (forall j :: k <= j < k + n - 1 ==> FullItem(ps, j, limit))
      && !FullItem(ps, k + n - 1, limit)
    decreases |ps| - k
  {
    var page := Item(ps, k);
    if !(page.Err? || |page.value| == 0 || |page.value| < limit) {
      assert k < |ps|;
      LoopStops(ps, k + 1, offset + |page.value|, limit);
    }
  }

  /** Request `i` asks for the initial offset plus the number of items read before it. */
  lemma {:induction false} LoopOffsetAt(ps: seq<Result<seq<Js>>>, k: nat, offset: int, limit: int, i: nat)
    requires i < |Loop(ps, k, offset, limit).offsets|
    ensures Loop(ps, k, offset, limit).offsets[i] == offset + |Gathered(ps, k, i)|
    decreases |ps| - k
  {
    var page := Item(ps, k);
    if i > 0 {
      assert !(page.Err? || |page.value| == 0 || |page.value| < limit);
      assert k < |ps|;
      var next := Loop(ps, k + 1, offset + |page.value|, limit);
      LoopOffsetAt(ps, k + 1, offset + |page.value|, limit, i - 1);
      var j: nat := i - 1;
      GatheredShift(ps, k, j);
      Seqs.ConsIndex(offset, next.offsets, i);
    }
  }

  /** The loop returns every page's items in order, or the error of the page it stopped at. */
  lemma {:induction false} LoopResult(ps: seq<Result<seq<Js>>>, k: nat, offset: int, limit: int)
    ensures var run := Loop(ps, k, offset, limit);
      var last := Item(ps, k + |run.offsets| - 1);
      && (run.items.Err? <==> last.Err?)
      && (run.items.Err? ==> run.items == last)
      && (run.items.Ok? ==> run.items.value == Gathered(ps, k, |run.offsets|))
    decreases |ps| - k
  {
    var page := Item(ps, k);
    if page.Err? || |page.value| == 0 || |page.value| < limit {
      assert Gathered(ps, k, 1) == ItemsOf(ps, k);
    } else {
      assert k < |ps|;
      var next := Loop(ps, k + 1, offset + |page.value|, limit);
      var run := Loop(ps, k, offset, limit);
      assert run == OffsetRun(if next.items.Ok? then Ok(page.value + next.items.value) else next.items, [offset] + next.offsets);
      ghost var j := k + |run.offsets| - 1;
      assert j == (k + 1) + |next.offsets| - 1;
      ghost var last := Item(ps, j);
      LoopResult(ps, k + 1, offset + |page.value|, limit);
      assert next.items.Err? <==> last.Err?;
      if next.items.Ok? {
        GatheredShift(ps, k, |next.offsets|);
        assert ItemsOf(ps, k) == page.value;
        assert run.items.value == page.value + next.items.value;
      } else {
        assert run.items == next.items;
      }
    }
  }

  /** The script's responses as the loop reads them. */
  function Extracted(pages: seq<Result<Js>>): (ps: seq<Result<seq<Js>>>)
    ensures |ps| == |pages|
  {
    seq(|pages|, j requires 0 <= j < |pages| => PageAt(pages, j))
  }

  lemma ItemAt(pages: seq<Result<Js>>, k: nat)
    ensures Item(Extracted(pages), k) == PageAt(pages, k)
  {
    if k >= |pages| {
      assert Response(pages, k) == Ok(Arr([]));
    }
  }

  /** The query of each offset, in order. */
  function Requests(limit: int, offsets: seq<int>, o: PageOptions): (r: seq<seq<(string, Js)>>)
    ensures |r| == |offsets| && forall i :: 0 <= i < |offsets| ==> r[i] == RequestParams(limit, offsets[i], o)
  {
    seq(|offsets|, i requires 0 <= i < |offsets| => RequestParams(limit, offsets[i], o))
  }

  lemma RequestsCons(limit: int, offset: int, offsets: seq<int>, o: PageOptions)
    ensures Requests(limit, [offset] + offsets, o) == [RequestParams(limit, offset, o)] + Requests(limit, offsets, o)
    ensures Requests(limit, [offset], o) == [RequestParams(limit, offset, o)]
  {
    var l := Requests(limit, [offset] + offsets, o);
    var r := [RequestParams(limit, offset, o)] + Requests(limit, offsets, o);
    forall i | 0 < i < |l| ensures l[i] == r[i] {
      Seqs.ConsIndex(offset, offsets, i);
    }
  }

  /** What a run of the pagination loop returns (the collected items, or the error) and which queries it sent. */
  datatype PageRun = PageRun(items: Result<seq<Js>>, requests: seq<seq<(string, Js)>>)

  /** The pagination loop from request `k` on, the next request asking for `offset`. */
  function Paginate(pages: seq<Result<Js>>, k: nat, offset: int, limit: int, o: PageOptions): (run: PageRun)
    ensures |run.requests| >= 1
  {
    var l := Loop(Extracted(pages), k, offset, limit);
    PageRun(l.items, Requests(limit, l.offsets, o))
  }

  /** The items of the `n` pages from page `k` on, in order; a failed page contributes nothing. */
  function Collected(pages: seq<Result<Js>>, k: nat, n: nat): seq<Js> {
    Gathered(Extracted(pages), k, n)
  }

  /** A page that lets the loop go on: fetched, non-empty and not shorter than the limit. */
  predicate FullPage(pages: seq<Result<Js>>, k: nat, limit: int) {
    PageAt(pages, k).Ok? && |PageAt(pages, k).value| > 0 && |PageAt(pages, k).value| >= limit
  }

  /** A run preceded by pages that delivered `items` through the queries `reqs`. */
  function After(items: seq<Js>, reqs: seq<seq<(string, Js)>>, run: PageRun): PageRun {
    PageRun(if run.items.Ok? then Ok(items + run.items.value) else run.items, reqs + run.requests)
  }

  lemma AfterAfter(a: seq<Js>, r: seq<seq<(string, Js)>>, b: seq<Js>, s: seq<seq<(string, Js)>>, run: PageRun)
    ensures After(a, r, After(b, s, run)) == After(a + b, r + s, run)
  {
    assert r + (s + run.requests) == (r + s) + run.requests;
    if run.items.Ok? {
      assert a + (b + run.items.value) == (a + b) + run.items.value;
    }
  }

  /** One step of the loop: a failed, empty or short page ends it, a full page moves the offset on. */
  lemma PaginateStep(pages: seq<Result<Js>>, k: nat, offset: int, limit: int, o: PageOptions)
    ensures var page := PageAt(pages, k);
      var req := RequestParams(limit, offset, o);
      Paginate(pages, k, offset, limit, o) ==
        if page.Err? then PageRun(Err(page.error), [req])
        else if |page.value| == 0 || |page.value| < limit then PageRun(Ok(page.value), [req])
        else After(page.value, [req], Paginate(pages, k + 1, offset + |page.value|, limit, o))
  {
    var ps := Extracted(pages);
    ItemAt(pages, k);
    var page := PageAt(pages, k);
    if page.Ok? && |page.value| > 0 && |page.value| >= limit {
      RequestsCons(limit, offset, Loop(ps, k + 1, offset + |page.value|, limit).offsets, o);
    } else {
      RequestsCons(limit, offset, [], o);
    }
  }

  /**
   * The loop sends one request per page until a page fails, comes back
   * empty or comes back short; every page before that one was full.
   */
  lemma PaginateStops(pages: seq<Result<Js>>, k: nat, offset: int, limit: int, o: PageOptions)
    ensures var n := |Paginate(pages, k, offset, limit, o).requests|;
      && (forall j :: k <= j < k + n - 1 ==> FullPage(pages, j, limit))
      && !FullPage(pages, k + n - 1, limit)
  {
    var ps := Extracted(pages);
    var l := Loop(ps, k, offset, limit);
    var run := Paginate(pages, k, offset, limit, o);
    assert run == PageRun(l.items, Requests(limit, l.offsets, o));
    var n := |l.offsets|;
    assert |run.requests| == n;
    LoopStops(ps, k, offset, limit);
    forall j | k <= j < k + n - 1 ensures FullPage(pages, j, limit) {
      assert FullItem(ps, j, limit);
      FullItemAt(pages, j, limit);
    }
    assert !FullItem(ps, k + n - 1, limit);
    FullItemAt(pages, k + n - 1, limit);
    assert !FullPage(pages, k + |run.requests| - 1, limit);
  }

  /** A page of the loop's reading is full exactly when the response is. */
  lemma FullItemAt(pages: seq<Result<Js>>, j: nat, limit: int)
    ensures FullItem(Extracted(pages), j, limit) <==> FullPage(pages, j, limit)
  {
    ItemAt(pages, j);
  }

  /** Request `i` asks for the initial offset plus the number of items received before it. */
  lemma PaginateOffsets(pages: seq<Result<Js>>, k: nat, offset: int, limit: int, o: PageOptions)
    ensures var run := Paginate(pages, k, offset, limit, o);
      forall i :: 0 <= i < |run.requests| ==> run.requests[i] == RequestParams(limit, offset + |Collected(pages, k, i)|, o)
  {
    var ps := Extracted(pages);
    var l := Loop(ps, k, offset, limit);
    forall i | 0 <= i < |l.offsets| ensures l.offsets[i] == offset + |Collected(pages, k, i)| {
      LoopOffsetAt(ps, k, offset, limit, i);
    }
  }

  /** The result is every page's items concatenated in order, or the error of the page that failed. */
  lemma PaginateResult(pages: seq<Result<Js>>, k: nat, offset: int, limit: int, o: PageOptions)
    ensures var run := Paginate(pages, k, offset, limit, o);
      var last := PageAt(pages, k + |run.requests| - 1);
      && (run.items.Err? <==> last.Err?)
      && (run.items.Err? ==> run.items == last)
      && (run.items.Ok? ==> run.items.value == Collected(pages, k, |run.requests|))
  {
    PaginateFailure(pages, k, offset, limit, o);
    PaginateItems(pages, k, offset, limit, o);
  }

  /** The run fails exactly when its last page fails, with that page's error. */
  lemma PaginateFailure(pages: seq<Result<Js>>, k: nat, offset: int, limit: int, o: PageOptions)
    ensures var run := Paginate(pages, k, offset, limit, o);
      var last := PageAt(pages, k + |run.requests| - 1);
      && (run.items.Err? <==> last.Err?)
      && (run.items.Err? ==> run.items == last)
  {
    var ps := Extracted(pages);
    var l := Loop(ps, k, offset, limit);
    var run := Paginate(pages, k, offset, limit, o);
    assert run == PageRun(l.items, Requests(limit, l.offsets, o));
    LoopResult(ps, k, offset, limit);
    var j := k + |l.offsets| - 1;
    ItemAt(pages, j);
    assert j == k + |run.requests| - 1;
    ghost var last := Item(ps, j);
    assert last == PageAt(pages, j);
    assert run.items == l.items;
    assert l.items.Err? <==> last.Err?;
  }

  /** A run that succeeds returns the items of its pages, concatenated in order. */
  lemma PaginateItems(pages: seq<Result<Js>>, k: nat, offset: int, limit: int, o: PageOptions)
    ensures var run := Paginate(pages, k, offset, limit, o);
      run.items.Ok? ==> run.items.value == Collected(pages, k, |run.requests|)
  {
    var ps := Extracted(pages);
    var l := Loop(ps, k, offset, limit);
    assert Paginate(pages, k, offset, limit, o) == PageRun(l.items, Requests(limit, l.offsets, o));
    LoopResult(ps, k, offset, limit);
  }

  /** Three pages of 100, 100 and 37 items under the default limit: 237 items from three requests. */
  lemma PaginateExample(a: seq<Js>, b: seq<Js>, c: seq<Js>)
    requires |a| == 100 && |b| == 100 && |c| == 37
    ensures var run := Paginate([Ok(Arr(a)), Ok(Arr(b)), Ok(Arr(c))], 0, 0, DefaultPageSize, NoOptions);
      && run.items == Ok(a + b + c) && |run.items.value| == 237
      && run.requests == [RequestParams(100, 0, NoOptions), RequestParams(100, 100, NoOptions), RequestParams(100, 200, NoOptions)]
  {
    var pages := [Ok(Arr(a)), Ok(Arr(b)), Ok(Arr(c))];
    assert PageAt(pages, 0) == Ok(a) && PageAt(pages, 1) == Ok(b) && PageAt(pages, 2) == Ok(c);
    PaginateStep(pages, 2, 200, 100, NoOptions);
    var third := Paginate(pages, 2, 200, 100, NoOptions);
    assert third == PageRun(Ok(c), [RequestParams(100, 200, NoOptions)]);
    PaginateStep(pages, 1, 100, 100, NoOptions);
    var second := Paginate(pages, 1, 100, 100, NoOptions);
    assert second == PageRun(Ok(b + c), [RequestParams(100, 100, NoOptions)] + third.requests);
    PaginateStep(pages, 0, 0, 100, NoOptions);
    assert a + (b + c) == a + b + c;
  }

  /** The loop's step seen from the items and queries gathered so far. */
  lemma AfterStep(pages: seq<Result<Js>>, k: nat, offset: int, limit: int, o: PageOptions, items: seq<Js>, reqs: seq<seq<(string, Js)>>)
    ensures var page := PageAt(pages, k);
      var req := RequestParams(limit, offset, o);
      var run := After(items, reqs, Paginate(pages, k, offset, limit, o));
      && (page.Err? ==> run == PageRun(Err(page.error), reqs + [req]))
      && (page.Ok? && (|page.value| == 0 || |page.value| < limit) ==> run == PageRun(Ok(items + page.value), reqs + [req]))
      && (page.Ok? && |page.value| > 0 && |page.value| >= limit ==>
            k < |pages| && run == After(items + page.value, reqs + [req], Paginate(pages, k + 1, offset + |page.value|, limit, o)))
  {
    PaginateStep(pages, k, offset, limit, o);
    var page := PageAt(pages, k);
    var req := RequestParams(limit, offset, o);
    if page.Ok? && |page.value| > 0 && |page.value| >= limit {
      ItemAt(pages, k);
      AfterAfter(items, reqs, page.value, [req], Paginate(pages, k + 1, offset + |page.value|, limit, o));
    } else if page.Ok? && |page.value| == 0 {
      assert items + page.value == items;
    }
  }

  /** One request of the loop and the reading of its response: the items of page `k`, or the error. */
  method FetchPage(pages: seq<Result<Js>>, k: nat) returns (page: Result<seq<Js>>)
    ensures page == PageAt(pages, k)
  {
    var response := Response(pages, k);
    if response.Err? {
      return Err(response.error);
    }
    page := ExtractPage(response.value);
  }

  /**
   * `fetchAllPaginated(endpoint, options)` against the scripted responses
   * `pages`. Besides the items it returns the queries sent and the number
   * of 100 ms pauses taken between requests.
   */
  method FetchAllPaginated(pages: seq<Result<Js>>, o: PageOptions)
    returns (r: Result<seq<Js>>, requests: seq<seq<(string, Js)>>, pauses: nat)
    ensures PageRun(r, requests) == Paginate(pages, 0, InitialOffset(o), LimitOf(o), o)
    ensures pauses + 1 == |requests|
  {
    var limit := if o.limit.Some? then o.limit.value else DefaultPageSize;
    var currentOffset := if o.offset.Some? then o.offset.value else 0;
    var allItems: seq<Js> := [];
    var hasMore := true;
    var k: nat := 0;
    requests := [];
    pauses := 0;
    ghost var whole := Paginate(pages, 0, currentOffset, limit, o);
    assert whole == After([], [], whole) by {
      if whole.items.Ok? {
        assert [] + whole.items.value == whole.items.value;
      }
      assert [] + whole.requests == whole.requests;
    }
    while hasMore
      invariant k <= |pages| + 1 && (hasMore ==> k <= |pages|)
      invariant hasMore ==> pauses == |requests|
      invariant !hasMore ==> pauses + 1 == |requests|
      invariant hasMore ==> whole == After(allItems, requests, Paginate(pages, k, currentOffset, limit, o))
      invariant !hasMore ==> whole == PageRun(Ok(allItems), requests)
      decreases |pages| + 1 - k + (if hasMore then 1 else 0)
    {
      var params := RequestParams(limit, currentOffset, o);
      AfterStep(pages, k, currentOffset, limit, o, allItems, requests);
      requests := requests + [params];
      var page := FetchPage(pages, k);
      if page.Err? {
        r := Err(page.error);
        return;
      }
      var items := page.value;
      if |items| == 0 {
        assert allItems + items == allItems;
        hasMore := false;
      } else {
        allItems := allItems + items;
        currentOffset := currentOffset + |items|;
        if |items| < limit {
          hasMore := false;
        }
      }
      if hasMore {
        pauses := pauses + 1;
      }
      k := k + 1;
    }
    r := Ok(allItems);
  }

  // ---------------------------------------------------------------------
  // `getBoards`, `getColumns`, `getLanes`

  /** A one-shot request: endpoint and query to the parsed response, `Err` when the request is rejected. */
  type Api = (string, seq<(string, Js)>) -> Result<Js>

  /** `${parents}/${id}/${children}` */
  function ChildEndpoint(parents: string, id: Js, children: string): string {
    parents + "/" + ToText(id) + "/" + children
  }

  /** The request for one parent's children: `${parents}/${p.id}/${children}` with no query; reading `id` of a nullish parent throws. */
  function ChildRequest(p: Js, api: Api, parentKind: string, childKind: string): Result<Js>
    requires !IsNullish(p)
  {
    api(ChildEndpoint(parentKind, Prop(p, "id"), childKind), [])
  }

  /** `...v` as an argument list: arrays give their elements, strings their characters, anything else throws. */
  function Spread(v: Js): (r: Result<seq<Js>>)
    ensures r.Err? ==> r.error == TypeError
    ensures v.Arr? ==> r == Ok(v.items)
  {
    match v
    case Arr(items) => Ok(items)
    case Str(s) => Ok(seq(|s|, i requires 0 <= i < |s| => Str([s[i]])))
    case _ => Err(TypeError)
  }

  /**
   * What `push(...r.value)` collects over the parents: the children of
   * every parent whose request was fulfilled, in parent order; a nullish
   * parent or a response that cannot be spread throws.
   */
  function Children(parents: seq<Js>, api: Api, parentKind: string, childKind: string): (r: Result<seq<Js>>)
    ensures r.Err? ==> r.error == TypeError
  {
    if parents == [] then Ok([])
    else
      var p := parents[|parents| - 1];
      var init := Children(parents[..|parents| - 1], api, parentKind, childKind);
      if init.Err? || IsNullish(p) then Err(TypeError)
      else
        var response := ChildRequest(p, api, parentKind, childKind);
        if response.Err? then init
        else
          var xs := Spread(response.value);
          if xs.Err? then Err(TypeError) else Ok(init.value + xs.value)
  }

  /** A parent whose request succeeded with a response that cannot be spread. */
  predicate BadResponse(p: Js, api: Api, parentKind: string, childKind: string)
    requires !IsNullish(p)
  {
    var response := ChildRequest(p, api, parentKind, childKind);
    response.Ok? && Spread(response.value).Err?
  }

  /** Discovery fails exactly when some parent is nullish or some fulfilled response cannot be spread. */
  lemma {:induction false} ChildrenFails(parents: seq<Js>, api: Api, parentKind: string, childKind: string)
    ensures Children(parents, api, parentKind, childKind).Err? <==>
      exists i :: 0 <= i < |parents| && (IsNullish(parents[i]) || BadResponse(parents[i], api, parentKind, childKind))
  {
    if parents != [] {
      var init := parents[..|parents| - 1];
      ChildrenFails(init, api, parentKind, childKind);
      assert forall i :: 0 <= i < |init| ==> init[i] == parents[i];
      if exists i :: 0 <= i < |init| && (IsNullish(init[i]) || BadResponse(init[i], api, parentKind, childKind)) {
        var i :| 0 <= i < |init| && (IsNullish(init[i]) || BadResponse(init[i], api, parentKind, childKind));
        assert parents[i] == init[i];
      }
    }
  }

  /** Children of parents that all fail contribute nothing; the others contribute their whole arrays. */
  lemma ChildrenOfArrays(p: Js, q: Js, xs: seq<Js>, api: Api)
    requires !IsNullish(p) && !IsNullish(q)
    requires ChildRequest(p, api, "spaces", "boards").Err?
    requires ChildRequest(q, api, "spaces", "boards") == Ok(Arr(xs))
    ensures Children([p, q], api, "spaces", "boards") == Ok(xs)
    ensures Children([q, p], api, "spaces", "boards") == Ok(xs)
  {
    assert [p, q][..1] == [p] && [q, p][..1] == [q];
    assert [p][..0] == [] && [q][..0] == [];
    assert Children([p], api, "spaces", "boards") == Ok([]);
    assert Children([q], api, "spaces", "boards") == Ok(xs) by {
      assert [] + xs == xs;
    }
    assert xs + [] == xs;
  }

  lemma ChildrenSnoc(parents: seq<Js>, p: Js, api: Api, parentKind: string, childKind: string)
    ensures Children(parents + [p], api, parentKind, childKind) ==
      var init := Children(parents, api, parentKind, childKind);
      if init.Err? || IsNullish(p) then Err(TypeError)
      else
        var response := ChildRequest(p, api, parentKind, childKind);
        if response.Err? then init
        else if Spread(response.value).Err? then Err(TypeError)
        else Ok(init.value + Spread(response.value).value)
  {
    assert (parents + [p])[..|parents|] == parents;
  }

  lemma ChildrenErrStays(parents: seq<Js>, more: seq<Js>, api: Api, parentKind: string, childKind: string)
    requires Children(parents, api, parentKind, childKind).Err?
    ensures Children(parents + more, api, parentKind, childKind).Err?
  {
    ChildrenFails(parents, api, parentKind, childKind);
    ChildrenFails(parents + more, api, parentKind, childKind);
    var i :| 0 <= i < |parents| && (IsNullish(parents[i]) || BadResponse(parents[i], api, parentKind, childKind));
    assert (parents + more)[i] == parents[i];
  }

  const DiscoveryChunk: nat := 5

  /**
   * One chunk `parents[i..end]` of the discovery loop: the ids are read
   * while the requests are built (a nullish parent throws), the requests
   * settle, and each fulfilled response is spread onto the result.
   */
  method SettleChunk(parents: seq<Js>, i: nat, end: nat, all: seq<Js>, api: Api, parentKind: string, childKind: string)
    returns (r: Result<seq<Js>>)
    requires i < end <= |parents|
    requires Children(parents[..i], api, parentKind, childKind) == Ok(all)
    ensures r.Ok? ==> r == Children(parents[..end], api, parentKind, childKind)
    ensures r.Err? ==> r == Children(parents, api, parentKind, childKind)
  {
    var j := i;
    while j < end
      invariant i <= j <= end
      invariant forall m :: i <= m < j ==> !IsNullish(parents[m])
    {
      if IsNullish(parents[j]) {
        NullishParentFails(parents, j, api, parentKind, childKind);
        return Err(TypeError);
      }
      j := j + 1;
    }
    var chunk := parents[i..end];
    var results: seq<Result<Js>> := [];
    j := 0;
    while j < |chunk|
      invariant 0 <= j <= |chunk| && |results| == j
      invariant forall m :: 0 <= m < |chunk| ==> !IsNullish(chunk[m])
      invariant forall m :: 0 <= m < j ==> results[m] == ChildRequest(chunk[m], api, parentKind, childKind)
    {
      results := results + [ChildRequest(chunk[j], api, parentKind, childKind)];
      j := j + 1;
    }
    r := PushSettled(parents[..i], chunk, all, results, api, parentKind, childKind);
    Seqs.SliceJoin(parents, i, end);
    if r.Err? {
      ChildrenErrStays(parents[..end], parents[end..], api, parentKind, childKind);
    }
  }

  /**
   * `results.forEach(r => { if (r.status === 'fulfilled') all.push(...r.value) })`
   * for one chunk, after the children of the parents before it.
   */
  method PushSettled(before: seq<Js>, chunk: seq<Js>, all: seq<Js>, results: seq<Result<Js>>, api: Api, parentKind: string, childKind: string)
    returns (r: Result<seq<Js>>)
    requires |results| == |chunk|
    requires Children(before, api, parentKind, childKind) == Ok(all)
    requires forall m :: 0 <= m < |chunk| ==> !IsNullish(chunk[m])
    requires forall m :: 0 <= m < |chunk| ==> results[m] == ChildRequest(chunk[m], api, parentKind, childKind)
    ensures r == Children(before + chunk, api, parentKind, childKind)
  {
    var acc := all;
    var m := 0;
    assert before + chunk[..0] == before;
    while m < |chunk|
      invariant 0 <= m <= |chunk|
      invariant Children(before + chunk[..m], api, parentKind, childKind) == Ok(acc)
    {
      var result := results[m];
      PushStep(before, chunk, m, acc, result, api, parentKind, childKind);
      if result.Ok? {
        var xs := Spread(result.value);
        if xs.Err? {
          return Err(TypeError);
        }
        acc := acc + xs.value;
      }
      m := m + 1;
    }
    assert chunk[..m] == chunk;
    r := Ok(acc);
  }

  /** One settled request of a chunk: a rejected one adds nothing, a fulfilled one its spread response or the error. */
  lemma PushStep(before: seq<Js>, chunk: seq<Js>, m: nat, acc: seq<Js>, result: Result<Js>, api: Api, parentKind: string, childKind: string)
    requires m < |chunk| && !IsNullish(chunk[m])
    requires Children(before + chunk[..m], api, parentKind, childKind) == Ok(acc)
    requires result == ChildRequest(chunk[m], api, parentKind, childKind)
    ensures result.Err? ==> Children(before + chunk[..m + 1], api, parentKind, childKind) == Ok(acc)
    ensures result.Ok? && Spread(result.value).Ok? ==>
      Children(before + chunk[..m + 1], api, parentKind, childKind) == Ok(acc + Spread(result.value).value)
    ensures result.Ok? && Spread(result.value).Err? ==> Children(before + chunk, api, parentKind, childKind) == Err(TypeError)
  {
    Seqs.ConcatPrefixStep(before, chunk, m);
    ChildrenSnoc(before + chunk[..m], chunk[m], api, parentKind, childKind);
    if result.Ok? && Spread(result.value).Err? {
      ChildrenErrStays(before + chunk[..m + 1], chunk[m + 1..], api, parentKind, childKind);
      Seqs.ConcatPrefixRest(before, chunk, m + 1);
    }
  }

  /**
   * The chunked discovery loop of `getBoards`/`getColumns`/`getLanes`:
   * parents are taken five at a time, each chunk's requests settled
   * together, and the fulfilled responses spread into the result in
   * parent order. `rounds` counts the chunks.
   */
  method DiscoverChildren(parents: seq<Js>, api: Api, parentKind: string, childKind: string)
    returns (r: Result<seq<Js>>, rounds: nat)
    ensures r == Children(parents, api, parentKind, childKind)
    ensures r.Ok? ==> rounds == |Seqs.Chunks(parents, DiscoveryChunk)|
  {
    var all: seq<Js> := [];
    var i := 0;
    rounds := 0;
    assert parents[..0] == [];
    while i < |parents|
      invariant 0 <= i <= |parents|
      invariant Children(parents[..i], api, parentKind, childKind) == Ok(all)
      invariant rounds * DiscoveryChunk == i
      decreases |parents| - i
    {
      var end := if i + DiscoveryChunk < |parents| then i + DiscoveryChunk else |parents|;
      var settled := SettleChunk(parents, i, end, all, api, parentKind, childKind);
      if settled.Err? {
        return settled, rounds;
      }
      all := settled.value;
      if end == |parents| {
        Seqs.ChunksCountExact(parents, DiscoveryChunk, rounds);
        assert parents[..end] == parents;
        return Ok(all), rounds + 1;
      }
      rounds := rounds + 1;
      i := end;
    }
    Seqs.ChunksCountExact(parents, DiscoveryChunk, rounds);
    assert parents[..i] == parents;
    r := Ok(all);
  }

  lemma NullishParentFails(parents: seq<Js>, k: nat, api: Api, parentKind: string, childKind: string)
    requires k < |parents| && IsNullish(parents[k])
    ensures Children(parents, api, parentKind, childKind).Err?
  {
    ChildrenFails(parents, api, parentKind, childKind);
  }

  /** `getBoards()`: the spaces, then their boards. */
  method GetBoards(spacePages: seq<Result<Js>>, api: Api) returns (r: Result<seq<Js>>)
    ensures r == BoardsOf(spacePages, api)
  {
    var spaces, requests, pauses := FetchAllPaginated(spacePages, NoOptions);
    if spaces.Err? {
      return Err(spaces.error);
    }
    var rounds;
    r, rounds := DiscoverChildren(spaces.value, api, "spaces", "boards");
  }

  function BoardsOf(spacePages: seq<Result<Js>>, api: Api): Result<seq<Js>> {
    var spaces :- Paginate(spacePages, 0, 0, DefaultPageSize, NoOptions).items;
    Children(spaces, api, "spaces", "boards")
  }

  /** `getColumns()`: every board's columns, the boards discovered afresh. */
  method GetColumns(spacePages: seq<Result<Js>>, api: Api) returns (r: Result<seq<Js>>)
    ensures r == ChildrenOfBoards(spacePages, api, "columns")
  {
    var boards := GetBoards(spacePages, api);
    if boards.Err? {
      return Err(boards.error);
    }
    var rounds;
    r, rounds := DiscoverChildren(boards.value, api, "boards", "columns");
  }

  /** `getLanes()`: every board's lanes. */
  method GetLanes(spacePages: seq<Result<Js>>, api: Api) returns (r: Result<seq<Js>>)
    ensures r == ChildrenOfBoards(spacePages, api, "lanes")
  {
    var boards := GetBoards(spacePages, api);
    if boards.Err? {
      return Err(boards.error);
    }
    var rounds;
    r, rounds := DiscoverChildren(boards.value, api, "boards", "lanes");
  }

  function ChildrenOfBoards(spacePages: seq<Result<Js>>, api: Api, childKind: string): Result<seq<Js>> {
    var boards :- BoardsOf(spacePages, api);
    Children(boards, api, "boards", childKind)
  }

  // ---------------------------------------------------------------------
  // `getAllSpaceMembers`

  /** The ids of the users, `u.id` each. */
  function Ids(users: seq<Js>): (r: seq<Js>)
    ensures |r| == |users| && forall i :: 0 <= i < |users| ==> r[i] == Prop(users[i], "id")
  {
    if users == [] then [] else Ids(users[..|users| - 1]) + [Prop(users[|users| - 1], "id")]
  }

  /** The position of the user with this id, or -1. */
  function IdIndex(users: seq<Js>, id: Js): (r: int)
    ensures -1 <= r < |users|
    ensures r >= 0 ==> Prop(users[r], "id") == id
    ensures r == -1 <==> id !in Ids(users)
  {
    if users == [] then -1
    else if Prop(users[|users| - 1], "id") == id then |users| - 1
    else
      var j := IdIndex(users[..|users| - 1], id);
      assert Ids(users) == Ids(users[..|users| - 1]) + [Prop(users[|users| - 1], "id")];
      j
  }

  /** `usersMap.set(u.id, u)` on a map whose values, in insertion order, are `users`. */
  function SetById(users: seq<Js>, u: Js): (r: seq<Js>) {
    var j := IdIndex(users, Prop(u, "id"));
    if j == -1 then users + [u] else users[j := u]
  }

  /** `users.forEach(u => usersMap.set(u.id, u))` starting from an empty map, as `Array.from(usersMap.values())`. */
  function MergeById(users: seq<Js>): seq<Js> {
    if users == [] then [] else SetById(MergeById(users[..|users| - 1]), users[|users| - 1])
  }

  /** The last of the users with this id, `undefined` if there is none. */
  function LastWithId(users: seq<Js>, id: Js): Js {
    if users == [] then Undefined
    else if Prop(users[|users| - 1], "id") == id then users[|users| - 1]
    else LastWithId(users[..|users| - 1], id)
  }

  lemma MergeByIdSnoc(users: seq<Js>, u: Js)
    ensures MergeById(users + [u]) == SetById(MergeById(users), u)
    ensures LastWithId(users + [u], Prop(u, "id")) == u
    ensures forall id :: id != Prop(u, "id") ==> LastWithId(users + [u], id) == LastWithId(users, id)
  {
    assert (users + [u])[..|users|] == users;
  }

  lemma MergeByIdStep(done: seq<Js>, users: seq<Js>, k: nat)
    requires k < |users|
    ensures MergeById(done + users[..k + 1]) == SetById(MergeById(done + users[..k]), users[k])
  {
    assert done + users[..k + 1] == (done + users[..k]) + [users[k]];
    MergeByIdSnoc(done + users[..k], users[k]);
  }

  /** `Map.set` keeps the position of a known key and appends a new one. */
  lemma SetByIdIds(m: seq<Js>, u: Js)
    ensures Ids(SetById(m, u)) == Seqs.AddAll(Ids(m), [Prop(u, "id")])
  {
    var id := Prop(u, "id");
    var j := IdIndex(m, id);
    assert Seqs.AddAll(Ids(m), [id]) == Seqs.AddAll(if id in Ids(m) then Ids(m) else Ids(m) + [id], []);
    if j == -1 {
      assert Ids(m + [u]) == Ids(m) + [id];
    } else {
      assert Ids(m[j := u]) == Ids(m);
    }
  }

  /** The merged users' ids are the distinct ids in order of first occurrence. */
  lemma {:induction false} MergeByIdIds(users: seq<Js>)
    ensures Ids(MergeById(users)) == Seqs.Distinct(Ids(users))
  {
    if users != [] {
      var init := users[..|users| - 1];
      var u := users[|users| - 1];
      assert users == init + [u];
      MergeByIdSnoc(init, u);
      MergeByIdIds(init);
      SetByIdIds(MergeById(init), u);
      assert Ids(users) == Ids(init) + [Prop(u, "id")];
      Seqs.AddAllSnoc([], Ids(init), Prop(u, "id"));
    }
  }

  /** No id appears twice among the merged users, and every id of the input appears. */
  lemma MergeIdsDistinct(users: seq<Js>)
    ensures Seqs.NoDup(Ids(MergeById(users)))
    ensures forall id :: id in Ids(MergeById(users)) <==> id in Ids(users)
  {
    MergeByIdIds(users);
    Seqs.DistinctProperties(Ids(users));
  }

  /** Each merged user is the last record with its id: later records win. */
  lemma {:induction false} MergeByIdValues(users: seq<Js>)
    ensures forall i :: 0 <= i < |MergeById(users)| ==> MergeById(users)[i] == LastWithId(users, Prop(MergeById(users)[i], "id"))
  {
    if users != [] {
      var init := users[..|users| - 1];
      var u := users[|users| - 1];
      assert users == init + [u];
      var m := MergeById(init);
      MergeByIdSnoc(init, u);
      MergeByIdValues(init);
      MergeIdsDistinct(init);
      var id := Prop(u, "id");
      var j := IdIndex(m, id);
      var m' := SetById(m, u);
      forall i | 0 <= i < |m'| ensures m'[i] == LastWithId(users, Prop(m'[i], "id")) {
        if i < |m| && i != j {
          assert m'[i] == m[i];
          assert Ids(m)[i] == Prop(m[i], "id");
          if j == -1 {
            assert Prop(m[i], "id") != id;
          } else {
            assert Ids(m)[j] == id;
            assert Prop(m[i], "id") != id;
          }
        } else {
          assert m'[i] == u;
        }
      }
    }
  }

  /** A purely inactive record wins over an active record with the same id. */
  lemma InactiveReplacesActive(a: Js, b: Js)
    requires Prop(a, "id") == Prop(b, "id")
    ensures MergeById([a] + [b]) == [b]
  {
    MergeByIdSnoc([], a);
    MergeByIdSnoc([a], b);
    assert [] + [a] == [a];
    assert MergeById([a]) == [a];
    assert IdIndex([a], Prop(b, "id")) == 0;
  }

  /** No element is `null` or `undefined`; stated recursively so that the quantified form is used only on request. */
  predicate NoNullish(xs: seq<Js>) {
    xs == [] || (!IsNullish(xs[|xs| - 1]) && NoNullish(xs[..|xs| - 1]))
  }

  lemma {:induction false} NoNullishIff(xs: seq<Js>)
    ensures NoNullish(xs) <==> forall i :: 0 <= i < |xs| ==> !IsNullish(xs[i])
  {
    if xs != [] {
      var init := xs[..|xs| - 1];
      NoNullishIff(init);
      assert forall i :: 0 <= i < |init| ==> init[i] == xs[i];
    }
  }

  lemma NoNullishAppend(a: seq<Js>, b: seq<Js>)
    ensures NoNullish(a + b) <==> NoNullish(a) && NoNullish(b)
  {
    NoNullishIff(a);
    NoNullishIff(b);
    NoNullishIff(a + b);
    assert forall i :: 0 <= i < |a| ==> (a + b)[i] == a[i];
    assert forall i :: 0 <= i < |b| ==> (a + b)[|a| + i] == b[i];
  }

  /** The one user merge of a space: both responses must be arrays without nullish elements. */
  function MergeSpec(active: Js, inactive: Js): (r: Result<seq<Js>>)
    ensures r.Err? ==> r.error == TypeError
    ensures r.Ok? <==> active.Arr? && inactive.Arr? && NoNullish(active.items) && NoNullish(inactive.items)
  {
    if active.Arr? && inactive.Arr? then
      NoNullishAppend(active.items, inactive.items);
      if NoNullish(active.items + inactive.items) then Ok(MergeById(active.items + inactive.items))
      else Err(TypeError)
    else Err(TypeError)
  }

  /** `users.forEach(u => usersMap.set(u.id, u))` on a map that already holds `done`. */
  method AddUsers(merged: seq<Js>, done: seq<Js>, users: seq<Js>) returns (r: Result<seq<Js>>)
    requires merged == MergeById(done)
    ensures r.Ok? <==> NoNullish(users)
    ensures r.Ok? ==> r.value == MergeById(done + users)
    ensures r.Err? ==> r.error == TypeError
  {
    var m := merged;
    var k := 0;
    assert done + users[..0] == done;
    while k < |users|
      invariant 0 <= k <= |users|
      invariant m == MergeById(done + users[..k])
      invariant NoNullish(users[..k])
    {
      if IsNullish(users[k]) {
        NoNullishIff(users);
        return Err(TypeError);
      }
      assert users[..k + 1][..k] == users[..k];
      MergeByIdStep(done, users, k);
      m := SetById(m, users[k]);
      k := k + 1;
    }
    assert users[..k] == users;
    r := Ok(m);
  }

  /** The `Map` update loops of one space: active users first, then inactive ones. */
  method MergeSpaceUsers(active: Js, inactive: Js) returns (r: Result<seq<Js>>)
    ensures r == MergeSpec(active, inactive)
  {
    if !active.Arr? {
      return Err(TypeError);
    }
    var first := AddUsers([], [], active.items);
    if first.Err? {
      return first;
    }
    if !inactive.Arr? {
      return Err(TypeError);
    }
    assert [] + active.items == active.items;
    r := AddUsers(first.value, active.items, inactive.items);
    NoNullishAppend(active.items, inactive.items);
  }

  /** `{ spaceId, users }` */
  datatype SpaceMembers = SpaceMembers(spaceId: Js, users: seq<Js>)

  function UsersEndpoint(space: Js): string { "spaces/" + ToText(Prop(space, "id")) + "/users" }

  const ActiveQuery: seq<(string, Js)> := [("include_inherited_access", Str("true"))]
  const InactiveQuery: seq<(string, Js)> := [("include_inherited_access", Str("true")), ("inactive", Str("true"))]

  /** The members of one space, `None` when its promise rejects. */
  function MembersOfSpace(space: Js, api: Api): Option<SpaceMembers> {
    var active := api(UsersEndpoint(space), ActiveQuery);
    var inactive := api(UsersEndpoint(space), InactiveQuery);
    if active.Err? || inactive.Err? then None
    else
      var merged := MergeSpec(active.value, inactive.value);
      if merged.Err? then None else Some(SpaceMembers(Prop(space, "id"), merged.value))
  }

  /** The members of every space whose requests and merge succeeded, in space order. */
  function AllMembers(spaces: seq<Js>, api: Api): seq<SpaceMembers> {
    if spaces == [] then []
    else
      var m := MembersOfSpace(spaces[|spaces| - 1], api);
      AllMembers(spaces[..|spaces| - 1], api) + (if m.Some? then [m.value] else [])
  }

  const MembersChunk: nat := 2

  /** `getAllSpaceMembers` pauses once between consecutive chunks of two spaces. */
  lemma {:induction false} PausesBetweenChunks(spaces: seq<Js>)
    requires spaces != []
    ensures (|spaces| - 1) / 2 == |Seqs.Chunks(spaces, MembersChunk)| - 1
    decreases |spaces|
  {
    if |spaces| > MembersChunk {
      PausesBetweenChunks(spaces[MembersChunk..]);
    }
  }

  /** `getSpaces()` with no options. */
  function SpacesOf(spacePages: seq<Result<Js>>): Result<seq<Js>> {
    Paginate(spacePages, 0, 0, DefaultPageSize, NoOptions).items
  }

  /** One chunk of spaces: `chunk.map(s => s.id)` throws on a nullish space before any request is made. */
  method SpaceChunk(spaces: seq<Js>, i: nat, end: nat, all: seq<SpaceMembers>, api: Api)
    returns (r: Result<seq<SpaceMembers>>)
    requires i <= end <= |spaces|
    requires all == AllMembers(spaces[..i], api) && NoNullish(spaces[..i])
    ensures r.Err? ==> !NoNullish(spaces)
    ensures r.Ok? ==> r.value == AllMembers(spaces[..end], api) && NoNullish(spaces[..end])
  {
    var chunk := spaces[i..end];
    var j := 0;
    assert spaces[..i] + chunk[..0] == spaces[..i];
    while j < |chunk|
      invariant 0 <= j <= |chunk|
      invariant NoNullish(spaces[..i] + chunk[..j])
    {
      if IsNullish(chunk[j]) {
        NoNullishIff(spaces);
        assert spaces[i + j] == chunk[j];
        return Err(TypeError);
      }
      NoNullishStep(spaces[..i], chunk, j);
      j := j + 1;
    }
    var members := MembersChunkOf(spaces[..i], chunk, all, api);
    Seqs.SliceJoin(spaces, i, end);
    assert chunk[..j] == chunk;
    r := Ok(members);
  }

  /** One more space of the chunk that is not nullish. */
  lemma NoNullishStep(before: seq<Js>, chunk: seq<Js>, j: nat)
    requires j < |chunk| && NoNullish(before + chunk[..j]) && !IsNullish(chunk[j])
    ensures NoNullish(before + chunk[..j + 1])
  {
    var done := before + chunk[..j];
    Seqs.ConcatPrefixStep(before, chunk, j);
    assert (done + [chunk[j]])[..|done|] == done;
  }

  /** One chunk of spaces, after the members of the spaces before it: each space's two requests and merge; a failed space is skipped. */
  method MembersChunkOf(before: seq<Js>, chunk: seq<Js>, all: seq<SpaceMembers>, api: Api)
    returns (r: seq<SpaceMembers>)
    requires all == AllMembers(before, api)
    ensures r == AllMembers(before + chunk, api)
  {
    r := all;
    var j := 0;
    assert before + chunk[..0] == before;
    while j < |chunk|
      invariant 0 <= j <= |chunk|
      invariant r == AllMembers(before + chunk[..j], api)
    {
      r := PushSpaceMembers(before, chunk, j, r, api);
      j := j + 1;
    }
    assert chunk[..j] == chunk;
  }

  /** Space `j` of the chunk: its members are fetched and pushed when the requests and the merge succeed. */
  method PushSpaceMembers(before: seq<Js>, chunk: seq<Js>, j: nat, acc: seq<SpaceMembers>, api: Api)
    returns (r: seq<SpaceMembers>)
    requires j < |chunk| && acc == AllMembers(before + chunk[..j], api)
    ensures r == AllMembers(before + chunk[..j + 1], api)
  {
    var m := FetchSpaceMembers(chunk[j], api);
    AllMembersStep(before, chunk, j, api, m);
    r := acc;
    if m.Some? {
      r := r + [m.value];
    }
  }

  /** One more space of the chunk: its members are appended when its requests and merge succeed. */
  lemma AllMembersStep(before: seq<Js>, chunk: seq<Js>, j: nat, api: Api, m: Option<SpaceMembers>)
    requires j < |chunk| && m == MembersOfSpace(chunk[j], api)
    ensures AllMembers(before + chunk[..j + 1], api) == AllMembers(before + chunk[..j], api) + (if m.Some? then [m.value] else [])
  {
    var done := before + chunk[..j];
    Seqs.ConcatPrefixStep(before, chunk, j);
    assert (done + [chunk[j]])[..|done|] == done;
  }

  /** One space of a chunk: its active and inactive users, merged; `None` when either request or the merge fails. */
  method FetchSpaceMembers(space: Js, api: Api) returns (m: Option<SpaceMembers>)
    ensures m == MembersOfSpace(space, api)
  {
    var active := api(UsersEndpoint(space), ActiveQuery);
    var inactive := api(UsersEndpoint(space), InactiveQuery);
    if active.Err? || inactive.Err? {
      return None;
    }
    var merged := MergeSpaceUsers(active.value, inactive.value);
    if merged.Err? {
      return None;
    }
    m := Some(SpaceMembers(Prop(space, "id"), merged.value));
  }

  /**
   * `getAllSpaceMembers()`: the spaces two at a time, each space's two
   * user lists merged, failed spaces skipped, a pause after every chunk
   * but the last. A nullish space throws while the chunk's ids are logged.
   */
  method GetAllSpaceMembers(spacePages: seq<Result<Js>>, api: Api)
    returns (r: Result<seq<SpaceMembers>>, pauses: nat)
    ensures r.Err? <==> SpacesOf(spacePages).Err? || !NoNullish(SpacesOf(spacePages).value)
    ensures r.Ok? ==> r.value == AllMembers(SpacesOf(spacePages).value, api)
    ensures r.Ok? ==> pauses == (if SpacesOf(spacePages).value == [] then 0 else (|SpacesOf(spacePages).value| - 1) / 2)
  {
    var fetched, requests, listPauses := FetchAllPaginated(spacePages, NoOptions);
    assert fetched == SpacesOf(spacePages);
    if fetched.Err? {
      return Err(fetched.error), 0;
    }
    r, pauses := MembersBySpace(fetched.value, api);
  }

  /** The chunk loop of `getAllSpaceMembers` over the fetched spaces. */
  method MembersBySpace(spaces: seq<Js>, api: Api) returns (r: Result<seq<SpaceMembers>>, pauses: nat)
    ensures r.Err? <==> !NoNullish(spaces)
    ensures r.Ok? ==> r.value == AllMembers(spaces, api)
    ensures r.Ok? ==> pauses == (if spaces == [] then 0 else (|spaces| - 1) / 2)
  {
    var all: seq<SpaceMembers> := [];
    var i := 0;
    pauses := 0;
    assert spaces[..0] == [];
    while i < |spaces|
      invariant 0 <= i <= |spaces|
      invariant i == 2 * pauses && (i < |spaces| || i == 0)
      invariant all == AllMembers(spaces[..i], api)
      invariant NoNullish(spaces[..i])
      decreases |spaces| - i
    {
      var end := if i + MembersChunk < |spaces| then i + MembersChunk else |spaces|;
      var chunk := SpaceChunk(spaces, i, end, all, api);
      if chunk.Err? {
        return Err(TypeError), pauses;
      }
      all := chunk.value;
      if end == |spaces| {
        assert spaces[..end] == spaces;
        assert |spaces| - 1 == 2 * pauses || |spaces| - 1 == 2 * pauses + 1;
        return Ok(all), pauses;
      }
      pauses := pauses + 1;
      i := end;
    }
    assert spaces[..i] == spaces;
    r := Ok(all);
  }
}
