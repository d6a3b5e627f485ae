/** The NRQL service (src/services/new-relic-nrql-service.ts): extraction of
    the NRQL queries embedded in a dashboard's widgets, and the
    failure-tolerant aggregation over all dashboards of a service. */
module NrqlService {
  import opened Wrappers

  /** The `nrqlQueries` field of a widget's raw configuration: absent (or
      otherwise falsy), present but not an array, or an array whose elements'
      `query` texts are listed. */
  datatype NrqlQueriesField = Missing | NotAnArray | QueryArray(queries: seq<string>)

  datatype Widget = Widget(title: string, nrqlQueries: NrqlQueriesField)

  datatype Page = Page(widgets: seq<Widget>)

  datatype DashboardDetails = DashboardDetails(guid: string, name: string, pages: seq<Page>)

  /** One extracted query, tagged with where it was found. */
  datatype NrqlQuery = NrqlQuery(query: string, widgetName: string, dashboardName: string, dashboardGuid: string)

  /** The lists of the elements of `xs` concatenated in order, as `.flat()`
      over a `.map()` does; every level of the extraction and the
      aggregation over dashboards is one of these. */
  function Flatten<T>(xs: seq<T>, lists: T -> seq<NrqlQuery>): seq<NrqlQuery>
  {
    if xs == [] then [] else Flatten(xs[..|xs| - 1], lists) + lists(xs[|xs| - 1])
  }

  lemma {:induction false} FlattenAppend<T>(a: seq<T>, b: seq<T>, lists: T -> seq<NrqlQuery>)
    ensures Flatten(a + b, lists) == Flatten(a, lists) + Flatten(b, lists)
    decreases |b|
  {
    if b == [] {
      assert a + b == a;
    } else {
      assert (a + b)[..|a + b| - 1] == a + b[..|b| - 1];
      assert (a + b)[|a + b| - 1] == b[|b| - 1];
      FlattenAppend(a, b[..|b| - 1], lists);
    }
  }

  /** One element's list sits between those of its neighbours. */
  lemma FlattenAround<T>(a: seq<T>, x: T, b: seq<T>, lists: T -> seq<NrqlQuery>)
    ensures Flatten(a + [x] + b, lists) == Flatten(a, lists) + lists(x) + Flatten(b, lists)
  {
    var ax := a + [x];
    FlattenAppend(ax, b, lists);
    assert ax[..|ax| - 1] == a && ax[|ax| - 1] == x;
  }

  /** An element with an empty list leaves the others' contributions as they are. */
  lemma FlattenSkipsEmpty<T>(a: seq<T>, x: T, b: seq<T>, lists: T -> seq<NrqlQuery>)
    requires lists(x) == []
    ensures Flatten(a + [x] + b, lists) == Flatten(a, lists) + Flatten(b, lists)
  {
    FlattenAround(a, x, b, lists);
    assert Flatten(a, lists) + lists(x) == Flatten(a, lists);
  }

  /** Reordering the elements does not change the multiset of flattened entries. */
  lemma {:induction false} FlattenOrderIrrelevant<T>(xs: seq<T>, ys: seq<T>, lists: T -> seq<NrqlQuery>)
    requires multiset(xs) == multiset(ys)
    ensures multiset(Flatten(xs, lists)) == multiset(Flatten(ys, lists))
    decreases |xs|
  {
    if xs == [] {
      assert ys == [] by { assert |ys| == |multiset(ys)| == 0; }
    } else {
      var x := xs[|xs| - 1];
      var init := xs[..|xs| - 1];
      var i := IndexOf(ys, x);
      var pre, post := ys[..i], ys[i + 1..];
      RemoveAt(xs, ys, i);
      FlattenOrderIrrelevant(init, pre + post, lists);
      FlattenAround(pre, x, post, lists);
      FlattenAppend(pre, post, lists);
    }
  }

  /** Some position of `ys` holds `x`. */
  lemma IndexOf<T>(ys: seq<T>, x: T) returns (i: nat)
    requires x in multiset(ys)
    ensures i < |ys| && ys[i] == x
  {
    i :| 0 <= i < |ys| && ys[i] == x;
  }

  /** Taking the last element off `xs` and the same element at `i` off `ys`
      keeps the two multisets equal. */
  lemma RemoveAt<T>(xs: seq<T>, ys: seq<T>, i: nat)
    requires xs != [] && i < |ys| && ys[i] == xs[|xs| - 1] && multiset(xs) == multiset(ys)
    ensures ys == ys[..i] + [ys[i]] + ys[i + 1..]
    ensures multiset(xs[..|xs| - 1]) == multiset(ys[..i] + ys[i + 1..])
  {
    var x, init, rest := ys[i], xs[..|xs| - 1], ys[..i] + ys[i + 1..];
    assert xs == init + [x];
    assert ys == ys[..i] + [x] + ys[i + 1..];
    assert multiset(xs) == multiset(init) + multiset{x};
    assert multiset(ys) == multiset(rest) + multiset{x};
    assert multiset(init) == (multiset(init) + multiset{x}) - multiset{x};
    assert multiset(rest) == (multiset(rest) + multiset{x}) - multiset{x};
  }

  /** An entry is flattened exactly when some element's list holds it. */
  lemma {:induction false} FlattenMembership<T>(xs: seq<T>, lists: T -> seq<NrqlQuery>, e: NrqlQuery)
    ensures e in Flatten(xs, lists) <==> exists i :: 0 <= i < |xs| && e in lists(xs[i])
    decreases |xs|
  {
    if xs != [] {
      var init := xs[..|xs| - 1];
      FlattenMembership(init, lists, e);
      forall i | 0 <= i < |init|
        ensures init[i] == xs[i]
      {
      }
    }
  }

  function Entry(d: DashboardDetails, w: Widget, query: string): NrqlQuery
  {
    NrqlQuery(query, w.title, d.name, d.guid)
  }

  /** The entries for a list of query texts found in widget `w`. */
  function EntriesOf(d: DashboardDetails, w: Widget, qs: seq<string>): (r: seq<NrqlQuery>)
    ensures |r| == |qs|
  {
    if qs == [] then [] else EntriesOf(d, w, qs[..|qs| - 1]) + [Entry(d, w, qs[|qs| - 1])]
  }

  /** The entries of one widget, in the order of its query array. */
  function WidgetQueries(d: DashboardDetails, w: Widget): seq<NrqlQuery>
  {
    match w.nrqlQueries
    case QueryArray(qs) => EntriesOf(d, w, qs)
    case _ => []
  }

  /** The entries of a page's widgets, in widget order. */
  function WidgetsQueries(d: DashboardDetails, ws: seq<Widget>): seq<NrqlQuery>
  {
    Flatten(ws, w => WidgetQueries(d, w))
  }

  /** The entries of the pages, in page order. */
  function PagesQueries(d: DashboardDetails, ps: seq<Page>): seq<NrqlQuery>
  {
    Flatten(ps, (p: Page) => WidgetsQueries(d, p.widgets))
  }

  /** Everything extracted from a dashboard: page order, then widget order,
      then query order. */
  function Extraction(d: DashboardDetails): seq<NrqlQuery>
  {
    PagesQueries(d, d.pages)
  }

  lemma PagesQueriesStep(d: DashboardDetails, ps: seq<Page>, i: nat)
    requires i < |ps|
    ensures PagesQueries(d, ps[..i + 1]) == PagesQueries(d, ps[..i]) + WidgetsQueries(d, ps[i].widgets)
  {
    assert ps[..i + 1][..i] == ps[..i];
  }

  lemma WidgetsQueriesStep(d: DashboardDetails, start: seq<NrqlQuery>, ws: seq<Widget>, j: nat)
    requires j < |ws|
    ensures start + WidgetsQueries(d, ws[..j]) + WidgetQueries(d, ws[j]) == start + WidgetsQueries(d, ws[..j + 1])
  {
    assert ws[..j + 1][..j] == ws[..j];
  }

  lemma EntriesOfStep(d: DashboardDetails, w: Widget, qs: seq<string>, k: nat)
    requires k < |qs|
    ensures EntriesOf(d, w, qs[..k + 1]) == EntriesOf(d, w, qs[..k]) + [Entry(d, w, qs[k])]
  {
    assert qs[..k + 1][..k] == qs[..k];
  }

  /** The body of the middle loop of `extractNrqlsFromDashboard`: when a
      widget's `nrqlQueries` is an array, push one entry per element (the
      innermost loop); otherwise push nothing. */
  method PushWidgetQueries(d: DashboardDetails, widget: Widget, start: seq<NrqlQuery>)
    returns (nrqlQueries: seq<NrqlQuery>)
    ensures nrqlQueries == start + WidgetQueries(d, widget)
  {
    nrqlQueries := start;
    if widget.nrqlQueries.QueryArray? {
      var qs := widget.nrqlQueries.queries;
      var k := 0;
      while k < |qs|
        invariant 0 <= k <= |qs|
        invariant nrqlQueries == start + EntriesOf(d, widget, qs[..k])
      {
        EntriesOfStep(d, widget, qs, k);
        nrqlQueries := nrqlQueries + [NrqlQuery(qs[k], widget.title, d.name, d.guid)];
        k := k + 1;
      }
      assert qs[..k] == qs;
    }
  }

  /** The middle loop: every widget of a page, in order. */
  method PushPageQueries(d: DashboardDetails, page: Page, start: seq<NrqlQuery>)
    returns (nrqlQueries: seq<NrqlQuery>)
    ensures nrqlQueries == start + WidgetsQueries(d, page.widgets)
  {
    nrqlQueries := start;
    assert page.widgets[..0] == [];
    var j := 0;
    while j < |page.widgets|
      invariant 0 <= j <= |page.widgets|
      invariant nrqlQueries == start + WidgetsQueries(d, page.widgets[..j])
    {
      WidgetsQueriesStep(d, start, page.widgets, j);
      nrqlQueries := PushWidgetQueries(d, page.widgets[j], nrqlQueries);
      j := j + 1;
    }
    assert page.widgets[..j] == page.widgets;
  }

  /** `extractNrqlsFromDashboard`: the outer loop over pages; its two inner
      loops are the two methods above. */
  method ExtractNrqlsFromDashboard(d: DashboardDetails) returns (nrqlQueries: seq<NrqlQuery>)
    ensures nrqlQueries == Extraction(d)
  {
    nrqlQueries := [];
    var i := 0;
    while i < |d.pages|
      invariant 0 <= i <= |d.pages|
      invariant nrqlQueries == PagesQueries(d, d.pages[..i])
    {
      nrqlQueries := PushPageQueries(d, d.pages[i], nrqlQueries);
      PagesQueriesStep(d, d.pages, i);
      i := i + 1;
    }
    assert d.pages[..i] == d.pages;
  }

  /** The number of queries a widget carries, zero unless its field is an array. */
  function WidgetCount(w: Widget): nat
  {
    if w.nrqlQueries.QueryArray? then |w.nrqlQueries.queries| else 0
  }

  function WidgetsCount(ws: seq<Widget>): nat
  {
    if ws == [] then 0 else WidgetsCount(ws[..|ws| - 1]) + WidgetCount(ws[|ws| - 1])
  }

  function PagesCount(ps: seq<Page>): nat
  {
    if ps == [] then 0 else PagesCount(ps[..|ps| - 1]) + WidgetsCount(ps[|ps| - 1].widgets)
  }

  lemma {:induction false} WidgetsQueriesLength(d: DashboardDetails, ws: seq<Widget>)
    ensures |WidgetsQueries(d, ws)| == WidgetsCount(ws)
    decreases |ws|
  {
    if ws != [] {
      WidgetsQueriesLength(d, ws[..|ws| - 1]);
    }
  }

  /** The extracted count is the sum of the lengths of the query arrays over
      all pages and widgets. */
  lemma {:induction false} ExtractionCount(d: DashboardDetails, ps: seq<Page>)
    ensures |PagesQueries(d, ps)| == PagesCount(ps)
    decreases |ps|
  {
    if ps != [] {
      ExtractionCount(d, ps[..|ps| - 1]);
      WidgetsQueriesLength(d, ps[|ps| - 1].widgets);
    }
  }

  /** Extraction distributes over a split of the pages: all entries of the
      earlier pages come before those of the later ones. */
  lemma PagesQueriesAppend(d: DashboardDetails, a: seq<Page>, b: seq<Page>)
    ensures PagesQueries(d, a + b) == PagesQueries(d, a) + PagesQueries(d, b)
  {
    FlattenAppend(a, b, (p: Page) => WidgetsQueries(d, p.widgets));
  }

  /** Extraction distributes over a split of a page's widgets. */
  lemma WidgetsQueriesAppend(d: DashboardDetails, a: seq<Widget>, b: seq<Widget>)
    ensures WidgetsQueries(d, a + b) == WidgetsQueries(d, a) + WidgetsQueries(d, b)
  {
    FlattenAppend(a, b, w => WidgetQueries(d, w));
  }

  lemma {:induction false} EntriesOfMembership(d: DashboardDetails, w: Widget, qs: seq<string>, e: NrqlQuery)
    ensures e in EntriesOf(d, w, qs) <==> e.query in qs && e == Entry(d, w, e.query)
    decreases |qs|
  {
    if qs != [] {
      EntriesOfMembership(d, w, qs[..|qs| - 1], e);
      assert qs == qs[..|qs| - 1] + [qs[|qs| - 1]];
    }
  }

  /** `e` is the entry a widget yields for one query of its query array. */
  predicate HoldsEntry(d: DashboardDetails, w: Widget, e: NrqlQuery)
  {
    w.nrqlQueries.QueryArray? && e.query in w.nrqlQueries.queries && e == Entry(d, w, e.query)
  }

  lemma WidgetsQueriesMembership(d: DashboardDetails, ws: seq<Widget>, e: NrqlQuery)
    ensures e in WidgetsQueries(d, ws) <==> exists j :: 0 <= j < |ws| && HoldsEntry(d, ws[j], e)
  {
    FlattenMembership(ws, w => WidgetQueries(d, w), e);
    forall j | 0 <= j < |ws|
      ensures e in WidgetQueries(d, ws[j]) <==> HoldsEntry(d, ws[j], e)
    {
      if ws[j].nrqlQueries.QueryArray? {
        EntriesOfMembership(d, ws[j], ws[j].nrqlQueries.queries, e);
      }
    }
  }

  /** Every extracted entry carries its own query text, the title of a
      widget of the dashboard that holds that query in an array, and the
      dashboard's name and guid; and every such query is extracted. */
  lemma ExtractionMembership(d: DashboardDetails, ps: seq<Page>, e: NrqlQuery)
    ensures e in PagesQueries(d, ps) <==>
      exists i, j :: 0 <= i < |ps| && 0 <= j < |ps[i].widgets| && HoldsEntry(d, ps[i].widgets[j], e)
  {
    FlattenMembership(ps, (p: Page) => WidgetsQueries(d, p.widgets), e);
    forall i | 0 <= i < |ps|
      ensures e in WidgetsQueries(d, ps[i].widgets) <==>
        exists j :: 0 <= j < |ps[i].widgets| && HoldsEntry(d, ps[i].widgets[j], e)
    {
      WidgetsQueriesMembership(d, ps[i].widgets, e);
    }
  }

  /** A widget without a query array contributes nothing wherever it sits. */
  lemma NonArrayWidgetContributesNothing(d: DashboardDetails, a: seq<Widget>, w: Widget, b: seq<Widget>)
    requires !w.nrqlQueries.QueryArray?
    ensures WidgetsQueries(d, a + [w] + b) == WidgetsQueries(d, a) + WidgetsQueries(d, b)
  {
    FlattenSkipsEmpty(a, w, b, w => WidgetQueries(d, w));
  }



  /** A dashboard of the listing. */
  datatype DashboardSummary = DashboardSummary(guid: string, name: string)

  /** The outcome of one pool task's `try` block: details that extract, a
      fetch that threw, or details so malformed that the extraction itself
      throws (no pages or widgets, a widget without a raw configuration, a
      null element in `nrqlQueries`), which the same `catch` absorbs. */
  datatype DetailsFetch =
    | Fetched(details: DashboardDetails)
    | FetchFailed(error: string)
    | Malformed

  /** The list one pool task yields: the extraction, or nothing when the
      task threw. The outcome is looked up by guid, so the dashboards of a
      listing are taken to have distinct guids. */
  function PerDashboard(s: DashboardSummary, fetch: string -> DetailsFetch): seq<NrqlQuery>
  {
    match fetch(s.guid)
    case Fetched(details) => Extraction(details)
    case FetchFailed(_) => []
    case Malformed => []
  }

  /** The pool run as a sequential fold over the listing, flattened. */
  function Aggregate(ds: seq<DashboardSummary>, fetch: string -> DetailsFetch): seq<NrqlQuery>
  {
    Flatten(ds, s => PerDashboard(s, fetch))
  }

  lemma AggregateAppend(a: seq<DashboardSummary>, b: seq<DashboardSummary>, fetch: string -> DetailsFetch)
    ensures Aggregate(a + b, fetch) == Aggregate(a, fetch) + Aggregate(b, fetch)
  {
    FlattenAppend(a, b, s => PerDashboard(s, fetch));
  }

  /** A task that threw, in the fetch or in the extraction, yields nothing
      and does not stop the others: the result is what the dashboards
      before and after it yield. */
  lemma FailedFetchContributesNothing(a: seq<DashboardSummary>, x: DashboardSummary, b: seq<DashboardSummary>, fetch: string -> DetailsFetch)
    requires !fetch(x.guid).Fetched?
    ensures Aggregate(a + [x] + b, fetch) == Aggregate(a, fetch) + Aggregate(b, fetch)
  {
    var lists := s => PerDashboard(s, fetch);
    assert lists(x) == [];
    FlattenSkipsEmpty(a, x, b, lists);
  }

  /** The multiset of aggregated queries does not depend on the order in
      which the dashboards are processed. */
  lemma AggregateOrderIrrelevant(ds: seq<DashboardSummary>, es: seq<DashboardSummary>, fetch: string -> DetailsFetch)
    requires multiset(ds) == multiset(es)
    ensures multiset(Aggregate(ds, fetch)) == multiset(Aggregate(es, fetch))
  {
    FlattenOrderIrrelevant(ds, es, s => PerDashboard(s, fetch));
  }

  /** A query is aggregated exactly when some dashboard of the listing was
      fetched and its extraction holds that query. */
  lemma AggregateMembership(ds: seq<DashboardSummary>, fetch: string -> DetailsFetch, e: NrqlQuery)
    ensures e in Aggregate(ds, fetch) <==>
      exists i :: 0 <= i < |ds| && fetch(ds[i].guid).Fetched? && e in Extraction(fetch(ds[i].guid).details)
  {
    var lists := s => PerDashboard(s, fetch);
    FlattenMembership(ds, lists, e);
    assert forall i :: 0 <= i < |ds| ==> (e in lists(ds[i]) <==> fetch(ds[i].guid).Fetched? && e in Extraction(fetch(ds[i].guid).details));
  }

  datatype NrqlMetadata = NrqlMetadata(totalCount: nat, elapsedTime: int, serviceName: string)

  datatype ServiceNrqlQueryResult = ServiceNrqlQueryResult(queries: seq<NrqlQuery>, metadata: NrqlMetadata)

  /** `queryNrqlsByService`: `listing` is the dashboards of the service, or
      the error listing them raised, which is rethrown; `fetch` gives each
      dashboard's detail fetch outcome by guid. The pool yields the
      dashboards' lists in completion order, so the queries are promised as
      the flattening of some reordering of the listing: each dashboard's
      entries stay together and in extraction order. */
  function QueryNrqlsByService(
    serviceName: string,
    listing: Result<seq<DashboardSummary>, string>,
    fetch: string -> DetailsFetch,
    elapsedTime: int): (r: Result<ServiceNrqlQueryResult, string>)
    ensures listing.Failure? ==> r == Failure(listing.error)
    ensures listing.Success? ==>
      && r.Success?
      && multiset(r.value.queries) == multiset(Aggregate(listing.value, fetch))
      && (exists order :: multiset(order) == multiset(listing.value) && r.value.queries == Aggregate(order, fetch))
      && r.value.metadata == NrqlMetadata(|r.value.queries|, elapsedTime, serviceName)
  {
    match listing
    case Failure(error) => Failure(error)
    case Success(dashboards) =>
      var queries := Aggregate(dashboards, fetch);
      assert multiset(dashboards) == multiset(dashboards) && queries == Aggregate(dashboards, fetch);
      Success(ServiceNrqlQueryResult(queries, NrqlMetadata(|queries|, elapsedTime, serviceName)))
  }
}
