/** internal/fetcher.go: the older revision's dashboard iterator, which starts at page 0 and
    yields its errors to the consumer, its hit filter, and its datasource list fetch. */
module Fetcher {
  import opened Wrappers
  import opened Json
  import opened Models
  import Grafana

  /** internal.Dashboard: what the iterator yields for one exported dashboard. */
  datatype Dashboard = Dashboard(folder: string, title: string, model: JValue)

  /** Dashboard{}: what the iterator yields beside an error. */
  const EmptyDashboard: Dashboard := Dashboard("", "", JNull)

  /** The context of the error for a failed dashboard fetch ("dash-db lookup for %q: %w"). */
  const DashDbLookup: string := "dash-db lookup for"

  /** dashboardClient: the server's answer to each requested search page, and the dashboard
      fetch by UID. */
  datatype DashboardClient = DashboardClient(search: seq<Result<seq<Hit>>>, dashboards: string -> Result<JValue>)

  /** dataSourcesClient: the server's answer to GetDataSources. */
  datatype DataSourcesClient = DataSourcesClient(datasources: Result<seq<DataSourceListItemDTO>>)

  /** shouldExport(folders, args...): with no args every hit passes; otherwise a hit passes
      when its folder title (folder mode) or its title is one of args. */
  predicate ShouldExport(folders: bool, args: seq<string>, hit: Hit)
  {
    if |args| == 0 then true
    else if folders then hit.folderTitle in args
    else hit.title in args
  }

  /** set.New(args...). */
  function ArgSet(args: seq<string>): (s: set<string>)
    ensures forall a :: a in s <==> a in args
    ensures |s| == 0 <==> |args| == 0
  {
    var s := set a | a in args;
    assert |args| > 0 ==> args[0] in s;
    s
  }

  /** The filter accepts everything without args, and otherwise exactly the hits whose folder
      title (folder mode) or title is one of args. */
  lemma ShouldExportMeaning(folders: bool, args: seq<string>, hit: Hit)
    ensures |args| == 0 ==> ShouldExport(folders, args, hit)
    ensures |args| > 0 && folders ==> (ShouldExport(folders, args, hit) <==> hit.folderTitle in ArgSet(args))
    ensures |args| > 0 && !folders ==> (ShouldExport(folders, args, hit) <==> hit.title in ArgSet(args))
  {
  }

  /** The older filter lets through exactly the hits the current revision's inline filter
      does not skip. */
  lemma ShouldExportIsNotSkipped(folders: bool, args: seq<string>, hit: Hit)
    ensures ShouldExport(folders, args, hit) <==> !Grafana.Skipped(hit, folders, ArgSet(args))
  {
  }

  /** getDataSources: the listed datasources, or the client's error wrapped with the
      operation's name. */
  function GetDataSources(c: DataSourcesClient): (r: Result<seq<DataSourceListItemDTO>>)
    ensures r.Ok? <==> c.datasources.Ok?
    ensures r.Ok? ==> r.value == c.datasources.value
    ensures r.Err? ==> r.error == Wrapped("getDatasources", c.datasources.error)
  {
    match c.datasources
    case Ok(list) => Ok(list)
    case Err(e) => Err(Wrapped("getDatasources", e))
  }

  // ----- yieldDashboards -----

  /** What part of an iteration does: the (dashboard, error) pairs it yields, the calls it makes,
      and whether the iterator returns at its end. */
  datatype Stream = Stream(yielded: seq<(Dashboard, Option<Error>)>, calls: seq<Call>, stopped: bool)

  function Then(a: Stream, b: Stream): Stream
  {
    if a.stopped then a else Stream(a.yielded + b.yielded, a.calls + b.calls, b.stopped)
  }

  /** One hit: skipped by the filter, or fetched; a failed fetch yields an error naming the
      hit's title and ends the iteration whatever the consumer answers. */
  function HitRun(c: DashboardClient, folders: bool, args: seq<string>, consumer: (Dashboard, Option<Error>) -> bool, entry: Hit): Stream
  {
    if !ShouldExport(folders, args, entry) then Stream([], [], false)
    else match c.dashboards(entry.uid)
      case Err(e) => Stream([(EmptyDashboard, Some(WrappedFor(DashDbLookup, entry.title, e)))], [GetDashboardByUID(entry.uid)], true)
      case Ok(db) =>
        var d := Dashboard(entry.folderTitle, entry.title, db);
        Stream([(d, None)], [GetDashboardByUID(entry.uid)], !consumer(d, None))
  }

  function HitsRun(c: DashboardClient, folders: bool, args: seq<string>, consumer: (Dashboard, Option<Error>) -> bool, hits: seq<Hit>): Stream
    decreases |hits|
  {
    if hits == [] then Stream([], [], false)
    else Then(HitRun(c, folders, args, consumer, hits[0]), HitsRun(c, folders, args, consumer, hits[1..]))
  }

  /** The iteration from `page` on: a failed search yields its error and ends, an empty page
      ends, otherwise the page's hits are handled and the next page follows. */
  function PagesRun(c: DashboardClient, folders: bool, args: seq<string>, consumer: (Dashboard, Option<Error>) -> bool, page: nat): Stream
    decreases |c.search| - page
  {
    match SearchAnswer(c.search, page)
    case Err(e) => Stream([(EmptyDashboard, Some(e))], [Search(Grafana.DashDb, page)], true)
    case Ok(hits) =>
      if hits == [] then Stream([], [Search(Grafana.DashDb, page)], true)
      else Then(Stream([], [Search(Grafana.DashDb, page)], false),
                Then(HitsRun(c, folders, args, consumer, hits), PagesRun(c, folders, args, consumer, page + 1)))
  }

  /** The first page yieldDashboards requests. */
  const FirstPage: nat := 0

  /** Everything one pass of yieldDashboards does for a consumer. */
  function YieldRun(c: DashboardClient, folders: bool, args: seq<string>, consumer: (Dashboard, Option<Error>) -> bool): Stream
  {
    PagesRun(c, folders, args, consumer, FirstPage)
  }

  function After(y: seq<(Dashboard, Option<Error>)>, cs: seq<Call>, r: Stream): Stream
  {
    Stream(y + r.yielded, cs + r.calls, r.stopped)
  }

  lemma AfterAfter(y: seq<(Dashboard, Option<Error>)>, cs: seq<Call>, y2: seq<(Dashboard, Option<Error>)>, cs2: seq<Call>, r: Stream)
    ensures After(y, cs, After(y2, cs2, r)) == After(y + y2, cs + cs2, r)
  {
    assert (y + y2) + r.yielded == y + (y2 + r.yielded);
    assert (cs + cs2) + r.calls == cs + (cs2 + r.calls);
  }

  lemma HitsRunStep(c: DashboardClient, folders: bool, args: seq<string>, consumer: (Dashboard, Option<Error>) -> bool, hits: seq<Hit>, i: nat)
    requires i < |hits|
    ensures HitsRun(c, folders, args, consumer, hits[i..])
      == Then(HitRun(c, folders, args, consumer, hits[i]), HitsRun(c, folders, args, consumer, hits[i + 1..]))
  {
    assert hits[i..][1..] == hits[i + 1..];
  }

  lemma PagesRunStep(c: DashboardClient, folders: bool, args: seq<string>, consumer: (Dashboard, Option<Error>) -> bool, page: nat)
    requires SearchAnswer(c.search, page).Ok? && SearchAnswer(c.search, page).value != []
    ensures PagesRun(c, folders, args, consumer, page)
      == After([], [Search(Grafana.DashDb, page)],
               Then(HitsRun(c, folders, args, consumer, SearchAnswer(c.search, page).value),
                    PagesRun(c, folders, args, consumer, page + 1)))
  {
  }

  /** The loop of yieldDashboards over the hits of one page. */
  method PageHits(c: DashboardClient, folders: bool, args: seq<string>, consumer: (Dashboard, Option<Error>) -> bool, hits: seq<Hit>)
    returns (yielded: seq<(Dashboard, Option<Error>)>, calls: seq<Call>, stopped: bool)
    ensures Stream(yielded, calls, stopped) == HitsRun(c, folders, args, consumer, hits)
  {
    ghost var total := HitsRun(c, folders, args, consumer, hits);
    yielded, calls := [], [];
    assert hits[0..] == hits;
    assert total == After(yielded, calls, total) by {
      assert [] + total.yielded == total.yielded;
      assert [] + total.calls == total.calls;
    }
    var i := 0;
    while i < |hits|
      invariant 0 <= i <= |hits|
      invariant total == After(yielded, calls, HitsRun(c, folders, args, consumer, hits[i..]))
    {
      var entry := hits[i];
      ghost var later := HitsRun(c, folders, args, consumer, hits[i + 1..]);
      HitsRunStep(c, folders, args, consumer, hits, i);
      if !ShouldExport(folders, args, entry) {
        assert Then(Stream([], [], false), later) == later by {
          assert [] + later.yielded == later.yielded;
          assert [] + later.calls == later.calls;
        }
        i := i + 1;
        continue;
      }
      var db := c.dashboards(entry.uid);
      calls := calls + [GetDashboardByUID(entry.uid)];
      if db.Err? {
        yielded := yielded + [(EmptyDashboard, Some(WrappedFor(DashDbLookup, entry.title, db.error)))];
        return yielded, calls, true;
      }
      var dashboard := Dashboard(entry.folderTitle, entry.title, db.value);
      if !consumer(dashboard, None) {
        yielded := yielded + [(dashboard, None)];
        return yielded, calls, true;
      }
      assert HitRun(c, folders, args, consumer, entry) == Stream([(dashboard, None)], [GetDashboardByUID(entry.uid)], false);
      AfterAfter(yielded, calls[..|calls| - 1], [(dashboard, None)], [GetDashboardByUID(entry.uid)], later);
      assert calls[..|calls| - 1] + [GetDashboardByUID(entry.uid)] == calls;
      yielded := yielded + [(dashboard, None)];
      i := i + 1;
    }
    assert hits[i..] == [];
    assert yielded + [] == yielded && calls + [] == calls;
    stopped := false;
  }

  /** yieldDashboards, run to completion with `consumer` as the yield function: the pairs it
      yields and the remote calls it makes. */
  method YieldDashboards(c: DashboardClient, folders: bool, args: seq<string>, consumer: (Dashboard, Option<Error>) -> bool)
    returns (yielded: seq<(Dashboard, Option<Error>)>, calls: seq<Call>)
    ensures yielded == YieldRun(c, folders, args, consumer).yielded
    ensures calls == YieldRun(c, folders, args, consumer).calls
  {
    ghost var total := YieldRun(c, folders, args, consumer);
    yielded, calls := [], [];
    var page: nat := FirstPage;
    assert total == After(yielded, calls, total) by {
      assert [] + total.yielded == total.yielded;
      assert [] + total.calls == total.calls;
    }
    while true
      invariant total == After(yielded, calls, PagesRun(c, folders, args, consumer, page))
      decreases |c.search| - page
    {
      var ok := SearchAnswer(c.search, page);
      if ok.Err? {
        yielded, calls := yielded + [(EmptyDashboard, Some(ok.error))], calls + [Search(Grafana.DashDb, page)];
        return;
      }
      if |ok.value| == 0 {
        calls := calls + [Search(Grafana.DashDb, page)];
        assert yielded + [] == yielded;
        return;
      }
      ghost var rest := PagesRun(c, folders, args, consumer, page + 1);
      PagesRunStep(c, folders, args, consumer, page);
      var pageYielded, pageCalls, stopped := PageHits(c, folders, args, consumer, ok.value);
      AfterAfter(yielded, calls, [], [Search(Grafana.DashDb, page)], Then(Stream(pageYielded, pageCalls, stopped), rest));
      yielded, calls := yielded + [], calls + [Search(Grafana.DashDb, page)];
      if stopped {
        yielded, calls := yielded + pageYielded, calls + pageCalls;
        return;
      }
      AfterAfter(yielded, calls, pageYielded, pageCalls, rest);
      yielded, calls := yielded + pageYielded, calls + pageCalls;
      page := page + 1;
    }
  }

  // ----- The older iterator against the current one -----

  /** The same server seen through the current revision's client. */
  function AsGrafana(c: DashboardClient): Grafana.GrafanaClient
  {
    Grafana.GrafanaClient(c.search, c.dashboards, (name: string) => Err(Cause("no datasource client")))
  }

  /** The current revision's consumer that answers as `consumer` does for the dashboard the
      older iterator yields for the same hit and model. */
  function AsGrafanaConsumer(consumer: (Dashboard, Option<Error>) -> bool): (Hit, JValue) -> bool
  {
    (h: Hit, db: JValue) => consumer(Dashboard(h.folderTitle, h.title, db), None)
  }

  /** The dashboards the older iterator yields for the (hit, model) pairs the current one yields. */
  function Items(ys: seq<(Hit, JValue)>): (items: seq<(Dashboard, Option<Error>)>)
    ensures |items| == |ys|
    ensures forall k :: 0 <= k < |ys| ==> items[k] == (Dashboard(ys[k].0.folderTitle, ys[k].0.title, ys[k].1), None)
  {
    seq(|ys|, k requires 0 <= k < |ys| => (Dashboard(ys[k].0.folderTitle, ys[k].0.title, ys[k].1), None))
  }

  lemma ItemsConcat(a: seq<(Hit, JValue)>, b: seq<(Hit, JValue)>)
    ensures Items(a + b) == Items(a) + Items(b)
  {
    assert forall k :: 0 <= k < |a| ==> (a + b)[k] == a[k];
    assert forall k :: |a| <= k < |a| + |b| ==> (a + b)[k] == b[k - |a|];
  }

  /** The last call failed: a search or a dashboard fetch that returned an error. */
  predicate ErrorEnding(c: DashboardClient, calls: seq<Call>)
  {
    calls != [] &&
    match calls[|calls| - 1]
    case Search(_, p) => SearchAnswer(c.search, p).Err?
    case GetDashboardByUID(u) => c.dashboards(u).Err?
    case GetDataSourceByName(_) => false
  }

  /** `item` is the error the older iterator yields for the failed `call`: a failed search's
      own error, or a failed fetch's error wrapped with the title of a hit (among `universe`,
      passing the filter) whose UID was fetched. */
  predicate ExplainsError(c: DashboardClient, folders: bool, args: seq<string>, universe: seq<Hit>, call: Call, item: (Dashboard, Option<Error>))
  {
    item.0 == EmptyDashboard &&
    match call
    case Search(_, p) => SearchAnswer(c.search, p).Err? && item.1 == Some(SearchAnswer(c.search, p).error)
    case GetDashboardByUID(u) =>
      c.dashboards(u).Err? &&
      exists h :: h in universe && ShouldExport(folders, args, h) && h.uid == u
                  && item.1 == Some(WrappedFor(DashDbLookup, h.title, c.dashboards(u).error))
    case GetDataSourceByName(_) => false
  }

  /** The older run `o` makes the calls of the current run `n` and yields the dashboards of
      its pairs; it additionally yields one explained error exactly when the last call failed. */
  predicate Bridge(c: DashboardClient, folders: bool, args: seq<string>, universe: seq<Hit>, o: Stream, n: Grafana.Run)
  {
    && o.calls == n.calls && o.stopped == n.stopped
    && (!n.stopped ==> !ErrorEnding(c, n.calls))
    && |o.yielded| == |n.yielded| + (if ErrorEnding(c, n.calls) then 1 else 0)
    && o.yielded[..|n.yielded|] == Items(n.yielded)
    && (ErrorEnding(c, n.calls) ==> ExplainsError(c, folders, args, universe, n.calls[|n.calls| - 1], o.yielded[|n.yielded|]))
  }

  lemma BridgeThen(c: DashboardClient, folders: bool, args: seq<string>, universe: seq<Hit>,
                   oa: Stream, ob: Stream, na: Grafana.Run, nb: Grafana.Run)
    requires Bridge(c, folders, args, universe, oa, na) && Bridge(c, folders, args, universe, ob, nb)
    ensures Bridge(c, folders, args, universe, Then(oa, ob), Grafana.Then(na, nb))
  {
    if !na.stopped {
      var o := Then(oa, ob);
      var n := Grafana.Then(na, nb);
      assert o.yielded == oa.yielded + ob.yielded && o.calls == oa.calls + ob.calls;
      assert n.yielded == na.yielded + nb.yielded && n.calls == na.calls + nb.calls;
      assert oa.yielded == Items(na.yielded) by {
        assert oa.yielded[..|na.yielded|] == oa.yielded;
      }
      if nb.calls == [] {
        assert n.calls == na.calls;
        assert !ErrorEnding(c, nb.calls);
      } else {
        assert n.calls[|n.calls| - 1] == nb.calls[|nb.calls| - 1];
        assert ErrorEnding(c, n.calls) == ErrorEnding(c, nb.calls);
      }
      ItemsConcat(na.yielded, nb.yielded);
      assert o.yielded[..|n.yielded|] == oa.yielded + ob.yielded[..|nb.yielded|];
      if ErrorEnding(c, n.calls) {
        assert o.yielded[|n.yielded|] == ob.yielded[|nb.yielded|];
      }
    }
  }

  lemma HitBridge(c: DashboardClient, folders: bool, args: seq<string>, universe: seq<Hit>,
                  consumer: (Dashboard, Option<Error>) -> bool, entry: Hit)
    requires entry in universe
    ensures Bridge(c, folders, args, universe, HitRun(c, folders, args, consumer, entry),
                   Grafana.HitRun(AsGrafana(c), folders, ArgSet(args), AsGrafanaConsumer(consumer), entry))
  {
    ShouldExportIsNotSkipped(folders, args, entry);
    var o := HitRun(c, folders, args, consumer, entry);
    var n := Grafana.HitRun(AsGrafana(c), folders, ArgSet(args), AsGrafanaConsumer(consumer), entry);
    if ShouldExport(folders, args, entry) {
      if c.dashboards(entry.uid).Err? {
        assert n.yielded == [] && n.calls == [GetDashboardByUID(entry.uid)];
        assert ErrorEnding(c, n.calls);
        assert o.yielded[0].1 == Some(WrappedFor(DashDbLookup, entry.title, c.dashboards(entry.uid).error));
      } else {
        assert !ErrorEnding(c, n.calls);
      }
    }
  }

  lemma {:induction false} HitsBridge(c: DashboardClient, folders: bool, args: seq<string>, universe: seq<Hit>,
                                      consumer: (Dashboard, Option<Error>) -> bool, hits: seq<Hit>)
    requires forall h :: h in hits ==> h in universe
    ensures Bridge(c, folders, args, universe, HitsRun(c, folders, args, consumer, hits),
                   Grafana.HitsRun(AsGrafana(c), folders, ArgSet(args), AsGrafanaConsumer(consumer), hits))
    decreases |hits|
  {
    if hits == [] {
      assert !ErrorEnding(c, []);
    } else {
      assert hits[0] in hits;
      HitBridge(c, folders, args, universe, consumer, hits[0]);
      assert forall h :: h in hits[1..] ==> h in hits;
      HitsBridge(c, folders, args, universe, consumer, hits[1..]);
      BridgeThen(c, folders, args, universe,
        HitRun(c, folders, args, consumer, hits[0]), HitsRun(c, folders, args, consumer, hits[1..]),
        Grafana.HitRun(AsGrafana(c), folders, ArgSet(args), AsGrafanaConsumer(consumer), hits[0]),
        Grafana.HitsRun(AsGrafana(c), folders, ArgSet(args), AsGrafanaConsumer(consumer), hits[1..]));
    }
  }

  lemma {:induction false} PagesBridge(c: DashboardClient, folders: bool, args: seq<string>, universe: seq<Hit>,
                                       consumer: (Dashboard, Option<Error>) -> bool, page: nat)
    requires forall h :: h in Grafana.AllHits(AsGrafana(c), page) ==> h in universe
    ensures Bridge(c, folders, args, universe, PagesRun(c, folders, args, consumer, page),
                   Grafana.PagesRun(AsGrafana(c), folders, ArgSet(args), AsGrafanaConsumer(consumer), page))
    decreases |c.search| - page
  {
    var g := AsGrafana(c);
    var gc := AsGrafanaConsumer(consumer);
    var first := Stream([], [Search(Grafana.DashDb, page)], false);
    var gfirst := Grafana.Run([], [Search(Grafana.DashDb, page)], false);
    match SearchAnswer(c.search, page)
    case Err(e) =>
      assert ErrorEnding(c, [Search(Grafana.DashDb, page)]);
    case Ok(hits) =>
      if hits == [] {
        assert !ErrorEnding(c, [Search(Grafana.DashDb, page)]);
      } else {
        assert Grafana.AllHits(g, page) == hits + Grafana.AllHits(g, page + 1);
        assert forall h :: h in hits ==> h in Grafana.AllHits(g, page);
        assert forall h :: h in Grafana.AllHits(g, page + 1) ==> h in Grafana.AllHits(g, page);
        HitsBridge(c, folders, args, universe, consumer, hits);
        PagesBridge(c, folders, args, universe, consumer, page + 1);
        assert Bridge(c, folders, args, universe, first, gfirst) by {
          assert !ErrorEnding(c, gfirst.calls);
        }
        BridgeThen(c, folders, args, universe,
          HitsRun(c, folders, args, consumer, hits), PagesRun(c, folders, args, consumer, page + 1),
          Grafana.HitsRun(g, folders, ArgSet(args), gc, hits), Grafana.PagesRun(g, folders, ArgSet(args), gc, page + 1));
        BridgeThen(c, folders, args, universe, first,
          Then(HitsRun(c, folders, args, consumer, hits), PagesRun(c, folders, args, consumer, page + 1)),
          gfirst,
          Grafana.Then(Grafana.HitsRun(g, folders, ArgSet(args), gc, hits), Grafana.PagesRun(g, folders, ArgSet(args), gc, page + 1)));
      }
  }

  /** yieldDashboards makes the calls grafanaDashboards makes when started at page 0, and yields
      the same dashboards, plus one error at the end exactly when the last call failed. */
  lemma YieldIsGrafanaFromPageZero(c: DashboardClient, folders: bool, args: seq<string>, consumer: (Dashboard, Option<Error>) -> bool)
    ensures Bridge(c, folders, args, Grafana.AllHits(AsGrafana(c), FirstPage), YieldRun(c, folders, args, consumer),
                   Grafana.PagesRun(AsGrafana(c), folders, ArgSet(args), AsGrafanaConsumer(consumer), FirstPage))
  {
    PagesBridge(c, folders, args, Grafana.AllHits(AsGrafana(c), FirstPage), consumer, FirstPage);
  }

  // ----- What yieldDashboards promises -----

  /** `item` is the dashboard yielded for hit `h`: its title, its folder title and the model
      the fetch of its UID returned, with no error. */
  predicate DashboardOf(c: DashboardClient, h: Hit, item: (Dashboard, Option<Error>))
  {
    item.1.None? && item.0.title == h.title && item.0.folder == h.folderTitle && c.dashboards(h.uid) == Ok(item.0.model)
  }

  /** What the bridge carries over from the current iterator's selection facts. */
  lemma BridgeContents(c: DashboardClient, folders: bool, args: seq<string>, universe: seq<Hit>,
                       o: Stream, n: Grafana.Run, sel: seq<Hit>)
    requires Bridge(c, folders, args, universe, o, n)
    requires Grafana.Firsts(n.yielded) <= sel
    requires Grafana.Fetched(AsGrafana(c), n.yielded)
    ensures forall k :: 0 <= k < |o.yielded| && o.yielded[k].1.Some? ==> k == |o.yielded| - 1
    ensures forall k :: 0 <= k < |o.yielded| && o.yielded[k].1.None? ==> k < |sel| && DashboardOf(c, sel[k], o.yielded[k])
  {
    forall k | 0 <= k < |n.yielded|
      ensures o.yielded[k] == Items(n.yielded)[k]
    {
      assert o.yielded[k] == o.yielded[..|n.yielded|][k];
    }
    forall k | 0 <= k < |o.yielded| && o.yielded[k].1.None?
      ensures k < |sel| && DashboardOf(c, sel[k], o.yielded[k])
    {
      assert k < |n.yielded|;
      assert Grafana.Firsts(n.yielded)[k] == sel[k];
      assert AsGrafana(c).dashboards(n.yielded[k].0.uid) == Ok(n.yielded[k].1);
    }
  }

  /** How an older run ends: it makes at least one call and only its last call can fail; it
      yields an error exactly when that last call failed, and then the error is its last pair
      and explains the failure; a dashboard the consumer refused is the last pair, and the last
      call is its fetch; and it returns because its last call failed or found an empty page,
      or because the consumer refused its last dashboard. */
  predicate EndsForReason(c: DashboardClient, folders: bool, args: seq<string>, universe: seq<Hit>,
                          consumer: (Dashboard, Option<Error>) -> bool, o: Stream)
  {
    o.calls != [] &&
    var last := o.calls[|o.calls| - 1];
      && (forall j :: 0 <= j < |o.calls| - 1 ==> !Grafana.Terminal(AsGrafana(c), o.calls[j]))
      && ((exists k :: 0 <= k < |o.yielded| && o.yielded[k].1.Some?) <==> ErrorEnding(c, o.calls))
      && (ErrorEnding(c, o.calls) ==> ExplainsError(c, folders, args, universe, last, o.yielded[|o.yielded| - 1]))
      && (forall k :: 0 <= k < |o.yielded| && o.yielded[k].1.None? && !consumer(o.yielded[k].0, None) ==>
            k == |o.yielded| - 1 && last.GetDashboardByUID? && c.dashboards(last.uid) == Ok(o.yielded[k].0.model))
      && (Grafana.Terminal(AsGrafana(c), last) || (o.yielded != [] && !consumer(o.yielded[|o.yielded| - 1].0, None)))
  }

  /** What the bridge carries over from the current iterator's stop facts. */
  lemma BridgeEnds(c: DashboardClient, folders: bool, args: seq<string>, universe: seq<Hit>,
                   consumer: (Dashboard, Option<Error>) -> bool, o: Stream, n: Grafana.Run)
    requires Bridge(c, folders, args, universe, o, n)
    requires n.stopped && n.calls != []
    requires Grafana.StopsForReason(AsGrafana(c), AsGrafanaConsumer(consumer), n)
    requires Grafana.Fetched(AsGrafana(c), n.yielded)
    ensures EndsForReason(c, folders, args, universe, consumer, o)
  {
    var g := AsGrafana(c);
    var gc := AsGrafanaConsumer(consumer);
    forall k | 0 <= k < |n.yielded|
      ensures o.yielded[k] == (Dashboard(n.yielded[k].0.folderTitle, n.yielded[k].0.title, n.yielded[k].1), None)
    {
      assert o.yielded[k] == o.yielded[..|n.yielded|][k];
    }
    if ErrorEnding(c, o.calls) {
      assert o.yielded[|o.yielded| - 1].1.Some?;
    }
    forall k | 0 <= k < |o.yielded| && o.yielded[k].1.None? && !consumer(o.yielded[k].0, None)
      ensures k == |o.yielded| - 1 && o.calls[|o.calls| - 1].GetDashboardByUID?
              && c.dashboards(o.calls[|o.calls| - 1].uid) == Ok(o.yielded[k].0.model)
    {
      assert k < |n.yielded|;
      assert !gc(n.yielded[k].0, n.yielded[k].1);
      assert g.dashboards(n.yielded[k].0.uid) == Ok(n.yielded[k].1);
    }
    if !Grafana.Terminal(g, o.calls[|o.calls| - 1]) {
      var i := |n.yielded| - 1;
      assert n.yielded != [] && !gc(n.yielded[i].0, n.yielded[i].1);
      assert !ErrorEnding(c, o.calls);
      assert o.yielded[|o.yielded| - 1] == o.yielded[i];
    }
  }

  /** Searches are for dash-db, for pages 0, 1, 2, ... in increasing order, and never go past
      the first page whose search fails or comes back empty. */
  lemma YieldPages(c: DashboardClient, folders: bool, args: seq<string>, consumer: (Dashboard, Option<Error>) -> bool)
    ensures var calls := YieldRun(c, folders, args, consumer).calls;
      var n := |Grafana.Searches(calls)|;
      && 1 <= n <= Grafana.LastPage(AsGrafana(c), FirstPage) + 1
      && Grafana.Searches(calls) == Grafana.SearchSequence(0, n)
  {
    YieldIsGrafanaFromPageZero(c, folders, args, consumer);
    Grafana.PagesRunSearches(AsGrafana(c), folders, ArgSet(args), AsGrafanaConsumer(consumer), FirstPage);
  }

  /** Only hits that pass the filter are fetched, in page order and then hit order; every
      dashboard yielded without an error is the next of those hits, carrying its title, its
      folder title and the model its fetch returned; an error can only be the last pair. */
  lemma YieldContents(c: DashboardClient, folders: bool, args: seq<string>, consumer: (Dashboard, Option<Error>) -> bool)
    ensures var r := YieldRun(c, folders, args, consumer);
      var sel := Grafana.Selected(AsGrafana(c), folders, ArgSet(args), FirstPage);
      && Grafana.Fetches(r.calls) <= Grafana.Uids(sel)
      && (forall k :: 0 <= k < |r.yielded| && r.yielded[k].1.Some? ==> k == |r.yielded| - 1)
      && (forall k :: 0 <= k < |r.yielded| && r.yielded[k].1.None? ==> k < |sel| && DashboardOf(c, sel[k], r.yielded[k]))
  {
    var g := AsGrafana(c);
    var gc := AsGrafanaConsumer(consumer);
    var r := YieldRun(c, folders, args, consumer);
    var n := Grafana.PagesRun(g, folders, ArgSet(args), gc, FirstPage);
    var sel := Grafana.Selected(g, folders, ArgSet(args), FirstPage);
    assert Bridge(c, folders, args, Grafana.AllHits(g, FirstPage), r, n) by {
      YieldIsGrafanaFromPageZero(c, folders, args, consumer);
    }
    assert Grafana.Firsts(n.yielded) <= sel && Grafana.Fetches(n.calls) <= Grafana.Uids(sel) && Grafana.Fetched(g, n.yielded) by {
      Grafana.PagesRunSelection(g, folders, ArgSet(args), gc, FirstPage);
    }
    BridgeContents(c, folders, args, Grafana.AllHits(g, FirstPage), r, n, sel);
  }

  /** How the iteration ends. It always returns: only its last call can fail, and an error is
      yielded exactly when that last call failed, as the last pair: a failed search yields its
      own error beside an empty dashboard, a failed fetch an error naming the title of a
      filtered hit with that UID. The first empty page ends it without an error. A dashboard
      the consumer refused is the last pair, and the last call is its fetch. */
  lemma YieldEnds(c: DashboardClient, folders: bool, args: seq<string>, consumer: (Dashboard, Option<Error>) -> bool)
    ensures EndsForReason(c, folders, args, Grafana.AllHits(AsGrafana(c), FirstPage), consumer, YieldRun(c, folders, args, consumer))
  {
    var g := AsGrafana(c);
    var gc := AsGrafanaConsumer(consumer);
    var r := YieldRun(c, folders, args, consumer);
    var n := Grafana.PagesRun(g, folders, ArgSet(args), gc, FirstPage);
    assert Bridge(c, folders, args, Grafana.AllHits(g, FirstPage), r, n) by {
      YieldIsGrafanaFromPageZero(c, folders, args, consumer);
    }
    assert n.stopped && n.calls != [] && Grafana.StopsForReason(g, gc, n) by {
      Grafana.PagesRunStops(g, folders, ArgSet(args), gc, FirstPage);
    }
    assert Grafana.Fetched(g, n.yielded) by {
      Grafana.PagesRunSelection(g, folders, ArgSet(args), gc, FirstPage);
    }
    BridgeEnds(c, folders, args, Grafana.AllHits(g, FirstPage), consumer, r, n);
  }

  /** Every hit of `hits` that passes the filter fetches without an error, and the consumer
      accepts the dashboard made of it. */
  ghost predicate AllExported(c: DashboardClient, folders: bool, args: seq<string>,
                              consumer: (Dashboard, Option<Error>) -> bool, hits: seq<Hit>)
  {
    forall h :: h in hits && ShouldExport(folders, args, h) ==>
      c.dashboards(h.uid).Ok? && consumer(Dashboard(h.folderTitle, h.title, c.dashboards(h.uid).value), None)
  }

  /** The same premise, seen through the current revision's client and consumer. */
  lemma AllExportedBridge(c: DashboardClient, folders: bool, args: seq<string>,
                          consumer: (Dashboard, Option<Error>) -> bool, hits: seq<Hit>)
    requires AllExported(c, folders, args, consumer, hits)
    ensures Grafana.AllAccepted(AsGrafana(c), folders, ArgSet(args), AsGrafanaConsumer(consumer), hits)
  {
    forall h | h in hits && !Grafana.Skipped(h, folders, ArgSet(args))
      ensures AsGrafana(c).dashboards(h.uid).Ok? && AsGrafanaConsumer(consumer)(h, AsGrafana(c).dashboards(h.uid).value)
    {
      ShouldExportIsNotSkipped(folders, args, h);
    }
  }

  /** A complete iteration's yielded pairs: a dashboard for every hit that passes the filter,
      in order, then the error of the last search when it failed. */
  lemma YieldCompleteItems(c: DashboardClient, folders: bool, args: seq<string>, consumer: (Dashboard, Option<Error>) -> bool)
    requires AllExported(c, folders, args, consumer, Grafana.AllHits(AsGrafana(c), FirstPage))
    ensures var r := YieldRun(c, folders, args, consumer);
      var sel := Grafana.Selected(AsGrafana(c), folders, ArgSet(args), FirstPage);
      var last := Grafana.LastPage(AsGrafana(c), FirstPage);
      var failed := SearchAnswer(c.search, last).Err?;
      && |r.yielded| == |sel| + (if failed then 1 else 0)
      && (forall k :: 0 <= k < |sel| ==> DashboardOf(c, sel[k], r.yielded[k]))
      && (failed ==> r.yielded[|sel|] == (EmptyDashboard, Some(SearchAnswer(c.search, last).error)))
  {
    var g := AsGrafana(c);
    var gc := AsGrafanaConsumer(consumer);
    var r := YieldRun(c, folders, args, consumer);
    var n := Grafana.PagesRun(g, folders, ArgSet(args), gc, FirstPage);
    var sel := Grafana.Selected(g, folders, ArgSet(args), FirstPage);
    var last := Grafana.LastPage(g, FirstPage);
    AllExportedBridge(c, folders, args, consumer, Grafana.AllHits(AsGrafana(c), FirstPage));
    assert Bridge(c, folders, args, Grafana.AllHits(g, FirstPage), r, n) by {
      YieldIsGrafanaFromPageZero(c, folders, args, consumer);
    }
    assert Grafana.Firsts(n.yielded) == sel by {
      Grafana.PagesRunComplete(g, folders, ArgSet(args), gc, FirstPage);
    }
    assert Grafana.Fetched(g, n.yielded) by {
      Grafana.PagesRunSelection(g, folders, ArgSet(args), gc, FirstPage);
    }
    assert n.calls != [] && n.calls[|n.calls| - 1] == Search(Grafana.DashDb, last) by {
      Grafana.PagesRunLastCall(g, folders, ArgSet(args), gc, FirstPage);
    }
    BridgeContents(c, folders, args, Grafana.AllHits(g, FirstPage), r, n, sel);
    assert |n.yielded| == |sel|;
    forall k | 0 <= k < |sel|
      ensures DashboardOf(c, sel[k], r.yielded[k])
    {
      assert r.yielded[k] == r.yielded[..|n.yielded|][k];
    }
    ErrorEndingSearch(c, r.calls, last);
  }

  /** Calls that end with a search end in error exactly when that search failed. */
  lemma ErrorEndingSearch(c: DashboardClient, calls: seq<Call>, page: nat)
    requires calls != [] && calls[|calls| - 1] == Search(Grafana.DashDb, page)
    ensures ErrorEnding(c, calls) == SearchAnswer(c.search, page).Err?
  {
  }

  /** A complete iteration's calls: the fetch of every hit that passes the filter, and the
      searches of the pages up to the first failing or empty one. */
  lemma YieldCompleteCalls(c: DashboardClient, folders: bool, args: seq<string>, consumer: (Dashboard, Option<Error>) -> bool)
    requires AllExported(c, folders, args, consumer, Grafana.AllHits(AsGrafana(c), FirstPage))
    ensures var r := YieldRun(c, folders, args, consumer);
      var sel := Grafana.Selected(AsGrafana(c), folders, ArgSet(args), FirstPage);
      && Grafana.Fetches(r.calls) == Grafana.Uids(sel)
      && Grafana.Searches(r.calls) == Grafana.SearchSequence(0, Grafana.LastPage(AsGrafana(c), FirstPage) + 1)
  {
    var g := AsGrafana(c);
    var gc := AsGrafanaConsumer(consumer);
    AllExportedBridge(c, folders, args, consumer, Grafana.AllHits(AsGrafana(c), FirstPage));
    assert YieldRun(c, folders, args, consumer).calls == Grafana.PagesRun(g, folders, ArgSet(args), gc, FirstPage).calls by {
      YieldIsGrafanaFromPageZero(c, folders, args, consumer);
    }
    Grafana.PagesRunComplete(g, folders, ArgSet(args), gc, FirstPage);
  }

  /** When every hit that passes the filter fetches and the consumer accepts its dashboard,
      every such hit is yielded as a dashboard, in page order and then hit order, the pages are
      searched up to the first failing or empty one, and an error is yielded only when that
      last search failed: it is that search's error, beside an empty dashboard. */
  lemma YieldComplete(c: DashboardClient, folders: bool, args: seq<string>, consumer: (Dashboard, Option<Error>) -> bool)
    requires AllExported(c, folders, args, consumer, Grafana.AllHits(AsGrafana(c), FirstPage))
    ensures var r := YieldRun(c, folders, args, consumer);
      var sel := Grafana.Selected(AsGrafana(c), folders, ArgSet(args), FirstPage);
      var last := Grafana.LastPage(AsGrafana(c), FirstPage);
      var failed := SearchAnswer(c.search, last).Err?;
      && |r.yielded| == |sel| + (if failed then 1 else 0)
      && (forall k :: 0 <= k < |sel| ==> DashboardOf(c, sel[k], r.yielded[k]))
      && (failed ==> r.yielded[|sel|] == (EmptyDashboard, Some(SearchAnswer(c.search, last).error)))
      && Grafana.Fetches(r.calls) == Grafana.Uids(sel)
      && Grafana.Searches(r.calls) == Grafana.SearchSequence(0, last + 1)
  {
    YieldCompleteItems(c, folders, args, consumer);
    YieldCompleteCalls(c, folders, args, consumer);
  }
}
