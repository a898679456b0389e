/** grafana.go: the dashboard search-and-fetch iterator and the datasource-by-name iterator of the
    current revision. (dashboards.go and datasources.go carry verbatim copies of both.) */
module Grafana {
  import opened Wrappers
  import opened Json
  import opened Models

  /** grafanaClient: the search client, the dashboard client and the datasource client.
      `search` holds the server's answer to each requested page number; `dashboards` maps a
      UID to the fetched dashboard model and `datasources` a name to the fetched datasource. */
  datatype GrafanaClient = GrafanaClient(
    search: seq<Result<seq<Hit>>>,
    dashboards: string -> Result<JValue>,
    datasources: string -> Result<DataSource>)

  /** The search type grafanaDashboards always asks for. */
  const DashDb: string := "dash-db"

  /** The first page grafanaDashboards requests. */
  const FirstPage: nat := 1

  /** The inline filter of grafanaDashboards: with a non-empty args set, a hit is skipped
      unless its title (or, in folder mode, its folder title) is one of args. */
  predicate Skipped(entry: Hit, folders: bool, args: set<string>)
  {
    |args| > 0 && ((!folders && entry.title !in args) || (folders && entry.folderTitle !in args))
  }

  /** What part of an iteration does: the pairs it yields, the remote calls it makes, and whether
      the iterator returns at its end (an error, an empty page, or a consumer that returned false). */
  datatype Run = Run(yielded: seq<(Hit, JValue)>, calls: seq<Call>, stopped: bool)

  /** `a` followed by `b`, unless `a` made the iterator return. */
  function Then(a: Run, b: Run): Run
  {
    if a.stopped then a else Run(a.yielded + b.yielded, a.calls + b.calls, b.stopped)
  }

  lemma ThenAssoc(a: Run, b: Run, d: Run)
    ensures Then(Then(a, b), d) == Then(a, Then(b, d))
  {
  }

  /** One hit of a page: skipped, or fetched by UID and then yielded. */
  function HitRun(c: GrafanaClient, folders: bool, args: set<string>, consumer: (Hit, JValue) -> bool, entry: Hit): Run
  {
    if Skipped(entry, folders, args) then Run([], [], false)
    else match c.dashboards(entry.uid)
      case Err(_) => Run([], [GetDashboardByUID(entry.uid)], true)
      case Ok(db) => Run([(entry, db)], [GetDashboardByUID(entry.uid)], !consumer(entry, db))
  }

  /** The hits of one page, in order. */
  function HitsRun(c: GrafanaClient, folders: bool, args: set<string>, consumer: (Hit, JValue) -> bool, hits: seq<Hit>): Run
    decreases |hits|
  {
    if hits == [] then Run([], [], false)
    else Then(HitRun(c, folders, args, consumer, hits[0]), HitsRun(c, folders, args, consumer, hits[1..]))
  }

  /** The iteration from `page` on: search the page, stop on an error or on an empty page,
      otherwise handle its hits and go on with the next page. */
  function PagesRun(c: GrafanaClient, folders: bool, args: set<string>, consumer: (Hit, JValue) -> bool, page: nat): Run
    decreases |c.search| - page
  {
    match SearchAnswer(c.search, page)
    case Err(_) => Run([], [Search(DashDb, page)], true)
    case Ok(hits) =>
      if hits == [] then Run([], [Search(DashDb, page)], true)
      else Then(Run([], [Search(DashDb, page)], false),
                Then(HitsRun(c, folders, args, consumer, hits), PagesRun(c, folders, args, consumer, page + 1)))
  }

  /** Everything one pass of grafanaDashboards does for a consumer. */
  function DashboardsRun(c: GrafanaClient, folders: bool, args: set<string>, consumer: (Hit, JValue) -> bool): Run
  {
    PagesRun(c, folders, args, consumer, FirstPage)
  }

  /** `y` and `cs` already yielded and called, followed by `r`. */
  function After(y: seq<(Hit, JValue)>, cs: seq<Call>, r: Run): Run
  {
    Run(y + r.yielded, cs + r.calls, r.stopped)
  }

  lemma AfterAfter(y: seq<(Hit, JValue)>, cs: seq<Call>, y2: seq<(Hit, JValue)>, cs2: seq<Call>, r: Run)
    ensures After(y, cs, After(y2, cs2, r)) == After(y + y2, cs + cs2, r)
  {
    assert (y + y2) + r.yielded == y + (y2 + r.yielded);
    assert (cs + cs2) + r.calls == cs + (cs2 + r.calls);
  }

  /** Unfolding one page that has hits. */
  lemma PagesRunStep(c: GrafanaClient, folders: bool, args: set<string>, consumer: (Hit, JValue) -> bool, page: nat)
    requires SearchAnswer(c.search, page).Ok? && SearchAnswer(c.search, page).value != []
    ensures PagesRun(c, folders, args, consumer, page)
      == After([], [Search(DashDb, page)],
               Then(HitsRun(c, folders, args, consumer, SearchAnswer(c.search, page).value),
                    PagesRun(c, folders, args, consumer, page + 1)))
  {
  }

  /** Unfolding one hit of a page. */
  lemma HitsRunStep(c: GrafanaClient, folders: bool, args: set<string>, consumer: (Hit, JValue) -> bool, hits: seq<Hit>, i: nat)
    requires i < |hits|
    ensures HitsRun(c, folders, args, consumer, hits[i..])
      == Then(HitRun(c, folders, args, consumer, hits[i]), HitsRun(c, folders, args, consumer, hits[i + 1..]))
  {
    assert hits[i..][1..] == hits[i + 1..];
  }

  /** The inner loop of grafanaDashboards over the hits of one page: the pairs it yields, the
      calls it makes, and whether the iterator returns from inside it. */
  method PageHits(c: GrafanaClient, folders: bool, args: set<string>, consumer: (Hit, JValue) -> bool, hits: seq<Hit>)
    returns (yielded: seq<(Hit, JValue)>, calls: seq<Call>, stopped: bool)
    ensures Run(yielded, calls, stopped) == HitsRun(c, folders, args, consumer, hits)
  {
    ghost var total := HitsRun(c, folders, args, consumer, hits);
    yielded, calls := [], [];
    assert hits[0..] == hits;
    assert total == After(yielded, calls, total) by {
      assert [] + total.yielded == total.yielded;
      assert [] + total.calls == total.calls;
    }
    var i := 0;
    while i < |hits|
      invariant 0 <= i <= |hits|
      invariant total == After(yielded, calls, HitsRun(c, folders, args, consumer, hits[i..]))
    {
      var entry := hits[i];
      ghost var later := HitsRun(c, folders, args, consumer, hits[i + 1..]);
      HitsRunStep(c, folders, args, consumer, hits, i);
      if |args| > 0 {
        if (!folders && entry.title !in args) || (folders && entry.folderTitle !in args) {
          assert HitRun(c, folders, args, consumer, entry) == Run([], [], false);
          assert Then(Run([], [], false), later) == later by {
            assert [] + later.yielded == later.yielded;
            assert [] + later.calls == later.calls;
          }
          i := i + 1;
          continue;
        }
      }
      var db := c.dashboards(entry.uid);
      if db.Err? {
        calls := calls + [GetDashboardByUID(entry.uid)];
        assert yielded + [] == yielded;
        return yielded, calls, true;
      }
      if !consumer(entry, db.value) {
        yielded := yielded + [(entry, db.value)];
        calls := calls + [GetDashboardByUID(entry.uid)];
        return yielded, calls, true;
      }
      assert HitRun(c, folders, args, consumer, entry) == Run([(entry, db.value)], [GetDashboardByUID(entry.uid)], false);
      AfterAfter(yielded, calls, [(entry, db.value)], [GetDashboardByUID(entry.uid)], later);
      yielded := yielded + [(entry, db.value)];
      calls := calls + [GetDashboardByUID(entry.uid)];
      i := i + 1;
    }
    assert hits[i..] == [];
    assert yielded + [] == yielded && calls + [] == calls;
    stopped := false;
  }

  /** grafanaDashboards, run to completion with `consumer` as the yield function: the pairs it
      yields and the remote calls it makes. */
  method GrafanaDashboards(c: GrafanaClient, folders: bool, args: set<string>, consumer: (Hit, JValue) -> bool)
    returns (yielded: seq<(Hit, JValue)>, calls: seq<Call>)
    ensures yielded == DashboardsRun(c, folders, args, consumer).yielded
    ensures calls == DashboardsRun(c, folders, args, consumer).calls
  {
    ghost var total := DashboardsRun(c, folders, args, consumer);
    yielded, calls := [], [];
    var page: nat := FirstPage;
    assert total == After(yielded, calls, total) by {
      assert [] + total.yielded == total.yielded;
      assert [] + total.calls == total.calls;
    }
    while true
      invariant total == After(yielded, calls, PagesRun(c, folders, args, consumer, page))
      decreases |c.search| - page
    {
      var ok := SearchAnswer(c.search, page);
      if ok.Err? || |ok.value| == 0 {
        calls := calls + [Search(DashDb, page)];
        assert yielded + [] == yielded;
        return;
      }
      ghost var rest := PagesRun(c, folders, args, consumer, page + 1);
      PagesRunStep(c, folders, args, consumer, page);
      var pageYielded, pageCalls, stopped := PageHits(c, folders, args, consumer, ok.value);
      AfterAfter(yielded, calls, [], [Search(DashDb, page)], Then(Run(pageYielded, pageCalls, stopped), rest));
      yielded, calls := yielded + [], calls + [Search(DashDb, page)];
      if stopped {
        yielded, calls := yielded + pageYielded, calls + pageCalls;
        return;
      }
      AfterAfter(yielded, calls, pageYielded, pageCalls, rest);
      yielded, calls := yielded + pageYielded, calls + pageCalls;
      page := page + 1;
    }
  }

  // ----- What the iterator promises -----

  /** The hits of `hits` that the filter lets through, in order. */
  function Select(hits: seq<Hit>, folders: bool, args: set<string>): (sel: seq<Hit>)
    ensures |sel| <= |hits|
    ensures forall h :: h in sel ==> h in hits && !Skipped(h, folders, args)
  {
    if hits == [] then []
    else (if Skipped(hits[0], folders, args) then [] else [hits[0]]) + Select(hits[1..], folders, args)
  }

  /** The hits the filter lets through on the pages from `page` up to the first page whose
      search fails or comes back empty. */
  function Selected(c: GrafanaClient, folders: bool, args: set<string>, page: nat): seq<Hit>
    decreases |c.search| - page
  {
    match SearchAnswer(c.search, page)
    case Err(_) => []
    case Ok(hits) => if hits == [] then [] else Select(hits, folders, args) + Selected(c, folders, args, page + 1)
  }

  /** Every hit on the pages from `page` up to the first failing or empty page. */
  function AllHits(c: GrafanaClient, page: nat): seq<Hit>
    decreases |c.search| - page
  {
    match SearchAnswer(c.search, page)
    case Err(_) => []
    case Ok(hits) => if hits == [] then [] else hits + AllHits(c, page + 1)
  }

  /** The first page, from `page` on, whose search fails or comes back empty. */
  function LastPage(c: GrafanaClient, page: nat): (last: nat)
    ensures last >= page
    decreases |c.search| - page
  {
    match SearchAnswer(c.search, page)
    case Err(_) => page
    case Ok(hits) => if hits == [] then page else LastPage(c, page + 1)
  }

  function Firsts(ys: seq<(Hit, JValue)>): (hs: seq<Hit>)
    ensures |hs| == |ys|
    ensures forall k :: 0 <= k < |ys| ==> hs[k] == ys[k].0
  {
    if ys == [] then [] else [ys[0].0] + Firsts(ys[1..])
  }

  function Uids(hits: seq<Hit>): (us: seq<string>)
    ensures |us| == |hits|
    ensures forall k :: 0 <= k < |hits| ==> us[k] == hits[k].uid
  {
    if hits == [] then [] else [hits[0].uid] + Uids(hits[1..])
  }

  /** The UIDs of the GetDashboardByUID calls in `calls`, in order. */
  function Fetches(calls: seq<Call>): seq<string>
  {
    if calls == [] then []
    else (if calls[0].GetDashboardByUID? then [calls[0].uid] else []) + Fetches(calls[1..])
  }

  /** The Search calls in `calls`, in order. */
  function Searches(calls: seq<Call>): seq<Call>
  {
    if calls == [] then []
    else (if calls[0].Search? then [calls[0]] else []) + Searches(calls[1..])
  }

  /** Dashboard searches for the pages p, p + 1, ..., p + n - 1. */
  function SearchSequence(p: int, n: nat): (ss: seq<Call>)
    ensures |ss| == n
    ensures forall k :: 0 <= k < n ==> ss[k] == Search(DashDb, p + k)
    decreases n
  {
    if n == 0 then [] else [Search(DashDb, p)] + SearchSequence(p + 1, n - 1)
  }

  lemma SearchSequenceStep(p: int, n: nat)
    requires n > 0
    ensures SearchSequence(p, n) == [Search(DashDb, p)] + SearchSequence(p + 1, n - 1)
  {
  }

  lemma {:induction false} FirstsConcat(a: seq<(Hit, JValue)>, b: seq<(Hit, JValue)>)
    ensures Firsts(a + b) == Firsts(a) + Firsts(b)
  {
  }

  lemma {:induction false} FetchesConcat(a: seq<Call>, b: seq<Call>)
    ensures Fetches(a + b) == Fetches(a) + Fetches(b)
  {
    if a == [] {
      assert a + b == b;
    } else {
      assert (a + b)[1..] == a[1..] + b;
      FetchesConcat(a[1..], b);
    }
  }

  lemma {:induction false} SearchesConcat(a: seq<Call>, b: seq<Call>)
    ensures Searches(a + b) == Searches(a) + Searches(b)
  {
    if a == [] {
      assert a + b == b;
    } else {
      assert (a + b)[1..] == a[1..] + b;
      SearchesConcat(a[1..], b);
    }
  }

  lemma {:induction false} UidsConcat(a: seq<Hit>, b: seq<Hit>)
    ensures Uids(a + b) == Uids(a) + Uids(b)
  {
  }

  /** A call after which the iterator returns: a search that fails or finds nothing, or a
      dashboard fetch that fails. */
  predicate Terminal(c: GrafanaClient, call: Call)
  {
    match call
    case Search(_, p) => SearchAnswer(c.search, p).Err? || SearchAnswer(c.search, p).value == []
    case GetDashboardByUID(u) => c.dashboards(u).Err?
    case GetDataSourceByName(_) => false
  }

  /** How a run may end: only its last call can be terminal, only its last pair can be one the
      consumer refused (and then the last call is that pair's fetch); a run that goes on has
      neither, and a run that returns does so for one of these reasons. */
  predicate StopsForReason(c: GrafanaClient, consumer: (Hit, JValue) -> bool, r: Run)
  {
    (forall j :: 0 <= j < |r.calls| - 1 ==> !Terminal(c, r.calls[j]))
    && (forall k :: 0 <= k < |r.yielded| && !consumer(r.yielded[k].0, r.yielded[k].1) ==>
          k == |r.yielded| - 1 && r.calls != [] && r.calls[|r.calls| - 1] == GetDashboardByUID(r.yielded[k].0.uid))
    && (!r.stopped ==>
          (forall j :: 0 <= j < |r.calls| ==> !Terminal(c, r.calls[j]))
          && (forall k :: 0 <= k < |r.yielded| ==> consumer(r.yielded[k].0, r.yielded[k].1)))
    && (r.stopped ==>
          r.calls != []
          && (Terminal(c, r.calls[|r.calls| - 1])
              || (r.yielded != [] && !consumer(r.yielded[|r.yielded| - 1].0, r.yielded[|r.yielded| - 1].1))))
  }

  lemma ThenStopsForReason(c: GrafanaClient, consumer: (Hit, JValue) -> bool, a: Run, b: Run)
    requires StopsForReason(c, consumer, a) && StopsForReason(c, consumer, b)
    requires !a.stopped && b.stopped ==> b.calls != []
    ensures StopsForReason(c, consumer, Then(a, b))
  {
    if !a.stopped {
      var t := Then(a, b);
      assert t.calls == a.calls + b.calls && t.yielded == a.yielded + b.yielded;
      forall j | 0 <= j < |t.calls| - 1
        ensures !Terminal(c, t.calls[j])
      {
        if j >= |a.calls| {
          assert t.calls[j] == b.calls[j - |a.calls|];
        }
      }
      forall k | 0 <= k < |t.yielded| && !consumer(t.yielded[k].0, t.yielded[k].1)
        ensures k == |t.yielded| - 1 && t.calls != [] && t.calls[|t.calls| - 1] == GetDashboardByUID(t.yielded[k].0.uid)
      {
        assert k >= |a.yielded|;
        assert t.yielded[k] == b.yielded[k - |a.yielded|];
        assert t.calls[|t.calls| - 1] == b.calls[|b.calls| - 1];
      }
      if !t.stopped {
        forall j | 0 <= j < |t.calls|
          ensures !Terminal(c, t.calls[j])
        {
          if j >= |a.calls| {
            assert t.calls[j] == b.calls[j - |a.calls|];
          }
        }
        forall k | 0 <= k < |t.yielded|
          ensures consumer(t.yielded[k].0, t.yielded[k].1)
        {
          if k >= |a.yielded| {
            assert t.yielded[k] == b.yielded[k - |a.yielded|];
          }
        }
      } else {
        assert t.calls[|t.calls| - 1] == b.calls[|b.calls| - 1];
        if !Terminal(c, b.calls[|b.calls| - 1]) {
          assert t.yielded[|t.yielded| - 1] == b.yielded[|b.yielded| - 1];
        }
      }
    }
  }

  /** One hit: what it selects, fetches and yields. */
  lemma HitRunFacts(c: GrafanaClient, folders: bool, args: set<string>, consumer: (Hit, JValue) -> bool, h: Hit)
    ensures var r := HitRun(c, folders, args, consumer, h);
      var sel := if Skipped(h, folders, args) then [] else [h];
      && Searches(r.calls) == []
      && Firsts(r.yielded) <= sel && Fetches(r.calls) <= Uids(sel)
      && (!r.stopped ==> Firsts(r.yielded) == sel && Fetches(r.calls) == Uids(sel))
      && Fetched(c, r.yielded)
      && (r.stopped ==> r.calls != [])
      && StopsForReason(c, consumer, r)
  {
    var r := HitRun(c, folders, args, consumer, h);
    if Skipped(h, folders, args) {
      assert r == Run([], [], false);
    } else if c.dashboards(h.uid).Err? {
      assert r == Run([], [GetDashboardByUID(h.uid)], true);
      assert Terminal(c, r.calls[0]);
    } else {
      var db := c.dashboards(h.uid).value;
      assert r == Run([(h, db)], [GetDashboardByUID(h.uid)], !consumer(h, db));
      assert !Terminal(c, r.calls[0]);
      assert Fetches(r.calls) == [h.uid] == Uids([h]);
    }
  }

  lemma PrefixThen<T>(x: seq<T>, y: seq<T>, p: seq<T>, z: seq<T>)
    requires x <= y
    ensures x <= y + z && p + x <= p + y
  {
    assert (y + z)[..|x|] == y[..|x|];
    assert (p + y)[..|p + x|] == p + y[..|x|];
  }

  /** The hits of a page: which are yielded and fetched, and the searches made (none). */
  lemma {:induction false} HitsRunSelection(c: GrafanaClient, folders: bool, args: set<string>, consumer: (Hit, JValue) -> bool, hits: seq<Hit>)
    ensures var r := HitsRun(c, folders, args, consumer, hits);
      && Searches(r.calls) == []
      && Firsts(r.yielded) <= Select(hits, folders, args)
      && Fetches(r.calls) <= Uids(Select(hits, folders, args))
      && (!r.stopped ==> Firsts(r.yielded) == Select(hits, folders, args) && Fetches(r.calls) == Uids(Select(hits, folders, args)))
  {
    if hits != [] {
      var h := hits[0];
      var a := HitRun(c, folders, args, consumer, h);
      var b := HitsRun(c, folders, args, consumer, hits[1..]);
      var r := HitsRun(c, folders, args, consumer, hits);
      var sel0 := if Skipped(h, folders, args) then [] else [h];
      var sel1 := Select(hits[1..], folders, args);
      assert r == Then(a, b);
      HitRunFacts(c, folders, args, consumer, h);
      HitsRunSelection(c, folders, args, consumer, hits[1..]);
      assert Select(hits, folders, args) == sel0 + sel1;
      UidsConcat(sel0, sel1);
      if a.stopped {
        assert r == a;
        PrefixThen(Firsts(a.yielded), sel0, [], sel1);
        PrefixThen(Fetches(a.calls), Uids(sel0), [], Uids(sel1));
      } else {
        assert r.yielded == a.yielded + b.yielded && r.calls == a.calls + b.calls;
        FirstsConcat(a.yielded, b.yielded);
        FetchesConcat(a.calls, b.calls);
        SearchesConcat(a.calls, b.calls);
        PrefixThen(Firsts(b.yielded), sel1, sel0, []);
        PrefixThen(Fetches(b.calls), Uids(sel1), Uids(sel0), []);
      }
    }
  }

  /** Every pair in `ys` holds what the fetch of its hit's UID returned. */
  predicate Fetched(c: GrafanaClient, ys: seq<(Hit, JValue)>)
  {
    forall k :: 0 <= k < |ys| ==> c.dashboards(ys[k].0.uid) == Ok(ys[k].1)
  }

  lemma FetchedConcat(c: GrafanaClient, a: seq<(Hit, JValue)>, b: seq<(Hit, JValue)>)
    requires Fetched(c, a) && Fetched(c, b)
    ensures Fetched(c, a + b)
  {
    forall k | 0 <= k < |a + b|
      ensures c.dashboards((a + b)[k].0.uid) == Ok((a + b)[k].1)
    {
      if k < |a| {
        assert (a + b)[k] == a[k];
      } else {
        assert (a + b)[k] == b[k - |a|];
      }
    }
  }

  /** The hits of a page: every yielded detail is what the fetch of that hit's UID returned. */
  lemma {:induction false} HitsRunDetails(c: GrafanaClient, folders: bool, args: set<string>, consumer: (Hit, JValue) -> bool, hits: seq<Hit>)
    ensures Fetched(c, HitsRun(c, folders, args, consumer, hits).yielded)
  {
    if hits != [] {
      var a := HitRun(c, folders, args, consumer, hits[0]);
      var b := HitsRun(c, folders, args, consumer, hits[1..]);
      var r := HitsRun(c, folders, args, consumer, hits);
      assert r == Then(a, b);
      HitRunFacts(c, folders, args, consumer, hits[0]);
      assert Fetched(c, a.yielded);
      HitsRunDetails(c, folders, args, consumer, hits[1..]);
      if !a.stopped {
        FetchedConcat(c, a.yielded, b.yielded);
      }
    }
  }

  /** The hits of a page: the run ends only for a reason. */
  lemma {:induction false} HitsRunStops(c: GrafanaClient, folders: bool, args: set<string>, consumer: (Hit, JValue) -> bool, hits: seq<Hit>)
    ensures var r := HitsRun(c, folders, args, consumer, hits);
      (r.stopped ==> r.calls != []) && StopsForReason(c, consumer, r)
  {
    if hits != [] {
      var a := HitRun(c, folders, args, consumer, hits[0]);
      var b := HitsRun(c, folders, args, consumer, hits[1..]);
      HitRunFacts(c, folders, args, consumer, hits[0]);
      HitsRunStops(c, folders, args, consumer, hits[1..]);
      ThenStopsForReason(c, consumer, a, b);
    }
  }

  /** The pages from `page` on: the pairs yielded are the selected hits, in page order and then
      hit order, up to some point; the fetches are the UIDs of a prefix of them; every yielded
      detail is the fetched dashboard. */
  lemma {:induction false} PagesRunSelection(c: GrafanaClient, folders: bool, args: set<string>, consumer: (Hit, JValue) -> bool, page: nat)
    ensures var r := PagesRun(c, folders, args, consumer, page);
      && Firsts(r.yielded) <= Selected(c, folders, args, page)
      && Fetches(r.calls) <= Uids(Selected(c, folders, args, page))
      && Fetched(c, r.yielded)
    decreases |c.search| - page
  {
    var r := PagesRun(c, folders, args, consumer, page);
    var ans := SearchAnswer(c.search, page);
    if ans.Ok? && ans.value != [] {
      var hits := ans.value;
      var h := HitsRun(c, folders, args, consumer, hits);
      var rest := PagesRun(c, folders, args, consumer, page + 1);
      var sel0 := Select(hits, folders, args);
      var sel1 := Selected(c, folders, args, page + 1);
      assert r == Then(Run([], [Search(DashDb, page)], false), Then(h, rest));
      assert Selected(c, folders, args, page) == sel0 + sel1;
      HitsRunSelection(c, folders, args, consumer, hits);
      HitsRunDetails(c, folders, args, consumer, hits);
      UidsConcat(sel0, sel1);
      FetchesConcat([Search(DashDb, page)], Then(h, rest).calls);
      assert [] + Then(h, rest).yielded == Then(h, rest).yielded;
      if h.stopped {
        assert r.yielded == h.yielded;
        assert Fetches(r.calls) == Fetches(h.calls);
        PrefixThen(Firsts(h.yielded), sel0, [], sel1);
        PrefixThen(Fetches(h.calls), Uids(sel0), [], Uids(sel1));
      } else {
        PagesRunSelection(c, folders, args, consumer, page + 1);
        assert r.yielded == h.yielded + rest.yielded;
        assert Fetches(r.calls) == Fetches(h.calls + rest.calls);
        FirstsConcat(h.yielded, rest.yielded);
        FetchesConcat(h.calls, rest.calls);
        FetchedConcat(c, h.yielded, rest.yielded);
        PrefixThen(Firsts(rest.yielded), sel1, sel0, []);
        PrefixThen(Fetches(rest.calls), Uids(sel1), Uids(sel0), []);
      }
    }
  }

  /** The pages from `page` on: the searches are for dash-db and for the pages page, page + 1,
      ... in increasing order, never past the first page that fails or comes back empty. */
  lemma {:induction false} PagesRunSearches(c: GrafanaClient, folders: bool, args: set<string>, consumer: (Hit, JValue) -> bool, page: nat)
    ensures var r := PagesRun(c, folders, args, consumer, page);
      var n := |Searches(r.calls)|;
      && 1 <= n <= LastPage(c, page) - page + 1
      && Searches(r.calls) == SearchSequence(page, n)
    decreases |c.search| - page
  {
    var r := PagesRun(c, folders, args, consumer, page);
    var ans := SearchAnswer(c.search, page);
    if ans.Ok? && ans.value != [] {
      var hits := ans.value;
      var h := HitsRun(c, folders, args, consumer, hits);
      var rest := PagesRun(c, folders, args, consumer, page + 1);
      assert r.calls == [Search(DashDb, page)] + Then(h, rest).calls by {
        PagesRunStep(c, folders, args, consumer, page);
      }
      SearchesConcat([Search(DashDb, page)], Then(h, rest).calls);
      assert Searches([Search(DashDb, page)]) == [Search(DashDb, page)];
      if h.stopped {
        assert Searches(h.calls) == [] by {
          HitsRunSelection(c, folders, args, consumer, hits);
        }
        assert Searches(r.calls) == SearchSequence(page, 1);
      } else {
        var m := |Searches(rest.calls)|;
        assert 1 <= m <= LastPage(c, page) - page && Searches(rest.calls) == SearchSequence(page + 1, m) by {
          PagesRunSearches(c, folders, args, consumer, page + 1);
        }
        assert Searches(h.calls + rest.calls) == Searches(rest.calls) by {
          HitsRunSelection(c, folders, args, consumer, hits);
          SearchesConcat(h.calls, rest.calls);
        }
        SearchSequenceStep(page, m + 1);
      }
    } else {
      assert r.calls == [Search(DashDb, page)];
      assert Searches(r.calls) == SearchSequence(page, 1);
    }
  }

  /** The pages from `page` on: the iterator always returns in the end, and it returns only
      after a failed or empty search, a failed fetch, or a pair the consumer refused; no call
      follows any of these. */
  lemma {:induction false} PagesRunStops(c: GrafanaClient, folders: bool, args: set<string>, consumer: (Hit, JValue) -> bool, page: nat)
    ensures var r := PagesRun(c, folders, args, consumer, page);
      r.stopped && r.calls != [] && StopsForReason(c, consumer, r)
    decreases |c.search| - page
  {
    var r := PagesRun(c, folders, args, consumer, page);
    var ans := SearchAnswer(c.search, page);
    if ans.Ok? && ans.value != [] {
      var hits := ans.value;
      var h := HitsRun(c, folders, args, consumer, hits);
      var rest := PagesRun(c, folders, args, consumer, page + 1);
      var s := Run([], [Search(DashDb, page)], false);
      assert r == Then(s, Then(h, rest));
      assert !Terminal(c, Search(DashDb, page));
      assert StopsForReason(c, consumer, s);
      HitsRunStops(c, folders, args, consumer, hits);
      PagesRunStops(c, folders, args, consumer, page + 1);
      ThenStopsForReason(c, consumer, h, rest);
      ThenStopsForReason(c, consumer, s, Then(h, rest));
    } else {
      assert r == Run([], [Search(DashDb, page)], true);
      assert Terminal(c, r.calls[0]);
    }
  }

  /** Every hit of `hits` that the filter lets through fetches without an error, and the
      consumer accepts it together with its fetched model. */
  ghost predicate AllAccepted(c: GrafanaClient, folders: bool, args: set<string>, consumer: (Hit, JValue) -> bool, hits: seq<Hit>)
  {
    forall h :: h in hits && !Skipped(h, folders, args) ==> c.dashboards(h.uid).Ok? && consumer(h, c.dashboards(h.uid).value)
  }

  lemma AllAcceptedSplit(c: GrafanaClient, folders: bool, args: set<string>, consumer: (Hit, JValue) -> bool, a: seq<Hit>, b: seq<Hit>)
    requires AllAccepted(c, folders, args, consumer, a + b)
    ensures AllAccepted(c, folders, args, consumer, a) && AllAccepted(c, folders, args, consumer, b)
  {
    assert forall h :: h in a ==> h in a + b;
    assert forall h :: h in b ==> h in a + b;
  }

  /** The fetches of one page that has hits: those of its hits, then those of the later
      pages. */
  lemma PageFetches(page: nat, hitCalls: seq<Call>, restCalls: seq<Call>)
    ensures Fetches([Search(DashDb, page)] + (hitCalls + restCalls)) == Fetches(hitCalls) + Fetches(restCalls)
  {
    var later := hitCalls + restCalls;
    assert ([Search(DashDb, page)] + later)[1..] == later;
    assert Fetches([Search(DashDb, page)] + later) == Fetches(later);
    FetchesConcat(hitCalls, restCalls);
  }

  /** The searches of one page whose hits search nothing: its own, then those of the later
      pages. */
  lemma PageSearches(page: nat, hitCalls: seq<Call>, restCalls: seq<Call>)
    requires Searches(hitCalls) == []
    ensures Searches([Search(DashDb, page)] + (hitCalls + restCalls)) == [Search(DashDb, page)] + Searches(restCalls)
  {
    var later := hitCalls + restCalls;
    assert ([Search(DashDb, page)] + later)[1..] == later;
    SearchesConcat(hitCalls, restCalls);
    assert Searches(later) == Searches(restCalls);
  }

  /** A page whose selected hits all fetch, each accepted by the consumer with its model, does
      not make the iterator return. */
  lemma {:induction false} HitsRunComplete(c: GrafanaClient, folders: bool, args: set<string>, consumer: (Hit, JValue) -> bool, hits: seq<Hit>)
    requires AllAccepted(c, folders, args, consumer, hits)
    ensures !HitsRun(c, folders, args, consumer, hits).stopped
  {
    if hits != [] {
      assert hits == [hits[0]] + hits[1..];
      AllAcceptedSplit(c, folders, args, consumer, [hits[0]], hits[1..]);
      assert hits[0] in [hits[0]];
      HitsRunComplete(c, folders, args, consumer, hits[1..]);
    }
  }

  /** The pages from `page` on, when every selected hit fetches and is accepted by the consumer
      with its model: every selected hit is fetched and yielded, in page order and then hit order. */
  lemma {:induction false} PagesRunAllSelected(c: GrafanaClient, folders: bool, args: set<string>, consumer: (Hit, JValue) -> bool, page: nat)
    requires AllAccepted(c, folders, args, consumer, AllHits(c, page))
    ensures var r := PagesRun(c, folders, args, consumer, page);
      && Firsts(r.yielded) == Selected(c, folders, args, page)
      && Fetches(r.calls) == Uids(Selected(c, folders, args, page))
    decreases |c.search| - page
  {
    var r := PagesRun(c, folders, args, consumer, page);
    var ans := SearchAnswer(c.search, page);
    if ans.Ok? && ans.value != [] {
      var hits := ans.value;
      var h := HitsRun(c, folders, args, consumer, hits);
      var rest := PagesRun(c, folders, args, consumer, page + 1);
      var sel0 := Select(hits, folders, args);
      var sel1 := Selected(c, folders, args, page + 1);
      assert AllAccepted(c, folders, args, consumer, hits) && AllAccepted(c, folders, args, consumer, AllHits(c, page + 1)) by {
        assert AllHits(c, page) == hits + AllHits(c, page + 1);
        AllAcceptedSplit(c, folders, args, consumer, hits, AllHits(c, page + 1));
      }
      assert !h.stopped by {
        HitsRunComplete(c, folders, args, consumer, hits);
      }
      assert r.calls == [Search(DashDb, page)] + (h.calls + rest.calls) && r.yielded == h.yielded + rest.yielded by {
        PagesRunStep(c, folders, args, consumer, page);
      }
      assert Firsts(rest.yielded) == sel1 && Fetches(rest.calls) == Uids(sel1) by {
        PagesRunAllSelected(c, folders, args, consumer, page + 1);
      }
      assert Firsts(h.yielded) == sel0 && Fetches(h.calls) == Uids(sel0) by {
        HitsRunSelection(c, folders, args, consumer, hits);
      }
      assert Selected(c, folders, args, page) == sel0 + sel1;
      FirstsConcat(h.yielded, rest.yielded);
      UidsConcat(sel0, sel1);
      PageFetches(page, h.calls, rest.calls);
    } else {
      assert r.calls == [Search(DashDb, page)];
      assert Fetches(r.calls) == [] by {
        assert r.calls[1..] == [];
      }
    }
  }

  /** The pages from `page` on, when every selected hit fetches and is accepted by the consumer
      with its model: the pages are searched in order up to and including the first failing or
      empty one. */
  lemma {:induction false} PagesRunAllSearched(c: GrafanaClient, folders: bool, args: set<string>, consumer: (Hit, JValue) -> bool, page: nat)
    requires AllAccepted(c, folders, args, consumer, AllHits(c, page))
    ensures var r := PagesRun(c, folders, args, consumer, page);
      Searches(r.calls) == SearchSequence(page, LastPage(c, page) - page + 1)
    decreases |c.search| - page
  {
    var r := PagesRun(c, folders, args, consumer, page);
    var ans := SearchAnswer(c.search, page);
    if ans.Ok? && ans.value != [] {
      var hits := ans.value;
      var h := HitsRun(c, folders, args, consumer, hits);
      var rest := PagesRun(c, folders, args, consumer, page + 1);
      assert AllAccepted(c, folders, args, consumer, hits) && AllAccepted(c, folders, args, consumer, AllHits(c, page + 1)) by {
        assert AllHits(c, page) == hits + AllHits(c, page + 1);
        AllAcceptedSplit(c, folders, args, consumer, hits, AllHits(c, page + 1));
      }
      assert !h.stopped by {
        HitsRunComplete(c, folders, args, consumer, hits);
      }
      assert r.calls == [Search(DashDb, page)] + (h.calls + rest.calls) by {
        PagesRunStep(c, folders, args, consumer, page);
      }
      var n: nat := LastPage(c, page + 1) - page;
      assert Searches(rest.calls) == SearchSequence(page + 1, n) by {
        PagesRunAllSearched(c, folders, args, consumer, page + 1);
      }
      assert Searches(h.calls) == [] by {
        HitsRunSelection(c, folders, args, consumer, hits);
      }
      assert LastPage(c, page) - page + 1 == n + 1;
      PageSearches(page, h.calls, rest.calls);
      SearchSequenceStep(page, n + 1);
    } else {
      assert r.calls == [Search(DashDb, page)];
      assert Searches(r.calls) == SearchSequence(page, 1);
    }
  }

  /** The pages from `page` on, when every selected hit fetches and is accepted by the consumer
      with its model: every selected hit is fetched and yielded, in page order and then hit order,
      and the pages are searched up to and including the first failing or empty one. */
  lemma PagesRunComplete(c: GrafanaClient, folders: bool, args: set<string>, consumer: (Hit, JValue) -> bool, page: nat)
    requires AllAccepted(c, folders, args, consumer, AllHits(c, page))
    ensures var r := PagesRun(c, folders, args, consumer, page);
      && Firsts(r.yielded) == Selected(c, folders, args, page)
      && Fetches(r.calls) == Uids(Selected(c, folders, args, page))
      && Searches(r.calls) == SearchSequence(page, LastPage(c, page) - page + 1)
  {
    PagesRunAllSelected(c, folders, args, consumer, page);
    PagesRunAllSearched(c, folders, args, consumer, page);
  }

  /** The pages from `page` on, when every selected hit fetches and is accepted by the consumer
      with its model: the last call is the search of the first failing or empty page. */
  lemma {:induction false} PagesRunLastCall(c: GrafanaClient, folders: bool, args: set<string>, consumer: (Hit, JValue) -> bool, page: nat)
    requires AllAccepted(c, folders, args, consumer, AllHits(c, page))
    ensures var r := PagesRun(c, folders, args, consumer, page);
      r.calls != [] && r.calls[|r.calls| - 1] == Search(DashDb, LastPage(c, page))
    decreases |c.search| - page
  {
    var ans := SearchAnswer(c.search, page);
    if ans.Ok? && ans.value != [] {
      var hits := ans.value;
      var h := HitsRun(c, folders, args, consumer, hits);
      var rest := PagesRun(c, folders, args, consumer, page + 1);
      assert AllHits(c, page) == hits + AllHits(c, page + 1);
      AllAcceptedSplit(c, folders, args, consumer, hits, AllHits(c, page + 1));
      assert !h.stopped by {
        HitsRunComplete(c, folders, args, consumer, hits);
      }
      PagesRunLastCall(c, folders, args, consumer, page + 1);
      var r := PagesRun(c, folders, args, consumer, page);
      assert r.calls == [Search(DashDb, page)] + (h.calls + rest.calls) by {
        PagesRunStep(c, folders, args, consumer, page);
      }
      assert r.calls[|r.calls| - 1] == rest.calls[|rest.calls| - 1];
    }
  }

  /** With no names to match, the filter lets every hit through. */
  lemma {:induction false} SelectWithoutArgs(hits: seq<Hit>, folders: bool, args: set<string>)
    requires |args| == 0
    ensures Select(hits, folders, args) == hits
  {
    if hits != [] {
      SelectWithoutArgs(hits[1..], folders, args);
    }
  }

  lemma {:induction false} SelectedWithoutArgs(c: GrafanaClient, folders: bool, args: set<string>, page: nat)
    requires |args| == 0
    ensures Selected(c, folders, args, page) == AllHits(c, page)
    decreases |c.search| - page
  {
    var ans := SearchAnswer(c.search, page);
    if ans.Ok? && ans.value != [] {
      SelectWithoutArgs(ans.value, folders, args);
      SelectedWithoutArgs(c, folders, args, page + 1);
    }
  }

  /** A selected hit is a hit of the pages searched that the filter does not skip. */
  lemma {:induction false} SelectedMembers(c: GrafanaClient, folders: bool, args: set<string>, page: nat)
    ensures forall h :: h in Selected(c, folders, args, page) ==> h in AllHits(c, page) && !Skipped(h, folders, args)
    decreases |c.search| - page
  {
    var ans := SearchAnswer(c.search, page);
    if ans.Ok? && ans.value != [] {
      SelectedMembers(c, folders, args, page + 1);
      var sel0 := Select(ans.value, folders, args);
      assert Selected(c, folders, args, page) == sel0 + Selected(c, folders, args, page + 1);
      assert AllHits(c, page) == ans.value + AllHits(c, page + 1);
    }
  }

  /** With non-empty args, the filter lets a hit through iff its title (or, in folder mode,
      its folder title) is one of args. */
  lemma SelectMembership(hits: seq<Hit>, folders: bool, args: set<string>, h: Hit)
    requires |args| > 0
    ensures h in Select(hits, folders, args) <==> h in hits && (if folders then h.folderTitle in args else h.title in args)
  {
    if hits != [] {
      SelectMembership(hits[1..], folders, args, h);
      assert h in hits <==> h == hits[0] || h in hits[1..];
    }
  }

  // ----- grafanaDashboards, from the first page -----

  /** Searches are for dash-db, for pages 1, 2, 3, ... in increasing order, and never go
      past the first page whose search fails or comes back empty. */
  lemma DashboardsSearches(c: GrafanaClient, folders: bool, args: set<string>, consumer: (Hit, JValue) -> bool)
    ensures var calls := DashboardsRun(c, folders, args, consumer).calls;
      var n := |Searches(calls)|;
      && 1 <= n <= LastPage(c, 1)
      && Searches(calls) == SearchSequence(1, n)
  {
    PagesRunSearches(c, folders, args, consumer, FirstPage);
  }

  /** Only selected hits are fetched and yielded, in page order and then hit order; each
      yielded detail is the fetched dashboard (a failed fetch never reaches the consumer). */
  lemma DashboardsSelection(c: GrafanaClient, folders: bool, args: set<string>, consumer: (Hit, JValue) -> bool)
    ensures var r := DashboardsRun(c, folders, args, consumer);
      && Firsts(r.yielded) <= Selected(c, folders, args, FirstPage)
      && Fetches(r.calls) <= Uids(Selected(c, folders, args, FirstPage))
      && Fetched(c, r.yielded)
  {
    PagesRunSelection(c, folders, args, consumer, FirstPage);
  }

  /** A failed or empty search, a failed fetch and a refused pair each end the iteration:
      no call follows them, and only the last pair can be a refused one. */
  lemma DashboardsStop(c: GrafanaClient, folders: bool, args: set<string>, consumer: (Hit, JValue) -> bool)
    ensures StopsForReason(c, consumer, DashboardsRun(c, folders, args, consumer))
  {
    PagesRunStops(c, folders, args, consumer, FirstPage);
  }

  /** When every selected hit fetches and is accepted by the consumer, every selected hit
      is fetched and yielded, and pages 1 to the first failing or empty one are searched. */
  lemma DashboardsComplete(c: GrafanaClient, folders: bool, args: set<string>, consumer: (Hit, JValue) -> bool)
    requires AllAccepted(c, folders, args, consumer, AllHits(c, FirstPage))
    ensures var r := DashboardsRun(c, folders, args, consumer);
      && Firsts(r.yielded) == Selected(c, folders, args, FirstPage)
      && Fetches(r.calls) == Uids(Selected(c, folders, args, FirstPage))
      && Searches(r.calls) == SearchSequence(1, LastPage(c, 1))
  {
    PagesRunComplete(c, folders, args, consumer, FirstPage);
  }

  /** With an empty args set, every hit is fetched and yielded, in page order and then hit
      order, when every fetch succeeds and the consumer accepts every fetched hit. */
  lemma DashboardsWithoutArgs(c: GrafanaClient, folders: bool, args: set<string>, consumer: (Hit, JValue) -> bool)
    requires |args| == 0
    requires AllAccepted(c, folders, args, consumer, AllHits(c, FirstPage))
    ensures Firsts(DashboardsRun(c, folders, args, consumer).yielded) == AllHits(c, FirstPage)
  {
    PagesRunComplete(c, folders, args, consumer, FirstPage);
    SelectedWithoutArgs(c, folders, args, FirstPage);
  }

  // ----- grafanaDataSources -----

  /** What grafanaDataSources does for a consumer: the datasources it yields, the lookups it
      makes, and whether the consumer stopped it. */
  datatype SourcesRun = SourcesRun(yielded: seq<DataSource>, calls: seq<Call>, stopped: bool)

  /** grafanaDataSources over `names`: each name is looked up in order; a failed lookup is
      skipped, and a datasource the consumer refuses ends the iteration. */
  function DataSourcesRun(c: GrafanaClient, names: seq<string>, consumer: DataSource -> bool): SourcesRun
    decreases |names|
  {
    if names == [] then SourcesRun([], [], false)
    else
      var call := GetDataSourceByName(names[0]);
      match c.datasources(names[0])
      case Err(_) =>
        var rest := DataSourcesRun(c, names[1..], consumer);
        SourcesRun(rest.yielded, [call] + rest.calls, rest.stopped)
      case Ok(ds) =>
        if !consumer(ds) then SourcesRun([ds], [call], true)
        else
          var rest := DataSourcesRun(c, names[1..], consumer);
          SourcesRun([ds] + rest.yielded, [call] + rest.calls, rest.stopped)
  }

  /** grafanaDataSources, run to completion with `consumer` as the yield function. */
  method GrafanaDataSources(c: GrafanaClient, names: seq<string>, consumer: DataSource -> bool)
    returns (yielded: seq<DataSource>, calls: seq<Call>)
    ensures yielded == DataSourcesRun(c, names, consumer).yielded
    ensures calls == DataSourcesRun(c, names, consumer).calls
  {
    ghost var total := DataSourcesRun(c, names, consumer);
    yielded, calls := [], [];
    var i := 0;
    assert names[0..] == names;
    while i < |names|
      invariant 0 <= i <= |names|
      invariant total.yielded == yielded + DataSourcesRun(c, names[i..], consumer).yielded
      invariant total.calls == calls + DataSourcesRun(c, names[i..], consumer).calls
      invariant total.stopped == DataSourcesRun(c, names[i..], consumer).stopped
    {
      var name := names[i];
      assert names[i..][1..] == names[i + 1..];
      ghost var rest := DataSourcesRun(c, names[i + 1..], consumer);
      var ds := c.datasources(name);
      calls := calls + [GetDataSourceByName(name)];
      if ds.Err? {
        i := i + 1;
        continue;
      }
      yielded := yielded + [ds.value];
      if !consumer(ds.value) {
        assert total.yielded == yielded && total.calls == calls;
        return;
      }
      i := i + 1;
    }
  }

  /** The datasources found among `names`, in order. */
  function Found(c: GrafanaClient, names: seq<string>): seq<DataSource>
    decreases |names|
  {
    if names == [] then []
    else (match c.datasources(names[0]) case Ok(ds) => [ds] case Err(_) => []) + Found(c, names[1..])
  }

  function Lookups(names: seq<string>): (ls: seq<Call>)
    ensures |ls| == |names|
    ensures forall k :: 0 <= k < |names| ==> ls[k] == GetDataSourceByName(names[k])
  {
    if names == [] then [] else [GetDataSourceByName(names[0])] + Lookups(names[1..])
  }

  /** The names are looked up in order, and a failed lookup does not stop the later ones:
      the lookups are a prefix of all of them and what is yielded is a prefix of the
      datasources found; a run the consumer never stopped looks up every name and yields
      every datasource found. */
  lemma {:induction false} DataSourcesOrder(c: GrafanaClient, names: seq<string>, consumer: DataSource -> bool)
    ensures var r := DataSourcesRun(c, names, consumer);
      && r.calls <= Lookups(names)
      && r.yielded <= Found(c, names)
      && (!r.stopped ==> r.calls == Lookups(names) && r.yielded == Found(c, names))
    decreases |names|
  {
    if names != [] {
      DataSourcesOrder(c, names[1..], consumer);
      var rest := DataSourcesRun(c, names[1..], consumer);
      var f0 := match c.datasources(names[0]) case Ok(ds) => [ds] case Err(_) => [];
      assert Found(c, names) == f0 + Found(c, names[1..]);
      assert Lookups(names) == [GetDataSourceByName(names[0])] + Lookups(names[1..]);
      PrefixThen(rest.calls, Lookups(names[1..]), [GetDataSourceByName(names[0])], []);
      PrefixThen(rest.yielded, Found(c, names[1..]), f0, []);
      assert f0 + Found(c, names[1..]) + [] == Found(c, names);
      assert [GetDataSourceByName(names[0])] + Lookups(names[1..]) + [] == Lookups(names);
    }
  }

  /** The iteration stops exactly when the consumer refuses a datasource: only the last one
      yielded can be refused, and the lookup that found it is the last call. */
  lemma {:induction false} DataSourcesStop(c: GrafanaClient, names: seq<string>, consumer: DataSource -> bool)
    ensures var r := DataSourcesRun(c, names, consumer);
      && (forall k :: 0 <= k < |r.yielded| - 1 ==> consumer(r.yielded[k]))
      && (r.stopped <==> r.yielded != [] && !consumer(r.yielded[|r.yielded| - 1]))
      && (r.stopped ==>
            r.calls != [] && r.calls[|r.calls| - 1].GetDataSourceByName?
            && c.datasources(r.calls[|r.calls| - 1].name) == Ok(r.yielded[|r.yielded| - 1]))
    decreases |names|
  {
    if names != [] {
      DataSourcesStop(c, names[1..], consumer);
      var r := DataSourcesRun(c, names, consumer);
      var rest := DataSourcesRun(c, names[1..], consumer);
      match c.datasources(names[0])
      case Err(_) =>
        assert r.yielded == rest.yielded;
        assert r.calls == [GetDataSourceByName(names[0])] + rest.calls;
      case Ok(ds) =>
        if consumer(ds) {
          assert r.yielded == [ds] + rest.yielded;
          assert r.calls == [GetDataSourceByName(names[0])] + rest.calls;
          if rest.stopped {
            assert r.calls[|r.calls| - 1] == rest.calls[|rest.calls| - 1];
            assert r.yielded[|r.yielded| - 1] == rest.yielded[|rest.yielded| - 1];
          }
          forall k | 0 <= k < |r.yielded| - 1
            ensures consumer(r.yielded[k])
          {
            if k > 0 {
              assert r.yielded[k] == rest.yielded[k - 1];
            }
          }
        }
    }
  }
}
