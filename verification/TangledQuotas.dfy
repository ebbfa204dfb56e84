/**
 The condition on requests is needed: whenever pairs of route and consumer are tangled, some
 run within them, all of whose requests succeed, leaves a quota out of force.
 */
module TangledQuotas {
  import opened Sequences
  import opened KongStore
  import opened PluginSearch
  import opened RouteEdits
  import opened KongClients
  import opened Names
  import opened AccessRequests
  import opened RouteAccess
  import opened RouteQuotas
  import opened AccessRuns
  import opened QuotaRuns
  import opened RequestRetries

  const CHECKED := Agent(false, [])

  /** A request whose consumer is recorded. */
  lemma RecordedRequest(w: World, req: Request, app: string, v: string)
    requires Good(w.kong, v) && req.workspace == v != "" && req.route != "" && app != ""
    requires RecordedId(w, req.app, v) == app && req.quota.Some? && req.quota.value.interval != Weekly
    ensures
      var k' := GrantAccess(w.kong, GOOD_NET, v, req.route, app, req.quota).0;
      && Perform(w, GOOD_NET, CHECKED, ProvisionAccess(req)).0 == w.(kong := k') && Good(k', v)
      && GrantAccess(w.kong, GOOD_NET, v, req.route, app, req.quota).2 == Success
      && QuotaEventOf(w, GOOD_NET, CHECKED, ProvisionAccess(req), v) == Placed(req.route, app, req.quota.value)
  {
    GoodAccessStays(w.kong, v, req.route, app, req.quota.value);
    AgainInCalls(w, GOOD_NET, req, app);
  }

  /** An empty workspace and two applications with their recorded consumers. */
  function TwoApps(a: string, b: string): World {
    var key := WksPrefixName(DEFAULT_WORKSPACE, APP_ID);
    World(Kong(map[DEFAULT_WORKSPACE := EMPTY_STORE], 0),
          map["first" := Application("1", map[key := a]), "second" := Application("2", map[key := b])])
  }

  function Asking(app: string, route: string, q: QuotaRequest): Step {
    ProvisionAccess(Request(app, DEFAULT_WORKSPACE, route, Some(q)))
  }

  lemma OneMoreRequest(w: World, steps: seq<Step>, name: string, route: string, app: string, q: QuotaRequest)
    requires Good(Run(w, GOOD_NET, CHECKED, steps).kong, DEFAULT_WORKSPACE)
    requires Run(w, GOOD_NET, CHECKED, steps).apps == w.apps && RecordedId(w, name, DEFAULT_WORKSPACE) == app
    requires route != "" && app != "" && q.interval != Weekly
    ensures
      var k := Run(w, GOOD_NET, CHECKED, steps).kong;
      var (k', _, status) := GrantAccess(k, GOOD_NET, DEFAULT_WORKSPACE, route, app, Some(q));
      var longer := steps + [Asking(name, route, q)];
      && status == Success && Good(k', DEFAULT_WORKSPACE)
      && Run(w, GOOD_NET, CHECKED, longer) == World(k', w.apps)
      && QuotaEvents(w, GOOD_NET, CHECKED, longer, DEFAULT_WORKSPACE)
         == QuotaEvents(w, GOOD_NET, CHECKED, steps, DEFAULT_WORKSPACE) + [Placed(route, app, q)]
  {
    var w1 := Run(w, GOOD_NET, CHECKED, steps);
    assert RecordedId(w1, name, DEFAULT_WORKSPACE) == app;
    RecordedRequest(w1, Request(name, DEFAULT_WORKSPACE, route, Some(q)), app, DEFAULT_WORKSPACE);
    RunOneMore(w, GOOD_NET, CHECKED, steps, Asking(name, route, q), DEFAULT_WORKSPACE);
  }

  /** The workspace after some requests: these rate-limiting plugins, and the same applications. */
  ghost predicate Reached(w: World, steps: seq<Step>, quotas: seq<Plugin>, events: seq<QuotaEvent>) {
    var w1 := Run(w, GOOD_NET, CHECKED, steps);
    && Good(w1.kong, DEFAULT_WORKSPACE) && w1.apps == w.apps
    && QuotaPlugins(w1.kong, DEFAULT_WORKSPACE) == quotas
    && QuotaEvents(w, GOOD_NET, CHECKED, steps, DEFAULT_WORKSPACE) == events
  }

  lemma FirstRequest(w: World, name: string, route: string, app: string, q: QuotaRequest)
    returns (steps: seq<Step>, p: Plugin)
    requires Reached(w, [], [], []) && RecordedId(w, name, DEFAULT_WORKSPACE) == app
    requires route != "" && app != "" && q.interval != Weekly
    ensures Reached(w, steps, [p], [Placed(route, app, q)]) && Exact(p, QuotaQuery(route, app))
  {
    OneMoreRequest(w, [], name, route, app, q);
    p := FirstAccess(w.kong, GOOD_NET, DEFAULT_WORKSPACE, route, app, q);
    steps := [] + [Asking(name, route, q)];
    assert [] + [Placed(route, app, q)] == [Placed(route, app, q)];
  }

  lemma SecondRequest(
      w: World, first: seq<Step>, p1: Plugin, events: seq<QuotaEvent>,
      name: string, r1: string, r2: string, a: string, b: string, q: QuotaRequest)
    returns (steps: seq<Step>, p2: Plugin)
    requires Reached(w, first, [p1], events) && RecordedId(w, name, DEFAULT_WORKSPACE) == b
    requires r1 != "" && r2 != "" && a != "" && b != "" && r1 != r2 && a != b && q.interval != Weekly
    requires Exact(p1, QuotaQuery(r1, a))
    ensures Reached(w, steps, [p1, p2], events + [Placed(r2, b, q)])
    ensures Exact(p2, QuotaQuery(r2, b)) && p2.enabled
  {
    OneMoreRequest(w, first, name, r2, b, q);
    p2 := SecondAccess(Run(w, GOOD_NET, CHECKED, first).kong, GOOD_NET, DEFAULT_WORKSPACE, p1, r1, r2, a, b, q);
    steps := first + [Asking(name, r2, q)];
  }

  lemma ThirdRequest(
      w: World, two: seq<Step>, p1: Plugin, p2: Plugin, events: seq<QuotaEvent>,
      name: string, r1: string, r2: string, a: string, b: string, q: QuotaRequest)
    requires Reached(w, two, [p1, p2], events) && RecordedId(w, name, DEFAULT_WORKSPACE) == b
    requires r1 != "" && r2 != "" && a != "" && b != "" && r1 != r2 && a != b && q.interval != Weekly
    requires Exact(p1, QuotaQuery(r1, a)) && Exact(p2, QuotaQuery(r2, b)) && p2.enabled
    ensures Reached(w, two + [Asking(name, r1, q)], [p1, p2], events + [Placed(r1, b, q)])
  {
    OneMoreRequest(w, two, name, r1, b, q);
    ThirdAccess(Run(w, GOOD_NET, CHECKED, two).kong, GOOD_NET, DEFAULT_WORKSPACE, p1, p2, r1, r2, a, b, q);
  }

  lemma TwoAppsAreRecorded(a: string, b: string)
    ensures RecordedId(TwoApps(a, b), "first", DEFAULT_WORKSPACE) == a
    ensures RecordedId(TwoApps(a, b), "second", DEFAULT_WORKSPACE) == b
    ensures Reached(TwoApps(a, b), [], [], [])
  {
  }

  lemma ThreeRequests(
      w: World, r1: string, r2: string, a: string, b: string, qa: QuotaRequest, qb: QuotaRequest, qc: QuotaRequest)
    returns (steps: seq<Step>)
    requires Reached(w, [], [], [])
    requires RecordedId(w, "first", DEFAULT_WORKSPACE) == a && RecordedId(w, "second", DEFAULT_WORKSPACE) == b
    requires r1 != "" && r2 != "" && a != "" && b != "" && r1 != r2 && a != b
    requires qa.interval != Weekly && qb.interval != Weekly && qc.interval != Weekly
    ensures QuotaEvents(w, GOOD_NET, CHECKED, steps, DEFAULT_WORKSPACE)
            == [Placed(r1, a, qa)] + [Placed(r2, b, qb)] + [Placed(r1, b, qc)]
    ensures !FollowsAfter(w, GOOD_NET, CHECKED, steps, DEFAULT_WORKSPACE)
  {
    var one, p1 := FirstRequest(w, "first", r1, a, qa);
    var two, p2 := SecondRequest(w, one, p1, [Placed(r1, a, qa)], "second", r1, r2, a, b, qb);
    ThirdRequest(w, two, p1, p2, [Placed(r1, a, qa)] + [Placed(r2, b, qb)], "second", r1, r2, a, b, qc);
    LastQuotaIsLost(w, two, Asking("second", r1, qc), p1, p2, r1, r2, a, b, qc);
    return two + [Asking("second", r1, qc)];
  }

  /** Three requests, for (R1, A), (R2, B) and (R1, B): all succeed, and B is not limited on
      R1. */
  lemma TangledRunDoesNotFollow(
      r1: string, r2: string, a: string, b: string, qa: QuotaRequest, qb: QuotaRequest, qc: QuotaRequest)
    returns (steps: seq<Step>)
    requires r1 != "" && r2 != "" && a != "" && b != "" && r1 != r2 && a != b
    requires qa.interval != Weekly && qb.interval != Weekly && qc.interval != Weekly
    ensures QuotaEvents(TwoApps(a, b), GOOD_NET, CHECKED, steps, DEFAULT_WORKSPACE)
            == [Placed(r1, a, qa), Placed(r2, b, qb), Placed(r1, b, qc)]
    ensures !FollowsAfter(TwoApps(a, b), GOOD_NET, CHECKED, steps, DEFAULT_WORKSPACE)
  {
    TwoAppsAreRecorded(a, b);
    steps := ThreeRequests(TwoApps(a, b), r1, r2, a, b, qa, qb, qc);
  }

  lemma LastQuotaIsLost(
      w: World, steps: seq<Step>, last: Step, p1: Plugin, p2: Plugin,
      r1: string, r2: string, a: string, b: string, q: QuotaRequest)
    requires r1 != "" && r2 != "" && a != "" && b != "" && r1 != r2 && a != b
    requires Exact(p1, QuotaQuery(r1, a)) && Exact(p2, QuotaQuery(r2, b))
    requires QuotaPlugins(Run(w, GOOD_NET, CHECKED, steps + [last]).kong, DEFAULT_WORKSPACE) == [p1, p2]
    requires QuotaEvents(w, GOOD_NET, CHECKED, steps + [last], DEFAULT_WORKSPACE)
             == QuotaEvents(w, GOOD_NET, CHECKED, steps, DEFAULT_WORKSPACE) + [Placed(r1, b, q)]
    ensures !FollowsAfter(w, GOOD_NET, CHECKED, steps + [last], DEFAULT_WORKSPACE)
  {
    var ps := PluginsAt(Run(w, GOOD_NET, CHECKED, steps + [last]), DEFAULT_WORKSPACE);
    var asked := Limit(QuotaKey(r1, b), ConfigOf(q));
    TwoJoin(p1, p2, r1, r2, a, b);
    forall p | p in ps && p.name == RATE_LIMITING ensures p in [p1, p2] {
      assert p in Named(ps, RATE_LIMITING);
    }
    assert !InForce(ps, asked);
    ReplayOneMore(
      QuotaEvents(w, GOOD_NET, CHECKED, steps, DEFAULT_WORKSPACE), Placed(r1, b, q), asked,
      InForce(PluginsAt(w, DEFAULT_WORKSPACE), asked));
  }

  /** So whenever quotas are tangled, on an empty workspace some run of successful requests
      within them does not follow; whereas every run does when they are not. */
  lemma TangledMayNotFollow(quotas: map<(string, string), QuotaRequest>, r: string, a: string, s: string, b: string)
    returns (w: World, steps: seq<Step>)
    requires Tangled(quotas.Keys, r, a, s, b) && r != "" && s != "" && a != "" && b != ""
    requires forall pair :: pair in quotas ==> quotas[pair].interval != Weekly
    ensures
      var events := QuotaEvents(w, GOOD_NET, CHECKED, steps, DEFAULT_WORKSPACE);
      forall e :: e in events ==> e.Placed? && (e.route, e.app) in quotas && e.quota == quotas[(e.route, e.app)]
    ensures InOrder(w.kong, DEFAULT_WORKSPACE) && QuotaPlugins(w.kong, DEFAULT_WORKSPACE) == []
    ensures !FollowsAfter(w, GOOD_NET, CHECKED, steps, DEFAULT_WORKSPACE)
  {
    w := TwoApps(a, b);
    TwoAppsAreRecorded(a, b);
    steps := TangledRunDoesNotFollow(r, s, a, b, quotas[(r, a)], quotas[(s, b)], quotas[(r, b)]);
  }
}
