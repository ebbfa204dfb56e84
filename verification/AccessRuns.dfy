/**
 Whole runs of the agent: any sequence of access requests, access removals and
 application removals, with calls failing anywhere on the way.
 */
module AccessRuns {
  import opened Sequences
  import opened KongStore
  import opened RouteEdits
  import opened KongClients
  import opened AccessRequests
  import opened Applications
  import opened RouteAccess

  /** The agent's configuration. */
  datatype Agent = Agent(aclDisable: bool, workspaces: seq<string>)

  datatype Step =
    | ProvisionAccess(request: Request)
    | DeprovisionAccess(request: Request)
    | DeprovisionApp(app: string, order: seq<string>)

  /** What a step did to an allow list, as far as the agent's own calls tell. */
  datatype Event =
    | Inserted(workspace: string, route: string, app: string)
    | Deleted(workspace: string, route: string, app: string)
    | Nothing

  /** An application whose removal succeeds is gone from Central. */
  function AppDeprovisioned(w: World, net: Net, agent: Agent, app: string, order: seq<string>): (World, bool) {
    if app !in w.apps then (w, false)
    else
      var ids := RecordedIds(w.apps[app].details, agent.workspaces);
      if |ids| == 0 then (w, false)
      else
        var (k, ok) := DeleteAll(w.kong, net, ids, order);
        var done := ok && forall v | v in ids :: v in order;
        (World(k, if done then w.apps - {app} else w.apps), done)
  }

  /** The call that grants access succeeded; or the call that removes it did, or failed
      only once the access was gone. */
  function Perform(w: World, net: Net, agent: Agent, step: Step): (World, Event) {
    match step
    case ProvisionAccess(req) =>
      var (w', report) := Provisioned(w, net, req, agent.aclDisable);
      (w', if report.acl == Some(Done) then Inserted(req.workspace, req.route, report.appID) else Nothing)
    case DeprovisionAccess(req) =>
      var (w', report) := Deprovisioned(w, net, req, agent.aclDisable);
      (w', if report.acl in {Some(Done), Some(DisableFailed)}
           then Deleted(req.workspace, req.route, report.appID) else Nothing)
    case DeprovisionApp(app, order) =>
      (AppDeprovisioned(w, net, agent, app, order).0, Nothing)
  }

  function Run(w: World, net: Net, agent: Agent, steps: seq<Step>): World
    decreases |steps|
  {
    if |steps| == 0 then w else Run(Perform(w, net, agent, steps[0]).0, net, agent, steps[1..])
  }

  function Events(w: World, net: Net, agent: Agent, steps: seq<Step>): seq<Event>
    decreases |steps|
  {
    if |steps| == 0 then []
    else
      var (w', e) := Perform(w, net, agent, steps[0]);
      [e] + Events(w', net, agent, steps[1..])
  }

  // ----- the abstract allow list: a set under insert and delete -----

  ghost function Apply(e: Event, v: string, r: string, s: set<string>): set<string> {
    match e
    case Inserted(workspace, route, app) => if workspace == v && route == r then s + {app} else s
    case Deleted(workspace, route, app) => if workspace == v && route == r then s - {app} else s
    case Nothing => s
  }

  ghost function Replay(events: seq<Event>, v: string, r: string, s: set<string>): set<string>
    decreases |events|
  {
    if |events| == 0 then s else Replay(events[1..], v, r, Apply(events[0], v, r, s))
  }

  // ----- what a step does to the plugins of a workspace -----

  function PluginsAt(w: World, v: string): seq<Plugin> {
    StoreAt(w.kong, v).plugins
  }

  lemma SettledKeepsPlugins(w: World, net: Net, req: Request, v: string)
    requires req.workspace != ""
    ensures PluginsAt(Settled(w, net, req).0, v) == PluginsAt(w, v)
  {
  }

  /** Seen from a workspace, a request either leaves the plugins alone or grants access to
      one of its routes, on a state with the plugins as they were. */
  lemma RequestAt(w: World, net: Net, agent: Agent, req: Request, v: string)
    returns (k1: Kong, app: string, reaches: bool)
    ensures
      var (w', report) := Provisioned(w, net, req, agent.aclDisable);
      if reaches then
        var (k2, acl, status) := GrantAccess(k1, net, v, req.route, app, req.quota);
        && StoreAt(k1, v).plugins == PluginsAt(w, v)
        && req.workspace == v != "" && req.route != "" && app != ""
        && (req.quota.Some? ==> req.quota.value.interval != Weekly)
        && w'.kong == k2 && report == Report(status, app, Some(acl)) && !agent.aclDisable
      else
        && PluginsAt(w', v) == PluginsAt(w, v)
        && (req.workspace == v ==>
              && report.acl == None
              && (report.status == Success ==> agent.aclDisable && req.route != "" && report.appID != ""))
  {
    k1, app, reaches := w.kong, "", false;
    if req.workspace != "" && req.route != "" {
      var (w1, id, _) := Settled(w, net, req);
      SettledKeepsPlugins(w, net, req, v);
      ProvisionedInTwo(w, net, req, agent.aclDisable);
      if ReachesRoute(req, id, agent.aclDisable) && req.workspace == v {
        k1, app, reaches := w1.kong, id.value, true;
      }
    }
  }

  /** Likewise a removal. */
  lemma RemovalAt(w: World, net: Net, agent: Agent, req: Request, v: string) returns (app: string, reaches: bool)
    ensures
      var (w', report) := Deprovisioned(w, net, req, agent.aclDisable);
      if reaches then
        var (k1, o) := Revoke(w.kong, net, v, req.route, app);
        && req.workspace == v != "" && req.route != "" && app != ""
        && w'.kong == k1 && report.acl == Some(o) && report.appID == app && !agent.aclDisable
        && (report.status == Success <==> o == Done)
      else
        && PluginsAt(w', v) == PluginsAt(w, v)
        && (req.workspace == v ==>
              && report.acl == None
              && (report.status == Success ==> agent.aclDisable && req.route != "" && report.appID != ""))
  {
    app := RecordedId(w, req.app, req.workspace);
    reaches := req.workspace == v && v != "" && app != "" && req.route != "" && !agent.aclDisable;
  }

  /** And the removal of an application. */
  lemma DepartureAt(w: World, net: Net, agent: Agent, app: string, order: seq<string>, v: string)
    ensures
      var w' := AppDeprovisioned(w, net, agent, app, order).0;
      PluginsAt(w', v) == Filtered(PluginsAt(w, v), IsNotFor(Lost(w.kong, w'.kong, v)))
  {
    var w' := AppDeprovisioned(w, net, agent, app, order).0;
    NothingLost(w.kong, w.kong, v);
    if app in w.apps {
      DeleteAllLosesTheirPlugins(w.kong, net, RecordedIds(w.apps[app].details, agent.workspaces), order, v);
    }
    assert LosesTheirPlugins(w.kong, w'.kong, v);
  }

  /** A weekly quota ends the request in failure before it touches any plugin, and without
      the acl check no request touches any. */
  lemma StopsBeforePlugins(w: World, net: Net, agent: Agent, req: Request, v: string)
    requires req.workspace != ""
    requires agent.aclDisable || (req.quota.Some? && req.quota.value.interval == Weekly)
    ensures
      var (w', report) := Provisioned(w, net, req, agent.aclDisable);
      && report.acl == None
      && (!agent.aclDisable ==> report.status != Success)
      && PluginsAt(w', v) == PluginsAt(w, v)
  {
  }

  // ----- one step, and whole runs -----

  lemma GrantAccessOnAllowed(k: Kong, net: Net, req: Request, app: string, v: string, r: string)
    requires InOrder(k, v) && req.workspace == v != "" && req.route != ""
    ensures
      var (k', acl, _) := GrantAccess(k, net, v, req.route, app, req.quota);
      && InOrder(k', v)
      && AllowedOn(k', v, Route(r))
         == AllowedOn(k, v, Route(r)) + if acl == Done && r == req.route then {app} else {}
  {
    GrantOnAllowed(k, net, v, req.route, app, v, r);
    if req.quota.Some? {
      var q := req.quota.value;
      QuotaOnAllowed(
        Grant(k, net, v, req.route, app).0, net, v, req.route, app, IntervalName(q.interval), q.limit, v, Route(r));
    }
  }

  lemma ProvisionRefines(w: World, net: Net, agent: Agent, req: Request, v: string, r: string)
    requires RouteAclsOnly(PluginsAt(w, v))
    ensures
      var (w', e) := Perform(w, net, agent, ProvisionAccess(req));
      && RouteAclsOnly(PluginsAt(w', v))
      && AllowedOn(w'.kong, v, Route(r)) == Apply(e, v, r, AllowedOn(w.kong, v, Route(r)))
  {
    var k1, app, reaches := RequestAt(w, net, agent, req, v);
    if reaches {
      GrantAccessOnAllowed(k1, net, req, app, v, r);
    }
  }

  /** A removal that reaches its route is told by its event. */
  lemma RemovalEvent(w: World, net: Net, agent: Agent, req: Request, v: string) returns (app: string, reaches: bool)
    ensures
      var (w', e) := Perform(w, net, agent, DeprovisionAccess(req));
      if reaches then
        var (k1, o) := Revoke(w.kong, net, v, req.route, app);
        && req.route != "" && w'.kong == k1 && v == Target(v)
        && e == if o in {Done, DisableFailed} then Deleted(v, req.route, app) else Nothing
      else
        PluginsAt(w', v) == PluginsAt(w, v) && (e.Nothing? || (e.Deleted? && e.workspace != v))
  {
    app, reaches := RemovalAt(w, net, agent, req, v);
  }

  lemma DeprovisionRefines(w: World, net: Net, agent: Agent, req: Request, v: string, r: string)
    requires RouteAclsOnly(PluginsAt(w, v))
    ensures
      var (w', e) := Perform(w, net, agent, DeprovisionAccess(req));
      && RouteAclsOnly(PluginsAt(w', v))
      && AllowedOn(w'.kong, v, Route(r)) == Apply(e, v, r, AllowedOn(w.kong, v, Route(r)))
  {
    var app, reaches := RemovalEvent(w, net, agent, req, v);
    if reaches {
      RevokeOnAllowed(w.kong, net, v, req.route, app, v, r);
    }
  }

  /** One step changes a route's allow list exactly as its event says. */
  lemma StepRefines(w: World, net: Net, agent: Agent, step: Step, v: string, r: string)
    requires RouteAclsOnly(PluginsAt(w, v))
    ensures
      var (w', e) := Perform(w, net, agent, step);
      && RouteAclsOnly(PluginsAt(w', v))
      && AllowedOn(w'.kong, v, Route(r)) == Apply(e, v, r, AllowedOn(w.kong, v, Route(r)))
  {
    match step
    case ProvisionAccess(req) =>
      ProvisionRefines(w, net, agent, req, v, r);
    case DeprovisionAccess(req) =>
      DeprovisionRefines(w, net, agent, req, v, r);
    case DeprovisionApp(app, order) =>
      DepartureAt(w, net, agent, app, order, v);
      DepartureKeepsAcls(PluginsAt(w, v), Lost(w.kong, AppDeprovisioned(w, net, agent, app, order).0.kong, v));
  }

  /** Over any run, with any calls failing, each route's allow list in a workspace is the
      abstract set that its insertions and deletions make, if the workspace's acl plugins are
      in order at the beginning; and they stay so. */
  lemma {:induction false} RunRefinesSets(w: World, net: Net, agent: Agent, steps: seq<Step>, v: string, r: string)
    requires RouteAclsOnly(PluginsAt(w, v))
    ensures RouteAclsOnly(PluginsAt(Run(w, net, agent, steps), v))
    ensures AllowedOn(Run(w, net, agent, steps).kong, v, Route(r))
            == Replay(Events(w, net, agent, steps), v, r, AllowedOn(w.kong, v, Route(r)))
    decreases |steps|
  {
    if |steps| > 0 {
      StepRefines(w, net, agent, steps[0], v, r);
      RunRefinesSets(Perform(w, net, agent, steps[0]).0, net, agent, steps[1..], v, r);
    }
  }

  lemma {:induction false} ReplayKeeps(events: seq<Event>, v: string, r: string, app: string, s: set<string>)
    ensures app in s && Deleted(v, r, app) !in events ==> app in Replay(events, v, r, s)
    ensures app !in s && Inserted(v, r, app) !in events ==> app !in Replay(events, v, r, s)
    decreases |events|
  {
    if |events| > 0 {
      ReplayKeeps(events[1..], v, r, app, Apply(events[0], v, r, s));
      assert events[0] in events && forall e :: e in events[1..] ==> e in events;
    }
  }

  /** Access, once granted, is never lost but by a removal of that consumer from that route,
      and never gained but by a grant to it - whatever else the agent does. */
  lemma AccessChangesOnlyOnRequest(
      w: World, net: Net, agent: Agent, steps: seq<Step>, v: string, r: string, app: string)
    requires RouteAclsOnly(PluginsAt(w, v))
    ensures
      var events, end := Events(w, net, agent, steps), Run(w, net, agent, steps).kong;
      var before, after := AllowedOn(w.kong, v, Route(r)), AllowedOn(end, v, Route(r));
      && (app in before && app !in after ==> Deleted(v, r, app) in events)
      && (app !in before && app in after ==> Inserted(v, r, app) in events)
  {
    RunRefinesSets(w, net, agent, steps, v, r);
    ReplayKeeps(Events(w, net, agent, steps), v, r, app, AllowedOn(w.kong, v, Route(r)));
  }
}
