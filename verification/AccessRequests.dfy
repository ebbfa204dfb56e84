/**
 Access requests (`AccessProvisioner`): the order in which a request looks up or creates
 the application's consumer, grants it access to the route and places its quota, and how
 each failure on the way ends the request.

 A `World` is Kong together with the applications as Central records them.
 */
module AccessRequests {
  import opened KongStore
  import opened RouteEdits
  import opened KongClients
  import opened Names

  datatype Interval = Daily | Weekly | Monthly | Annually

  /** The SDK's names for the intervals. */
  function IntervalName(i: Interval): string {
    match i
    case Daily => "daily"
    case Weekly => "weekly"
    case Monthly => "monthly"
    case Annually => "annually"
  }

  datatype QuotaRequest = QuotaRequest(interval: Interval, limit: int)

  /** The configuration that a quota asks for. */
  function ConfigOf(q: QuotaRequest): Config {
    SetQuota(IntervalName(q.interval), q.limit)
  }

  datatype Request = Request(app: string, workspace: string, route: string, quota: Option<QuotaRequest>)

  /** A managed application's resource ID and the agent's details on it. */
  datatype Application = Application(id: string, details: map<string, string>)

  datatype World = World(kong: Kong, apps: map<string, Application>)

  datatype Status =
    | Success | NoWorkspace | NoRoute | NoApplication | NoConsumer | NoAppId
    | WeeklyUnsupported | AccessFailed | LimitsFailed | RemovalFailed

  /** The status sent back, the application's consumer if one was settled on, and how the
      call on the route's access ended if one was made. */
  datatype Report = Report(status: Status, appID: string, acl: Option<Outcome>)

  function RecordedId(w: World, app: string, workspace: string): string {
    if app in w.apps then Recorded(w.apps[app].details, workspace) else ""
  }

  function TickWorld(w: World): World {
    w.(kong := Tick(w.kong))
  }

  function Record(w: World, net: Net, app: string, workspace: string, consumerID: string): World
    requires app in w.apps
  {
    var a := w.apps[app];
    if net.detailFails(w.kong.clock) then TickWorld(w)
    else TickWorld(w).(apps := w.apps[app := a.(details := a.details[WksPrefixName(workspace, APP_ID) := consumerID])])
  }

  /** Settling on a consumer: joining its group and recording its ID may both fail
      without the request noticing. */
  function AppProvisioned(w: World, net: Net, req: Request): (r: (World, Option<string>, Status)) {
    var w1 := TickWorld(w);
    if net.readFails(w.kong.clock) || req.app !in w.apps then (w1, None, NoApplication)
    else
      match EnsureConsumer(w1.kong, net, req.workspace, w.apps[req.app].id, req.app)
      case (k2, None) => (w1.(kong := k2), None, NoConsumer)
      case (k2, Some(c)) =>
        var (k3, _) := JoinGroup(k2, net, req.workspace, c.id);
        (Record(w1.(kong := k3), net, req.app, req.workspace, c.id), Some(c.id), Success)
  }

  /** The two calls that change the route's plugins. */
  function GrantAccess(k: Kong, net: Net, workspace: string, route: string, app: string, quota: Option<QuotaRequest>)
    : (r: (Kong, Outcome, Status))
    ensures SameElsewhere(k, r.0, workspace)
    ensures r.2 == Success || r.2 == LimitsFailed <==> r.1 == Done
    ensures r.2 in {Success, LimitsFailed, AccessFailed}
  {
    var (k1, granted) := Grant(k, net, workspace, route, app);
    if granted != Done then (k1, granted, AccessFailed)
    else match quota
      case None => (k1, granted, Success)
      case Some(q) =>
        var (k2, placed) := PlaceQuota(k1, net, workspace, route, app, IntervalName(q.interval), q.limit);
        (k2, granted, if placed == Done then Success else LimitsFailed)
  }

  /** The consumer ID that came with the request, or else one settled on now. */
  function SettledFrom(w: World, net: Net, req: Request, recorded: string): (World, Option<string>, Status) {
    if recorded == "" then AppProvisioned(w, net, req) else (w, Some(recorded), Success)
  }

  function ProvisionedFrom(w: World, net: Net, req: Request, recorded: string, aclDisable: bool): (World, Report) {
    if req.workspace == "" then (w, Report(NoWorkspace, "", None))
    else if req.route == "" then (w, Report(NoRoute, "", None))
    else
      var (w1, id, failure) := SettledFrom(w, net, req, recorded);
      if id.None? then (w1, Report(failure, "", None))
      else if id.value == "" then (w1, Report(NoAppId, "", None))
      else if aclDisable then (w1, Report(Success, id.value, None))
      else if req.quota.Some? && req.quota.value.interval == Weekly then (w1, Report(WeeklyUnsupported, id.value, None))
      else
        var (k2, acl, status) := GrantAccess(w1.kong, net, req.workspace, req.route, id.value, req.quota);
        (w1.(kong := k2), Report(status, id.value, Some(acl)))
  }

  function DeprovisionedFrom(w: World, net: Net, req: Request, id: string, aclDisable: bool): (World, Report) {
    if req.workspace == "" then (w, Report(NoWorkspace, id, None))
    else if id == "" then (w, Report(NoAppId, id, None))
    else if req.route == "" then (w, Report(NoRoute, id, None))
    else if aclDisable then (w, Report(Success, id, None))
    else
      var (k', acl) := Revoke(w.kong, net, req.workspace, req.route, id);
      (w.(kong := k'), Report(if acl == Done then Success else RemovalFailed, id, Some(acl)))
  }

  // Requests one at a time carry what is recorded when they are made.

  function Settled(w: World, net: Net, req: Request): (World, Option<string>, Status) {
    SettledFrom(w, net, req, RecordedId(w, req.app, req.workspace))
  }

  function Provisioned(w: World, net: Net, req: Request, aclDisable: bool): (World, Report) {
    ProvisionedFrom(w, net, req, RecordedId(w, req.app, req.workspace), aclDisable)
  }

  function Deprovisioned(w: World, net: Net, req: Request, aclDisable: bool): (World, Report) {
    DeprovisionedFrom(w, net, req, RecordedId(w, req.app, req.workspace), aclDisable)
  }

  /** Whether a request gets as far as the route's plugins. */
  predicate ReachesRoute(req: Request, id: Option<string>, aclDisable: bool) {
    && req.workspace != "" && req.route != "" && id.Some? && id.value != "" && !aclDisable
    && !(req.quota.Some? && req.quota.value.interval == Weekly)
  }

  /** A request that stops before the route's plugins has at most settled on a consumer. */
  lemma ProvisionedInTwo(w: World, net: Net, req: Request, aclDisable: bool)
    requires req.workspace != "" && req.route != ""
    ensures
      var (w1, id, _) := Settled(w, net, req);
      var (w', report) := Provisioned(w, net, req, aclDisable);
      if ReachesRoute(req, id, aclDisable) then
        var (k2, acl, status) := GrantAccess(w1.kong, net, req.workspace, req.route, id.value, req.quota);
        w' == w1.(kong := k2) && report == Report(status, id.value, Some(acl))
      else
        w' == w1 && report.acl == None
  {
  }

  // ----- the provisioner -----

  class AccessProvisioner {
    const client: KongClient
    const request: Request
    const aclDisable: bool
    const recordedID: string   // the application detail, read when the request arrives
    var apps: map<string, Application>   // Central's side

    ghost function Now(): World reads this, client {
      World(client.State(), apps)
    }

    constructor (client: KongClient, request: Request, aclDisable: bool, apps: map<string, Application>)
      ensures this.client == client && this.request == request && this.aclDisable == aclDisable && this.apps == apps
      ensures recordedID == RecordedId(World(client.State(), apps), request.app, request.workspace)
    {
      this.client, this.request, this.aclDisable, this.apps := client, request, aclDisable, apps;
      var key := WksPrefixName(request.workspace, APP_ID);
      this.recordedID := if request.app in apps then Detail(apps[request.app].details, key) else "";
    }

    method GetManagedApplication() returns (app: Option<Application>)
      modifies client
      ensures Now() == TickWorld(old(Now()))
      ensures app == if client.net.readFails(old(client.clock)) || request.app !in apps then None
                     else Some(apps[request.app])
    {
      app := if client.net.readFails(client.clock) || request.app !in apps then None else Some(apps[request.app]);
      client.clock := client.clock + 1;
    }

    method UpdateManagedAppDetails(app: Application, consumerID: string)
      requires request.app in apps && app == apps[request.app]
      modifies this, client
      ensures Now() == Record(old(Now()), client.net, request.app, request.workspace, consumerID)
    {
      var details := app.details;
      details := details[WksPrefixName(request.workspace, APP_ID) := consumerID];
      if !client.net.detailFails(client.clock) {
        apps := apps[request.app := app.(details := details)];
      }
      client.clock := client.clock + 1;
    }

    method CreateConsumer(appID: string) returns (consumer: Option<Consumer>)
      modifies client
      ensures
        var made := EnsureConsumer(old(client.State()), client.net, request.workspace, appID, request.app);
        && consumer == made.1
        && client.State() == if made.1.None? then made.0
                             else JoinGroup(made.0, client.net, request.workspace, made.1.value.id).0
    {
      consumer := client.CreateConsumer(request.workspace, appID, request.app);
      if consumer.None? {
        return;
      }
      var _ := client.AddConsumerACL(request.workspace, consumer.value.id);
    }

    method ProvisionApp() returns (id: Option<string>, failure: Status)
      modifies this, client
      ensures (Now(), id, failure) == AppProvisioned(old(Now()), client.net, request)
    {
      var app := GetManagedApplication();
      if app.None? {
        return None, NoApplication;
      }
      var consumer := CreateConsumer(app.value.id);
      if consumer.None? {
        return None, NoConsumer;
      }
      UpdateManagedAppDetails(app.value, consumer.value.id);
      return Some(consumer.value.id), Success;
    }

    method Provision() returns (status: Status, ghost report: Report)
      modifies this, client
      ensures (Now(), report) == ProvisionedFrom(old(Now()), client.net, request, recordedID, aclDisable)
      ensures status == report.status
    {
      if request.workspace == "" {
        return NoWorkspace, Report(NoWorkspace, "", None);
      }
      if request.route == "" {
        return NoRoute, Report(NoRoute, "", None);
      }
      var appID := recordedID;
      if appID == "" {
        var id, failure := ProvisionApp();
        if id.None? {
          return failure, Report(failure, "", None);
        }
        appID := id.value;
      }
      if appID == "" {
        return NoAppId, Report(NoAppId, "", None);
      }
      if aclDisable {
        return Success, Report(Success, appID, None);
      }
      if request.quota.Some? && IntervalName(request.quota.value.interval) == IntervalName(Weekly) {
        return WeeklyUnsupported, Report(WeeklyUnsupported, appID, None);
      }
      var err := client.AddRouteACL(request.workspace, request.route, appID);
      if err != Done {
        return AccessFailed, Report(AccessFailed, appID, Some(err));
      }
      report := Report(Success, appID, Some(err));
      if request.quota.None? {
        return Success, report;
      }
      var quota := request.quota.value;
      err := client.AddQuota(request.workspace, request.route, appID, IntervalName(quota.interval), quota.limit);
      if err != Done {
        return LimitsFailed, report.(status := LimitsFailed);
      }
      return Success, report;
    }

    method Deprovision() returns (status: Status, ghost report: Report)
      modifies client
      ensures (Now(), report) == DeprovisionedFrom(old(Now()), client.net, request, recordedID, aclDisable)
      ensures status == report.status
    {
      if request.workspace == "" {
        return NoWorkspace, Report(NoWorkspace, recordedID, None);
      }
      if recordedID == "" {
        return NoAppId, Report(NoAppId, recordedID, None);
      }
      if request.route == "" {
        return NoRoute, Report(NoRoute, recordedID, None);
      }
      if aclDisable {
        return Success, Report(Success, recordedID, None);
      }
      var err := client.RemoveRouteACL(request.workspace, request.route, recordedID);
      if err != Done {
        return RemovalFailed, Report(RemovalFailed, recordedID, Some(err));
      }
      return Success, Report(Success, recordedID, Some(err));
    }
  }
}
