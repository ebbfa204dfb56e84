/**
 Whole access requests made again: after success, after a failure on the way, and after the
 consumer they settled on was not recorded.
 */
module RequestRetries {
  import opened KongStore
  import opened RouteEdits
  import opened KongClients
  import opened AccessRequests
  import opened RouteAccess
  import opened AccessRuns
  import opened ConsumerBooks

  /** The consumer that the request settled on is recorded. */
  predicate RecordStands(w: World, req: Request, report: Report) {
    report.appID != "" && RecordedId(w, req.app, req.workspace) == report.appID
  }

  /** A request that reaches the route is the two calls on the plugins as they were. */
  lemma InCalls(w: World, net: Net, req: Request, aclDisable: bool) returns (k: Kong)
    requires Provisioned(w, net, req, aclDisable).1.acl.Some?
    ensures
      var (w', report) := Provisioned(w, net, req, aclDisable);
      var (k', acl, status) := GrantAccess(k, net, req.workspace, req.route, report.appID, req.quota);
      && !aclDisable && req.workspace != "" && req.route != "" && report.appID != ""
      && w'.kong == k' && report.acl == Some(acl) && report.status == status
      && PluginsOf(k, req.workspace) == PluginsOf(w.kong, req.workspace)
      && (RecordedId(w, req.app, req.workspace) != "" ==> k == w.kong && w'.apps == w.apps)
  {
    ProvisionedInTwo(w, net, req, aclDisable);
    SettledKeepsPlugins(w, net, req, req.workspace);
    return Settled(w, net, req).0.kong;
  }

  /** With the consumer recorded, the request made again is the same two calls again. */
  lemma AgainInCalls(w: World, net: Net, req: Request, app: string)
    requires req.workspace != "" && req.route != "" && app != "" && RecordedId(w, req.app, req.workspace) == app
    requires req.quota.Some? ==> req.quota.value.interval != Weekly
    ensures
      var (w', report) := Provisioned(w, net, req, false);
      var (k', acl, status) := GrantAccess(w.kong, net, req.workspace, req.route, app, req.quota);
      w' == w.(kong := k') && report == Report(status, app, Some(acl))
  {
  }

  /** A request that succeeded in full, its consumer recorded, writes nothing when it is made
      again - to no plugin, consumer, group or application - whatever calls fail then. */
  lemma RepeatedRequestWritesNothing(w: World, first: Net, again: Net, req: Request, aclDisable: bool)
    requires Unique(w.kong, req.workspace)
    requires
      var (w1, report) := Provisioned(w, first, req, aclDisable);
      report.status == Success && RecordStands(w1, req, report)
    ensures
      var w1 := Provisioned(w, first, req, aclDisable).0;
      var w2 := Provisioned(w1, again, req, aclDisable).0;
      w2.kong.stores == w1.kong.stores && w2.apps == w1.apps
  {
    var (w1, report) := Provisioned(w, first, req, aclDisable);
    if report.acl.Some? {
      var k := InCalls(w, first, req, aclDisable);
      AgainInCalls(w1, again, req, report.appID);
      GrantingTwiceChangesNothing(k, first, again, req.workspace, req.route, report.appID, req.quota);
    }
  }

  /** A request that got as far as the access and failed on the quota, its consumer recorded,
      and was then made again with success, reaches the plugins that one successful request
      for the same consumer reaches, up to the IDs of new plugins. */
  lemma RetriedRequestConverges(w: World, cut: Net, retry: Net, clean: Net, req: Request, aclDisable: bool)
    requires Unique(w.kong, req.workspace)
    requires
      var (w1, report) := Provisioned(w, cut, req, aclDisable);
      && report.status == LimitsFailed && RecordStands(w1, req, report)
      && Provisioned(w1, retry, req, aclDisable).1.status == Success
      && Provisioned(w, clean, req, aclDisable).1.status == Success
      && Provisioned(w, clean, req, aclDisable).1.appID == report.appID
    ensures
      var w1 := Provisioned(w, cut, req, aclDisable).0;
      var w2 := Provisioned(w1, retry, req, aclDisable).0;
      var wc := Provisioned(w, clean, req, aclDisable).0;
      SameUpToFresh(
        PluginsOf(w.kong, req.workspace), PluginsOf(w2.kong, req.workspace), PluginsOf(wc.kong, req.workspace))
  {
    var (w1, report) := Provisioned(w, cut, req, aclDisable);
    var k := InCalls(w, cut, req, aclDisable);
    var kc := InCalls(w, clean, req, aclDisable);
    AgainInCalls(w1, retry, req, report.appID);
    RetryConverges(k, cut, retry, kc, clean, req.workspace, req.route, report.appID, req.quota);
  }

  // ----- after a lost record -----

  /** Without the record the same does not hold: a request made again settles on another
      consumer, and access is granted to both. */
  lemma LostRecordDoesNotConverge(w: World, first: Net, again: Net, req: Request)
    requires InOrder(w.kong, req.workspace) && req.workspace != ""
    requires RecordedId(w, req.app, req.workspace) == "" && req.app in w.apps
    requires req.app != w.apps[req.app].id && first.ids(w.kong.clock + 2) != w.apps[req.app].id
    requires
      var id := w.apps[req.app].id;
      forall c :: c in StoreOf(w.kong, req.workspace).consumers ==> c.id != id && c.username != id
    requires
      var (settled, made, _) := AppProvisioned(w, first, req);
      made.Some? && settled.kong.clock > 0 && first.detailFails(settled.kong.clock - 1)
    requires
      var (w1, report) := Provisioned(w, first, req, false);
      report.status == Success && Provisioned(w1, again, req, false).1.status == Success
    ensures
      var (w1, report1) := Provisioned(w, first, req, false);
      var (w2, report2) := Provisioned(w1, again, req, false);
      && report1.appID != report2.appID
      && {report1.appID, report2.appID} <= AllowedOn(w2.kong, req.workspace, Route(req.route))
  {
    SuccessAllows(w, first, req);
    SuccessAllows(Provisioned(w, first, req, false).0, again, req);
    LostRecordSettlesAnew(w, first, again, req);
  }

  lemma SuccessAllows(w: World, net: Net, req: Request)
    requires InOrder(w.kong, req.workspace) && req.workspace != ""
    requires Provisioned(w, net, req, false).1.status == Success
    ensures
      var (w', report) := Provisioned(w, net, req, false);
      && InOrder(w'.kong, req.workspace) && report.acl.Some?
      && AllowedOn(w'.kong, req.workspace, Route(req.route))
         == AllowedOn(w.kong, req.workspace, Route(req.route)) + {report.appID}
  {
    ProvisionRefines(w, net, Agent(false, []), req, req.workspace, req.route);
  }

  lemma AfterLostRecord(w: World, net: Net, req: Request)
    requires RecordedId(w, req.app, req.workspace) == "" && Provisioned(w, net, req, false).1.acl.Some?
    requires
      var (settled, made, _) := AppProvisioned(w, net, req);
      made.Some? && settled.kong.clock > 0 && net.detailFails(settled.kong.clock - 1)
    ensures
      var (w1, report) := Provisioned(w, net, req, false);
      var (settled, made, _) := AppProvisioned(w, net, req);
      && made == Some(report.appID) && w1.apps == w.apps
      && StoreOf(w1.kong, req.workspace).consumers == StoreOf(settled.kong, req.workspace).consumers
  {
    var (settled, made, _) := AppProvisioned(w, net, req);
    LostRecordKeepsApps(w, net, req);
    ProvisionedInTwo(w, net, req, false);
    GrantAccessKeepsConsumers(settled.kong, net, req, made.value);
  }

  lemma LostRecordSettlesAnew(w: World, first: Net, again: Net, req: Request)
    requires req.workspace != "" && RecordedId(w, req.app, req.workspace) == "" && req.app in w.apps
    requires req.app != w.apps[req.app].id && first.ids(w.kong.clock + 2) != w.apps[req.app].id
    requires
      var id := w.apps[req.app].id;
      forall c :: c in StoreOf(w.kong, req.workspace).consumers ==> c.id != id && c.username != id
    requires
      var (settled, made, _) := AppProvisioned(w, first, req);
      made.Some? && settled.kong.clock > 0 && first.detailFails(settled.kong.clock - 1)
    requires
      var (w1, report) := Provisioned(w, first, req, false);
      report.acl.Some? && Provisioned(w1, again, req, false).1.acl.Some?
    ensures
      var (w1, report1) := Provisioned(w, first, req, false);
      report1.appID != Provisioned(w1, again, req, false).1.appID
  {
    var w1 := Provisioned(w, first, req, false).0;
    AfterLostRecord(w, first, req);
    MakesOne(w, first, req, w.apps[req.app].id);
    MakesOne(w1, again, req, w.apps[req.app].id);
    ProvisionedInTwo(w1, again, req, false);
  }

  // ----- when the second consumer is refused -----

  /** A username and a custom ID belong to one consumer: Kong refuses to create another. */
  ghost predicate RefusesTaken(w: World, net: Net, req: Request)
    requires req.app in w.apps
  {
    (exists c :: c in StoreOf(w.kong, req.workspace).consumers
                 && (c.username == req.app || c.customId == w.apps[req.app].id))
    ==> net.writeFails(w.kong.clock + 2)
  }

  /** The application has no record, its ID finds no consumer, and its name is taken. */
  ghost predicate Stuck(w: World, req: Request) {
    && req.workspace != "" && req.route != "" && req.app in w.apps
    && RecordedId(w, req.app, req.workspace) == ""
    && (forall c :: c in StoreOf(w.kong, req.workspace).consumers ==>
          c.id != w.apps[req.app].id && c.username != w.apps[req.app].id)
    && exists c :: c in StoreOf(w.kong, req.workspace).consumers && c.username == req.app
  }

  lemma StuckRequestFails(w: World, net: Net, req: Request, aclDisable: bool)
    requires Stuck(w, req) && RefusesTaken(w, net, req)
    ensures
      var (w', report) := Provisioned(w, net, req, aclDisable);
      && report.status in {NoApplication, NoConsumer}
      && w'.kong.stores == w.kong.stores && w'.apps == w.apps && Stuck(w', req)
  {
    NotAnswering(StoreOf(w.kong, req.workspace).consumers, w.apps[req.app].id);
  }

  /** Each of the requests, made one after the other, fails. */
  ghost predicate AllFail(w: World, nets: seq<Net>, req: Request, aclDisable: bool)
    decreases |nets|
  {
    |nets| == 0
    || var (w', report) := Provisioned(w, nets[0], req, aclDisable);
       report.status in {NoApplication, NoConsumer} && AllFail(w', nets[1..], req, aclDisable)
  }

  ghost predicate AllRefuse(w: World, nets: seq<Net>, req: Request, aclDisable: bool)
    decreases |nets|
  {
    |nets| == 0
    || (req.app in w.apps && RefusesTaken(w, nets[0], req)
        && AllRefuse(Provisioned(w, nets[0], req, aclDisable).0, nets[1..], req, aclDisable))
  }

  lemma {:induction false} StuckForGood(w: World, nets: seq<Net>, req: Request, aclDisable: bool)
    requires Stuck(w, req) && AllRefuse(w, nets, req, aclDisable)
    ensures AllFail(w, nets, req, aclDisable)
    decreases |nets|
  {
    if |nets| > 0 {
      StuckRequestFails(w, nets[0], req, aclDisable);
      StuckForGood(Provisioned(w, nets[0], req, aclDisable).0, nets[1..], req, aclDisable);
    }
  }

  /** When the record of a new consumer is lost and Kong lets no second consumer have its name,
      every later request of the application in that workspace fails, however often it is made
      and whatever other calls do. */
  lemma LostRecordBlocks(w: World, first: Net, later: seq<Net>, req: Request, aclDisable: bool)
    requires req.workspace != "" && req.route != ""
    requires RecordedId(w, req.app, req.workspace) == "" && req.app in w.apps
    requires req.app != w.apps[req.app].id && first.ids(w.kong.clock + 2) != w.apps[req.app].id
    requires
      var id := w.apps[req.app].id;
      forall c :: c in StoreOf(w.kong, req.workspace).consumers ==> c.id != id && c.username != id
    requires
      var (w1, made, _) := AppProvisioned(w, first, req);
      made.Some? && w1.kong.clock > 0 && first.detailFails(w1.kong.clock - 1)
    requires AllRefuse(AppProvisioned(w, first, req).0, later, req, aclDisable)
    ensures AllFail(AppProvisioned(w, first, req).0, later, req, aclDisable)
  {
    var w1 := AppProvisioned(w, first, req).0;
    LostRecordIsStuck(w, first, req);
    StuckForGood(w1, later, req, aclDisable);
  }

  lemma LostRecordIsStuck(w: World, first: Net, req: Request)
    requires req.workspace != "" && req.route != ""
    requires RecordedId(w, req.app, req.workspace) == "" && req.app in w.apps
    requires req.app != w.apps[req.app].id && first.ids(w.kong.clock + 2) != w.apps[req.app].id
    requires
      var id := w.apps[req.app].id;
      forall c :: c in StoreOf(w.kong, req.workspace).consumers ==> c.id != id && c.username != id
    requires
      var (w1, made, _) := AppProvisioned(w, first, req);
      made.Some? && w1.kong.clock > 0 && first.detailFails(w1.kong.clock - 1)
    ensures Stuck(AppProvisioned(w, first, req).0, req)
  {
    var (w1, made, _) := AppProvisioned(w, first, req);
    MakesOne(w, first, req, w.apps[req.app].id);
    LostRecordKeepsApps(w, first, req);
    RecordKeptIff(w, first, req);
    var c := Consumer(made.value, req.app, w.apps[req.app].id);
    assert c in StoreOf(w1.kong, req.workspace).consumers;
  }
}
