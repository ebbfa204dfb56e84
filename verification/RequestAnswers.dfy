/**
 What requests are answered: for every access request, removal of access and removal of an
 application the status that is sent back, in terms of the request, of what Central and Kong
 hold, and of the calls that fail.
 */
module RequestAnswers {
  import opened KongStore
  import opened PluginSearch
  import opened RouteEdits
  import opened KongClients
  import opened Names
  import opened AccessRequests
  import opened Applications
  import opened RouteAccess
  import opened AccessRuns
  import opened RouteOutcomes

  // ----- settling on a consumer -----

  /** The detail that holds the consumer of a workspace. */
  function RecordKey(workspace: string): string {
    workspace + "-kongApplicationId"
  }

  predicate HasRecord(w: World, app: string, workspace: string) {
    && app in w.apps && RecordKey(workspace) in w.apps[app].details
    && w.apps[app].details[RecordKey(workspace)] != ""
  }

  function RecordOf(w: World, app: string, workspace: string): string
    requires HasRecord(w, app, workspace)
  {
    w.apps[app].details[RecordKey(workspace)]
  }

  lemma RecordedIffHasRecord(w: World, app: string, workspace: string)
    ensures RecordedId(w, app, workspace) == if HasRecord(w, app, workspace) then RecordOf(w, app, workspace) else ""
  {
    assert WksPrefixName(workspace, APP_ID) == RecordKey(workspace);
  }

  /** A request takes the recorded consumer without a call. Without a record it fails if the
      application cannot be fetched, and else settles on the consumer found under the
      application's ID or on a new one, and fails if there is neither. */
  lemma SettlesAs(w: World, net: Net, req: Request)
    ensures
      var (w1, id, failure) := Settled(w, net, req);
      var k, recorded := Tick(w.kong), HasRecord(w, req.app, req.workspace);
      var fetched := !net.readFails(w.kong.clock) && req.app in w.apps;
      var cs := StoreOf(w.kong, req.workspace).consumers;
      && (recorded ==> w1 == w && id == Some(RecordOf(w, req.app, req.workspace)))
      && (id.None? && failure == NoApplication <==> !recorded && !fetched)
      && (!recorded && fetched ==>
            var known := Known(k, net, req.workspace, w.apps[req.app].id);
            var makes := Target(req.workspace) in k.stores && !net.writeFails(k.clock + 1)
                         && IsFreshConsumer(cs, net.ids(k.clock + 1));
            && (id.None? <==> !known && !makes)
            && (id.None? ==> failure == NoConsumer)
            && (known ==> id == Some(FindConsumer(cs, w.apps[req.app].id).value.id))
            && (!known && makes ==> id == Some(net.ids(k.clock + 1))))
  {
    RecordedIffHasRecord(w, req.app, req.workspace);
    if req.app in w.apps {
      ConsumerMadeIff(Tick(w.kong), net, req.workspace, w.apps[req.app].id, req.app);
    }
  }

  // ----- access requests -----

  predicate IsWeekly(req: Request) {
    req.quota.Some? && req.quota.value.interval == Weekly
  }

  /** The answer to an access request. With the acl check disabled it succeeds exactly when a
      consumer was settled on; with it on, exactly when also the quota is not weekly and both
      calls on the route end well. */
  lemma RequestAnsweredAs(w: World, net: Net, req: Request, aclDisable: bool)
    ensures
      var report := Provisioned(w, net, req, aclDisable).1;
      var (w1, id, failure) := Settled(w, net, req);
      var named, usable := req.workspace != "" && req.route != "", id.Some? && id.value != "";
      && (report.status == NoWorkspace <==> req.workspace == "")
      && (report.status == NoRoute <==> req.workspace != "" && req.route == "")
      && (named && id.None? ==> report.status == failure && failure in {NoApplication, NoConsumer})
      && (report.status == NoAppId <==> named && id == Some(""))
      && (named && usable ==> report.appID == id.value)
      && (named && aclDisable ==> (report.status == Success <==> usable))
      && (report.status == WeeklyUnsupported <==> named && usable && !aclDisable && IsWeekly(req))
      && (named && !aclDisable ==>
            (report.status == Success <==>
             usable && !IsWeekly(req)
             && GrantAccess(w1.kong, net, req.workspace, req.route, id.value, req.quota).2 == Success))
  {
    SettlesAs(w, net, req);
    if req.workspace != "" && req.route != "" {
      ProvisionedAnswer(w, net, req, aclDisable);
    }
  }

  lemma ProvisionedAnswer(w: World, net: Net, req: Request, aclDisable: bool)
    requires req.workspace != "" && req.route != ""
    ensures
      var report := Provisioned(w, net, req, aclDisable).1;
      var (w1, id, failure) := Settled(w, net, req);
      if id.None? then report == Report(failure, "", None)
      else if id.value == "" then report.status == NoAppId
      else if aclDisable then report == Report(Success, id.value, None)
      else if IsWeekly(req) then report == Report(WeeklyUnsupported, id.value, None)
      else
        var (_, acl, status) := GrantAccess(w1.kong, net, req.workspace, req.route, id.value, req.quota);
        report == Report(status, id.value, Some(acl))
  {
  }

  /** The two calls: access fails if the grant does, limits fail if only the quota does. */
  lemma AccessEndsAs(
      k: Kong, net: Net, workspace: string, route: string, app: string, quota: Option<QuotaRequest>)
    ensures
      var status := GrantAccess(k, net, workspace, route, app, quota).2;
      var (k1, granted) := Grant(k, net, workspace, route, app);
      && (status == AccessFailed <==> granted != Done)
      && (status == LimitsFailed <==>
            granted == Done && quota.Some?
            && var q := quota.value;
               PlaceQuota(k1, net, workspace, route, app, IntervalName(q.interval), q.limit).1 != Done)
  {
  }

  /** No call fails, and the IDs that Kong gives are unused and differ. */
  ghost predicate AllGoesWell(k: Kong, net: Net, workspace: string) {
    && Target(workspace) in k.stores
    && (forall n :: !net.readFails(n) && !net.writeFails(n))
    && (forall n :: IsFresh(PluginsOf(k, workspace), net.ids(n)))
    && (forall n :: IsFreshConsumer(StoreOf(k, workspace).consumers, net.ids(n)))
    && (forall m, n :: m != n ==> net.ids(m) != net.ids(n))
  }

  /** When no call fails, an access request succeeds if and only if it names a workspace and a
      route, Central knows the application, and the quota is not weekly or the check is off. */
  lemma RequestSucceedsIff(w: World, net: Net, req: Request, aclDisable: bool)
    requires AllGoesWell(w.kong, net, req.workspace)
    requires forall c :: c in StoreOf(w.kong, req.workspace).consumers ==> c.id != ""
    ensures Provisioned(w, net, req, aclDisable).1.status == Success <==>
            req.workspace != "" && req.route != "" && req.app in w.apps && (aclDisable || !IsWeekly(req))
  {
    RequestAnsweredAs(w, net, req, aclDisable);
    SettlesAs(w, net, req);
    var (w1, id, _) := Settled(w, net, req);
    if req.workspace != "" && req.app in w.apps {
      SettledKeepsPlugins(w, net, req, Target(req.workspace));
      AccessGoesWell(w1.kong, net, req.workspace, req.route, id.value, req.quota);
    }
  }

  lemma NewIdsOnly(ps: seq<Plugin>, route: string, app: string, newId: string, ps': seq<Plugin>)
    requires Edited(ps, GrantEdit(ps, route, app), newId) == Some(ps')
    ensures forall p :: p in ps' ==> p.id == newId || exists q :: q in ps && q.id == p.id
  {
  }

  /** Then the two calls end well. */
  lemma AccessGoesWell(
      k: Kong, net: Net, workspace: string, route: string, app: string, quota: Option<QuotaRequest>)
    requires Target(workspace) in k.stores && (forall n :: !net.readFails(n) && !net.writeFails(n))
    requires forall n :: IsFresh(PluginsOf(k, workspace), net.ids(n))
    requires forall m, n :: m != n ==> net.ids(m) != net.ids(n)
    ensures GrantAccess(k, net, workspace, route, app, quota).2 == Success
  {
    var k1 := Grant(k, net, workspace, route, app).0;
    GrantSucceedsIff(k, net, workspace, route, app);
    GrantDone(k, net, workspace, route, app);
    NewIdsOnly(PluginsOf(k, workspace), route, app, net.ids(k.clock + 1), PluginsOf(k1, workspace));
    if quota.Some? {
      QuotaSucceedsIff(k1, net, workspace, route, app, IntervalName(quota.value.interval), quota.value.limit);
    }
  }

  // ----- removals of access -----

  /** The answer to a removal of access. With the acl check disabled it succeeds without a
      call; with it on it fails exactly when the call on the route does not end well. */
  lemma RemovalAnsweredAs(w: World, net: Net, req: Request, aclDisable: bool)
    ensures
      var (w', report) := Deprovisioned(w, net, req, aclDisable);
      var recorded := HasRecord(w, req.app, req.workspace);
      var named := req.workspace != "" && recorded && req.route != "";
      && (report.status == NoWorkspace <==> req.workspace == "")
      && (report.status == NoAppId <==> req.workspace != "" && !recorded)
      && (report.status == NoRoute <==> req.workspace != "" && recorded && req.route == "")
      && (named && aclDisable ==> report.status == Success && w' == w)
      && (named && !aclDisable ==>
            var o := Revoke(w.kong, net, req.workspace, req.route, RecordOf(w, req.app, req.workspace)).1;
            && (report.status == Success <==> o == Done) && (report.status == RemovalFailed <==> o != Done))
  {
    RecordedIffHasRecord(w, req.app, req.workspace);
  }

  /** With the acl plugins in order: it succeeds if and only if the listing is answered, an acl
      plugin is on the route, and the writes that are needed get through. */
  lemma RemovalRequestSucceedsIff(w: World, net: Net, req: Request)
    requires InOrder(w.kong, req.workspace) && req.workspace != "" && req.route != ""
    requires HasRecord(w, req.app, req.workspace)
    ensures
      var ps, id := PluginsOf(w.kong, req.workspace), RecordOf(w, req.app, req.workspace);
      Deprovisioned(w, net, req, false).1.status == Success <==>
      && Reads(w.kong, net, req.workspace) && (exists p :: p in ps && OnRoute(p, req.route))
      && (id in Allowed(ps, Route(req.route)) ==>
            && !net.writeFails(w.kong.clock + 1)
            && (Covered(ps, RATE_LIMITING, req.route, id) ==> !net.writeFails(w.kong.clock + 2)))
  {
    RemovalAnsweredAs(w, net, req, false);
    RemovalSucceedsIff(w.kong, net, req.workspace, req.route, RecordOf(w, req.app, req.workspace));
  }

  /** So the removal of a route's last consumer, made again, fails whatever the calls do: the
      route has no acl plugin any more. */
  lemma LastRemovalAgainFails(w: World, net: Net, again: Net, req: Request)
    requires InOrder(w.kong, req.workspace) && HasRecord(w, req.app, req.workspace)
    requires AllowedOn(w.kong, Target(req.workspace), Route(req.route)) == {RecordOf(w, req.app, req.workspace)}
    requires Deprovisioned(w, net, req, false).1.status == Success
    ensures Deprovisioned(Deprovisioned(w, net, req, false).0, again, req, false).1.status == RemovalFailed
  {
    var w1 := Deprovisioned(w, net, req, false).0;
    RemovalAnsweredAs(w, net, req, false);
    RemovalAnsweredAs(w1, again, req, false);
    RecordedIffHasRecord(w, req.app, req.workspace);
    LastRemovalIsMissing(
      w.kong, net, again, req.workspace, req.route, RecordOf(w, req.app, req.workspace));
  }

  // ----- removals of applications -----

  lemma {:induction false} NoWriteFails(k: Kong, net: Net, ids: map<string, string>, order: seq<string>)
    requires forall n :: !net.writeFails(n)
    ensures DeleteAll(k, net, ids, order).1
    decreases |order|
  {
    if |order| > 0 {
      if order[0] in ids {
        ConsumerCallsEndAs(k, net, order[0], ids[order[0]]);
        NoWriteFails(RemoveConsumer(k, net, order[0], ids[order[0]]).0, net, ids, order[1..]);
      } else {
        NoWriteFails(k, net, ids, order[1..]);
      }
    }
  }

  lemma RecordedIdsAre(w: World, agent: Agent, app: string)
    requires app in w.apps
    ensures
      var ids := RecordedIds(w.apps[app].details, agent.workspaces);
      && (forall v :: v in ids <==> v in agent.workspaces && HasRecord(w, app, v))
      && (forall v :: v in ids ==> ids[v] == RecordOf(w, app, v))
  {
    forall v ensures Recorded(w.apps[app].details, v) == RecordedId(w, app, v) {
      RecordedIffHasRecord(w, app, v);
    }
    forall v ensures Recorded(w.apps[app].details, v)
                     == if HasRecord(w, app, v) then RecordOf(w, app, v) else ""
    {
      RecordedIffHasRecord(w, app, v);
    }
  }

  /** Central drops an application if its removal succeeded, and else keeps all. That needs a
      consumer recorded for it in some configured workspace, and when no deletion fails needs
      no more. */
  lemma AppRemovalSucceedsIff(w: World, net: Net, agent: Agent, app: string, order: seq<string>)
    requires forall v :: v in agent.workspaces ==> v in order
    ensures
      var (w', done) := AppDeprovisioned(w, net, agent, app, order);
      && w'.apps == (if done then w.apps - {app} else w.apps)
      && (done ==> exists v :: v in agent.workspaces && HasRecord(w, app, v))
      && ((forall n :: !net.writeFails(n)) ==>
            (done <==> exists v :: v in agent.workspaces && HasRecord(w, app, v)))
  {
    if app in w.apps {
      var ids := RecordedIds(w.apps[app].details, agent.workspaces);
      RecordedIdsAre(w, agent, app);
      if forall n :: !net.writeFails(n) {
        NoWriteFails(w.kong, net, ids, order);
      }
      if |ids| != 0 {
        var v :| v in ids;
      }
    }
  }

  /** A successful removal of an application whose lookups were answered leaves none of its
      recorded consumers in the workspaces they were recorded for. */
  lemma AppRemovalTakesRecorded(w: World, net: Net, agent: Agent, app: string, order: seq<string>, v: string)
    requires app in w.apps && LookupsAnswer(net)
    requires NoAliases(w.kong.stores, RecordedIds(w.apps[app].details, agent.workspaces))
    requires AppDeprovisioned(w, net, agent, app, order).1
    requires v in agent.workspaces && HasRecord(w, app, v)
    ensures
      var w' := AppDeprovisioned(w, net, agent, app, order).0;
      && (forall c :: c in StoreOf(w'.kong, v).consumers ==> c.id != RecordOf(w, app, v))
      && (forall c :: c in StoreOf(w.kong, v).consumers
                      && (forall u :: u in agent.workspaces && HasRecord(w, app, u) ==> c.id != RecordOf(w, app, u)) ==>
            c in StoreOf(w'.kong, v).consumers)
  {
    var ids := RecordedIds(w.apps[app].details, agent.workspaces);
    RecordedIdsAre(w, agent, app);
    DeprovisionIsOrderFreeAndRetryable(w.kong, net, ids, [], order);
    if Target(v) in w.kong.stores {
      assert ids[v] in IdsFor(ids, Target(v));
    }
  }
}
