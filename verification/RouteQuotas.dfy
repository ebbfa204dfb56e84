/**
 Which limits are in force after the client's operations on a route, whatever calls fail:
 limits of every scope and configuration, not only the quota an operation is for.
 */
module RouteQuotas {
  import opened KongStore
  import opened PluginSearch
  import opened RouteEdits
  import opened KongClients
  import opened AccessRequests
  import opened RouteAccess

  function QuotaPlugins(k: Kong, workspace: string): seq<Plugin> {
    Named(PluginsOf(k, workspace), RATE_LIMITING)
  }

  /** What a quota request hits is decided by the rate-limiting plugins. */
  lemma HitsByName(ps: seq<Plugin>, ps': seq<Plugin>, route: string, app: string)
    requires Named(ps', RATE_LIMITING) == Named(ps, RATE_LIMITING)
    ensures Found(ps', QuotaQuery(route, app)) == Found(ps, QuotaQuery(route, app))
  {
    FoundByName(ps, QuotaQuery(route, app));
    FoundByName(ps', QuotaQuery(route, app));
  }

  lemma GrantKeepsQuotas(k: Kong, net: Net, workspace: string, route: string, app: string)
    requires Unique(k, workspace)
    ensures Unique(Grant(k, net, workspace, route, app).0, workspace)
    ensures QuotaPlugins(Grant(k, net, workspace, route, app).0, workspace) == QuotaPlugins(k, workspace)
  {
    var (k', o) := Grant(k, net, workspace, route, app);
    if o == Done {
      var ps := PluginsOf(k, workspace);
      GrantDone(k, net, workspace, route, app);
      GrantFlagsOnly(k, net, workspace, route, app);
      EditKinds(ps, route, app, Other(""));
      AclEditKeepsNamed(
        ps, GrantEdit(ps, route, app), net.ids(k.clock + 1), PluginsOf(k', workspace), RATE_LIMITING);
    }
  }

  // ----- placing -----

  /** A quota request that ends well puts in force the limit it hits; every other limit, and
      every limit when the request fails, is in force exactly if it was before. */
  lemma PlacingReachesOn(
      k: Kong, net: Net, workspace: string, route: string, app: string, interval: string, limit: int, at: Limit)
    requires Unique(k, workspace) && route != "" && app != ""
    ensures
      var (k', o) := PlaceQuota(k, net, workspace, route, app, interval, limit);
      InForce(PluginsOf(k', workspace), at) <==>
      InForce(PluginsOf(k, workspace), at)
      || (o == Done && at == QuotaHit(PluginsOf(k, workspace), route, app, SetQuota(interval, limit)))
  {
    var (k', o) := PlaceQuota(k, net, workspace, route, app, interval, limit);
    if o == Done {
      QuotaDone(k, net, workspace, route, app, interval, limit);
      PlacingReaches(
        PluginsOf(k, workspace), route, app, SetQuota(interval, limit), net.ids(k.clock + 1),
        PluginsOf(k', workspace), at);
    }
  }

  /** The same of a whole access request, in terms of the plugins listed before it. */
  lemma GrantAccessReaches(
      k: Kong, net: Net, workspace: string, route: string, app: string, quota: Option<QuotaRequest>, limit: Limit)
    requires Unique(k, workspace) && route != "" && app != ""
    ensures
      var (k', _, status) := GrantAccess(k, net, workspace, route, app, quota);
      InForce(PluginsOf(k', workspace), limit) <==>
      InForce(PluginsOf(k, workspace), limit)
      || (quota.Some? && status == Success
          && limit == QuotaHit(PluginsOf(k, workspace), route, app, ConfigOf(quota.value)))
  {
    var k1 := Grant(k, net, workspace, route, app).0;
    GrantKeepsQuotas(k, net, workspace, route, app);
    QuotasByName(PluginsOf(k, workspace), PluginsOf(k1, workspace));
    HitsByName(PluginsOf(k, workspace), PluginsOf(k1, workspace), route, app);
    if quota.Some? {
      var q := quota.value;
      PlacingReachesOn(k1, net, workspace, route, app, IntervalName(q.interval), q.limit, limit);
    }
  }

  // ----- removing -----

  /** The removal finds the consumer on an allow list, and so has something to write. */
  predicate Listed(ps: seq<Plugin>, route: string, app: string) {
    RevokeEdit(ps, route, app).Some? && !RevokeEdit(ps, route, app).value.Keep?
  }

  lemma ListedIffAllowed(ps: seq<Plugin>, route: string, app: string)
    requires RouteAclsOnly(ps) && route != ""
    ensures Listed(ps, route, app) <==> app in Allowed(ps, Route(route))
  {
  }

  lemma RemovalKeepsQuotas(k: Kong, net: Net, workspace: string, route: string, app: string, e: Edit)
    requires Unique(k, workspace)
    requires RevokeEdit(PluginsOf(k, workspace), route, app) == Some(e) && Commit(k, net, workspace, e).1
    ensures Unique(Commit(k, net, workspace, e).0, workspace)
    ensures QuotaPlugins(Commit(k, net, workspace, e).0, workspace) == QuotaPlugins(k, workspace)
  {
    var ps := PluginsOf(k, workspace);
    CommitWrites(k, net, workspace, e);
    EditKinds(ps, route, app, Other(""));
    AclEditKeepsNamed(
      ps, e, net.ids(k.clock), PluginsOf(Commit(k, net, workspace, e).0, workspace), RATE_LIMITING);
  }

  /** Disabling what an earlier listing held, on a store with the same rate-limiting plugins. */
  lemma DisablingHits(
      ps: seq<Plugin>, k: Kong, net: Net, workspace: string, route: string, app: string, limit: Limit)
    requires Unique(k, workspace) && Named(ps, RATE_LIMITING) == QuotaPlugins(k, workspace) && QuotasDiffer(ps)
    ensures
      var (k', ok) := Submit(k, net, workspace, DisableEdit(ps, route, app));
      InForce(PluginsOf(k', workspace), limit) <==>
      InForce(ps, limit) && !(ok && DisableHits(ps, route, app, limit))
  {
    var e, now := DisableEdit(ps, route, app), PluginsOf(k, workspace);
    var (k', ok) := Submit(k, net, workspace, e);
    QuotasByName(ps, now);
    if e.Patch? && ok {
      var p := Found(ps, QuotaQuery(route, app)).value;
      assert p in now;
      var j :| 0 <= j < |now| && now[j] == p;
      CommitWrites(k, net, workspace, e);
      FlagDecides(now, j, false, net.ids(k.clock), PluginsOf(k', workspace), limit);
    }
  }

  lemma RemovalReachesQuotas(
      k: Kong, net: Net, workspace: string, route: string, app: string, e: Edit, limit: Limit)
    requires Unique(k, workspace) && QuotasDiffer(PluginsOf(k, workspace))
    requires RevokeEdit(PluginsOf(k, workspace), route, app) == Some(e) && Commit(k, net, workspace, e).1
    ensures
      var ps, k1 := PluginsOf(k, workspace), Commit(k, net, workspace, e).0;
      var (k2, ok) := Submit(k1, net, workspace, DisableEdit(ps, route, app));
      InForce(PluginsOf(k2, workspace), limit) <==> InForce(ps, limit) && !(ok && DisableHits(ps, route, app, limit))
  {
    RemovalKeepsQuotas(k, net, workspace, route, app, e);
    DisablingHits(PluginsOf(k, workspace), Commit(k, net, workspace, e).0, net, workspace, route, app, limit);
  }

  /** A removal that writes nothing. */
  lemma RevokeIdle(k: Kong, net: Net, workspace: string, route: string, app: string)
    requires !Listed(PluginsOf(k, workspace), route, app)
             || Revoke(k, net, workspace, route, app).1 !in {Done, DisableFailed}
    ensures Revoke(k, net, workspace, route, app).0.stores == k.stores
    ensures Revoke(k, net, workspace, route, app).1 == DisableFailed ==> Listed(PluginsOf(k, workspace), route, app)
  {
  }

  /** A removal that ends well after finding the consumer listed takes out of force the limit
      it hits, which need not be the consumer's on that route, nor any consumer's; every other
      limit, and every limit after any other removal, is in force exactly if it was before. */
  lemma RevokingReachesOn(
      k: Kong, net: Net, workspace: string, route: string, app: string, limit: Limit)
    requires Unique(k, workspace) && QuotasDiffer(PluginsOf(k, workspace))
    ensures
      var ps := PluginsOf(k, workspace);
      var (k', o) := Revoke(k, net, workspace, route, app);
      InForce(PluginsOf(k', workspace), limit) <==>
      InForce(ps, limit) && !(o == Done && Listed(ps, route, app) && DisableHits(ps, route, app, limit))
  {
    var ps, o := PluginsOf(k, workspace), Revoke(k, net, workspace, route, app).1;
    if o in {Done, DisableFailed} && Listed(ps, route, app) {
      var e := RevokeEdit(ps, route, app).value;
      RevokeCommits(k, net, workspace, route, app, e);
      RemovalReachesQuotas(Tick(k), net, workspace, route, app, e, limit);
    } else {
      RevokeIdle(k, net, workspace, route, app);
    }
  }

  lemma NoLongerListed(k: Kong, net: Net, workspace: string, route: string, app: string)
    requires InOrder(k, workspace) && route != "" && Revoke(k, net, workspace, route, app).1 == DisableFailed
    ensures !Listed(PluginsOf(Revoke(k, net, workspace, route, app).0, workspace), route, app)
  {
    var k1 := Revoke(k, net, workspace, route, app).0;
    RevokeOnAllowed(k, net, workspace, route, app, Target(workspace), route);
    ListedIffAllowed(PluginsOf(k1, workspace), route, app);
  }

  /** Once a removal has taken the access away and then failed to disable the quota, no
      retry writes anything: the consumer is no longer listed, and the quota stays. */
  lemma FailedDisablingIsFinal(
      k: Kong, net: Net, retry: Net, workspace: string, route: string, app: string, limit: Limit)
    requires InOrder(k, workspace) && QuotasDiffer(PluginsOf(k, workspace)) && route != ""
    requires Revoke(k, net, workspace, route, app).1 == DisableFailed
    ensures
      var k1 := Revoke(k, net, workspace, route, app).0;
      var k2 := Revoke(k1, retry, workspace, route, app).0;
      && k2.stores == k1.stores
      && (InForce(PluginsOf(k2, workspace), limit) <==> InForce(PluginsOf(k, workspace), limit))
  {
    NoLongerListed(k, net, workspace, route, app);
    RevokeIdle(Revoke(k, net, workspace, route, app).0, retry, workspace, route, app);
    RevokingReachesOn(k, net, workspace, route, app, limit);
  }

  /** Such a removal exists: A and B may use R, and B is limited there; the removal of (R, B)
      gets through but for its third call, and made again it ends well, writes nothing, and
      leaves the limit in force. */
  lemma FailedDisablingHappens(route: string, a: string, b: string, config: Config)
    requires route != "" && b != "" && a != b
    ensures
      var acl := Plugin("1", ACL, To(route), Unset, Unset, true, Acl([a, b], [], false));
      var quota := Plugin("2", RATE_LIMITING, To(route), Unset, To(b), true, config);
      var k := Kong(map[DEFAULT_WORKSPACE := Store([acl, quota], [], {}, [])], 0);
      var third := Net(_ => false, n => n == 2, _ => false, _ => "");
      var (k1, o) := Revoke(k, third, DEFAULT_WORKSPACE, route, b);
      var (k2, again) := Revoke(k1, GOOD_NET, DEFAULT_WORKSPACE, route, b);
      && o == DisableFailed && again == Done && k2.stores == k1.stores
      && InForce(PluginsOf(k2, DEFAULT_WORKSPACE), Limit(QuotaKey(route, b), config))
  {
    var acl := Plugin("1", ACL, To(route), Unset, Unset, true, Acl([a, b], [], false));
    var quota := Plugin("2", RATE_LIMITING, To(route), Unset, To(b), true, config);
    var k := Kong(map[DEFAULT_WORKSPACE := Store([acl, quota], [], {}, [])], 0);
    var third := Net(_ => false, n => n == 2, _ => false, _ => "");
    ThirdCallFails(k, third, acl, quota, route, a, b);
    var k1, left := Revoke(k, third, DEFAULT_WORKSPACE, route, b).0, WithAllow(acl, [a]);
    UnlistedIsDone(k1, left, quota, route, b);
    assert [left, quota][1] == quota;
  }

  lemma ThirdCallFails(k: Kong, net: Net, acl: Plugin, quota: Plugin, route: string, a: string, b: string)
    requires acl.name == ACL && Exact(acl, AclQuery(route)) && AllowList(acl) == [a, b] && a != b
    requires Exact(quota, QuotaQuery(route, b)) && acl.id != quota.id
    requires k.clock == 0 && DEFAULT_WORKSPACE in k.stores && PluginsOf(k, DEFAULT_WORKSPACE) == [acl, quota]
    requires !net.readFails(0) && !net.writeFails(1) && net.writeFails(2)
    ensures
      var (k1, o) := Revoke(k, net, DEFAULT_WORKSPACE, route, b);
      o == DisableFailed && PluginsOf(k1, DEFAULT_WORKSPACE) == [WithAllow(acl, [a]), quota]
  {
    var ps, left := [acl, quota], WithAllow(acl, [a]);
    assert ps[0] == acl && ps[1] == quota;
    AclAndQuotaFound(acl, quota, route, b);
    AppendThenTakeOut([a], b);
    assert [a] + [b] == [a, b];
    PatchReachesOwn(ps, 0, left, net.ids(1));
    assert ps[0 := left] == [left, quota];
  }

  lemma UnlistedIsDone(k: Kong, acl: Plugin, quota: Plugin, route: string, app: string)
    requires acl.name == ACL && Exact(acl, AclQuery(route)) && app !in AllowList(acl)
    requires Exact(quota, QuotaQuery(route, app))
    requires DEFAULT_WORKSPACE in k.stores && PluginsOf(k, DEFAULT_WORKSPACE) == [acl, quota]
    ensures Revoke(k, GOOD_NET, DEFAULT_WORKSPACE, route, app) == (Tick(k), Done)
  {
    AclAndQuotaFound(acl, quota, route, app);
    assert [acl, quota][0] == acl;
  }

  lemma AclAndQuotaFound(acl: Plugin, quota: Plugin, route: string, app: string)
    requires acl.name == ACL && Exact(acl, AclQuery(route)) && Exact(quota, QuotaQuery(route, app))
    ensures Select([acl, quota], AclQuery(route)) == Some(0)
    ensures Select([acl, quota], QuotaQuery(route, app)) == Some(1)
  {
    var l := [acl, quota];
    assert l[0] == acl && l[1] == quota;
    SelectNeverPassesExact(l, AclQuery(route), 0);
    SelectNeverPassesExact(l, QuotaQuery(route, app), 1);
  }

  // ----- a quota that never takes force -----

  /** Three successful quota requests of the agent, for (R1, A), (R2, B) and (R1, B), on a
      workspace without rate limiting: the third takes the second's plugin for its own,
      so nothing is created and B is not limited on R1. */
  lemma ThirdQuotaIsLost(
      k: Kong, net: Net, workspace: string,
      r1: string, r2: string, a: string, b: string, qa: QuotaRequest, qb: QuotaRequest, qc: QuotaRequest)
    requires Unique(k, workspace) && r1 != "" && r2 != "" && a != "" && b != "" && r1 != r2 && a != b
    requires QuotaPlugins(k, workspace) == []
    requires
      var s1 := PlaceQuota(k, net, workspace, r1, a, IntervalName(qa.interval), qa.limit);
      var s2 := PlaceQuota(s1.0, net, workspace, r2, b, IntervalName(qb.interval), qb.limit);
      s1.1 == Done && s2.1 == Done
    ensures
      var k1 := PlaceQuota(k, net, workspace, r1, a, IntervalName(qa.interval), qa.limit).0;
      var k2 := PlaceQuota(k1, net, workspace, r2, b, IntervalName(qb.interval), qb.limit).0;
      var (k3, o) := PlaceQuota(k2, net, workspace, r1, b, IntervalName(qc.interval), qc.limit);
      && k3.stores == k2.stores
      && (o == Done <==> !net.readFails(k2.clock))
      && !QuotaInForce(PluginsOf(k3, workspace), r1, b)
  {
    var p1, p2 := AfterTwoQuotas(k, net, workspace, r1, r2, a, b, qa, qb);
    var k1 := PlaceQuota(k, net, workspace, r1, a, IntervalName(qa.interval), qa.limit).0;
    var k2 := PlaceQuota(k1, net, workspace, r2, b, IntervalName(qb.interval), qb.limit).0;
    JoinedSearchFails(k2, net, workspace, p1, p2, r1, r2, a, b, qc);
  }

  lemma AfterTwoQuotas(
      k: Kong, net: Net, workspace: string, r1: string, r2: string, a: string, b: string, qa: QuotaRequest,
      qb: QuotaRequest)
    returns (p1: Plugin, p2: Plugin)
    requires r1 != "" && r2 != "" && a != "" && b != "" && r1 != r2 && a != b
    requires QuotaPlugins(k, workspace) == []
    requires
      var s1 := PlaceQuota(k, net, workspace, r1, a, IntervalName(qa.interval), qa.limit);
      s1.1 == Done && PlaceQuota(s1.0, net, workspace, r2, b, IntervalName(qb.interval), qb.limit).1 == Done
    ensures
      var k1 := PlaceQuota(k, net, workspace, r1, a, IntervalName(qa.interval), qa.limit).0;
      var k2 := PlaceQuota(k1, net, workspace, r2, b, IntervalName(qb.interval), qb.limit).0;
      QuotaPlugins(k2, workspace) == [p1, p2] && Target(workspace) in k2.stores
    ensures Exact(p1, QuotaQuery(r1, a)) && Exact(p2, QuotaQuery(r2, b)) && p2.enabled
  {
    p1 := FirstQuota(k, net, workspace, r1, a, qa);
    p2 := SecondQuota(
      PlaceQuota(k, net, workspace, r1, a, IntervalName(qa.interval), qa.limit).0,
      net, workspace, p1, r1, r2, a, b, qb);
  }

  lemma FirstQuota(k: Kong, net: Net, workspace: string, route: string, app: string, q: QuotaRequest)
    returns (p: Plugin)
    requires route != "" && app != "" && QuotaPlugins(k, workspace) == []
    requires PlaceQuota(k, net, workspace, route, app, IntervalName(q.interval), q.limit).1 == Done
    ensures
      var k' := PlaceQuota(k, net, workspace, route, app, IntervalName(q.interval), q.limit).0;
      QuotaPlugins(k', workspace) == [p]
    ensures Exact(p, QuotaQuery(route, app)) && p.enabled
  {
    FoundByName(PluginsOf(k, workspace), QuotaQuery(route, app));
    p := QuotaCreates(k, net, workspace, route, app, IntervalName(q.interval), q.limit);
    assert [] + [p] == [p];
  }

  lemma SecondQuota(
      k: Kong, net: Net, workspace: string, p1: Plugin, r1: string, r2: string, a: string, b: string, q: QuotaRequest)
    returns (p2: Plugin)
    requires r1 != "" && r2 != "" && a != "" && b != "" && r1 != r2 && a != b
    requires QuotaPlugins(k, workspace) == [p1] && Exact(p1, QuotaQuery(r1, a))
    requires PlaceQuota(k, net, workspace, r2, b, IntervalName(q.interval), q.limit).1 == Done
    ensures
      var k' := PlaceQuota(k, net, workspace, r2, b, IntervalName(q.interval), q.limit).0;
      QuotaPlugins(k', workspace) == [p1, p2] && Target(workspace) in k'.stores
    ensures Exact(p2, QuotaQuery(r2, b)) && p2.enabled
  {
    FoundByName(PluginsOf(k, workspace), QuotaQuery(r2, b));
    OneDoesNotJoin(p1, r1, r2, a, b);
    p2 := QuotaCreates(k, net, workspace, r2, b, IntervalName(q.interval), q.limit);
    assert [p1] + [p2] == [p1, p2];
  }

  lemma JoinedSearchFails(
      k: Kong, net: Net, workspace: string, p1: Plugin, p2: Plugin,
      r1: string, r2: string, a: string, b: string, q: QuotaRequest)
    requires r1 != "" && r2 != "" && a != "" && b != "" && r1 != r2 && a != b
    requires QuotaPlugins(k, workspace) == [p1, p2] && Target(workspace) in k.stores
    requires Exact(p1, QuotaQuery(r1, a)) && Exact(p2, QuotaQuery(r2, b)) && p2.enabled
    ensures
      var (k', o) := PlaceQuota(k, net, workspace, r1, b, IntervalName(q.interval), q.limit);
      && k'.stores == k.stores
      && (o == Done <==> !net.readFails(k.clock))
      && !QuotaInForce(PluginsOf(k', workspace), r1, b)
  {
    TwoJoin(p1, p2, r1, r2, a, b);
    FoundByName(PluginsOf(k, workspace), QuotaQuery(r1, b));
    FoundInForce(k, net, workspace, r1, b, IntervalName(q.interval), q.limit);
    forall p | p in PluginsOf(k, workspace) && p.name == RATE_LIMITING ensures p in [p1, p2] {
      assert p in QuotaPlugins(k, workspace);
    }
  }

  /** When the search finds an enabled plugin, nothing is written. */
  lemma FoundInForce(
      k: Kong, net: Net, workspace: string, route: string, app: string, interval: string, limit: int)
    requires Target(workspace) in k.stores && Found(PluginsOf(k, workspace), QuotaQuery(route, app)).Some?
    requires Found(PluginsOf(k, workspace), QuotaQuery(route, app)).value.enabled
    ensures
      var (k', o) := PlaceQuota(k, net, workspace, route, app, interval, limit);
      k'.stores == k.stores && (o == Done <==> !net.readFails(k.clock))
  {
  }

  /** When the search finds nothing, an enabled plugin of exactly that scope is added. */
  lemma QuotaCreates(k: Kong, net: Net, workspace: string, route: string, app: string, interval: string, limit: int)
    returns (p: Plugin)
    requires route != "" && app != "" && Found(PluginsOf(k, workspace), QuotaQuery(route, app)).None?
    requires PlaceQuota(k, net, workspace, route, app, interval, limit).1 == Done
    ensures Exact(p, QuotaQuery(route, app)) && p.enabled
    ensures QuotaPlugins(PlaceQuota(k, net, workspace, route, app, interval, limit).0, workspace)
            == QuotaPlugins(k, workspace) + [p]
  {
    QuotaDone(k, net, workspace, route, app, interval, limit);
    p := Created(route, NewPlugin(RATE_LIMITING, To(app), SetQuota(interval, limit)), net.ids(k.clock + 1));
    NamedOneMore(PluginsOf(k, workspace), p, RATE_LIMITING);
  }

  lemma OneDoesNotJoin(p1: Plugin, r1: string, r2: string, a: string, b: string)
    requires r1 != "" && r2 != "" && a != "" && b != "" && r1 != r2 && a != b
    requires Exact(p1, QuotaQuery(r1, a))
    ensures Found([p1], QuotaQuery(r2, b)).None?
  {
  }

  /** A plugin on the route and one for the consumer are together taken for a match. */
  lemma TwoJoin(p1: Plugin, p2: Plugin, r1: string, r2: string, a: string, b: string)
    requires r1 != "" && r2 != "" && a != "" && b != "" && r1 != r2 && a != b
    requires Exact(p1, QuotaQuery(r1, a)) && Exact(p2, QuotaQuery(r2, b))
    ensures Found([p1, p2], QuotaQuery(r1, b)) == Some(p2)
    ensures !QuotaInForce([p1, p2], r1, b)
  {
    var l, q := [p1, p2], QuotaQuery(r1, b);
    assert l[0] == p1 && l[1] == p2;
    assert FirstFit(l, q, ByConsumer) == Some(1);
    assert FirstFit(l, q, ByRoute) == Some(0) && FirstFit(l, q, ByService) == Some(0);
  }

  // ----- a quota that ends with another's removal -----

  /** An access request whose search finds nothing adds one plugin of exactly its scope. */
  lemma AccessAddsQuota(k: Kong, net: Net, workspace: string, route: string, app: string, q: QuotaRequest)
    returns (p: Plugin)
    requires Unique(k, workspace) && route != "" && app != ""
    requires Found(QuotaPlugins(k, workspace), QuotaQuery(route, app)).None?
    requires GrantAccess(k, net, workspace, route, app, Some(q)).2 == Success
    ensures Exact(p, QuotaQuery(route, app)) && p.enabled
    ensures QuotaPlugins(GrantAccess(k, net, workspace, route, app, Some(q)).0, workspace)
            == QuotaPlugins(k, workspace) + [p]
  {
    var k1 := Grant(k, net, workspace, route, app).0;
    GrantKeepsQuotas(k, net, workspace, route, app);
    FoundByName(PluginsOf(k1, workspace), QuotaQuery(route, app));
    p := QuotaCreates(k1, net, workspace, route, app, IntervalName(q.interval), q.limit);
  }

  lemma AccessFindsQuota(k: Kong, net: Net, workspace: string, route: string, app: string, q: QuotaRequest, p: Plugin)
    requires Unique(k, workspace)
    requires Found(QuotaPlugins(k, workspace), QuotaQuery(route, app)) == Some(p) && p.enabled
    requires GrantAccess(k, net, workspace, route, app, Some(q)).2 == Success
    ensures QuotaPlugins(GrantAccess(k, net, workspace, route, app, Some(q)).0, workspace) == QuotaPlugins(k, workspace)
  {
    var k1 := Grant(k, net, workspace, route, app).0;
    GrantDone(k, net, workspace, route, app);
    GrantKeepsQuotas(k, net, workspace, route, app);
    FoundByName(PluginsOf(k1, workspace), QuotaQuery(route, app));
    FoundInForce(k1, net, workspace, route, app, IntervalName(q.interval), q.limit);
  }

  lemma GrantAccessSteps(k: Kong, net: Net, workspace: string, route: string, app: string, q: QuotaRequest)
    requires GrantAccess(k, net, workspace, route, app, Some(q)).2 == Success
    ensures Grant(k, net, workspace, route, app).1 == Done
    ensures
      var k1 := Grant(k, net, workspace, route, app).0;
      PlaceQuota(k1, net, workspace, route, app, IntervalName(q.interval), q.limit).0
      == GrantAccess(k, net, workspace, route, app, Some(q)).0
  {
  }

  lemma AccessKeepsOrder(
      k: Kong, net: Net, workspace: string, route: string, app: string, q: QuotaRequest, r: string)
    requires InOrder(k, workspace) && route != ""
    requires GrantAccess(k, net, workspace, route, app, Some(q)).2 == Success
    ensures
      var k' := GrantAccess(k, net, workspace, route, app, Some(q)).0;
      && InOrder(k', workspace)
      && AllowedOn(k', Target(workspace), Route(r))
         == AllowedOn(k, Target(workspace), Route(r)) + if r == route then {app} else {}
  {
    var k1 := Grant(k, net, workspace, route, app).0;
    GrantAccessSteps(k, net, workspace, route, app, q);
    GrantOnAllowed(k, net, workspace, route, app, Target(workspace), r);
    QuotaOnAllowed(
      k1, net, workspace, route, app, IntervalName(q.interval), q.limit, Target(workspace), Route(r));
  }

  lemma FirstAccess(k: Kong, net: Net, workspace: string, route: string, app: string, q: QuotaRequest)
    returns (p: Plugin)
    requires Unique(k, workspace) && route != "" && app != "" && QuotaPlugins(k, workspace) == []
    requires GrantAccess(k, net, workspace, route, app, Some(q)).2 == Success
    ensures QuotaPlugins(GrantAccess(k, net, workspace, route, app, Some(q)).0, workspace) == [p]
    ensures Exact(p, QuotaQuery(route, app)) && p.enabled
  {
    p := AccessAddsQuota(k, net, workspace, route, app, q);
    assert [] + [p] == [p];
  }

  /** The first request is for (R1, A), so the second finds no quota for (R2, B). */
  lemma SecondAccess(
      k: Kong, net: Net, workspace: string, p1: Plugin, r1: string, r2: string, a: string, b: string, q: QuotaRequest)
    returns (p2: Plugin)
    requires InOrder(k, workspace) && r1 != "" && r2 != "" && a != "" && b != "" && r1 != r2 && a != b
    requires QuotaPlugins(k, workspace) == [p1] && Exact(p1, QuotaQuery(r1, a))
    requires GrantAccess(k, net, workspace, r2, b, Some(q)).2 == Success
    ensures QuotaPlugins(GrantAccess(k, net, workspace, r2, b, Some(q)).0, workspace) == [p1, p2]
    ensures Exact(p2, QuotaQuery(r2, b)) && p2.enabled
  {
    OneDoesNotJoin(p1, r1, r2, a, b);
    p2 := AccessAddsQuota(k, net, workspace, r2, b, q);
    assert [p1] + [p2] == [p1, p2];
  }

  lemma ThirdAccess(
      k: Kong, net: Net, workspace: string, p1: Plugin, p2: Plugin, r1: string, r2: string, a: string,
      b: string, q: QuotaRequest)
    requires InOrder(k, workspace) && r1 != "" && r2 != "" && a != "" && b != "" && r1 != r2 && a != b
    requires QuotaPlugins(k, workspace) == [p1, p2]
    requires Exact(p1, QuotaQuery(r1, a)) && Exact(p2, QuotaQuery(r2, b)) && p2.enabled
    requires GrantAccess(k, net, workspace, r1, b, Some(q)).2 == Success
    ensures QuotaPlugins(GrantAccess(k, net, workspace, r1, b, Some(q)).0, workspace) == [p1, p2]
    ensures Found([p1, p2], QuotaQuery(r1, b)) == Some(p2)
  {
    TwoJoin(p1, p2, r1, r2, a, b);
    AccessFindsQuota(k, net, workspace, r1, b, q, p2);
  }

  /** Three successful access requests, for (R1, A), (R2, B) and (R1, B), on a workspace
      without rate limiting, and then a removal of (R1, B) that ends well: it disables the
      quota of (R2, B), so B goes on using R2 without a limit. */
  lemma RemovalEndsAnotherQuota(
      k: Kong, net: Net, workspace: string,
      r1: string, r2: string, a: string, b: string, qa: QuotaRequest, qb: QuotaRequest, qc: QuotaRequest)
    requires InOrder(k, workspace) && r1 != "" && r2 != "" && a != "" && b != "" && r1 != r2 && a != b
    requires QuotaPlugins(k, workspace) == []
    requires
      var s1 := GrantAccess(k, net, workspace, r1, a, Some(qa));
      var s2 := GrantAccess(s1.0, net, workspace, r2, b, Some(qb));
      var s3 := GrantAccess(s2.0, net, workspace, r1, b, Some(qc));
      && s1.2 == Success && s2.2 == Success && s3.2 == Success
      && Revoke(s3.0, net, workspace, r1, b).1 == Done
    ensures
      var k1 := GrantAccess(k, net, workspace, r1, a, Some(qa)).0;
      var k2 := GrantAccess(k1, net, workspace, r2, b, Some(qb)).0;
      var k3 := GrantAccess(k2, net, workspace, r1, b, Some(qc)).0;
      var k4 := Revoke(k3, net, workspace, r1, b).0;
      && QuotaInForce(PluginsOf(k3, workspace), r2, b)
      && !QuotaInForce(PluginsOf(k4, workspace), r2, b)
      && b in AllowedOn(k4, Target(workspace), Route(r2))
  {
    var k1 := GrantAccess(k, net, workspace, r1, a, Some(qa)).0;
    var k2 := GrantAccess(k1, net, workspace, r2, b, Some(qb)).0;
    var k3 := GrantAccess(k2, net, workspace, r1, b, Some(qc)).0;
    AccessKeepsOrder(k, net, workspace, r1, a, qa, r2);
    AccessKeepsOrder(k1, net, workspace, r2, b, qb, r2);
    AccessKeepsOrder(k2, net, workspace, r1, b, qc, r1);
    AccessKeepsOrder(k2, net, workspace, r1, b, qc, r2);
    var p1 := FirstAccess(k, net, workspace, r1, a, qa);
    var p2 := SecondAccess(k1, net, workspace, p1, r1, r2, a, b, qb);
    ThirdAccess(k2, net, workspace, p1, p2, r1, r2, a, b, qc);
    RemovalHitsTheOther(k3, net, workspace, p1, p2, r1, r2, b);
  }

  lemma RemovalHitsTheOther(
      k: Kong, net: Net, workspace: string, p1: Plugin, p2: Plugin, r1: string, r2: string, b: string)
    requires InOrder(k, workspace) && r1 != "" && b != "" && r1 != r2 && !SameKey(p1, p2)
    requires QuotaPlugins(k, workspace) == [p1, p2] && Found([p1, p2], QuotaQuery(r1, b)) == Some(p2)
    requires Exact(p2, QuotaQuery(r2, b)) && p2.enabled
    requires b in AllowedOn(k, Target(workspace), Route(r1)) && b in AllowedOn(k, Target(workspace), Route(r2))
    requires Revoke(k, net, workspace, r1, b).1 == Done
    ensures QuotaInForce(PluginsOf(k, workspace), r2, b)
    ensures
      var k' := Revoke(k, net, workspace, r1, b).0;
      !QuotaInForce(PluginsOf(k', workspace), r2, b) && b in AllowedOn(k', Target(workspace), Route(r2))
  {
    HitsTheSecond(PluginsOf(k, workspace), p1, p2, r1, r2, b);
    ListedIffAllowed(PluginsOf(k, workspace), r1, b);
    RevokingEnds(k, net, workspace, r1, b, QuotaKey(r2, b));
    RevokeOnAllowed(k, net, workspace, r1, b, Target(workspace), r2);
  }

  lemma HitsTheSecond(ps: seq<Plugin>, p1: Plugin, p2: Plugin, r1: string, r2: string, b: string)
    requires Named(ps, RATE_LIMITING) == [p1, p2] && !SameKey(p1, p2)
    requires Found([p1, p2], QuotaQuery(r1, b)) == Some(p2) && Exact(p2, QuotaQuery(r2, b)) && p2.enabled
    ensures QuotasDiffer(ps) && QuotaInForce(ps, r2, b)
    ensures Found(ps, QuotaQuery(r1, b)) == Some(p2) && KeyOf(p2) == QuotaKey(r2, b)
  {
    OnlyTheseTwo(ps, p1, p2, r2, b);
    FoundByName(ps, QuotaQuery(r1, b));
    ExactIsKey(p2, QuotaQuery(r2, b));
  }

  /** A removal that ends well leaves the scope of the plugin its search finds without limit. */
  lemma RevokingEnds(k: Kong, net: Net, workspace: string, route: string, app: string, key: Key)
    requires Unique(k, workspace) && QuotasDiffer(PluginsOf(k, workspace))
    requires Listed(PluginsOf(k, workspace), route, app)
    requires Revoke(k, net, workspace, route, app).1 == Done
    requires Found(PluginsOf(k, workspace), QuotaQuery(route, app)).Some?
    requires KeyOf(Found(PluginsOf(k, workspace), QuotaQuery(route, app)).value) == key
    ensures !Limited(PluginsOf(Revoke(k, net, workspace, route, app).0, workspace), key)
  {
    var ps, after := PluginsOf(k, workspace), PluginsOf(Revoke(k, net, workspace, route, app).0, workspace);
    LimitedIff(after, key);
    forall config ensures !InForce(after, Limit(key, config)) {
      RevokingReachesOn(k, net, workspace, route, app, Limit(key, config));
      OneLimit(ps, Found(ps, QuotaQuery(route, app)).value, Limit(key, config));
    }
  }

  lemma OnlyTheseTwo(ps: seq<Plugin>, p1: Plugin, p2: Plugin, route: string, app: string)
    requires Named(ps, RATE_LIMITING) == [p1, p2] && !SameKey(p1, p2)
    ensures QuotasDiffer(ps)
    ensures Exact(p2, QuotaQuery(route, app)) && p2.enabled ==> QuotaInForce(ps, route, app)
  {
  }

  // ----- such runs exist -----

  function LongId(n: nat): string {
    seq(n + 1, _ => 'i')
  }

  /** Every call gets through, and every new ID is longer than the ones before. */
  const GOOD_NET := Net(_ => false, _ => false, _ => false, LongId)

  /** The IDs in use are among those handed out. */
  ghost predicate Aged(k: Kong, workspace: string) {
    Target(workspace) in k.stores && forall p :: p in PluginsOf(k, workspace) ==> |p.id| <= k.clock
  }

  ghost predicate Addresses(ps: seq<Plugin>, e: Edit) {
    (e.Patch? ==> exists p :: p in ps && p.id == e.patched.id) && (e.Drop? ==> exists p :: p in ps && p.id == e.id)
  }

  lemma GoodSubmit(k: Kong, workspace: string, e: Edit)
    requires Aged(k, workspace) && Addresses(PluginsOf(k, workspace), e)
    ensures Submit(k, GOOD_NET, workspace, e).1 && Aged(Submit(k, GOOD_NET, workspace, e).0, workspace)
    ensures !e.Keep? ==> Submit(k, GOOD_NET, workspace, e) == Commit(k, GOOD_NET, workspace, e)
  {
    assert |LongId(k.clock)| == k.clock + 1;
  }

  lemma GoodGrant(k: Kong, workspace: string, route: string, app: string)
    requires Aged(k, workspace)
    ensures
      var (k', o) := Grant(k, GOOD_NET, workspace, route, app);
      o == Done && Aged(k', workspace)
  {
    GoodSubmit(Tick(k), workspace, GrantEdit(PluginsOf(k, workspace), route, app));
  }

  lemma GoodPlacing(k: Kong, workspace: string, route: string, app: string, interval: string, limit: int)
    requires Aged(k, workspace)
    ensures
      var (k', o) := PlaceQuota(k, GOOD_NET, workspace, route, app, interval, limit);
      o == Done && Aged(k', workspace)
  {
    GoodSubmit(Tick(k), workspace, QuotaEdit(PluginsOf(k, workspace), route, app, SetQuota(interval, limit)));
  }

  lemma GoodAccess(k: Kong, workspace: string, route: string, app: string, q: QuotaRequest)
    requires Aged(k, workspace)
    ensures GrantAccess(k, GOOD_NET, workspace, route, app, Some(q)).2 == Success
    ensures Aged(GrantAccess(k, GOOD_NET, workspace, route, app, Some(q)).0, workspace)
  {
    GoodGrant(k, workspace, route, app);
    var k1 := Grant(k, GOOD_NET, workspace, route, app).0;
    GoodPlacing(k1, workspace, route, app, IntervalName(q.interval), q.limit);
  }

  lemma GoodDisabling(ps: seq<Plugin>, k: Kong, workspace: string, route: string, app: string)
    requires Aged(k, workspace) && Named(ps, RATE_LIMITING) == QuotaPlugins(k, workspace)
    ensures Submit(k, GOOD_NET, workspace, DisableEdit(ps, route, app)).1
  {
    QuotasByName(ps, PluginsOf(k, workspace));
    GoodSubmit(k, workspace, DisableEdit(ps, route, app));
  }

  lemma RevokeAfterCommit(k: Kong, net: Net, workspace: string, route: string, app: string, e: Edit)
    requires Reads(k, net, workspace) && RevokeEdit(PluginsOf(k, workspace), route, app) == Some(e) && !e.Keep?
    requires Commit(Tick(k), net, workspace, e).1
    requires
      var f := DisableEdit(PluginsOf(k, workspace), route, app);
      Submit(Commit(Tick(k), net, workspace, e).0, net, workspace, f).1
    ensures Revoke(k, net, workspace, route, app).1 == Done
  {
  }

  lemma GoodRevoke(k: Kong, workspace: string, route: string, app: string)
    requires Aged(k, workspace) && Unique(k, workspace) && Listed(PluginsOf(k, workspace), route, app)
    ensures Revoke(k, GOOD_NET, workspace, route, app).1 == Done
  {
    var ps := PluginsOf(k, workspace);
    var e := RevokeEdit(ps, route, app).value;
    GoodSubmit(Tick(k), workspace, e);
    RemovalKeepsQuotas(Tick(k), GOOD_NET, workspace, route, app, e);
    GoodDisabling(ps, Commit(Tick(k), GOOD_NET, workspace, e).0, workspace, route, app);
    RevokeAfterCommit(k, GOOD_NET, workspace, route, app, e);
  }

  ghost predicate Good(k: Kong, workspace: string) {
    Aged(k, workspace) && InOrder(k, workspace)
  }

  lemma GoodAccessStays(k: Kong, workspace: string, route: string, app: string, q: QuotaRequest)
    requires Good(k, workspace) && route != ""
    ensures
      var (k', _, status) := GrantAccess(k, GOOD_NET, workspace, route, app, Some(q));
      && status == Success && Good(k', workspace)
      && app in AllowedOn(k', Target(workspace), Route(route))
  {
    GoodAccess(k, workspace, route, app, q);
    AccessKeepsOrder(k, GOOD_NET, workspace, route, app, q, route);
  }

  lemma GoodRemovalIsDone(k: Kong, workspace: string, route: string, app: string)
    requires Good(k, workspace) && route != "" && app in AllowedOn(k, Target(workspace), Route(route))
    ensures Revoke(k, GOOD_NET, workspace, route, app).1 == Done
  {
    ListedIffAllowed(PluginsOf(k, workspace), route, app);
    GoodRevoke(k, workspace, route, app);
  }

  /** From an empty workspace, with every call getting through, the steps of
      `RemovalEndsAnotherQuota` all end well, and so the limit is lifted. */
  lemma AnotherQuotaIsEnded(
      r1: string, r2: string, a: string, b: string, qa: QuotaRequest, qb: QuotaRequest, qc: QuotaRequest)
    requires r1 != "" && r2 != "" && a != "" && b != "" && r1 != r2 && a != b
    ensures
      var k := Kong(map[DEFAULT_WORKSPACE := EMPTY_STORE], 0);
      var (k1, _, s1) := GrantAccess(k, GOOD_NET, DEFAULT_WORKSPACE, r1, a, Some(qa));
      var (k2, _, s2) := GrantAccess(k1, GOOD_NET, DEFAULT_WORKSPACE, r2, b, Some(qb));
      var (k3, _, s3) := GrantAccess(k2, GOOD_NET, DEFAULT_WORKSPACE, r1, b, Some(qc));
      var (k4, o) := Revoke(k3, GOOD_NET, DEFAULT_WORKSPACE, r1, b);
      && s1 == Success && s2 == Success && s3 == Success && o == Done
      && QuotaInForce(PluginsOf(k3, DEFAULT_WORKSPACE), r2, b)
      && !QuotaInForce(PluginsOf(k4, DEFAULT_WORKSPACE), r2, b)
  {
    var k := Kong(map[DEFAULT_WORKSPACE := EMPTY_STORE], 0);
    GoodAccessStays(k, DEFAULT_WORKSPACE, r1, a, qa);
    var k1 := GrantAccess(k, GOOD_NET, DEFAULT_WORKSPACE, r1, a, Some(qa)).0;
    GoodAccessStays(k1, DEFAULT_WORKSPACE, r2, b, qb);
    var k2 := GrantAccess(k1, GOOD_NET, DEFAULT_WORKSPACE, r2, b, Some(qb)).0;
    GoodAccessStays(k2, DEFAULT_WORKSPACE, r1, b, qc);
    var k3 := GrantAccess(k2, GOOD_NET, DEFAULT_WORKSPACE, r1, b, Some(qc)).0;
    GoodRemovalIsDone(k3, DEFAULT_WORKSPACE, r1, b);
    RemovalEndsAnotherQuota(k, GOOD_NET, DEFAULT_WORKSPACE, r1, r2, a, b, qa, qb, qc);
  }
}
