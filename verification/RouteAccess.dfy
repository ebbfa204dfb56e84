/**
 What the client's operations on a route do to Kong, whatever calls fail: to the allow
 lists, to other plugins, and when an operation is repeated or undone.
 */
module RouteAccess {
  import opened KongStore
  import opened PluginSearch
  import opened RouteEdits
  import opened KongClients
  import opened AccessRequests

  ghost predicate Unique(k: Kong, workspace: string) {
    UniqueIds(PluginsOf(k, workspace))
  }

  ghost predicate InOrder(k: Kong, workspace: string) {
    RouteAclsOnly(PluginsOf(k, workspace))
  }

  ghost function AllowedOn(k: Kong, v: string, place: Place): set<string> {
    Allowed(StoreAt(k, v).plugins, place)
  }

  // ----- one write -----

  lemma CommitWrites(k: Kong, net: Net, workspace: string, e: Edit)
    requires Commit(k, net, workspace, e).1
    ensures Target(workspace) in k.stores
    ensures Edited(PluginsOf(k, workspace), e, net.ids(k.clock))
            == Some(PluginsOf(Commit(k, net, workspace, e).0, workspace))
  {
  }

  lemma AclCommit(k: Kong, net: Net, workspace: string, e: Edit)
    requires Unique(k, workspace)
    requires AclEdit(PluginsOf(k, workspace), e)
    ensures Unique(Submit(k, net, workspace, e).0, workspace)
    ensures FlagsOnly(PluginsOf(k, workspace), PluginsOf(Submit(k, net, workspace, e).0, workspace))
  {
    var (k', ok) := Submit(k, net, workspace, e);
    SameIsFlagsOnly(PluginsOf(k, workspace));
    if ok && !e.Keep? {
      CommitWrites(k, net, workspace, e);
      AclEditFlagsOnly(PluginsOf(k, workspace), e, net.ids(k.clock), PluginsOf(k', workspace));
    }
  }

  lemma FlagCommit(k: Kong, net: Net, workspace: string, e: Edit)
    requires Unique(k, workspace)
    requires FlagEdit(PluginsOf(k, workspace), e)
    ensures
      var k' := Submit(k, net, workspace, e).0;
      && Unique(k', workspace)
      && FlagsOnly(PluginsOf(k, workspace), PluginsOf(k', workspace))
      && Named(PluginsOf(k', workspace), ACL) == Named(PluginsOf(k, workspace), ACL)
  {
    var (k', ok) := Submit(k, net, workspace, e);
    SameIsFlagsOnly(PluginsOf(k, workspace));
    if ok && !e.Keep? {
      CommitWrites(k, net, workspace, e);
      FlagEditFlagsOnly(PluginsOf(k, workspace), e, net.ids(k.clock), PluginsOf(k', workspace));
    }
  }

  lemma SameIsFlagsOnly(ps: seq<Plugin>)
    requires UniqueIds(ps)
    ensures FlagsOnly(ps, ps)
  {
  }

  // ----- allow lists -----

  lemma GrantDone(k: Kong, net: Net, workspace: string, route: string, app: string)
    requires Grant(k, net, workspace, route, app).1 == Done
    ensures Target(workspace) in k.stores
    ensures Edited(PluginsOf(k, workspace), GrantEdit(PluginsOf(k, workspace), route, app), net.ids(k.clock + 1))
            == Some(PluginsOf(Grant(k, net, workspace, route, app).0, workspace))
  {
  }

  lemma QuotaDone(k: Kong, net: Net, workspace: string, route: string, app: string, interval: string, limit: int)
    requires PlaceQuota(k, net, workspace, route, app, interval, limit).1 == Done
    ensures
      var ps, config := PluginsOf(k, workspace), SetQuota(interval, limit);
      && Target(workspace) in k.stores
      && Edited(ps, QuotaEdit(ps, route, app, config), net.ids(k.clock + 1))
         == Some(PluginsOf(PlaceQuota(k, net, workspace, route, app, interval, limit).0, workspace))
  {
  }

  lemma RevokeCommits(k: Kong, net: Net, workspace: string, route: string, app: string, e: Edit)
    requires RevokeEdit(PluginsOf(k, workspace), route, app) == Some(e) && !e.Keep?
    requires Revoke(k, net, workspace, route, app).1 in {Done, DisableFailed}
    ensures Target(workspace) in k.stores && Commit(Tick(k), net, workspace, e).1
    ensures
      var f := DisableEdit(PluginsOf(k, workspace), route, app);
      var (k', ok) := Submit(Commit(Tick(k), net, workspace, e).0, net, workspace, f);
      Revoke(k, net, workspace, route, app) == (k', if ok then Done else DisableFailed)
  {
  }

  /** On any workspace with unique IDs: a grant that ends well adds the consumer to exactly the
      allow lists it hits - of routes, of services or of everything - and no other grant
      changes any. */
  lemma GrantReachesOn(k: Kong, net: Net, workspace: string, route: string, app: string, v: string, place: Place)
    requires Unique(k, workspace)
    ensures
      var (k', o) := Grant(k, net, workspace, route, app);
      AllowedOn(k', v, place)
      == AllowedOn(k, v, place)
         + if o == Done && v == Target(workspace) && GrantHits(PluginsOf(k, workspace), route, place) then {app} else {}
  {
    var (k', o) := Grant(k, net, workspace, route, app);
    if o == Done {
      GrantDone(k, net, workspace, route, app);
      GrantReaches(PluginsOf(k, workspace), route, app, net.ids(k.clock + 1), PluginsOf(k', workspace), place);
    }
  }

  lemma DisablingKeepsAcls(k: Kong, net: Net, workspace: string, route: string, app: string, e: Edit, place: Place)
    requires Unique(k, workspace)
    requires RevokeEdit(PluginsOf(k, workspace), route, app) == Some(e) && Commit(k, net, workspace, e).1
    ensures
      var k1 := Commit(k, net, workspace, e).0;
      var k2 := Submit(k1, net, workspace, DisableEdit(PluginsOf(k, workspace), route, app)).0;
      && Allowed(PluginsOf(k2, workspace), place) == Allowed(PluginsOf(k1, workspace), place)
      && (InOrder(k1, workspace) ==> InOrder(k2, workspace))
  {
    var ps, k1 := PluginsOf(k, workspace), Commit(k, net, workspace, e).0;
    var f := DisableEdit(ps, route, app);
    var (k2, ok) := Submit(k1, net, workspace, f);
    CommitWrites(k, net, workspace, e);
    EditKinds(ps, route, app, Other(""));
    AclEditFlagsOnly(ps, e, net.ids(k.clock), PluginsOf(k1, workspace));
    FlagEditSurvives(ps, e, net.ids(k.clock), PluginsOf(k1, workspace), f);
    if ok && !f.Keep? {
      CommitWrites(k1, net, workspace, f);
      FlagEditKeepsAllowed(PluginsOf(k1, workspace), f, net.ids(k1.clock), PluginsOf(k2, workspace));
    }
  }

  lemma RemovalReaches(k: Kong, net: Net, workspace: string, route: string, app: string, e: Edit, place: Place)
    requires Unique(k, workspace)
    requires RevokeEdit(PluginsOf(k, workspace), route, app) == Some(e) && Commit(k, net, workspace, e).1
    ensures
      var ps, k1 := PluginsOf(k, workspace), Commit(k, net, workspace, e).0;
      var k2 := Submit(k1, net, workspace, DisableEdit(ps, route, app)).0;
      Allowed(PluginsOf(k2, workspace), place)
      == Allowed(ps, place) - if RevokeHits(ps, route, app, place) then {app} else {}
  {
    CommitWrites(k, net, workspace, e);
    RevokeReaches(
      PluginsOf(k, workspace), route, app, net.ids(k.clock),
      PluginsOf(Commit(k, net, workspace, e).0, workspace), place);
    DisablingKeepsAcls(k, net, workspace, route, app, e, place);
  }

  /** On any workspace with unique IDs: a removal whose write got through takes the consumer
      off exactly the allow lists it hits, and no other removal changes any. */
  lemma RevokeReachesOn(k: Kong, net: Net, workspace: string, route: string, app: string, v: string, place: Place)
    requires Unique(k, workspace)
    ensures
      var (k', o) := Revoke(k, net, workspace, route, app);
      AllowedOn(k', v, place)
      == AllowedOn(k, v, place)
         - if o in {Done, DisableFailed} && v == Target(workspace)
              && RevokeHits(PluginsOf(k, workspace), route, app, place) then {app} else {}
  {
    var (k', o) := Revoke(k, net, workspace, route, app);
    if o in {Done, DisableFailed} && v == Target(workspace) {
      var e := RevokeEdit(PluginsOf(k, workspace), route, app).value;
      if e.Keep? {
        RevokeReaches(PluginsOf(k, workspace), route, app, "", PluginsOf(k, workspace), place);
      } else {
        RevokeCommits(k, net, workspace, route, app, e);
        RemovalReaches(Tick(k), net, workspace, route, app, e, place);
      }
    }
  }

  /** With the workspace's acl plugins in order, a grant inserts the consumer into its route's
      allow list if it ends well, changes no other list in any workspace, and keeps the order. */
  lemma GrantOnAllowed(k: Kong, net: Net, workspace: string, route: string, app: string, v: string, r: string)
    requires InOrder(k, workspace) && route != ""
    ensures
      var (k', o) := Grant(k, net, workspace, route, app);
      && InOrder(k', workspace)
      && AllowedOn(k', v, Route(r))
         == AllowedOn(k, v, Route(r)) + if o == Done && v == Target(workspace) && r == route then {app} else {}
  {
    var (k', o) := Grant(k, net, workspace, route, app);
    HitsInOrder(PluginsOf(k, workspace), route, app, r);
    GrantReachesOn(k, net, workspace, route, app, v, Route(r));
    if o == Done {
      GrantDone(k, net, workspace, route, app);
      GrantInserts(PluginsOf(k, workspace), route, app, net.ids(k.clock + 1), PluginsOf(k', workspace));
    }
  }

  lemma RemovalKeepsOrder(k: Kong, net: Net, workspace: string, route: string, app: string, e: Edit)
    requires InOrder(k, workspace) && route != ""
    requires RevokeEdit(PluginsOf(k, workspace), route, app) == Some(e) && Commit(k, net, workspace, e).1
    ensures
      var k1 := Commit(k, net, workspace, e).0;
      InOrder(Submit(k1, net, workspace, DisableEdit(PluginsOf(k, workspace), route, app)).0, workspace)
  {
    CommitWrites(k, net, workspace, e);
    RevokeDeletes(
      PluginsOf(k, workspace), route, app, net.ids(k.clock), PluginsOf(Commit(k, net, workspace, e).0, workspace));
    DisablingKeepsAcls(k, net, workspace, route, app, e, Route(route));
  }

  lemma RevokeKeepsOrder(k: Kong, net: Net, workspace: string, route: string, app: string)
    requires InOrder(k, workspace) && route != ""
    ensures InOrder(Revoke(k, net, workspace, route, app).0, workspace)
  {
    var ps, o := PluginsOf(k, workspace), Revoke(k, net, workspace, route, app).1;
    if o in {Done, DisableFailed} && !RevokeEdit(ps, route, app).value.Keep? {
      var e := RevokeEdit(ps, route, app).value;
      RevokeCommits(k, net, workspace, route, app, e);
      RemovalKeepsOrder(Tick(k), net, workspace, route, app, e);
    }
  }

  /** With the workspace's acl plugins in order, a removal deletes the consumer from its
      route's allow list if that write got through, whether or not the quota could be disabled
      afterwards, changes no other list in any workspace, and keeps the order. */
  lemma RevokeOnAllowed(k: Kong, net: Net, workspace: string, route: string, app: string, v: string, r: string)
    requires InOrder(k, workspace) && route != ""
    ensures
      var (k', o) := Revoke(k, net, workspace, route, app);
      && InOrder(k', workspace)
      && AllowedOn(k', v, Route(r))
         == AllowedOn(k, v, Route(r))
            - if o in {Done, DisableFailed} && v == Target(workspace) && r == route then {app} else {}
  {
    HitsInOrder(PluginsOf(k, workspace), route, app, r);
    RevokeReachesOn(k, net, workspace, route, app, v, Route(r));
    RevokeKeepsOrder(k, net, workspace, route, app);
  }

  lemma QuotaOnAllowed(
      k: Kong, net: Net, workspace: string, route: string, app: string, interval: string, limit: int,
      v: string, place: Place)
    requires Unique(k, workspace)
    ensures
      var k' := PlaceQuota(k, net, workspace, route, app, interval, limit).0;
      && (InOrder(k, workspace) ==> InOrder(k', workspace))
      && AllowedOn(k', v, place) == AllowedOn(k, v, place)
  {
    var (k', o) := PlaceQuota(k, net, workspace, route, app, interval, limit);
    if o == Done {
      QuotaDone(k, net, workspace, route, app, interval, limit);
      QuotaKeepsAcls(
        PluginsOf(k, workspace), route, app, SetQuota(interval, limit), net.ids(k.clock + 1), PluginsOf(k', workspace));
    }
  }

  // ----- quotas are written once -----

  /** A grant leaves every plugin of another name than acl as it is. */
  lemma GrantFlagsOnly(k: Kong, net: Net, workspace: string, route: string, app: string)
    requires Unique(k, workspace)
    ensures Unique(Grant(k, net, workspace, route, app).0, workspace)
    ensures FlagsOnly(PluginsOf(k, workspace), PluginsOf(Grant(k, net, workspace, route, app).0, workspace))
  {
    SameIsFlagsOnly(PluginsOf(k, workspace));
    if Reads(k, net, workspace) {
      EditKinds(PluginsOf(k, workspace), route, app, Other(""));
      AclCommit(Tick(k), net, workspace, GrantEdit(PluginsOf(k, workspace), route, app));
    }
  }

  lemma FlagsOnlyChain(a: seq<Plugin>, b: seq<Plugin>, c: seq<Plugin>)
    requires FlagsOnly(a, b) && FlagsOnly(b, c)
    ensures FlagsOnly(a, c)
  {
  }

  lemma RemovalFlagsOnly(k: Kong, net: Net, workspace: string, route: string, app: string, e: Edit)
    requires Unique(k, workspace)
    requires RevokeEdit(PluginsOf(k, workspace), route, app) == Some(e) && Commit(k, net, workspace, e).1 && !e.Keep?
    ensures
      var k1 := Commit(k, net, workspace, e).0;
      var k2 := Submit(k1, net, workspace, DisableEdit(PluginsOf(k, workspace), route, app)).0;
      && Unique(k2, workspace) && FlagsOnly(PluginsOf(k, workspace), PluginsOf(k2, workspace))
      && Named(PluginsOf(k2, workspace), ACL) == Named(PluginsOf(k1, workspace), ACL)
  {
    var ps, k1 := PluginsOf(k, workspace), Commit(k, net, workspace, e).0;
    var f := DisableEdit(ps, route, app);
    EditKinds(ps, route, app, Other(""));
    AclCommit(k, net, workspace, e);
    CommitWrites(k, net, workspace, e);
    FlagEditSurvives(ps, e, net.ids(k.clock), PluginsOf(k1, workspace), f);
    FlagCommit(k1, net, workspace, f);
    FlagsOnlyChain(ps, PluginsOf(k1, workspace), PluginsOf(Submit(k1, net, workspace, f).0, workspace));
  }

  /** A removal leaves every plugin of another name than acl as it is, but for the enabled
      flag of a rate-limiting plugin. */
  lemma RevokeFlagsOnly(k: Kong, net: Net, workspace: string, route: string, app: string)
    requires Unique(k, workspace)
    ensures Unique(Revoke(k, net, workspace, route, app).0, workspace)
    ensures FlagsOnly(PluginsOf(k, workspace), PluginsOf(Revoke(k, net, workspace, route, app).0, workspace))
  {
    var ps := PluginsOf(k, workspace);
    SameIsFlagsOnly(ps);
    if Reads(k, net, workspace) && RevokeEdit(ps, route, app).Some? {
      var e := RevokeEdit(ps, route, app).value;
      if !e.Keep? && Commit(Tick(k), net, workspace, e).1 {
        RemovalFlagsOnly(Tick(k), net, workspace, route, app, e);
      }
    }
  }

  /** A plugin that a quota request would create. */
  ghost predicate NewQuota(x: Plugin, route: string, app: string, interval: string, limit: int) {
    && x.name == RATE_LIMITING && x.route == To(route) && x.service.Unset? && x.consumer == To(app)
    && x.config == SetQuota(interval, limit)
  }

  /** Existing plugins have kept all but the flag; any other plugin is new and as asked. */
  ghost predicate QuotaAdded(
      before: seq<Plugin>, after: seq<Plugin>, route: string, app: string, interval: string, limit: int) {
    && (forall x :: x in before && x.name != ACL ==> Persists(x, after))
    && (forall x :: x in after && x.name != ACL ==> Persists(x, before) || NewQuota(x, route, app, interval, limit))
  }

  lemma QuotaCreated(
      ps: seq<Plugin>, route: string, app: string, interval: string, limit: int, newId: string, ps': seq<Plugin>)
    requires UniqueIds(ps)
    requires Edited(ps, Create(route, NewPlugin(RATE_LIMITING, To(app), SetQuota(interval, limit))), newId) == Some(ps')
    ensures UniqueIds(ps') && QuotaAdded(ps, ps', route, app, interval, limit)
  {
  }

  /** A quota request changes at most the enabled flag of a plugin that exists, whichever
      one the search picks; any other plugin it leaves is new and as requested. */
  lemma QuotaWritesOnce(k: Kong, net: Net, workspace: string, route: string, app: string, interval: string, limit: int)
    requires Unique(k, workspace)
    ensures
      var k' := PlaceQuota(k, net, workspace, route, app, interval, limit).0;
      && Unique(k', workspace)
      && QuotaAdded(PluginsOf(k, workspace), PluginsOf(k', workspace), route, app, interval, limit)
  {
    var (k', o) := PlaceQuota(k, net, workspace, route, app, interval, limit);
    var ps, config := PluginsOf(k, workspace), SetQuota(interval, limit);
    SameIsFlagsOnly(ps);
    if o == Done {
      var e := QuotaEdit(ps, route, app, config);
      QuotaDone(k, net, workspace, route, app, interval, limit);
      EditKinds(ps, route, app, config);
      if FlagEdit(ps, e) {
        FlagEditFlagsOnly(ps, e, net.ids(k.clock + 1), PluginsOf(k', workspace));
      } else {
        QuotaCreated(ps, route, app, interval, limit, net.ids(k.clock + 1), PluginsOf(k', workspace));
      }
    }
  }

  // ----- repeating and retrying -----

  /** After access has been granted in full, asking again writes nothing, whatever calls
      fail this time. */
  lemma GrantingTwiceChangesNothing(
      k: Kong, first: Net, again: Net, workspace: string, route: string, app: string, quota: Option<QuotaRequest>)
    requires Unique(k, workspace) && route != "" && app != ""
    requires GrantAccess(k, first, workspace, route, app, quota).2 == Success
    ensures
      var k' := GrantAccess(k, first, workspace, route, app, quota).0;
      GrantAccess(k', again, workspace, route, app, quota).0.stores == k'.stores
  {
    GrantedThenKeeps(k, first, workspace, route, app);
    if quota.Some? {
      QuotaThenKeeps(Grant(k, first, workspace, route, app).0, first, workspace, route, app, quota.value);
    }
    NothingToDo(GrantAccess(k, first, workspace, route, app, quota).0, again, workspace, route, app, quota);
  }

  lemma NothingToDo(k: Kong, net: Net, workspace: string, route: string, app: string, quota: Option<QuotaRequest>)
    requires GrantEdit(PluginsOf(k, workspace), route, app) == Keep
    requires quota.Some? ==>
               var config := SetQuota(IntervalName(quota.value.interval), quota.value.limit);
               QuotaEdit(PluginsOf(k, workspace), route, app, config) == Keep
    ensures GrantAccess(k, net, workspace, route, app, quota).0.stores == k.stores
  {
  }

  lemma QuotaThenKeeps(k: Kong, net: Net, workspace: string, route: string, app: string, q: QuotaRequest)
    requires Unique(k, workspace) && route != "" && app != ""
    requires PlaceQuota(k, net, workspace, route, app, IntervalName(q.interval), q.limit).1 == Done
    ensures
      var ps := PluginsOf(PlaceQuota(k, net, workspace, route, app, IntervalName(q.interval), q.limit).0, workspace);
      && QuotaEdit(ps, route, app, SetQuota(IntervalName(q.interval), q.limit)) == Keep
      && GrantEdit(ps, route, app) == GrantEdit(PluginsOf(k, workspace), route, app)
  {
    QuotaDone(k, net, workspace, route, app, IntervalName(q.interval), q.limit);
    QuotaTwiceKeeps(
      PluginsOf(k, workspace), route, app, SetQuota(IntervalName(q.interval), q.limit), net.ids(k.clock + 1),
      PluginsOf(PlaceQuota(k, net, workspace, route, app, IntervalName(q.interval), q.limit).0, workspace));
  }

  lemma GrantedThenKeeps(k: Kong, net: Net, workspace: string, route: string, app: string)
    requires Unique(k, workspace) && route != "" && Grant(k, net, workspace, route, app).1 == Done
    ensures Unique(Grant(k, net, workspace, route, app).0, workspace)
    ensures GrantEdit(PluginsOf(Grant(k, net, workspace, route, app).0, workspace), route, app) == Keep
  {
    GrantDone(k, net, workspace, route, app);
    GrantTwiceKeeps(
      PluginsOf(k, workspace), route, app, net.ids(k.clock + 1),
      PluginsOf(Grant(k, net, workspace, route, app).0, workspace));
  }

  /** Two listings grown from `base` that differ only in the IDs of plugins not in it. */
  ghost predicate SameUpToFresh(base: seq<Plugin>, a: seq<Plugin>, b: seq<Plugin>) {
    && |a| == |b|
    && forall i :: 0 <= i < |a| ==>
         && a[i].(id := b[i].id) == b[i]
         && (a[i].id == b[i].id || (forall p :: p in base ==> p.id != a[i].id && p.id != b[i].id))
  }

  ghost predicate HasIdsOf(base: seq<Plugin>, a: seq<Plugin>) {
    forall p :: p in base ==> exists i :: 0 <= i < |a| && a[i].id == p.id
  }

  lemma SameUpToFreshGrant(
      base: seq<Plugin>, route: string, app: string, id1: string, a: seq<Plugin>, id2: string, b: seq<Plugin>)
    requires UniqueIds(base)
    requires Edited(base, GrantEdit(base, route, app), id1) == Some(a)
    requires Edited(base, GrantEdit(base, route, app), id2) == Some(b)
    ensures SameUpToFresh(base, a, b)
  {
  }

  lemma SameUpToFreshQuota(
      base: seq<Plugin>, a: seq<Plugin>, b: seq<Plugin>, route: string, app: string, config: Config,
      id1: string, a': seq<Plugin>, id2: string, b': seq<Plugin>)
    requires UniqueIds(a) && UniqueIds(b) && SameUpToFresh(base, a, b)
    requires HasIdsOf(base, a) && HasIdsOf(base, b)
    requires Edited(a, QuotaEdit(a, route, app, config), id1) == Some(a')
    requires Edited(b, QuotaEdit(b, route, app, config), id2) == Some(b')
    ensures SameUpToFresh(base, a', b')
  {
    SelectReadsScopesOnly(a, b, QuotaQuery(route, app));
    match Select(a, QuotaQuery(route, app))
    case None =>
      SameUpToFreshAppend(base, a, b, route, NewPlugin(RATE_LIMITING, To(app), config), id1, id2);
    case Some(i) =>
      if !a[i].enabled {
        PatchReachesOwn(a, i, a[i].(enabled := true), id1);
        PatchReachesOwn(b, i, b[i].(enabled := true), id2);
      }
  }

  lemma SameUpToFreshAppend(
      base: seq<Plugin>, a: seq<Plugin>, b: seq<Plugin>, route: string, n: NewPlugin, id1: string, id2: string)
    requires SameUpToFresh(base, a, b) && IsFresh(a, id1) && IsFresh(b, id2)
    requires HasIdsOf(base, a) && HasIdsOf(base, b)
    ensures SameUpToFresh(base, a + [Created(route, n, id1)], b + [Created(route, n, id2)])
  {
  }

  lemma GrantKeepsIds(ps: seq<Plugin>, route: string, app: string, newId: string, ps': seq<Plugin>, p: Plugin)
    requires Edited(ps, GrantEdit(ps, route, app), newId) == Some(ps') && p in ps
    ensures exists i :: 0 <= i < |ps'| && ps'[i].id == p.id
  {
    var j :| 0 <= j < |ps| && ps[j] == p;
    assert ps'[j].id == p.id;
  }

  /** A request that was cut short between the grant and the quota, and then retried with
      success, reaches the plugins that one successful request reaches from a state with the
      same plugins, up to the IDs of new ones. */
  lemma RetryConverges(
      k: Kong, cut: Net, retry: Net, kc: Kong, clean: Net,
      workspace: string, route: string, app: string, quota: Option<QuotaRequest>)
    requires Unique(k, workspace) && PluginsOf(kc, workspace) == PluginsOf(k, workspace) && route != "" && app != ""
    requires GrantAccess(k, cut, workspace, route, app, quota).2 == LimitsFailed
    requires
      var k1 := GrantAccess(k, cut, workspace, route, app, quota).0;
      GrantAccess(k1, retry, workspace, route, app, quota).2 == Success
    requires GrantAccess(kc, clean, workspace, route, app, quota).2 == Success
    ensures
      var k1 := GrantAccess(k, cut, workspace, route, app, quota).0;
      var k2 := GrantAccess(k1, retry, workspace, route, app, quota).0;
      var c := GrantAccess(kc, clean, workspace, route, app, quota).0;
      SameUpToFresh(PluginsOf(k, workspace), PluginsOf(k2, workspace), PluginsOf(c, workspace))
  {
    var q := quota.value;
    var k1 := GrantAccess(k, cut, workspace, route, app, quota).0;
    GrantedThenKeeps(k, cut, workspace, route, app);
    var r1, c1 := Grant(k1, retry, workspace, route, app).0, Grant(kc, clean, workspace, route, app).0;
    assert r1.stores == Grant(k, cut, workspace, route, app).0.stores;
    GrantedAlike(k, cut, kc, clean, workspace, route, app);
    QuotaPlacedAlike(
      PluginsOf(k, workspace), r1, retry, c1, clean, workspace, route, app, IntervalName(q.interval), q.limit);
  }

  lemma GrantedAlike(k: Kong, net1: Net, kc: Kong, net2: Net, workspace: string, route: string, app: string)
    requires Unique(k, workspace) && PluginsOf(kc, workspace) == PluginsOf(k, workspace) && route != ""
    requires Grant(k, net1, workspace, route, app).1 == Done && Grant(kc, net2, workspace, route, app).1 == Done
    ensures
      var ps := PluginsOf(k, workspace);
      var a := PluginsOf(Grant(k, net1, workspace, route, app).0, workspace);
      var b := PluginsOf(Grant(kc, net2, workspace, route, app).0, workspace);
      && SameUpToFresh(ps, a, b) && UniqueIds(a) && UniqueIds(b) && HasIdsOf(ps, a) && HasIdsOf(ps, b)
  {
    var ps := PluginsOf(k, workspace);
    var a := PluginsOf(Grant(k, net1, workspace, route, app).0, workspace);
    var b := PluginsOf(Grant(kc, net2, workspace, route, app).0, workspace);
    GrantDone(k, net1, workspace, route, app);
    GrantDone(kc, net2, workspace, route, app);
    GrantTwiceKeeps(ps, route, app, net1.ids(k.clock + 1), a);
    GrantTwiceKeeps(ps, route, app, net2.ids(kc.clock + 1), b);
    SameUpToFreshGrant(ps, route, app, net1.ids(k.clock + 1), a, net2.ids(kc.clock + 1), b);
    forall p | p in ps
      ensures exists i :: 0 <= i < |a| && a[i].id == p.id
      ensures exists i :: 0 <= i < |b| && b[i].id == p.id
    {
      GrantKeepsIds(ps, route, app, net1.ids(k.clock + 1), a, p);
      GrantKeepsIds(ps, route, app, net2.ids(kc.clock + 1), b, p);
    }
  }

  lemma QuotaPlacedAlike(
      base: seq<Plugin>, k1: Kong, net1: Net, k2: Kong, net2: Net,
      workspace: string, route: string, app: string, interval: string, limit: int)
    requires UniqueIds(PluginsOf(k1, workspace)) && UniqueIds(PluginsOf(k2, workspace))
    requires SameUpToFresh(base, PluginsOf(k1, workspace), PluginsOf(k2, workspace))
    requires HasIdsOf(base, PluginsOf(k1, workspace)) && HasIdsOf(base, PluginsOf(k2, workspace))
    requires PlaceQuota(k1, net1, workspace, route, app, interval, limit).1 == Done
    requires PlaceQuota(k2, net2, workspace, route, app, interval, limit).1 == Done
    ensures SameUpToFresh(
              base,
              PluginsOf(PlaceQuota(k1, net1, workspace, route, app, interval, limit).0, workspace),
              PluginsOf(PlaceQuota(k2, net2, workspace, route, app, interval, limit).0, workspace))
  {
    QuotaDone(k1, net1, workspace, route, app, interval, limit);
    QuotaDone(k2, net2, workspace, route, app, interval, limit);
    SameUpToFreshQuota(
      base, PluginsOf(k1, workspace), PluginsOf(k2, workspace), route, app, SetQuota(interval, limit),
      net1.ids(k1.clock + 1), PluginsOf(PlaceQuota(k1, net1, workspace, route, app, interval, limit).0, workspace),
      net2.ids(k2.clock + 1), PluginsOf(PlaceQuota(k2, net2, workspace, route, app, interval, limit).0, workspace));
  }

  // ----- what success delivers -----

  /** Granting access with success leaves the consumer on the route's allow list, and the
      quota, if one was asked for, limited - provided that the workspace's acl plugins are in
      order and the search for the quota's plugin is decided by the route or the consumer. The
      limit is the one asked for if and only if it was in force before, or the consumer had
      none on the route, or a plugin of just that limit. */
  lemma GrantAccessDelivers(
      k: Kong, net: Net, workspace: string, route: string, app: string, quota: Option<QuotaRequest>, c: Criterion)
    requires InOrder(k, workspace) && route != "" && app != "" && c != ByService
    requires Decides(PluginsOf(k, workspace), QuotaQuery(route, app), c)
    requires GrantAccess(k, net, workspace, route, app, quota).2 == Success
    ensures
      var k' := GrantAccess(k, net, workspace, route, app, quota).0;
      && app in AllowedOn(k', Target(workspace), Route(route))
      && (quota.Some? ==>
            var asked := Limit(QuotaKey(route, app), ConfigOf(quota.value));
            var found := Found(PluginsOf(k, workspace), QuotaQuery(route, app));
            && QuotaInForce(PluginsOf(k', workspace), route, app)
            && (InForce(PluginsOf(k', workspace), asked) <==>
                InForce(PluginsOf(k, workspace), asked) || (found.Some? ==> found.value.config == asked.config)))
  {
    GrantOnAllowed(k, net, workspace, route, app, Target(workspace), route);
    if quota.Some? {
      var k1 := Grant(k, net, workspace, route, app).0;
      GrantDone(k, net, workspace, route, app);
      EditKinds(PluginsOf(k, workspace), route, app, Other(""));
      AclEditKeepsNamed(
        PluginsOf(k, workspace), GrantEdit(PluginsOf(k, workspace), route, app), net.ids(k.clock + 1),
        PluginsOf(k1, workspace), RATE_LIMITING);
      QuotaOnAllowed(
        k1, net, workspace, route, app, IntervalName(quota.value.interval), quota.value.limit,
        Target(workspace), Route(route));
      PlacingDelivers(PluginsOf(k, workspace), k1, net, workspace, route, app, quota.value, c);
    }
  }

  /** The quota call, on a state with the rate-limiting plugins as an earlier listing has them. */
  lemma PlacingDelivers(
      ps: seq<Plugin>, k: Kong, net: Net, workspace: string, route: string, app: string, q: QuotaRequest, c: Criterion)
    requires Unique(k, workspace) && Named(ps, RATE_LIMITING) == Named(PluginsOf(k, workspace), RATE_LIMITING)
    requires Decides(ps, QuotaQuery(route, app), c) && c != ByService && route != "" && app != ""
    requires PlaceQuota(k, net, workspace, route, app, IntervalName(q.interval), q.limit).1 == Done
    ensures
      var k' := PlaceQuota(k, net, workspace, route, app, IntervalName(q.interval), q.limit).0;
      var asked := Limit(QuotaKey(route, app), ConfigOf(q));
      var found := Found(ps, QuotaQuery(route, app));
      && QuotaInForce(PluginsOf(k', workspace), route, app)
      && (InForce(PluginsOf(k', workspace), asked) <==>
          InForce(ps, asked) || (found.Some? ==> found.value.config == asked.config))
  {
    var now := PluginsOf(k, workspace);
    var after := PluginsOf(PlaceQuota(k, net, workspace, route, app, IntervalName(q.interval), q.limit).0, workspace);
    QuotaDone(k, net, workspace, route, app, IntervalName(q.interval), q.limit);
    QuotasByName(ps, now);
    FoundByName(ps, QuotaQuery(route, app));
    FoundByName(now, QuotaQuery(route, app));
    DecidedFindsItsOwn(ps, route, app);
    QuotaInForceIff(now, route, app, ConfigOf(q), net.ids(k.clock + 1), after);
    PlacingReaches(
      now, route, app, ConfigOf(q), net.ids(k.clock + 1), after, Limit(QuotaKey(route, app), ConfigOf(q)));
  }

  // ----- undoing -----

  /** Grant, then revoke: the acl plugins of the workspace are as before if and only if the
      route had none that the search finds, or an enabled one whose non-empty allow list
      did not name the consumer. */
  lemma GrantThenRevokeRestoresIff(k: Kong, first: Net, second: Net, workspace: string, route: string, app: string)
    requires Unique(k, workspace) && route != ""
    requires Grant(k, first, workspace, route, app).1 == Done
    requires Revoke(Grant(k, first, workspace, route, app).0, second, workspace, route, app).1 in {Done, DisableFailed}
    ensures
      var k' := Revoke(Grant(k, first, workspace, route, app).0, second, workspace, route, app).0;
      var ps, was := PluginsOf(k, workspace), Select(PluginsOf(k, workspace), AclQuery(route));
      Named(PluginsOf(k', workspace), ACL) == Named(ps, ACL) <==>
      was.None? || (ps[was.value].enabled && AllowList(ps[was.value]) != [] && app !in AllowList(ps[was.value]))
  {
    var ps, k1 := PluginsOf(k, workspace), Grant(k, first, workspace, route, app).0;
    GrantDone(k, first, workspace, route, app);
    GrantedThenKeeps(k, first, workspace, route, app);
    GrantIsEffectiveIff(ps, route, app, first.ids(k.clock + 1), PluginsOf(k1, workspace));
    var e := RevokeEdit(PluginsOf(k1, workspace), route, app).value;
    var k2 := RevokeWrites(k1, second, workspace, route, app, e);
    GrantThenRevokeIff(
      ps, route, app, first.ids(k.clock + 1), PluginsOf(k1, workspace),
      second.ids(k1.clock + 1), PluginsOf(k2, workspace));
  }

  /** What a removal does after its edit touches no acl plugin. */
  lemma RevokeWrites(k: Kong, net: Net, workspace: string, route: string, app: string, e: Edit) returns (k2: Kong)
    requires Unique(k, workspace)
    requires RevokeEdit(PluginsOf(k, workspace), route, app) == Some(e) && !e.Keep?
    requires Revoke(k, net, workspace, route, app).1 in {Done, DisableFailed}
    ensures Edited(PluginsOf(k, workspace), e, net.ids(k.clock + 1)) == Some(PluginsOf(k2, workspace))
    ensures Named(PluginsOf(Revoke(k, net, workspace, route, app).0, workspace), ACL)
            == Named(PluginsOf(k2, workspace), ACL)
  {
    var k1 := Tick(k);
    assert PluginsOf(k1, workspace) == PluginsOf(k, workspace) && Unique(k1, workspace);
    RevokeCommits(k, net, workspace, route, app, e);
    RemovalFlagsOnly(k1, net, workspace, route, app, e);
    CommitWrites(k1, net, workspace, e);
    return Commit(k1, net, workspace, e).0;
  }
}
