/**
 How the client's operations end: which errors a grant, a removal, a quota request and the
 calls on consumers report, each exactly when, in terms of the plugins and consumers that
 Kong holds and of the calls that fail.
 */
module RouteOutcomes {
  import opened KongStore
  import opened PluginSearch
  import opened RouteEdits
  import opened KongClients
  import opened RouteAccess
  import opened Sequences

  // ----- what a search needs to find anything -----

  /** Among the plugins of a name some have no service, some are for the route and some for
      the consumer; an empty ID stands for none. They may be different plugins. */
  ghost predicate Covered(ps: seq<Plugin>, name: string, route: string, app: string) {
    && (exists p :: p in ps && p.name == name && p.service == Unset)
    && (exists p :: p in ps && p.name == name && p.route == if route == "" then Unset else To(route))
    && (exists p :: p in ps && p.name == name && p.consumer == if app == "" then Unset else To(app))
  }

  lemma FoundIffCovered(ps: seq<Plugin>, name: string, route: string, app: string)
    ensures Select(ps, Query(name, "", route, app)).Some? <==> Covered(ps, name, route, app)
  {
    var q := Query(name, "", route, app);
    FitIsScoped(ps, q, ByService);
    FitIsScoped(ps, q, ByRoute);
    FitIsScoped(ps, q, ByConsumer);
  }

  function ScopeFor(p: Plugin, c: Criterion): Scope {
    match c
    case ByService => p.service
    case ByRoute => p.route
    case ByConsumer => p.consumer
  }

  function IdFor(q: Query, c: Criterion): string {
    match c
    case ByService => q.service
    case ByRoute => q.route
    case ByConsumer => q.consumer
  }

  lemma FitIsScoped(ps: seq<Plugin>, q: Query, c: Criterion)
    ensures FirstFit(ps, q, c).Some? <==>
            exists p :: p in ps && p.name == q.name
                        && ScopeFor(p, c) == if IdFor(q, c) == "" then Unset else To(IdFor(q, c))
  {
  }

  /** The plugin that is found lists the consumer. */
  ghost predicate FoundLists(ps: seq<Plugin>, route: string, app: string) {
    var found := Found(ps, AclQuery(route));
    found.Some? && app in AllowList(found.value)
  }

  /** With the acl plugins in order both can be told from the route's own plugin. */
  lemma FoundInOrder(ps: seq<Plugin>, route: string, app: string)
    requires RouteAclsOnly(ps) && route != ""
    ensures Covered(ps, ACL, route, "") <==> exists p :: p in ps && OnRoute(p, route)
    ensures FoundLists(ps, route, app) <==> app in Allowed(ps, Route(route))
  {
    AclSearchIsExact(ps, route);
    FoundIffCovered(ps, ACL, route, "");
    if Found(ps, AclQuery(route)).Some? {
      var i := Select(ps, AclQuery(route)).value;
      AllowedSplits(ps, i, Route(route));
      AllowedOnce(ps, i, route);
    }
  }

  // ----- writes -----

  lemma PatchGetsThrough(k: Kong, net: Net, workspace: string, p: Plugin)
    requires Target(workspace) in k.stores && IndexOfId(PluginsOf(k, workspace), p.id).Some?
    ensures Commit(k, net, workspace, Patch(p)).1 <==> !net.writeFails(k.clock)
    ensures Commit(k, net, workspace, Drop(p.id)).1 <==> !net.writeFails(k.clock)
  {
  }

  lemma CreateGetsThrough(k: Kong, net: Net, workspace: string, route: string, n: NewPlugin)
    requires Target(workspace) in k.stores
    ensures Commit(k, net, workspace, Create(route, n)).1 <==>
            !net.writeFails(k.clock) && IsFresh(PluginsOf(k, workspace), net.ids(k.clock))
  {
  }

  lemma ListedHasIndex(ps: seq<Plugin>, p: Plugin)
    requires p in ps
    ensures IndexOfId(ps, p.id).Some?
  {
  }

  // ----- granting and limiting -----

  /** A grant succeeds if and only if the listing is answered and the plugin found lists the
      consumer already, or the write gets through - which for a new plugin needs an unused ID. */
  lemma GrantSucceedsIff(k: Kong, net: Net, workspace: string, route: string, app: string)
    ensures
      var ps, o := PluginsOf(k, workspace), Grant(k, net, workspace, route, app).1;
      && (o == ListFailed <==> !Reads(k, net, workspace))
      && (o == Done <==>
            && Reads(k, net, workspace)
            && (FoundLists(ps, route, app)
                || (!net.writeFails(k.clock + 1)
                    && (Covered(ps, ACL, route, "") || IsFresh(ps, net.ids(k.clock + 1))))))
      && o in {Done, ListFailed, WriteFailed}
  {
    var ps := PluginsOf(k, workspace);
    FoundIffCovered(ps, ACL, route, "");
    if Reads(k, net, workspace) {
      match Select(ps, AclQuery(route))
      case None =>
        CreateGetsThrough(Tick(k), net, workspace, route, NewPlugin(ACL, Unset, Acl([app], [], false)));
      case Some(i) =>
        var p := WithAllow(ps[i], AllowList(ps[i]) + [app]);
        ListedHasIndex(ps, ps[i]);
        PatchGetsThrough(Tick(k), net, workspace, p);
    }
  }

  /** A quota request succeeds if and only if the listing is answered and the plugin found is
      enabled already, or the write gets through. */
  lemma QuotaSucceedsIff(
      k: Kong, net: Net, workspace: string, route: string, app: string, interval: string, limit: int)
    ensures
      var ps, o := PluginsOf(k, workspace), PlaceQuota(k, net, workspace, route, app, interval, limit).1;
      var found := Found(ps, QuotaQuery(route, app));
      && (o == ListFailed <==> !Reads(k, net, workspace))
      && (o == Done <==>
            && Reads(k, net, workspace)
            && ((found.Some? && found.value.enabled)
                || (!net.writeFails(k.clock + 1)
                    && (Covered(ps, RATE_LIMITING, route, app) || IsFresh(ps, net.ids(k.clock + 1))))))
      && o in {Done, ListFailed, WriteFailed}
  {
    var ps := PluginsOf(k, workspace);
    FoundIffCovered(ps, RATE_LIMITING, route, app);
    if Reads(k, net, workspace) {
      match Select(ps, QuotaQuery(route, app))
      case None =>
        CreateGetsThrough(
          Tick(k), net, workspace, route, NewPlugin(RATE_LIMITING, To(app), SetQuota(interval, limit)));
      case Some(i) =>
        ListedHasIndex(ps, ps[i]);
        PatchGetsThrough(Tick(k), net, workspace, ps[i].(enabled := true));
    }
  }

  // ----- removing -----

  lemma RemovalGetsThrough(k: Kong, net: Net, workspace: string, p: Plugin, app: string)
    requires Target(workspace) in k.stores && IndexOfId(PluginsOf(k, workspace), p.id).Some?
    ensures Commit(k, net, workspace, RevokeFrom(p, app)).1 <==> !net.writeFails(k.clock)
    ensures Commit(k, net, workspace, RevokeFrom(p, app)).0.clock == k.clock + 1
  {
    PatchGetsThrough(k, net, workspace, WithAllow(p, Without(AllowList(p), app)));
  }

  /** Once the access is gone, disabling fails if and only if a plugin was found and the call
      fails. */
  lemma DisablingGetsThrough(k: Kong, net: Net, workspace: string, route: string, app: string, e: Edit)
    requires Unique(k, workspace) && AclEdit(PluginsOf(k, workspace), e) && Commit(k, net, workspace, e).1
    ensures
      var k1 := Commit(k, net, workspace, e).0;
      Submit(k1, net, workspace, DisableEdit(PluginsOf(k, workspace), route, app)).1 <==>
      !(Covered(PluginsOf(k, workspace), RATE_LIMITING, route, app) && net.writeFails(k1.clock))
  {
    var ps, k1 := PluginsOf(k, workspace), Commit(k, net, workspace, e).0;
    FoundIffCovered(ps, RATE_LIMITING, route, app);
    CommitWrites(k, net, workspace, e);
    if Select(ps, QuotaQuery(route, app)).Some? {
      var p := ps[Select(ps, QuotaQuery(route, app)).value];
      AclEditKeepsOthers(ps, e, net.ids(k.clock), PluginsOf(k1, workspace), p);
      ListedHasIndex(PluginsOf(k1, workspace), p);
      PatchGetsThrough(k1, net, workspace, p.(enabled := false));
    }
  }

  lemma RemovalUnfolds(k: Kong, net: Net, workspace: string, route: string, app: string, e: Edit)
    requires Reads(k, net, workspace) && RevokeEdit(PluginsOf(k, workspace), route, app) == Some(e) && !e.Keep?
    ensures
      var (k1, ok) := Commit(Tick(k), net, workspace, e);
      Revoke(k, net, workspace, route, app).1
      == if !ok then WriteFailed
         else if Submit(k1, net, workspace, DisableEdit(PluginsOf(k, workspace), route, app)).1 then Done
         else DisableFailed
  {
  }

  lemma ListedIsEdited(ps: seq<Plugin>, route: string, app: string) returns (p: Plugin)
    requires FoundLists(ps, route, app)
    ensures IndexOfId(ps, p.id).Some? && RevokeEdit(ps, route, app) == Some(RevokeFrom(p, app))
    ensures AclEdit(ps, RevokeFrom(p, app))
  {
    p := ps[Select(ps, AclQuery(route)).value];
    ListedHasIndex(ps, p);
    EditKinds(ps, route, app, Other(""));
  }

  lemma RemovalOfUnlisted(k: Kong, net: Net, workspace: string, route: string, app: string)
    requires Reads(k, net, workspace) && !FoundLists(PluginsOf(k, workspace), route, app)
    ensures Revoke(k, net, workspace, route, app).1
            == if Covered(PluginsOf(k, workspace), ACL, route, "") then Done else Missing
  {
    FoundIffCovered(PluginsOf(k, workspace), ACL, route, "");
  }

  lemma RemovalCalls(k: Kong, net: Net, workspace: string, route: string, app: string) returns (e: Edit)
    requires Target(workspace) in k.stores && FoundLists(PluginsOf(k, workspace), route, app)
    ensures RevokeEdit(PluginsOf(k, workspace), route, app) == Some(e) && !e.Keep?
    ensures
      var (k1, ok) := Commit(k, net, workspace, e);
      && (ok <==> !net.writeFails(k.clock))
      && (ok && Unique(k, workspace) ==>
            (Submit(k1, net, workspace, DisableEdit(PluginsOf(k, workspace), route, app)).1 <==>
             !(Covered(PluginsOf(k, workspace), RATE_LIMITING, route, app) && net.writeFails(k.clock + 1))))
  {
    var p := ListedIsEdited(PluginsOf(k, workspace), route, app);
    e := RevokeFrom(p, app);
    RemovalGetsThrough(k, net, workspace, p, app);
    if Unique(k, workspace) && Commit(k, net, workspace, e).1 {
      DisablingGetsThrough(k, net, workspace, route, app, e);
    }
  }

  lemma RemovalOfListed(k: Kong, net: Net, workspace: string, route: string, app: string)
    requires Reads(k, net, workspace) && FoundLists(PluginsOf(k, workspace), route, app)
    ensures
      var o := Revoke(k, net, workspace, route, app).1;
      && (net.writeFails(k.clock + 1) ==> o == WriteFailed)
      && (!net.writeFails(k.clock + 1) ==> o in {Done, DisableFailed})
      && (Unique(k, workspace) && o in {Done, DisableFailed} ==>
            (o == DisableFailed <==>
             Covered(PluginsOf(k, workspace), RATE_LIMITING, route, app) && net.writeFails(k.clock + 2)))
  {
    var e := RemovalCalls(Tick(k), net, workspace, route, app);
    RemovalUnfolds(k, net, workspace, route, app, e);
  }

  /** How a removal ends, on any workspace: it finds nothing to remove from if and only if some
      criterion of the search fits no acl plugin; a consumer that the plugin found does not
      list is removed already; else first the write and then the disabling may fail. */
  lemma RemovalEndsAs(k: Kong, net: Net, workspace: string, route: string, app: string)
    ensures
      var ps, o := PluginsOf(k, workspace), Revoke(k, net, workspace, route, app).1;
      var listed := Reads(k, net, workspace) && FoundLists(ps, route, app);
      && (o == ListFailed <==> !Reads(k, net, workspace))
      && (o == Missing <==> Reads(k, net, workspace) && !Covered(ps, ACL, route, ""))
      && (o == WriteFailed <==> listed && net.writeFails(k.clock + 1))
      && (Unique(k, workspace) ==>
            (o == DisableFailed <==>
             listed && !net.writeFails(k.clock + 1)
             && Covered(ps, RATE_LIMITING, route, app) && net.writeFails(k.clock + 2)))
  {
    if Reads(k, net, workspace) {
      FoundIffCovered(PluginsOf(k, workspace), ACL, route, "");
      if FoundLists(PluginsOf(k, workspace), route, app) {
        RemovalOfListed(k, net, workspace, route, app);
      } else {
        RemovalOfUnlisted(k, net, workspace, route, app);
      }
    }
  }

  /** With the acl plugins in order: there is nothing to remove from if and only if no acl
      plugin is on the route, and the write is needed if and only if the consumer is allowed. */
  lemma RemovalSucceedsIff(k: Kong, net: Net, workspace: string, route: string, app: string)
    requires InOrder(k, workspace) && route != ""
    ensures
      var ps, o := PluginsOf(k, workspace), Revoke(k, net, workspace, route, app).1;
      var present := exists p :: p in ps && OnRoute(p, route);
      && (o == Missing <==> Reads(k, net, workspace) && !present)
      && (o == Done <==>
            && Reads(k, net, workspace) && present
            && (app in Allowed(ps, Route(route)) ==>
                  && !net.writeFails(k.clock + 1)
                  && (Covered(ps, RATE_LIMITING, route, app) ==> !net.writeFails(k.clock + 2))))
  {
    FoundInOrder(PluginsOf(k, workspace), route, app);
    RemovalEndsAs(k, net, workspace, route, app);
  }

  // ----- a removal made again -----

  /** The plugin of a route on which one consumer is allowed lists that one alone. */
  lemma ListsOnly(ps: seq<Plugin>, route: string, app: string) returns (i: nat)
    requires RouteAclsOnly(ps) && route != "" && Allowed(ps, Route(route)) == {app}
    ensures i < |ps| && OnRoute(ps[i], route) && AllowList(ps[i]) == [app]
    ensures RevokeEdit(ps, route, app) == Some(Drop(ps[i].id))
  {
    AclSearchIsExact(ps, route);
    i := Select(ps, AclQuery(route)).value;
    AllowedSplits(ps, i, Route(route));
    AllowedOnce(ps, i, route);
    forall g | g in AllowList(ps[i]) ensures g == app {
      assert g in AllowedBy(ps[i], Route(route));
    }
    OnlyOne(AllowList(ps[i]), app);
  }

  lemma NobodyElse(ps: seq<Plugin>, i: nat, route: string)
    requires RouteAclsOnly(ps) && i < |ps| && OnRoute(ps[i], route)
    ensures forall p :: p in ps[..i] + ps[i + 1..] ==> !OnRoute(p, route)
  {
    var left := ps[..i] + ps[i + 1..];
    forall p | p in left ensures !OnRoute(p, route) {
      var j :| 0 <= j < |left| && left[j] == p;
      assert ps[if j < i then j else j + 1] == p;
    }
  }

  lemma NobodyLeft(ps: seq<Plugin>, route: string, app: string, newId: string, ps': seq<Plugin>)
    requires RouteAclsOnly(ps) && route != "" && Allowed(ps, Route(route)) == {app}
    requires RevokeEdit(ps, route, app).Some? && Edited(ps, RevokeEdit(ps, route, app).value, newId) == Some(ps')
    ensures forall p :: p in ps' ==> !OnRoute(p, route)
  {
    var i := ListsOnly(ps, route, app);
    DropReachesOwn(ps, i, newId);
    NobodyElse(ps, i, route);
  }

  lemma OnlyOne(s: seq<string>, x: string)
    requires NoRepeats(s) && x in s && forall y :: y in s ==> y == x
    ensures s == [x] && Without(s, x) == []
  {
    assert |s| > 1 ==> s[0] != s[1];
    forall i | 0 <= i < |s| ensures s[i] == x {
      assert s[i] in s;
    }
  }

  lemma SameAclsSameRoutes(ps: seq<Plugin>, ps': seq<Plugin>, route: string)
    requires Named(ps', ACL) == Named(ps, ACL) && forall p :: p in ps ==> !OnRoute(p, route)
    ensures forall p :: p in ps' ==> !OnRoute(p, route)
  {
    forall p | p in ps' ensures !OnRoute(p, route) {
      if p.name == ACL {
        assert p in Named(ps', ACL);
        assert p in Named(ps, ACL);
      }
    }
  }

  lemma NobodyAfterRemoval(k: Kong, net: Net, workspace: string, route: string, app: string, e: Edit)
    requires InOrder(k, workspace) && route != "" && Allowed(PluginsOf(k, workspace), Route(route)) == {app}
    requires RevokeEdit(PluginsOf(k, workspace), route, app) == Some(e) && !e.Keep?
    requires Commit(k, net, workspace, e).1
    ensures
      var k1 := Commit(k, net, workspace, e).0;
      var k2 := Submit(k1, net, workspace, DisableEdit(PluginsOf(k, workspace), route, app)).0;
      forall p :: p in PluginsOf(k2, workspace) ==> !OnRoute(p, route)
  {
    var ps, k1 := PluginsOf(k, workspace), Commit(k, net, workspace, e).0;
    CommitWrites(k, net, workspace, e);
    NobodyLeft(ps, route, app, net.ids(k.clock), PluginsOf(k1, workspace));
    RemovalFlagsOnly(k, net, workspace, route, app, e);
    SameAclsSameRoutes(
      PluginsOf(k1, workspace), PluginsOf(Submit(k1, net, workspace, DisableEdit(ps, route, app)).0, workspace), route);
  }

  lemma AllowedIsWritten(ps: seq<Plugin>, route: string, app: string)
    requires RouteAclsOnly(ps) && route != "" && app in Allowed(ps, Route(route))
    ensures RevokeEdit(ps, route, app).Some? && !RevokeEdit(ps, route, app).value.Keep?
  {
    FoundInOrder(ps, route, app);
  }

  /** The removal of a route's last consumer drops the route's plugin, so that made again it is
      an error, whatever calls fail. */
  lemma LastRemovalIsMissing(k: Kong, net: Net, again: Net, workspace: string, route: string, app: string)
    requires InOrder(k, workspace) && route != "" && Allowed(PluginsOf(k, workspace), Route(route)) == {app}
    requires Revoke(k, net, workspace, route, app).1 in {Done, DisableFailed}
    ensures
      var k1 := Revoke(k, net, workspace, route, app).0;
      Revoke(k1, again, workspace, route, app).1 == if Reads(k1, again, workspace) then Missing else ListFailed
  {
    var ps, k1 := PluginsOf(k, workspace), Revoke(k, net, workspace, route, app).0;
    AllowedIsWritten(ps, route, app);
    var e := RevokeEdit(ps, route, app).value;
    RevokeCommits(k, net, workspace, route, app, e);
    NobodyAfterRemoval(Tick(k), net, workspace, route, app, e);
    RevokeKeepsOrder(k, net, workspace, route, app);
    FoundInOrder(PluginsOf(k1, workspace), route, app);
    RemovalEndsAs(k1, again, workspace, route, app);
  }

  // ----- consumers -----

  /** A consumer is found under a key that is its ID or, if it is nobody's ID, its username. */
  lemma FindsIdThenName(cs: seq<Consumer>, key: string)
    ensures FindConsumer(cs, key).Some? <==> key != "" && exists c :: c in cs && (c.id == key || c.username == key)
    ensures FindConsumer(cs, key).Some? ==>
              var c := FindConsumer(cs, key).value;
              c in cs && (c.id == key || (c.username == key && forall d :: d in cs ==> d.id != key))
  {
  }

  /** The lookup is answered with a consumer. */
  predicate Known(k: Kong, net: Net, workspace: string, key: string) {
    Reads(k, net, workspace) && FindConsumer(StoreOf(k, workspace).consumers, key).Some?
  }

  /** There is a consumer afterwards if and only if the lookup gave one or the creation got
      through, which needs an unused ID; the one made has the application's name and ID. */
  lemma ConsumerMadeIff(k: Kong, net: Net, workspace: string, id: string, name: string)
    ensures
      var s, newId := StoreOf(k, workspace), net.ids(k.clock + 1);
      var (k', made) := EnsureConsumer(k, net, workspace, id, name);
      && (made.Some? <==>
            Known(k, net, workspace, id)
            || (Target(workspace) in k.stores && !net.writeFails(k.clock + 1) && IsFreshConsumer(s.consumers, newId)))
      && (Known(k, net, workspace, id) ==> made == FindConsumer(s.consumers, id) && k'.stores == k.stores)
      && (made.Some? && !Known(k, net, workspace, id) ==>
            && made.value == Consumer(newId, name, id)
            && StoreOf(k', workspace) == s.(consumers := s.consumers + [made.value]))
  {
  }

  /** Joining a group and deleting a consumer each make one call after the lookup; without a
      consumer the first is an error and the second is a success. */
  lemma ConsumerCallsEndAs(k: Kong, net: Net, workspace: string, id: string)
    ensures JoinGroup(k, net, workspace, id).1 <==> Known(k, net, workspace, id) && !net.writeFails(k.clock + 1)
    ensures RemoveConsumer(k, net, workspace, id).1 <==> (Known(k, net, workspace, id) ==> !net.writeFails(k.clock + 1))
    ensures JoinGroup(k, net, workspace, id).1 ==>
              var s := StoreOf(k, workspace);
              StoreOf(JoinGroup(k, net, workspace, id).0, workspace)
              == s.(groups := s.groups + {(FindConsumer(s.consumers, id).value.id, id)})
    ensures !Known(k, net, workspace, id) ==> RemoveConsumer(k, net, workspace, id).0.stores == k.stores
  {
  }

  // ----- intervals -----

  /** A word of small letters in any mix of cases. */
  ghost predicate Spells(s: string, word: string)
    requires forall i :: 0 <= i < |word| ==> 'a' <= word[i] <= 'z'
  {
    |s| == |word| && forall i :: 0 <= i < |s| ==> s[i] == word[i] || s[i] == word[i] - 'a' + 'A'
  }

  lemma LowerSpells(s: string, word: string)
    requires forall i :: 0 <= i < |word| ==> 'a' <= word[i] <= 'z'
    ensures ToLower(s) == word <==> Spells(s, word)
  {
    if ToLower(s) == word {
      forall i | 0 <= i < |s| ensures s[i] == word[i] || s[i] == word[i] - 'a' + 'A' {
        assert ToLower(s)[i] == word[i];
      }
    }
  }

  /** The window follows the interval's name in any mix of cases; any other name has none. */
  lemma WindowFollowsName(interval: string, limit: int)
    ensures
      SetQuota(interval, limit)
      == Quota("local",
               if Spells(interval, "daily") then map["day" := limit]
               else if Spells(interval, "monthly") then map["month" := limit]
               else if Spells(interval, "annually") then map["year" := limit] else map[])
  {
    LowerSpells(interval, "daily");
    LowerSpells(interval, "monthly");
    LowerSpells(interval, "annually");
  }
}
