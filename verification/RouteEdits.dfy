/**
 The edits the agent makes to a workspace's plugins, each computed from one listing:
 granting a consumer access to a route, revoking it, placing a quota and disabling it.
 The lemmas say what one edit does to the allow lists, to the quotas and to the search.
 */
module RouteEdits {
  import opened KongStore
  import opened PluginSearch
  import opened Sequences

  function AclQuery(route: string): Query {
    Query(ACL, "", route, "")
  }

  function QuotaQuery(route: string, app: string): Query {
    Query(RATE_LIMITING, "", route, app)
  }

  /** Decoding an untyped configuration leaves what is absent at its zero value. */
  function Decoded(c: Config): (r: Config)
    ensures r.Acl? && (c.Acl? ==> r == c)
  {
    if c.Acl? then c else Acl([], [], false)
  }

  function AllowList(p: Plugin): seq<string> {
    Decoded(p.config).allow
  }

  lemma OthersAllowNobody(p: Plugin)
    requires !p.config.Acl?
    ensures AllowList(p) == [] && forall app :: WithAllow(p, [app]).config == Acl([app], [], false)
  {
  }

  function FirstAt(s: seq<string>, x: string): (i: nat)
    ensures i <= |s| && x !in s[..i]
    ensures i < |s| <==> x in s
    ensures i < |s| ==> s[i] == x
  {
    if |s| == 0 || s[0] == x then 0 else 1 + FirstAt(s[1..], x)
  }

  /** The list with the first occurrence of x taken out. */
  function Without(s: seq<string>, x: string): seq<string> {
    if x in s then s[..FirstAt(s, x)] + s[FirstAt(s, x) + 1..] else s
  }

  /** One occurrence goes, the others stay in their order. */
  lemma WithoutTakesOne(s: seq<string>, x: string)
    requires x in s
    ensures multiset(Without(s, x)) == multiset(s) - multiset{x}
    ensures exists i :: 0 <= i < |s| && s[i] == x && x !in s[..i] && Without(s, x) == s[..i] + s[i + 1..]
  {
    var i := FirstAt(s, x);
    assert s == s[..i] + [x] + s[i + 1..];
  }

  function WithAllow(p: Plugin, allow: seq<string>): Plugin {
    p.(config := Decoded(p.config).(allow := allow), enabled := true)
  }

  function GrantEdit(ps: seq<Plugin>, route: string, app: string): Edit {
    match Select(ps, AclQuery(route))
    case None => Create(route, NewPlugin(ACL, Unset, Acl([app], [], false)))
    case Some(i) =>
      if app in AllowList(ps[i]) then Keep
      else Patch(WithAllow(ps[i], AllowList(ps[i]) + [app]))
  }

  /** An acl plugin that would allow nobody is deleted. */
  function RevokeFrom(p: Plugin, app: string): (e: Edit)
    ensures e.Drop? || e.Patch?
  {
    var rest := Without(AllowList(p), app);
    if rest == [] then Drop(p.id) else Patch(WithAllow(p, rest))
  }

  /** None when the route has no plugin to revoke from, which the source reports as an error. */
  function RevokeEdit(ps: seq<Plugin>, route: string, app: string): Option<Edit> {
    match Select(ps, AclQuery(route))
    case None => None
    case Some(i) =>
      if app in AllowList(ps[i]) then Some(RevokeFrom(ps[i], app)) else Some(Keep)
  }

  function DisableEdit(ps: seq<Plugin>, route: string, app: string): Edit {
    match Select(ps, QuotaQuery(route, app))
    case None => Keep
    case Some(i) => Patch(ps[i].(enabled := false))
  }

  function QuotaEdit(ps: seq<Plugin>, route: string, app: string, config: Config): Edit {
    match Select(ps, QuotaQuery(route, app))
    case None => Create(route, NewPlugin(RATE_LIMITING, To(app), config))
    case Some(i) => if ps[i].enabled then Keep else Patch(ps[i].(enabled := true))
  }

  // ----- edits by ID reach the selected plugin -----

  lemma PatchReachesOwn(ps: seq<Plugin>, i: nat, p: Plugin, newId: string)
    requires UniqueIds(ps) && i < |ps| && p.id == ps[i].id
    ensures Edited(ps, Patch(p), newId) == Some(ps[i := p])
    ensures UniqueIds(ps[i := p])
  {
  }

  lemma DropReachesOwn(ps: seq<Plugin>, i: nat, newId: string)
    requires UniqueIds(ps) && i < |ps|
    ensures Edited(ps, Drop(ps[i].id), newId) == Some(ps[..i] + ps[i + 1..])
    ensures UniqueIds(ps[..i] + ps[i + 1..])
  {
  }

  lemma CreateAppends(ps: seq<Plugin>, route: string, n: NewPlugin, newId: string, ps': seq<Plugin>)
    requires UniqueIds(ps) && Edited(ps, Create(route, n), newId) == Some(ps')
    ensures ps' == ps + [Created(route, n, newId)] && UniqueIds(ps')
    ensures forall p :: p in ps ==> p.id != newId
  {
  }

  // ----- allow lists -----

  /** Whom a list of groups is for: a route, whatever else its plugins are scoped to, or the
      plugins of exactly one scope, such as the global ones. */
  datatype Place = Route(id: string) | At(key: Key)

  predicate Serves(p: Plugin, place: Place) {
    && p.name == ACL
    && match place
       case Route(id) => p.route == To(id)
       case At(key) => KeyOf(p) == key
  }

  predicate OnRoute(p: Plugin, route: string) {
    Serves(p, Route(route))
  }

  /** Every acl plugin on a route has no service and no consumer and lists no group
      twice, and no route has two. */
  ghost predicate RouteAclsOnly(ps: seq<Plugin>) {
    && UniqueIds(ps)
    && (forall i :: 0 <= i < |ps| && ps[i].name == ACL && ps[i].route.To? ==>
          ps[i].service.Unset? && ps[i].consumer.Unset? && NoRepeats(AllowList(ps[i])))
    && (forall i, j :: 0 <= i < j < |ps| && ps[i].name == ACL && ps[j].name == ACL && ps[i].route.To? ==>
          ps[i].route != ps[j].route)
  }

  /** The groups that the acl plugins of a place allow. */
  ghost function Allowed(ps: seq<Plugin>, place: Place): set<string> {
    set p, g | p in ps && Serves(p, place) && g in AllowList(p) :: g
  }

  // What one plugin allows there, and what the others allow.

  ghost function AllowedBy(p: Plugin, place: Place): set<string> {
    if Serves(p, place) then set g | g in AllowList(p) else {}
  }

  ghost function AllowedBut(ps: seq<Plugin>, i: nat, place: Place): set<string> {
    set j, g | 0 <= j < |ps| && j != i && Serves(ps[j], place) && g in AllowList(ps[j]) :: g
  }

  lemma AllowedSplits(ps: seq<Plugin>, i: nat, place: Place)
    requires i < |ps|
    ensures Allowed(ps, place) == AllowedBut(ps, i, place) + AllowedBy(ps[i], place)
  {
  }

  lemma AllowedAfterChange(ps: seq<Plugin>, i: nat, y: Plugin, place: Place)
    requires i < |ps|
    ensures Allowed(ps[i := y], place) == AllowedBut(ps, i, place) + AllowedBy(y, place)
  {
    var qs := ps[i := y];
    AllowedSplits(qs, i, place);
    assert forall j :: 0 <= j < |ps| && j != i ==> qs[j] == ps[j];
  }

  lemma AllowedAfterDrop(ps: seq<Plugin>, i: nat, place: Place)
    requires i < |ps|
    ensures Allowed(ps[..i] + ps[i + 1..], place) == AllowedBut(ps, i, place)
  {
  }

  lemma AllowedAfterAppend(ps: seq<Plugin>, p: Plugin, place: Place)
    ensures Allowed(ps + [p], place) == Allowed(ps, place) + AllowedBy(p, place)
  {
  }

  /** The places whose allow list a grant extends: its own route's if the search finds
      nothing, and otherwise those of the plugin found, which may be on no route at all. */
  ghost predicate GrantHits(ps: seq<Plugin>, route: string, place: Place) {
    match Select(ps, AclQuery(route))
    case None => place == Route(route) || place == At(Key(To(route), Unset, Unset))
    case Some(i) => Serves(ps[i], place)
  }

  /** On any store with unique IDs: a grant that Kong carries out adds the consumer to the
      allow lists it hits, and changes no other. */
  lemma GrantReaches(ps: seq<Plugin>, route: string, app: string, newId: string, ps': seq<Plugin>, place: Place)
    requires UniqueIds(ps) && Edited(ps, GrantEdit(ps, route, app), newId) == Some(ps')
    ensures Allowed(ps', place) == Allowed(ps, place) + (if GrantHits(ps, route, place) then {app} else {})
  {
    match Select(ps, AclQuery(route))
    case None =>
      var n := NewPlugin(ACL, Unset, Acl([app], [], false));
      CreateAppends(ps, route, n, newId, ps');
      AllowedAfterAppend(ps, Created(route, n, newId), place);
    case Some(i) =>
      AllowedSplits(ps, i, place);
      if app !in AllowList(ps[i]) {
        PatchReachesOwn(ps, i, WithAllow(ps[i], AllowList(ps[i]) + [app]), newId);
        AllowedOneMore(ps, i, app, place);
      }
  }

  lemma AllowedOneMore(ps: seq<Plugin>, i: nat, app: string, place: Place)
    requires i < |ps|
    ensures Allowed(ps[i := WithAllow(ps[i], AllowList(ps[i]) + [app])], place)
            == Allowed(ps, place) + if Serves(ps[i], place) then {app} else {}
  {
    var y := WithAllow(ps[i], AllowList(ps[i]) + [app]);
    AllowedSplits(ps, i, place);
    AllowedAfterChange(ps, i, y, place);
    assert AllowedBy(y, place) == AllowedBy(ps[i], place) + if Serves(ps[i], place) then {app} else {};
  }

  /** The places that a removal closes to the consumer: the found plugin is one of theirs, it
      lists the consumer no second time, and no other of theirs allows it. */
  ghost predicate RevokeHits(ps: seq<Plugin>, route: string, app: string, place: Place) {
    match Select(ps, AclQuery(route))
    case None => false
    case Some(i) =>
      Serves(ps[i], place) && app !in AllowedBut(ps, i, place) && app !in Without(AllowList(ps[i]), app)
  }

  lemma InWithout(s: seq<string>, x: string, g: string)
    ensures g != x ==> (g in Without(s, x) <==> g in s)
    ensures g in Without(s, x) ==> g in s
  {
  }

  /** On any store with unique IDs: a removal that Kong carries out takes the consumer off
      the allow lists it hits, and changes no other. */
  lemma RevokeReaches(ps: seq<Plugin>, route: string, app: string, newId: string, ps': seq<Plugin>, place: Place)
    requires UniqueIds(ps) && RevokeEdit(ps, route, app).Some?
    requires Edited(ps, RevokeEdit(ps, route, app).value, newId) == Some(ps')
    ensures Allowed(ps', place) == Allowed(ps, place) - (if RevokeHits(ps, route, app, place) then {app} else {})
  {
    var i := Select(ps, AclQuery(route)).value;
    AllowedOneFewer(ps, i, app, place);
    if app in AllowList(ps[i]) {
      var rest := Without(AllowList(ps[i]), app);
      if rest == [] {
        DropReachesOwn(ps, i, newId);
        AllowedAfterDrop(ps, i, place);
      } else {
        PatchReachesOwn(ps, i, WithAllow(ps[i], rest), newId);
        AllowedAfterChange(ps, i, WithAllow(ps[i], rest), place);
      }
    }
  }

  lemma AllowedOneFewer(ps: seq<Plugin>, i: nat, app: string, place: Place)
    requires i < |ps|
    ensures
      var rest := Without(AllowList(ps[i]), app);
      AllowedBut(ps, i, place) + AllowedBy(WithAllow(ps[i], rest), place)
      == Allowed(ps, place)
         - if Serves(ps[i], place) && app !in AllowedBut(ps, i, place) && app !in rest then {app} else {}
  {
    AllowedSplits(ps, i, place);
    forall g ensures g in Without(AllowList(ps[i]), app) ==> g in AllowList(ps[i])
             ensures g != app ==> (g in Without(AllowList(ps[i]), app) <==> g in AllowList(ps[i]))
    {
      InWithout(AllowList(ps[i]), app, g);
    }
  }

  // ----- allow lists in order -----

  /** On a store in order the search for a route's acl plugin is exact. */
  lemma AclSearchIsExact(ps: seq<Plugin>, route: string)
    requires RouteAclsOnly(ps) && route != ""
    ensures Select(ps, AclQuery(route)).None? ==> forall i :: 0 <= i < |ps| ==> !OnRoute(ps[i], route)
    ensures Select(ps, AclQuery(route)).Some? ==> OnRoute(ps[Select(ps, AclQuery(route)).value], route)
  {
  }

  lemma ChangeKeepsOrder(ps: seq<Plugin>, i: nat, allow: seq<string>)
    requires RouteAclsOnly(ps) && i < |ps| && ps[i].name == ACL && NoRepeats(allow)
    ensures RouteAclsOnly(ps[i := WithAllow(ps[i], allow)])
  {
  }

  lemma DropKeepsOrder(ps: seq<Plugin>, i: nat)
    requires RouteAclsOnly(ps) && i < |ps|
    ensures RouteAclsOnly(ps[..i] + ps[i + 1..])
  {
  }

  lemma FirstGrantKeepsOrder(ps: seq<Plugin>, route: string, app: string, newId: string, ps': seq<Plugin>)
    requires RouteAclsOnly(ps)
    requires forall i :: 0 <= i < |ps| ==> !OnRoute(ps[i], route)
    requires Edited(ps, Create(route, NewPlugin(ACL, Unset, Acl([app], [], false))), newId) == Some(ps')
    ensures RouteAclsOnly(ps')
  {
  }

  /** On a store in order a grant or a removal hits its own route and no other. */
  lemma HitsInOrder(ps: seq<Plugin>, route: string, app: string, r: string)
    requires RouteAclsOnly(ps) && route != ""
    ensures GrantHits(ps, route, Route(r)) <==> r == route
    ensures Select(ps, AclQuery(route)).Some? ==> (RevokeHits(ps, route, app, Route(r)) <==> r == route)
  {
    AclSearchIsExact(ps, route);
    if Select(ps, AclQuery(route)).Some? {
      var i := Select(ps, AclQuery(route)).value;
      AllowedOnce(ps, i, route);
      WithoutRemoves(AllowList(ps[i]), app);
    }
  }

  /** On a store in order a grant that Kong carries out inserts the consumer into that
      route's allow list, leaves every other route's as it was, and keeps the order. */
  lemma GrantInserts(ps: seq<Plugin>, route: string, app: string, newId: string, ps': seq<Plugin>)
    requires RouteAclsOnly(ps) && route != ""
    requires Edited(ps, GrantEdit(ps, route, app), newId) == Some(ps')
    ensures RouteAclsOnly(ps')
    ensures Allowed(ps', Route(route)) == Allowed(ps, Route(route)) + {app}
    ensures forall r :: r != route ==> Allowed(ps', Route(r)) == Allowed(ps, Route(r))
  {
    AclSearchIsExact(ps, route);
    forall r ensures Allowed(ps', Route(r)) == Allowed(ps, Route(r)) + if r == route then {app} else {} {
      HitsInOrder(ps, route, app, r);
      GrantReaches(ps, route, app, newId, ps', Route(r));
    }
    match Select(ps, AclQuery(route))
    case None =>
      FirstGrantKeepsOrder(ps, route, app, newId, ps');
    case Some(i) =>
      if app !in AllowList(ps[i]) {
        PatchReachesOwn(ps, i, WithAllow(ps[i], AllowList(ps[i]) + [app]), newId);
        ChangeKeepsOrder(ps, i, AllowList(ps[i]) + [app]);
      }
  }

  lemma WithoutRemoves(s: seq<string>, x: string)
    requires NoRepeats(s)
    ensures NoRepeats(Without(s, x)) && x !in Without(s, x)
  {
  }

  lemma AllowedOnce(ps: seq<Plugin>, i: nat, route: string)
    requires RouteAclsOnly(ps) && i < |ps| && OnRoute(ps[i], route)
    ensures AllowedBut(ps, i, Route(route)) == {}
  {
  }

  /** On a store in order a removal that Kong carries out deletes the consumer from that
      route's allow list, leaves every other route's as it was, and keeps the order. */
  lemma RevokeDeletes(ps: seq<Plugin>, route: string, app: string, newId: string, ps': seq<Plugin>)
    requires RouteAclsOnly(ps) && route != ""
    requires RevokeEdit(ps, route, app).Some?
    requires Edited(ps, RevokeEdit(ps, route, app).value, newId) == Some(ps')
    ensures RouteAclsOnly(ps')
    ensures Allowed(ps', Route(route)) == Allowed(ps, Route(route)) - {app}
    ensures forall r :: r != route ==> Allowed(ps', Route(r)) == Allowed(ps, Route(r))
  {
    var i := Select(ps, AclQuery(route)).value;
    AclSearchIsExact(ps, route);
    WithoutRemoves(AllowList(ps[i]), app);
    forall r ensures Allowed(ps', Route(r)) == Allowed(ps, Route(r)) - if r == route then {app} else {} {
      HitsInOrder(ps, route, app, r);
      RevokeReaches(ps, route, app, newId, ps', Route(r));
    }
    if app in AllowList(ps[i]) {
      var rest := Without(AllowList(ps[i]), app);
      if rest == [] {
        DropReachesOwn(ps, i, newId);
        DropKeepsOrder(ps, i);
      } else {
        PatchReachesOwn(ps, i, WithAllow(ps[i], rest), newId);
        ChangeKeepsOrder(ps, i, rest);
      }
    }
  }

  /** Plugins that go with a consumer are none of a route's acl plugins. */
  lemma DepartureKeepsAcls(ps: seq<Plugin>, gone: set<string>)
    requires RouteAclsOnly(ps)
    ensures RouteAclsOnly(Filtered(ps, IsNotFor(gone)))
    ensures forall r :: Allowed(Filtered(ps, IsNotFor(gone)), Route(r)) == Allowed(ps, Route(r))
  {
    var left := Filtered(ps, IsNotFor(gone));
    DepartureKeepsIds(ps, gone);
    forall i | 0 <= i < |left| ensures left[i] in ps {
      assert left[i] in left;
    }
    forall i, j | 0 <= i < j < |left| && left[i].name == ACL && left[j].name == ACL && left[i].route.To?
      ensures left[i].route != left[j].route
    {
      var k, l := FilteredInOrder(ps, IsNotFor(gone), i, j);
    }
    forall p, r | OnRoute(p, r) ensures p in left <==> p in ps {
    }
  }

  lemma DepartureKeepsIds(ps: seq<Plugin>, gone: set<string>)
    requires UniqueIds(ps)
    ensures UniqueIds(Filtered(ps, IsNotFor(gone)))
  {
    var left := Filtered(ps, IsNotFor(gone));
    forall i, j | 0 <= i < j < |left| ensures left[i].id != left[j].id {
      var k, l := FilteredInOrder(ps, IsNotFor(gone), i, j);
    }
  }

  /** Quota edits touch rate-limiting plugins only. */
  lemma FlagEditKeepsAcls(ps: seq<Plugin>, i: nat, on: bool, newId: string, ps': seq<Plugin>)
    requires UniqueIds(ps) && i < |ps| && ps[i].name != ACL
    requires Edited(ps, Patch(ps[i].(enabled := on)), newId) == Some(ps')
    ensures RouteAclsOnly(ps) ==> RouteAclsOnly(ps')
    ensures forall r :: Allowed(ps', r) == Allowed(ps, r)
  {
    var p := ps[i].(enabled := on);
    PatchReachesOwn(ps, i, p, newId);
    forall r ensures Allowed(ps', r) == Allowed(ps, r) {
      AllowedSplits(ps, i, r);
      AllowedAfterChange(ps, i, p, r);
    }
  }

  lemma QuotaKeepsAcls(
      ps: seq<Plugin>, route: string, app: string, config: Config, newId: string, ps': seq<Plugin>)
    requires UniqueIds(ps)
    requires Edited(ps, QuotaEdit(ps, route, app, config), newId) == Some(ps')
    ensures RouteAclsOnly(ps) ==> RouteAclsOnly(ps')
    ensures forall r :: Allowed(ps', r) == Allowed(ps, r)
  {
    match Select(ps, QuotaQuery(route, app))
    case None =>
      var n := NewPlugin(RATE_LIMITING, To(app), config);
      CreateAppends(ps, route, n, newId, ps');
      forall r ensures Allowed(ps', r) == Allowed(ps, r) {
        AllowedAfterAppend(ps, Created(route, n, newId), r);
      }
    case Some(i) =>
      if !ps[i].enabled {
        FlagEditKeepsAcls(ps, i, true, newId, ps');
      }
  }

  /** The hypothesis on the store is needed: next to a plugin on the route that also
      names a service, the search picks the global plugin, and the grant meant for one
      route lands in the global allow list. */
  lemma GrantMayMissTheRoute(route: string, service: string, app: string, newId: string)
    requires route != "" && app != "b"
    ensures
      var onBoth := Plugin("1", ACL, To(route), To(service), Unset, true, Acl(["a"], [], false));
      var everywhere := Plugin("2", ACL, Unset, Unset, Unset, true, Acl(["b"], [], false));
      Edited([onBoth, everywhere], GrantEdit([onBoth, everywhere], route, app), newId)
      == Some([onBoth, WithAllow(everywhere, ["b", app])])
  {
    var onBoth := Plugin("1", ACL, To(route), To(service), Unset, true, Acl(["a"], [], false));
    var everywhere := Plugin("2", ACL, Unset, Unset, Unset, true, Acl(["b"], [], false));
    var ps := [onBoth, everywhere];
    var q := AclQuery(route);
    assert Fits(ps[1], q, ByService) && !Fits(ps[0], q, ByService);
    assert Fits(ps[0], q, ByRoute) && Fits(ps[0], q, ByConsumer);
    assert Select(ps, q) == Some(1);
    assert ["b"] + [app] == ["b", app];
    PatchReachesOwn(ps, 1, WithAllow(everywhere, ["b", app]), newId);
    assert ps[1 := WithAllow(everywhere, ["b", app])] == [onBoth, WithAllow(everywhere, ["b", app])];
  }

  // ----- what a grant leaves behind -----

  /** After a grant the plugin the search selects lists the consumer, and it is enabled
      unless the grant found the consumer listed already on a disabled plugin. */
  lemma GrantIsEffectiveIff(ps: seq<Plugin>, route: string, app: string, newId: string, ps': seq<Plugin>)
    requires UniqueIds(ps) && route != ""
    requires Edited(ps, GrantEdit(ps, route, app), newId) == Some(ps')
    ensures UniqueIds(ps')
    ensures Select(ps', AclQuery(route)).Some?
    ensures
      var was, now := Select(ps, AclQuery(route)), Select(ps', AclQuery(route)).value;
      && app in AllowList(ps'[now])
      && (ps'[now].enabled <==>
          !(was.Some? && app in AllowList(ps[was.value]) && !ps[was.value].enabled))
  {
    var q := AclQuery(route);
    match Select(ps, q)
    case None =>
      var n := NewPlugin(ACL, Unset, Acl([app], [], false));
      CreateAppends(ps, route, n, newId, ps');
      SelectAfterAppend(ps, Created(route, n, newId), q);
    case Some(i) =>
      if app !in AllowList(ps[i]) {
        PatchReachesOwn(ps, i, WithAllow(ps[i], AllowList(ps[i]) + [app]), newId);
        SelectReadsScopesOnly(ps, ps', q);
      }
  }

  /** The plugin with another allow list, and perhaps enabled. */
  ghost predicate SameButAllow(x: Plugin, y: Plugin) {
    && y == x.(config := y.config, enabled := y.enabled)
    && Decoded(y.config) == Acl(AllowList(y), Decoded(x.config).deny, Decoded(x.config).hideGroups)
  }

  /** A grant adds one acl plugin, or one group at the end of one allow list, or nothing;
      every other plugin, and every other setting of that one, stays in its place. */
  lemma GrantKeepsSettings(ps: seq<Plugin>, route: string, app: string, newId: string, ps': seq<Plugin>)
    requires UniqueIds(ps) && Edited(ps, GrantEdit(ps, route, app), newId) == Some(ps')
    ensures || ps' == ps
            || ps' == ps + [Created(route, NewPlugin(ACL, Unset, Acl([app], [], false)), newId)]
            || exists i, y :: 0 <= i < |ps| && ps' == ps[i := y] && ps[i].name == ACL && SameButAllow(ps[i], y)
                              && AllowList(y) == AllowList(ps[i]) + [app]
  {
    var i := Select(ps, AclQuery(route));
    if i.Some? && app !in AllowList(ps[i.value]) {
      var y := WithAllow(ps[i.value], AllowList(ps[i.value]) + [app]);
      PatchReachesOwn(ps, i.value, y, newId);
      assert SameButAllow(ps[i.value], y);
    }
  }

  /** A removal takes one group out of one allow list, or drops a plugin that listed nobody
      else, or does nothing; every other plugin and setting stays in its place. */
  lemma RevokeKeepsSettings(ps: seq<Plugin>, route: string, app: string, newId: string, ps': seq<Plugin>)
    requires UniqueIds(ps) && RevokeEdit(ps, route, app).Some?
    requires Edited(ps, RevokeEdit(ps, route, app).value, newId) == Some(ps')
    ensures || ps' == ps
            || (exists i, y :: 0 <= i < |ps| && ps' == ps[i := y] && ps[i].name == ACL && SameButAllow(ps[i], y)
                               && AllowList(y) == Without(AllowList(ps[i]), app) != AllowList(ps[i]))
            || (exists i :: 0 <= i < |ps| && ps' == ps[..i] + ps[i + 1..] && ps[i].name == ACL
                            && AllowList(ps[i]) == [app])
  {
    var i := Select(ps, AclQuery(route)).value;
    if app in AllowList(ps[i]) {
      WithoutIsShorter(AllowList(ps[i]), app);
      if Without(AllowList(ps[i]), app) == [] {
        DropReachesOwn(ps, i, newId);
      } else {
        var y := WithAllow(ps[i], Without(AllowList(ps[i]), app));
        PatchReachesOwn(ps, i, y, newId);
        assert SameButAllow(ps[i], y);
      }
    }
  }

  lemma WithoutIsShorter(s: seq<string>, x: string)
    requires x in s
    ensures |Without(s, x)| == |s| - 1 && Without(s, x) != s
    ensures Without(s, x) == [] ==> s == [x]
  {
  }

  /** Granting again asks nothing of Kong. */
  lemma GrantTwiceKeeps(ps: seq<Plugin>, route: string, app: string, newId: string, ps': seq<Plugin>)
    requires UniqueIds(ps) && route != ""
    requires Edited(ps, GrantEdit(ps, route, app), newId) == Some(ps')
    ensures GrantEdit(ps', route, app) == Keep && UniqueIds(ps')
  {
    GrantIsEffectiveIff(ps, route, app, newId, ps');
  }

  /** Placing a quota again asks nothing of Kong, and neither does granting again after it. */
  lemma QuotaTwiceKeeps(
      ps: seq<Plugin>, route: string, app: string, config: Config, newId: string, ps': seq<Plugin>)
    requires UniqueIds(ps) && route != "" && app != ""
    requires Edited(ps, QuotaEdit(ps, route, app, config), newId) == Some(ps')
    ensures QuotaEdit(ps', route, app, config) == Keep && UniqueIds(ps')
    ensures GrantEdit(ps', route, app) == GrantEdit(ps, route, app)
  {
    match Select(ps, QuotaQuery(route, app))
    case None =>
      var n := NewPlugin(RATE_LIMITING, To(app), config);
      CreateAppends(ps, route, n, newId, ps');
      SelectAfterAppend(ps, Created(route, n, newId), QuotaQuery(route, app));
      SelectAfterAppend(ps, Created(route, n, newId), AclQuery(route));
    case Some(i) =>
      if !ps[i].enabled {
        EnableKeeps(ps, i, route, app, config, newId);
      }
  }

  lemma EnableKeeps(ps: seq<Plugin>, i: nat, route: string, app: string, config: Config, newId: string)
    requires UniqueIds(ps) && Select(ps, QuotaQuery(route, app)) == Some(i)
    ensures
      var ps' := ps[i := ps[i].(enabled := true)];
      && Edited(ps, Patch(ps[i].(enabled := true)), newId) == Some(ps') && UniqueIds(ps')
      && QuotaEdit(ps', route, app, config) == Keep
      && GrantEdit(ps', route, app) == GrantEdit(ps, route, app)
  {
    var p := ps[i].(enabled := true);
    PatchReachesOwn(ps, i, p, newId);
    SelectReadsScopesOnly(ps, ps[i := p], QuotaQuery(route, app));
    GrantEditIgnoresFlags(ps, i, route, app);
  }

  lemma GrantEditIgnoresFlags(ps: seq<Plugin>, i: nat, route: string, app: string)
    requires i < |ps| && ps[i].name == RATE_LIMITING
    ensures GrantEdit(ps[i := ps[i].(enabled := true)], route, app) == GrantEdit(ps, route, app)
  {
    SelectReadsScopesOnly(ps, ps[i := ps[i].(enabled := true)], AclQuery(route));
  }

  ghost predicate SameKey(p: Plugin, p': Plugin) {
    p.name == p'.name && KeyOf(p) == KeyOf(p')
  }

  // ----- where a quota lands -----

  /** An enabled rate-limiting plugin of exactly this scope and configuration, be it a quota of
      one consumer on one route, or a limit on a service, on a route for everybody, or on
      everything. */
  ghost predicate InForce(ps: seq<Plugin>, limit: Limit) {
    exists p :: p in ps && p.name == RATE_LIMITING && LimitOf(p) == limit && p.enabled
  }

  /** Some limit of exactly this scope is in force. */
  ghost predicate Limited(ps: seq<Plugin>, key: Key) {
    exists p :: p in ps && p.name == RATE_LIMITING && KeyOf(p) == key && p.enabled
  }

  lemma LimitedIff(ps: seq<Plugin>, key: Key)
    ensures Limited(ps, key) <==> exists config :: InForce(ps, Limit(key, config))
  {
    if Limited(ps, key) {
      var p :| p in ps && p.name == RATE_LIMITING && KeyOf(p) == key && p.enabled;
      assert InForce(ps, Limit(key, p.config));
    }
  }

  /** The scope of a consumer's quota on a route. */
  function QuotaKey(route: string, app: string): Key {
    KeyFor(QuotaQuery(route, app))
  }

  ghost predicate QuotaInForce(ps: seq<Plugin>, route: string, app: string) {
    Limited(ps, QuotaKey(route, app))
  }

  /** No two rate-limiting plugins share route, service and consumer. */
  ghost predicate QuotasDiffer(ps: seq<Plugin>) {
    forall p, p' :: p in ps && p' in ps && p.name == RATE_LIMITING && SameKey(p, p') ==> p == p'
  }

  /** Setting a plugin's flag decides the limit of that plugin's scope, and changes no other. */
  lemma FlagDecides(ps: seq<Plugin>, i: nat, on: bool, newId: string, ps': seq<Plugin>, limit: Limit)
    requires UniqueIds(ps) && i < |ps| && ps[i].name == RATE_LIMITING && (on || QuotasDiffer(ps))
    requires Edited(ps, Patch(ps[i].(enabled := on)), newId) == Some(ps')
    ensures InForce(ps', limit) <==> if limit == LimitOf(ps[i]) then on else InForce(ps, limit)
  {
    var y := ps[i].(enabled := on);
    PatchReachesOwn(ps, i, y, newId);
    forall p ensures p in ps' <==> p == y || (p in ps && p.id != y.id) {
      MembersAfterChange(ps, i, y, p);
      if p in ps && p != ps[i] {
        var j :| 0 <= j < |ps| && ps[j] == p;
        assert ps'[j] == p;
      }
      if p in ps' && p != y {
        var j :| 0 <= j < |ps'| && ps'[j] == p;
        assert ps[j] == p;
      }
    }
    forall p | p in ps && p.name == RATE_LIMITING && KeyOf(p) == KeyOf(ps[i]) ensures SameKey(ps[i], p) {
    }
    forall p | p in ps && p != ps[i] ensures p.id != ps[i].id {
      var j :| 0 <= j < |ps| && ps[j] == p;
    }
  }

  /** The limit that a quota request addresses: its own if the search finds nothing, and
      otherwise that of the plugin found, whatever that is scoped to and configured for. */
  function QuotaHit(ps: seq<Plugin>, route: string, app: string, config: Config): Limit {
    match Found(ps, QuotaQuery(route, app))
    case None => Limit(QuotaKey(route, app), config)
    case Some(p) => LimitOf(p)
  }

  /** The limit that a removal addresses, if its search finds a plugin. */
  predicate DisableHits(ps: seq<Plugin>, route: string, app: string, limit: Limit) {
    match Found(ps, QuotaQuery(route, app))
    case None => false
    case Some(p) => limit == LimitOf(p)
  }

  lemma NotFoundNotInForce(ps: seq<Plugin>, route: string, app: string)
    ensures Found(ps, QuotaQuery(route, app)).None? ==> !QuotaInForce(ps, route, app)
  {
    if QuotaInForce(ps, route, app) {
      var p :| p in ps && p.name == RATE_LIMITING && KeyOf(p) == QuotaKey(route, app);
      ExactIsKey(p, QuotaQuery(route, app));
      var j :| 0 <= j < |ps| && ps[j] == p;
      SelectNeverPassesExact(ps, QuotaQuery(route, app), j);
    }
  }

  /** A quota request that Kong carries out puts in force the limit it hits, and leaves every
      other one, in force or not, as it was. */
  lemma PlacingReaches(
      ps: seq<Plugin>, route: string, app: string, config: Config, newId: string, ps': seq<Plugin>, limit: Limit)
    requires UniqueIds(ps) && route != "" && app != ""
    requires Edited(ps, QuotaEdit(ps, route, app, config), newId) == Some(ps')
    ensures InForce(ps', limit) <==> InForce(ps, limit) || limit == QuotaHit(ps, route, app, config)
  {
    match Select(ps, QuotaQuery(route, app))
    case None =>
      var n := NewPlugin(RATE_LIMITING, To(app), config);
      CreateAppends(ps, route, n, newId, ps');
      var y := Created(route, n, newId);
      assert ps'[|ps|] == y;
      assert forall p :: p in ps' <==> p in ps || p == y;
    case Some(i) =>
      if ps[i].enabled {
        assert ps[i] in ps;
      } else {
        FlagDecides(ps, i, true, newId, ps', limit);
      }
  }

  /** So some limit of its own scope is in force afterwards if and only if one already was, or
      the search found nothing, or the search found the exact plugin. */
  lemma QuotaInForceIff(
      ps: seq<Plugin>, route: string, app: string, config: Config, newId: string, ps': seq<Plugin>)
    requires UniqueIds(ps) && route != "" && app != ""
    requires Edited(ps, QuotaEdit(ps, route, app, config), newId) == Some(ps')
    ensures
      var q := QuotaQuery(route, app);
      QuotaInForce(ps', route, app) <==>
      QuotaInForce(ps, route, app) || (Select(ps, q).Some? ==> Exact(ps[Select(ps, q).value], q))
  {
    var key := QuotaKey(route, app);
    LimitedIff(ps, key);
    LimitedIff(ps', key);
    forall c
      ensures InForce(ps', Limit(key, c)) <==>
              InForce(ps, Limit(key, c)) || Limit(key, c) == QuotaHit(ps, route, app, config)
    {
      PlacingReaches(ps, route, app, config, newId, ps', Limit(key, c));
    }
    var hit := QuotaHit(ps, route, app, config);
    assert hit.key == key ==> hit == Limit(key, hit.config);
  }

  /** And it is the limit asked for if and only if that was in force already, or the search
      found nothing, or the search found a plugin of that scope with just that limit. */
  lemma QuotaAsAskedIff(
      ps: seq<Plugin>, route: string, app: string, config: Config, newId: string, ps': seq<Plugin>)
    requires UniqueIds(ps) && route != "" && app != ""
    requires Edited(ps, QuotaEdit(ps, route, app, config), newId) == Some(ps')
    ensures
      var asked, q := Limit(QuotaKey(route, app), config), QuotaQuery(route, app);
      InForce(ps', asked) <==>
      InForce(ps, asked)
      || (Select(ps, q).Some? ==> Exact(ps[Select(ps, q).value], q) && ps[Select(ps, q).value].config == config)
  {
    PlacingReaches(ps, route, app, config, newId, ps', Limit(QuotaKey(route, app), config));
  }

  /** A request for another limit of a quota that exists reports success and leaves the old
      one: a disabled plugin is enabled as it is, and an enabled one is not touched. */
  lemma OldLimitIsKept(p: Plugin, route: string, app: string, config: Config, newId: string)
    requires Exact(p, QuotaQuery(route, app))
    ensures Edited([p], QuotaEdit([p], route, app, config), newId) == Some([p.(enabled := true)])
  {
    var q, ps := QuotaQuery(route, app), [p];
    assert ps[0] == p;
    SelectNeverPassesExact(ps, q, 0);
    PatchReachesOwn(ps, 0, p.(enabled := true), newId);
    assert ps[0 := p.(enabled := true)] == [p.(enabled := true)];
  }

  /** It lands where it is meant to when every rate-limiting plugin of that consumer, or every
      one on that route, is for exactly that route and consumer. */
  lemma QuotaLandsWhenDecided(
      ps: seq<Plugin>, route: string, app: string, config: Config, newId: string, ps': seq<Plugin>)
    requires UniqueIds(ps) && route != "" && app != ""
    requires Decides(ps, QuotaQuery(route, app), ByRoute) || Decides(ps, QuotaQuery(route, app), ByConsumer)
    requires Edited(ps, QuotaEdit(ps, route, app, config), newId) == Some(ps')
    ensures QuotaInForce(ps', route, app)
  {
    DecidedFindsItsOwn(ps, route, app);
    QuotaInForceIff(ps, route, app, config, newId, ps');
  }

  lemma DecidedFindsItsOwn(ps: seq<Plugin>, route: string, app: string)
    requires Decides(ps, QuotaQuery(route, app), ByRoute) || Decides(ps, QuotaQuery(route, app), ByConsumer)
    ensures
      var found := Found(ps, QuotaQuery(route, app));
      found.Some? ==> Exact(found.value, QuotaQuery(route, app)) && KeyOf(found.value) == QuotaKey(route, app)
  {
    var q := QuotaQuery(route, app);
    DecidedSearchIsExact(ps, q, if Decides(ps, q, ByRoute) then ByRoute else ByConsumer);
  }

  /** Disabling takes out of force the limit of the plugin the search finds - which need not
      be the quota asked for, nor any consumer's - and leaves every other one as it was. */
  lemma DisablingReaches(
      ps: seq<Plugin>, route: string, app: string, newId: string, ps': seq<Plugin>, limit: Limit)
    requires UniqueIds(ps) && QuotasDiffer(ps)
    requires Edited(ps, DisableEdit(ps, route, app), newId) == Some(ps')
    ensures InForce(ps', limit) <==> InForce(ps, limit) && !DisableHits(ps, route, app, limit)
  {
    match Select(ps, QuotaQuery(route, app))
    case None =>
    case Some(i) =>
      FlagDecides(ps, i, false, newId, ps', limit);
  }

  /** A scope has one limit at most. */
  lemma OneLimit(ps: seq<Plugin>, p: Plugin, limit: Limit)
    requires QuotasDiffer(ps) && p in ps && p.name == RATE_LIMITING && KeyOf(p) == limit.key
    ensures InForce(ps, limit) <==> p.enabled && p.config == limit.config
    ensures Limited(ps, limit.key) <==> p.enabled
  {
    forall x | x in ps && x.name == RATE_LIMITING && KeyOf(x) == KeyOf(p) ensures x == p {
      assert SameKey(p, x);
    }
  }

  /** So when the search is decided, it takes out of force exactly what it was meant to. */
  lemma DisablingEndsQuota(
      ps: seq<Plugin>, route: string, app: string, newId: string, ps': seq<Plugin>, limit: Limit)
    requires UniqueIds(ps) && QuotasDiffer(ps)
    requires Decides(ps, QuotaQuery(route, app), ByRoute) || Decides(ps, QuotaQuery(route, app), ByConsumer)
    requires Edited(ps, DisableEdit(ps, route, app), newId) == Some(ps')
    ensures InForce(ps', limit) <==> InForce(ps, limit) && limit.key != QuotaKey(route, app)
  {
    DecidedFindsItsOwn(ps, route, app);
    DisablingReaches(ps, route, app, newId, ps', limit);
    if limit.key == QuotaKey(route, app) && Found(ps, QuotaQuery(route, app)).Some? {
      OneLimit(ps, Found(ps, QuotaQuery(route, app)).value, limit);
    }
    NotFoundNotInForce(ps, route, app);
    LimitedIff(ps, QuotaKey(route, app));
  }

  lemma OfTwo(p: Plugin, p': Plugin, q: Query, newId: string, y: Plugin)
    requires p.id != p'.id && p.name == p'.name == q.name && y.id == p'.id
    requires Fits(p, q, ByRoute) != Fits(p', q, ByRoute) || Fits(p, q, ByConsumer) != Fits(p', q, ByConsumer)
    requires forall c :: Fits(p, q, c) || Fits(p', q, c)
    requires !Exact(p, q)
    ensures Found([p, p'], q) == Some(p')
    ensures Edited([p, p'], Patch(y), newId) == Some([p, y])
  {
    var l := [p, p'];
    assert l[0] == p && l[1] == p';
    PatchReachesOwn(l, 1, y, newId);
    assert l[1 := y] == [p, y];
  }

  /** A removal for (R1, B) may switch off the limit that holds for everybody on R1: when some
      quota of B stands before it. */
  lemma DisablingMayLiftARoutesLimit(r1: string, r2: string, b: string, newId: string, config: Config)
    requires r1 != "" && b != "" && r1 != r2
    ensures
      var quota := Plugin("1", RATE_LIMITING, To(r2), Unset, To(b), true, config);
      var everybody := Plugin("2", RATE_LIMITING, To(r1), Unset, Unset, true, config);
      Edited([quota, everybody], DisableEdit([quota, everybody], r1, b), newId)
      == Some([quota, everybody.(enabled := false)])
  {
    var quota := Plugin("1", RATE_LIMITING, To(r2), Unset, To(b), true, config);
    var everybody := Plugin("2", RATE_LIMITING, To(r1), Unset, Unset, true, config);
    OfTwo(quota, everybody, QuotaQuery(r1, b), newId, everybody.(enabled := false));
  }

  /** And it may switch off B's limit on a service, when some quota on R1 stands before it. */
  lemma DisablingMayLiftAServicesLimit(r1: string, a: string, b: string, service: string, newId: string, config: Config)
    requires r1 != "" && b != "" && a != b
    ensures
      var quota := Plugin("1", RATE_LIMITING, To(r1), Unset, To(a), true, config);
      var onService := Plugin("2", RATE_LIMITING, Unset, To(service), To(b), true, config);
      Edited([quota, onService], DisableEdit([quota, onService], r1, b), newId)
      == Some([quota, onService.(enabled := false)])
  {
    var quota := Plugin("1", RATE_LIMITING, To(r1), Unset, To(a), true, config);
    var onService := Plugin("2", RATE_LIMITING, Unset, To(service), To(b), true, config);
    OfTwo(quota, onService, QuotaQuery(r1, b), newId, onService.(enabled := false));
  }

  // ----- grant, then revoke -----

  lemma NamedAfterChange(ps: seq<Plugin>, i: nat, p: Plugin, name: string)
    requires i < |ps| && p.name == ps[i].name
    ensures Named(ps[i := p], name) == Named(ps, name) <==> p.name != name || p == ps[i]
  {
    var qs := ps[i := p];
    NamedAround(ps, i, name);
    NamedAround(qs, i, name);
    assert qs[..i] == ps[..i] && qs[i + 1..] == ps[i + 1..];
    if p.name == name {
      assert Named(ps, name)[|Named(ps[..i], name)|] == ps[i];
      assert Named(qs, name)[|Named(ps[..i], name)|] == p;
    }
  }

  lemma NamedAfterDrop(ps: seq<Plugin>, i: nat, name: string)
    requires i < |ps|
    ensures ps[i].name == name ==> |Named(ps[..i] + ps[i + 1..], name)| == |Named(ps, name)| - 1
    ensures ps[i].name != name ==> Named(ps[..i] + ps[i + 1..], name) == Named(ps, name)
  {
    NamedAround(ps, i, name);
    FilteredDistributes(ps[..i], ps[i + 1..], IsNamed(name));
  }

  lemma AppendThenTakeOut(s: seq<string>, x: string)
    requires x !in s
    ensures Without(s + [x], x) == s
  {
  }

  /** Granting access and then revoking it restores the acl plugins - lists, order, deny
      lists and flags - if and only if the search first finds no plugin, or finds an
      enabled one whose non-empty allow list does not name the consumer. */
  lemma GrantThenRevokeIff(
      ps: seq<Plugin>, route: string, app: string,
      id1: string, ps1: seq<Plugin>, id2: string, ps2: seq<Plugin>)
    requires UniqueIds(ps) && route != ""
    requires Edited(ps, GrantEdit(ps, route, app), id1) == Some(ps1)
    requires RevokeEdit(ps1, route, app).Some?
    requires Edited(ps1, RevokeEdit(ps1, route, app).value, id2) == Some(ps2)
    ensures
      var was := Select(ps, AclQuery(route));
      Named(ps2, ACL) == Named(ps, ACL) <==>
      was.None?
      || (ps[was.value].enabled && AllowList(ps[was.value]) != [] && app !in AllowList(ps[was.value]))
  {
    var q := AclQuery(route);
    match Select(ps, q)
    case None =>
      var n := NewPlugin(ACL, Unset, Acl([app], [], false));
      CreateAppends(ps, route, n, id1, ps1);
      SelectAfterAppend(ps, Created(route, n, id1), q);
      AppendThenTakeOut([], app);
      assert [] + [app] == [app];
      DropReachesOwn(ps1, |ps|, id2);
      assert ps2 == ps;
    case Some(i) =>
      var allow := AllowList(ps[i]);
      if app in allow {
        RevokeChanges(ps, i, route, app, id2, ps2);
      } else {
        PatchReachesOwn(ps, i, WithAllow(ps[i], allow + [app]), id1);
        SelectReadsScopesOnly(ps, ps1, q);
        AppendThenRevoke(ps, i, app, id2, ps2);
      }
  }

  lemma AppendThenRevoke(ps: seq<Plugin>, i: nat, app: string, newId: string, ps2: seq<Plugin>)
    requires UniqueIds(ps) && i < |ps| && ps[i].name == ACL && app !in AllowList(ps[i])
    requires
      var granted := WithAllow(ps[i], AllowList(ps[i]) + [app]);
      UniqueIds(ps[i := granted]) && Edited(ps[i := granted], RevokeFrom(granted, app), newId) == Some(ps2)
    ensures Named(ps2, ACL) == Named(ps, ACL) <==> ps[i].enabled && AllowList(ps[i]) != []
  {
    var allow := AllowList(ps[i]);
    var granted := WithAllow(ps[i], allow + [app]);
    var ps1 := ps[i := granted];
    AppendThenTakeOut(allow, app);
    if allow == [] {
      DropReachesOwn(ps1, i, newId);
      NamedAfterDrop(ps1, i, ACL);
      NamedAround(ps, i, ACL);
      NamedAround(ps1, i, ACL);
    } else {
      var back := WithAllow(granted, allow);
      PatchReachesOwn(ps1, i, back, newId);
      assert ps2 == ps[i := back];
      NamedAfterChange(ps, i, back, ACL);
    }
  }

  /** Revoking from a plugin that lists the consumer changes the acl plugins. */
  lemma RevokeChanges(
      ps: seq<Plugin>, i: nat, route: string, app: string, newId: string, ps': seq<Plugin>)
    requires UniqueIds(ps) && Select(ps, AclQuery(route)) == Some(i)
    requires app in AllowList(ps[i])
    requires Edited(ps, RevokeEdit(ps, route, app).value, newId) == Some(ps')
    ensures Named(ps', ACL) != Named(ps, ACL)
  {
    var rest := Without(AllowList(ps[i]), app);
    if rest == [] {
      DropReachesOwn(ps, i, newId);
      NamedAfterDrop(ps, i, ACL);
    } else {
      assert |rest| < |AllowList(ps[i])|;
      PatchReachesOwn(ps, i, WithAllow(ps[i], rest), newId);
      NamedAfterChange(ps, i, WithAllow(ps[i], rest), ACL);
    }
  }

  // ----- creation -----

  /** The agent never asks for a plugin whose name, route, service and consumer are taken. */
  lemma CreationNeverDuplicates(
      ps: seq<Plugin>, route: string, app: string, config: Config, newId: string, e: Edit, p: Plugin)
    requires route != "" && app != "" && p in ps
    requires e.Create? && (e == GrantEdit(ps, route, app) || e == QuotaEdit(ps, route, app, config))
    ensures e.route == route && !SameKey(p, Created(route, e.plugin, newId))
  {
  }

  /** No two plugins share name, route, service and consumer. */
  ghost predicate UniqueKeys(ps: seq<Plugin>) {
    forall i, j :: 0 <= i < j < |ps| ==> !SameKey(ps[i], ps[j])
  }

  /** So grants and quotas keep names and scopes unique. */
  lemma KeysStayUnique(
      ps: seq<Plugin>, route: string, app: string, config: Config, newId: string, e: Edit, ps': seq<Plugin>)
    requires UniqueIds(ps) && UniqueKeys(ps) && route != "" && app != ""
    requires e == GrantEdit(ps, route, app) || e == QuotaEdit(ps, route, app, config)
    requires Edited(ps, e, newId) == Some(ps')
    ensures UniqueKeys(ps')
  {
    if e.Create? {
      forall p | p in ps ensures !SameKey(p, Created(route, e.plugin, newId)) {
        CreationNeverDuplicates(ps, route, app, config, newId, e, p);
      }
    } else if e.Patch? {
      var i := if e == GrantEdit(ps, route, app) then Select(ps, AclQuery(route)).value
               else Select(ps, QuotaQuery(route, app)).value;
      PatchReachesOwn(ps, i, e.patched, newId);
    }
  }

  // ----- what edits leave alone -----

  /** An edit of acl plugins only. */
  ghost predicate AclEdit(ps: seq<Plugin>, e: Edit) {
    match e
    case Keep => true
    case Create(_, n) => n.name == ACL
    case Drop(id) => exists i :: 0 <= i < |ps| && ps[i].name == ACL && ps[i].id == id
    case Patch(p) => p.name == ACL && exists i :: 0 <= i < |ps| && ps[i].name == ACL && ps[i].id == p.id
  }

  /** An edit of a rate-limiting plugin's enabled flag only. */
  ghost predicate FlagEdit(ps: seq<Plugin>, e: Edit) {
    || e.Keep?
    || (e.Patch? && exists i, on :: 0 <= i < |ps| && ps[i].name == RATE_LIMITING
                                    && e.patched == ps[i].(enabled := on))
  }

  lemma EditKinds(ps: seq<Plugin>, route: string, app: string, config: Config)
    ensures AclEdit(ps, GrantEdit(ps, route, app))
    ensures RevokeEdit(ps, route, app).Some? ==> AclEdit(ps, RevokeEdit(ps, route, app).value)
    ensures FlagEdit(ps, DisableEdit(ps, route, app))
    ensures FlagEdit(ps, QuotaEdit(ps, route, app, config))
            || QuotaEdit(ps, route, app, config) == Create(route, NewPlugin(RATE_LIMITING, To(app), config))
  {
  }

  lemma MembersAfterChange(ps: seq<Plugin>, i: nat, p: Plugin, x: Plugin)
    requires i < |ps|
    ensures x in ps ==> x in ps[i := p] || x == ps[i]
    ensures x in ps[i := p] ==> x in ps || x == p
    ensures p in ps[i := p]
  {
    assert ps[i := p][i] == p;
    if x in ps {
      var j :| 0 <= j < |ps| && ps[j] == x;
      assert ps[i := p][j] == if j == i then p else x;
    }
  }

  lemma AclEditKeepsNamed(ps: seq<Plugin>, e: Edit, newId: string, ps': seq<Plugin>, name: string)
    requires UniqueIds(ps) && AclEdit(ps, e) && Edited(ps, e, newId) == Some(ps') && name != ACL
    ensures UniqueIds(ps') && Named(ps', name) == Named(ps, name)
  {
    match e
    case Keep =>
    case Create(route, n) =>
      CreateAppends(ps, route, n, newId, ps');
      NamedOneMore(ps, Created(route, n, newId), name);
    case Drop(id) =>
      var i :| 0 <= i < |ps| && ps[i].name == ACL && ps[i].id == id;
      DropReachesOwn(ps, i, newId);
      NamedAfterDrop(ps, i, name);
    case Patch(p) =>
      var i :| 0 <= i < |ps| && ps[i].name == ACL && ps[i].id == p.id;
      PatchReachesOwn(ps, i, p, newId);
      NamedAfterChange(ps, i, p, name);
  }

  lemma AclEditKeepsOthers(ps: seq<Plugin>, e: Edit, newId: string, ps': seq<Plugin>, x: Plugin)
    requires UniqueIds(ps) && AclEdit(ps, e) && Edited(ps, e, newId) == Some(ps') && x.name != ACL
    ensures UniqueIds(ps') && (x in ps <==> x in ps')
  {
    AclEditKeepsNamed(ps, e, newId, ps', x.name);
    assert x in Named(ps, x.name) <==> x in ps;
  }

  /** What matters for quotas is the rate-limiting plugins. */
  lemma QuotasByName(ps: seq<Plugin>, ps': seq<Plugin>)
    requires Named(ps', RATE_LIMITING) == Named(ps, RATE_LIMITING)
    ensures forall p: Plugin :: p.name == RATE_LIMITING ==> (p in ps' <==> p in ps)
    ensures forall limit :: InForce(ps', limit) <==> InForce(ps, limit)
    ensures forall key :: Limited(ps', key) <==> Limited(ps, key)
    ensures QuotasDiffer(ps') <==> QuotasDiffer(ps)
  {
  }

  /** The plugin is there, the same but perhaps for its enabled flag. */
  predicate Persists(x: Plugin, ps: seq<Plugin>) {
    x.(enabled := true) in ps || x.(enabled := false) in ps
  }

  /** Every plugin of either listing that is not an acl is in the other, up to the flag. */
  ghost predicate FlagsOnly(ps: seq<Plugin>, ps': seq<Plugin>) {
    && (forall x :: x in ps && x.name != ACL ==> Persists(x, ps'))
    && (forall x :: x in ps' && x.name != ACL ==> Persists(x, ps))
  }

  lemma SelfPersists(x: Plugin, ps: seq<Plugin>)
    requires x in ps
    ensures Persists(x, ps)
  {
  }

  lemma AclEditFlagsOnly(ps: seq<Plugin>, e: Edit, newId: string, ps': seq<Plugin>)
    requires UniqueIds(ps) && AclEdit(ps, e) && Edited(ps, e, newId) == Some(ps')
    ensures UniqueIds(ps') && FlagsOnly(ps, ps')
  {
    forall x: Plugin | x.name != ACL
      ensures UniqueIds(ps') && (x in ps ==> Persists(x, ps')) && (x in ps' ==> Persists(x, ps))
    {
      AclEditKeepsOthers(ps, e, newId, ps', x);
      if x in ps {
        SelfPersists(x, ps);
        SelfPersists(x, ps');
      }
    }
    AclEditKeepsOthers(ps, e, newId, ps', Plugin("", "", Unset, Unset, Unset, true, Other("")));
  }

  lemma FlagChangePersists(ps: seq<Plugin>, i: nat, on: bool, x: Plugin)
    requires i < |ps|
    ensures x in ps ==> Persists(x, ps[i := ps[i].(enabled := on)])
    ensures x in ps[i := ps[i].(enabled := on)] ==> Persists(x, ps)
  {
    var p := ps[i].(enabled := on);
    MembersAfterChange(ps, i, p, x);
    if x in ps && x in ps[i := p] {
      SelfPersists(x, ps);
      SelfPersists(x, ps[i := p]);
    } else if x in ps {
      assert p == x.(enabled := on);
    } else if x in ps[i := p] {
      SelfPersists(ps[i], ps);
    }
  }

  lemma FlagEditFlagsOnly(ps: seq<Plugin>, e: Edit, newId: string, ps': seq<Plugin>)
    requires UniqueIds(ps) && FlagEdit(ps, e) && Edited(ps, e, newId) == Some(ps')
    ensures UniqueIds(ps') && FlagsOnly(ps, ps') && Named(ps', ACL) == Named(ps, ACL)
  {
    if e.Keep? {
      forall x | x in ps ensures Persists(x, ps) {
        SelfPersists(x, ps);
      }
    } else {
      var i, on :| 0 <= i < |ps| && ps[i].name == RATE_LIMITING && e.patched == ps[i].(enabled := on);
      PatchReachesOwn(ps, i, e.patched, newId);
      NamedAfterChange(ps, i, e.patched, ACL);
      forall x ensures (x in ps ==> Persists(x, ps')) && (x in ps' ==> Persists(x, ps)) {
        FlagChangePersists(ps, i, on, x);
      }
    }
  }

  /** The flag edit was computed from an older listing that differs in acl plugins only. */
  lemma FlagEditSurvives(ps: seq<Plugin>, e: Edit, newId: string, ps1: seq<Plugin>, f: Edit)
    requires UniqueIds(ps) && AclEdit(ps, e) && Edited(ps, e, newId) == Some(ps1) && FlagEdit(ps, f)
    ensures FlagEdit(ps1, f)
  {
    if f.Patch? {
      var i, on :| 0 <= i < |ps| && ps[i].name == RATE_LIMITING && f.patched == ps[i].(enabled := on);
      AclEditKeepsOthers(ps, e, newId, ps1, ps[i]);
      assert ps[i] in ps;
      var j :| 0 <= j < |ps1| && ps1[j] == ps[i];
    }
  }

  lemma FlagEditKeepsAllowed(ps: seq<Plugin>, e: Edit, newId: string, ps': seq<Plugin>)
    requires UniqueIds(ps) && FlagEdit(ps, e) && Edited(ps, e, newId) == Some(ps')
    ensures RouteAclsOnly(ps) ==> RouteAclsOnly(ps')
    ensures forall r :: Allowed(ps', r) == Allowed(ps, r)
  {
    if e.Patch? {
      var i, on :| 0 <= i < |ps| && ps[i].name == RATE_LIMITING && e.patched == ps[i].(enabled := on);
      FlagEditKeepsAcls(ps, i, on, newId, ps');
    }
  }

  // ----- rate-limiting plugins stay apart -----

  lemma FlagsOnlyKeepsDiffer(ps: seq<Plugin>, ps': seq<Plugin>)
    requires UniqueIds(ps') && FlagsOnly(ps, ps') && QuotasDiffer(ps)
    ensures QuotasDiffer(ps')
  {
    forall p, p' | p in ps' && p' in ps' && p.name == RATE_LIMITING && SameKey(p, p') ensures p == p' {
      var x := if p.(enabled := true) in ps then p.(enabled := true) else p.(enabled := false);
      var x' := if p'.(enabled := true) in ps then p'.(enabled := true) else p'.(enabled := false);
      assert x in ps && x' in ps && SameKey(x, x');
      assert p.id == p'.id;
      var i, j :| 0 <= i < |ps'| && 0 <= j < |ps'| && ps'[i] == p && ps'[j] == p';
    }
  }

  lemma QuotaEditKeepsDiffer(
      ps: seq<Plugin>, route: string, app: string, config: Config, newId: string, ps': seq<Plugin>)
    requires UniqueIds(ps) && QuotasDiffer(ps) && route != "" && app != ""
    requires Edited(ps, QuotaEdit(ps, route, app, config), newId) == Some(ps')
    ensures QuotasDiffer(ps')
  {
    var e := QuotaEdit(ps, route, app, config);
    if e.Create? {
      CreateAppends(ps, route, e.plugin, newId, ps');
      var y := Created(route, e.plugin, newId);
      forall p | p in ps ensures !SameKey(p, y) {
        CreationNeverDuplicates(ps, route, app, config, newId, e, p);
      }
    } else {
      EditKinds(ps, route, app, config);
      FlagEditFlagsOnly(ps, e, newId, ps');
      FlagsOnlyKeepsDiffer(ps, ps');
    }
  }
}
