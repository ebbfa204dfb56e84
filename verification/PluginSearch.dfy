/**
 Choosing one plugin from a listing (`getSpecificPlugin`).

 The source keeps three match flags that are never reset between plugins, so the
 plugin it returns need not match all three criteria itself. The meaning of the
 search is given here by three independent first-match searches: the loop returns
 the last of the three first matches.
 */
module PluginSearch {
  import opened KongStore
  import opened Sequences

  /** An empty string asks for a plugin without that reference. */
  datatype Query = Query(name: string, service: string, route: string, consumer: string)

  datatype Criterion = ByService | ByRoute | ByConsumer

  predicate Meets(wanted: string, have: Scope) {
    if wanted == "" then have.Unset? else have == To(wanted)
  }

  predicate Fits(p: Plugin, q: Query, c: Criterion) {
    && p.name == q.name
    && match c
       case ByService => Meets(q.service, p.service)
       case ByRoute => Meets(q.route, p.route)
       case ByConsumer => Meets(q.consumer, p.consumer)
  }

  /** The plugin is scoped exactly as asked. */
  predicate Exact(p: Plugin, q: Query) {
    Fits(p, q, ByService) && Fits(p, q, ByRoute) && Fits(p, q, ByConsumer)
  }

  /** The scope a query asks for. */
  function Wanted(id: string): Scope {
    if id == "" then Unset else To(id)
  }

  function KeyFor(q: Query): Key {
    Key(Wanted(q.route), Wanted(q.service), Wanted(q.consumer))
  }

  lemma ExactIsKey(p: Plugin, q: Query)
    ensures Exact(p, q) <==> p.name == q.name && KeyOf(p) == KeyFor(q)
  {
  }

  function FirstFit(ps: seq<Plugin>, q: Query, c: Criterion): (r: Option<nat>)
    ensures r.Some? ==> r.value < |ps| && Fits(ps[r.value], q, c)
    ensures r.Some? ==> forall j :: 0 <= j < r.value ==> !Fits(ps[j], q, c)
    ensures r.None? ==> forall j :: 0 <= j < |ps| ==> !Fits(ps[j], q, c)
  {
    if |ps| == 0 then None
    else
      var front := ps[..|ps| - 1];
      match FirstFit(front, q, c)
      case Some(i) => Some(i)
      case None => if Fits(ps[|ps| - 1], q, c) then Some(|ps| - 1) else None
  }

  function Latest(a: Option<nat>, b: Option<nat>): Option<nat> {
    if a.Some? && b.Some? then Some(if a.value < b.value then b.value else a.value) else None
  }

  /** What the search returns: the last of the three first matches. */
  function Select(ps: seq<Plugin>, q: Query): (r: Option<nat>)
    ensures r.Some? ==> r.value < |ps| && ps[r.value].name == q.name
  {
    Latest(FirstFit(ps, q, ByService), Latest(FirstFit(ps, q, ByRoute), FirstFit(ps, q, ByConsumer)))
  }

  /** Some plugin before position n fits the criterion. */
  ghost predicate Seen(ps: seq<Plugin>, q: Query, c: Criterion, n: nat) {
    exists j :: 0 <= j < n && j < |ps| && Fits(ps[j], q, c)
  }

  /** The loop as written, with its three persistent flags. */
  method GetSpecificPlugin(plugins: seq<Plugin>, q: Query) returns (found: Option<nat>)
    ensures found == Select(plugins, q)
  {
    var serviceMatch, routeMatch, consumerMatch := false, false, false;
    for i := 0 to |plugins|
      invariant serviceMatch == Seen(plugins, q, ByService, i)
      invariant routeMatch == Seen(plugins, q, ByRoute, i)
      invariant consumerMatch == Seen(plugins, q, ByConsumer, i)
      invariant !(serviceMatch && routeMatch && consumerMatch)
    {
      var plugin := plugins[i];
      if plugin.name != q.name {
        continue;
      }
      if (q.consumer == "" && plugin.consumer.Unset?) || (q.consumer != "" && plugin.consumer == To(q.consumer)) {
        consumerMatch := true;
      }
      if (q.route == "" && plugin.route.Unset?) || (q.route != "" && plugin.route == To(q.route)) {
        routeMatch := true;
      }
      if (q.service == "" && plugin.service.Unset?) || (q.service != "" && plugin.service == To(q.service)) {
        serviceMatch := true;
      }
      if serviceMatch && routeMatch && consumerMatch {
        AllSeenBySelect(plugins, q, i);
        AllSeenBySelect(plugins, q, i + 1);
        return Some(i);
      }
    }
    AllSeenBySelect(plugins, q, |plugins|);
    return None;
  }

  ghost predicate AllSeen(ps: seq<Plugin>, q: Query, n: nat) {
    Seen(ps, q, ByService, n) && Seen(ps, q, ByRoute, n) && Seen(ps, q, ByConsumer, n)
  }

  lemma AllSeenBySelect(ps: seq<Plugin>, q: Query, n: nat)
    requires n <= |ps|
    ensures AllSeen(ps, q, n) <==> Select(ps, q).Some? && Select(ps, q).value < n
  {
  }

  // ----- what the search means -----

  function FirstExact(ps: seq<Plugin>, q: Query): (r: Option<nat>)
    ensures r.Some? ==> r.value < |ps| && Exact(ps[r.value], q)
    ensures r.Some? ==> forall j :: 0 <= j < r.value ==> !Exact(ps[j], q)
    ensures r.None? ==> forall j :: 0 <= j < |ps| ==> !Exact(ps[j], q)
  {
    if |ps| == 0 then None
    else
      var front := ps[..|ps| - 1];
      match FirstExact(front, q)
      case Some(i) => Some(i)
      case None => if Exact(ps[|ps| - 1], q) then Some(|ps| - 1) else None
  }

  /** The plugins of the wanted name up to i jointly meet all three criteria. */
  ghost predicate JointlyMet(ps: seq<Plugin>, q: Query, i: nat) {
    i < |ps| && ps[i].name == q.name && AllSeen(ps, q, i + 1)
  }

  /** The search returns the first plugin at which the same-name plugins listed so far
      jointly match, and nothing exactly when there is no such plugin. */
  lemma SelectIsFirstJointMatch(ps: seq<Plugin>, q: Query)
    ensures Select(ps, q).Some? ==> JointlyMet(ps, q, Select(ps, q).value)
    ensures Select(ps, q).Some? ==> forall j: nat :: j < Select(ps, q).value ==> !JointlyMet(ps, q, j)
    ensures Select(ps, q).None? ==> forall j: nat :: !JointlyMet(ps, q, j)
  {
  }

  /** "Not found" means no exact match exists, and the search never runs past one. */
  lemma SelectNeverPassesExact(ps: seq<Plugin>, q: Query, j: nat)
    requires j < |ps| && Exact(ps[j], q)
    ensures Select(ps, q).Some? && Select(ps, q).value <= j
  {
  }

  /** The search is the exact search if and only if the listed plugins never meet the three
      criteria jointly before one of them meets all three itself. */
  lemma SelectIsExactSearchIff(ps: seq<Plugin>, q: Query)
    ensures Select(ps, q) == FirstExact(ps, q) <==>
            forall i: nat :: JointlyMet(ps, q, i) ==> exists j :: 0 <= j <= i && Exact(ps[j], q)
  {
    SelectIsFirstJointMatch(ps, q);
    if Select(ps, q).Some? && Select(ps, q) == FirstExact(ps, q) {
      forall i: nat | JointlyMet(ps, q, i) ensures exists j :: 0 <= j <= i && Exact(ps[j], q) {
        assert Select(ps, q).value <= i;
      }
    }
    if Select(ps, q).Some? && Select(ps, q) != FirstExact(ps, q) {
      assert JointlyMet(ps, q, Select(ps, q).value);
    }
  }

  /** A criterion that already implies the other two. */
  ghost predicate Decides(ps: seq<Plugin>, q: Query, c: Criterion) {
    forall p :: p in ps && Fits(p, q, c) ==> Exact(p, q)
  }

  lemma DecidedSearchIsExact(ps: seq<Plugin>, q: Query, c: Criterion)
    requires Decides(ps, q, c)
    ensures Select(ps, q) == FirstExact(ps, q)
  {
  }

  // ----- the search reads one name only -----

  function IsNamed(name: string): Plugin -> bool {
    (p: Plugin) => p.name == name
  }

  /** The plugins of one name, in their order. */
  function Named(ps: seq<Plugin>, name: string): seq<Plugin> {
    Filtered(ps, IsNamed(name))
  }

  lemma NamedAround(ps: seq<Plugin>, i: nat, name: string)
    requires i < |ps|
    ensures Named(ps, name)
            == Named(ps[..i], name) + (if ps[i].name == name then [ps[i]] else []) + Named(ps[i + 1..], name)
  {
    var rest := [ps[i]] + ps[i + 1..];
    assert ps == ps[..i] + rest;
    FilteredDistributes(ps[..i], rest, IsNamed(name));
    FilteredDistributes([ps[i]], ps[i + 1..], IsNamed(name));
    assert Filtered([ps[i]], IsNamed(name)) == if ps[i].name == name then [ps[i]] else [];
  }

  function Found(ps: seq<Plugin>, q: Query): (r: Option<Plugin>)
    ensures r.Some? <==> Select(ps, q).Some?
    ensures r.Some? ==> r.value in ps && r.value.name == q.name
  {
    match Select(ps, q)
    case None => None
    case Some(i) => Some(ps[i])
  }

  ghost predicate SomeFits(ps: seq<Plugin>, q: Query, c: Criterion) {
    exists p :: p in ps && Fits(p, q, c)
  }

  lemma FoundOneMore(ps: seq<Plugin>, p: Plugin, q: Query)
    ensures Found(ps + [p], q)
            == if Found(ps, q).Some? then Found(ps, q)
               else if forall c :: SomeFits(ps + [p], q, c) then Some(p) else None
  {
    var l := ps + [p];
    assert l[..|l| - 1] == ps && l[|ps|] == p;
    SelectAfterAppend(ps, p, q);
    forall c ensures FirstFit(l, q, c).Some? <==> SomeFits(l, q, c) {
      if SomeFits(l, q, c) {
        var x :| x in l && Fits(x, q, c);
      }
    }
    if Select(ps, q).None? && Select(l, q).Some? {
      SelectIsFirstJointMatch(ps, q);
      AllSeenBySelect(l, q, |ps|);
      AllSeenBySelect(ps, q, |ps|);
    }
  }

  lemma SomeFitsByName(ps: seq<Plugin>, q: Query, c: Criterion)
    ensures SomeFits(ps, q, c) <==> SomeFits(Named(ps, q.name), q, c)
  {
  }

  lemma NamedOneMore(ps: seq<Plugin>, p: Plugin, name: string)
    ensures Named(ps + [p], name) == Named(ps, name) + if p.name == name then [p] else []
  {
    FilteredDistributes(ps, [p], IsNamed(name));
  }

  lemma FoundAlike(a: seq<Plugin>, b: seq<Plugin>, p: Plugin, q: Query)
    requires Found(a, q) == Found(b, q)
    requires forall c :: SomeFits(a + [p], q, c) <==> SomeFits(b + [p], q, c)
    ensures Found(a + [p], q) == Found(b + [p], q)
  {
    FoundOneMore(a, p, q);
    FoundOneMore(b, p, q);
  }

  lemma FoundByNameOneMore(ps: seq<Plugin>, p: Plugin, q: Query)
    requires Found(ps, q) == Found(Named(ps, q.name), q)
    ensures Found(ps + [p], q) == Found(Named(ps + [p], q.name), q)
  {
    NamedOneMore(ps, p, q.name);
    var named := Named(ps, q.name);
    if p.name == q.name {
      forall c ensures SomeFits(ps + [p], q, c) <==> SomeFits(named + [p], q, c) {
        SomeFitsByName(ps + [p], q, c);
      }
      FoundAlike(ps, named, p, q);
    } else {
      SelectAfterAppend(ps, p, q);
      assert Named(ps + [p], q.name) == named;
    }
  }

  lemma {:induction false} FoundByNameMore(ps: seq<Plugin>, more: seq<Plugin>, q: Query)
    requires Found(ps, q) == Found(Named(ps, q.name), q)
    ensures Found(ps + more, q) == Found(Named(ps + more, q.name), q)
    decreases |more|
  {
    if |more| == 0 {
      assert ps + more == ps;
    } else {
      FoundByNameOneMore(ps, more[0], q);
      FoundByNameMore(ps + [more[0]], more[1..], q);
      ShiftHead(ps, more);
    }
  }

  /** The search finds what it would find if no plugin of another name were listed. */
  lemma FoundByName(ps: seq<Plugin>, q: Query)
    ensures Found(ps, q) == Found(Named(ps, q.name), q)
  {
    assert Named([], q.name) == [];
    FoundByNameMore([], ps, q);
    assert [] + ps == ps;
  }

  // ----- the search under edits -----

  /** Same names and scopes, position by position. */
  ghost predicate SameScopes(ps: seq<Plugin>, qs: seq<Plugin>) {
    && |ps| == |qs|
    && forall i :: 0 <= i < |ps| ==>
         && ps[i].name == qs[i].name && ps[i].route == qs[i].route
         && ps[i].service == qs[i].service && ps[i].consumer == qs[i].consumer
  }

  lemma FirstFitReadsScopesOnly(ps: seq<Plugin>, qs: seq<Plugin>, q: Query, c: Criterion)
    requires SameScopes(ps, qs)
    ensures FirstFit(ps, q, c) == FirstFit(qs, q, c)
  {
  }

  lemma SelectReadsScopesOnly(ps: seq<Plugin>, qs: seq<Plugin>, q: Query)
    requires SameScopes(ps, qs)
    ensures Select(ps, q) == Select(qs, q)
  {
    FirstFitReadsScopesOnly(ps, qs, q, ByService);
    FirstFitReadsScopesOnly(ps, qs, q, ByRoute);
    FirstFitReadsScopesOnly(ps, qs, q, ByConsumer);
  }

  lemma SelectAfterAppend(ps: seq<Plugin>, p: Plugin, q: Query)
    ensures Select(ps, q).Some? ==> Select(ps + [p], q) == Select(ps, q)
    ensures Select(ps, q).None? && Exact(p, q) ==> Select(ps + [p], q) == Some(|ps|)
    ensures p.name != q.name ==> Select(ps + [p], q) == Select(ps, q)
  {
  }
}
