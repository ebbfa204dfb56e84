/**
 The plugins in effect for a route of a service (`GetEffectivePlugins`): of each name,
 the most specific enabled plugin that applies.
 */
module EffectivePlugins {
  import opened KongStore

  /** A missing argument is a nil pointer in the source. */
  function MostSpecific(p1: Option<Plugin>, p2: Option<Plugin>): (r: Option<Plugin>)
    ensures r.None? <==> p1.None? && p2.None?
  {
    if p1.None? then p2
    else if p2.None? then p1
    else if !p1.value.service.Unset? && !p1.value.route.Unset? then p1
    else if !p2.value.service.Unset? && !p2.value.route.Unset? then p2
    else if !p1.value.route.Unset? then p1
    else if !p2.value.route.Unset? then p2
    else if !p1.value.service.Unset? then p1
    else if !p2.value.service.Unset? then p2
    else p2
  }

  predicate Applies(p: Plugin, routeID: string, serviceID: string) {
    && (p.route.Unset? || p.route == To(routeID))
    && (p.service.Unset? || p.service == To(serviceID))
    && p.enabled
  }

  function Lookup(m: map<string, Plugin>, name: string): Option<Plugin> {
    if name in m then Some(m[name]) else None
  }

  function Effective(ps: seq<Plugin>, routeID: string, serviceID: string): map<string, Plugin> {
    if |ps| == 0 then map[]
    else
      var m, p := Effective(ps[..|ps| - 1], routeID, serviceID), ps[|ps| - 1];
      if Applies(p, routeID, serviceID) then m[p.name := MostSpecific(Lookup(m, p.name), Some(p)).value] else m
  }

  /** The loop over the listing; a listing that failed is an error. */
  method GetEffectivePlugins(listed: Option<seq<Plugin>>, routeID: string, serviceID: string)
    returns (r: Option<map<string, Plugin>>)
    ensures r == if listed.None? then None else Some(Effective(listed.value, routeID, serviceID))
  {
    if listed.None? {
      return None;
    }
    var plugins := listed.value;
    var pmap: map<string, Plugin> := map[];
    for i := 0 to |plugins|
      invariant pmap == Effective(plugins[..i], routeID, serviceID)
    {
      var plugin := plugins[i];
      assert plugins[..i + 1][..i] == plugins[..i];
      if || (!plugin.route.Unset? && (plugin.route.NoId? || plugin.route.id != routeID))
         || (!plugin.service.Unset? && (plugin.service.NoId? || plugin.service.id != serviceID))
         || !plugin.enabled {
        continue;
      }
      var best := MostSpecific(if plugin.name in pmap then Some(pmap[plugin.name]) else None, Some(plugin));
      pmap := pmap[plugin.name := best.value];
    }
    assert plugins[..|plugins|] == plugins;
    return Some(pmap);
  }

  // ----- most specific is an order -----

  /** Route and service, then route, then service, then neither. */
  function Rank(p: Plugin): nat {
    if !p.route.Unset? && !p.service.Unset? then 3
    else if !p.route.Unset? then 2
    else if !p.service.Unset? then 1
    else 0
  }

  /** The higher rank wins; of equals the first, but of two global plugins the second. */
  lemma MostSpecificByRank(a: Plugin, b: Plugin)
    ensures MostSpecific(Some(a), Some(b))
            == Some(if Rank(b) > Rank(a) || (Rank(a) == 0 && Rank(b) == 0) then b else a)
  {
  }

  lemma MostSpecificIsMonoid(a: Option<Plugin>, b: Option<Plugin>, c: Option<Plugin>)
    ensures MostSpecific(a, None) == a && MostSpecific(None, a) == a
    ensures MostSpecific(MostSpecific(a, b), c) == MostSpecific(a, MostSpecific(b, c))
  {
  }

  // ----- the result is an argmax -----

  predicate Concerns(reference: Scope, id: string) {
    reference == Unset || reference == To(id)
  }

  /** Enabled, for that route or for none, and for that service or for none. */
  predicate Qualifies(p: Plugin, routeID: string, serviceID: string) {
    p.enabled && Concerns(p.route, routeID) && Concerns(p.service, serviceID)
  }

  ghost predicate Candidate(ps: seq<Plugin>, i: nat, name: string, routeID: string, serviceID: string) {
    i < |ps| && ps[i].name == name && Qualifies(ps[i], routeID, serviceID)
  }

  /** Plugin i outranks every other candidate of its name, or ties with it and comes first;
      of tied global plugins the last one does. */
  ghost predicate Wins(ps: seq<Plugin>, i: nat, name: string, routeID: string, serviceID: string) {
    && Candidate(ps, i, name, routeID, serviceID)
    && forall j: nat :: Candidate(ps, j, name, routeID, serviceID) ==>
         || Rank(ps[j]) < Rank(ps[i])
         || (Rank(ps[j]) == Rank(ps[i]) && if Rank(ps[i]) == 0 then j <= i else i <= j)
  }

  lemma CandidatesOfFront(ps: seq<Plugin>, i: nat, name: string, routeID: string, serviceID: string)
    requires |ps| > 0
    ensures Candidate(ps, i, name, routeID, serviceID) <==>
            || Candidate(ps[..|ps| - 1], i, name, routeID, serviceID)
            || (i == |ps| - 1 && ps[i].name == name && Qualifies(ps[i], routeID, serviceID))
  {
  }

  /** For each name: there is an effective plugin exactly when a plugin of that name is
      enabled and applies, and it is the winning one. */
  lemma {:induction false} EffectiveIsArgmax(ps: seq<Plugin>, routeID: string, serviceID: string, name: string)
    ensures name in Effective(ps, routeID, serviceID) <==> exists i: nat :: Candidate(ps, i, name, routeID, serviceID)
    ensures name in Effective(ps, routeID, serviceID) ==>
              exists i: nat :: Wins(ps, i, name, routeID, serviceID) && Effective(ps, routeID, serviceID)[name] == ps[i]
  {
    if |ps| > 0 {
      var n := |ps| - 1;
      var front, p := ps[..n], ps[n];
      EffectiveIsArgmax(front, routeID, serviceID, name);
      forall i: nat
        ensures Candidate(ps, i, name, routeID, serviceID) <==>
                Candidate(front, i, name, routeID, serviceID) || (i == n && Candidate(ps, n, name, routeID, serviceID))
      {
        CandidatesOfFront(ps, i, name, routeID, serviceID);
      }
      var before := Effective(front, routeID, serviceID);
      if Candidate(ps, n, name, routeID, serviceID) {
        if name in before {
          var i: nat :| Wins(front, i, name, routeID, serviceID) && before[name] == front[i];
          MostSpecificByRank(front[i], p);
          var winner := if Rank(p) > Rank(front[i]) || (Rank(front[i]) == 0 && Rank(p) == 0) then n else i;
          assert Wins(ps, winner, name, routeID, serviceID);
        } else {
          assert Wins(ps, n, name, routeID, serviceID);
        }
      } else if name in before {
        var i: nat :| Wins(front, i, name, routeID, serviceID) && before[name] == front[i];
        assert Wins(ps, i, name, routeID, serviceID);
      }
    }
  }

  /** The effective plugins of two listings one after the other are those of each, merged
      name by name. */
  lemma {:induction false} EffectiveMerges(
      a: seq<Plugin>, b: seq<Plugin>, routeID: string, serviceID: string, name: string)
    ensures Lookup(Effective(a + b, routeID, serviceID), name)
            == MostSpecific(
                 Lookup(Effective(a, routeID, serviceID), name), Lookup(Effective(b, routeID, serviceID), name))
  {
    if |b| == 0 {
      assert a + b == a;
    } else {
      var front, p := b[..|b| - 1], b[|b| - 1];
      EffectiveMerges(a, front, routeID, serviceID, name);
      assert (a + b)[..|a + b| - 1] == a + front && (a + b)[|a + b| - 1] == p;
      MostSpecificIsMonoid(
        Lookup(Effective(a, routeID, serviceID), name), Lookup(Effective(front, routeID, serviceID), name), Some(p));
    }
  }

  /** No two different qualified plugins of one name share a rank. */
  ghost predicate DistinctRanks(ps: seq<Plugin>, routeID: string, serviceID: string) {
    forall p, q ::
      p in ps && q in ps && p != q && p.name == q.name
      && Qualifies(p, routeID, serviceID) && Qualifies(q, routeID, serviceID)
      ==> Rank(p) != Rank(q)
  }

  lemma EffectiveOutranks(ps: seq<Plugin>, routeID: string, serviceID: string, q: Plugin)
    requires q in ps && Qualifies(q, routeID, serviceID)
    ensures q.name in Effective(ps, routeID, serviceID)
    ensures
      var e := Effective(ps, routeID, serviceID)[q.name];
      e in ps && e.name == q.name && Qualifies(e, routeID, serviceID) && Rank(q) <= Rank(e)
  {
    var j: nat :| j < |ps| && ps[j] == q;
    assert Candidate(ps, j, q.name, routeID, serviceID);
    EffectiveIsArgmax(ps, routeID, serviceID, q.name);
  }

  /** Then the order in which Kong lists the plugins does not matter. */
  lemma ListingOrderIsIrrelevant(a: seq<Plugin>, b: seq<Plugin>, routeID: string, serviceID: string)
    requires forall p :: p in a <==> p in b
    requires DistinctRanks(a, routeID, serviceID)
    ensures Effective(a, routeID, serviceID) == Effective(b, routeID, serviceID)
  {
    var ea, eb := Effective(a, routeID, serviceID), Effective(b, routeID, serviceID);
    forall name ensures Lookup(ea, name) == Lookup(eb, name) {
      EffectiveIsArgmax(a, routeID, serviceID, name);
      EffectiveIsArgmax(b, routeID, serviceID, name);
      if name in ea {
        EffectiveOutranks(b, routeID, serviceID, ea[name]);
      }
      if name in eb {
        EffectiveOutranks(a, routeID, serviceID, eb[name]);
      }
    }
    assert forall name :: name in ea <==> Lookup(ea, name).Some?;
    assert forall name :: name in eb <==> Lookup(eb, name).Some?;
    assert ea.Keys == eb.Keys;
    assert forall name :: name in ea ==> Lookup(ea, name).value == ea[name] && Lookup(eb, name).value == eb[name];
  }

  // ----- what applies, and what is most specific -----

  /** There is an effective plugin of a name if and only if one of that name is listed that is
      enabled, is for that route or for none, and for that service or for none; and the
      effective one is such a plugin. */
  lemma EffectiveIff(ps: seq<Plugin>, routeID: string, serviceID: string, name: string)
    ensures name in Effective(ps, routeID, serviceID) <==>
            exists p :: p in ps && p.name == name && p.enabled && Concerns(p.route, routeID)
                        && Concerns(p.service, serviceID)
    ensures name in Effective(ps, routeID, serviceID) ==>
              var e := Effective(ps, routeID, serviceID)[name];
              e in ps && e.name == name && e.enabled && Concerns(e.route, routeID) && Concerns(e.service, serviceID)
  {
    EffectiveIsArgmax(ps, routeID, serviceID, name);
    forall p | p in ps && p.name == name && p.enabled && Concerns(p.route, routeID) && Concerns(p.service, serviceID)
      ensures name in Effective(ps, routeID, serviceID)
    {
      EffectiveOutranks(ps, routeID, serviceID, p);
    }
  }

  /** The effective plugin is for the route and the service if any that applies is, else for
      the route if any is, else for the service if any is. */
  lemma MostSpecificWins(ps: seq<Plugin>, routeID: string, serviceID: string, p: Plugin)
    requires p in ps && p.enabled && Concerns(p.route, routeID) && Concerns(p.service, serviceID)
    ensures p.name in Effective(ps, routeID, serviceID)
    ensures
      var e := Effective(ps, routeID, serviceID)[p.name];
      && (p.route == To(routeID) ==> e.route == To(routeID))
      && (p.route == To(routeID) && p.service == To(serviceID) ==> e.service == To(serviceID))
      && (p.service == To(serviceID) && e.route == Unset ==> e.service == To(serviceID))
  {
    EffectiveOutranks(ps, routeID, serviceID, p);
    EffectiveIff(ps, routeID, serviceID, p.name);
  }

  /** Of those equally specific the one listed first, of global ones the one listed last. */
  lemma TiesByOrder(ps: seq<Plugin>, routeID: string, serviceID: string, name: string) returns (i: nat)
    requires name in Effective(ps, routeID, serviceID)
    ensures i < |ps| && ps[i] == Effective(ps, routeID, serviceID)[name]
    ensures forall j :: 0 <= j < |ps| && ps[j].name == name && ps[j].enabled
                        && ps[j].route == ps[i].route && ps[j].service == ps[i].service ==>
              if ps[i].route == Unset && ps[i].service == Unset then j <= i else i <= j
  {
    EffectiveIsArgmax(ps, routeID, serviceID, name);
    i :| Wins(ps, i, name, routeID, serviceID) && Effective(ps, routeID, serviceID)[name] == ps[i];
    forall j | 0 <= j < |ps| && ps[j].name == name && ps[j].enabled
               && ps[j].route == ps[i].route && ps[j].service == ps[i].service
      ensures if ps[i].route == Unset && ps[i].service == Unset then j <= i else i <= j
    {
      assert Candidate(ps, j, name, routeID, serviceID);
    }
  }
}
