/**
 Limits over whole runs of the agent: what is ever written to a rate-limiting plugin, and
 when the limits in force, of every scope, are those that the run's requests make.
 */
module QuotaRuns {
  import opened Sequences
  import opened KongStore
  import opened PluginSearch
  import opened RouteEdits
  import opened KongClients
  import opened AccessRequests
  import opened Applications
  import opened RouteAccess
  import opened RouteQuotas
  import opened AccessRuns

  /** What a step did to a workspace's quotas, as far as the one who asked can tell. */
  datatype QuotaEvent =
    | Placed(route: string, app: string, quota: QuotaRequest)
    | Ended(route: string, app: string)
    | HalfEnded(route: string, app: string)
    | Gone(apps: set<string>)
    | Unchanged

  /** A request with a quota succeeded, for the consumer it settled on; a removal succeeded, or
      failed once the access was gone; or consumers were deleted. */
  function QuotaEventOf(w: World, net: Net, agent: Agent, step: Step, v: string): QuotaEvent {
    match step
    case ProvisionAccess(req) =>
      var report := Provisioned(w, net, req, agent.aclDisable).1;
      if req.workspace == v && req.quota.Some? && report.status == Success
      then Placed(req.route, report.appID, req.quota.value) else Unchanged
    case DeprovisionAccess(req) =>
      var report := Deprovisioned(w, net, req, agent.aclDisable).1;
      if req.workspace == v && report.status == Success then Ended(req.route, report.appID)
      else if req.workspace == v && report.acl == Some(DisableFailed) then HalfEnded(req.route, report.appID)
      else Unchanged
    case DeprovisionApp(app, order) =>
      Gone(Lost(w.kong, AppDeprovisioned(w, net, agent, app, order).0.kong, v))
  }

  function QuotaEvents(w: World, net: Net, agent: Agent, steps: seq<Step>, v: string): seq<QuotaEvent>
    decreases |steps|
  {
    if |steps| == 0 then []
    else
      [QuotaEventOf(w, net, agent, steps[0], v)]
      + QuotaEvents(Perform(w, net, agent, steps[0]).0, net, agent, steps[1..], v)
  }

  // ----- what is written to a quota -----

  /** The window Kong is given for an interval. */
  function Window(i: Interval): string
    requires i != Weekly
  {
    match i
    case Daily => "day"
    case Monthly => "month"
    case Annually => "year"
  }

  /** A quota has exactly one window if and only if it is not weekly. */
  lemma OneWindowIff(i: Interval, limit: int)
    ensures SetQuota(IntervalName(i), limit)
            == Quota("local", if i == Weekly then map[] else map[Window(i) := limit])
  {
  }

  /** The plugin is the one that was asked for: for that route and that consumer, with the
      local policy and the limit in the one window of an interval that is not weekly. */
  ghost predicate AskedFor(x: Plugin, e: QuotaEvent) {
    && e.Placed? && e.quota.interval != Weekly
    && x.name == RATE_LIMITING && x.route == To(e.route) && x.service.Unset? && x.consumer == To(e.app)
    && x.config == Quota("local", map[Window(e.quota.interval) := e.quota.limit])
  }

  ghost predicate Requested(x: Plugin, events: seq<QuotaEvent>) {
    exists e :: e in events && AskedFor(x, e)
  }

  /** Its consumer was deleted. */
  ghost predicate Departed(x: Plugin, events: seq<QuotaEvent>) {
    exists e :: e in events && e.Gone? && x.consumer.To? && x.consumer.id in e.apps
  }

  /** Every plugin of another name than acl that was there still is, up to its flag, unless
      its consumer is gone; every one there now was there, or was asked for. */
  ghost predicate QuotaHistory(before: seq<Plugin>, after: seq<Plugin>, events: seq<QuotaEvent>) {
    && (forall x :: x in before && x.name != ACL ==> Persists(x, after) || Departed(x, events))
    && (forall x :: x in after && x.name != ACL ==> Persists(x, before) || Requested(x, events))
  }

  lemma FlagsOnlyHistory(before: seq<Plugin>, after: seq<Plugin>, events: seq<QuotaEvent>)
    requires FlagsOnly(before, after)
    ensures QuotaHistory(before, after, events)
  {
  }

  lemma SameHistory(ps: seq<Plugin>, events: seq<QuotaEvent>)
    ensures QuotaHistory(ps, ps, events)
  {
  }

  lemma HistoryChain(a: seq<Plugin>, b: seq<Plugin>, c: seq<Plugin>, first: seq<QuotaEvent>, rest: seq<QuotaEvent>)
    requires QuotaHistory(a, b, first) && QuotaHistory(b, c, rest)
    ensures QuotaHistory(a, c, first + rest)
  {
    forall x | x in a && x.name != ACL ensures Persists(x, c) || Departed(x, first + rest) {
      if Persists(x, b) {
        var y := if x.(enabled := true) in b then x.(enabled := true) else x.(enabled := false);
        assert Persists(y, c) || Departed(y, rest);
      }
    }
    forall x | x in c && x.name != ACL ensures Persists(x, a) || Requested(x, first + rest) {
      if Persists(x, b) {
        var y := if x.(enabled := true) in b then x.(enabled := true) else x.(enabled := false);
        assert Persists(y, a) || Requested(y, first);
        if Requested(y, first) {
          var e :| e in first && AskedFor(y, e);
          assert e in first + rest && AskedFor(x, e);
        }
      }
    }
  }

  lemma DepartureHistory(before: seq<Plugin>, apps: set<string>)
    ensures QuotaHistory(before, Filtered(before, IsNotFor(apps)), [Gone(apps)])
  {
  }

  lemma QuotaAddedHistory(before: seq<Plugin>, after: seq<Plugin>, route: string, app: string, q: QuotaRequest)
    requires q.interval != Weekly
    requires QuotaAdded(before, after, route, app, IntervalName(q.interval), q.limit)
    ensures QuotaHistory(before, after, [Placed(route, app, q)])
  {
    var e := Placed(route, app, q);
    OneWindowIff(q.interval, q.limit);
    forall x | x in after && x.name != ACL ensures Persists(x, before) || Requested(x, [e]) {
      if !Persists(x, before) {
        assert e in [e] && AskedFor(x, e);
      }
    }
  }

  // ----- unique IDs -----

  lemma PlacingKeepsUnique(
      k: Kong, net: Net, workspace: string, route: string, app: string, interval: string, limit: int)
    requires Unique(k, workspace)
    ensures Unique(PlaceQuota(k, net, workspace, route, app, interval, limit).0, workspace)
  {
    QuotaWritesOnce(k, net, workspace, route, app, interval, limit);
  }

  lemma GrantAccessKeepsUnique(
      k: Kong, net: Net, workspace: string, route: string, app: string, quota: Option<QuotaRequest>)
    requires Unique(k, workspace)
    ensures Unique(GrantAccess(k, net, workspace, route, app, quota).0, workspace)
  {
    GrantKeepsQuotas(k, net, workspace, route, app);
    if quota.Some? {
      var k1, q := Grant(k, net, workspace, route, app).0, quota.value;
      PlacingKeepsUnique(k1, net, workspace, route, app, IntervalName(q.interval), q.limit);
    }
  }

  lemma StepKeepsUnique(w: World, net: Net, agent: Agent, step: Step, v: string)
    requires UniqueIds(PluginsAt(w, v))
    ensures UniqueIds(PluginsAt(Perform(w, net, agent, step).0, v))
  {
    match step
    case ProvisionAccess(req) =>
      var k1, app, reaches := RequestAt(w, net, agent, req, v);
      if reaches {
        GrantAccessKeepsUnique(k1, net, v, req.route, app, req.quota);
      }
    case DeprovisionAccess(req) =>
      var app, reaches := RemovalAt(w, net, agent, req, v);
      if reaches {
        RevokeFlagsOnly(w.kong, net, v, req.route, app);
      }
    case DeprovisionApp(app, order) =>
      DepartureAt(w, net, agent, app, order, v);
      DepartureKeepsIds(PluginsAt(w, v), Lost(w.kong, AppDeprovisioned(w, net, agent, app, order).0.kong, v));
  }

  // ----- quotas are written once -----

  lemma GrantAccessHistory(k: Kong, net: Net, v: string, route: string, app: string, quota: Option<QuotaRequest>)
    requires Unique(k, v)
    requires quota.Some? ==> quota.value.interval != Weekly
    ensures
      var (k', _, status) := GrantAccess(k, net, v, route, app, quota);
      QuotaHistory(
        PluginsOf(k, v), PluginsOf(k', v),
        [if quota.Some? && status == Success then Placed(route, app, quota.value) else Unchanged])
  {
    var (k1, granted) := Grant(k, net, v, route, app);
    GrantFlagsOnly(k, net, v, route, app);
    FlagsOnlyHistory(PluginsOf(k, v), PluginsOf(k1, v), []);
    FlagsOnlyHistory(PluginsOf(k, v), PluginsOf(k1, v), [Unchanged]);
    if granted == Done && quota.Some? {
      var q := quota.value;
      var (k2, placed) := PlaceQuota(k1, net, v, route, app, IntervalName(q.interval), q.limit);
      if placed == Done {
        QuotaWritesOnce(k1, net, v, route, app, IntervalName(q.interval), q.limit);
        QuotaAddedHistory(PluginsOf(k1, v), PluginsOf(k2, v), route, app, q);
        HistoryChain(PluginsOf(k, v), PluginsOf(k1, v), PluginsOf(k2, v), [], [Placed(route, app, q)]);
        assert [] + [Placed(route, app, q)] == [Placed(route, app, q)];
      }
    }
  }

  lemma StepHistory(w: World, net: Net, agent: Agent, step: Step, v: string)
    requires UniqueIds(PluginsAt(w, v))
    ensures QuotaHistory(
              PluginsAt(w, v), PluginsAt(Perform(w, net, agent, step).0, v), [QuotaEventOf(w, net, agent, step, v)])
  {
    var e := QuotaEventOf(w, net, agent, step, v);
    SameHistory(PluginsAt(w, v), [e]);
    match step
    case ProvisionAccess(req) =>
      var k1, app, reaches := RequestAt(w, net, agent, req, v);
      if reaches {
        GrantAccessHistory(k1, net, v, req.route, app, req.quota);
      }
    case DeprovisionAccess(req) =>
      var app, reaches := RemovalAt(w, net, agent, req, v);
      if reaches {
        RevokeFlagsOnly(w.kong, net, v, req.route, app);
        FlagsOnlyHistory(PluginsOf(w.kong, v), PluginsOf(Revoke(w.kong, net, v, req.route, app).0, v), [e]);
      }
    case DeprovisionApp(app, order) =>
      DepartureAt(w, net, agent, app, order, v);
      DepartureHistory(PluginsAt(w, v), e.apps);
  }

  /** Over any run: a rate-limiting plugin's window and limit, once written, never change, and
      the plugin stays unless its consumer was deleted in the run; each plugin the agent
      created has the local policy and exactly the window and limit of a request of the run,
      for that request's route and the consumer it settled on. Plugins of any other name but
      acl never change either. */
  lemma {:induction false} QuotasAreWrittenOnce(w: World, net: Net, agent: Agent, steps: seq<Step>, v: string)
    requires UniqueIds(PluginsAt(w, v))
    ensures QuotaHistory(
              PluginsAt(w, v), PluginsAt(Run(w, net, agent, steps), v), QuotaEvents(w, net, agent, steps, v))
    decreases |steps|
  {
    if |steps| == 0 {
      SameHistory(PluginsAt(w, v), []);
    } else {
      var w1, e := Perform(w, net, agent, steps[0]).0, QuotaEventOf(w, net, agent, steps[0], v);
      StepKeepsUnique(w, net, agent, steps[0], v);
      StepHistory(w, net, agent, steps[0], v);
      QuotasAreWrittenOnce(w1, net, agent, steps[1..], v);
      HistoryChain(
        PluginsAt(w, v), PluginsAt(w1, v), PluginsAt(Run(w1, net, agent, steps[1..]), v),
        [e], QuotaEvents(w1, net, agent, steps[1..], v));
    }
  }

  // ----- limits in force -----

  /** Whether a limit is in force after an event that did what it was for: a quota that was
      placed is the one limit of its scope. */
  predicate ApplyQuota(e: QuotaEvent, limit: Limit, b: bool) {
    match e
    case Placed(route, app, q) => if limit.key == QuotaKey(route, app) then limit.config == ConfigOf(q) else b
    case Ended(route, app) => b && limit.key != QuotaKey(route, app)
    case Gone(apps) => b && !(limit.key.consumer.To? && limit.key.consumer.id in apps)
    case _ => b
  }

  predicate ReplayQuotas(events: seq<QuotaEvent>, limit: Limit, b: bool)
    decreases |events|
  {
    if |events| == 0 then b else ReplayQuotas(events[1..], limit, ApplyQuota(events[0], limit, b))
  }

  /** Whether it is in force after an event that did what the code does; without the acl check
      (`acts` is false) requests touch no plugin. */
  ghost predicate Effect(ps: seq<Plugin>, e: QuotaEvent, acts: bool, limit: Limit) {
    match e
    case Placed(route, app, q) => InForce(ps, limit) || (acts && limit == QuotaHit(ps, route, app, ConfigOf(q)))
    case Ended(route, app) =>
      InForce(ps, limit) && !(acts && Listed(ps, route, app) && DisableHits(ps, route, app, limit))
    case Gone(apps) => InForce(ps, limit) && !(limit.key.consumer.To? && limit.key.consumer.id in apps)
    case _ => InForce(ps, limit)
  }

  lemma DepartureEndsQuotas(ps: seq<Plugin>, apps: set<string>, limit: Limit)
    ensures InForce(Filtered(ps, IsNotFor(apps)), limit) <==>
            InForce(ps, limit) && !(limit.key.consumer.To? && limit.key.consumer.id in apps)
  {
  }

  lemma GrantAccessKeepsDiffer(k: Kong, net: Net, v: string, route: string, app: string, quota: Option<QuotaRequest>)
    requires Unique(k, v) && QuotasDiffer(PluginsOf(k, v)) && route != "" && app != ""
    ensures QuotasDiffer(PluginsOf(GrantAccess(k, net, v, route, app, quota).0, v))
  {
    var (k1, granted) := Grant(k, net, v, route, app);
    GrantKeepsQuotas(k, net, v, route, app);
    QuotasByName(PluginsOf(k, v), PluginsOf(k1, v));
    if granted == Done && quota.Some? {
      var q := quota.value;
      var (k2, placed) := PlaceQuota(k1, net, v, route, app, IntervalName(q.interval), q.limit);
      if placed == Done {
        QuotaDone(k1, net, v, route, app, IntervalName(q.interval), q.limit);
        QuotaEditKeepsDiffer(
          PluginsOf(k1, v), route, app, SetQuota(IntervalName(q.interval), q.limit),
          net.ids(k1.clock + 1), PluginsOf(k2, v));
      }
    }
  }

  lemma StepKeepsDiffer(w: World, net: Net, agent: Agent, step: Step, v: string)
    requires UniqueIds(PluginsAt(w, v)) && QuotasDiffer(PluginsAt(w, v))
    ensures QuotasDiffer(PluginsAt(Perform(w, net, agent, step).0, v))
  {
    match step
    case ProvisionAccess(req) =>
      var k1, app, reaches := RequestAt(w, net, agent, req, v);
      if reaches {
        GrantAccessKeepsDiffer(k1, net, v, req.route, app, req.quota);
      }
    case DeprovisionAccess(req) =>
      var app, reaches := RemovalAt(w, net, agent, req, v);
      if reaches {
        RevokeFlagsOnly(w.kong, net, v, req.route, app);
        FlagsOnlyKeepsDiffer(PluginsOf(w.kong, v), PluginsOf(Revoke(w.kong, net, v, req.route, app).0, v));
      }
    case DeprovisionApp(app, order) =>
      DepartureAt(w, net, agent, app, order, v);
  }

  /** Every step puts in force, or takes out of force, exactly the limits it hits. */
  lemma StepReachesQuotas(w: World, net: Net, agent: Agent, step: Step, v: string, limit: Limit)
    requires UniqueIds(PluginsAt(w, v)) && QuotasDiffer(PluginsAt(w, v))
    ensures InForce(PluginsAt(Perform(w, net, agent, step).0, v), limit) <==>
            Effect(PluginsAt(w, v), QuotaEventOf(w, net, agent, step, v), !agent.aclDisable, limit)
  {
    match step
    case ProvisionAccess(req) =>
      var k1, app, reaches := RequestAt(w, net, agent, req, v);
      if reaches {
        GrantAccessReaches(k1, net, v, req.route, app, req.quota, limit);
      }
    case DeprovisionAccess(req) =>
      var app, reaches := RemovalAt(w, net, agent, req, v);
      if reaches {
        RevokingReachesOn(w.kong, net, v, req.route, app, limit);
      }
    case DeprovisionApp(app, order) =>
      DepartureAt(w, net, agent, app, order, v);
      DepartureEndsQuotas(PluginsAt(w, v), QuotaEventOf(w, net, agent, step, v).apps, limit);
  }

  // ----- when the limits in force are those asked for -----

  /** Placing does as asked: its search finds nothing, or the very limit asked for; or that
      limit is in force already, and the plugin found is enabled already. */
  ghost predicate HarmlessPlacing(ps: seq<Plugin>, route: string, app: string, config: Config) {
    var asked := Limit(QuotaKey(route, app), config);
    match Found(ps, QuotaQuery(route, app))
    case None => true
    case Some(p) => LimitOf(p) == asked || (KeyOf(p) != asked.key && InForce(ps, asked) && p.enabled)
  }

  /** Ending does as asked: the consumer is listed and the search finds its own plugin, or
      nothing; or there is no such quota, and the plugin found, if any, is disabled already. */
  ghost predicate HarmlessEnding(ps: seq<Plugin>, route: string, app: string) {
    if Listed(ps, route, app) then
      match Found(ps, QuotaQuery(route, app))
      case None => true
      case Some(p) => KeyOf(p) == QuotaKey(route, app) || (!QuotaInForce(ps, route, app) && !p.enabled)
    else !QuotaInForce(ps, route, app)
  }

  /** What a caller could check before the step. */
  ghost predicate HarmlessEvent(ps: seq<Plugin>, e: QuotaEvent, acts: bool) {
    match e
    case Placed(route, app, q) =>
      if acts then HarmlessPlacing(ps, route, app, ConfigOf(q))
      else InForce(ps, Limit(QuotaKey(route, app), ConfigOf(q)))
    case Ended(route, app) => if acts then HarmlessEnding(ps, route, app) else !QuotaInForce(ps, route, app)
    case _ => true
  }

  ghost predicate DoesAsAsked(ps: seq<Plugin>, e: QuotaEvent, acts: bool) {
    forall limit :: Effect(ps, e, acts, limit) <==> ApplyQuota(e, limit, InForce(ps, limit))
  }

  lemma OneInForce(ps: seq<Plugin>, limit: Limit, other: Limit)
    requires QuotasDiffer(ps) && InForce(ps, limit) && other.key == limit.key
    ensures InForce(ps, other) <==> other == limit
  {
    var p :| p in ps && p.name == RATE_LIMITING && LimitOf(p) == limit && p.enabled;
    OneLimit(ps, p, other);
  }

  lemma PlacedAsAskedIff(ps: seq<Plugin>, e: QuotaEvent, acts: bool)
    requires QuotasDiffer(ps) && e.Placed?
    ensures DoesAsAsked(ps, e, acts) <==> HarmlessEvent(ps, e, acts)
  {
    var asked, found := Limit(QuotaKey(e.route, e.app), ConfigOf(e.quota)), Found(ps, QuotaQuery(e.route, e.app));
    NotFoundNotInForce(ps, e.route, e.app);
    LimitedIff(ps, asked.key);
    if DoesAsAsked(ps, e, acts) {
      assert Effect(ps, e, acts, asked) <==> ApplyQuota(e, asked, InForce(ps, asked));
      if found.Some? {
        var hit := LimitOf(found.value);
        assert Effect(ps, e, acts, hit) <==> ApplyQuota(e, hit, InForce(ps, hit));
        OneLimit(ps, found.value, hit);
      }
    }
    if HarmlessEvent(ps, e, acts) {
      forall limit ensures Effect(ps, e, acts, limit) <==> ApplyQuota(e, limit, InForce(ps, limit)) {
        if limit.key == asked.key && InForce(ps, asked) {
          OneInForce(ps, asked, limit);
        }
        if found.Some? && limit.key == KeyOf(found.value) {
          OneLimit(ps, found.value, limit);
        }
      }
    }
  }

  lemma EndedAsAskedIff(ps: seq<Plugin>, e: QuotaEvent, acts: bool)
    requires QuotasDiffer(ps) && e.Ended?
    ensures DoesAsAsked(ps, e, acts) <==> HarmlessEvent(ps, e, acts)
  {
    var own, found := QuotaKey(e.route, e.app), Found(ps, QuotaQuery(e.route, e.app));
    NotFoundNotInForce(ps, e.route, e.app);
    LimitedIff(ps, own);
    if DoesAsAsked(ps, e, acts) {
      forall config
        ensures Effect(ps, e, acts, Limit(own, config)) <==>
                ApplyQuota(e, Limit(own, config), InForce(ps, Limit(own, config)))
      {
      }
      if found.Some? {
        var hit := LimitOf(found.value);
        assert Effect(ps, e, acts, hit) <==> ApplyQuota(e, hit, InForce(ps, hit));
        OneLimit(ps, found.value, hit);
      }
    }
    if HarmlessEvent(ps, e, acts) {
      forall limit ensures Effect(ps, e, acts, limit) <==> ApplyQuota(e, limit, InForce(ps, limit)) {
        if found.Some? && limit.key == KeyOf(found.value) {
          OneLimit(ps, found.value, limit);
        }
      }
    }
  }

  /** A step does what it was for, and nothing else, if and only if it is harmless. */
  lemma AsAskedIffHarmless(ps: seq<Plugin>, e: QuotaEvent, acts: bool)
    requires QuotasDiffer(ps)
    ensures DoesAsAsked(ps, e, acts) <==> HarmlessEvent(ps, e, acts)
  {
    if e.Placed? {
      PlacedAsAskedIff(ps, e, acts);
    } else if e.Ended? {
      EndedAsAskedIff(ps, e, acts);
    }
  }

  lemma EventsAreNamed(w: World, net: Net, agent: Agent, step: Step, v: string)
    ensures
      var e := QuotaEventOf(w, net, agent, step, v);
      e.Placed? || e.Ended? ==> e.route != "" && e.app != ""
  {
    match step
    case ProvisionAccess(req) =>
      var k1, app, reaches := RequestAt(w, net, agent, req, v);
    case DeprovisionAccess(req) =>
      var app, reaches := RemovalAt(w, net, agent, req, v);
    case DeprovisionApp(_, _) =>
  }

  // Runs one step longer.

  lemma {:induction false} RunOneMore(w: World, net: Net, agent: Agent, steps: seq<Step>, step: Step, v: string)
    ensures Run(w, net, agent, steps + [step]) == Perform(Run(w, net, agent, steps), net, agent, step).0
    ensures QuotaEvents(w, net, agent, steps + [step], v)
            == QuotaEvents(w, net, agent, steps, v) + [QuotaEventOf(Run(w, net, agent, steps), net, agent, step, v)]
    decreases |steps|
  {
    if |steps| == 0 {
      assert steps + [step] == [step] && [step][1..] == [];
    } else {
      assert (steps + [step])[1..] == steps[1..] + [step];
      RunOneMore(Perform(w, net, agent, steps[0]).0, net, agent, steps[1..], step, v);
    }
  }

  lemma {:induction false} ReplayOneMore(events: seq<QuotaEvent>, e: QuotaEvent, limit: Limit, b: bool)
    ensures ReplayQuotas(events + [e], limit, b) == ApplyQuota(e, limit, ReplayQuotas(events, limit, b))
    decreases |events|
  {
    if |events| == 0 {
      assert events + [e] == [e] && [e][1..] == [];
    } else {
      assert (events + [e])[1..] == events[1..] + [e];
      ReplayOneMore(events[1..], e, limit, ApplyQuota(events[0], limit, b));
    }
  }

  lemma {:induction false} RunKeepsDiffer(w: World, net: Net, agent: Agent, steps: seq<Step>, v: string)
    requires UniqueIds(PluginsAt(w, v)) && QuotasDiffer(PluginsAt(w, v))
    ensures
      var ps := PluginsAt(Run(w, net, agent, steps), v);
      UniqueIds(ps) && QuotasDiffer(ps)
    decreases |steps|
  {
    if |steps| > 0 {
      StepKeepsUnique(w, net, agent, steps[0], v);
      StepKeepsDiffer(w, net, agent, steps[0], v);
      RunKeepsDiffer(Perform(w, net, agent, steps[0]).0, net, agent, steps[1..], v);
    }
  }

  /** After these steps exactly those limits, of any scope, are in force that the successes among them make. */
  ghost predicate FollowsAfter(w: World, net: Net, agent: Agent, steps: seq<Step>, v: string) {
    forall limit ::
      InForce(PluginsAt(Run(w, net, agent, steps), v), limit) <==>
      ReplayQuotas(QuotaEvents(w, net, agent, steps, v), limit, InForce(PluginsAt(w, v), limit))
  }

  /** After these steps the next one is harmless. */
  ghost predicate HarmlessAfter(w: World, net: Net, agent: Agent, steps: seq<Step>, next: Step, v: string) {
    HarmlessEvent(
      PluginsAt(Run(w, net, agent, steps), v), QuotaEventOf(Run(w, net, agent, steps), net, agent, next, v),
      !agent.aclDisable)
  }

  lemma FollowsOneMore(w: World, net: Net, agent: Agent, steps: seq<Step>, next: Step, v: string)
    requires UniqueIds(PluginsAt(w, v)) && QuotasDiffer(PluginsAt(w, v))
    requires FollowsAfter(w, net, agent, steps, v)
    ensures FollowsAfter(w, net, agent, steps + [next], v) <==> HarmlessAfter(w, net, agent, steps, next, v)
  {
    var w1 := Run(w, net, agent, steps);
    var ps, e := PluginsAt(w1, v), QuotaEventOf(w1, net, agent, next, v);
    RunKeepsDiffer(w, net, agent, steps, v);
    AsAskedIffHarmless(ps, e, !agent.aclDisable);
    RunOneMore(w, net, agent, steps, next, v);
    forall limit
      ensures InForce(PluginsAt(Run(w, net, agent, steps + [next]), v), limit) <==>
              Effect(ps, e, !agent.aclDisable, limit)
      ensures ReplayQuotas(QuotaEvents(w, net, agent, steps + [next], v), limit, InForce(PluginsAt(w, v), limit))
              == ApplyQuota(e, limit, InForce(ps, limit))
    {
      StepReachesQuotas(w1, net, agent, next, v, limit);
      ReplayOneMore(QuotaEvents(w, net, agent, steps, v), e, limit, InForce(PluginsAt(w, v), limit));
    }
  }

  /** Over any run: at every point exactly those limits are in force that the successful requests
      and removals so far make, if and only if every step is harmless when it is made. */
  lemma {:induction false} QuotasFollowIff(w: World, net: Net, agent: Agent, steps: seq<Step>, v: string)
    requires UniqueIds(PluginsAt(w, v)) && QuotasDiffer(PluginsAt(w, v))
    ensures (forall n :: 0 <= n <= |steps| ==> FollowsAfter(w, net, agent, steps[..n], v)) <==>
            (forall n :: 0 <= n < |steps| ==> HarmlessAfter(w, net, agent, steps[..n], steps[n], v))
    decreases |steps|
  {
    if |steps| == 0 {
      assert steps[..0] == [];
    } else {
      var m := |steps| - 1;
      var front := steps[..m];
      assert forall n :: 0 <= n <= m ==> steps[..n] == front[..n];
      assert steps == front + [steps[m]] && steps[..|steps|] == steps && front[..m] == front;
      QuotasFollowIff(w, net, agent, front, v);
      if FollowsAfter(w, net, agent, front, v) {
        FollowsOneMore(w, net, agent, front, steps[m], v);
      }
    }
  }

  // ----- a condition on the requests alone -----

  /** For each of these pairs, either the route or the consumer is tied to the other: no other
      of the pairs shares it, and every rate-limiting plugin that names it is the pair's. */
  ghost predicate Tied(ps: seq<Plugin>, pairs: set<(string, string)>) {
    forall r, a :: (r, a) in pairs ==>
      || (Decides(ps, QuotaQuery(r, a), ByRoute) && forall b :: (r, b) in pairs ==> b == a)
      || (Decides(ps, QuotaQuery(r, a), ByConsumer) && forall s :: (s, a) in pairs ==> s == r)
  }

  /** And a plugin of a pair, enabled or not, has the limit that the pair is given. */
  ghost predicate Untangled(ps: seq<Plugin>, quotas: map<(string, string), Config>) {
    && Tied(ps, quotas.Keys)
    && forall r, a, p :: (r, a) in quotas && p in ps && p.name == RATE_LIMITING && KeyOf(p) == QuotaKey(r, a) ==>
         p.config == quotas[(r, a)]
  }

  /** Who has a quota in force may use the route. */
  ghost predicate Backed(ps: seq<Plugin>, quotas: map<(string, string), Config>) {
    forall r, a :: (r, a) in quotas && QuotaInForce(ps, r, a) ==> a in Allowed(ps, Route(r))
  }

  /** The events are about these pairs, always with the same quota, and no removal of one of
      them has failed half way. */
  ghost predicate Within(events: seq<QuotaEvent>, quotas: map<(string, string), Config>) {
    forall e :: e in events ==>
      && (e.Placed? ==> (e.route, e.app) in quotas && quotas[(e.route, e.app)] == ConfigOf(e.quota))
      && (e.Ended? ==> (e.route, e.app) in quotas)
      && (e.HalfEnded? ==> (e.route, e.app) !in quotas)
  }

  lemma TiedFindsItsOwn(ps: seq<Plugin>, quotas: map<(string, string), Config>, r: string, a: string)
    requires Untangled(ps, quotas) && (r, a) in quotas
    ensures
      var found := Found(ps, QuotaQuery(r, a));
      found.Some? ==> LimitOf(found.value) == Limit(QuotaKey(r, a), quotas[(r, a)])
  {
    DecidedFindsItsOwn(ps, r, a);
  }

  lemma UntangledIsHarmless(ps: seq<Plugin>, quotas: map<(string, string), Config>, e: QuotaEvent)
    requires RouteAclsOnly(ps) && Untangled(ps, quotas) && Backed(ps, quotas) && Within([e], quotas)
    requires e.Placed? || e.Ended? ==> e.route != "" && e.app != ""
    ensures HarmlessEvent(ps, e, true)
  {
    assert e in [e];
    if e.Placed? || e.Ended? {
      TiedFindsItsOwn(ps, quotas, e.route, e.app);
      ListedIffAllowed(ps, e.route, e.app);
    }
  }

  lemma HistoryKeepsUntangled(
      ps: seq<Plugin>, ps': seq<Plugin>, quotas: map<(string, string), Config>, e: QuotaEvent)
    requires QuotaHistory(ps, ps', [e]) && Untangled(ps, quotas) && Within([e], quotas)
    requires e.Placed? ==> e.route != "" && e.app != ""
    ensures Untangled(ps', quotas)
  {
    forall x | x in ps' && x.name == RATE_LIMITING ensures AskedFor(x, e) || Persists(x, ps) {
    }
    if e.Placed? && e.quota.interval != Weekly {
      assert e in [e];
      OneWindowIff(e.quota.interval, e.quota.limit);
    }
  }

  ghost predicate InShape(ps: seq<Plugin>, quotas: map<(string, string), Config>) {
    UniqueIds(ps) && QuotasDiffer(ps) && RouteAclsOnly(ps) && Untangled(ps, quotas) && Backed(ps, quotas)
  }

  /** A quota that is in force after a step was before, or the step has placed it; and it is
      not one that the step has ended. */
  lemma InForceAfter(
      w: World, net: Net, agent: Agent, step: Step, v: string,
      quotas: map<(string, string), Config>, r: string, a: string)
    requires InShape(PluginsAt(w, v), quotas) && (r, a) in quotas && !agent.aclDisable
    requires Within([QuotaEventOf(w, net, agent, step, v)], quotas)
    requires QuotaInForce(PluginsAt(Perform(w, net, agent, step).0, v), r, a)
    ensures
      var e := QuotaEventOf(w, net, agent, step, v);
      && (QuotaInForce(PluginsAt(w, v), r, a) || (e.Placed? && e.route == r && e.app == a))
      && !(e.Ended? && e.route == r && e.app == a)
  {
    var ps, e := PluginsAt(w, v), QuotaEventOf(w, net, agent, step, v);
    EventsAreNamed(w, net, agent, step, v);
    UntangledIsHarmless(ps, quotas, e);
    AsAskedIffHarmless(ps, e, true);
    LimitedIff(PluginsAt(Perform(w, net, agent, step).0, v), QuotaKey(r, a));
    var config :| InForce(PluginsAt(Perform(w, net, agent, step).0, v), Limit(QuotaKey(r, a), config));
    StepReachesQuotas(w, net, agent, step, v, Limit(QuotaKey(r, a), config));
    LimitedIff(ps, QuotaKey(r, a));
  }

  lemma StepKeepsBacked(
      w: World, net: Net, agent: Agent, step: Step, v: string,
      quotas: map<(string, string), Config>, r: string, a: string)
    requires InShape(PluginsAt(w, v), quotas) && (r, a) in quotas && !agent.aclDisable
    requires Within([QuotaEventOf(w, net, agent, step, v)], quotas)
    requires QuotaInForce(PluginsAt(Perform(w, net, agent, step).0, v), r, a)
    ensures a in Allowed(PluginsAt(Perform(w, net, agent, step).0, v), Route(r))
  {
    var e := QuotaEventOf(w, net, agent, step, v);
    assert e in [e];
    InForceAfter(w, net, agent, step, v, quotas, r, a);
    StepRefines(w, net, agent, step, v, r);
    match step
    case ProvisionAccess(req) =>
      var k1, app, reaches := RequestAt(w, net, agent, req, v);
    case DeprovisionAccess(req) =>
      var app, reaches := RemovalAt(w, net, agent, req, v);
    case DeprovisionApp(_, _) =>
  }

  lemma StepKeepsShape(
      w: World, net: Net, agent: Agent, step: Step, v: string, quotas: map<(string, string), Config>)
    requires InShape(PluginsAt(w, v), quotas) && !agent.aclDisable
    requires Within([QuotaEventOf(w, net, agent, step, v)], quotas)
    ensures InShape(PluginsAt(Perform(w, net, agent, step).0, v), quotas)
  {
    var ps' := PluginsAt(Perform(w, net, agent, step).0, v);
    StepKeepsUnique(w, net, agent, step, v);
    StepKeepsDiffer(w, net, agent, step, v);
    StepHistory(w, net, agent, step, v);
    EventsAreNamed(w, net, agent, step, v);
    HistoryKeepsUntangled(PluginsAt(w, v), ps', quotas, QuotaEventOf(w, net, agent, step, v));
    StepRefines(w, net, agent, step, v, "");
    forall r, a | (r, a) in quotas && QuotaInForce(ps', r, a) ensures a in Allowed(ps', Route(r)) {
      StepKeepsBacked(w, net, agent, step, v, quotas, r, a);
    }
  }

  lemma {:induction false} UntangledRunIsHarmless(
      w: World, net: Net, agent: Agent, steps: seq<Step>, v: string, quotas: map<(string, string), Config>, n: nat)
    requires InShape(PluginsAt(w, v), quotas) && !agent.aclDisable && n < |steps|
    requires Within(QuotaEvents(w, net, agent, steps, v), quotas)
    ensures HarmlessAfter(w, net, agent, steps[..n], steps[n], v)
    decreases |steps|
  {
    var w1, e := Perform(w, net, agent, steps[0]).0, QuotaEventOf(w, net, agent, steps[0], v);
    var events := QuotaEvents(w, net, agent, steps, v);
    assert e == events[0] && QuotaEvents(w1, net, agent, steps[1..], v) == events[1..];
    if n == 0 {
      EventsAreNamed(w, net, agent, steps[0], v);
      UntangledIsHarmless(PluginsAt(w, v), quotas, e);
      assert steps[..0] == [];
    } else {
      StepKeepsShape(w, net, agent, steps[0], v, quotas);
      UntangledRunIsHarmless(w1, net, agent, steps[1..], v, quotas, n - 1);
      assert steps[..n][1..] == steps[1..][..n - 1];
    }
  }

  /** So with the acl check on, exactly those limits are in force at the end of a run that its
      successful requests and removals make, if at its beginning the acl plugins are in order,
      the pairs it is about are untangled and their quotas backed, each pair is always given the
      same quota, and no removal of one fails half way - whatever other calls fail. */
  lemma UntangledQuotasFollow(
      w: World, net: Net, agent: Agent, steps: seq<Step>, v: string, quotas: map<(string, string), Config>)
    requires InShape(PluginsAt(w, v), quotas) && !agent.aclDisable
    requires Within(QuotaEvents(w, net, agent, steps, v), quotas)
    ensures FollowsAfter(w, net, agent, steps, v)
  {
    forall n | 0 <= n < |steps| ensures HarmlessAfter(w, net, agent, steps[..n], steps[n], v) {
      UntangledRunIsHarmless(w, net, agent, steps, v, quotas, n);
    }
    QuotasFollowIff(w, net, agent, steps, v);
    assert steps[..|steps|] == steps;
  }

  /** Some pair shares its route with a second pair and its consumer with a third. */
  predicate Tangled(pairs: set<(string, string)>, r: string, a: string, s: string, b: string) {
    (r, a) in pairs && (s, b) in pairs && (r, b) in pairs && r != s && a != b
  }

  /** On a workspace without rate limiting the condition is one on the pairs alone. */
  lemma UntangledIff(ps: seq<Plugin>, quotas: map<(string, string), Config>)
    requires Named(ps, RATE_LIMITING) == []
    ensures Untangled(ps, quotas) <==> !exists r, a, s, b :: Tangled(quotas.Keys, r, a, s, b)
    ensures Backed(ps, quotas)
  {
    forall p | p in ps ensures p.name != RATE_LIMITING {
      assert p in Named(ps, p.name);
    }
    if !exists r, a, s, b :: Tangled(quotas.Keys, r, a, s, b) {
      forall r, a | (r, a) in quotas
        ensures (forall b :: (r, b) in quotas ==> b == a) || (forall s :: (s, a) in quotas ==> s == r)
      {
        forall b, s | (r, b) in quotas && b != a && (s, a) in quotas && s != r ensures false {
          assert Tangled(quotas.Keys, r, b, s, a);
        }
      }
    }
    forall r, a, s, b | Tangled(quotas.Keys, r, a, s, b) ensures !Untangled(ps, quotas) {
      assert (r, b) in quotas;
    }
  }
}
