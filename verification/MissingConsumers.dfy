/**
 Recorded consumers that are gone: over whole runs, which ones, and what a
 later request does with their IDs.
 */
module MissingConsumers {
  import opened KongStore
  import opened RouteEdits
  import opened KongClients
  import opened AccessRequests
  import opened Applications
  import opened RouteAccess
  import opened AccessRuns
  import opened ConsumerBooks
  import opened RequestRetries

  /** The consumers that a run deletes from a workspace. */
  function LostOver(w: World, net: Net, agent: Agent, steps: seq<Step>, v: string): set<string>
    decreases |steps|
  {
    if |steps| == 0 then {}
    else
      var w1 := Perform(w, net, agent, steps[0]).0;
      Lost(w.kong, w1.kong, v) + LostOver(w1, net, agent, steps[1..], v)
  }

  function IdsAt(w: World, v: string): set<string> {
    IdsOf(ConsumersOf(w, v))
  }

  /** Every ID that was ever used has been issued, the lost ones are gone for good, and a
      recorded consumer is missing exactly if it is one of them. */
  ghost predicate Accounted(w: World, net: Net, base: set<string>, v: string, lost: set<string>) {
    && (forall id :: id in IdsAt(w, v) || id in lost ==> Issued(id, net, base, w.kong.clock))
    && lost !! IdsAt(w, v)
    && (forall a :: a in w.apps && RecordedId(w, a, v) != "" ==>
          (RecordedId(w, a, v) !in IdsAt(w, v) <==> RecordedId(w, a, v) in lost))
  }

  /** Consumers have only gone, and records have only been dropped. */
  lemma AccountedAfterLoss(w: World, w': World, net: Net, base: set<string>, v: string, lost: set<string>)
    requires Accounted(w, net, base, v, lost) && w'.kong.clock >= w.kong.clock && IdsAt(w', v) <= IdsAt(w, v)
    requires forall a :: a in w'.apps ==> a in w.apps && RecordedId(w', a, v) == RecordedId(w, a, v)
    ensures Accounted(w', net, base, v, lost + Lost(w.kong, w'.kong, v))
  {
    forall id | Issued(id, net, base, w.kong.clock) ensures Issued(id, net, base, w'.kong.clock) {
      IssuedLater(id, net, base, w.kong.clock, w'.kong.clock);
    }
  }

  lemma AccountedAfterAdding(
      w: World, w': World, net: Net, base: set<string>, a: string, u: string, n: nat, v: string, lost: set<string>)
    requires Distinct(w, net, base) && Accounted(w, net, base, v, lost) && AddedAndRecorded(w, w', net, a, u, n)
    ensures Accounted(w', net, base, v, lost) && Lost(w.kong, w'.kong, v) == {}
  {
    RecordsAfterAdding(w, w', net, a, u, n);
    NewIdWasNotIssued(w, net, base, n);
    assert IdsAt(w', v) == IdsAt(w, v) + if u == v then {net.ids(n)} else {} by {
      forall c ensures c in ConsumersOf(w', v) <==>
                       c in ConsumersOf(w, v) || (u == v && c == Consumer(net.ids(n), a, w.apps[a].id))
      {
        ConsumersAfterAdding(w, w', net, a, u, n, v, c);
      }
      if u == v {
        assert Consumer(net.ids(n), a, w.apps[a].id) in ConsumersOf(w', v);
      }
    }
    forall id | Issued(id, net, base, w.kong.clock) || id == net.ids(n) ensures Issued(id, net, base, w'.kong.clock) {
      IssuedNow(w, w', net, base, a, u, n, id);
    }
  }

  lemma AccountedAfterFinding(
      w: World, w': World, net: Net, base: set<string>, a: string, u: string, c: Consumer, v: string, lost: set<string>)
    requires Accounted(w, net, base, v, lost) && FoundAndRecorded(w, w', a, u, c)
    ensures Accounted(w', net, base, v, lost) && Lost(w.kong, w'.kong, v) == {}
  {
    RecordsAfterRecording(w, w', a, u, c.id);
    assert ConsumersOf(w', v) == ConsumersOf(w, v);
    assert u == v ==> c.id in IdsAt(w, v);
    forall id | Issued(id, net, base, w.kong.clock) ensures Issued(id, net, base, w'.kong.clock) {
      IssuedLater(id, net, base, w.kong.clock, w'.kong.clock);
    }
  }

  lemma SettlingAccounts(w: World, net: Net, base: set<string>, req: Request, v: string, lost: set<string>)
    requires Distinct(w, net, base) && DetailsAreKept(net) && req.workspace != "" && Accounted(w, net, base, v, lost)
    ensures
      var w1 := Settled(w, net, req).0;
      Accounted(w1, net, base, v, lost) && Lost(w.kong, w1.kong, v) == {}
  {
    var w1 := Settled(w, net, req).0;
    SettledCases(w, net, req);
    if SameConsumers(w, w1) {
      assert ConsumersOf(w1, v) == ConsumersOf(w, v);
      AccountedAfterLoss(w, w1, net, base, v, lost);
      assert lost + {} == lost;
    } else if AddedAndRecorded(w, w1, net, req.app, req.workspace, w.kong.clock + 2) {
      AccountedAfterAdding(w, w1, net, base, req.app, req.workspace, w.kong.clock + 2, v, lost);
    } else {
      var c := FindConsumer(ConsumersOf(w, req.workspace), w.apps[req.app].id).value;
      AccountedAfterFinding(w, w1, net, base, req.app, req.workspace, c, v, lost);
    }
  }

  lemma PluginsOnlyAccounts(w: World, k': Kong, net: Net, base: set<string>, v: string, lost: set<string>)
    requires Accounted(w, net, base, v, lost) && OnlyPlugins(w.kong, k')
    ensures Accounted(w.(kong := k'), net, base, v, lost) && Lost(w.kong, k', v) == {}
  {
    var w' := w.(kong := k');
    assert ConsumersOf(w', v) == ConsumersOf(w, v);
    AccountedAfterLoss(w, w', net, base, v, lost);
    assert lost + {} == lost;
  }

  lemma ProvisionAccounts(
      w: World, net: Net, agent: Agent, base: set<string>, req: Request, v: string, lost: set<string>)
    requires Distinct(w, net, base) && DetailsAreKept(net) && Accounted(w, net, base, v, lost)
    ensures
      var w' := Provisioned(w, net, req, agent.aclDisable).0;
      Accounted(w', net, base, v, lost) && Lost(w.kong, w'.kong, v) == {}
  {
    if req.workspace != "" && req.route != "" {
      var (w1, id, _) := Settled(w, net, req);
      SettlingAccounts(w, net, base, req, v, lost);
      ProvisionedInTwo(w, net, req, agent.aclDisable);
      if ReachesRoute(req, id, agent.aclDisable) {
        GrantAccessKeepsConsumers(w1.kong, net, req, id.value);
        PluginsOnlyAccounts(
          w1, GrantAccess(w1.kong, net, req.workspace, req.route, id.value, req.quota).0, net, base, v, lost);
      }
    }
  }

  lemma DeprovisionAccounts(
      w: World, net: Net, agent: Agent, base: set<string>, req: Request, v: string, lost: set<string>)
    requires Accounted(w, net, base, v, lost)
    ensures
      var w' := Deprovisioned(w, net, req, agent.aclDisable).0;
      Accounted(w', net, base, v, lost) && Lost(w.kong, w'.kong, v) == {}
  {
    var id := RecordedId(w, req.app, req.workspace);
    RevokeKeepsConsumers(w.kong, net, req.workspace, req.route, id);
    PluginsOnlyAccounts(w, Revoke(w.kong, net, req.workspace, req.route, id).0, net, base, v, lost);
  }

  lemma {:induction false} DeleteAllOnlyLoses(
      k: Kong, net: Net, ids: map<string, string>, order: seq<string>, v: string)
    ensures
      var k' := DeleteAll(k, net, ids, order).0;
      k'.clock >= k.clock && IdsOf(StoreAt(k', v).consumers) <= IdsOf(StoreAt(k, v).consumers)
    decreases |order|
  {
    if |order| > 0 {
      if order[0] !in ids {
        DeleteAllOnlyLoses(k, net, ids, order[1..], v);
      } else {
        var (k1, ok) := RemoveConsumer(k, net, order[0], ids[order[0]]);
        RemoveLosesTheirPlugins(k, net, order[0], ids[order[0]], v);
        if ok {
          DeleteAllOnlyLoses(k1, net, ids, order[1..], v);
        }
      }
    }
  }

  lemma StepAccounts(
      w: World, net: Net, agent: Agent, base: set<string>, step: Step, v: string, lost: set<string>)
    requires Distinct(w, net, base) && DetailsAreKept(net) && Accounted(w, net, base, v, lost)
    ensures
      var w' := Perform(w, net, agent, step).0;
      Accounted(w', net, base, v, lost + Lost(w.kong, w'.kong, v))
  {
    assert lost + {} == lost;
    match step
    case ProvisionAccess(req) =>
      ProvisionAccounts(w, net, agent, base, req, v, lost);
    case DeprovisionAccess(req) =>
      DeprovisionAccounts(w, net, agent, base, req, v, lost);
    case DeprovisionApp(b, order) =>
      if b in w.apps {
        DeleteAllOnlyLoses(w.kong, net, RecordedIds(w.apps[b].details, agent.workspaces), order, v);
      }
      AccountedAfterLoss(w, Perform(w, net, agent, step).0, net, base, v, lost);
  }

  /** Over any run of serialised steps whose detail writes succeed: the consumer recorded for an
      application that Central still knows is missing from a workspace if and only if a step of
      the run has deleted it there. */
  lemma {:induction false} RecordedIsMissingIff(
      w: World, net: Net, agent: Agent, base: set<string>, steps: seq<Step>, v: string, lost: set<string>)
    requires Distinct(w, net, base) && InBooks(w, net, base, {}) && DetailsAreKept(net) && "" !in agent.workspaces
    requires Accounted(w, net, base, v, lost)
    ensures Accounted(Run(w, net, agent, steps), net, base, v, lost + LostOver(w, net, agent, steps, v))
    decreases |steps|
  {
    if |steps| == 0 {
      assert lost + {} == lost;
    } else {
      var w1 := Perform(w, net, agent, steps[0]).0;
      StepAccounts(w, net, agent, base, steps[0], v, lost);
      StepKeepsBooks(w, net, agent, base, {}, steps[0]);
      var now := lost + Lost(w.kong, w1.kong, v);
      RecordedIsMissingIff(w1, net, agent, base, steps[1..], v, now);
      assert now + LostOver(w1, net, agent, steps[1..], v) == lost + LostOver(w, net, agent, steps, v);
    }
  }

  // ----- an application half removed -----

  /** A removal that deletes the consumer of one workspace and fails on the next leaves both
      records; a later request for the first takes the recorded ID as it is, and when it
      succeeds the route allows a consumer that does not exist. */
  lemma HalfRemovedIsStillGranted(
      w: World, net: Net, agent: Agent, later: Net, first: string, second: string, req: Request)
    requires req.app in w.apps && req.workspace == first != "" && second != "" && first != second
    requires
      var ids := RecordedIds(w.apps[req.app].details, agent.workspaces);
      first in ids && second in ids
    requires
      var id := RecordedId(w, req.app, first);
      WithId(StoreAt(w.kong, first).consumers, id).Some?
      && !net.readFails(w.kong.clock) && !net.writeFails(w.kong.clock + 1)
    requires
      var id := RecordedId(w, req.app, second);
      WithId(StoreAt(w.kong, second).consumers, id).Some?
      && !net.readFails(w.kong.clock + 2) && net.writeFails(w.kong.clock + 3)
    requires InOrder(w.kong, first)
    ensures
      var (w1, done) := AppDeprovisioned(w, net, agent, req.app, [first, second]);
      var (w2, report) := Provisioned(w1, later, req, false);
      var id := RecordedId(w, req.app, first);
      && !done && w1.apps == w.apps && id !in IdsAt(w1, first)
      && (report.status == Success ==>
            report.appID == id && id in AllowedOn(w2.kong, first, Route(req.route)) && id !in IdsAt(w2, first))
  {
    HalfRemoved(w, net, agent, first, second, req.app);
    var w1 := AppDeprovisioned(w, net, agent, req.app, [first, second]).0;
    DepartureAt(w, net, agent, req.app, [first, second], first);
    DepartureKeepsAcls(PluginsAt(w, first), Lost(w.kong, w1.kong, first));
    if Provisioned(w1, later, req, false).1.status == Success {
      SuccessAllows(w1, later, req);
      RecordedRequestKeepsConsumers(w1, later, req);
    }
  }

  lemma RecordedRequestKeepsConsumers(w: World, net: Net, req: Request)
    requires RecordedId(w, req.app, req.workspace) != "" && Provisioned(w, net, req, false).1.status == Success
    ensures
      var (w', report) := Provisioned(w, net, req, false);
      && report.appID == RecordedId(w, req.app, req.workspace)
      && IdsAt(w', Target(req.workspace)) == IdsAt(w, Target(req.workspace))
  {
    ProvisionedInTwo(w, net, req, false);
    GrantAccessKeepsConsumers(w.kong, net, req, RecordedId(w, req.app, req.workspace));
  }

  /** The first of two deletions gets through and the second does not. */
  lemma HalfRemoved(w: World, net: Net, agent: Agent, first: string, second: string, app: string)
    requires app in w.apps && first != "" && second != "" && first != second
    requires
      var ids := RecordedIds(w.apps[app].details, agent.workspaces);
      first in ids && second in ids
    requires
      var id := RecordedId(w, app, first);
      WithId(StoreAt(w.kong, first).consumers, id).Some?
      && !net.readFails(w.kong.clock) && !net.writeFails(w.kong.clock + 1)
    requires
      var id := RecordedId(w, app, second);
      WithId(StoreAt(w.kong, second).consumers, id).Some?
      && !net.readFails(w.kong.clock + 2) && net.writeFails(w.kong.clock + 3)
    ensures
      var (w1, done) := AppDeprovisioned(w, net, agent, app, [first, second]);
      !done && w1.apps == w.apps && RecordedId(w, app, first) !in IdsAt(w1, first)
  {
    var ids := RecordedIds(w.apps[app].details, agent.workspaces);
    var id := RecordedId(w, app, first);
    var k1 := RemoveConsumer(w.kong, net, first, id).0;
    assert StoreAt(k1, first).consumers == Purge(StoreAt(w.kong, first), {id}).consumers;
    assert StoreAt(k1, second) == StoreAt(w.kong, second);
    DeleteTwo(w.kong, net, ids, first, second);
  }

  lemma DeleteTwo(k: Kong, net: Net, ids: map<string, string>, first: string, second: string)
    requires first in ids && second in ids && RemoveConsumer(k, net, first, ids[first]).1
    ensures DeleteAll(k, net, ids, [first, second])
            == RemoveConsumer(RemoveConsumer(k, net, first, ids[first]).0, net, second, ids[second])
  {
    var k1 := RemoveConsumer(k, net, first, ids[first]).0;
    var k2 := RemoveConsumer(k1, net, second, ids[second]).0;
    assert [first, second][1..] == [second] && [second][1..] == [];
    assert DeleteAll(k2, net, ids, []) == (k2, true);
    assert DeleteAll(k1, net, ids, [second]) == RemoveConsumer(k1, net, second, ids[second]);
  }
}
