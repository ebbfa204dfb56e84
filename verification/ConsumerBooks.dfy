/**
 The consumers behind applications, over whole runs: how many the agent creates, that
 the ones it has recorded exist, and that no request reaches into another workspace.
 */
module ConsumerBooks {
  import opened Sequences
  import opened KongStore
  import opened RouteEdits
  import opened KongClients
  import opened Names
  import opened AccessRequests
  import opened Applications
  import opened AccessRuns

  // ----- nothing reaches another workspace -----

  /** An access request or removal changes no other workspace's store. */
  lemma RequestsStayInTheirWorkspace(w: World, net: Net, agent: Agent, step: Step)
    requires !step.DeprovisionApp?
    ensures SameElsewhere(w.kong, Perform(w, net, agent, step).0.kong, step.request.workspace)
  {
    var req := step.request;
    match step
    case ProvisionAccess(_) =>
      if req.workspace != "" && req.route != "" {
        SettledStays(w, net, req);
        ProvisionedInTwo(w, net, req, agent.aclDisable);
      }
    case DeprovisionAccess(_) =>
  }

  lemma SettledStays(w: World, net: Net, req: Request)
    ensures SameElsewhere(w.kong, Settled(w, net, req).0.kong, req.workspace)
  {
  }

  // ----- a failure nobody hears of -----

  /** Settling on a new consumer reports success whether or not the consumer joined its
      group: it is a member afterwards if and only if it was one before, or both calls for
      it got through. */
  lemma GroupJoinedIff(w: World, net: Net, req: Request)
    requires RecordedId(w, req.app, req.workspace) == "" && AppProvisioned(w, net, req).1.Some?
    requires forall v, c :: v in w.kong.stores && c in w.kong.stores[v].consumers ==> c.id != ""
    ensures
      var (w', id, _) := AppProvisioned(w, net, req);
      var (k2, _) := EnsureConsumer(Tick(w.kong), net, req.workspace, w.apps[req.app].id, req.app);
      (id.value, id.value) in StoreOf(w'.kong, req.workspace).groups <==>
      || (id.value, id.value) in StoreOf(w.kong, req.workspace).groups
      || (!net.readFails(k2.clock) && !net.writeFails(k2.clock + 1))
  {
    EnsuredIsThere(Tick(w.kong), net, req.workspace, w.apps[req.app].id, req.app);
    var (k2, c) := EnsureConsumer(Tick(w.kong), net, req.workspace, w.apps[req.app].id, req.app);
    JoinedIff(k2, net, req.workspace, c.value.id);
  }

  lemma JoinedIff(k: Kong, net: Net, workspace: string, id: string)
    requires Target(workspace) in k.stores
    requires
      var found := FindConsumer(StoreOf(k, workspace).consumers, id);
      found.Some? && found.value.id == id
    ensures
      (id, id) in StoreOf(JoinGroup(k, net, workspace, id).0, workspace).groups <==>
      (id, id) in StoreOf(k, workspace).groups || (!net.readFails(k.clock) && !net.writeFails(k.clock + 1))
  {
  }

  lemma EnsuredIsThere(k: Kong, net: Net, workspace: string, id: string, name: string)
    requires forall v, c :: v in k.stores && c in k.stores[v].consumers ==> c.id != ""
    requires EnsureConsumer(k, net, workspace, id, name).1.Some?
    ensures
      var (k', c) := EnsureConsumer(k, net, workspace, id, name);
      var found := FindConsumer(StoreOf(k', workspace).consumers, c.value.id);
      && Target(workspace) in k'.stores && found.Some? && found.value.id == c.value.id
      && StoreOf(k', workspace).groups == StoreOf(k, workspace).groups
  {
  }

  // ----- the books -----

  /** How many consumers bear the application's ID as their custom ID. */
  function Bearing(cs: seq<Consumer>, customId: string): nat {
    if |cs| == 0 then 0
    else (if cs[0].customId == customId then 1 else 0) + Bearing(cs[1..], customId)
  }

  lemma {:induction false} BearingOneMore(cs: seq<Consumer>, c: Consumer, customId: string)
    ensures Bearing(cs + [c], customId) == Bearing(cs, customId) + (if c.customId == customId then 1 else 0)
  {
    if |cs| > 0 {
      BearingOneMore(cs[1..], c, customId);
      assert (cs + [c])[1..] == cs[1..] + [c];
    } else {
      assert cs + [c] == [c];
    }
  }

  lemma {:induction false} BearingFewer(cs: seq<Consumer>, passes: Consumer -> bool, customId: string)
    ensures Bearing(Filtered(cs, passes), customId) <= Bearing(cs, customId)
  {
    if |cs| > 0 {
      BearingFewer(cs[1..], passes, customId);
      if passes(cs[0]) {
        assert Filtered(cs, passes)[1..] == Filtered(cs[1..], passes);
      }
    }
  }

  // ----- a record that is lost -----

  /** Settling on a consumer succeeds whether or not the consumer is recorded: it is if and
      only if the write of the application's details, the last call made, got through. */
  lemma RecordKeptIff(w: World, net: Net, req: Request)
    requires RecordedId(w, req.app, req.workspace) == "" && AppProvisioned(w, net, req).1.Some?
    ensures
      var (w', id, _) := AppProvisioned(w, net, req);
      && w'.kong.clock > 0
      && RecordedId(w', req.app, req.workspace) == if net.detailFails(w'.kong.clock - 1) then "" else id.value
  {
  }

  /** A consumer that does not answer to the key is not found under it. */
  lemma NotAnswering(cs: seq<Consumer>, key: string)
    requires forall c :: c in cs ==> c.id != key && c.username != key
    ensures FindConsumer(cs, key).None?
  {
  }

  lemma MakesOne(w: World, net: Net, req: Request, id: string)
    requires req.workspace != "" && req.app in w.apps && id == w.apps[req.app].id
    requires forall c :: c in StoreOf(w.kong, req.workspace).consumers ==> c.id != id && c.username != id
    ensures
      var (w', made, status) := AppProvisioned(w, net, req);
      var cs := StoreOf(w.kong, req.workspace).consumers;
      StoreOf(w'.kong, req.workspace).consumers == (if made.Some? then cs + [Consumer(made.value, req.app, id)] else cs)
      && (made.None? ==> w'.apps == w.apps && status in {NoApplication, NoConsumer})
      && (made.Some? ==> made.value == net.ids(w.kong.clock + 2) && forall c :: c in cs ==> c.id != made.value)
  {
    NotAnswering(StoreOf(w.kong, req.workspace).consumers, id);
    var (k2, c) := EnsureConsumer(Tick(w.kong), net, req.workspace, id, req.app);
    if c.Some? {
      assert StoreOf(JoinGroup(k2, net, req.workspace, c.value.id).0, req.workspace).consumers
             == StoreOf(k2, req.workspace).consumers;
    }
  }

  /** The consumer the agent makes bears the application's ID as its custom ID, under which
      the lookup does not search. So when its record is lost the next request does not find
      it: that request makes a second consumer if Kong lets it, and otherwise fails. */
  lemma LostRecordIsNotFound(w: World, first: Net, again: Net, req: Request)
    requires req.workspace != "" && RecordedId(w, req.app, req.workspace) == "" && req.app in w.apps
    requires req.app != w.apps[req.app].id && first.ids(w.kong.clock + 2) != w.apps[req.app].id
    requires
      var id := w.apps[req.app].id;
      forall c :: c in StoreOf(w.kong, req.workspace).consumers ==> c.id != id && c.username != id
    requires
      var (w1, made, _) := AppProvisioned(w, first, req);
      made.Some? && w1.kong.clock > 0 && first.detailFails(w1.kong.clock - 1)
    ensures
      var id, before := w.apps[req.app].id, StoreOf(w.kong, req.workspace).consumers;
      var w1 := AppProvisioned(w, first, req).0;
      var (w2, made, status) := AppProvisioned(w1, again, req);
      var after := StoreOf(w2.kong, req.workspace).consumers;
      && RecordedId(w1, req.app, req.workspace) == ""
      && Bearing(after, id) == Bearing(before, id) + (if made.Some? then 2 else 1)
      && (made.None? ==> status in {NoApplication, NoConsumer})
  {
    var id, cs := w.apps[req.app].id, StoreOf(w.kong, req.workspace).consumers;
    var (w1, made, _) := AppProvisioned(w, first, req);
    RecordKeptIff(w, first, req);
    MakesOne(w, first, req, id);
    var c1 := Consumer(made.value, req.app, id);
    BearingOneMore(cs, c1, id);
    LostRecordKeepsApps(w, first, req);
    MakesOne(w1, again, req, id);
    var (_, second, _) := AppProvisioned(w1, again, req);
    if second.Some? {
      BearingOneMore(cs + [c1], Consumer(second.value, req.app, id), id);
    }
  }

  lemma LostRecordKeepsApps(w: World, net: Net, req: Request)
    requires
      var (w1, made, _) := AppProvisioned(w, net, req);
      made.Some? && w1.kong.clock > 0 && net.detailFails(w1.kong.clock - 1)
    ensures AppProvisioned(w, net, req).0.apps == w.apps
  {
  }

  // ----- what is kept -----

  /** IDs and names never collide: Kong's new IDs are unlike each other and unlike
      anything in use, and application names are unlike application IDs. */
  ghost predicate Distinct(w: World, net: Net, base: set<string>) {
    && (forall m, n :: m != n ==> net.ids(m) != net.ids(n))
    && (forall n :: net.ids(n) !in base)
    && (forall n, a :: a in w.apps ==> net.ids(n) != a && net.ids(n) != w.apps[a].id)
    && (forall a, b :: a in w.apps && b in w.apps ==> a != w.apps[b].id)
    && (forall a, b :: a in w.apps && b in w.apps && a != b ==> w.apps[a].id != w.apps[b].id)
    && "" !in w.kong.stores
  }

  /** An ID in use from the beginning, or handed out before now. */
  ghost predicate Issued(id: string, net: Net, base: set<string>, now: nat) {
    id in base || exists m :: 0 <= m < now && net.ids(m) == id
  }

  function ConsumersOf(w: World, v: string): seq<Consumer> {
    StoreAt(w.kong, v).consumers
  }

  /** At most one consumer per application and workspace, and none before one is recorded. */
  ghost predicate OneEach(w: World) {
    forall a, v :: a in w.apps ==>
      Bearing(ConsumersOf(w, v), w.apps[a].id) <= if RecordedId(w, a, v) == "" then 0 else 1
  }

  /** A lookup under the key may return this consumer. */
  predicate Answers(c: Consumer, key: string) {
    c.id == key || c.username == key
  }

  /** The consumer can be recorded for the application: its ID was issued before now, is no
      name in use, is recorded for no other application, and is not the ID of a consumer that
      answers to another. */
  ghost predicate Apart(w: World, net: Net, base: set<string>, a: string, v: string, c: Consumer)
    requires a in w.apps
  {
    && Issued(c.id, net, base, w.kong.clock) && c.id !in w.apps
    && (forall d :: d in ConsumersOf(w, v) ==> d.username != c.id)
    && (forall b :: b in w.apps && b != a ==>
          && c.id != RecordedId(w, b, v)
          && forall d :: d in ConsumersOf(w, v) && Answers(d, w.apps[b].id) ==> d.id != c.id)
  }

  /** So can every consumer of other hands that a lookup of an application's ID may return. */
  ghost predicate StrangersApart(w: World, net: Net, base: set<string>) {
    forall a, v, c :: a in w.apps && v in w.kong.stores && c in ConsumersOf(w, v) && Answers(c, w.apps[a].id) ==>
      Apart(w, net, base, a, v, c)
  }

  /** A recorded ID is nobody's username, and was issued before now. */
  ghost predicate RecordsAreIds(w: World, net: Net, base: set<string>) {
    forall a, v :: a in w.apps && v in w.kong.stores && RecordedId(w, a, v) != "" ==>
      && Issued(RecordedId(w, a, v), net, base, w.kong.clock)
      && RecordedId(w, a, v) !in w.apps
      && forall c :: c in ConsumersOf(w, v) ==> c.username != RecordedId(w, a, v)
  }

  ghost predicate RecordsDiffer(w: World) {
    forall a, b, v :: a in w.apps && b in w.apps && a != b && v in w.kong.stores && RecordedId(w, a, v) != "" ==>
      RecordedId(w, a, v) != RecordedId(w, b, v)
  }

  /** The recorded consumers of these applications exist. */
  ghost predicate RecordsExist(w: World, apps: set<string>) {
    forall a, v :: a in w.apps && a in apps && v in w.kong.stores && RecordedId(w, a, v) != "" ==>
      WithId(ConsumersOf(w, v), RecordedId(w, a, v)).Some?
  }

  ghost predicate InBooks(w: World, net: Net, base: set<string>, apps: set<string>) {
    && OneEach(w) && StrangersApart(w, net, base)
    && RecordsAreIds(w, net, base) && RecordsDiffer(w) && RecordsExist(w, apps)
  }

  // ----- steps that touch no consumer -----

  ghost predicate SameConsumers(w: World, w': World) {
    && w'.apps == w.apps && w'.kong.clock >= w.kong.clock && w'.kong.stores.Keys == w.kong.stores.Keys
    && forall v :: v in w.kong.stores ==> w'.kong.stores[v].consumers == w.kong.stores[v].consumers
  }

  lemma IssuedLater(id: string, net: Net, base: set<string>, now: nat, later: nat)
    requires Issued(id, net, base, now) && now <= later
    ensures Issued(id, net, base, later)
  {
  }

  /** The same applications, and no consumer that was not there. */
  ghost predicate NoNewConsumers(w: World, w': World) {
    && w'.apps == w.apps && w'.kong.clock >= w.kong.clock && w'.kong.stores.Keys == w.kong.stores.Keys
    && forall v, c :: c in ConsumersOf(w', v) ==> c in ConsumersOf(w, v)
  }

  lemma NoNewKeepsApart(w: World, w': World, net: Net, base: set<string>)
    requires StrangersApart(w, net, base) && NoNewConsumers(w, w')
    ensures StrangersApart(w', net, base)
  {
  }

  lemma NoNewKeepsRecords(w: World, w': World, net: Net, base: set<string>)
    requires RecordsAreIds(w, net, base) && RecordsDiffer(w) && NoNewConsumers(w, w')
    ensures RecordsAreIds(w', net, base) && RecordsDiffer(w')
  {
    assert forall a, v :: RecordedId(w', a, v) == RecordedId(w, a, v);
    forall id | Issued(id, net, base, w.kong.clock) ensures Issued(id, net, base, w'.kong.clock) {
      IssuedLater(id, net, base, w.kong.clock, w'.kong.clock);
    }
  }

  lemma BooksKept(w: World, w': World, net: Net, base: set<string>, apps: set<string>)
    requires InBooks(w, net, base, apps) && SameConsumers(w, w')
    ensures InBooks(w', net, base, apps)
  {
    assert forall v :: ConsumersOf(w', v) == ConsumersOf(w, v);
    assert forall a, v :: RecordedId(w', a, v) == RecordedId(w, a, v);
    NoNewKeepsApart(w, w', net, base);
    NoNewKeepsRecords(w, w', net, base);
  }

  lemma PluginCallsKeepBooks(w: World, k': Kong, net: Net, base: set<string>, apps: set<string>)
    requires Distinct(w, net, base) && InBooks(w, net, base, apps) && OnlyPlugins(w.kong, k')
    ensures Distinct(w.(kong := k'), net, base) && InBooks(w.(kong := k'), net, base, apps)
  {
    BooksKept(w, w.(kong := k'), net, base, apps);
  }

  lemma SubmitKeepsConsumers(k: Kong, k1: Kong, net: Net, workspace: string, e: Edit)
    requires OnlyPlugins(k, k1)
    ensures OnlyPlugins(k, Submit(k1, net, workspace, e).0)
  {
  }

  lemma GrantKeepsConsumers(k: Kong, net: Net, workspace: string, route: string, app: string)
    ensures OnlyPlugins(k, Grant(k, net, workspace, route, app).0)
  {
  }

  lemma QuotaKeepsConsumers(
      k: Kong, k1: Kong, net: Net, workspace: string, route: string, app: string, interval: string, limit: int)
    requires OnlyPlugins(k, k1)
    ensures OnlyPlugins(k, PlaceQuota(k1, net, workspace, route, app, interval, limit).0)
  {
  }

  lemma RevokeKeepsConsumers(k: Kong, net: Net, workspace: string, route: string, app: string)
    ensures OnlyPlugins(k, Revoke(k, net, workspace, route, app).0)
  {
    var ps := PluginsOf(k, workspace);
    if RevokeEdit(ps, route, app).Some? {
      var e := RevokeEdit(ps, route, app).value;
      SubmitKeepsConsumers(k, Tick(k), net, workspace, e);
      SubmitKeepsConsumers(k, Submit(Tick(k), net, workspace, e).0, net, workspace, DisableEdit(ps, route, app));
    }
  }

  lemma GrantAccessKeepsConsumers(k: Kong, net: Net, req: Request, app: string)
    ensures OnlyPlugins(k, GrantAccess(k, net, req.workspace, req.route, app, req.quota).0)
  {
    GrantKeepsConsumers(k, net, req.workspace, req.route, app);
    if req.quota.Some? {
      var k1, q := Grant(k, net, req.workspace, req.route, app).0, req.quota.value;
      QuotaKeepsConsumers(k, k1, net, req.workspace, req.route, app, IntervalName(q.interval), q.limit);
    }
  }

  // ----- settling on a consumer -----

  /** A new consumer for the application in the workspace, recorded. */
  ghost predicate AddedAndRecorded(w: World, w': World, net: Net, a: string, v: string, n: nat) {
    && a in w.apps && v in w.kong.stores && RecordedId(w, a, v) == ""
    && w.kong.clock <= n < w'.kong.clock
    && IsFreshConsumer(ConsumersOf(w, v), net.ids(n))
    && w'.kong.stores.Keys == w.kong.stores.Keys
    && (forall u :: u in w.kong.stores ==>
          w'.kong.stores[u].consumers
          == w.kong.stores[u].consumers + if u == v then [Consumer(net.ids(n), a, w.apps[a].id)] else [])
    && w'.apps == w.apps[a := w.apps[a].(details := w.apps[a].details[WksPrefixName(v, APP_ID) := net.ids(n)])]
  }

  lemma RecordsAfterRecording(w: World, w': World, a: string, v: string, id: string)
    requires a in w.apps
    requires w'.apps == w.apps[a := w.apps[a].(details := w.apps[a].details[WksPrefixName(v, APP_ID) := id])]
    ensures forall b, u :: RecordedId(w', b, u) == if b == a && u == v then id else RecordedId(w, b, u)
    ensures w'.apps.Keys == w.apps.Keys && forall b :: b in w.apps ==> w'.apps[b].id == w.apps[b].id
  {
    forall b, u ensures RecordedId(w', b, u) == if b == a && u == v then id else RecordedId(w, b, u) {
      if b == a && WksPrefixName(u, APP_ID) == WksPrefixName(v, APP_ID) {
        PrefixIsInjective(u, v, APP_ID);
      }
    }
  }

  lemma RecordsAfterAdding(w: World, w': World, net: Net, a: string, v: string, n: nat)
    requires AddedAndRecorded(w, w', net, a, v, n)
    ensures forall b, u :: RecordedId(w', b, u) == if b == a && u == v then net.ids(n) else RecordedId(w, b, u)
    ensures w'.apps.Keys == w.apps.Keys && forall b :: b in w.apps ==> w'.apps[b].id == w.apps[b].id
  {
    RecordsAfterRecording(w, w', a, v, net.ids(n));
  }

  lemma OneEachAfterAdding(w: World, w': World, net: Net, base: set<string>, a: string, v: string, n: nat)
    requires Distinct(w, net, base) && OneEach(w) && AddedAndRecorded(w, w', net, a, v, n)
    ensures OneEach(w')
  {
    RecordsAfterAdding(w, w', net, a, v, n);
    var c := Consumer(net.ids(n), a, w.apps[a].id);
    forall b, u | b in w'.apps
      ensures Bearing(ConsumersOf(w', u), w'.apps[b].id) <= if RecordedId(w', b, u) == "" then 0 else 1
    {
      if u == v {
        BearingOneMore(ConsumersOf(w, v), c, w.apps[b].id);
      } else {
        assert ConsumersOf(w', u) == ConsumersOf(w, u);
      }
    }
  }

  lemma ConsumersAfterAdding(w: World, w': World, net: Net, a: string, v: string, n: nat, u: string, c: Consumer)
    requires AddedAndRecorded(w, w', net, a, v, n)
    ensures c in ConsumersOf(w', u) <==>
            c in ConsumersOf(w, u) || (u == v && c == Consumer(net.ids(n), a, w.apps[a].id))
  {
  }

  lemma IssuedNow(w: World, w': World, net: Net, base: set<string>, a: string, v: string, n: nat, id: string)
    requires AddedAndRecorded(w, w', net, a, v, n)
    requires Issued(id, net, base, w.kong.clock) || id == net.ids(n)
    ensures Issued(id, net, base, w'.kong.clock)
  {
  }

  lemma NewIdWasNotIssued(w: World, net: Net, base: set<string>, n: nat)
    requires Distinct(w, net, base) && w.kong.clock <= n
    ensures !Issued(net.ids(n), net, base, w.kong.clock)
  {
  }

  lemma RecordsAreIdsAfterAdding(w: World, w': World, net: Net, base: set<string>, a: string, v: string, n: nat)
    requires Distinct(w, net, base) && RecordsAreIds(w, net, base) && AddedAndRecorded(w, w', net, a, v, n)
    ensures RecordsAreIds(w', net, base)
  {
    RecordsAfterAdding(w, w', net, a, v, n);
    forall b, u | b in w'.apps && u in w'.kong.stores && RecordedId(w', b, u) != ""
      ensures Issued(RecordedId(w', b, u), net, base, w'.kong.clock)
      ensures RecordedId(w', b, u) !in w'.apps
      ensures forall c :: c in ConsumersOf(w', u) ==> c.username != RecordedId(w', b, u)
    {
      IssuedNow(w, w', net, base, a, v, n, RecordedId(w', b, u));
      forall c | c in ConsumersOf(w', u) ensures c.username != RecordedId(w', b, u) {
        ConsumersAfterAdding(w, w', net, a, v, n, u, c);
      }
    }
  }

  lemma RecordsDifferAfterAdding(w: World, w': World, net: Net, base: set<string>, a: string, v: string, n: nat)
    requires Distinct(w, net, base) && RecordsAreIds(w, net, base) && RecordsDiffer(w)
    requires AddedAndRecorded(w, w', net, a, v, n)
    ensures RecordsDiffer(w')
  {
    RecordsAfterAdding(w, w', net, a, v, n);
    NewIdWasNotIssued(w, net, base, n);
  }

  lemma RecordsExistAfterAdding(w: World, w': World, net: Net, apps: set<string>, a: string, v: string, n: nat)
    requires RecordsExist(w, apps) && AddedAndRecorded(w, w', net, a, v, n)
    ensures RecordsExist(w', apps)
  {
    RecordsAfterAdding(w, w', net, a, v, n);
    forall b, u | b in w'.apps && b in apps && u in w'.kong.stores && RecordedId(w', b, u) != ""
      ensures WithId(ConsumersOf(w', u), RecordedId(w', b, u)).Some?
    {
      var c := if b == a && u == v then Consumer(net.ids(n), a, w.apps[a].id)
               else WithId(ConsumersOf(w, u), RecordedId(w, b, u)).value;
      ConsumersAfterAdding(w, w', net, a, v, n, u, c);
    }
  }

  lemma StrangersApartAfterAdding(w: World, w': World, net: Net, base: set<string>, a: string, v: string, n: nat)
    requires Distinct(w, net, base) && StrangersApart(w, net, base) && AddedAndRecorded(w, w', net, a, v, n)
    ensures StrangersApart(w', net, base)
  {
    RecordsAfterAdding(w, w', net, a, v, n);
    NewIdWasNotIssued(w, net, base, n);
    forall b, u, c | b in w'.apps && u in w'.kong.stores && c in ConsumersOf(w', u) && Answers(c, w'.apps[b].id)
      ensures Apart(w', net, base, b, u, c)
    {
      ConsumersAfterAdding(w, w', net, a, v, n, u, c);
      assert Apart(w, net, base, b, u, c);
      IssuedNow(w, w', net, base, a, v, n, c.id);
      forall d | d in ConsumersOf(w', u)
        ensures d.username != c.id
        ensures d in ConsumersOf(w, u) || forall o :: o in w.apps ==> !Answers(d, w.apps[o].id)
      {
        ConsumersAfterAdding(w, w', net, a, v, n, u, d);
      }
    }
  }

  // ----- finding a consumer of other hands -----

  /** A consumer that the lookup returned is recorded for the application. */
  ghost predicate FoundAndRecorded(w: World, w': World, a: string, v: string, c: Consumer) {
    && a in w.apps && v in w.kong.stores && RecordedId(w, a, v) == ""
    && c in ConsumersOf(w, v) && Answers(c, w.apps[a].id)
    && w'.kong.clock >= w.kong.clock && w'.kong.stores.Keys == w.kong.stores.Keys
    && (forall u :: u in w.kong.stores ==> w'.kong.stores[u].consumers == w.kong.stores[u].consumers)
    && w'.apps == w.apps[a := w.apps[a].(details := w.apps[a].details[WksPrefixName(v, APP_ID) := c.id])]
  }

  lemma OneEachAfterFinding(w: World, w': World, a: string, v: string, c: Consumer)
    requires OneEach(w) && FoundAndRecorded(w, w', a, v, c)
    ensures OneEach(w')
  {
    RecordsAfterRecording(w, w', a, v, c.id);
    forall b, u | b in w'.apps
      ensures Bearing(ConsumersOf(w', u), w'.apps[b].id) <= if RecordedId(w', b, u) == "" then 0 else 1
    {
      assert ConsumersOf(w', u) == ConsumersOf(w, u);
      assert Bearing(ConsumersOf(w, u), w.apps[b].id) <= if RecordedId(w, b, u) == "" then 0 else 1;
    }
  }

  lemma RecordsAfterFinding(
      w: World, w': World, net: Net, base: set<string>, apps: set<string>, a: string, v: string, c: Consumer)
    requires FoundAndRecorded(w, w', a, v, c) && Apart(w, net, base, a, v, c)
    requires RecordsAreIds(w, net, base) && RecordsDiffer(w) && RecordsExist(w, apps)
    ensures RecordsAreIds(w', net, base) && RecordsDiffer(w') && RecordsExist(w', apps)
  {
    RecordsAfterRecording(w, w', a, v, c.id);
    assert forall u :: ConsumersOf(w', u) == ConsumersOf(w, u);
    forall id | Issued(id, net, base, w.kong.clock) ensures Issued(id, net, base, w'.kong.clock) {
      IssuedLater(id, net, base, w.kong.clock, w'.kong.clock);
    }
    assert WithId(ConsumersOf(w, v), c.id).Some?;
  }

  lemma StrangersApartAfterFinding(w: World, w': World, net: Net, base: set<string>, a: string, v: string, c: Consumer)
    requires FoundAndRecorded(w, w', a, v, c) && StrangersApart(w, net, base)
    ensures StrangersApart(w', net, base)
  {
    RecordsAfterRecording(w, w', a, v, c.id);
    assert forall u :: ConsumersOf(w', u) == ConsumersOf(w, u);
    assert Apart(w, net, base, a, v, c);
    forall b, u, d | b in w'.apps && u in w'.kong.stores && d in ConsumersOf(w', u) && Answers(d, w'.apps[b].id)
      ensures Apart(w', net, base, b, u, d)
    {
      assert Apart(w, net, base, b, u, d);
      IssuedLater(d.id, net, base, w.kong.clock, w'.kong.clock);
    }
  }

  lemma FindingKeepsBooks(
      w: World, w': World, net: Net, base: set<string>, apps: set<string>, a: string, v: string, c: Consumer)
    requires Distinct(w, net, base) && InBooks(w, net, base, apps) && FoundAndRecorded(w, w', a, v, c)
    ensures Distinct(w', net, base) && InBooks(w', net, base, apps)
  {
    RecordsAfterRecording(w, w', a, v, c.id);
    OneEachAfterFinding(w, w', a, v, c);
    StrangersApartAfterFinding(w, w', net, base, a, v, c);
    RecordsAfterFinding(w, w', net, base, apps, a, v, c);
  }

  /** Details are written without fail. */
  ghost predicate DetailsAreKept(net: Net) {
    forall n :: !net.detailFails(n)
  }

  /** The lookup for the application's consumer returns one. */
  predicate LooksUp(w: World, net: Net, req: Request) {
    && req.app in w.apps && Reads(Tick(w.kong), net, req.workspace)
    && FindConsumer(StoreOf(w.kong, req.workspace).consumers, w.apps[req.app].id).Some?
  }

  lemma SettlesOnFound(w: World, net: Net, req: Request)
    requires DetailsAreKept(net) && req.workspace != "" && RecordedId(w, req.app, req.workspace) == ""
    requires !net.readFails(w.kong.clock) && LooksUp(w, net, req)
    ensures FoundAndRecorded(
              w, AppProvisioned(w, net, req).0, req.app, req.workspace,
              FindConsumer(ConsumersOf(w, req.workspace), w.apps[req.app].id).value)
  {
  }

  lemma SettlesOnNew(w: World, net: Net, req: Request)
    requires DetailsAreKept(net) && req.workspace != "" && RecordedId(w, req.app, req.workspace) == ""
    requires !net.readFails(w.kong.clock) && req.app in w.apps && !LooksUp(w, net, req)
    ensures
      var w' := AppProvisioned(w, net, req).0;
      SameConsumers(w, w') || AddedAndRecorded(w, w', net, req.app, req.workspace, w.kong.clock + 2)
  {
    var k1, v := Tick(w.kong), req.workspace;
    assert StoreOf(k1, v).consumers == ConsumersOf(w, v);
    var (k2, c) := EnsureConsumer(k1, net, v, w.apps[req.app].id, req.app);
    if c.Some? {
      assert StoreOf(JoinGroup(k2, net, v, c.value.id).0, v).consumers == StoreOf(k2, v).consumers;
    }
  }

  /** What settling on a consumer comes to: nothing, or a consumer found or made, which is
      then recorded. */
  lemma SettledCases(w: World, net: Net, req: Request)
    requires DetailsAreKept(net) && req.workspace != ""
    ensures
      var w' := Settled(w, net, req).0;
      || SameConsumers(w, w')
      || AddedAndRecorded(w, w', net, req.app, req.workspace, w.kong.clock + 2)
      || (req.app in w.apps
          && var c := FindConsumer(ConsumersOf(w, req.workspace), w.apps[req.app].id);
             c.Some? && FoundAndRecorded(w, w', req.app, req.workspace, c.value))
  {
    if RecordedId(w, req.app, req.workspace) == "" && !net.readFails(w.kong.clock) && req.app in w.apps {
      if LooksUp(w, net, req) {
        SettlesOnFound(w, net, req);
      } else {
        SettlesOnNew(w, net, req);
      }
    }
  }

  lemma ProvisionKeepsBooks(w: World, net: Net, agent: Agent, base: set<string>, apps: set<string>, req: Request)
    requires Distinct(w, net, base) && InBooks(w, net, base, apps) && DetailsAreKept(net)
    ensures
      var w' := Provisioned(w, net, req, agent.aclDisable).0;
      Distinct(w', net, base) && InBooks(w', net, base, apps)
  {
    if req.workspace != "" && req.route != "" {
      var (w1, id, _) := Settled(w, net, req);
      SettledCases(w, net, req);
      if SameConsumers(w, w1) {
        BooksKept(w, w1, net, base, apps);
      } else if AddedAndRecorded(w, w1, net, req.app, req.workspace, w.kong.clock + 2) {
        AddingKeepsBooks(w, w1, net, base, apps, req.app, req.workspace, w.kong.clock + 2);
      } else {
        var c := FindConsumer(ConsumersOf(w, req.workspace), w.apps[req.app].id).value;
        FindingKeepsBooks(w, w1, net, base, apps, req.app, req.workspace, c);
      }
      ProvisionedInTwo(w, net, req, agent.aclDisable);
      if ReachesRoute(req, id, agent.aclDisable) {
        GrantAccessKeepsConsumers(w1.kong, net, req, id.value);
        PluginCallsKeepBooks(
          w1, GrantAccess(w1.kong, net, req.workspace, req.route, id.value, req.quota).0, net, base, apps);
      }
    }
  }

  lemma AddingKeepsBooks(
      w: World, w': World, net: Net, base: set<string>, apps: set<string>, a: string, v: string, n: nat)
    requires Distinct(w, net, base) && InBooks(w, net, base, apps) && AddedAndRecorded(w, w', net, a, v, n)
    ensures Distinct(w', net, base) && InBooks(w', net, base, apps)
  {
    RecordsAfterAdding(w, w', net, a, v, n);
    OneEachAfterAdding(w, w', net, base, a, v, n);
    StrangersApartAfterAdding(w, w', net, base, a, v, n);
    RecordsAreIdsAfterAdding(w, w', net, base, a, v, n);
    RecordsDifferAfterAdding(w, w', net, base, a, v, n);
    RecordsExistAfterAdding(w, w', net, apps, a, v, n);
  }

  // ----- removing an application -----

  /** Consumers may have gone, but not those of the kept applications. */
  ghost predicate FewerConsumers(w: World, w': World, apps: set<string>) {
    && NoNewConsumers(w, w')
    && (forall v, id :: Bearing(ConsumersOf(w', v), id) <= Bearing(ConsumersOf(w, v), id))
    && (RecordsExist(w, apps) ==> RecordsExist(w', apps))
  }

  lemma FewerKeepsBooks(w: World, w': World, net: Net, base: set<string>, apps: set<string>)
    requires InBooks(w, net, base, apps) && FewerConsumers(w, w', apps)
    ensures InBooks(w', net, base, apps)
  {
    NoNewKeepsApart(w, w', net, base);
    NoNewKeepsRecords(w, w', net, base);
    forall a, v | a in w'.apps
      ensures Bearing(ConsumersOf(w', v), w'.apps[a].id) <= if RecordedId(w', a, v) == "" then 0 else 1
    {
      assert Bearing(ConsumersOf(w, v), w.apps[a].id) <= if RecordedId(w, a, v) == "" then 0 else 1;
    }
  }

  lemma RemovalSparesRecords(w: World, w': World, apps: set<string>, b: string, v: string)
    requires RecordsExist(w, apps) && RecordsDiffer(w) && b in w.apps && b !in apps && v in w.kong.stores
    requires w'.apps == w.apps && w'.kong.stores.Keys == w.kong.stores.Keys
    requires RecordedId(w, b, v) != ""
    requires ConsumersOf(w', v) == Filtered(ConsumersOf(w, v), IsNot({RecordedId(w, b, v)}))
    requires forall u :: u != v ==> ConsumersOf(w', u) == ConsumersOf(w, u)
    ensures RecordsExist(w', apps)
  {
    forall a, u | a in w'.apps && a in apps && u in w'.kong.stores && RecordedId(w', a, u) != ""
      ensures WithId(ConsumersOf(w', u), RecordedId(w', a, u)).Some?
    {
      assert RecordedId(w', a, u) == RecordedId(w, a, u);
      if u == v {
        assert RecordedId(w, a, v) != RecordedId(w, b, v);
        assert WithId(ConsumersOf(w, v), RecordedId(w, a, v)).value in ConsumersOf(w', v);
      }
    }
  }

  lemma RemovalSparesOthers(
      w: World, net: Net, base: set<string>, apps: set<string>, b: string, v: string)
    requires Distinct(w, net, base) && InBooks(w, net, base, apps)
    requires b in w.apps && b !in apps && v != "" && RecordedId(w, b, v) != ""
    ensures FewerConsumers(w, w.(kong := RemoveConsumer(w.kong, net, v, RecordedId(w, b, v)).0), apps)
  {
    var id := RecordedId(w, b, v);
    var (k', ok) := RemoveConsumer(w.kong, net, v, id);
    var w' := w.(kong := k');
    if k'.stores != w.kong.stores {
      var cs := ConsumersOf(w, v);
      var found := FindConsumer(cs, id).value;
      assert found.id == id;
      assert found.id in IdsOf(cs) && {id} * IdsOf(cs) == {id};
      assert ConsumersOf(w', v) == Filtered(cs, IsNot({id}));
      forall u | u != v ensures ConsumersOf(w', u) == ConsumersOf(w, u) {
      }
      forall x ensures Bearing(ConsumersOf(w', v), x) <= Bearing(cs, x) {
        BearingFewer(cs, IsNot({id}), x);
      }
      if RecordsExist(w, apps) {
        RemovalSparesRecords(w, w', apps, b, v);
      }
    } else {
      assert forall u :: ConsumersOf(w', u) == ConsumersOf(w, u);
      assert forall a, u :: RecordedId(w', a, u) == RecordedId(w, a, u);
    }
  }

  lemma {:induction false} DeleteAllKeepsBooks(
      w: World, net: Net, base: set<string>, apps: set<string>, b: string, ids: map<string, string>, order: seq<string>)
    requires Distinct(w, net, base) && InBooks(w, net, base, apps) && b in w.apps && b !in apps
    requires forall v :: v in ids ==> v != "" && ids[v] != "" && ids[v] == RecordedId(w, b, v)
    ensures
      var w' := w.(kong := DeleteAll(w.kong, net, ids, order).0);
      Distinct(w', net, base) && InBooks(w', net, base, apps)
    decreases |order|
  {
    if |order| > 0 {
      var v := order[0];
      if v !in ids {
        DeleteAllKeepsBooks(w, net, base, apps, b, ids, order[1..]);
      } else {
        var w1 := w.(kong := RemoveConsumer(w.kong, net, v, ids[v]).0);
        RemovalSparesOthers(w, net, base, apps, b, v);
        FewerKeepsBooks(w, w1, net, base, apps);
        if RemoveConsumer(w.kong, net, v, ids[v]).1 {
          assert forall u :: u in ids ==> RecordedId(w1, b, u) == RecordedId(w, b, u);
          DeleteAllKeepsBooks(w1, net, base, apps, b, ids, order[1..]);
        }
      }
    }
  }

  lemma ForgettingKeepsBooks(w: World, net: Net, base: set<string>, apps: set<string>, b: string)
    requires Distinct(w, net, base) && InBooks(w, net, base, apps)
    ensures
      var w' := w.(apps := w.apps - {b});
      Distinct(w', net, base) && InBooks(w', net, base, apps)
  {
    ForgettingKeepsConsumers(w, net, base, b);
    ForgettingKeepsRecords(w, net, base, apps, b);
  }

  lemma ForgettingKeepsConsumers(w: World, net: Net, base: set<string>, b: string)
    requires OneEach(w) && StrangersApart(w, net, base)
    ensures OneEach(w.(apps := w.apps - {b})) && StrangersApart(w.(apps := w.apps - {b}), net, base)
  {
    var w' := w.(apps := w.apps - {b});
    assert forall v :: ConsumersOf(w', v) == ConsumersOf(w, v);
    assert forall a, v :: a in w'.apps ==> RecordedId(w', a, v) == RecordedId(w, a, v);
    forall a, v | a in w'.apps
      ensures Bearing(ConsumersOf(w', v), w'.apps[a].id) <= if RecordedId(w', a, v) == "" then 0 else 1
    {
      assert Bearing(ConsumersOf(w, v), w.apps[a].id) <= if RecordedId(w, a, v) == "" then 0 else 1;
    }
    forall a, v, c | a in w'.apps && v in w'.kong.stores && c in ConsumersOf(w', v) && Answers(c, w'.apps[a].id)
      ensures Apart(w', net, base, a, v, c)
    {
      assert Apart(w, net, base, a, v, c);
    }
  }

  lemma ForgettingKeepsRecords(w: World, net: Net, base: set<string>, apps: set<string>, b: string)
    requires RecordsAreIds(w, net, base) && RecordsDiffer(w) && RecordsExist(w, apps)
    ensures
      var w' := w.(apps := w.apps - {b});
      RecordsAreIds(w', net, base) && RecordsDiffer(w') && RecordsExist(w', apps)
  {
    var w' := w.(apps := w.apps - {b});
    assert forall v :: ConsumersOf(w', v) == ConsumersOf(w, v);
    assert forall a, v :: a in w'.apps ==> a in w.apps && RecordedId(w', a, v) == RecordedId(w, a, v);
  }

  // ----- runs -----

  lemma StepKeepsBooks(w: World, net: Net, agent: Agent, base: set<string>, apps: set<string>, step: Step)
    requires Distinct(w, net, base) && InBooks(w, net, base, apps) && DetailsAreKept(net) && "" !in agent.workspaces
    requires step.DeprovisionApp? ==> step.app !in apps
    ensures
      var w' := Perform(w, net, agent, step).0;
      Distinct(w', net, base) && InBooks(w', net, base, apps)
  {
    match step
    case ProvisionAccess(req) =>
      ProvisionKeepsBooks(w, net, agent, base, apps, req);
    case DeprovisionAccess(req) =>
      DeprovisionKeepsBooks(w, net, agent, base, apps, req);
    case DeprovisionApp(b, order) =>
      AppRemovalKeepsBooks(w, net, agent, base, apps, b, order);
  }

  lemma AppRemovalKeepsBooks(
      w: World, net: Net, agent: Agent, base: set<string>, apps: set<string>, b: string, order: seq<string>)
    requires Distinct(w, net, base) && InBooks(w, net, base, apps) && "" !in agent.workspaces && b !in apps
    ensures
      var w' := AppDeprovisioned(w, net, agent, b, order).0;
      Distinct(w', net, base) && InBooks(w', net, base, apps)
  {
    if b in w.apps {
      var ids := RecordedIds(w.apps[b].details, agent.workspaces);
      DeleteAllKeepsBooks(w, net, base, apps, b, ids, order);
      ForgettingKeepsBooks(w.(kong := DeleteAll(w.kong, net, ids, order).0), net, base, apps, b);
    }
  }

  lemma DeprovisionKeepsBooks(w: World, net: Net, agent: Agent, base: set<string>, apps: set<string>, req: Request)
    requires Distinct(w, net, base) && InBooks(w, net, base, apps)
    ensures
      var w' := Deprovisioned(w, net, req, agent.aclDisable).0;
      Distinct(w', net, base) && InBooks(w', net, base, apps)
  {
    var id := RecordedId(w, req.app, req.workspace);
    RevokeKeepsConsumers(w.kong, net, req.workspace, req.route, id);
    PluginCallsKeepBooks(w, Revoke(w.kong, net, req.workspace, req.route, id).0, net, base, apps);
  }

  /** Over any run of serialised steps whose detail writes succeed: in every workspace an
      application has at most one consumer created for it, and until the application is
      removed the consumer recorded for it exists. `apps` are the applications that the
      run does not remove. */
  lemma {:induction false} RunKeepsBooks(
      w: World, net: Net, agent: Agent, base: set<string>, apps: set<string>, steps: seq<Step>)
    requires Distinct(w, net, base) && InBooks(w, net, base, apps) && DetailsAreKept(net) && "" !in agent.workspaces
    requires forall s :: s in steps && s.DeprovisionApp? ==> s.app !in apps
    ensures OneEach(Run(w, net, agent, steps))
    ensures RecordsExist(Run(w, net, agent, steps), apps)
    decreases |steps|
  {
    if |steps| > 0 {
      assert steps[0] in steps;
      StepKeepsBooks(w, net, agent, base, apps, steps[0]);
      RunKeepsBooks(Perform(w, net, agent, steps[0]).0, net, agent, base, apps, steps[1..]);
    }
  }
}
