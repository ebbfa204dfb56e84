/**
 Removing an application (`AppProvisioner`): deleting the consumer recorded for it in
 each workspace, in whatever order the map of recorded IDs is iterated.
 */
module Applications {
  import opened KongStore
  import opened KongClients
  import opened Names
  import opened Sequences

  /** The recorded consumer of each workspace that has one. */
  function RecordedIds(details: map<string, string>, workspaces: seq<string>): map<string, string> {
    map w | w in workspaces && Recorded(details, w) != "" :: Recorded(details, w)
  }

  lemma RecordedOneMore(details: map<string, string>, workspaces: seq<string>, i: nat)
    requires i < |workspaces|
    ensures
      var before, w := RecordedIds(details, workspaces[..i]), workspaces[i];
      RecordedIds(details, workspaces[..i + 1])
      == if Recorded(details, w) != "" then before[w := Recorded(details, w)] else before
  {
  }

  /** Deleting consumer by consumer, stopping at the first error. */
  function DeleteAll(k: Kong, net: Net, ids: map<string, string>, order: seq<string>): (Kong, bool)
    decreases |order|
  {
    if |order| == 0 then (k, true)
    else if order[0] !in ids then DeleteAll(k, net, ids, order[1..])
    else
      var (k', ok) := RemoveConsumer(k, net, order[0], ids[order[0]]);
      if ok then DeleteAll(k', net, ids, order[1..]) else (k', false)
  }

  lemma {:induction false} DeleteAllInTwo(k: Kong, net: Net, ids: map<string, string>, a: seq<string>, b: seq<string>)
    ensures
      var (k', ok) := DeleteAll(k, net, ids, a);
      DeleteAll(k, net, ids, a + b) == if ok then DeleteAll(k', net, ids, b) else (k', false)
    decreases |a|
  {
    if |a| == 0 {
      assert a + b == b;
    } else {
      assert (a + b)[1..] == a[1..] + b;
      var k' := if a[0] in ids then RemoveConsumer(k, net, a[0], ids[a[0]]).0 else k;
      DeleteAllInTwo(k', net, ids, a[1..], b);
    }
  }

  /** The consumers of a workspace that are there before and not after. */
  function Lost(k: Kong, k': Kong, v: string): set<string> {
    IdsOf(StoreAt(k, v).consumers) - IdsOf(StoreAt(k', v).consumers)
  }

  /** The workspace has lost exactly the plugins of the consumers it has lost. */
  ghost predicate LosesTheirPlugins(k: Kong, k': Kong, v: string) {
    && k'.stores.Keys == k.stores.Keys
    && IdsOf(StoreAt(k', v).consumers) <= IdsOf(StoreAt(k, v).consumers)
    && StoreAt(k', v).plugins == Filtered(StoreAt(k, v).plugins, IsNotFor(Lost(k, k', v)))
  }

  lemma NothingLost(k: Kong, k': Kong, v: string)
    requires k'.stores.Keys == k.stores.Keys && StoreAt(k', v) == StoreAt(k, v)
    ensures LosesTheirPlugins(k, k', v)
  {
    AllPass(StoreAt(k, v).plugins, IsNotFor(Lost(k, k', v)));
  }

  lemma RemoveLosesTheirPlugins(k: Kong, net: Net, w: string, id: string, v: string)
    ensures LosesTheirPlugins(k, RemoveConsumer(k, net, w, id).0, v)
  {
    var k' := RemoveConsumer(k, net, w, id).0;
    if StoreAt(k', v) == StoreAt(k, v) {
      NothingLost(k, k', v);
    } else {
      var s := StoreAt(k, v);
      var found := FindConsumer(s.consumers, id).value;
      assert StoreAt(k', v) == Purge(s, {found.id}) && found in s.consumers;
      assert {found.id} * IdsOf(s.consumers) == {found.id};
      assert Lost(k, k', v) == {found.id} by {
        forall i | i in IdsOf(s.consumers) && i != found.id ensures i in IdsOf(Purge(s, {found.id}).consumers) {
          var c :| c in s.consumers && c.id == i;
          assert c in Purge(s, {found.id}).consumers;
        }
      }
    }
  }

  lemma LossesChain(k: Kong, k1: Kong, k2: Kong, v: string)
    requires LosesTheirPlugins(k, k1, v) && LosesTheirPlugins(k1, k2, v)
    ensures LosesTheirPlugins(k, k2, v)
  {
    FilteredTwice(
      StoreAt(k, v).plugins, IsNotFor(Lost(k, k1, v)), IsNotFor(Lost(k1, k2, v)), IsNotFor(Lost(k, k2, v)));
  }

  /** Whatever is deleted in whatever order, a workspace loses plugins with their consumers
      and in no other way. */
  lemma {:induction false} DeleteAllLosesTheirPlugins(
      k: Kong, net: Net, ids: map<string, string>, order: seq<string>, v: string)
    ensures LosesTheirPlugins(k, DeleteAll(k, net, ids, order).0, v)
    decreases |order|
  {
    if |order| == 0 {
      NothingLost(k, k, v);
    } else if order[0] !in ids {
      DeleteAllLosesTheirPlugins(k, net, ids, order[1..], v);
    } else {
      var (k1, ok) := RemoveConsumer(k, net, order[0], ids[order[0]]);
      RemoveLosesTheirPlugins(k, net, order[0], ids[order[0]], v);
      if ok {
        DeleteAllLosesTheirPlugins(k1, net, ids, order[1..], v);
        LossesChain(k, k1, DeleteAll(k1, net, ids, order[1..]).0, v);
      }
    }
  }

  // ----- the provisioner -----

  datatype AppStatus = Removed | NoConsumers | NotRemoved

  class AppProvisioner {
    const client: KongClient
    var consumerIDs: map<string, string>

    constructor (client: KongClient, details: map<string, string>, workspaces: seq<string>)
      ensures this.client == client && consumerIDs == RecordedIds(details, workspaces)
    {
      this.client := client;
      var ids: map<string, string> := map[];
      for i := 0 to |workspaces|
        invariant ids == RecordedIds(details, workspaces[..i])
      {
        var consumerID := Recorded(details, workspaces[i]);
        if consumerID != "" {
          ids := ids[workspaces[i] := consumerID];
        }
        RecordedOneMore(details, workspaces, i);
      }
      assert workspaces[..|workspaces|] == workspaces;
      consumerIDs := ids;
    }

    /** Go leaves the iteration order open; `order` is the one this run happened to take. */
    method Deprovision() returns (status: AppStatus, ghost order: seq<string>)
      modifies client
      ensures status == NoConsumers <==> |consumerIDs| == 0
      ensures (client.State(), status != NotRemoved) == DeleteAll(old(client.State()), client.net, consumerIDs, order)
      ensures status == Removed ==> (set w | w in order) == consumerIDs.Keys
    {
      order := [];
      if |consumerIDs| == 0 {
        return NoConsumers, order;
      }
      var left := consumerIDs.Keys;
      while left != {}
        invariant left <= consumerIDs.Keys && (set w | w in order) == consumerIDs.Keys - left
        invariant DeleteAll(old(client.State()), client.net, consumerIDs, order) == (client.State(), true)
        decreases left
      {
        var workspace :| workspace in left;
        left := left - {workspace};
        assert (set w | w in order + [workspace]) == (set w | w in order) + {workspace};
        DeleteAllInTwo(old(client.State()), client.net, consumerIDs, order, [workspace]);
        order := order + [workspace];
        var err := client.DeleteConsumer(workspace, consumerIDs[workspace]);
        if err {
          return NotRemoved, order;
        }
      }
      return Removed, order;
    }
  }

  // ----- what success means -----

  ghost function IdsFor(ids: map<string, string>, v: string): set<string> {
    set w | w in ids && Target(w) == v :: ids[w]
  }

  /** The stores without the given consumers and what belongs to them. */
  ghost function Purged(stores: map<string, Store>, ids: map<string, string>): map<string, Store> {
    map v | v in stores :: Purge(stores[v], IdsFor(ids, v))
  }

  /** No consumer goes by a recorded ID as its username. */
  ghost predicate NoAliases(stores: map<string, Store>, ids: map<string, string>) {
    && (forall w :: w in ids ==> ids[w] != "")
    && (forall v, c :: v in stores && c in stores[v].consumers ==> c.username !in IdsFor(ids, v))
  }

  /** Lookups fail only for missing consumers. */
  ghost predicate LookupsAnswer(net: Net) {
    forall n :: !net.readFails(n)
  }

  lemma PurgedTwice(stores: map<string, Store>, a: map<string, string>, b: map<string, string>, c: map<string, string>)
    requires forall v :: v in stores ==> IdsFor(c, v) == IdsFor(a, v) + IdsFor(b, v)
    ensures Purged(Purged(stores, a), b) == Purged(stores, c)
  {
    forall v | v in stores ensures Purged(Purged(stores, a), b)[v] == Purged(stores, c)[v] {
      PurgeTwice(stores[v], IdsFor(a, v), IdsFor(b, v));
    }
  }

  lemma PurgedKeepsNoAliases(stores: map<string, Store>, part: map<string, string>, ids: map<string, string>)
    requires NoAliases(stores, ids)
    ensures NoAliases(Purged(stores, part), ids)
  {
  }

  lemma RemovesOne(k: Kong, net: Net, w: string, id: string)
    requires id != "" && !net.readFails(k.clock)
    requires forall c :: c in StoreOf(k, w).consumers ==> c.username != id
    ensures
      var (k', ok) := RemoveConsumer(k, net, w, id);
      StoreOf(k', w) == if ok then Purge(StoreOf(k, w), {id}) else StoreOf(k, w)
  {
    if FindConsumer(StoreOf(k, w).consumers, id).None? {
      NobodyPurged(StoreOf(k, w), {id});
    }
  }

  lemma RemovePurgesAt(k: Kong, net: Net, ids: map<string, string>, w: string, v: string)
    requires w in ids && NoAliases(k.stores, ids) && LookupsAnswer(net) && v in k.stores
    requires RemoveConsumer(k, net, w, ids[w]).1
    ensures
      var k' := RemoveConsumer(k, net, w, ids[w]).0;
      v in k'.stores && k'.stores[v] == Purge(k.stores[v], if v == Target(w) then {ids[w]} else {})
  {
    if v == Target(w) {
      assert ids[w] in IdsFor(ids, v);
      RemovesOne(k, net, w, ids[w]);
    } else {
      NobodyPurged(k.stores[v], {});
    }
  }

  lemma RemovePurges(k: Kong, net: Net, ids: map<string, string>, w: string)
    requires w in ids && NoAliases(k.stores, ids) && LookupsAnswer(net)
    ensures
      var (k', ok) := RemoveConsumer(k, net, w, ids[w]);
      k'.stores == (if ok then Purged(k.stores, map[w := ids[w]]) else k.stores) && NoAliases(k'.stores, ids)
  {
    var (k', ok) := RemoveConsumer(k, net, w, ids[w]);
    var one := map[w := ids[w]];
    PurgedKeepsNoAliases(k.stores, one, ids);
    if ok {
      forall v | v in k.stores ensures k'.stores[v] == Purged(k.stores, one)[v] {
        assert IdsFor(one, v) == if v == Target(w) then {ids[w]} else {};
        RemovePurgesAt(k, net, ids, w, v);
      }
    }
  }

  function Restricted(ids: map<string, string>, order: seq<string>): map<string, string> {
    map w | w in order && w in ids :: ids[w]
  }

  lemma NothingPurged(stores: map<string, Store>)
    ensures Purged(stores, map[]) == stores
  {
    forall v | v in stores {
      NobodyPurged(stores[v], IdsFor(map[], v));
    }
  }

  lemma PurgeOneThenRest(stores: map<string, Store>, ids: map<string, string>, w: string, rest: seq<string>)
    requires w in ids
    ensures Purged(Purged(stores, map[w := ids[w]]), Restricted(ids, rest))
            == Purged(stores, Restricted(ids, [w] + rest))
  {
    PurgedTwice(stores, map[w := ids[w]], Restricted(ids, rest), Restricted(ids, [w] + rest));
  }

  lemma DeleteAllStep(k: Kong, net: Net, ids: map<string, string>, order: seq<string>)
    requires |order| > 0 && order[0] in ids
    ensures
      var (k1, ok) := RemoveConsumer(k, net, order[0], ids[order[0]]);
      DeleteAll(k, net, ids, order) == if ok then DeleteAll(k1, net, ids, order[1..]) else (k1, false)
  {
  }

  /** Deleting in any order removes exactly the consumers of the workspaces reached, and
      success means every workspace of the order was reached. */
  lemma {:induction false} DeleteAllPurges(k: Kong, net: Net, ids: map<string, string>, order: seq<string>)
    returns (n: nat)
    requires NoAliases(k.stores, ids) && LookupsAnswer(net)
    ensures n <= |order|
    ensures DeleteAll(k, net, ids, order).0.stores == Purged(k.stores, Restricted(ids, order[..n]))
    ensures DeleteAll(k, net, ids, order).1 ==> n == |order|
    decreases |order|
  {
    if |order| == 0 {
      NothingPurged(k.stores);
      return 0;
    }
    var w, rest := order[0], order[1..];
    if w !in ids {
      n := DeleteAllPurges(k, net, ids, rest);
      RestrictedSkips(ids, w, rest[..n]);
      OneMoreTaken(order, n);
      return n + 1;
    }
    RemovePurges(k, net, ids, w);
    DeleteAllStep(k, net, ids, order);
    var (k1, ok) := RemoveConsumer(k, net, w, ids[w]);
    if !ok {
      NothingPurged(k.stores);
      return 0;
    }
    n := DeleteAllPurges(k1, net, ids, rest);
    PurgeOneThenRest(k.stores, ids, w, rest[..n]);
    OneMoreTaken(order, n);
    return n + 1;
  }

  lemma OneMoreTaken(order: seq<string>, n: nat)
    requires n < |order|
    ensures order[..n + 1] == [order[0]] + order[1..][..n]
  {
  }

  lemma RestrictedSkips(ids: map<string, string>, w: string, rest: seq<string>)
    requires w !in ids
    ensures Restricted(ids, [w] + rest) == Restricted(ids, rest)
  {
  }

  ghost predicate Covers(order: seq<string>, ids: map<string, string>) {
    forall w :: w in ids ==> w in order
  }

  /** Earlier attempts, each in its own order and each perhaps cut short. */
  function AfterAttempts(k: Kong, net: Net, ids: map<string, string>, attempts: seq<seq<string>>): Kong
    decreases |attempts|
  {
    if |attempts| == 0 then k
    else AfterAttempts(DeleteAll(k, net, ids, attempts[0]).0, net, ids, attempts[1..])
  }

  /** The consumers of these IDs are gone, and of everything else exactly what belonged to
      one of those that existed. */
  ghost predicate OnlyTheirsGone(s: Store, s': Store, ids: set<string>) {
    var gone := ids * IdsOf(s.consumers);
    && (forall c :: c in s'.consumers <==> c in s.consumers && c.id !in ids)
    && (forall p :: p in s'.plugins <==> p in s.plugins && !(p.consumer.To? && p.consumer.id in gone))
    && (forall g :: g in s'.groups <==> g in s.groups && g.0 !in gone)
    && (forall c :: c in s'.credentials <==> c in s.credentials && c.consumer !in gone)
  }

  lemma PurgeSparesOthers(s: Store, ids: set<string>)
    ensures OnlyTheirsGone(s, Purge(s, ids), ids)
  {
  }

  lemma {:induction false} AttemptsPurge(
      k: Kong, net: Net, ids: map<string, string>, attempts: seq<seq<string>>, last: seq<string>)
    requires NoAliases(k.stores, ids) && LookupsAnswer(net) && Covers(last, ids)
    requires DeleteAll(AfterAttempts(k, net, ids, attempts), net, ids, last).1
    ensures DeleteAll(AfterAttempts(k, net, ids, attempts), net, ids, last).0.stores == Purged(k.stores, ids)
    decreases |attempts|
  {
    if |attempts| == 0 {
      var n := DeleteAllPurges(k, net, ids, last);
      assert last[..n] == last;
      assert Restricted(ids, last) == ids;
    } else {
      var n := DeleteAllPurges(k, net, ids, attempts[0]);
      var part := Restricted(ids, attempts[0][..n]);
      var k1 := DeleteAll(k, net, ids, attempts[0]).0;
      PurgedKeepsNoAliases(k.stores, part, ids);
      AttemptsPurge(k1, net, ids, attempts[1..], last);
      PurgedTwice(k.stores, part, ids, ids);
    }
  }

  /** When an attempt succeeds - at once or after any number of earlier ones, in whatever
      orders - the recorded consumers are gone with all that belonged to them, and nothing
      that belongs to another consumer has changed. */
  lemma DeprovisionIsOrderFreeAndRetryable(
      k: Kong, net: Net, ids: map<string, string>, attempts: seq<seq<string>>, last: seq<string>)
    requires NoAliases(k.stores, ids) && LookupsAnswer(net) && Covers(last, ids)
    requires DeleteAll(AfterAttempts(k, net, ids, attempts), net, ids, last).1
    ensures
      var end := DeleteAll(AfterAttempts(k, net, ids, attempts), net, ids, last).0.stores;
      && end == Purged(k.stores, ids)
      && forall v :: v in k.stores ==> OnlyTheirsGone(k.stores[v], end[v], IdsFor(ids, v))
  {
    AttemptsPurge(k, net, ids, attempts, last);
    forall v | v in k.stores ensures OnlyTheirsGone(k.stores[v], Purged(k.stores, ids)[v], IdsFor(ids, v)) {
      PurgeSparesOthers(k.stores[v], IdsFor(ids, v));
    }
  }

  /** The hypothesis on lookups is needed: of a consumer that exists, a deletion that
      reports success leaves nothing if and only if its lookup was answered. */
  lemma RemovedIffLookedUp(k: Kong, net: Net, w: string, id: string)
    requires id != "" && WithId(StoreOf(k, w).consumers, id).Some?
    requires RemoveConsumer(k, net, w, id).1
    ensures WithId(StoreOf(RemoveConsumer(k, net, w, id).0, w).consumers, id).None? <==> !net.readFails(k.clock)
  {
  }
}
