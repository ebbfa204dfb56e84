/**
 The part of Kong that the agents read and write: one store per workspace, the
 outcome of every admin call, and the edits the agents send for plugins.

 The admin API is foreign code. Its calls are modelled by contract: a call either
 gets through or has no effect, and which calls fail is left to a `Net`, so every
 statement below holds for all patterns of failure.
 */
module KongStore {
  import opened Sequences

  const ACL := "acl"
  const RATE_LIMITING := "rate-limiting"
  const DEFAULT_WORKSPACE := "default"

  datatype Option<+T> = None | Some(value: T)

  /** A plugin's optional reference to a route, service or consumer. `NoId` is a
      reference that carries no ID. */
  datatype Scope = Unset | NoId | To(id: string)

  datatype Config =
    | Acl(allow: seq<string>, deny: seq<string>, hideGroups: bool)
    | Quota(policy: string, limits: map<string, int>)
    | Other(text: string)

  datatype Plugin = Plugin(
    id: string, name: string,
    route: Scope, service: Scope, consumer: Scope,
    enabled: bool, config: Config)

  /** What a plugin is scoped to. */
  datatype Key = Key(route: Scope, service: Scope, consumer: Scope)

  function KeyOf(p: Plugin): Key {
    Key(p.route, p.service, p.consumer)
  }

  /** A scope and what holds there. */
  datatype Limit = Limit(key: Key, config: Config)

  function LimitOf(p: Plugin): Limit {
    Limit(KeyOf(p), p.config)
  }

  datatype Consumer = Consumer(id: string, username: string, customId: string)

  datatype CredentialKind = ApiKey | BasicAuth | OAuthSecret

  /** `login` is the key, the username or the client ID, according to the kind. */
  datatype Credential = Credential(
    id: string, kind: CredentialKind, consumer: string, login: string, secret: string)

  datatype Store = Store(
    plugins: seq<Plugin>,
    consumers: seq<Consumer>,
    groups: set<(string, string)>,
    credentials: seq<Credential>)

  const EMPTY_STORE := Store([], [], {}, [])

  /** All workspaces, and the number of calls made so far. */
  datatype Kong = Kong(stores: map<string, Store>, clock: nat)

  /** What the network and the remote ends do with the n-th call: whether a read, a
      write or a write of application details fails, and which ID a creation gets. */
  datatype Net = Net(
    readFails: nat -> bool,
    writeFails: nat -> bool,
    detailFails: nat -> bool,
    ids: nat -> string)

  function Tick(k: Kong): Kong {
    k.(clock := k.clock + 1)
  }

  /** The workspace a request is sent to; a context without one means the default. */
  function Target(workspace: string): string {
    if workspace == "" then DEFAULT_WORKSPACE else workspace
  }

  function StoreAt(k: Kong, v: string): Store {
    if v in k.stores then k.stores[v] else EMPTY_STORE
  }

  function StoreOf(k: Kong, workspace: string): Store {
    StoreAt(k, Target(workspace))
  }

  function PluginsOf(k: Kong, workspace: string): seq<Plugin> {
    StoreOf(k, workspace).plugins
  }

  function WithStore(k: Kong, workspace: string, s: Store): Kong {
    k.(stores := k.stores[Target(workspace) := s])
  }

  predicate Reads(k: Kong, net: Net, workspace: string) {
    Target(workspace) in k.stores && !net.readFails(k.clock)
  }

  predicate Writes(k: Kong, net: Net, workspace: string) {
    Target(workspace) in k.stores && !net.writeFails(k.clock)
  }

  /** Everything outside `workspace` is the same in both states. */
  ghost predicate SameElsewhere(k: Kong, k': Kong, workspace: string) {
    && k'.stores.Keys == k.stores.Keys
    && forall v :: v in k.stores && v != Target(workspace) ==> k'.stores[v] == k.stores[v]
  }

  /** Time has not run backwards, and nothing but plugins has changed. */
  ghost predicate OnlyPlugins(k: Kong, k': Kong) {
    && k'.clock >= k.clock && k'.stores.Keys == k.stores.Keys
    && forall v :: v in k.stores ==> k'.stores[v].(plugins := []) == k.stores[v].(plugins := [])
  }

  // ----- plugin edits -----

  /** What the agent sends to create a plugin for a route. */
  datatype NewPlugin = NewPlugin(name: string, consumer: Scope, config: Config)

  datatype Edit =
    | Keep
    | Create(route: string, plugin: NewPlugin)
    | Patch(patched: Plugin)
    | Drop(id: string)

  predicate IsFresh(ps: seq<Plugin>, id: string) {
    id != "" && forall p :: p in ps ==> p.id != id
  }

  ghost predicate UniqueIds(ps: seq<Plugin>) {
    forall i, j :: 0 <= i < j < |ps| ==> ps[i].id != ps[j].id
  }

  function IndexOfId(ps: seq<Plugin>, id: string): (r: Option<nat>)
    ensures r.Some? ==> r.value < |ps| && ps[r.value].id == id
    ensures r.None? ==> forall p :: p in ps ==> p.id != id
  {
    if |ps| == 0 then None
    else if ps[0].id == id then Some(0)
    else match IndexOfId(ps[1..], id)
      case None => None
      case Some(i) => Some(i + 1)
  }

  function Created(route: string, plugin: NewPlugin, id: string): Plugin {
    Plugin(id, plugin.name, To(route), Unset, plugin.consumer, true, plugin.config)
  }

  /** Kong's answer to an edit that reached it: the new plugin list, or a refusal. */
  function Edited(ps: seq<Plugin>, e: Edit, newId: string): Option<seq<Plugin>> {
    match e
    case Keep => Some(ps)
    case Create(route, plugin) =>
      if IsFresh(ps, newId) then Some(ps + [Created(route, plugin, newId)]) else None
    case Patch(p) =>
      (match IndexOfId(ps, p.id)
       case None => None
       case Some(i) => Some(ps[i := p]))
    case Drop(id) =>
      (match IndexOfId(ps, id)
       case None => None
       case Some(i) => Some(ps[..i] + ps[i + 1..]))
  }

  /** One write to a workspace's plugins. */
  function Commit(k: Kong, net: Net, workspace: string, e: Edit): (r: (Kong, bool))
    ensures SameElsewhere(k, r.0, workspace)
    ensures !r.1 ==> r.0.stores == k.stores
  {
    if !Writes(k, net, workspace) then (Tick(k), false)
    else match Edited(PluginsOf(k, workspace), e, net.ids(k.clock))
      case None => (Tick(k), false)
      case Some(ps) =>
        (WithStore(Tick(k), workspace, StoreOf(k, workspace).(plugins := ps)), true)
  }

  /** The agent's own reading of an edit: `Keep` sends nothing. */
  function Submit(k: Kong, net: Net, workspace: string, e: Edit): (r: (Kong, bool))
    ensures SameElsewhere(k, r.0, workspace)
    ensures !r.1 ==> r.0.stores == k.stores
  {
    if e.Keep? then (k, true) else Commit(k, net, workspace, e)
  }

  // ----- consumers -----

  function WithId(cs: seq<Consumer>, id: string): (r: Option<Consumer>)
    ensures r.Some? ==> r.value in cs && r.value.id == id
    ensures r.None? ==> forall c :: c in cs ==> c.id != id
  {
    if |cs| == 0 then None
    else if cs[0].id == id then Some(cs[0])
    else WithId(cs[1..], id)
  }

  function WithUsername(cs: seq<Consumer>, name: string): (r: Option<Consumer>)
    ensures r.Some? ==> r.value in cs && r.value.username == name
    ensures r.None? ==> forall c :: c in cs ==> c.username != name
  {
    if |cs| == 0 then None
    else if cs[0].username == name then Some(cs[0])
    else WithUsername(cs[1..], name)
  }

  /** Kong finds a consumer by its ID, or failing that by its username; the empty key
      finds nothing. */
  function FindConsumer(cs: seq<Consumer>, key: string): Option<Consumer> {
    if key == "" then None
    else if WithId(cs, key).Some? then WithId(cs, key)
    else WithUsername(cs, key)
  }

  predicate IsFreshConsumer(cs: seq<Consumer>, id: string) {
    id != "" && forall c :: c in cs ==> c.id != id && c.username != id
  }

  // ----- deleting consumers -----

  function IdsOf(cs: seq<Consumer>): set<string> {
    set c | c in cs :: c.id
  }

  function IsNot(ids: set<string>): Consumer -> bool {
    (c: Consumer) => c.id !in ids
  }

  function IsNotFor(ids: set<string>): Plugin -> bool {
    (p: Plugin) => !(p.consumer.To? && p.consumer.id in ids)
  }

  function IsNotHeldBy(ids: set<string>): Credential -> bool {
    (c: Credential) => c.consumer !in ids
  }

  /** Kong deletes with a consumer the plugins, groups and credentials that belong to it. */
  function Purge(s: Store, ids: set<string>): Store {
    var gone := ids * IdsOf(s.consumers);
    Store(Filtered(s.plugins, IsNotFor(gone)), Filtered(s.consumers, IsNot(gone)),
          (set g | g in s.groups && g.0 !in gone), Filtered(s.credentials, IsNotHeldBy(gone)))
  }

  lemma PurgeTwice(s: Store, a: set<string>, b: set<string>)
    ensures Purge(Purge(s, a), b) == Purge(s, a + b)
  {
    var s1 := Purge(s, a);
    var first, second := a * IdsOf(s.consumers), b * IdsOf(s1.consumers);
    var all := (a + b) * IdsOf(s.consumers);
    forall id ensures id in all <==> id in first || id in second {
      if id in all && id !in a {
        var c :| c in s.consumers && c.id == id;
        assert c in s1.consumers;
      }
    }
    FilteredTwice(s.plugins, IsNotFor(first), IsNotFor(second), IsNotFor(all));
    FilteredTwice(s.consumers, IsNot(first), IsNot(second), IsNot(all));
    FilteredTwice(s.credentials, IsNotHeldBy(first), IsNotHeldBy(second), IsNotHeldBy(all));
  }

  lemma NobodyPurged(s: Store, ids: set<string>)
    requires ids !! IdsOf(s.consumers)
    ensures Purge(s, ids) == s
  {
    AllPass(s.plugins, IsNotFor({}));
    AllPass(s.consumers, IsNot({}));
    AllPass(s.credentials, IsNotHeldBy({}));
    assert ids * IdsOf(s.consumers) == {};
  }
}
