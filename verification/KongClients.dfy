/**
 The Kong client of the discovery agent: the methods that list a workspace's plugins,
 choose one and write the result back, and those that keep its consumers.

 A `KongClient` holds the state behind the admin API. Each method of the agent is
 proved to be one of the functions at the top of this module, which say what reaches
 Kong and how the method ends under every pattern of failing calls.
 */
module KongClients {
  import opened KongStore
  import opened PluginSearch
  import opened RouteEdits

  /** How an operation on a route ended. Everything but `Done` is an error to the caller;
      after `DisableFailed` the access itself has been removed. */
  datatype Outcome = Done | ListFailed | Missing | WriteFailed | DisableFailed

  function Grant(k: Kong, net: Net, workspace: string, route: string, app: string): (r: (Kong, Outcome))
    ensures SameElsewhere(k, r.0, workspace)
    ensures r.1 != Done ==> r.0.stores == k.stores
  {
    if !Reads(k, net, workspace) then (Tick(k), ListFailed)
    else
      var (k', ok) := Submit(Tick(k), net, workspace, GrantEdit(PluginsOf(k, workspace), route, app));
      (k', if ok then Done else WriteFailed)
  }

  /** Writing back a plugin's allow list without one group. */
  function Revoked(k: Kong, net: Net, workspace: string, p: Plugin, app: string): (Kong, Outcome) {
    var (k', ok) := Commit(k, net, workspace, RevokeFrom(p, app));
    (k', if ok then Done else WriteFailed)
  }

  function Revoke(k: Kong, net: Net, workspace: string, route: string, app: string): (r: (Kong, Outcome))
    ensures SameElsewhere(k, r.0, workspace)
    ensures r.1 !in {Done, DisableFailed} ==> r.0.stores == k.stores
  {
    var ps := PluginsOf(k, workspace);
    if !Reads(k, net, workspace) then (Tick(k), ListFailed)
    else match RevokeEdit(ps, route, app)
      case None => (Tick(k), Missing)
      case Some(Keep) => (Tick(k), Done)
      case Some(_) =>
        var (k1, removal) := Revoked(Tick(k), net, workspace, ps[Select(ps, AclQuery(route)).value], app);
        if removal != Done then (k1, removal)
        else
          // chosen from the listing made before the removal
          var (k2, disabled) := Submit(k1, net, workspace, DisableEdit(ps, route, app));
          (k2, if disabled then Done else DisableFailed)
  }

  function PlaceQuota(
      k: Kong, net: Net, workspace: string, route: string, app: string,
      interval: string, limit: int): (r: (Kong, Outcome))
    ensures SameElsewhere(k, r.0, workspace)
    ensures r.1 != Done ==> r.0.stores == k.stores
  {
    if !Reads(k, net, workspace) then (Tick(k), ListFailed)
    else
      var e := QuotaEdit(PluginsOf(k, workspace), route, app, SetQuota(interval, limit));
      var (k', ok) := Submit(Tick(k), net, workspace, e);
      (k', if ok then Done else WriteFailed)
  }

  function LowerChar(c: char): char {
    if 'A' <= c <= 'Z' then c - 'A' + 'a' else c
  }

  /** Lower case on ASCII letters. */
  function ToLower(s: string): string {
    seq(|s|, i requires 0 <= i < |s| => LowerChar(s[i]))
  }

  function SetQuota(interval: string, limit: int): Config {
    var window := ToLower(interval);
    Quota("local",
          if window == "daily" then map["day" := limit]
          else if window == "monthly" then map["month" := limit]
          else if window == "annually" then map["year" := limit]
          else map[])
  }

  /** A consumer for the application: the one Kong finds under the application's ID, or a
      new one. A lookup that fails for any reason counts as not found. */
  function EnsureConsumer(
      k: Kong, net: Net, workspace: string, id: string, name: string): (r: (Kong, Option<Consumer>))
    ensures SameElsewhere(k, r.0, workspace)
    ensures r.1.None? ==> r.0.stores == k.stores
    ensures PluginsOf(r.0, workspace) == PluginsOf(k, workspace)
  {
    var s, k1 := StoreOf(k, workspace), Tick(k);
    if Reads(k, net, workspace) && FindConsumer(s.consumers, id).Some? then
      (k1, FindConsumer(s.consumers, id))
    else if Writes(k1, net, workspace) && IsFreshConsumer(s.consumers, net.ids(k1.clock)) then
      var c := Consumer(net.ids(k1.clock), name, id);
      (WithStore(Tick(k1), workspace, s.(consumers := s.consumers + [c])), Some(c))
    else (Tick(k1), None)
  }

  /** Puts the consumer into the group that bears its own ID. */
  function JoinGroup(k: Kong, net: Net, workspace: string, id: string): (r: (Kong, bool))
    ensures SameElsewhere(k, r.0, workspace)
    ensures StoreOf(r.0, workspace).(groups := {}) == StoreOf(k, workspace).(groups := {})
    ensures !r.1 ==> r.0.stores == k.stores
  {
    var s, k1 := StoreOf(k, workspace), Tick(k);
    if !Reads(k, net, workspace) || FindConsumer(s.consumers, id).None? then (k1, false)
    else if !Writes(k1, net, workspace) then (Tick(k1), false)
    else
      var member := (FindConsumer(s.consumers, id).value.id, id);
      (WithStore(Tick(k1), workspace, s.(groups := s.groups + {member})), true)
  }

  /** A consumer whose lookup fails counts as removed already. */
  function RemoveConsumer(k: Kong, net: Net, workspace: string, id: string): (r: (Kong, bool))
    ensures SameElsewhere(k, r.0, workspace)
    ensures !r.1 ==> r.0.stores == k.stores
  {
    var s, k1 := StoreOf(k, workspace), Tick(k);
    if !Reads(k, net, workspace) || FindConsumer(s.consumers, id).None? then (k1, true)
    else if !Writes(k1, net, workspace) then (Tick(k1), false)
    else
      var found := FindConsumer(s.consumers, id).value.id;
      (WithStore(Tick(k1), workspace, Purge(s, {found})), true)
  }

  // ----- the access list the agent edits in memory -----

  /** `ACLConfig`: a slice of allowed groups over a backing array, and the other settings. */
  class AclConfig {
    var groups: array<string>
    var size: nat
    var denied: seq<string>
    var hideGroups: bool

    ghost predicate Valid() reads this {
      size <= groups.Length
    }

    ghost function Allow(): seq<string>
      reads this, groups
      requires Valid()
    {
      groups[..size]
    }

    constructor ()
      ensures Valid() && fresh(groups) && Allow() == [] && denied == [] && !hideGroups
    {
      groups := new string[0];
      size, denied, hideGroups := 0, [], false;
    }

    /** Decodes the plugin's configuration into this object and looks the group up. */
    method CheckAccess(plugin: Plugin, id: string) returns (i: int, hasAccess: bool)
      modifies this
      ensures Valid() && fresh(groups)
      ensures Decoded(plugin.config) == Acl(Allow(), denied, hideGroups)
      ensures hasAccess == (id in Allow())
      ensures hasAccess ==> i == FirstAt(Allow(), id)
      ensures !hasAccess ==> i == -1
    {
      var cfg := Decoded(plugin.config);
      groups := new string[|cfg.allow|](j requires 0 <= j < |cfg.allow| => cfg.allow[j]);
      size, denied, hideGroups := |cfg.allow|, cfg.deny, cfg.hideGroups;
      assert Allow() == cfg.allow;
      for j := 0 to size
        invariant id !in cfg.allow[..j]
        invariant groups[..] == cfg.allow
      {
        if groups[j] == id {
          return j, true;
        }
      }
      assert cfg.allow[..size] == cfg.allow;
      return -1, false;
    }

    method Append(id: string)
      requires Valid()
      modifies this
      ensures Valid() && fresh(groups) && Allow() == old(Allow()) + [id]
      ensures denied == old(denied) && hideGroups == old(hideGroups)
    {
      var held := groups[..size];
      groups := new string[size + 1](j requires 0 <= j < |held| + 1 => if j < |held| then held[j] else id);
      size := size + 1;
    }

    /** Closes the gap by moving the tail down one place within the same array. */
    method DeleteAt(i: nat)
      requires Valid() && i < size
      modifies this, groups
      ensures Valid() && groups == old(groups)
      ensures Allow() == old(Allow()[..i] + Allow()[i + 1..])
      ensures denied == old(denied) && hideGroups == old(hideGroups)
    {
      ghost var was := Allow();
      for j := i to size - 1
        invariant size == old(size) && groups == old(groups) && denied == old(denied) && hideGroups == old(hideGroups)
        invariant groups[..j] == was[..i] + was[i + 1..j + 1]
        invariant groups[j..size] == was[j..]
      {
        assert groups[j + 1] == groups[j..size][1];
        assert groups[j + 1..size] == groups[j..size][1..];
        groups[j] := groups[j + 1];
      }
      size := size - 1;
    }
  }

  // ----- the client -----

  class KongClient {
    const net: Net
    var stores: map<string, Store>
    var clock: nat

    ghost function State(): Kong reads this {
      Kong(stores, clock)
    }

    constructor (net: Net, stores: map<string, Store>)
      ensures this.net == net && State() == Kong(stores, 0)
    {
      this.net, this.stores, this.clock := net, stores, 0;
    }

    // Kong's side of the admin API

    method ListAll(workspace: string) returns (plugins: seq<Plugin>, err: bool)
      modifies this
      ensures State() == Tick(old(State()))
      ensures err == !Reads(old(State()), net, workspace)
      ensures !err ==> plugins == PluginsOf(old(State()), workspace)
    {
      err := Target(workspace) !in stores || net.readFails(clock);
      plugins := if err then [] else stores[Target(workspace)].plugins;
      clock := clock + 1;
    }

    method Write(workspace: string, e: Edit) returns (err: bool)
      modifies this
      ensures (State(), !err) == Commit(old(State()), net, workspace, e)
    {
      var (k, ok) := Commit(Kong(stores, clock), net, workspace, e);
      stores, clock := k.stores, k.clock;
      err := !ok;
    }

    method CreateForRoute(workspace: string, route: string, plugin: NewPlugin) returns (err: bool)
      modifies this
      ensures (State(), !err) == Commit(old(State()), net, workspace, Create(route, plugin))
    {
      err := Write(workspace, Create(route, plugin));
    }

    method UpdateForRoute(workspace: string, route: string, plugin: Plugin) returns (err: bool)
      modifies this
      ensures (State(), !err) == Commit(old(State()), net, workspace, Patch(plugin))
    {
      err := Write(workspace, Patch(plugin));
    }

    method DeleteForRoute(workspace: string, route: string, id: string) returns (err: bool)
      modifies this
      ensures (State(), !err) == Commit(old(State()), net, workspace, Drop(id))
    {
      err := Write(workspace, Drop(id));
    }

    method GetConsumer(workspace: string, key: string) returns (found: Option<Consumer>)
      modifies this
      ensures State() == Tick(old(State()))
      ensures found == if Reads(old(State()), net, workspace)
                       then FindConsumer(StoreOf(old(State()), workspace).consumers, key) else None
    {
      found := if Target(workspace) in stores && !net.readFails(clock)
               then FindConsumer(stores[Target(workspace)].consumers, key) else None;
      clock := clock + 1;
    }

    // the agent's side

    method AddRouteACL(workspace: string, routeID: string, allowedID: string) returns (err: Outcome)
      modifies this
      ensures (State(), err) == Grant(old(State()), net, workspace, routeID, allowedID)
    {
      var plugins, listErr := ListAll(workspace);
      if listErr {
        return ListFailed;
      }
      var found := GetSpecificPlugin(plugins, AclQuery(routeID));
      if found.None? {
        var createErr := CreateForRoute(workspace, routeID, NewPlugin(ACL, Unset, Acl([allowedID], [], false)));
        return if createErr then WriteFailed else Done;
      }
      var aclPlugin := plugins[found.value];
      var aclCfg := new AclConfig();
      var _, hasAccess := aclCfg.CheckAccess(aclPlugin, allowedID);
      if hasAccess {
        return Done;
      }
      aclCfg.Append(allowedID);
      err := UpdateOrDeleteACL(workspace, aclPlugin, aclCfg, routeID);
    }

    method UpdateOrDeleteACL(workspace: string, aclPlugin: Plugin, aclCfg: AclConfig, routeID: string)
      returns (err: Outcome)
      requires aclCfg.Valid()
      requires Decoded(aclPlugin.config).deny == aclCfg.denied
      requires Decoded(aclPlugin.config).hideGroups == aclCfg.hideGroups
      modifies this
      ensures
        var e := if aclCfg.Allow() == [] then Drop(aclPlugin.id) else Patch(WithAllow(aclPlugin, aclCfg.Allow()));
        var (k, ok) := Commit(old(State()), net, workspace, e);
        State() == k && err == if ok then Done else WriteFailed
    {
      if aclCfg.size == 0 {
        var deleteErr := DeleteForRoute(workspace, routeID, aclPlugin.id);
        return if deleteErr then WriteFailed else Done;
      }
      var changed := aclPlugin;
      changed := changed.(config := Acl(aclCfg.groups[..aclCfg.size], aclCfg.denied, aclCfg.hideGroups));
      changed := changed.(enabled := true);
      assert changed == WithAllow(aclPlugin, aclCfg.Allow());
      var updateErr := UpdateForRoute(workspace, routeID, changed);
      return if updateErr then WriteFailed else Done;
    }

    /** The first half of `RemoveRouteACL`: takes the group out of the selected plugin. */
    method RevokeOn(workspace: string, aclPlugin: Plugin, routeID: string, revokedID: string)
      returns (hasAccess: bool, err: Outcome)
      modifies this
      ensures hasAccess == (revokedID in AllowList(aclPlugin))
      ensures !hasAccess ==> State() == old(State()) && err == Done
      ensures hasAccess ==>
                (State(), err) == Revoked(old(State()), net, workspace, aclPlugin, revokedID)
    {
      var aclCfg := new AclConfig();
      var i;
      i, hasAccess := aclCfg.CheckAccess(aclPlugin, revokedID);
      if !hasAccess {
        return false, Done;
      }
      aclCfg.DeleteAt(i);
      assert aclCfg.Allow() == Without(AllowList(aclPlugin), revokedID);
      err := UpdateOrDeleteACL(workspace, aclPlugin, aclCfg, routeID);
    }

    method RemoveRouteACL(workspace: string, routeID: string, revokedID: string) returns (err: Outcome)
      modifies this
      ensures (State(), err) == Revoke(old(State()), net, workspace, routeID, revokedID)
    {
      var plugins, listErr := ListAll(workspace);
      if listErr {
        return ListFailed;
      }
      var found := GetSpecificPlugin(plugins, AclQuery(routeID));
      if found.None? {
        return Missing;
      }
      var hasAccess;
      hasAccess, err := RevokeOn(workspace, plugins[found.value], routeID, revokedID);
      if !hasAccess || err != Done {
        return;
      }
      var disableErr := DisableQuota(workspace, plugins, routeID, revokedID);
      return if disableErr then DisableFailed else Done;
    }

    /** The second half of `RemoveRouteACL`, on the listing made at its start. */
    method DisableQuota(workspace: string, plugins: seq<Plugin>, routeID: string, revokedID: string)
      returns (err: bool)
      modifies this
      ensures (State(), !err) == Submit(old(State()), net, workspace, DisableEdit(plugins, routeID, revokedID))
    {
      var found := GetSpecificPlugin(plugins, QuotaQuery(routeID, revokedID));
      if found.None? {
        return false;
      }
      var rateLimitingPlugin := plugins[found.value];
      rateLimitingPlugin := rateLimitingPlugin.(enabled := false);
      err := UpdateForRoute(workspace, routeID, rateLimitingPlugin);
    }

    method AddQuota(workspace: string, routeID: string, managedAppID: string, interval: string, limit: int)
      returns (err: Outcome)
      modifies this
      ensures (State(), err) == PlaceQuota(old(State()), net, workspace, routeID, managedAppID, interval, limit)
    {
      var plugins, listErr := ListAll(workspace);
      if listErr {
        return ListFailed;
      }
      var found := GetSpecificPlugin(plugins, QuotaQuery(routeID, managedAppID));
      if found.Some? {
        var rateLimitPlugin := plugins[found.value];
        if rateLimitPlugin.enabled {
          return Done;
        }
        rateLimitPlugin := rateLimitPlugin.(enabled := true);
        var updateErr := UpdateForRoute(workspace, routeID, rateLimitPlugin);
        return if updateErr then WriteFailed else Done;
      }
      var config := SetQuota(interval, limit);
      var createErr := CreateForRoute(workspace, routeID, NewPlugin(RATE_LIMITING, To(managedAppID), config));
      return if createErr then WriteFailed else Done;
    }

    method CreateConsumer(workspace: string, id: string, name: string) returns (consumer: Option<Consumer>)
      modifies this
      ensures (State(), consumer) == EnsureConsumer(old(State()), net, workspace, id, name)
    {
      consumer := GetConsumer(workspace, id);
      if consumer.Some? {
        return;
      }
      var newId, w := net.ids(clock), Target(workspace);
      if w in stores && !net.writeFails(clock) && IsFreshConsumer(stores[w].consumers, newId) {
        consumer := Some(Consumer(newId, name, id));
        stores := stores[w := stores[w].(consumers := stores[w].consumers + [consumer.value])];
      }
      clock := clock + 1;
    }

    method AddConsumerACL(workspace: string, id: string) returns (err: bool)
      modifies this
      ensures (State(), !err) == JoinGroup(old(State()), net, workspace, id)
    {
      var consumer := GetConsumer(workspace, id);
      if consumer.None? {
        return true;
      }
      var w := Target(workspace);
      err := net.writeFails(clock);
      if !err {
        stores := stores[w := stores[w].(groups := stores[w].groups + {(consumer.value.id, id)})];
      }
      clock := clock + 1;
    }

    method DeleteConsumer(workspace: string, id: string) returns (err: bool)
      modifies this
      ensures (State(), !err) == RemoveConsumer(old(State()), net, workspace, id)
    {
      var consumer := GetConsumer(workspace, id);
      if consumer.None? {
        return false;
      }
      var w := Target(workspace);
      err := net.writeFails(clock);
      if !err {
        stores := stores[w := Purge(stores[w], {consumer.value.id})];
      }
      clock := clock + 1;
    }
  }
}
