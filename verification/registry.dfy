/**
 * The plugin registry: two tables mutated together, plugin name -> plugin
 * instance and command -> plugin name, each with the insertion order a Python
 * dict keeps. The object invariant `Valid` says that every command names a
 * stored plugin that claims it and that every stored plugin is INITIALIZED.
 */
module Registry {
  import opened Values
  import opened PluginBase

  /** A plugin instance as a value. */
  datatype PluginView = PluginView(cls: PluginClass, config: map<string, Value>, status: PluginStatus)

  /** The registry's state as a value, for stating what the dispatcher does with it. */
  datatype RegistryView = RegistryView(
    plugins: map<string, PluginView>,
    pluginOrder: seq<string>,
    commandMap: map<string, string>,
    commandOrder: seq<string>)

  /** The registry invariant, stated on a view. */
  ghost predicate Consistent(v: RegistryView)
  {
    && (forall n :: n in v.plugins ==> v.plugins[n].cls.metadata.name == n && v.plugins[n].status == Initialized)
    && (forall c :: c in v.commandMap ==> v.commandMap[c] in v.plugins)
    && Distinct(v.pluginOrder) && (forall n :: n in v.plugins <==> n in v.pluginOrder)
    && Distinct(v.commandOrder) && (forall c :: c in v.commandMap <==> c in v.commandOrder)
  }

  /** `get_plugin_for_command` on a view: the name of the plugin that handles the command. */
  function LookupCommand(v: RegistryView, command: string): (r: Option<string>)
    ensures r.Some? ==> r.value in v.plugins
    ensures Consistent(v) ==> (r.Some? <==> command in v.commandMap && v.commandMap[command] != "")
  {
    if command in v.commandMap && v.commandMap[command] != "" && v.commandMap[command] in v.plugins
    then Some(v.commandMap[command])
    else None
  }

  /** The command table after deleting every command that maps to `name`. */
  function Unmapped(commandMap: map<string, string>, name: string): map<string, string>
  {
    map c | c in commandMap && commandMap[c] != name :: commandMap[c]
  }

  /** The status in which `register` leaves the instance it built (when construction succeeded). */
  function EndStatus(cls: PluginClass, config: map<string, Value>, nameTaken: bool): PluginStatus
  {
    if nameTaken then Unloaded
    else match ValidationOf(cls, config)
      case Raised(_) => Unloaded
      case Returned(valid) =>
        if !valid then Failed
        else match cls.initialize
          case InitTrue => Initialized
          case InitFalse => Failed
          case InitRaises => Loaded
  }

  /**
   * A registration attempt ends with an INITIALIZED instance exactly when it
   * succeeds; a configuration that fails validation and an `initialize`
   * that returns false both leave the instance FAILED.
   */
  lemma EndStatusInitializedIffAccepted(cls: PluginClass, config: map<string, Value>, nameTaken: bool)
    ensures EndStatus(cls, config, nameTaken) == Initialized <==>
      !nameTaken && ValidationOf(cls, config) == Returned(true) && cls.initialize == InitTrue
    ensures !nameTaken && ValidationOf(cls, config) == Returned(false) ==>
      EndStatus(cls, config, nameTaken) == Failed
    ensures !nameTaken && ValidationOf(cls, config) == Returned(true) && cls.initialize == InitFalse ==>
      EndStatus(cls, config, nameTaken) == Failed
  {
  }

  /**
   * How far `cleanup_all` has come, `i` names into its snapshot `names`:
   * the stored plugins are the starting ones less `removed`, every removed
   * plugin's cleanup succeeded, every plugin still stored whose cleanup
   * would succeed is yet to come, and the command map has lost exactly the
   * commands that mapped to a removed plugin.
   */
  ghost predicate CleanupProgress(
    start: map<string, Plugin>, startCommands: map<string, string>, names: seq<string>, i: nat,
    removed: set<string>, plugins: map<string, Plugin>, commandMap: map<string, string>)
  {
    && i <= |names|
    && plugins == start - removed
    && removed <= start.Keys
    && (forall n :: n in removed ==> start[n].cls.cleanupFault.None?)
    && (forall n :: n in start && n !in removed && start[n].cls.cleanupFault.None? ==> n in names[i..])
    && (forall c :: c in commandMap <==> c in startCommands && startCommands[c] !in removed)
    && (forall c :: c in commandMap ==> commandMap[c] == startCommands[c])
  }

  /** One `unload_plugin` call, successful or not, advances the progress by one name. */
  lemma CleanupStep(
    start: map<string, Plugin>, startCommands: map<string, string>, names: seq<string>, i: nat,
    removed: set<string>, before: map<string, Plugin>, beforeCommands: map<string, string>,
    after: map<string, Plugin>, afterCommands: map<string, string>, ok: bool)
    requires CleanupProgress(start, startCommands, names, i, removed, before, beforeCommands) && i < |names|
    requires ok <==> names[i] in before && before[names[i]].cls.cleanupFault.None?
    requires !ok ==> after == before && afterCommands == beforeCommands
    requires ok ==> after == before - {names[i]}
    requires ok ==> forall c :: c in afterCommands <==> c in beforeCommands && beforeCommands[c] != names[i]
    requires ok ==> forall c :: c in afterCommands ==> afterCommands[c] == beforeCommands[c]
    ensures CleanupProgress(start, startCommands, names, i + 1,
      if ok then removed + {names[i]} else removed, after, afterCommands)
  {
    var n := names[i];
    assert forall m :: m in names[i..] ==> m == n || m in names[i + 1..] by {
      assert names[i..] == [n] + names[i + 1..];
    }
    if ok {
      assert after == start - (removed + {n});
    }
  }

  /** After the whole snapshot, exactly the plugins whose cleanup raises are left. */
  lemma CleanupFinished(
    start: map<string, Plugin>, startCommands: map<string, string>, names: seq<string>,
    removed: set<string>, plugins: map<string, Plugin>, commandMap: map<string, string>)
    requires CleanupProgress(start, startCommands, names, |names|, removed, plugins, commandMap)
    requires forall c :: c in commandMap ==> commandMap[c] in plugins
    ensures forall n :: n in plugins <==> n in start && start[n].cls.cleanupFault.Some?
    ensures forall n :: n in plugins ==> plugins[n] == start[n]
    ensures forall n :: n in start && n !in plugins ==> n in removed
    ensures forall c :: c in commandMap <==> c in startCommands && startCommands[c] in plugins
    ensures forall c :: c in commandMap ==> commandMap[c] == startCommands[c]
    ensures (forall n :: n in start ==> start[n].cls.cleanupFault.None?) ==> plugins == map[] && commandMap == map[]
  {
    assert names[|names|..] == [];
    if forall n :: n in start ==> start[n].cls.cleanupFault.None? {
      assert plugins.Keys == {};
      assert commandMap.Keys == {};
    }
  }

  /** Both key orders are the starting orders restricted to the surviving keys. */
  ghost predicate OrdersFollow(
    names: seq<string>, startCommandOrder: seq<string>,
    plugins: map<string, Plugin>, commandMap: map<string, string>,
    pluginOrder: seq<string>, commandOrder: seq<string>)
  {
    pluginOrder == Restrict(names, plugins.Keys) && commandOrder == Restrict(startCommandOrder, commandMap.Keys)
  }

  /**
   * One `unload_plugin` call keeps both key orders equal to the starting orders
   * restricted to the surviving keys: each `del` keeps the other keys in place.
   */
  lemma CleanupOrderStep(
    names: seq<string>, startCommandOrder: seq<string>, n: string, ok: bool,
    before: map<string, Plugin>, after: map<string, Plugin>,
    beforeCommands: map<string, string>, afterCommands: map<string, string>,
    beforeOrder: seq<string>, afterOrder: seq<string>,
    beforeCommandOrder: seq<string>, afterCommandOrder: seq<string>)
    requires OrdersFollow(names, startCommandOrder, before, beforeCommands, beforeOrder, beforeCommandOrder)
    requires !ok ==>
      after == before && afterCommands == beforeCommands
      && afterOrder == beforeOrder && afterCommandOrder == beforeCommandOrder
    requires ok ==> after == before - {n} && afterOrder == Without(beforeOrder, n)
    requires ok ==> forall c :: c in afterCommands ==> c in beforeCommands
    requires ok ==> afterCommandOrder == Restrict(beforeCommandOrder, afterCommands.Keys)
    ensures OrdersFollow(names, startCommandOrder, after, afterCommands, afterOrder, afterCommandOrder)
  {
    if ok {
      WithoutRestrict(names, before.Keys, n);
      assert after.Keys == before.Keys - {n};
      RestrictRestrict(startCommandOrder, beforeCommands.Keys, afterCommands.Keys);
      assert beforeCommands.Keys * afterCommands.Keys == afterCommands.Keys;
    }
  }

  /** The registry's four tables, holding the plugin instances themselves. */
  datatype Tables = Tables(
    plugins: map<string, Plugin>,
    pluginOrder: seq<string>,
    commandMap: map<string, string>,
    commandOrder: seq<string>)

  /**
   * `unload_plugin(name)` on the tables: a stored plugin whose cleanup does
   * not raise leaves with every command mapped to it, and each `del` keeps
   * the other keys in order; otherwise nothing changes.
   */
  function UnloadTables(t: Tables, name: string): Tables
  {
    if name in t.plugins && t.plugins[name].cls.cleanupFault.None? then
      var commands := Unmapped(t.commandMap, name);
      Tables(t.plugins - {name}, Without(t.pluginOrder, name), commands, Restrict(t.commandOrder, commands.Keys))
    else t
  }

  /** `cleanup_all`'s loop on the tables: `unload_plugin` for each name in turn. */
  function CleanupTables(t: Tables, names: seq<string>): Tables
    decreases |names|
  {
    if names == [] then t
    else UnloadTables(CleanupTables(t, names[..|names| - 1]), names[|names| - 1])
  }

  /** One round of `cleanup_all` on the tables advances the progress and keeps the orders. */
  lemma CleanupRound(t: Tables, names: seq<string>, i: nat, removed: set<string>, before: Tables)
    returns (removedAfter: set<string>)
    requires i < |names|
    requires CleanupProgress(t.plugins, t.commandMap, names, i, removed, before.plugins, before.commandMap)
    requires OrdersFollow(names, t.commandOrder, before.plugins, before.commandMap, before.pluginOrder, before.commandOrder)
    ensures CleanupProgress(t.plugins, t.commandMap, names, i + 1, removedAfter,
      UnloadTables(before, names[i]).plugins, UnloadTables(before, names[i]).commandMap)
    ensures OrdersFollow(names, t.commandOrder,
      UnloadTables(before, names[i]).plugins, UnloadTables(before, names[i]).commandMap,
      UnloadTables(before, names[i]).pluginOrder, UnloadTables(before, names[i]).commandOrder)
  {
    var n := names[i];
    var after := UnloadTables(before, n);
    var ok := n in before.plugins && before.plugins[n].cls.cleanupFault.None?;
    CleanupStep(t.plugins, t.commandMap, names, i, removed,
      before.plugins, before.commandMap, after.plugins, after.commandMap, ok);
    CleanupOrderStep(names, t.commandOrder, n, ok, before.plugins, after.plugins,
      before.commandMap, after.commandMap, before.pluginOrder, after.pluginOrder,
      before.commandOrder, after.commandOrder);
    removedAfter := if ok then removed + {n} else removed;
  }

  /**
   * The first `i` rounds of `cleanup_all` over consistent tables progress as
   * `CleanupProgress` says, and keep both key orders the starting orders
   * restricted to the surviving keys.
   */
  lemma {:induction false} CleanupTablesProgress(t: Tables, i: nat) returns (removed: set<string>)
    requires i <= |t.pluginOrder|
    requires forall n :: n in t.plugins <==> n in t.pluginOrder
    requires forall c :: c in t.commandMap <==> c in t.commandOrder
    ensures CleanupProgress(t.plugins, t.commandMap, t.pluginOrder, i, removed,
      CleanupTables(t, t.pluginOrder[..i]).plugins, CleanupTables(t, t.pluginOrder[..i]).commandMap)
    ensures OrdersFollow(t.pluginOrder, t.commandOrder,
      CleanupTables(t, t.pluginOrder[..i]).plugins, CleanupTables(t, t.pluginOrder[..i]).commandMap,
      CleanupTables(t, t.pluginOrder[..i]).pluginOrder, CleanupTables(t, t.pluginOrder[..i]).commandOrder)
    decreases i
  {
    var names := t.pluginOrder;
    if i == 0 {
      assert names[..0] == [] && names[0..] == names;
      RestrictAll(names, t.plugins.Keys);
      RestrictAll(t.commandOrder, t.commandMap.Keys);
      removed := {};
    } else {
      var previous := CleanupTablesProgress(t, i - 1);
      assert names[..i][..i - 1] == names[..i - 1];
      removed := CleanupRound(t, names, i - 1, previous, CleanupTables(t, names[..i - 1]));
    }
  }

  class PluginRegistry {
    var plugins: map<string, Plugin>
    var pluginOrder: seq<string>
    var commandMap: map<string, string>
    var commandOrder: seq<string>

    /** The structural part of the invariant; it does not look at plugin statuses. */
    ghost predicate TablesValid()
      reads this
    {
      && (forall n :: n in plugins ==> plugins[n].Name() == n)
      && (forall c :: c in commandMap ==>
            commandMap[c] in plugins && c in plugins[commandMap[c]].cls.metadata.commands)
      && Distinct(pluginOrder) && (forall n :: n in plugins <==> n in pluginOrder)
      && Distinct(commandOrder) && (forall c :: c in commandMap <==> c in commandOrder)
    }

    /** The registry invariant: consistent tables and only INITIALIZED plugins stored. */
    ghost predicate Valid()
      reads this, plugins.Values
    {
      TablesValid() && forall n :: n in plugins ==> plugins[n].status == Initialized
    }

    ghost function View(): RegistryView
      reads this, plugins.Values
    {
      RegistryView(
        map n | n in plugins :: PluginView(plugins[n].cls, plugins[n].config, plugins[n].status),
        pluginOrder, commandMap, commandOrder)
    }

    lemma ViewConsistent()
      requires Valid()
      ensures Consistent(View())
    {
    }

    constructor ()
      ensures Valid()
      ensures plugins == map[] && commandMap == map[]
      ensures pluginOrder == [] && commandOrder == []
    {
      plugins := map[];
      pluginOrder := [];
      commandMap := map[];
      commandOrder := [];
    }

    /**
     * `register(plugin_class, config)`: construct an instance, reject a name
     * already present, validate the configuration (FAILED on false), set
     * LOADED and initialize (FAILED on false), then store the plugin as
     * INITIALIZED and map each of its commands to it, overriding any earlier
     * owner. Every failure leaves both tables as they were. `instance` is the
     * object the call built, if any.
     */
    method Register(cls: PluginClass, config: map<string, Value>) returns (ok: bool, ghost instance: Plugin?)
      requires Valid()
      modifies this
      ensures Valid()
      ensures ok <==>
        && cls.constructionFault.None?
        && cls.metadata.name !in old(plugins)
        && ValidationOf(cls, config) == Returned(true)
        && cls.initialize == InitTrue
      ensures (instance == null) == cls.constructionFault.Some?
      ensures instance != null ==>
        && fresh(instance) && instance.cls == cls && instance.config == config
        && instance.status == EndStatus(cls, config, cls.metadata.name in old(plugins))
      ensures ok ==>
        && plugins == old(plugins)[cls.metadata.name := instance]
        && pluginOrder == old(pluginOrder) + [cls.metadata.name]
        && commandOrder == InsertedAll(old(commandOrder), cls.metadata.commands)
      ensures ok ==> forall c :: c in cls.metadata.commands ==> c in commandMap && commandMap[c] == cls.metadata.name
      ensures ok ==> forall c :: c !in cls.metadata.commands ==>
        (c in commandMap <==> c in old(commandMap)) && (c in commandMap ==> commandMap[c] == old(commandMap)[c])
      ensures !ok ==>
        && plugins == old(plugins) && pluginOrder == old(pluginOrder)
        && commandMap == old(commandMap) && commandOrder == old(commandOrder)
    {
      instance := null;
      if cls.constructionFault.Some? {
        return false, instance;
      }
      var plugin := new Plugin(cls, config);
      instance := plugin;
      var metadata := cls.metadata;
      var name := metadata.name;

      if name in plugins {
        return false, instance;
      }

      var valid := plugin.ValidateConfig();
      if valid.Raised? {
        return false, instance;
      }
      if !valid.value {
        plugin.status := Failed;
        return false, instance;
      }

      plugin.status := Loaded;
      if cls.initialize != InitTrue {
        if cls.initialize == InitFalse {
          plugin.status := Failed;
        }
        return false, instance;
      }

      plugin.status := Initialized;
      Store(plugin);
      ok := true;
    }

    /** Store an INITIALIZED plugin under its new name and map each of its commands to it. */
    method Store(plugin: Plugin)
      requires Valid() && plugin.status == Initialized && plugin.Name() !in plugins
      modifies this
      ensures Valid()
      ensures plugins == old(plugins)[plugin.Name() := plugin]
      ensures pluginOrder == old(pluginOrder) + [plugin.Name()]
      ensures commandOrder == InsertedAll(old(commandOrder), plugin.cls.metadata.commands)
      ensures forall c :: c in plugin.cls.metadata.commands ==> c in commandMap && commandMap[c] == plugin.Name()
      ensures forall c :: c !in plugin.cls.metadata.commands ==>
        (c in commandMap <==> c in old(commandMap)) && (c in commandMap ==> commandMap[c] == old(commandMap)[c])
    {
      var name := plugin.Name();
      var cmds := plugin.cls.metadata.commands;
      ghost var plugins0, commandMap0 := plugins, commandMap;
      plugins := plugins[name := plugin];
      pluginOrder := pluginOrder + [name];
      MapCommands(name, cmds);
      forall c | c in commandMap
        ensures commandMap[c] in plugins && c in plugins[commandMap[c]].cls.metadata.commands
      {
        if c !in cmds {
          var owner := commandMap0[c];
          assert owner in plugins0 && owner != name;
          assert plugins[owner] == plugins0[owner];
        }
      }
    }

    /** Map each command to `name` in turn; a command already mapped passes to `name`. */
    method MapCommands(name: string, cmds: seq<string>)
      modifies this
      ensures plugins == old(plugins) && pluginOrder == old(pluginOrder)
      ensures forall c :: c in commandMap <==> c in old(commandMap) || c in cmds
      ensures forall c :: c in commandMap ==> commandMap[c] == if c in cmds then name else old(commandMap)[c]
      ensures commandOrder == InsertedAll(old(commandOrder), cmds)
    {
      var m := commandMap;
      var i := 0;
      while i < |cmds|
        invariant 0 <= i <= |cmds|
        invariant unchanged(this)
        invariant forall c :: c in m <==> c in commandMap || c in cmds[..i]
        invariant forall c :: c in m ==> m[c] == if c in cmds[..i] then name else commandMap[c]
      {
        var c := cmds[i];
        assert forall x :: x in cmds[..i + 1] <==> x in cmds[..i] || x == c by {
          assert cmds[..i + 1] == cmds[..i] + [c];
        }
        m := m[c := name];
        i := i + 1;
      }
      assert cmds[..i] == cmds;
      // A key enters a dict's order when it is first assigned.
      commandMap, commandOrder := m, InsertedAll(commandOrder, cmds);
    }

    /** `get_plugin_for_command`: the plugin the command map names, if it is stored. */
    function GetPluginForCommand(command: string): (r: Option<Plugin>)
      reads this
      ensures r.Some? <==> LookupCommand(View(), command).Some?
      ensures r.Some? ==> r.value == plugins[LookupCommand(View(), command).value]
      ensures TablesValid() ==> (r.Some? <==> command in commandMap && commandMap[command] != "")
    {
      if command !in commandMap || commandMap[command] == "" then None
      else if commandMap[command] !in plugins then None
      else Some(plugins[commandMap[command]])
    }

    /** `get_plugin`: the plugin stored under the name. */
    function GetPlugin(name: string): (r: Option<Plugin>)
      reads this
      ensures r.Some? <==> name in plugins
      ensures TablesValid() && r.Some? ==> r.value.Name() == name
    {
      if name in plugins then Some(plugins[name]) else None
    }

    /** `list_plugins`: the metadata of every stored plugin, in registration order. */
    function ListPlugins(): (r: seq<PluginMetadata>)
      reads this
      requires TablesValid()
      ensures |r| == |pluginOrder| == |plugins|
      ensures forall k :: 0 <= k < |r| ==> pluginOrder[k] in plugins && r[k] == plugins[pluginOrder[k]].cls.metadata
      ensures forall n :: n in plugins ==> exists k :: 0 <= k < |r| && r[k].name == n
    {
      DistinctCardinality(pluginOrder, plugins.Keys);
      var ps, order := plugins, pluginOrder;
      var r := seq(|order|, k requires 0 <= k < |order| && order[k] in ps => ps[order[k]].cls.metadata);
      assert forall n :: n in plugins ==> exists k :: 0 <= k < |r| && r[k].name == n by {
        forall n | n in plugins ensures exists k :: 0 <= k < |r| && r[k].name == n {
          var k :| 0 <= k < |pluginOrder| && pluginOrder[k] == n;
          assert r[k].name == n;
        }
      }
      r
    }

    /** `list_commands`: a copy of the command map; under the invariant every value is a stored plugin. */
    function ListCommands(): (r: map<string, string>)
      reads this
      ensures r.Keys == commandMap.Keys
      ensures TablesValid() ==> forall c :: c in r ==> r[c] in plugins
    {
      commandMap
    }

    /** `list(list_commands().keys())`: every mapped command once, in first-registration order. */
    function CommandNames(): (r: seq<string>)
      reads this
      ensures TablesValid() ==> Distinct(r) && forall c :: c in r <==> c in commandMap
    {
      commandOrder
    }

    /** `get_plugin_status`: under the invariant, INITIALIZED for every stored plugin. */
    function GetPluginStatus(name: string): (r: Option<PluginStatus>)
      reads this, plugins.Values
      ensures r.Some? <==> name in plugins
      ensures Valid() && r.Some? ==> r.value == Initialized
    {
      if name in plugins then Some(plugins[name].status) else None
    }

    /** `get_plugin_count`: one per stored plugin, which is one per entry of the registration order. */
    function GetPluginCount(): (r: nat)
      reads this
      ensures r == |plugins.Keys|
      ensures TablesValid() ==> r == |pluginOrder|
    {
      DistinctCardinality(pluginOrder, plugins.Keys);
      |plugins|
    }

    /** `get_command_count`: one per mapped command. */
    function GetCommandCount(): (r: nat)
      reads this
      ensures r == |commandMap.Keys|
      ensures TablesValid() ==> r == |commandOrder|
    {
      DistinctCardinality(commandOrder, commandMap.Keys);
      |commandMap|
    }

    /**
     * `health_check(name)`: with a non-empty name, that plugin's answer (or
     * an empty map if it is not stored); otherwise one entry per stored
     * plugin. A raising probe propagates.
     */
    method HealthCheck(name: Option<string>) returns (r: Try<map<string, bool>>)
      requires Valid()
      ensures name.Some? && name.value != "" && name.value !in plugins ==> r == Returned(map[])
      ensures name.Some? && name.value != "" && name.value in plugins ==>
        r == match plugins[name.value].HealthCheck()
             case Returned(h) => Returned(map[name.value := h])
             case Raised(e) => Raised(e)
      ensures (name.None? || name.value == "") ==>
        (r.Returned? <==> forall n :: n in plugins ==> plugins[n].HealthCheck().Returned?)
      ensures (name.None? || name.value == "") && r.Returned? ==>
        && r.value.Keys == plugins.Keys
        && forall n :: n in plugins ==> r.value[n] == plugins[n].HealthCheck().value
      ensures (name.None? || name.value == "") && r.Raised? ==>
        exists n :: n in plugins && plugins[n].HealthCheck() == Raised(r.error)
    {
      if name.Some? && name.value != "" {
        if name.value in plugins {
          match plugins[name.value].HealthCheck()
          case Returned(h) => return Returned(map[name.value := h]);
          case Raised(e) => return Raised(e);
        }
        return Returned(map[]);
      }
      var results: map<string, bool> := map[];
      var i := 0;
      while i < |pluginOrder|
        invariant 0 <= i <= |pluginOrder|
        invariant forall n :: n in results <==> n in pluginOrder[..i]
        invariant forall n :: n in results ==> n in plugins && plugins[n].HealthCheck() == Returned(results[n])
      {
        var n := pluginOrder[i];
        match plugins[n].HealthCheck()
        case Raised(e) =>
          return Raised(e);
        case Returned(h) =>
          results := results[n := h];
        assert pluginOrder[..i + 1] == pluginOrder[..i] + [n];
        i := i + 1;
      }
      assert pluginOrder[..i] == pluginOrder;
      return Returned(results);
    }

    /** Remove each command of `cmds` that still maps to `name`. */
    method UnmapCommands(name: string, cmds: seq<string>)
      modifies this
      ensures plugins == old(plugins) && pluginOrder == old(pluginOrder)
      ensures forall c :: c in commandMap <==> c in old(commandMap) && !(c in cmds && old(commandMap)[c] == name)
      ensures forall c :: c in commandMap ==> commandMap[c] == old(commandMap)[c]
      ensures commandOrder == Restrict(old(commandOrder), commandMap.Keys)
    {
      var m := commandMap;
      var i := 0;
      while i < |cmds|
        invariant 0 <= i <= |cmds|
        invariant unchanged(this)
        invariant forall c :: c in m <==> c in commandMap && !(c in cmds[..i] && commandMap[c] == name)
        invariant forall c :: c in m ==> m[c] == commandMap[c]
      {
        var c := cmds[i];
        assert forall x :: x in cmds[..i + 1] <==> x in cmds[..i] || x == c by {
          assert cmds[..i + 1] == cmds[..i] + [c];
        }
        if c in m && m[c] == name {
          m := m - {c};
        }
        i := i + 1;
      }
      assert cmds[..i] == cmds;
      // Deleting keys from a dict keeps the others in their insertion order.
      commandMap, commandOrder := m, Restrict(commandOrder, m.Keys);
    }

    /**
     * `unload_plugin(name)`: call `cleanup`; if it raises, nothing changes
     * and the answer is false. Otherwise remove each command of the plugin
     * that still maps to it, remove the plugin and set it UNLOADED. Under the
     * invariant, that removes every command that mapped to the plugin.
     */
    method UnloadPlugin(name: string) returns (ok: bool)
      requires Valid()
      modifies this, if name in plugins then {plugins[name]} else {}
      ensures Valid()
      ensures ok <==> name in old(plugins) && old(plugins)[name].cls.cleanupFault.None?
      ensures !ok ==>
        && plugins == old(plugins) && pluginOrder == old(pluginOrder)
        && commandMap == old(commandMap) && commandOrder == old(commandOrder)
      ensures ok ==>
        && plugins == old(plugins) - {name}
        && pluginOrder == Without(old(pluginOrder), name)
        && old(plugins)[name].status == Unloaded
      ensures ok ==> forall c :: c in commandMap <==> c in old(commandMap) && old(commandMap)[c] != name
      ensures ok ==> forall c :: c in commandMap ==> commandMap[c] == old(commandMap)[c]
      ensures ok ==> commandOrder == Restrict(old(commandOrder), commandMap.Keys)
    {
      if name !in plugins {
        return false;
      }
      var plugin := plugins[name];
      if plugin.cls.cleanupFault.Some? {
        return false;
      }
      UnmapCommands(name, plugin.cls.metadata.commands);
      plugins := plugins - {name};
      pluginOrder := Without(pluginOrder, name);
      plugin.status := Unloaded;
      assert forall n :: n in plugins ==> plugins[n] != plugin by {
        forall n | n in plugins ensures plugins[n] != plugin {
          assert plugins[n].Name() == n;
        }
      }
      return true;
    }

    /**
     * `reload_plugin(plugin_class, config)`: build a temporary instance to
     * learn the name (a raising constructor propagates), unload the stored
     * plugin of that name if any (giving false if that fails), then register.
     * When the reload goes ahead, the old plugin of that name and every
     * command mapped to it are gone whatever `register` answers; on success
     * the new instance is stored last and owns its commands.
     */
    method ReloadPlugin(cls: PluginClass, config: map<string, Value>) returns (r: Try<bool>)
      requires Valid()
      modifies this, plugins.Values
      ensures Valid()
      ensures cls.constructionFault.Some? ==>
        && r == Raised(cls.constructionFault.value)
        && plugins == old(plugins) && pluginOrder == old(pluginOrder)
        && commandMap == old(commandMap) && commandOrder == old(commandOrder)
      ensures cls.constructionFault.None? && cls.metadata.name in old(plugins)
              && old(plugins)[cls.metadata.name].cls.cleanupFault.Some? ==>
        && r == Returned(false)
        && plugins == old(plugins) && pluginOrder == old(pluginOrder)
        && commandMap == old(commandMap) && commandOrder == old(commandOrder)
      ensures cls.constructionFault.None? &&
              !(cls.metadata.name in old(plugins) && old(plugins)[cls.metadata.name].cls.cleanupFault.Some?) ==>
        && r == Returned(ValidationOf(cls, config) == Returned(true) && cls.initialize == InitTrue)
        && (cls.metadata.name in old(plugins) ==> old(plugins)[cls.metadata.name].status == Unloaded)
      ensures cls.constructionFault.None? && r == Returned(false) &&
              !(cls.metadata.name in old(plugins) && old(plugins)[cls.metadata.name].cls.cleanupFault.Some?) ==>
        && plugins == old(plugins) - {cls.metadata.name}
        && pluginOrder == Without(old(pluginOrder), cls.metadata.name)
        && commandMap == Unmapped(old(commandMap), cls.metadata.name)
        && commandOrder == Restrict(old(commandOrder), commandMap.Keys)
      ensures r == Returned(true) ==>
        var name := cls.metadata.name;
        var kept := Unmapped(old(commandMap), name);
        && name in plugins && fresh(plugins[name])
        && plugins[name].cls == cls && plugins[name].config == config && plugins[name].status == Initialized
        && plugins == (old(plugins) - {name})[name := plugins[name]]
        && pluginOrder == Without(old(pluginOrder), name) + [name]
        && commandOrder == InsertedAll(Restrict(old(commandOrder), kept.Keys), cls.metadata.commands)
        && (forall c :: c in cls.metadata.commands ==> c in commandMap && commandMap[c] == name)
        && (forall c :: c !in cls.metadata.commands ==>
              (c in commandMap <==> c in kept) && (c in commandMap ==> commandMap[c] == kept[c]))
    {
      if cls.constructionFault.Some? {
        return Raised(cls.constructionFault.value);
      }
      var temp := new Plugin(cls, config);
      var name := temp.Name();
      var evicted := Evict(name);
      if !evicted {
        return Returned(false);
      }
      ghost var midPlugins, midOrder, midCommands, midCommandOrder := plugins, pluginOrder, commandMap, commandOrder;
      var ok;
      ghost var instance;
      ok, instance := Register(cls, config);
      if ok {
        assert plugins == midPlugins[name := instance];
        assert pluginOrder == midOrder + [name];
        assert commandOrder == InsertedAll(midCommandOrder, cls.metadata.commands);
      }
      return Returned(ok);
    }

    /**
     * The unloading step of `reload_plugin`: a stored plugin of that name is
     * unloaded (false if its cleanup raises); an absent name changes nothing.
     */
    method Evict(name: string) returns (ok: bool)
      requires Valid()
      modifies this, if name in plugins then {plugins[name]} else {}
      ensures Valid()
      ensures ok <==> !(name in old(plugins) && old(plugins)[name].cls.cleanupFault.Some?)
      ensures !ok ==>
        && plugins == old(plugins) && pluginOrder == old(pluginOrder)
        && commandMap == old(commandMap) && commandOrder == old(commandOrder)
      ensures ok ==>
        && plugins == old(plugins) - {name}
        && pluginOrder == Without(old(pluginOrder), name)
        && commandMap == Unmapped(old(commandMap), name)
        && commandOrder == Restrict(old(commandOrder), commandMap.Keys)
        && (name in old(plugins) ==> old(plugins)[name].status == Unloaded)
    {
      if name in plugins {
        ok := UnloadPlugin(name);
        if ok {
          assert commandMap == Unmapped(old(commandMap), name);
        }
      } else {
        // No command maps to an absent name.
        WithoutAbsent(pluginOrder, name);
        RestrictAll(commandOrder, commandMap.Keys);
        assert commandMap == Unmapped(commandMap, name);
        ok := true;
      }
    }

    /** The four tables as a value. */
    function Snapshot(): Tables
      reads this
    {
      Tables(plugins, pluginOrder, commandMap, commandOrder)
    }

    /**
     * `unload_plugin` with its answer dropped, as `cleanup_all` calls it:
     * the tables move on as `UnloadTables` says, and the plugins of `start`
     * that are no longer stored stay UNLOADED.
     */
    method Unload(name: string, ghost start: map<string, Plugin>)
      requires Valid()
      requires forall n :: n in start ==> start[n].Name() == n
      requires forall n :: n in plugins ==> n in start && plugins[n] == start[n]
      requires forall n :: n in start ==> start[n].status == if n in plugins then Initialized else Unloaded
      modifies this, if name in plugins then {plugins[name]} else {}
      ensures Valid()
      ensures Snapshot() == UnloadTables(old(Snapshot()), name)
      ensures forall n :: n in plugins ==> n in start && plugins[n] == start[n]
      ensures forall n :: n in start ==> start[n].status == if n in plugins then Initialized else Unloaded
    {
      var unloaded := UnloadPlugin(name);
      if unloaded {
        assert commandMap == Unmapped(old(commandMap), name);
      }
    }

    /** The loop of `cleanup_all`: unloads each name of `names` in turn. */
    method UnloadEach(names: seq<string>)
      requires Valid()
      modifies this, plugins.Values
      ensures Valid()
      ensures Snapshot() == CleanupTables(old(Snapshot()), names)
      ensures forall n :: n in plugins ==> n in old(plugins) && plugins[n] == old(plugins)[n]
      ensures forall n :: n in old(plugins) && n !in plugins ==> old(plugins)[n].status == Unloaded
    {
      ghost var start := Snapshot();
      ghost var expected := start;
      var i := 0;
      while i < |names|
        invariant i <= |names|
        invariant TablesValid()
        invariant expected == CleanupTables(start, names[..i])
        invariant Snapshot() == expected
        invariant forall n :: n in plugins ==> n in start.plugins && plugins[n] == start.plugins[n]
        invariant forall n :: n in start.plugins ==>
          start.plugins[n].status == if n in plugins then Initialized else Unloaded
      {
        Unload(names[i], start.plugins);
        expected := UnloadTables(expected, names[i]);
        assert names[..i + 1][..i] == names[..i];
        i := i + 1;
      }
      assert names[..i] == names;
    }

    /**
     * `cleanup_all`: unload every plugin of a snapshot of the names, in
     * order. The tables end as `CleanupTables` says: exactly the plugins
     * whose cleanup raises stay, with their commands; the rest are UNLOADED
     * and leave; when no cleanup raises both tables end empty; and each
     * `del` keeps the surviving keys of both tables in their insertion order.
     */
    method CleanupAll()
      requires Valid()
      modifies this, plugins.Values
      ensures Valid()
      ensures Snapshot() == CleanupTables(old(Snapshot()), old(pluginOrder))
      ensures forall n :: n in plugins <==> n in old(plugins) && old(plugins)[n].cls.cleanupFault.Some?
      ensures forall n :: n in plugins ==> plugins[n] == old(plugins)[n]
      ensures forall n :: n in old(plugins) && n !in plugins ==> old(plugins)[n].status == Unloaded
      ensures forall c :: c in commandMap <==> c in old(commandMap) && old(commandMap)[c] in plugins
      ensures forall c :: c in commandMap ==> commandMap[c] == old(commandMap)[c]
      ensures (forall n :: n in old(plugins) ==> old(plugins)[n].cls.cleanupFault.None?) ==>
        plugins == map[] && commandMap == map[]
      ensures pluginOrder == Restrict(old(pluginOrder), plugins.Keys)
      ensures commandOrder == Restrict(old(commandOrder), commandMap.Keys)
    {
      var names := pluginOrder;
      ghost var start := Snapshot();
      UnloadEach(names);
      assert names[..|names|] == names;
      ghost var removed := CleanupTablesProgress(start, |names|);
      CleanupFinished(start.plugins, start.commandMap, names, removed, plugins, commandMap);
    }
  }
}
