/** The plugin registry: `PluginBuilder` (a plugin as configured), the
    operation log `SystemOp`, the map `PluginSystem` that absorbs it, and the
    writer/reader pair over the two copies that the left-right crate keeps.
    Only the sequential meaning of left-right is modelled: readers see the
    copy that was current at the last publish. */
module Manager {
  import opened Wrappers
  import opened Hex
  import PluginConfig

  datatype PluginError = Build(message: string)

  datatype ManagerError = Source(message: string) | Config(message: string)

  /** A `WasmPlugin` straight out of `WasmPlugin::new`: the module bytes, a
      fresh store, and no instance yet. */
  datatype WasmPlugin = WasmPlugin(source: seq<byte>, instantiated: bool)

  /** `PluginBuilder`: the parsed configuration and the wasm bytes. */
  datatype PluginBuilder = PluginBuilder(config: PluginConfig.Config, source: seq<byte>)
  {
    function Metadata(): PluginConfig.PluginMetadata {
      config.metadata
    }

    function Abi(): PluginConfig.PluginAbi {
      config.abi
    }

    function Source(): seq<byte> {
      source
    }

    function Permissions(): seq<string> {
      []
    }

    function Routers(): seq<string> {
      []
    }

    /** Never fails: it only wraps the bytes; nothing is compiled here. */
    function Build(): (r: Result<WasmPlugin, PluginError>)
      ensures r.Ok? && r.value.source == source && !r.value.instantiated
    {
      Ok(WasmPlugin(Source(), false))
    }
  }

  /** The builder's declared surface: the configured metadata and bytes,
      no permissions and no routers, and a build that cannot fail. */
  lemma BuilderSurface(b: PluginBuilder)
    ensures b.Metadata() == b.config.metadata && b.Source() == b.source
    ensures b.Permissions() == [] && b.Routers() == []
    ensures b.Build().Ok?
  {
  }

  /** `SystemOp`: an entry of the writer's operation log. */
  datatype SystemOp = New(name: string, plugin: PluginBuilder) | Remove(name: string)

  type Plugins = map<string, PluginBuilder>

  /** `plugins.get(name).cloned()`: a miss is `None`, a hit the stored plugin. */
  function Lookup(m: Plugins, name: string): (r: Option<PluginBuilder>)
    ensures r.Some? <==> name in m
    ensures r.Some? ==> r.value == m[name]
  {
    if name in m then Some(m[name]) else None
  }

  /** Some operation of the log names `name`. */
  predicate Mentions(ops: seq<SystemOp>, name: string) {
    exists i :: 0 <= i < |ops| && ops[i].name == name
  }

  /** Some `New` of the log installs a plugin under `name`. */
  predicate Inserts(ops: seq<SystemOp>, name: string) {
    exists i :: 0 <= i < |ops| && ops[i].New? && ops[i].name == name
  }

  /** The effect of absorbing one operation: `New` installs its plugin under
      its name, replacing whatever was there; `Remove` deletes that name, and
      is a no-op when the name is absent; every other name keeps its entry. */
  function Apply(m: Plugins, op: SystemOp): (r: Plugins)
    ensures op.New? ==> op.name in r && r[op.name] == op.plugin
    ensures op.Remove? ==> op.name !in r
    ensures forall k :: k != op.name ==> (k in r <==> k in m)
    ensures forall k :: k != op.name && k in r ==> r[k] == m[k]
  {
    match op
    case New(name, plugin) => m[name := plugin]
    case Remove(name) => m - {name}
  }

  /** Absorbing a log, oldest operation first: names the log never
      mentions keep their entry, and a name is only ever added by a `New`. */
  function ApplyAll(m: Plugins, ops: seq<SystemOp>): (r: Plugins)
    ensures forall k :: !Mentions(ops, k) ==> Lookup(r, k) == Lookup(m, k)
    ensures forall k :: k in r ==> k in m || Inserts(ops, k)
  {
    if ops == [] then m
    else
      var init, last := ops[..|ops| - 1], ops[|ops| - 1];
      assert forall k :: Mentions(init, k) ==> Mentions(ops, k) by {
        forall k | Mentions(init, k) ensures Mentions(ops, k) {
          var i :| 0 <= i < |init| && init[i].name == k;
          assert ops[i] == init[i];
        }
      }
      assert forall k :: Inserts(init, k) ==> Inserts(ops, k) by {
        forall k | Inserts(init, k) ensures Inserts(ops, k) {
          var i :| 0 <= i < |init| && init[i].New? && init[i].name == k;
          assert ops[i] == init[i];
        }
      }
      assert last.New? ==> Inserts(ops, last.name) by {
        if last.New? { assert ops[|ops| - 1] == last; }
      }
      assert Mentions(ops, last.name) by { assert ops[|ops| - 1] == last; }
      Apply(ApplyAll(m, init), last)
  }

  /** The last operation in the log that names `name`, if any. */
  function LastTouch(ops: seq<SystemOp>, name: string): Option<SystemOp>
  {
    if ops == [] then None
    else if ops[|ops| - 1].name == name then Some(ops[|ops| - 1])
    else LastTouch(ops[..|ops| - 1], name)
  }

  /** Last write wins: after absorbing a log, a name holds what its last
      operation left there, and names the log never mentions are untouched. */
  lemma {:induction false} ApplyAllLookup(m: Plugins, ops: seq<SystemOp>, name: string)
    ensures Lookup(ApplyAll(m, ops), name) ==
      match LastTouch(ops, name)
      case None => Lookup(m, name)
      case Some(New(_, p)) => Some(p)
      case Some(Remove(_)) => None
  {
    if ops != [] {
      ApplyAllLookup(m, ops[..|ops| - 1], name);
    }
  }

  /** Two inserts under one name: the second one is what is left. */
  lemma LastInsertWins(m: Plugins, a: string, d1: PluginBuilder, d2: PluginBuilder)
    ensures Lookup(ApplyAll(m, [New(a, d1), New(a, d2)]), a) == Some(d2)
  {
    ApplyAllLookup(m, [New(a, d1), New(a, d2)], a);
  }

  /** Removing then publishing makes the name absent. */
  lemma RemoveLast(m: Plugins, ops: seq<SystemOp>, name: string)
    ensures Lookup(ApplyAll(m, ops + [Remove(name)]), name) == None
  {
    ApplyAllLookup(m, ops + [Remove(name)], name);
  }

  /** Every entry is stored under its own metadata name. */
  ghost predicate WellKeyed(m: Plugins) {
    forall k :: k in m ==> m[k].Metadata().name == k
  }

  /** Every `New` in the log carries its plugin's metadata name. */
  ghost predicate OpsWellKeyed(ops: seq<SystemOp>) {
    forall i :: 0 <= i < |ops| && ops[i].New? ==> ops[i].name == ops[i].plugin.Metadata().name
  }

  lemma {:induction false} ApplyAllWellKeyed(m: Plugins, ops: seq<SystemOp>)
    requires WellKeyed(m) && OpsWellKeyed(ops)
    ensures WellKeyed(ApplyAll(m, ops))
  {
    if ops != [] {
      var init := ops[..|ops| - 1];
      assert OpsWellKeyed(init) by {
        forall i | 0 <= i < |init| && init[i].New?
          ensures init[i].name == init[i].plugin.Metadata().name
        {
          assert init[i] == ops[i];
        }
      }
      ApplyAllWellKeyed(m, init);
    }
  }

  /** `PluginSystem`: one copy of the name-to-plugin map. */
  class PluginSystem {
    var plugins: Plugins

    constructor ()
      ensures plugins == map[]
    {
      plugins := map[];
    }

    /** `absorb_first`: applies one operation in place. */
    method AbsorbFirst(op: SystemOp)
      modifies this
      ensures plugins == Apply(old(plugins), op)
    {
      match op
      case New(name, plugin) =>
        plugins := plugins[name := plugin];
      case Remove(name) =>
        plugins := plugins - {name};
    }

    /** `sync_with`: this copy becomes a clone of `first`. */
    method SyncWith(first: PluginSystem)
      modifies this
      ensures plugins == old(first.plugins)
      ensures forall name :: Lookup(plugins, name) == Lookup(old(first.plugins), name)
    {
      plugins := first.plugins;
    }
  }

  /** The left-right pair of `PluginSystem` copies, with the single writer's
      pending operation log (`PluginSystemWriter`) and the lookups readers make
      (`PluginSystemReader`). `readCopy` is the copy readers see. */
  class PluginRegistry {
    var pending: seq<SystemOp>
    var readCopy: PluginSystem
    var writeCopy: PluginSystem

    ghost predicate Valid()
      reads this, readCopy, writeCopy
    {
      && readCopy != writeCopy
      && readCopy.plugins == writeCopy.plugins
      && WellKeyed(readCopy.plugins)
      && OpsWellKeyed(pending)
    }

    /** What readers currently see. */
    ghost function Published(): Plugins
      reads this, readCopy
    {
      readCopy.plugins
    }

    /** `PluginSystem::get_left_right`: two empty copies and an empty log. */
    constructor ()
      ensures Valid() && fresh(readCopy) && fresh(writeCopy)
      ensures pending == [] && Published() == map[]
    {
      pending := [];
      readCopy := new PluginSystem();
      writeCopy := new PluginSystem();
    }

    /** `PluginSystemWriter::add`: logs `New` under the plugin's metadata name;
        readers see nothing new yet. */
    method Add(plugin: PluginBuilder)
      requires Valid()
      modifies this`pending
      ensures Valid()
      ensures pending == old(pending) + [New(plugin.Metadata().name, plugin)]
      ensures Published() == old(Published())
    {
      pending := pending + [New(plugin.Metadata().name, plugin)];
    }

    /** `PluginSystemWriter::remove`: logs `Remove` of the plugin's metadata
        name; the rest of the plugin value plays no part. */
    method Remove(plugin: PluginBuilder)
      requires Valid()
      modifies this`pending
      ensures Valid()
      ensures pending == old(pending) + [SystemOp.Remove(plugin.Metadata().name)]
      ensures Published() == old(Published())
    {
      pending := pending + [SystemOp.Remove(plugin.Metadata().name)];
    }

    /** `PluginSystemWriter::publish`: absorbs the log into the standby copy,
        swaps the copies so readers see it, then replays the same log on the
        copy that is now standby, so that both copies agree again. */
    method Publish()
      requires Valid()
      modifies this, readCopy, writeCopy
      ensures Valid()
      ensures pending == []
      ensures Published() == ApplyAll(old(Published()), old(pending))
      ensures {readCopy, writeCopy} == {old(readCopy), old(writeCopy)}
    {
      var ops := pending;
      var visible, standby := readCopy, writeCopy;
      ghost var start := visible.plugins;
      var i := 0;
      while i < |ops|
        invariant 0 <= i <= |ops|
        invariant standby.plugins == ApplyAll(start, ops[..i])
        invariant visible.plugins == start
        modifies standby
      {
        standby.AbsorbFirst(ops[i]);
        assert ops[..i + 1][..i] == ops[..i];
        i := i + 1;
      }
      assert ops[..i] == ops;
      readCopy, writeCopy := standby, visible;
      i := 0;
      while i < |ops|
        invariant 0 <= i <= |ops|
        invariant visible.plugins == ApplyAll(start, ops[..i])
        invariant standby.plugins == ApplyAll(start, ops)
        modifies visible
      {
        visible.AbsorbFirst(ops[i]);
        assert ops[..i + 1][..i] == ops[..i];
        i := i + 1;
      }
      assert ops[..i] == ops;
      pending := [];
      ApplyAllWellKeyed(start, ops);
    }

    /** `PluginSystemWriter::add_from_config`: wraps the bytes and the
        configuration in a `PluginBuilder` and adds it; always `Ok`. */
    method AddFromConfig(wasmAsBytes: seq<byte>, config: PluginConfig.Config)
      returns (r: Result<(), ManagerError>)
      requires Valid()
      modifies this`pending
      ensures Valid()
      ensures r.Ok?
      ensures pending == old(pending) + [New(config.metadata.name, PluginBuilder(config, wasmAsBytes))]
      ensures Published() == old(Published())
    {
      var newPlugin := PluginBuilder(config, wasmAsBytes);
      Add(newPlugin);
      r := Ok(());
    }

    /** `PluginSystemReader::get`: a miss is `None`, not an error, and a hit is
        the plugin whose own metadata name was asked for. */
    method Get(name: string) returns (r: Option<PluginBuilder>)
      requires Valid()
      ensures r.Some? <==> name in Published()
      ensures r.Some? ==> r.value == Published()[name] && r.value.Metadata().name == name
    {
      if name in readCopy.plugins {
        r := Some(readCopy.plugins[name]);
      } else {
        r := None;
      }
    }
  }

  /** A plugin added by the writer is invisible to readers until `publish`,
      and from then on is what a lookup of its name returns. */
  method AddPublishGet(registry: PluginRegistry, plugin: PluginBuilder)
    returns (before: Option<PluginBuilder>, after: Option<PluginBuilder>)
    requires registry.Valid()
    modifies registry, registry.readCopy, registry.writeCopy
    ensures registry.Valid()
    ensures before == Lookup(old(registry.Published()), plugin.Metadata().name)
    ensures after == Some(plugin)
  {
    var name := plugin.Metadata().name;
    registry.Add(plugin);
    before := registry.Get(name);
    ghost var ops := registry.pending;
    registry.Publish();
    ApplyAllLookup(old(registry.Published()), ops, name);
    after := registry.Get(name);
  }
}
