/** `run_plugin_function`: the router that looks a plugin up, builds it,
    checks the requested export, calls it with no arguments and returns every
    result value as a string. The wasm engine is not part of this model: it
    enters as an `Engine` value whose export list, call and value rendering
    are arbitrary functions. */
module RunPlugin {
  import opened Wrappers
  import opened Manager
  import opened RouterErrors

  /** The request body `PluginCall`. */
  datatype PluginCall = PluginCall(name: string, functionName: string)

  /** The engine operations the router uses: `export_names` of a built
      plugin, `run_func` (which fails with a message), and `to_string` of
      one returned value. */
  datatype Engine<!V> = Engine(
    exportNames: WasmPlugin -> seq<string>,
    runFunc: (WasmPlugin, string, seq<V>) -> Result<seq<V>, string>,
    show: V -> string)

  /** `.any(|i| i != function_name)` over the export names. */
  function AnyDiffers(names: seq<string>, functionName: string): (r: bool)
    ensures r <==> exists i :: 0 <= i < |names| && names[i] != functionName
  {
    if names == [] then false
    else names[0] != functionName || AnyDiffers(names[1..], functionName)
  }

  /** `.map(|val| val.to_string()).collect()`: same length, same order. */
  function Stringify<V>(vals: seq<V>, show: V -> string): (r: seq<string>)
    ensures |r| == |vals|
    ensures forall i :: 0 <= i < |vals| ==> r[i] == show(vals[i])
  {
    if vals == [] then [] else [show(vals[0])] + Stringify(vals[1..], show)
  }

  function PluginNotFound(name: string): RouterError {
    NotFound("Plugin name " + name + " not found!")
  }

  function FunctionNotFound(functionName: string): RouterError {
    NotFound("Function name " + functionName + " not found!")
  }

  /** The router as written: lookup, build, export check, call, stringify.
      An unknown plugin is the plugin 404; a registered one is refused with
      the function 404 exactly when some export differs from the requested
      name; otherwise the outcome is that of the call with no arguments. */
  function RunPluginFunction<V>(published: Plugins, req: PluginCall, engine: Engine<V>)
    : (r: Result<seq<string>, RouterError>)
    ensures req.name !in published ==> r == Err(PluginNotFound(req.name))
    ensures req.name in published ==>
      var wasm := Built(published, req.name);
      && ((r == Err(FunctionNotFound(req.functionName))) <==>
            exists i :: 0 <= i < |engine.exportNames(wasm)| && engine.exportNames(wasm)[i] != req.functionName)
      && (!AnyDiffers(engine.exportNames(wasm), req.functionName) ==>
            r == match engine.runFunc(wasm, req.functionName, [])
                 case Err(_) => Err(InternalError)
                 case Ok(vals) => Ok(Stringify(vals, engine.show)))
  {
    match Lookup(published, req.name)
    case None => Err(PluginNotFound(req.name))
    case Some(plugin) =>
      match plugin.Build()
      case Err(_) => Err(InternalError)
      case Ok(wasm) =>
        if AnyDiffers(engine.exportNames(wasm), req.functionName) then
          Err(FunctionNotFound(req.functionName))
        else
          match engine.runFunc(wasm, req.functionName, [])
          case Err(_) => Err(InternalError)
          case Ok(vals) => Ok(Stringify(vals, engine.show))
  }

  /** The plugin value the router builds for a registered name. */
  function Built(published: Plugins, name: string): WasmPlugin
    requires name in published
  {
    published[name].Build().value
  }

  /** An unknown plugin is a 404 with the plugin's name in the message, and
      the engine is never consulted. */
  lemma UnknownPlugin<V>(published: Plugins, req: PluginCall, engine: Engine<V>, other: Engine<V>)
    requires req.name !in published
    ensures RunPluginFunction(published, req, engine) == Err(NotFound("Plugin name " + req.name + " not found!"))
    ensures StatusCode(RunPluginFunction(published, req, engine).error) == NOT_FOUND
    ensures RunPluginFunction(published, req, engine) == RunPluginFunction(published, req, other)
  {
  }

  /** The full outcome: success exactly when the plugin is registered, the
      export check passes and the call with an empty argument list succeeds,
      and then the response is that call's values rendered one by one. */
  lemma RunPluginOutcome<V>(published: Plugins, req: PluginCall, engine: Engine<V>)
    ensures var r := RunPluginFunction(published, req, engine);
      && (r.Ok? <==>
            && req.name in published
            && (forall i :: 0 <= i < |engine.exportNames(Built(published, req.name))| ==>
                  engine.exportNames(Built(published, req.name))[i] == req.functionName)
            && engine.runFunc(Built(published, req.name), req.functionName, []).Ok?)
      && (r.Ok? ==>
            var vals := engine.runFunc(Built(published, req.name), req.functionName, []).value;
            |r.value| == |vals| && forall i :: 0 <= i < |vals| ==> r.value[i] == engine.show(vals[i]))
  {
  }

  /** Build never fails, so `InternalError` means the call itself failed
      after every check had passed. */
  lemma InternalErrorOnlyFromCall<V>(published: Plugins, req: PluginCall, engine: Engine<V>)
    ensures RunPluginFunction(published, req, engine) == Err(InternalError) <==>
      && req.name in published
      && !AnyDiffers(engine.exportNames(Built(published, req.name)), req.functionName)
      && engine.runFunc(Built(published, req.name), req.functionName, []).Err?
  {
  }

  /** When the export check rejects, the answer is the function 404 and the
      function is not run: any other `run_func` gives the same answer. */
  lemma RejectedExportNotRun<V>(published: Plugins, req: PluginCall, engine: Engine<V>,
                                runFunc: (WasmPlugin, string, seq<V>) -> Result<seq<V>, string>)
    requires req.name in published
    requires AnyDiffers(engine.exportNames(Built(published, req.name)), req.functionName)
    ensures RunPluginFunction(published, req, engine) == Err(FunctionNotFound(req.functionName))
    ensures RunPluginFunction(published, req, engine) == RunPluginFunction(published, req, engine.(runFunc := runFunc))
  {
  }

  /** As written, a module with no exports passes the check for any name. */
  lemma NoExportsPass(functionName: string)
    ensures !AnyDiffers([], functionName)
  {
  }

  /** As written, two different export names fail the check for every name,
      including each of the two. */
  lemma {:induction false} TwoDistinctExportsFail(names: seq<string>, functionName: string, i: int, j: int)
    requires 0 <= i < |names| && 0 <= j < |names| && names[i] != names[j]
    ensures AnyDiffers(names, functionName)
  {
    if names[i] == functionName {
      assert names[j] != functionName;
    }
  }

  /** The discrepancy: a module exporting the requested function beside any
      other export (a wasm module's `memory`, say) is answered with the
      function 404. */
  lemma ListedExportRejected<V>(published: Plugins, req: PluginCall, engine: Engine<V>, other: string)
    requires req.name in published
    requires engine.exportNames(Built(published, req.name)) == [req.functionName, other]
    requires other != req.functionName
    ensures req.functionName in engine.exportNames(Built(published, req.name))
    ensures RunPluginFunction(published, req, engine) == Err(FunctionNotFound(req.functionName))
  {
    assert engine.exportNames(Built(published, req.name))[1] != req.functionName;
  }

  /** The check the router evidently means: the requested name is one of the
      exports, compared exactly. */
  function ExportListed(names: seq<string>, functionName: string): (r: bool)
    ensures r <==> exists i :: 0 <= i < |names| && names[i] == functionName
  {
    if names == [] then false
    else names[0] == functionName || ExportListed(names[1..], functionName)
  }

  /** The router with the intended export check: a registered plugin's
      function is refused with the function 404 exactly when no export equals
      the requested name. */
  function RunPluginFunctionIntended<V>(published: Plugins, req: PluginCall, engine: Engine<V>)
    : (r: Result<seq<string>, RouterError>)
    ensures req.name !in published ==> r == Err(PluginNotFound(req.name))
    ensures req.name in published ==>
      var wasm := Built(published, req.name);
      && ((r == Err(FunctionNotFound(req.functionName))) <==>
            forall i :: 0 <= i < |engine.exportNames(wasm)| ==> engine.exportNames(wasm)[i] != req.functionName)
      && (ExportListed(engine.exportNames(wasm), req.functionName) ==>
            r == match engine.runFunc(wasm, req.functionName, [])
                 case Err(_) => Err(InternalError)
                 case Ok(vals) => Ok(Stringify(vals, engine.show)))
  {
    match Lookup(published, req.name)
    case None => Err(PluginNotFound(req.name))
    case Some(plugin) =>
      match plugin.Build()
      case Err(_) => Err(InternalError)
      case Ok(wasm) =>
        if !ExportListed(engine.exportNames(wasm), req.functionName) then
          Err(FunctionNotFound(req.functionName))
        else
          match engine.runFunc(wasm, req.functionName, [])
          case Err(_) => Err(InternalError)
          case Ok(vals) => Ok(Stringify(vals, engine.show))
  }

  /** With the intended check, a registered plugin's function is rejected
      exactly when it is not among the exports; so zero exports reject every
      name, a prefix of an export is rejected, and an export listed beside
      others is run. */
  lemma IntendedExportCheck<V>(published: Plugins, req: PluginCall, engine: Engine<V>)
    requires req.name in published
    ensures var names := engine.exportNames(Built(published, req.name));
      && ((RunPluginFunctionIntended(published, req, engine) == Err(FunctionNotFound(req.functionName)))
            <==> req.functionName !in names)
      && (req.functionName in names ==>
            RunPluginFunctionIntended(published, req, engine) ==
              match engine.runFunc(Built(published, req.name), req.functionName, [])
              case Err(_) => Err(InternalError)
              case Ok(vals) => Ok(Stringify(vals, engine.show)))
  {
    var names := engine.exportNames(Built(published, req.name));
    var r := RunPluginFunctionIntended(published, req, engine);
    if req.functionName in names {
      var k :| 0 <= k < |names| && names[k] == req.functionName;
      assert ExportListed(names, req.functionName);
      assert r.Ok? || r == Err(InternalError);
    }
  }

  /** The two routers differ only on the export check: where the export list
      is exactly the requested name, they agree. */
  lemma AgreeOnSingleExport<V>(published: Plugins, req: PluginCall, engine: Engine<V>)
    requires req.name in published
    requires engine.exportNames(Built(published, req.name)) == [req.functionName]
    ensures RunPluginFunction(published, req, engine) == RunPluginFunctionIntended(published, req, engine)
  {
    assert ExportListed([req.functionName], req.functionName);
  }
}
