/**
 * The plugin manager: a registry bound to a plugin directory, filled in place
 * by a load, and two dispatchers over it.
 */
module PluginManager {
  import opened FileSelection
  import opened Discovery

  /** The operation every plugin is called through by the execute-all dispatcher. */
  const Execute: string := "execute"

  /** How an execute-all run ends. */
  datatype RunOutcome =
    | Completed
    | ExecuteMissing(index: nat)  // the plugin at `index` has no `execute`: an attribute error
    | ExecuteRaised(index: nat)   // the `execute` of the plugin at `index` raised

  /** How an execute-by-name call ends. */
  datatype Dispatch =
    | Invoked(index: nat)
    | AttributeMissing(pluginName: string, functionName: string)
    | NotFound(pluginName: string)

  /** Every plugin of `ps` has an `execute`, and none of them raises from it. */
  predicate RunsCleanly(ps: seq<PluginRec>, raises: set<nat>)
  {
    forall k :: 0 <= k < |ps| ==> Execute in ps[k].functions && k !in raises
  }

  /** An execute-all run gets past every plugin before index `k`, and reaches `k`. */
  predicate StopsAt(ps: seq<PluginRec>, raises: set<nat>, k: int)
  {
    0 <= k < |ps| && RunsCleanly(ps[..k], raises)
  }

  /** `k` is the lowest index of a plugin whose class is called `name`. */
  predicate FirstWithName(ps: seq<PluginRec>, name: string, k: int)
  {
    0 <= k < |ps| && ps[k].typeName == name
    && forall j :: 0 <= j < k ==> ps[j].typeName != name
  }

  class Manager {
    var pluginDir: string
    var plugins: seq<PluginRec>

    /** A new manager is bound to its directory and holds no plugins. */
    constructor (pluginDir: string)
      ensures this.pluginDir == pluginDir
      ensures plugins == []
    {
      this.pluginDir := pluginDir;
      plugins := [];
    }

    /**
     * Loads the plugins of the bound directory, as listed by `fs`, importing
     * modules from `modules`. The registry only grows: what was there stays in
     * front, so a second load of the same directory registers its plugins a
     * second time. On a failure the appends made before it stay.
     */
    method LoadPlugins(fs: map<string, seq<string>>, modules: map<string, seq<Symbol>>)
      returns (status: LoadStatus)
      modifies this`plugins
      ensures plugins == old(plugins) + LoadFrom(pluginDir, fs, modules).added
      ensures status == LoadFrom(pluginDir, fs, modules).status
      ensures old(plugins) <= plugins
    {
      if pluginDir !in fs {
        return ListingFailed(pluginDir);
      }
      status := LoadListing(fs[pluginDir], modules);
    }

    /** The entries of a directory listing in order, stopping at the first failure. */
    method LoadListing(listing: seq<string>, modules: map<string, seq<Symbol>>) returns (status: LoadStatus)
      modifies this`plugins
      ensures plugins == old(plugins) + Load(listing, modules).added
      ensures status == Load(listing, modules).status
    {
      var i := 0;
      while i < |listing|
        invariant 0 <= i <= |listing|
        invariant Load(listing[..i], modules).status == Done
        invariant plugins == old(plugins) + Load(listing[..i], modules).added
      {
        var filename := listing[i];
        ghost var entry := LoadEntry(filename, modules);
        LoadPrefixStep(listing, i, modules);
        if IsPluginSource(filename) {
          var moduleName := ModuleName(filename);
          if !Imports(moduleName, modules) {
            assert entry == Loaded([], ImportFailed(moduleName));
            return ImportFailed(moduleName);
          }
          assert entry == ScanModule(moduleName, modules[moduleName]);
          status := RegisterModule(moduleName, modules[moduleName]);
          if status != Done {
            return;
          }
        } else {
          assert entry == Nothing;
        }
        i := i + 1;
      }
      assert listing[..i] == listing;
      return Done;
    }

    /**
     * The scan of one imported module: instantiates and appends, in symbol
     * order, every class derived from the plugin base class other than the
     * base class itself, stopping at the first constructor that raises.
     */
    method RegisterModule(moduleName: string, symbols: seq<Symbol>) returns (status: LoadStatus)
      modifies this`plugins
      ensures plugins == old(plugins) + ScanModule(moduleName, symbols).added
      ensures status == ScanModule(moduleName, symbols).status
    {
      var j := 0;
      while j < |symbols|
        invariant 0 <= j <= |symbols|
        invariant ScanModule(moduleName, symbols[..j]).status == Done
        invariant plugins == old(plugins) + ScanModule(moduleName, symbols[..j]).added
      {
        var symbol := symbols[j];
        ScanPrefixStep(moduleName, symbols, j);
        if Conforms(symbol) {
          if !symbol.constructs {
            return InstantiationFailed(moduleName, symbol.attr);
          }
          plugins := plugins + [Instance(symbol)];
        }
        j := j + 1;
      }
      assert symbols[..j] == symbols;
      return Done;
    }

    /**
     * Calls `execute` on the registered plugins in order and returns the ones
     * called. It completes exactly when every plugin has an `execute` that does
     * not raise (`raises` holds the indices of those whose `execute` raises),
     * and then every plugin is called once, in order; otherwise it stops at the
     * first plugin that lacks `execute` (not calling it) or raises from it.
     */
    method ExecutePlugins(raises: set<nat>) returns (invoked: seq<PluginRec>, outcome: RunOutcome)
      ensures outcome.Completed? <==> RunsCleanly(plugins, raises)
      ensures outcome.Completed? ==> invoked == plugins
      ensures outcome.ExecuteMissing? ==>
        StopsAt(plugins, raises, outcome.index)
        && Execute !in plugins[outcome.index].functions
        && invoked == plugins[..outcome.index]
      ensures outcome.ExecuteRaised? ==>
        StopsAt(plugins, raises, outcome.index)
        && Execute in plugins[outcome.index].functions && outcome.index in raises
        && invoked == plugins[..outcome.index + 1]
    {
      invoked := [];
      var i := 0;
      while i < |plugins|
        invariant 0 <= i <= |plugins|
        invariant RunsCleanly(plugins[..i], raises)
        invariant invoked == plugins[..i]
      {
        var plugin := plugins[i];
        if Execute !in plugin.functions {
          return invoked, ExecuteMissing(i);
        }
        invoked := invoked + [plugin];
        if i in raises {
          return invoked, ExecuteRaised(i);
        }
        i := i + 1;
      }
      assert plugins[..i] == plugins;
      outcome := Completed;
    }

    /**
     * Invokes `functionName` on the first registered plugin whose class is
     * named `pluginName`; later plugins of the same name are never reached.
     * If that plugin lacks the function the call fails with an attribute error
     * naming plugin and function; if no plugin has that class name (always so
     * when the registry is empty) it fails with a not-found error naming the
     * plugin.
     */
    method ExecutePluginByName(pluginName: string, functionName: string) returns (r: Dispatch)
      ensures r.Invoked? ==>
        FirstWithName(plugins, pluginName, r.index) && functionName in plugins[r.index].functions
      ensures r.AttributeMissing? <==>
        exists k :: FirstWithName(plugins, pluginName, k) && functionName !in plugins[k].functions
      ensures r.AttributeMissing? ==> r == AttributeMissing(pluginName, functionName)
      ensures r.NotFound? <==> forall k :: 0 <= k < |plugins| ==> plugins[k].typeName != pluginName
      ensures r.NotFound? ==> r == NotFound(pluginName)
    {
      var i := 0;
      while i < |plugins|
        invariant 0 <= i <= |plugins|
        invariant forall j :: 0 <= j < i ==> plugins[j].typeName != pluginName
      {
        if plugins[i].typeName == pluginName {
          if functionName in plugins[i].functions {
            return Invoked(i);
          }
          return AttributeMissing(pluginName, functionName);
        }
        i := i + 1;
      }
      return NotFound(pluginName);
    }
  }
}
