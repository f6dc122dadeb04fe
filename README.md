# Plugin manager, modelled in Dafny

This project models the plugin registry and dispatcher `PluginManager` of
`plugin_system/plugin_manager.py`. A manager is bound to a plugin directory at
construction and holds an ordered list of plugin instances. Loading lists the
directory and imports every entry that ends in `.py` other than `__init__.py`,
under the entry's name without the suffix. It then scans each module's
attributes in `dir()` order and instantiates and appends every class derived
from the plugin base class, other than the base class itself. Execute-all calls
`execute()` on every registered plugin in order. Execute-by-name forwards a call
to the first plugin whose class name matches. It raises an attribute error when
that plugin lacks the function and a not-found error when no plugin matches.

The files:

- `file_selection.dfy` (module `FileSelection`): the file-name rule and the
  module-name derivation, as functions with their round trip.
- `discovery.dfy` (module `Discovery`): what one load appends, as pure
  functions. These are `Load` and `LoadFrom`, built from one step per entry and
  one step per symbol. The combinator `Then` stops at the first exception. The
  module also holds the lemmas that describe a load: order, success, soundness
  and the failure that aborts it.
- `plugin_manager.dfy` (module `PluginManager`): the class `Manager` with the
  fields `pluginDir` and `plugins`. `LoadPlugins` appends in place. Its loop
  over the listing is `LoadListing`, and the nested loop over a module's
  symbols is `RegisterModule`. The two dispatchers are loops over the registry.

The interpreter's reflective machinery is made abstract:

- The directory listing is a map `fs` from directory to its entries. A
  directory missing from it makes the listing raise.
- Importing is a map `modules` from module name to the module's attributes in
  `dir()` order. A name missing from it, or one `import_module` refuses (see
  below), makes the import raise.
- Each attribute is a `Symbol`. It records the attribute name and the outcomes
  of `isinstance(_, type)`, `issubclass(_, Plugin)` and `_ is Plugin`. It also
  records the class's `__name__`, the attribute names its instances have, and
  whether its no-argument constructor returns normally.
- A registered instance is a `PluginRec`: its class name and the names
  `hasattr` finds on it.
- Whether a plugin's `execute` raises is given by the set of registry indices
  whose `execute` raises.

Python's `dir()` returns a module's attribute names sorted alphabetically, not
in declaration order. The model takes each module's symbol sequence to be what
`dir()` returns (plugin_manager.py:31).

Some entry names end in `.py` but give a module name that
`importlib.import_module` refuses before searching anything. An entry named
`.py` gives the empty name, which raises a value error. An entry such as
`.#x.py` gives a name starting with `.`, a relative import without a package,
which raises a type error. The model treats both as import failures, whatever
`modules` holds (`ImportableName`).

## Model

| member | source | states |
|---|---|---|
| `FileSelection.IsPluginSource` | plugin_system/plugin_manager.py:28 | Defines the entry test: the name ends in `.py` and is not exactly `__init__.py`. |
| `FileSelection.ModuleName` | plugin_system/plugin_manager.py:29 | The module name is the entry minus its last three characters, or empty for shorter entries. For an entry ending in `.py`, the module name followed by `.py` is the entry again. |
| `FileSelection.SourceFileRoundTrip` | plugin_system/plugin_manager.py:28-29 | For every stem, `stem + ".py"` is imported exactly when the stem is not `__init__`, and its module name is the stem again. |
| `FileSelection.PackageMarkerExcluded` | plugin_system/plugin_manager.py:28 | `__init__.py` ends in `.py` but is not a plugin source. |
| `FileSelection.PluginSourceShape` | plugin_system/plugin_manager.py:28-29 | Every imported entry is its module name plus `.py`, and that module name is never `__init__`. |
| `Discovery.Conforms` | plugin_system/plugin_manager.py:33 | Defines the symbol filter: a class, a subclass of the plugin base class, and not the base class itself. |
| `Discovery.ScanSymbol` | plugin_system/plugin_manager.py:32-34 | Defines one symbol's step. A non-conforming symbol adds nothing. A conforming one adds its instance, or raises an instantiation error naming module and attribute if its constructor raises. |
| `Discovery.ScanModule` | plugin_system/plugin_manager.py:31-34 | Defines a module's scan: its symbols' steps in `dir()` order, stopping at the first that raises. |
| `Discovery.ImportableName` | plugin_system/plugin_manager.py:30 | Defines the names `import_module` accepts at all: not empty and not starting with `.`. |
| `Discovery.ImportModule` | plugin_system/plugin_manager.py:30-34 | Defines importing a module and scanning it. A refused name, or a name absent from `modules`, raises an import error naming the module and adds nothing. |
| `Discovery.LoadEntry` | plugin_system/plugin_manager.py:28-34 | Defines one entry's step: a plugin source is imported under its module name and scanned; any other entry adds nothing. |
| `Discovery.Load` | plugin_system/plugin_manager.py:27-34 | Defines a listing's load: its entries' steps in listing order, stopping at the first that raises. |
| `Discovery.LoadFrom` | plugin_system/plugin_manager.py:27 | Defines a whole load. A directory absent from `fs` raises a listing error naming the directory and adds nothing. Otherwise it is the load of the directory's listing. |
| `Discovery.Admitted` | plugin_system/plugin_manager.py:31-33 | The filter keeps only symbols that pass the line-33 test: classes derived from the base class, so never the base class itself. |
| `Discovery.AdmittedCounts` | plugin_system/plugin_manager.py:31-34 | Each symbol is admitted exactly as often as the module lists it if it conforms, and never otherwise: one instance per conforming symbol. |
| `Discovery.AdmittedAppend` | plugin_system/plugin_manager.py:31-33 | The filter keeps symbol order: admitting from `a + b` is admitting from `a`, then from `b`. |
| `Discovery.ScanModuleAppend` | plugin_system/plugin_manager.py:31-34 | Scanning `a + b` is scanning `a` and then, unless a constructor raised, `b`. |
| `Discovery.LoadAppend` | plugin_system/plugin_manager.py:27-34 | Loading the listing `a + b` is loading `a` and then, unless that raised, `b`. Plugins are appended in listing order, and the first failure stops the load. |
| `Discovery.NonCandidateIgnored` | plugin_system/plugin_manager.py:27-30 | An entry that is not a plugin source is never imported. Removing it from any listing leaves the load's result and outcome unchanged, even if no module of that name exists. |
| `Discovery.RefusedNamesFail` | plugin_system/plugin_manager.py:28-30 | The entries `.py` and `.#x.py` pass the entry test, yet loading either raises an import error naming the module (`""`, `.#x`) and appends nothing, whatever `modules` holds. |
| `Discovery.RefusedEntryAborts` | plugin_system/plugin_manager.py:27-30 | A plugin-source entry whose module name `import_module` refuses (empty, or starting with `.`) aborts the load at that entry. The entries before it keep what they appended, the load ends with an import error naming that module, and nothing listed after it is loaded. |
| `Discovery.ScanModuleSucceeds` | plugin_system/plugin_manager.py:31-34 | A module scan raises nothing exactly when every conforming symbol instantiates. It then appends exactly the instances of the conforming symbols, in symbol order. |
| `Discovery.ScanModuleFails` | plugin_system/plugin_manager.py:31-34 | A scan that raises names the first conforming symbol whose constructor raised. It has appended exactly the instances of the conforming symbols before that one. |
| `Discovery.ScanModuleStopsAt` | plugin_system/plugin_manager.py:31-34 | If every conforming symbol before index `i` constructs and the one at `i` does not, the scan raises naming that symbol's attribute, after appending exactly the instances admitted before `i`. |
| `Discovery.LoadSucceeds` | plugin_system/plugin_manager.py:27-34 | A load raises nothing exactly when every plugin source imports and every conforming symbol in it instantiates. It then appends exactly `Discovered`: per entry in listing order, the instances of the module's conforming symbols. |
| `Discovery.LoadSound` | plugin_system/plugin_manager.py:27-34 | Whether or not a load completes, every appended instance comes from a conforming symbol (never the base class) of a module imported for a plugin source of the listing. |
| `Discovery.LoadFailureNamed` | plugin_system/plugin_manager.py:27-34 | A load that raises names a real failure. An import error names the module of a plugin source of the listing that cannot be imported. An instantiation error names a module that imports and belongs to a plugin source of the listing, and a conforming symbol of it whose constructor raises. The entries never cause a listing error. |
| `PluginManager.Manager.constructor` | plugin_system/plugin_manager.py:11-23 | A new manager stores the given directory and has an empty plugin sequence. |
| `PluginManager.Manager.LoadPlugins` | plugin_system/plugin_manager.py:25-34 | The new registry is the old one followed by what `LoadFrom` appends for the bound directory, and the returned status is `LoadFrom`'s. The old registry is a prefix of the new one, so a repeated load duplicates entries. The directory is unchanged. |
| `PluginManager.Manager.LoadListing` | plugin_system/plugin_manager.py:27-34 | The loop over the listing. The new registry is the old one followed by what `Load` appends for the listing, and the returned status is `Load`'s. |
| `PluginManager.Manager.RegisterModule` | plugin_system/plugin_manager.py:31-34 | The loop over one module's symbols. The new registry is the old one followed by what `ScanModule` appends, and the returned status is `ScanModule`'s. |
| `PluginManager.Manager.ExecutePlugins` | plugin_system/plugin_manager.py:36-43 | The run completes exactly when every plugin has an `execute` that does not raise. It then calls every plugin once, in registry order. Otherwise it stops at the first plugin lacking `execute`, before calling it, or at the first whose `execute` raised, after calling it. The registry is never modified. |
| `PluginManager.Manager.ExecutePluginByName` | plugin_system/plugin_manager.py:45-66 | If the lowest-index plugin with the requested class name has the function, that plugin is invoked. If it lacks the function, the call fails with an attribute error naming plugin and function. The call fails with a not-found error naming the plugin exactly when no plugin has that class name. Later plugins of the same name are never reached, and the registry is never modified. |

## Left out

- `sys.path.insert(0, plugin_dir)` (line 26): process-wide interpreter state with no logic of its own. Repeated loads add redundant search-path entries, which is not modelled.
- `os.listdir` and `importlib.import_module` are parameters (`fs`, `modules`), not filesystem or interpreter calls. Module caching, import side effects and which search-path entry a module is found on are not modelled. The order of a listing is whatever `fs` gives.
- Python reflection (`dir`, `getattr`, `isinstance`, `issubclass`, `hasattr`) is reduced to the recorded fields of `Symbol` and `PluginRec`. Python's class system is not modelled, so the fields need not be mutually consistent. For example, a symbol marked as the base class but not as a subclass is possible in the model.
- The bodies of plugin constructors, of `execute` and of forwarded functions are opaque plugin code. A constructor is reduced to "returns or raises" (`Symbol.constructs`), and `execute` to "returns or raises" (`raises`).
- `PluginManager.Manager.ExecutePluginByName`: the forwarded `*args`/`**kwargs`, the forwarded function's return value and any exception it raises are not modelled. Such an exception propagates unchanged, which does not alter which plugin was selected.
- The plugin base class `plugin_base.Plugin` is not part of this model. It appears only as the `isPluginSubclass` and `isPluginBase` marks on a symbol.
- Concurrency: the manager is single-threaded, and concurrent loads or dispatches are not modelled.
