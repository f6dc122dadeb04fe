/**
 * What one call of `load_plugins` does to the registry, as pure functions over
 * an abstract directory listing and an abstract table of importable modules.
 *
 * A load walks the listing in order; for every plugin source entry it imports
 * the module and walks the module's symbols in `dir()` order, instantiating and
 * appending every symbol that is a class derived from the plugin base class
 * other than the base class itself. The first failure (a module that cannot be
 * imported, a constructor that raises) aborts the walk; what was appended
 * before it stays appended.
 */
module Discovery {
  import opened FileSelection

  /**
   * A registered plugin instance, as the dispatcher sees it: the `__name__` of
   * its class and the attribute names `hasattr` finds on it.
   */
  datatype PluginRec = PluginRec(typeName: string, functions: set<string>)

  /**
   * One attribute of an imported module, as `dir(module)` lists it and as the
   * reflective tests judge it: its attribute name, whether it is a class,
   * whether it is a subclass of the plugin base class (the base class is a
   * subclass of itself), whether it is the base class itself, the class's
   * `__name__`, the attributes an instance of it has, and whether calling it
   * with no arguments returns an instance rather than raising.
   */
  datatype Symbol = Symbol(
    attr: string,
    isType: bool,
    isPluginSubclass: bool,
    isPluginBase: bool,
    className: string,
    functions: set<string>,
    constructs: bool)

  /** The filter of the symbol scan: a class, derived from the base class, not the base class. */
  predicate Conforms(s: Symbol)
  {
    s.isType && s.isPluginSubclass && !s.isPluginBase
  }

  /** The instance the no-argument constructor of a conforming symbol yields. */
  function Instance(s: Symbol): PluginRec
  {
    PluginRec(s.className, s.functions)
  }

  function Instances(ss: seq<Symbol>): seq<PluginRec>
  {
    seq(|ss|, i requires 0 <= i < |ss| => Instance(ss[i]))
  }

  /** How a load ends: normally, or with the exception that aborted it. */
  datatype LoadStatus =
    | Done
    | ListingFailed(dir: string)
    | ImportFailed(moduleName: string)
    | InstantiationFailed(moduleName: string, attr: string)

  /** What a (part of a) load appends to the registry, and how it ends. */
  datatype Loaded = Loaded(added: seq<PluginRec>, status: LoadStatus)

  const Nothing: Loaded := Loaded([], Done)

  /** Running one part of a load and then, unless it raised, the next. */
  function Then(a: Loaded, b: Loaded): Loaded
  {
    if a.status == Done then Loaded(a.added + b.added, b.status) else a
  }

  lemma ThenAssociative(a: Loaded, b: Loaded, c: Loaded)
    ensures Then(Then(a, b), c) == Then(a, Then(b, c))
  {
  }

  /** Examining one symbol of module `moduleName`. */
  function ScanSymbol(moduleName: string, s: Symbol): Loaded
  {
    if !Conforms(s) then Nothing
    else if !s.constructs then Loaded([], InstantiationFailed(moduleName, s.attr))
    else Loaded([Instance(s)], Done)
  }

  /** Examining the symbols of module `moduleName` in order. */
  function ScanModule(moduleName: string, syms: seq<Symbol>): Loaded
    decreases |syms|
  {
    if syms == [] then Nothing
    else Then(ScanSymbol(moduleName, syms[0]), ScanModule(moduleName, syms[1..]))
  }

  /**
   * Names `importlib.import_module` refuses before searching anything: the
   * empty name (a value error) and a name starting with '.' (a relative
   * import without a package, a type error). Entries ".py" and ".#x.py"
   * yield such names.
   */
  predicate ImportableName(moduleName: string)
  {
    moduleName != [] && moduleName[0] != '.'
  }

  /** Whether importing `moduleName` returns a module; absent from `modules`: the import raises. */
  predicate Imports(moduleName: string, modules: map<string, seq<Symbol>>)
  {
    ImportableName(moduleName) && moduleName in modules
  }

  /** Importing a module and scanning it. */
  function ImportModule(moduleName: string, modules: map<string, seq<Symbol>>): Loaded
  {
    if !Imports(moduleName, modules) then Loaded([], ImportFailed(moduleName))
    else ScanModule(moduleName, modules[moduleName])
  }

  /** Handling one directory entry: only plugin sources are imported. */
  function LoadEntry(filename: string, modules: map<string, seq<Symbol>>): Loaded
  {
    if IsPluginSource(filename) then ImportModule(ModuleName(filename), modules) else Nothing
  }

  /** Handling the entries of a directory listing in order. */
  function Load(listing: seq<string>, modules: map<string, seq<Symbol>>): Loaded
    decreases |listing|
  {
    if listing == [] then Nothing
    else Then(LoadEntry(listing[0], modules), Load(listing[1..], modules))
  }

  /** A whole load: listing the directory (absent from `fs`: the listing raises), then the entries. */
  function LoadFrom(dir: string, fs: map<string, seq<string>>, modules: map<string, seq<Symbol>>): Loaded
  {
    if dir !in fs then Loaded([], ListingFailed(dir)) else Load(fs[dir], modules)
  }

  /** The conforming symbols of a module, in order; so the base class is never among them. */
  function Admitted(syms: seq<Symbol>): (r: seq<Symbol>)
    ensures forall i :: 0 <= i < |r| ==> Conforms(r[i])
    decreases |syms|
  {
    if syms == [] then []
    else (if Conforms(syms[0]) then [syms[0]] else []) + Admitted(syms[1..])
  }

  /**
   * Exactly one per conforming symbol: each symbol occurs among the admitted
   * ones exactly as often as in the module if it conforms, and never if not.
   */
  lemma {:induction false} AdmittedCounts(syms: seq<Symbol>, s: Symbol)
    ensures multiset(Admitted(syms))[s] == if Conforms(s) then multiset(syms)[s] else 0
    decreases |syms|
  {
    if syms != [] {
      AdmittedCounts(syms[1..], s);
      assert syms == [syms[0]] + syms[1..];
      assert multiset(syms) == multiset([syms[0]]) + multiset(syms[1..]);
    }
  }

  lemma {:induction false} AdmittedAppend(a: seq<Symbol>, b: seq<Symbol>)
    ensures Admitted(a + b) == Admitted(a) + Admitted(b)
    decreases |a|
  {
    if a != [] {
      assert (a + b)[1..] == a[1..] + b;
      AdmittedAppend(a[1..], b);
    } else {
      assert a + b == b;
    }
  }

  /** Scanning `a` then `b` is scanning `a + b`: symbols are handled in order. */
  lemma {:induction false} ScanModuleAppend(m: string, a: seq<Symbol>, b: seq<Symbol>)
    ensures ScanModule(m, a + b) == Then(ScanModule(m, a), ScanModule(m, b))
    decreases |a|
  {
    if a == [] {
      assert a + b == b;
    } else {
      assert (a + b)[1..] == a[1..] + b;
      ScanModuleAppend(m, a[1..], b);
      ThenAssociative(ScanSymbol(m, a[0]), ScanModule(m, a[1..]), ScanModule(m, b));
    }
  }

  /**
   * Loading the listing `a + b` is loading `a` and then, unless that raised,
   * `b`: plugins from earlier entries come first, and a failure stops the load.
   */
  lemma {:induction false} LoadAppend(a: seq<string>, b: seq<string>, modules: map<string, seq<Symbol>>)
    ensures Load(a + b, modules) == Then(Load(a, modules), Load(b, modules))
    decreases |a|
  {
    if a == [] {
      assert a + b == b;
    } else {
      assert (a + b)[1..] == a[1..] + b;
      LoadAppend(a[1..], b, modules);
      ThenAssociative(LoadEntry(a[0], modules), Load(a[1..], modules), Load(b, modules));
    }
  }

  /** The scan of one more symbol, and where a failing symbol leaves the whole scan. */
  lemma ScanPrefixStep(m: string, syms: seq<Symbol>, j: nat)
    requires j < |syms| && ScanModule(m, syms[..j]).status == Done
    ensures ScanModule(m, syms[..j + 1]).added == ScanModule(m, syms[..j]).added + ScanSymbol(m, syms[j]).added
    ensures ScanModule(m, syms[..j + 1]).status == ScanSymbol(m, syms[j]).status
    ensures ScanModule(m, syms[..j + 1]).status != Done ==> ScanModule(m, syms) == ScanModule(m, syms[..j + 1])
  {
    assert syms[..j + 1] == syms[..j] + [syms[j]];
    ScanModuleAppend(m, syms[..j], [syms[j]]);
    assert ScanModule(m, [syms[j]]) == ScanSymbol(m, syms[j]);
    assert syms == syms[..j + 1] + syms[j + 1..];
    ScanModuleAppend(m, syms[..j + 1], syms[j + 1..]);
  }

  /** The load of one more entry, and where a failing entry leaves the whole load. */
  lemma LoadPrefixStep(listing: seq<string>, i: nat, modules: map<string, seq<Symbol>>)
    requires i < |listing| && Load(listing[..i], modules).status == Done
    ensures Load(listing[..i + 1], modules).added == Load(listing[..i], modules).added + LoadEntry(listing[i], modules).added
    ensures Load(listing[..i + 1], modules).status == LoadEntry(listing[i], modules).status
    ensures Load(listing[..i + 1], modules).status != Done ==> Load(listing, modules) == Load(listing[..i + 1], modules)
  {
    assert listing[..i + 1] == listing[..i] + [listing[i]];
    LoadAppend(listing[..i], [listing[i]], modules);
    assert Load([listing[i]], modules) == LoadEntry(listing[i], modules);
    assert listing == listing[..i + 1] + listing[i + 1..];
    LoadAppend(listing[..i + 1], listing[i + 1..], modules);
  }

  /**
   * An entry that is not a plugin source (wrong suffix, or the package
   * marker) is neither imported nor scanned: removing it changes nothing,
   * even if no module of that name could be imported.
   */
  lemma NonCandidateIgnored(a: seq<string>, f: string, b: seq<string>, modules: map<string, seq<Symbol>>)
    requires !IsPluginSource(f)
    ensures Load(a + [f] + b, modules) == Load(a + b, modules)
  {
    LoadAppend(a + [f], b, modules);
    LoadAppend(a, [f], modules);
    LoadAppend(a, b, modules);
    assert Load([f], modules) == Nothing;
  }

  /**
   * Entries that pass the entry test but whose module names `import_module`
   * refuses abort the load with an import error, whatever modules exist.
   */
  lemma RefusedNamesFail(modules: map<string, seq<Symbol>>)
    ensures IsPluginSource(".py") && IsPluginSource(".#x.py")
    ensures Load([".py"], modules) == Loaded([], ImportFailed(""))
    ensures Load([".#x.py"], modules) == Loaded([], ImportFailed(".#x"))
  {
    var e1, e2 := ".py", ".#x.py";
    assert |e1| == 3 && |e2| == 6 && |PackageMarker| == 11;
    assert e1[0..] == SourceSuffix;
    assert e2[3..] == SourceSuffix;
    assert ModuleName(e1) == [] && !ImportableName([]);
    assert ModuleName(e2) == e2[..3] == ".#x";
    assert ".#x"[0] == '.';
    var l1, l2 := [e1], [e2];
    assert l1[1..] == [] && l2[1..] == [];
  }

  /**
   * Any plugin source whose module name `import_module` refuses aborts the
   * load where it stands: what the entries before it append stays, and
   * nothing listed after it is loaded.
   */
  lemma RefusedEntryAborts(a: seq<string>, f: string, b: seq<string>, modules: map<string, seq<Symbol>>)
    requires IsPluginSource(f) && !ImportableName(ModuleName(f))
    ensures Load(a + [f] + b, modules) == Then(Load(a, modules), Loaded([], ImportFailed(ModuleName(f))))
  {
    LoadAppend(a + [f], b, modules);
    LoadAppend(a, [f], modules);
    assert Load([f], modules) == Loaded([], ImportFailed(ModuleName(f)));
  }

  /**
   * A module scan raises exactly when some conforming symbol cannot be
   * instantiated; otherwise it appends one instance per conforming symbol,
   * in symbol order.
   */
  lemma {:induction false} ScanModuleSucceeds(m: string, syms: seq<Symbol>)
    ensures ScanModule(m, syms).status == Done <==> forall s :: s in syms && Conforms(s) ==> s.constructs
    ensures ScanModule(m, syms).status == Done ==> ScanModule(m, syms).added == Instances(Admitted(syms))
    decreases |syms|
  {
    if syms != [] {
      ScanModuleSucceeds(m, syms[1..]);
      assert syms == [syms[0]] + syms[1..];
      assert forall s :: s in syms <==> s == syms[0] || s in syms[1..];
      var rest := Admitted(syms[1..]);
      if Conforms(syms[0]) {
        assert Admitted(syms) == [syms[0]] + rest;
        InstancesCons(syms[0], rest);
      }
    }
  }

  /** `i` is the first conforming symbol whose constructor raises. */
  predicate FirstUnconstructible(syms: seq<Symbol>, i: int)
  {
    0 <= i < |syms| && Conforms(syms[i]) && !syms[i].constructs
    && forall j :: 0 <= j < i && Conforms(syms[j]) ==> syms[j].constructs
  }

  /** Some conforming symbol that cannot be instantiated has a first such one. */
  lemma {:induction false} FirstUnconstructibleExists(syms: seq<Symbol>, j: int)
    requires 0 <= j < |syms| && Conforms(syms[j]) && !syms[j].constructs
    ensures exists i :: FirstUnconstructible(syms, i)
    decreases j
  {
    if !FirstUnconstructible(syms, j) {
      var k :| 0 <= k < j && Conforms(syms[k]) && !syms[k].constructs;
      FirstUnconstructibleExists(syms, k);
    }
  }

  lemma InstancesCons(s: Symbol, ss: seq<Symbol>)
    ensures Instances([s] + ss) == [Instance(s)] + Instances(ss)
  {
  }

  /**
   * A scan that reaches a conforming symbol whose constructor raises, having
   * instantiated every conforming symbol before it, stops there: it raises
   * naming that symbol, after appending the instances admitted before it.
   */
  lemma ScanModuleStopsAt(m: string, syms: seq<Symbol>, i: int)
    requires FirstUnconstructible(syms, i)
    ensures ScanModule(m, syms) == Loaded(Instances(Admitted(syms[..i])), InstantiationFailed(m, syms[i].attr))
  {
    var before, after := syms[..i], syms[i..];
    assert syms == before + after;
    ScanModuleAppend(m, before, after);
    ScanModuleSucceeds(m, before);
    assert ScanModule(m, after).status == InstantiationFailed(m, syms[i].attr) by {
      assert after[0] == syms[i];
    }
    assert ScanModule(m, after).added == [];
  }

  /**
   * When a module scan raises, it names the first conforming symbol whose
   * constructor raised, and it has appended exactly the instances of the
   * conforming symbols before that one.
   */
  lemma ScanModuleFails(m: string, syms: seq<Symbol>)
    requires ScanModule(m, syms).status != Done
    ensures exists i :: (FirstUnconstructible(syms, i)
      && ScanModule(m, syms) == Loaded(Instances(Admitted(syms[..i])), InstantiationFailed(m, syms[i].attr)))
  {
    ScanModuleSucceeds(m, syms);
    var s :| s in syms && Conforms(s) && !s.constructs;
    var j :| 0 <= j < |syms| && syms[j] == s;
    FirstUnconstructibleExists(syms, j);
    var i :| FirstUnconstructible(syms, i);
    ScanModuleStopsAt(m, syms, i);
  }

  /** Every plugin source of the listing imports, and every conforming symbol in it instantiates. */
  predicate Loadable(listing: seq<string>, modules: map<string, seq<Symbol>>)
  {
    forall f :: f in listing && IsPluginSource(f) ==>
      Imports(ModuleName(f), modules)
      && forall s :: s in modules[ModuleName(f)] && Conforms(s) ==> s.constructs
  }

  /** What a load that raises nothing appends: entry by entry, the conforming symbols' instances. */
  function Discovered(listing: seq<string>, modules: map<string, seq<Symbol>>): seq<PluginRec>
    requires Loadable(listing, modules)
    decreases |listing|
  {
    if listing == [] then []
    else
      var f := listing[0];
      (if IsPluginSource(f) then Instances(Admitted(modules[ModuleName(f)])) else [])
      + Discovered(listing[1..], modules)
  }

  /**
   * A load raises nothing exactly when every plugin source imports and every
   * conforming symbol in it instantiates, and then it appends exactly one
   * instance per conforming symbol: entry order first, symbol order second.
   */
  lemma {:induction false} LoadSucceeds(listing: seq<string>, modules: map<string, seq<Symbol>>)
    ensures Load(listing, modules).status == Done <==> Loadable(listing, modules)
    ensures Load(listing, modules).status == Done ==> Load(listing, modules).added == Discovered(listing, modules)
    decreases |listing|
  {
    if listing != [] {
      var f := listing[0];
      LoadSucceeds(listing[1..], modules);
      assert forall g :: g in listing <==> g == f || g in listing[1..];
      if IsPluginSource(f) && Imports(ModuleName(f), modules) {
        ScanModuleSucceeds(ModuleName(f), modules[ModuleName(f)]);
      }
    }
  }

  /** `p` is the instance of a conforming symbol of a module imported for an entry of `listing`. */
  ghost predicate FromConformingSymbol(p: PluginRec, listing: seq<string>, modules: map<string, seq<Symbol>>)
  {
    exists f, s :: f in listing && IsPluginSource(f) && Imports(ModuleName(f), modules)
      && s in modules[ModuleName(f)] && Conforms(s) && p == Instance(s)
  }

  lemma {:induction false} ScanModuleSound(m: string, syms: seq<Symbol>)
    ensures forall p :: p in ScanModule(m, syms).added ==> exists s :: s in syms && Conforms(s) && p == Instance(s)
    decreases |syms|
  {
    if syms != [] {
      ScanModuleSound(m, syms[1..]);
    }
  }

  /**
   * Whether it completes or not, a load appends only instances of conforming
   * symbols (never the base class) of modules imported for plugin sources of
   * the listing.
   */
  lemma {:induction false} LoadSound(listing: seq<string>, modules: map<string, seq<Symbol>>)
    ensures forall p :: p in Load(listing, modules).added ==> FromConformingSymbol(p, listing, modules)
    decreases |listing|
  {
    if listing != [] {
      var f := listing[0];
      LoadSound(listing[1..], modules);
      forall p | p in Load(listing[1..], modules).added
        ensures FromConformingSymbol(p, listing, modules)
      {
        var g, s :| g in listing[1..] && IsPluginSource(g) && Imports(ModuleName(g), modules)
          && s in modules[ModuleName(g)] && Conforms(s) && p == Instance(s);
        assert g in listing;
      }
      if IsPluginSource(f) && Imports(ModuleName(f), modules) {
        ScanModuleSound(ModuleName(f), modules[ModuleName(f)]);
        forall p | p in LoadEntry(f, modules).added
          ensures FromConformingSymbol(p, listing, modules)
        {
          var s :| s in modules[ModuleName(f)] && Conforms(s) && p == Instance(s);
          assert f in listing;
        }
      }
    }
  }

  /**
   * A load that raises names a genuine failure: a plugin source of the listing
   * whose module cannot be imported, or a conforming symbol whose constructor
   * raises, in a module imported for a plugin source of the listing. Listing
   * errors come only from the directory itself.
   */
  lemma {:induction false} LoadFailureNamed(listing: seq<string>, modules: map<string, seq<Symbol>>)
    ensures !Load(listing, modules).status.ListingFailed?
    ensures Load(listing, modules).status.ImportFailed? ==>
      var n := Load(listing, modules).status.moduleName;
      !Imports(n, modules) && exists f :: f in listing && IsPluginSource(f) && ModuleName(f) == n
    ensures Load(listing, modules).status.InstantiationFailed? ==>
      var n := Load(listing, modules).status.moduleName;
      Imports(n, modules)
      && (exists f :: f in listing && IsPluginSource(f) && ModuleName(f) == n)
      && exists s :: (s in modules[n] && Conforms(s) && !s.constructs
        && s.attr == Load(listing, modules).status.attr)
    decreases |listing|
  {
    if listing != [] {
      var f := listing[0];
      LoadFailureNamed(listing[1..], modules);
      assert forall g :: g in listing[1..] ==> g in listing;
      if IsPluginSource(f) && Imports(ModuleName(f), modules) {
        var syms := modules[ModuleName(f)];
        if ScanModule(ModuleName(f), syms).status != Done {
          ScanModuleFails(ModuleName(f), syms);
        }
      }
    }
  }
}
