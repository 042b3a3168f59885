/** What the class-discovery loader guarantees, stated over its specification functions. */
module LoaderProperties {
  import opened Wrappers
  import opened Text
  import opened Objects
  import opened Loaders

  // ---------------------------------------------------------------------------------------------
  // Scanning: which files are kept and the names they get

  /**
   * For a file the walk returns (its name ends in `.py`), the filter drops it exactly when its
   * name is `__init__..py`; so a package's `__init__.py`, whose stem is `__init__`, is kept.
   */
  lemma SkipRule(name: string)
    requires |name| >= 3 && name[|name| - 3..] == ".py"
    ensures Stem(name) == InitStem <==> name == "__init__..py"
    ensures name == "__init__.py" ==> Stem(name) == "__init__"
  {
    var x := name[..|name| - 3];
    assert name == x + ".py";
    assert name[|x|] == '.';
    var r := LastIndexOf(name, '.');
    assert r.Some?;
    assert r.value == |x|;
  }

  /**
   * The name of a file `<stem>.py` below the first directory named `app` is the dotted path from
   * `app` on, with the `.py` extension removed; so it starts with `app` and a dot.
   */
  lemma ModuleNameShape(root: Path, app: string, dirs: seq<string>, stem: string)
    requires app !in root
    ensures ModuleName(root + [app] + dirs + [stem + ".py"], app) == Some(Join([app] + dirs + [stem], "."))
    ensures app + "." <= Join([app] + dirs + [stem], ".")
  {
    var p := root + [app] + dirs + [stem + ".py"];
    var idx := IndexOf(p, app).value;
    assert p[|root|] == app;
    assert idx == |root|;
    assert p[idx..] == ([app] + dirs) + [stem + ".py"];
    JoinSuffix([app] + dirs, stem, ".py", ".");
    assert ([app] + dirs) + [stem] == [app] + dirs + [stem];
    DropPy(Join([app] + dirs + [stem], "."));
    JoinPrefix([app] + dirs + [stem], ".");
  }

  /** Dropping the last three characters undoes appending `.py`. */
  lemma DropPy(s: string)
    ensures DropLast3(s + ".py") == s
  {
    assert (s + ".py")[..|s|] == s;
  }

  /**
   * The generator yields the name of each kept file in order, and stops at the first kept file
   * without the package segment, which is the error it raises; without such a file it names them all.
   */
  lemma {:induction false} YieldedSpec(mods: seq<Path>, app: string)
    ensures var (names, stop) := Yielded(mods, app);
      && (forall j :: 0 <= j < |names| ==> ModuleName(mods[j], app) == Some(names[j]))
      && (stop.None? ==> |names| == |mods|)
      && (stop.Some? ==> |names| < |mods| && stop.value == mods[|names|] && app !in stop.value)
  {
    if mods != [] && ModuleName(mods[0], app).Some? {
      YieldedSpec(mods[1..], app);
      var (names, stop) := Yielded(mods, app);
      var rest := Yielded(mods[1..], app);
      assert names == [ModuleName(mods[0], app).value] + rest.0;
      forall j | 0 <= j < |names| ensures ModuleName(mods[j], app) == Some(names[j]) {
        if j > 0 {
          assert mods[j] == mods[1..][j - 1];
          assert names[j] == rest.0[j - 1];
        }
      }
      if stop.Some? {
        assert mods[|names|] == mods[1..][|rest.0|];
      }
    }
  }

  /** `mods` holds exactly the listed files the filter does not drop. */
  lemma KeptMembers(listing: seq<Path>)
    ensures forall q :: q in Kept(listing) <==> q in listing && !Skipped(q)
  {
    WithoutMembers(listing, Skipped);
  }

  /** `get_modules` stops only at a listed file that the filter kept and that lies outside the package. */
  lemma ModuleNamesStop(listing: seq<Path>, app: string)
    ensures var stop := ModuleNames(listing, app).1;
      stop.Some? ==> stop.value in listing && !Skipped(stop.value) && app !in stop.value
  {
    var mods := Kept(listing);
    YieldedSpec(mods, app);
    KeptMembers(listing);
    var (names, stop) := Yielded(mods, app);
    if stop.Some? {
      assert stop.value in mods;
    }
  }

  /** A walk of one kept file yields that file's name. */
  lemma ModuleNamesOfOne(p: Path, app: string, name: string)
    requires !Skipped(p) && ModuleName(p, app) == Some(name)
    ensures ModuleNames([p], app) == ([name], None)
  {
    assert Kept([p]) == [p];
    assert [p][1..] == [];
    var y := Yielded([p], app);
    assert y.0 == [name] + Yielded([], app).0;
    assert y.0 == [name] && y.1 == None;
  }

  /** Three path parts joined with dots. */
  lemma JoinThree(a: string, b: string, c: string)
    ensures Join([a, b, c], ".") == a + "." + b + "." + c
  {
    assert [a, b, c][1..] == [b, c];
    assert [b, c][1..] == [c];
    assert Join([c], ".") == c;
    assert Join([b, c], ".") == b + "." + c;
  }

  /**
   * A file `<stem>.py` in a directory `dir` directly below the package directory, with no other
   * directory of the package's name above it, is named `<package>.<dir>.<stem>`.
   */
  lemma ModuleNameInSubtree(root: Path, app: string, dir: string, stem: string)
    requires app !in root
    ensures ModuleName(root + [app, dir, stem + ".py"], app) == Some(app + "." + dir + "." + stem)
  {
    var p := root + [app, dir, stem + ".py"];
    assert p == root + [app] + [dir] + [stem + ".py"];
    ModuleNameShape(root, app, [dir], stem);
    assert [app] + [dir] + [stem] == [app, dir, stem];
    JoinThree(app, dir, stem);
  }

  /** A file `<stem>.py` is kept unless its stem is the filter's literal. */
  lemma KeptFile(p: Path, stem: string)
    requires |p| > 0 && p[|p| - 1] == stem + ".py" && stem != InitStem
    ensures !Skipped(p)
  {
    SkipRule(stem + ".py");
    assert (stem + ".py")[..|stem|] == stem;
  }

  /** A walk of one file `<stem>.py` in a directory `dir` below the package yields `<package>.<dir>.<stem>`. */
  lemma ScannedFile(root: Path, app: string, dir: string, stem: string)
    requires app !in root && stem != InitStem
    ensures ModuleNames([root + [app, dir, stem + ".py"]], app) == ([app + "." + dir + "." + stem], None)
  {
    var p := root + [app, dir, stem + ".py"];
    KeptFile(p, stem);
    ModuleNameInSubtree(root, app, dir, stem);
    ModuleNamesOfOne(p, app, app + "." + dir + "." + stem);
  }

  /**
   * A real `__init__.py` in a directory `dir` below the package is scanned and named
   * `<package>.<dir>.__init__`: its stem is `__init__`, without the trailing dot of the filter's literal.
   */
  lemma InitModuleIsScanned(root: Path, app: string, dir: string)
    requires app !in root
    ensures ModuleNames([root + [app, dir, "__init__" + ".py"]], app) == ([app + "." + dir + "." + "__init__"], None)
  {
    ScannedFile(root, app, dir, "__init__");
  }

  // ---------------------------------------------------------------------------------------------
  // Loading: what is collected, in which order, and with which duplicates

  /** The objects a module contributes before filtering: none when it cannot be imported or resolved. */
  function Exported<T>(imports: map<string, PyModule<T>>, name: string): seq<T>
  {
    if name in imports && Exports(name, imports[name]).Ok? then Exports(name, imports[name]).value else []
  }

  predicate NoDuplicates<T(==)>(s: seq<T>)
  {
    forall i, j :: 0 <= i < j < |s| ==> s[i] != s[j]
  }

  /** The loop fails exactly when some module cannot be imported or lacks a name of its `__all__`. */
  lemma {:induction false} LoadFromOk<T>(names: seq<string>, imports: map<string, PyModule<T>>, compare: T -> bool, items: seq<T>)
    ensures LoadFrom(names, imports, compare, items).Ok? <==> Importable(names, imports)
    decreases |names|
  {
    if names != [] && names[0] in imports && Exports(names[0], imports[names[0]]).Ok? {
      var objs := Exports(names[0], imports[names[0]]).value;
      LoadFromOk(names[1..], imports, compare, items + Batch(objs, compare, items));
      assert forall k :: 0 < k < |names| ==> names[k] == names[1..][k - 1];
    }
  }

  /** Batch membership, element-wise. */
  lemma BatchMember<T>(objs: seq<T>, compare: T -> bool, items: seq<T>, o: T)
    ensures o in Batch(objs, compare, items) <==> o in objs && compare(o) && o !in items
  {
    if o in objs && compare(o) && o !in items {
      var i :| 0 <= i < |objs| && objs[i] == o;
    }
  }

  /**
   * An object is in the result exactly when it was there to begin with, or it passes `compare`
   * and some module exports it: modules without `__all__` add nothing, whatever they define.
   */
  lemma {:induction false} LoadFromMembers<T>(names: seq<string>, imports: map<string, PyModule<T>>, compare: T -> bool, items: seq<T>, o: T)
    requires LoadFrom(names, imports, compare, items).Ok?
    ensures o in LoadFrom(names, imports, compare, items).value <==>
      o in items || (compare(o) && exists k :: 0 <= k < |names| && o in Exported(imports, names[k]))
    decreases |names|
  {
    if names != [] {
      var objs := Exports(names[0], imports[names[0]]).value;
      assert objs == Exported(imports, names[0]);
      var next := items + Batch(objs, compare, items);
      LoadFromMembers(names[1..], imports, compare, next, o);
      BatchMember(objs, compare, items, o);
      if compare(o) && exists k :: 0 <= k < |names| && o in Exported(imports, names[k]) {
        var k :| 0 <= k < |names| && o in Exported(imports, names[k]);
        if k > 0 {
          assert names[k] == names[1..][k - 1];
        }
      }
      if exists k :: 0 <= k < |names[1..]| && o in Exported(imports, names[1..][k]) {
        var k :| 0 <= k < |names[1..]| && o in Exported(imports, names[1..][k]);
        assert names[1..][k] == names[k + 1];
      }
    }
  }

  /** A batch is the module's export list filtered by the comprehension's condition. */
  lemma {:induction false} BatchWithout<T>(objs: seq<T>, compare: T -> bool, items: seq<T>, drop: T -> bool)
    requires forall o :: drop(o) == !(compare(o) && o !in items)
    ensures Batch(objs, compare, items) == Without(objs, drop)
  {
    if objs != [] {
      BatchWithout(objs[1..], compare, items, drop);
    }
  }

  /** Filtering a concatenation filters both parts against the same earlier results: `__all__` order is kept. */
  lemma BatchAppend<T>(a: seq<T>, b: seq<T>, compare: T -> bool, items: seq<T>)
    ensures Batch(a + b, compare, items) == Batch(a, compare, items) + Batch(b, compare, items)
  {
    var drop := o => !(compare(o) && o !in items);
    BatchWithout(a + b, compare, items, drop);
    BatchWithout(a, compare, items, drop);
    BatchWithout(b, compare, items, drop);
    WithoutAppend(a, b, drop);
  }

  /** A batch keeps every copy of an object that passes `compare` and is new, and no copy of any other object. */
  lemma {:induction false} BatchCount<T>(objs: seq<T>, compare: T -> bool, items: seq<T>, o: T)
    ensures multiset(Batch(objs, compare, items))[o] == if compare(o) && o !in items then multiset(objs)[o] else 0
  {
    if objs != [] {
      BatchCount(objs[1..], compare, items, o);
      var head := if compare(objs[0]) && objs[0] !in items then [objs[0]] else [];
      var rest := Batch(objs[1..], compare, items);
      assert Batch(objs, compare, items) == head + rest;
      assert multiset(head + rest) == multiset(head) + multiset(rest);
      assert objs == [objs[0]] + objs[1..];
      assert multiset(objs) == multiset([objs[0]]) + multiset(objs[1..]);
    }
  }

  /** How often the first module of `names` that exports `o` lists it; 0 when no module does. */
  ghost function FirstCount<T>(imports: map<string, PyModule<T>>, names: seq<string>, o: T): nat
  {
    if names == [] then 0
    else if o in Exported(imports, names[0]) then multiset(Exported(imports, names[0]))[o]
    else FirstCount(imports, names[1..], o)
  }

  /**
   * The number of copies of an object in the result: what it had to begin with if it was there;
   * otherwise, when it passes `compare`, as many as the first module that exports it lists; else none.
   */
  lemma {:induction false} LoadFromCount<T>(names: seq<string>, imports: map<string, PyModule<T>>, compare: T -> bool, items: seq<T>, o: T)
    requires LoadFrom(names, imports, compare, items).Ok?
    ensures multiset(LoadFrom(names, imports, compare, items).value)[o] ==
      if o in items then multiset(items)[o] else if compare(o) then FirstCount(imports, names, o) else 0
    decreases |names|
  {
    if names != [] {
      var objs := Exports(names[0], imports[names[0]]).value;
      assert objs == Exported(imports, names[0]);
      var batch := Batch(objs, compare, items);
      BatchCount(objs, compare, items, o);
      assert multiset(items + batch) == multiset(items) + multiset(batch);
      LoadFromCount(names[1..], imports, compare, items + batch, o);
    }
  }

  /**
   * What the loader returns holds an object that passes `compare` exactly as often as the first
   * scanned module exporting it lists it in `__all__`, and no other object.
   */
  lemma DiscoveredCount<T>(listing: seq<Path>, app: string, imports: map<string, PyModule<T>>, compare: T -> bool, o: T)
    requires Discovered(listing, app, imports, compare).Ok?
    ensures multiset(Discovered(listing, app, imports, compare).value)[o] ==
      if compare(o) then FirstCount(imports, ModuleNames(listing, app).0, o) else 0
  {
    LoadFromCount(ModuleNames(listing, app).0, imports, compare, [], o);
  }

  /**
   * An object already collected is never appended again: its number of occurrences stays what it
   * was, however many later modules export it.
   */
  lemma {:induction false} LoadFromNoRepeat<T>(names: seq<string>, imports: map<string, PyModule<T>>, compare: T -> bool, items: seq<T>, o: T)
    requires LoadFrom(names, imports, compare, items).Ok?
    requires o in items
    ensures multiset(LoadFrom(names, imports, compare, items).value)[o] == multiset(items)[o]
    decreases |names|
  {
    if names != [] {
      var objs := Exports(names[0], imports[names[0]]).value;
      var batch := Batch(objs, compare, items);
      BatchMember(objs, compare, items, o);
      assert multiset(items + batch) == multiset(items) + multiset(batch);
      LoadFromNoRepeat(names[1..], imports, compare, items + batch, o);
    }
  }

  lemma {:induction false} BatchNoDuplicates<T>(objs: seq<T>, compare: T -> bool, items: seq<T>)
    requires NoDuplicates(Batch(objs, compare, []))
    ensures NoDuplicates(Batch(objs, compare, items))
  {
    if objs != [] {
      var x, tail := objs[0], objs[1..];
      var rest0, rest := Batch(tail, compare, []), Batch(tail, compare, items);
      if compare(x) {
        assert Batch(objs, compare, []) == [x] + rest0;
        NoDuplicatesCons(x, rest0);
        BatchNoDuplicates(tail, compare, items);
        if x !in items {
          assert Batch(objs, compare, items) == [x] + rest;
          forall i | 0 <= i < |rest| ensures rest[i] != x {
            var k :| 0 <= k < |tail| && tail[k] == rest[i];
            assert tail[k] in rest0;
          }
          NoDuplicatesCons(x, rest);
        } else {
          assert Batch(objs, compare, items) == [] + rest;
        }
      } else {
        assert Batch(objs, compare, []) == [] + rest0;
        assert [] + rest0 == rest0;
        BatchNoDuplicates(tail, compare, items);
        assert Batch(objs, compare, items) == [] + rest;
      }
    }
  }

  /** A sequence with a new first element is free of duplicates when both parts are and they do not meet. */
  lemma NoDuplicatesCons<T>(x: T, s: seq<T>)
    ensures NoDuplicates([x] + s) <==> x !in s && NoDuplicates(s)
  {
    var xs := [x] + s;
    if x !in s && NoDuplicates(s) {
      forall i, j | 0 <= i < j < |xs| ensures xs[i] != xs[j] {
        assert xs[j] == s[j - 1];
        if i > 0 {
          assert xs[i] == s[i - 1];
        }
      }
    }
    if NoDuplicates(xs) {
      forall i, j | 0 <= i < j < |s| ensures s[i] != s[j] {
        assert xs[i + 1] == s[i] && xs[j + 1] == s[j];
      }
      forall j | 0 <= j < |s| ensures s[j] != x {
        assert xs[0] == x && xs[j + 1] == s[j];
      }
    }
  }

  /** Two duplicate-free sequences that do not meet concatenate to a duplicate-free one. */
  lemma NoDuplicatesAppend<T>(a: seq<T>, b: seq<T>)
    requires NoDuplicates(a) && NoDuplicates(b)
    requires forall i :: 0 <= i < |b| ==> b[i] !in a
    ensures NoDuplicates(a + b)
  {
    forall i, j | 0 <= i < j < |a + b| ensures (a + b)[i] != (a + b)[j] {
      if i < |a| && j >= |a| {
        assert (a + b)[j] == b[j - |a|];
      }
    }
  }

  /**
   * The result is free of duplicates when the start is and when no module's filtered export list
   * repeats an object. The check against earlier results cannot do more (see the example below).
   */
  lemma {:induction false} LoadFromNoDuplicates<T>(names: seq<string>, imports: map<string, PyModule<T>>, compare: T -> bool, items: seq<T>)
    requires LoadFrom(names, imports, compare, items).Ok?
    requires NoDuplicates(items)
    requires forall k :: 0 <= k < |names| ==> NoDuplicates(Batch(Exported(imports, names[k]), compare, []))
    ensures NoDuplicates(LoadFrom(names, imports, compare, items).value)
    decreases |names|
  {
    if names != [] {
      var objs := Exports(names[0], imports[names[0]]).value;
      assert objs == Exported(imports, names[0]);
      var batch := Batch(objs, compare, items);
      BatchNoDuplicates(objs, compare, items);
      NoDuplicatesAppend(items, batch);
      assert forall k :: 0 <= k < |names[1..]| ==> names[1..][k] == names[k + 1];
      LoadFromNoDuplicates(names[1..], imports, compare, items + batch);
    }
  }

  /** A scan over one importable module adds that module's batch. */
  lemma LoadFromOne<T>(n: string, imports: map<string, PyModule<T>>, compare: T -> bool, items: seq<T>, objs: seq<T>)
    requires n in imports && Exports(n, imports[n]) == Ok(objs)
    ensures LoadFrom([n], imports, compare, items) == Ok(items + Batch(objs, compare, items))
  {
    assert [n][1..] == [];
  }

  /** A module that lists the same object twice in `__all__` puts it in the result twice. */
  lemma DuplicateWithinModuleKept()
    ensures LoadFrom(["pkg.m"], map["pkg.m" := PyModule(Some(["a", "b"]), map["a" := 7, "b" := 7])],
                     (o: int) => true, []) == Ok([7, 7])
  {
    var m := PyModule(Some(["a", "b"]), map["a" := 7, "b" := 7]);
    var r := Resolve("pkg.m", ["a", "b"], m.attrs);
    assert r.Ok? && |r.value| == 2 && r.value[0] == 7 && r.value[1] == 7;
    assert r.value == [7, 7];
    assert Exports("pkg.m", m) == Ok([7, 7]);
    LoadFromOne("pkg.m", map["pkg.m" := m], (o: int) => true, [], [7, 7]);
    var b := Batch([7, 7], (o: int) => true, []);
    assert [7, 7][1..] == [7] && [7][1..] == [];
    assert b == [7, 7];
    assert [] + b == [7, 7];
  }

  /** The same object exported by two modules is collected once. */
  lemma DuplicateAcrossModulesDropped()
    ensures LoadFrom(["pkg.m", "pkg.n"],
                     map["pkg.m" := PyModule(Some(["a"]), map["a" := 7]), "pkg.n" := PyModule(Some(["b"]), map["b" := 7])],
                     (o: int) => true, []) == Ok([7])
  {
    var imports := map["pkg.m" := PyModule(Some(["a"]), map["a" := 7]), "pkg.n" := PyModule(Some(["b"]), map["b" := 7])];
    var rm := Resolve("pkg.m", ["a"], map["a" := 7]);
    assert rm.Ok? && |rm.value| == 1 && rm.value[0] == 7;
    assert rm.value == [7];
    var rn := Resolve("pkg.n", ["b"], map["b" := 7]);
    assert rn.Ok? && |rn.value| == 1 && rn.value[0] == 7;
    assert rn.value == [7];
    assert Batch([7], (o: int) => true, []) == [7];
    assert Batch([7], (o: int) => true, [7]) == [];
    assert Exports("pkg.m", imports["pkg.m"]) == Ok([7]);
    assert Exports("pkg.n", imports["pkg.n"]) == Ok([7]);
    assert ["pkg.m", "pkg.n"][1..] == ["pkg.n"];
    assert [] + Batch([7], (o: int) => true, []) == [7];
    LoadFromOne("pkg.n", imports, (o: int) => true, [7], [7]);
    assert [7] + [] == [7];
  }

  /** Inserting a module without `__all__` anywhere in the scan changes nothing. */
  lemma {:induction false} ModuleWithoutAllIgnored<T>(pre: seq<string>, n: string, post: seq<string>,
                                                    imports: map<string, PyModule<T>>, compare: T -> bool, items: seq<T>)
    requires n in imports && imports[n].all.None?
    ensures LoadFrom(pre + [n] + post, imports, compare, items) == LoadFrom(pre + post, imports, compare, items)
    decreases |pre|
  {
    if pre == [] {
      assert pre + [n] + post == [n] + post;
      assert pre + post == post;
      assert ([n] + post)[1..] == post;
      assert items + Batch([], compare, items) == items;
    } else {
      assert (pre + [n] + post)[0] == (pre + post)[0] == pre[0];
      assert (pre + [n] + post)[1..] == pre[1..] + [n] + post;
      assert (pre + post)[1..] == pre[1..] + post;
      if pre[0] in imports && Exports(pre[0], imports[pre[0]]).Ok? {
        var objs := Exports(pre[0], imports[pre[0]]).value;
        ModuleWithoutAllIgnored(pre[1..], n, post, imports, compare, items + Batch(objs, compare, items));
      }
    }
  }

  /** Every file lies below a directory named `app`. */
  predicate BelowPackage(mods: seq<Path>, app: string)
  {
    forall i :: 0 <= i < |mods| ==> app in mods[i]
  }

  /** Every module can be imported and defines every name of its `__all__`. */
  predicate Importable<T>(names: seq<string>, imports: map<string, PyModule<T>>)
  {
    forall k :: 0 <= k < |names| ==> names[k] in imports && Exports(names[k], imports[names[k]]).Ok?
  }

  /**
   * Which error the loader raises: an import or `getattr` error in a module yielded before the
   * generator stops comes first; the generator's `ValueError` is raised only when those modules load.
   */
  lemma DiscoveredErrorOrder<T>(listing: seq<Path>, app: string, imports: map<string, PyModule<T>>, compare: T -> bool)
    ensures var (names, stop) := ModuleNames(listing, app);
      var loaded := LoadFrom(names, imports, compare, []);
      && (loaded.Err? ==> Discovered(listing, app, imports, compare) == Err(loaded.error))
      && (loaded.Ok? && stop.Some? ==> Discovered(listing, app, imports, compare) == Err(PackageNotInPath(stop.value)))
      && (loaded.Ok? && stop.None? ==> Discovered(listing, app, imports, compare) == loaded)
  {
  }

  /**
   * The loader succeeds exactly when every kept file lies below the package directory and every
   * module it names can be imported and resolves all of its `__all__`.
   */
  lemma DiscoveredOk<T>(listing: seq<Path>, app: string, imports: map<string, PyModule<T>>, compare: T -> bool)
    ensures Discovered(listing, app, imports, compare).Ok? <==>
      BelowPackage(Kept(listing), app) && Importable(ModuleNames(listing, app).0, imports)
  {
    var mods := Kept(listing);
    var (names, stop) := ModuleNames(listing, app);
    YieldedSpec(mods, app);
    LoadFromOk(names, imports, compare, []);
    if stop.None? {
      forall i | 0 <= i < |mods| ensures app in mods[i] {
        assert ModuleName(mods[i], app).Some?;
      }
    } else {
      assert app !in mods[|names|];
    }
  }

  /**
   * A successful scan returns exactly the objects that pass `compare` and that some scanned module
   * exports, each module's in `__all__` order after those of the modules before it.
   */
  lemma DiscoveredMembers<T>(listing: seq<Path>, app: string, imports: map<string, PyModule<T>>, compare: T -> bool, o: T)
    requires Discovered(listing, app, imports, compare).Ok?
    ensures var names := ModuleNames(listing, app).0;
      o in Discovered(listing, app, imports, compare).value <==>
        compare(o) && exists k :: 0 <= k < |names| && o in Exported(imports, names[k])
  {
    var names := ModuleNames(listing, app).0;
    LoadFromMembers(names, imports, compare, [], o);
  }

  // ---------------------------------------------------------------------------------------------
  // The two finders on a small project

  const ProjectModel: Obj := Class(2, "Model", {0})
  const User: Obj := Class(10, "User", {0, 2})
  const HomepageView: Obj := Class(20, "HomepageView", {1})

  /** A module whose `__all__` names one attribute it defines exports that attribute's object. */
  lemma ExportsOne<T>(name: string, attr: string, attrs: map<string, T>)
    requires attr in attrs
    ensures Exports(name, PyModule(Some([attr]), attrs)) == Ok([attrs[attr]])
  {
    var r := Resolve(name, [attr], attrs);
    assert r.Ok? && |r.value| == 1 && r.value[0] == attrs[attr];
    assert r.value == [attrs[attr]];
  }

  /** One object that passes the predicate makes a batch of its own. */
  lemma BatchOne<T>(o: T, compare: T -> bool)
    requires compare(o)
    ensures Batch([o], compare, []) == [o]
  {
    assert [o][1..] == [];
  }

  /** A walk of one kept file whose module imports cleanly yields that module's filtered exports. */
  lemma DiscoveredOne<T>(p: Path, app: string, name: string, imports: map<string, PyModule<T>>, compare: T -> bool, objs: seq<T>)
    requires !Skipped(p) && ModuleName(p, app) == Some(name)
    requires name in imports && Exports(name, imports[name]) == Ok(objs)
    ensures Discovered([p], app, imports, compare) == Ok(Batch(objs, compare, []))
  {
    ModuleNamesOfOne(p, app, name);
    LoadFromOne(name, imports, compare, [], objs);
    assert [] + Batch(objs, compare, []) == Batch(objs, compare, []);
  }

  /**
   * A walk of one file `<stem>.py` in a directory `dir` below the package, whose module lists one
   * attribute in `__all__` and binds it to an object that passes the predicate, finds that object.
   */
  lemma ExportedObjectFound<T>(root: Path, app: string, dir: string, stem: string, attr: string, attrs: map<string, T>,
    compare: T -> bool)
    requires app !in root && stem != InitStem
    requires attr in attrs && compare(attrs[attr])
    ensures Discovered([root + [app, dir, stem + ".py"]], app,
      map[app + "." + dir + "." + stem := PyModule(Some([attr]), attrs)], compare) == Ok([attrs[attr]])
  {
    var p := root + [app, dir, stem + ".py"];
    var name := app + "." + dir + "." + stem;
    ScannedFile(root, app, dir, stem);
    ExportsOne(name, attr, attrs);
    BatchOne(attrs[attr], compare);
    LoadFromOne(name, map[name := PyModule(Some([attr]), attrs)], compare, [], [attrs[attr]]);
    assert [] + [attrs[attr]] == [attrs[attr]];
  }

  /** A project's own abstract `Model` base and the library's `Model` are no models; `User` is. */
  lemma ModelBasesIgnored()
    ensures !IsModel(ProjectModel) && !IsModel(SqlAlchemyModel)
    ensures IsModel(User)
  {
  }

  /** `FlaskView` itself is no view; `HomepageView`, a subclass of it, is. */
  lemma ViewBaseIgnored()
    ensures !IsView(FlaskView) && IsView(HomepageView)
  {
  }

  // ---------------------------------------------------------------------------------------------
  // Registration

  /** The position of the last model named `key`, if any. */
  function LastNamed(models: seq<Obj>, key: string): (r: Option<nat>)
    requires forall i :: 0 <= i < |models| ==> models[i].Class?
    ensures r.None? <==> forall j :: 0 <= j < |models| ==> models[j].name != key
    ensures r.Some? ==>
      && r.value < |models| && models[r.value].name == key
      && forall j :: r.value < j < |models| ==> models[j].name != key
  {
    if models == [] then None
    else if models[|models| - 1].name == key then Some(|models| - 1)
    else LastNamed(models[..|models| - 1], key)
  }

  /**
   * After `load_models`, a name that some discovered model has is bound to the last discovered
   * model of that name; every other name keeps what it had, and stays absent if it was.
   */
  lemma {:induction false} BindLookup(ns: map<string, Obj>, models: seq<Obj>, key: string)
    requires forall i :: 0 <= i < |models| ==> models[i].Class?
    ensures match LastNamed(models, key)
      case Some(j) => key in Bind(ns, models) && Bind(ns, models)[key] == models[j]
      case None => (key in Bind(ns, models) <==> key in ns) && (key in ns ==> Bind(ns, models)[key] == ns[key])
    decreases |models|
  {
    if models != [] {
      BindLookup(ns, models[..|models| - 1], key);
    }
  }
}
