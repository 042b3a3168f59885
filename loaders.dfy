/**
 * The class-discovery loader: turns the `*.py` files under a subtree of the project package into
 * module names, collects the objects those modules export through `__all__` that pass a
 * predicate, and binds the discovered model classes into the loader's own namespace.
 *
 * The filesystem walk, the import machinery and the class hierarchy are inputs:
 * - a walk (`rglob('*.py')` below the subtree) is the list of the files' path parts, in listing order;
 * - `import_module` is a table from module name to the module's `__all__` (if it has one) and its
 *   attributes; a name missing from the table is a module that cannot be imported;
 * - `APP_MODULE` (the name of the project directory) is the parameter `app`.
 */
module Loaders {
  import opened Wrappers
  import opened Text
  import opened Objects
  import ModelBase

  /** The parts of a file path, as `pathlib.Path.parts` gives them. */
  type Path = seq<string>

  /** What an imported module offers the loader. */
  datatype PyModule<T> = PyModule(all: Option<seq<string>>, attrs: map<string, T>)

  /** The exceptions that escape the loader. */
  datatype LoadError =
    | PackageNotInPath(path: Path)            // ValueError from `parts.index(APP_MODULE)`
    | ModuleNotFound(name: string)            // `import_module` cannot find the module
    | MissingExport(moduleName: string, attr: string)  // `getattr` on a name of `__all__` the module lacks

  // ---------------------------------------------------------------------------------------------
  // get_modules

  /** The stem literal the filter compares with: note the trailing dot. */
  const InitStem := "__init__."

  /** The last path part, `Path.name`. */
  function FileName(p: Path): string
  {
    if p == [] then "" else p[|p| - 1]
  }

  /** `Path.stem`: the name without its last suffix; a leading or trailing dot is no suffix. */
  function Stem(name: string): (r: string)
    ensures r <= name
    ensures r != name ==> 0 < |r| < |name| - 1 && name[|r|] == '.' && forall j :: |r| < j < |name| ==> name[j] != '.'
    ensures |name| > 3 && name[|name| - 3..] == ".py" ==> r == name[..|name| - 3]
  {
    assert |name| > 3 && name[|name| - 3..] == ".py" ==>
      name[|name| - 3] == '.' && name[|name| - 2] != '.' && name[|name| - 1] != '.';
    match LastIndexOf(name, '.')
    case None => name
    case Some(i) => if 0 < i < |name| - 1 then name[..i] else name
  }

  /** The filter of `get_modules`: a file is dropped when its stem is the literal `'__init__.'`. */
  predicate Skipped(p: Path)
    ensures Skipped(p) ==> p != [] && InitStem <= p[|p| - 1]
  {
    Stem(FileName(p)) == InitStem
  }

  /** The `mods` list: the walk without the skipped files, in listing order. */
  function Kept(listing: seq<Path>): (r: seq<Path>)
    ensures |r| <= |listing|
  {
    Without(listing, Skipped)
  }

  /** Python's `s[0:-3]`: the string without its last three characters, empty when shorter. */
  function DropLast3(s: string): (r: string)
    ensures |s| >= 3 ==> s == r + s[|s| - 3..]
    ensures |s| < 3 ==> r == ""
  {
    if |s| >= 3 then s[..|s| - 3] else ""
  }

  /**
   * The name `get_modules` yields for one file: the parts from the first one equal to `app`,
   * joined by dots, without the last three characters; None where `.index` raises.
   */
  function ModuleName(p: Path, app: string): (r: Option<string>)
    ensures r.None? <==> app !in p
  {
    match IndexOf(p, app)
    case None => None
    case Some(idx) => Some(DropLast3(Join(p[idx..], ".")))
  }

  /**
   * The generator of `get_modules` run over `mods`: the names it yields, and the path whose
   * `.index` raised, if one did (the generator stops there).
   */
  function Yielded(mods: seq<Path>, app: string): (r: (seq<string>, Option<Path>))
    ensures |r.0| <= |mods|
    ensures r.1.None? ==> |r.0| == |mods|
  {
    if mods == [] then ([], None)
    else match ModuleName(mods[0], app)
      case None => ([], Some(mods[0]))
      case Some(n) =>
        var rest := Yielded(mods[1..], app);
        ([n] + rest.0, rest.1)
  }

  /** What `get_modules` yields for a walk. */
  function ModuleNames(listing: seq<Path>, app: string): (r: (seq<string>, Option<Path>))
    ensures |r.0| <= |listing|
    ensures r.1.None? ==> |r.0| == |Kept(listing)|
  {
    Yielded(Kept(listing), app)
  }

  /** One step of the generator: the file at `i` either stops it or adds its name in front of the rest. */
  lemma YieldedStep(mods: seq<Path>, i: nat, app: string)
    requires i < |mods|
    ensures ModuleName(mods[i], app).None? ==> Yielded(mods[i..], app) == ([], Some(mods[i]))
    ensures ModuleName(mods[i], app).Some? ==>
      Yielded(mods[i..], app) == ([ModuleName(mods[i], app).value] + Yielded(mods[i + 1..], app).0, Yielded(mods[i + 1..], app).1)
  {
    assert mods[i..][0] == mods[i];
    assert mods[i..][1..] == mods[i + 1..];
  }

  /** `get_modules`: the filter first, then one name per kept file until `.index` fails. */
  method GetModules(listing: seq<Path>, app: string) returns (names: seq<string>, stop: Option<Path>)
    ensures (names, stop) == ModuleNames(listing, app)
  {
    names, stop := Yield(Kept(listing), app);
  }

  /** The generator loop of `get_modules` over `mods`: one name per file until `.index` fails. */
  method Yield(mods: seq<Path>, app: string) returns (names: seq<string>, stop: Option<Path>)
    ensures (names, stop) == Yielded(mods, app)
  {
    names, stop := [], None;
    var i := 0;
    assert mods[i..] == mods;
    while i < |mods|
      invariant 0 <= i <= |mods|
      invariant Yielded(mods, app).0 == names + Yielded(mods[i..], app).0
      invariant Yielded(mods, app).1 == Yielded(mods[i..], app).1
      invariant stop == None
    {
      var p := mods[i];
      var name := ModuleName(p, app);
      YieldedStep(mods, i, app);
      if name.None? {
        assert names + [] == names;
        stop := Some(p);
        return;
      }
      names := names + [name.value];
      i := i + 1;
    }
    assert mods[i..] == [];
    assert names + [] == names;
  }

  // ---------------------------------------------------------------------------------------------
  // dynamic_loader

  /** `[getattr(module, obj) for obj in module.__all__]`: fails at the first name the module lacks. */
  function Resolve<T>(moduleName: string, names: seq<string>, attrs: map<string, T>): (r: Result<seq<T>, LoadError>)
    ensures r.Ok? <==> forall i :: 0 <= i < |names| ==> names[i] in attrs
    ensures r.Ok? ==> |r.value| == |names| && forall i :: 0 <= i < |names| ==> r.value[i] == attrs[names[i]]
    ensures r.Err? ==>
      (r.error.MissingExport? && r.error.moduleName == moduleName && r.error.attr in names && r.error.attr !in attrs)
    ensures r.Err? ==> exists k :: 0 <= k < |names| && names[k] == r.error.attr && forall j :: 0 <= j < k ==> names[j] in attrs
  {
    if names == [] then Ok([])
    else if names[0] !in attrs then Err(MissingExport(moduleName, names[0]))
    else match Resolve(moduleName, names[1..], attrs)
      case Err(e) =>
        assert forall i :: 0 < i < |names| ==> names[i] == names[1..][i - 1];
        var k :| 0 <= k < |names[1..]| && names[1..][k] == e.attr && forall j :: 0 <= j < k ==> names[1..][j] in attrs;
        assert names[k + 1] == e.attr;
        Err(e)
      case Ok(objs) =>
        assert forall i :: 0 < i < |names| ==> names[i] == names[1..][i - 1];
        Ok([attrs[names[0]]] + objs)
  }

  /** The objects a module exports; a module without `__all__` exports nothing. */
  function Exports<T>(name: string, m: PyModule<T>): (r: Result<seq<T>, LoadError>)
    ensures m.all.None? ==> r == Ok([])
    ensures m.all.Some? && r.Ok? ==>
      && |r.value| == |m.all.value|
      && forall i :: 0 <= i < |r.value| ==> m.all.value[i] in m.attrs && r.value[i] == m.attrs[m.all.value[i]]
    ensures r.Err? ==> m.all.Some? && r.error.MissingExport? && r.error.moduleName == name && r.error.attr !in m.attrs
    ensures m.all.Some? ==> (r.Ok? <==> forall a :: a in m.all.value ==> a in m.attrs)
    ensures r.Err? ==> exists k :: 0 <= k < |m.all.value| && m.all.value[k] == r.error.attr && forall j :: 0 <= j < k ==> m.all.value[j] in m.attrs
  {
    match m.all
    case None => Ok([])
    case Some(names) => Resolve(name, names, m.attrs)
  }

  /** `[o for o in objs if compare(o) and o not in items]`, with `items` as it was before the batch. */
  function Batch<T(==)>(objs: seq<T>, compare: T -> bool, items: seq<T>): (r: seq<T>)
    ensures |r| <= |objs|
    ensures forall i :: 0 <= i < |r| ==> r[i] in objs && compare(r[i]) && r[i] !in items
    ensures forall i :: 0 <= i < |objs| && compare(objs[i]) && objs[i] !in items ==> objs[i] in r
  {
    if objs == [] then []
    else (if compare(objs[0]) && objs[0] !in items then [objs[0]] else []) + Batch(objs[1..], compare, items)
  }

  /** The loop of `dynamic_loader` over the module names `names`, starting from `items`. */
  function LoadFrom<T(==)>(names: seq<string>, imports: map<string, PyModule<T>>, compare: T -> bool, items: seq<T>)
    : (r: Result<seq<T>, LoadError>)
    ensures r.Ok? ==> items <= r.value
    decreases |names|
  {
    if names == [] then Ok(items)
    else if names[0] !in imports then Err(ModuleNotFound(names[0]))
    else match Exports(names[0], imports[names[0]])
      case Err(e) => Err(e)
      case Ok(objs) => LoadFrom(names[1..], imports, compare, items + Batch(objs, compare, items))
  }

  /** One turn of the loop: the first module's exports are filtered and appended. */
  lemma LoadFromStep<T>(names: seq<string>, imports: map<string, PyModule<T>>, compare: T -> bool, items: seq<T>)
    requires names != [] && names[0] in imports
    ensures Exports(names[0], imports[names[0]]).Err? ==>
      LoadFrom(names, imports, compare, items) == Err(Exports(names[0], imports[names[0]]).error)
    ensures Exports(names[0], imports[names[0]]).Ok? ==>
      var objs := Exports(names[0], imports[names[0]]).value;
      LoadFrom(names, imports, compare, items) == LoadFrom(names[1..], imports, compare, items + Batch(objs, compare, items))
  {
  }

  /** What `dynamic_loader` returns (or raises) for a walk. */
  function Discovered<T(==)>(listing: seq<Path>, app: string, imports: map<string, PyModule<T>>, compare: T -> bool)
    : (r: Result<seq<T>, LoadError>)
    ensures ModuleNames(listing, app).1.Some? ==> r.Err?
  {
    var (names, stop) := ModuleNames(listing, app);
    match LoadFrom(names, imports, compare, [])
    case Err(e) => Err(e)
    case Ok(items) => if stop.Some? then Err(PackageNotInPath(stop.value)) else Ok(items)
  }

  /**
   * `dynamic_loader`. The names are taken from `GetModules` first; the generator's own error comes
   * after every name it yielded, so it is raised after the loop, as the lazy generator does.
   */
  method DynamicLoader<T(==)>(listing: seq<Path>, app: string, imports: map<string, PyModule<T>>, compare: T -> bool)
    returns (r: Result<seq<T>, LoadError>)
    ensures r == Discovered(listing, app, imports, compare)
    ensures r.Ok? ==> forall o :: o in r.value ==> compare(o)
  {
    var names, stop := GetModules(listing, app);
    r := Collect(names, imports, compare);
    if r.Ok? && stop.Some? {
      return Err(PackageNotInPath(stop.value));
    }
    DiscoveredPass(listing, app, imports, compare);
  }

  /** The loop of `dynamic_loader` over the yielded module names. */
  method Collect<T(==)>(names: seq<string>, imports: map<string, PyModule<T>>, compare: T -> bool)
    returns (r: Result<seq<T>, LoadError>)
    ensures r == LoadFrom(names, imports, compare, [])
  {
    var items: seq<T> := [];
    var i := 0;
    while i < |names|
      invariant 0 <= i <= |names|
      invariant LoadFrom(names, imports, compare, []) == LoadFrom(names[i..], imports, compare, items)
    {
      var mod := names[i];
      if mod !in imports {
        return Err(ModuleNotFound(mod));
      }
      var m := imports[mod];
      LoadFromStep(names[i..], imports, compare, items);
      if m.all.Some? {
        var objs := Resolve(mod, m.all.value, m.attrs);
        if objs.Err? {
          return Err(objs.error);
        }
        items := items + Batch(objs.value, compare, items);
      } else {
        assert items + Batch([], compare, items) == items;
      }
      assert names[i..][1..] == names[i + 1..];
      i := i + 1;
    }
    return Ok(items);
  }

  // ---------------------------------------------------------------------------------------------
  // The two predicates and the two finders

  /** `flask_sqlalchemy.Model`, the class `is_model` tests against. */
  const SqlAlchemyModel: Obj := Class(0, "Model", {})

  /** `flask_classful.FlaskView`. */
  const FlaskView: Obj := Class(1, "FlaskView", {})

  /** `is_model`: a class, a subclass of the ORM's model class, and not ignored by `__ignore__`. */
  predicate IsModel(item: Obj)
    ensures IsModel(item) <==> item.Class? && item.name != "Model" && SqlAlchemyModel.id in item.ancestors
  {
    item.Class? && IsSubclass(item, SqlAlchemyModel) && !ModelBase.Ignore(item)
  }

  /** `is_view`: not `FlaskView` itself, a class, and a subclass of `FlaskView`. */
  predicate IsView(item: Obj)
    ensures IsView(item) <==> item.Class? && item != FlaskView && FlaskView.id in item.ancestors
  {
    item != FlaskView && item.Class? && IsSubclass(item, FlaskView)
  }

  /** What `get_models` returns for a walk of the `models` subtree: only eligible model classes. */
  function Models(listing: seq<Path>, app: string, imports: map<string, PyModule<Obj>>): (r: Result<seq<Obj>, LoadError>)
    ensures r.Ok? ==> forall i :: 0 <= i < |r.value| ==> IsModel(r.value[i])
  {
    DiscoveredPass(listing, app, imports, IsModel);
    Discovered(listing, app, imports, IsModel)
  }

  /** `get_models`. */
  method GetModels(listing: seq<Path>, app: string, imports: map<string, PyModule<Obj>>) returns (r: Result<seq<Obj>, LoadError>)
    ensures r == Models(listing, app, imports)
    ensures r.Ok? ==> forall o :: o in r.value ==>
      o.Class? && o.name != "Model" && SqlAlchemyModel.id in o.ancestors
  {
    r := DynamicLoader(listing, app, imports, IsModel);
  }

  /** `get_views`. */
  method GetViews(listing: seq<Path>, app: string, imports: map<string, PyModule<Obj>>) returns (r: Result<seq<Obj>, LoadError>)
    ensures r == Discovered(listing, app, imports, IsView)
    ensures r.Ok? ==> forall o :: o in r.value ==> o.Class? && o != FlaskView && FlaskView.id in o.ancestors
  {
    r := DynamicLoader(listing, app, imports, IsView);
  }

  // ---------------------------------------------------------------------------------------------
  // load_models

  /** The namespace after `setattr(ns, m.__name__, m)` for each class of `models` in turn. */
  function Bind(ns: map<string, Obj>, models: seq<Obj>): (r: map<string, Obj>)
    requires forall i :: 0 <= i < |models| ==> models[i].Class?
    ensures forall k :: k in ns ==> k in r
    ensures forall i :: 0 <= i < |models| ==> models[i].name in r && r[models[i].name].Class? && r[models[i].name].name == models[i].name
    decreases |models|
  {
    if models == [] then ns
    else
      var last := models[|models| - 1];
      Bind(ns, models[..|models| - 1])[last.name := last]
  }

  /** Binding one more class sets one more attribute. */
  lemma BindStep(ns: map<string, Obj>, models: seq<Obj>)
    requires models != [] && forall i :: 0 <= i < |models| ==> models[i].Class?
    ensures Bind(ns, models) == Bind(ns, models[..|models| - 1])[models[|models| - 1].name := models[|models| - 1]]
  {
  }

  /** The attributes of the loader module, which `load_models` extends with the discovered models. */
  class LoaderNamespace {
    var attrs: map<string, Obj>

    constructor (attrs: map<string, Obj>)
      ensures this.attrs == attrs
    {
      this.attrs := attrs;
    }

    /** `load_models`: a failing discovery raises before any attribute is set. */
    method LoadModels(listing: seq<Path>, app: string, imports: map<string, PyModule<Obj>>) returns (err: Option<LoadError>)
      modifies this
      ensures var found := Models(listing, app, imports);
        && (found.Err? ==> err == Some(found.error) && attrs == old(attrs))
        && (found.Ok? ==> err == None && attrs == Bind(old(attrs), found.value))
    {
      var found := GetModels(listing, app, imports);
      if found.Err? {
        return Some(found.error);
      }
      SetAll(found.value);
      return None;
    }

    /** The loop of `load_models`: `setattr` for each discovered class, in order. */
    method SetAll(models: seq<Obj>)
      requires forall i :: 0 <= i < |models| ==> models[i].Class?
      modifies this
      ensures attrs == Bind(old(attrs), models)
    {
      var i := 0;
      while i < |models|
        invariant 0 <= i <= |models|
        invariant attrs == Bind(old(attrs), models[..i])
      {
        BindStep(old(attrs), models[..i + 1]);
        assert models[..i + 1][..i] == models[..i];
        attrs := attrs[models[i].name := models[i]];
        i := i + 1;
      }
      assert models[..|models|] == models;
    }
  }

  // ---------------------------------------------------------------------------------------------
  // Properties

  /** Everything the loader returns passed `compare`. */
  lemma DiscoveredPass<T>(listing: seq<Path>, app: string, imports: map<string, PyModule<T>>, compare: T -> bool)
    ensures var r := Discovered(listing, app, imports, compare);
      r.Ok? ==> forall i :: 0 <= i < |r.value| ==> compare(r.value[i])
  {
    var names := ModuleNames(listing, app).0;
    var r := LoadFrom(names, imports, compare, []);
    if r.Ok? {
      LoadFromExtends(names, imports, compare, []);
    }
  }

  /** The loop only appends, and only objects that pass `compare`. */
  lemma {:induction false} LoadFromExtends<T>(names: seq<string>, imports: map<string, PyModule<T>>, compare: T -> bool, items: seq<T>)
    ensures var r := LoadFrom(names, imports, compare, items);
      r.Ok? ==> items <= r.value && forall j :: |items| <= j < |r.value| ==> compare(r.value[j])
    decreases |names|
  {
    if names != [] && names[0] in imports && Exports(names[0], imports[names[0]]).Ok? {
      var objs := Exports(names[0], imports[names[0]]).value;
      var next := items + Batch(objs, compare, items);
      LoadFromExtends(names[1..], imports, compare, next);
      var r := LoadFrom(names, imports, compare, items);
      if r.Ok? {
        forall j | |items| <= j < |r.value| ensures compare(r.value[j]) {
          if j < |next| {
            assert r.value[j] == next[j];
            assert next[j] in Batch(objs, compare, items);
          }
        }
      }
    }
  }
}
