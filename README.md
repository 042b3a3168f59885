# Class-discovery loader of the Flask skeleton, in Dafny

The skeleton finds its SQLAlchemy models and its Flask-Classful views by scanning its own source
tree. `get_modules` walks the `*.py` files below a subtree of the project package. It drops files
whose stem is `'__init__.'` and turns every other path into a dotted module name. `dynamic_loader`
imports each of those modules. From each module that declares `__all__` it collects the exported
objects that pass a predicate and have not been collected from an earlier module. `get_models`
and `get_views` run that loader with the predicates `is_model` and `is_view`. `load_models` binds
each discovered model class, under its `__name__`, into the loader module's namespace. The
project's abstract model base adds three naming rules:
- `__ignore__` marks abstract bases, and `is_model` uses it.
- `__tablename__` gives the table name.
- `__repr__` gives the printed form `<ClassName>.<pk>`.

The model is split into modules:
- `Wrappers`: `Option` and `Result`.
- `Text`: the few Python string and sequence operations the code uses: `tuple.index`, `str.rfind`,
  `str.join`, list comprehension with a filter, and ASCII `str.lower`.
- `Objects`: classes with an identity, a `__name__` and their ancestors, plus non-class objects.
- `ModelBase`: the rules of `skeleton/models/base.py`.
- `Loaders`: the operations of `skeleton/mylib/loaders.py`.
- `LoaderProperties`: what the loader guarantees.

The parts the code delegates to the outside are inputs:
- **The filesystem walk** (`rglob('*.py')` below `PROJ_DIR / module`) is a sequence of paths. Each
  path is the sequence of its `Path.parts`, in listing order.
- **`APP_MODULE`** is the parameter `app`.
- **`import_module`** is a table from module name to the module's optional `__all__` and its
  attributes. A name missing from the table is a module that cannot be imported.
- **`compare`** is a function value.

`get_modules`, `dynamic_loader` and `load_models` are methods with loops, proved against
specification functions (`ModuleNames`, `Discovered`, `Bind`). The loader's namespace is a class
whose `attrs` map `load_models` updates in place.

Where the code does something a reader might not expect, the model follows the code:
- **The `__init__` filter.** The filter compares a file's stem with `'__init__.'`, which has a
  trailing dot. The stem of `__init__.py` is `__init__`, without the dot, so a package's
  `__init__.py` is scanned too (`InitModuleIsScanned`). The only `*.py` name the filter drops is
  `__init__..py` (`SkipRule`).
- **The duplicate check.** The check `o not in items` sees `items` as it was before the current
  module's batch. An object that passes `compare` and was not collected from an earlier module is
  added once for every time the module lists it (`BatchCount`, `DuplicateWithinModuleKept`). An
  object found in an earlier module is never added again (`DuplicateAcrossModulesDropped`,
  `LoadFromNoRepeat`). Over the whole walk, such an object occurs as often as the first module
  that exports it lists it (`LoadFromCount`, `DiscoveredCount`).

## Model

| member | source | states |
|---|---|---|
| Loaders.Stem | skeleton/mylib/loaders.py:21 | `Path.stem`: a prefix of the file name; when it differs from the name, what was cut is a dot and a dot-free, non-empty suffix, and the stem is non-empty; for a name ending in `.py` (longer than the suffix) the stem is the name without `.py` |
| Loaders.Skipped | skeleton/mylib/loaders.py:21 | the filter drops a file only when its name starts with the literal `'__init__.'` |
| Loaders.Kept | skeleton/mylib/loaders.py:21 | `mods` is no longer than the walk |
| LoaderProperties.KeptMembers | skeleton/mylib/loaders.py:21 | `mods` holds exactly the listed files the filter does not drop |
| Text.IndexOf | skeleton/mylib/loaders.py:23 | `parts.index(APP_MODULE)` gives the first position of the package part, and fails exactly when no part is the package |
| Text.Join | skeleton/mylib/loaders.py:24 | `'.'.join` of a non-empty list of parts starts with the first part |
| Loaders.DropLast3 | skeleton/mylib/loaders.py:24 | `[0:-3]` removes exactly the last three characters, and gives the empty string for a shorter string |
| Loaders.ModuleName | skeleton/mylib/loaders.py:23-24 | a path gets a name exactly when the package directory is one of its parts; otherwise `.index` raises |
| Loaders.Yielded | skeleton/mylib/loaders.py:22-24 | the generator yields at most one name per kept file, and one for every kept file when no `.index` fails |
| Loaders.ModuleNames | skeleton/mylib/loaders.py:17-24 | `get_modules` yields at most one name per listed file, and one for every kept file when it does not stop |
| LoaderProperties.ModuleNamesStop | skeleton/mylib/loaders.py:21-23 | `get_modules` stops only at a listed file that the filter kept and that has no part named like the package |
| Text.WithoutMembers | skeleton/mylib/loaders.py:21 | the `mods` comprehension keeps exactly the listed files the filter does not reject |
| Text.WithoutAppend | skeleton/mylib/loaders.py:21 | the comprehension keeps listing order: filtering a concatenation concatenates the filtered parts |
| LoaderProperties.SkipRule | skeleton/mylib/loaders.py:21 | for a `.py` file, the stem equals `'__init__.'` exactly when the name is `__init__..py`; `__init__.py` has stem `__init__` |
| LoaderProperties.KeptFile | skeleton/mylib/loaders.py:21 | a file `<stem>.py` whose stem is not the literal `'__init__.'` is kept |
| LoaderProperties.InitModuleIsScanned | skeleton/mylib/loaders.py:21-24 | a real `__init__.py` below the package is scanned and named `<package>.<dir>.__init__` |
| LoaderProperties.ModuleNameShape | skeleton/mylib/loaders.py:23-24 | for a file below the first directory named like the package, the name is the dot-joined parts from that directory on, minus `.py`, and it starts with the package name and a dot |
| LoaderProperties.ModuleNameInSubtree | skeleton/mylib/loaders.py:23-24 | `<root>/<package>/<dir>/<stem>.py` is named `<package>.<dir>.<stem>` |
| LoaderProperties.YieldedSpec | skeleton/mylib/loaders.py:22-24 | the generator yields the names of the kept files in order; it stops at the first file without the package directory, and that file is the error |
| LoaderProperties.ScannedFile | skeleton/mylib/loaders.py:21-24 | a walk of one kept file below the package yields exactly its dotted name, with no error |
| Loaders.GetModules | skeleton/mylib/loaders.py:17-24 | the loop yields exactly the names and the stopping error of the specification `ModuleNames` |
| Loaders.Yield | skeleton/mylib/loaders.py:22-24 | the generator loop yields exactly `Yielded` of the kept files: their names in order, and the path where `.index` fails |
| Loaders.Resolve | skeleton/mylib/loaders.py:37 | `getattr` over `__all__` succeeds exactly when every listed name is an attribute, and then gives the attributes in `__all__` order; otherwise it raises for the first listed name the module lacks |
| Loaders.Exports | skeleton/mylib/loaders.py:36-37 | a module without `__all__` contributes nothing; with one, resolution succeeds exactly when every listed name is an attribute, and gives those attributes in `__all__` order; otherwise the error names the first listed attribute the module lacks |
| Loaders.Batch | skeleton/mylib/loaders.py:38 | a batch holds only objects of the module that pass `compare` and were not collected before, and holds every such object; see `BatchCount` and `BatchAppend` for order and copies |
| LoaderProperties.BatchAppend | skeleton/mylib/loaders.py:38 | the comprehension keeps `__all__` order: the batch of a concatenation is the concatenation of the batches |
| LoaderProperties.BatchCount | skeleton/mylib/loaders.py:38 | an object that passes `compare` and was not collected before occurs in the batch as often as in `__all__`; any other object does not occur |
| Loaders.LoadFrom | skeleton/mylib/loaders.py:33-39 | the loop keeps what was collected before as a prefix of its result |
| LoaderProperties.LoadFromCount | skeleton/mylib/loaders.py:33-39 | an object already collected keeps its count; another one that passes `compare` occurs as often as the first module exporting it lists it; any other object does not occur |
| Loaders.DynamicLoader | skeleton/mylib/loaders.py:26-39 | the loop returns exactly `Discovered`, and every object it returns passes `compare` |
| Loaders.Collect | skeleton/mylib/loaders.py:33-39 | the loop over the module names returns exactly `LoadFrom` from an empty `items` |
| Loaders.Discovered | skeleton/mylib/loaders.py:26-39 | a walk that meets a file outside the package makes the loader raise |
| LoaderProperties.DiscoveredErrorOrder | skeleton/mylib/loaders.py:22-39 | an import or `getattr` error in a yielded module is raised before the generator's `ValueError`, which is raised only when all yielded modules load; otherwise the loader returns the loop's result |
| LoaderProperties.DiscoveredCount | skeleton/mylib/loaders.py:26-39 | each object in the loader's result occurs as often as the first module exporting it lists it, and only objects that pass `compare` occur |
| Loaders.LoadFromExtends | skeleton/mylib/loaders.py:33-39 | the loop only appends: the earlier result is a prefix of the later one, and every appended object passes `compare` |
| Loaders.DiscoveredPass | skeleton/mylib/loaders.py:36-39 | every object the loader returns passes `compare` |
| LoaderProperties.LoadFromOk | skeleton/mylib/loaders.py:34-37 | the loop fails exactly when some module cannot be imported or lacks a name of its `__all__` |
| LoaderProperties.DiscoveredOk | skeleton/mylib/loaders.py:23-39 | the loader succeeds exactly when every kept file lies below the package directory and every module imports and resolves |
| LoaderProperties.BatchMember | skeleton/mylib/loaders.py:38 | an object is in a batch exactly when the module exports it, it passes `compare` and it was not collected before |
| LoaderProperties.LoadFromMembers | skeleton/mylib/loaders.py:33-39 | an object is in the result exactly when it was there before, or it passes `compare` and some module's `__all__` exports it |
| LoaderProperties.DiscoveredMembers | skeleton/mylib/loaders.py:26-39 | an object is in the loader's result exactly when it passes `compare` and some scanned module exports it |
| LoaderProperties.ModuleWithoutAllIgnored | skeleton/mylib/loaders.py:36 | a module without `__all__`, wherever it comes in the scan, leaves the result unchanged, whatever attributes it has |
| LoaderProperties.LoadFromNoRepeat | skeleton/mylib/loaders.py:38 | an object already collected keeps its number of occurrences, however many later modules export it |
| LoaderProperties.BatchNoDuplicates | skeleton/mylib/loaders.py:38 | a batch has no duplicates when the module's filtered export list has none, whatever was collected before |
| LoaderProperties.NoDuplicatesCons | skeleton/mylib/loaders.py:38 | a sequence with a new first element is free of duplicates exactly when the rest is and does not hold that element |
| LoaderProperties.NoDuplicatesAppend | skeleton/mylib/loaders.py:38 | two duplicate-free sequences that share no element concatenate to a duplicate-free one |
| LoaderProperties.LoadFromNoDuplicates | skeleton/mylib/loaders.py:33-39 | the result is duplicate-free when each module's filtered export list is |
| LoaderProperties.LoadFromOne | skeleton/mylib/loaders.py:34-38 | one importable module adds exactly its batch |
| LoaderProperties.DuplicateWithinModuleKept | skeleton/mylib/loaders.py:38 | a module listing the same object twice in `__all__` puts it in the result twice |
| LoaderProperties.DuplicateAcrossModulesDropped | skeleton/mylib/loaders.py:38 | an object exported by two modules appears once |
| LoaderProperties.ExportsOne | skeleton/mylib/loaders.py:36-37 | a module whose `__all__` lists one attribute it defines exports that attribute's object |
| LoaderProperties.BatchOne | skeleton/mylib/loaders.py:38 | an object that passes `compare`, met first, forms a batch of its own |
| LoaderProperties.DiscoveredOne | skeleton/mylib/loaders.py:26-39 | a walk of one kept file whose module imports cleanly gives that module's filtered exports |
| LoaderProperties.ExportedObjectFound | skeleton/mylib/loaders.py:17-39 | one file below the package that exports one object passing `compare` makes the loader return exactly that object |
| ModelBase.Ignore | skeleton/models/base.py:39-49 | `__ignore__` is true exactly for a class named `Model` |
| Loaders.IsModel | skeleton/mylib/loaders.py:45-47 | `is_model` holds exactly for classes other than `Model` that descend from the ORM's model class |
| Loaders.IsView | skeleton/mylib/loaders.py:58-62 | `is_view` holds exactly for classes other than `FlaskView` that descend from `FlaskView` |
| LoaderProperties.ModelBasesIgnored | skeleton/mylib/loaders.py:47 | the project's abstract `Model` base and the ORM's `Model` are no models; a concrete subclass is |
| LoaderProperties.ViewBaseIgnored | skeleton/mylib/loaders.py:62 | `FlaskView` itself is no view; a subclass of it is |
| Loaders.Models | skeleton/mylib/loaders.py:41-43 | every class `get_models` returns is a model by `is_model` |
| Loaders.GetModels | skeleton/mylib/loaders.py:41-47 | `get_models` returns what the loader returns with `is_model`; each class it returns is a class not named `Model` that derives from the ORM's `Model` |
| Loaders.GetViews | skeleton/mylib/loaders.py:54-62 | `get_views` returns what the loader returns with `is_view`; each class it returns is a strict subclass of `FlaskView` |
| Loaders.LoaderNamespace.LoadModels | skeleton/mylib/loaders.py:49-52 | a failing discovery raises before any attribute is set; otherwise the namespace becomes `Bind` of the old one with the discovered models, in order |
| Loaders.LoaderNamespace.SetAll | skeleton/mylib/loaders.py:51-52 | the `setattr` loop leaves the namespace equal to `Bind` of the old namespace and the models, in order |
| Loaders.Bind | skeleton/mylib/loaders.py:51-52 | binding keeps every earlier attribute name and gives every discovered model's `__name__` a class of that name |
| LoaderProperties.LastNamed | skeleton/mylib/loaders.py:51-52 | the position of the last discovered model with a given `__name__`, or none when no model has that name |
| LoaderProperties.BindLookup | skeleton/mylib/loaders.py:51-52 | after binding, a name some model has maps to the last model with that name; every other name keeps its old value and stays absent if it was absent |
| ModelBase.TableName | skeleton/models/base.py:65-74 | no table name for an inherited table; otherwise the class name lowered, which has the same length, has no upper-case letter, and differs only where the name had an upper-case letter |
| ModelBase.TableNameIdempotent | skeleton/models/base.py:72-74 | a class named by its own table name gets the same table name |
| ModelBase.TableNameOfLowerCaseName | skeleton/models/base.py:74 | a name without upper-case letters is its own table name |
| Text.Lower | skeleton/models/base.py:74 | ASCII `str.lower` keeps the length and lowers each character on its own |
| ModelBase.Repr | skeleton/models/base.py:51-63 | the printed form is the class name, a dot, then the primary key |
| ModelBase.ClassName | skeleton/models/base.py:34-37 | `class_name` is the `__name__` of the instance's class |
| ModelBase.ParseRepr | skeleton/models/base.py:63 | splitting at the first dot finds a dot-free head and a tail that glue back to the string; it fails only when the string has no dot |
| ModelBase.ReprRoundTrip | skeleton/models/base.py:35-63 | for a dot-free class name, the printed form gives back the class name and the key |
| ModelBase.ReprInjective | skeleton/models/base.py:63 | two instances of dot-free class names print alike only when their class names and keys agree |

## Left out

- The real filesystem walk (`Path.resolve`, `rglob`) and the import machinery (`import_module`,
  `hasattr`, `getattr` on a module) are inputs, as described above. No module is executed when
  imported, and an import has no side effects in the model.
- Lazy generators: `dynamic_loader` takes all of `get_modules`' names first. If the generator
  stops with a `ValueError`, the loader processes the names yielded before it and then raises
  that error. An import error in one of those modules still comes first (`DiscoveredErrorOrder`). This is the order the
  lazy generator gives when imports have no side effects.
- Loaders.GetViews: `is_view` is a strict subclass of `FlaskView`, as the code says. The commented-out
  `__ignore__` test on the same line is not modelled.
- Loaders.LoaderNamespace.LoadModels: the attributes are bound into the loader module's own
  globals. A model class named `modules`, `setattr`, `isclass`, `Model` or `FlaskView` would
  replace the name the loop, `is_model` or a later `get_views` reads. The model keeps the
  namespace apart from the predicates and the loop, so it does not capture that shadowing.
- ModelBase.Ignore: subclasses that override `__ignore__` are not modelled. Every class is judged by
  the base rule, which also stands in for the `AttributeError` that `is_model` would raise on an ORM
  model class outside this project's base.
- ModelBase.ClassName: `unicode(...)` is taken as the identity on the class name. The original
  `unicode` name does not exist on Python 3.
- ModelBase.TableName: `has_inherited_table` is decided by SQLAlchemy and is an input. `str.lower`
  is modelled on ASCII letters only. The `declared_attr` machinery is not modelled.
- ModelBase.Repr: the primary key is taken as its string form, which is what `format` prints.
- The query mixin (`skeleton/models/mixins/query.py`), the application factory, configuration,
  database initialisation, view registration and error handlers are not part of this model: each
  hands its work to Flask or SQLAlchemy.
- Columns (`id`, `created_at`) and `__abstract__` are ORM declarations, not logic.
