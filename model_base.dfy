/**
 * The naming rules of the project's abstract model base class: which classes the model loader
 * ignores, which table a model maps to, and how an instance prints.
 */
module ModelBase {
  import opened Wrappers
  import opened Text
  import opened Objects

  /** The class names `__ignore__` treats as abstract bases (a one-element tuple in the base class). */
  const IgnoredClassNames: seq<string> := ["Model"]

  /** `Model.__ignore__()`, a classmethod: is `cls` an abstract base the model loader must skip? */
  function Ignore(cls: Obj): (r: bool)
    requires cls.Class?
    ensures r <==> cls.name == "Model"
  {
    cls.name in IgnoredClassNames
  }

  /**
   * `Model.__tablename__`: no table name of its own for a class with an inherited table, otherwise
   * the class name in lower case. Whether the table is inherited is decided by the ORM and is an input.
   */
  function TableName(cls: Obj, hasInheritedTable: bool): (r: Option<string>)
    requires cls.Class?
    ensures r.None? <==> hasInheritedTable
    ensures r.Some? ==> |r.value| == |cls.name|
    ensures r.Some? ==> forall i :: 0 <= i < |r.value| ==> !IsUpperAscii(r.value[i])
    ensures r.Some? ==> forall i :: 0 <= i < |r.value| ==>
      if IsUpperAscii(cls.name[i]) then r.value[i] as int == cls.name[i] as int + 32
      else r.value[i] == cls.name[i]
  {
    if hasInheritedTable then None else Some(Lower(cls.name))
  }

  /** A class named by its own table name gets the same table name back. */
  lemma TableNameIdempotent(cls: Obj)
    requires cls.Class?
    ensures var t := TableName(cls, false).value;
      TableName(Class(cls.id, t, cls.ancestors), false) == Some(t)
  {
    var t := TableName(cls, false).value;
    var u := TableName(Class(cls.id, t, cls.ancestors), false).value;
    assert |u| == |t|;
    assert forall i :: 0 <= i < |t| ==> u[i] == t[i];
    assert u == t;
  }

  /** A class whose name has no upper-case letter is stored under exactly its name. */
  lemma TableNameOfLowerCaseName(cls: Obj)
    requires cls.Class?
    requires forall i :: 0 <= i < |cls.name| ==> !IsUpperAscii(cls.name[i])
    ensures TableName(cls, false) == Some(cls.name)
  {
    var t := TableName(cls, false).value;
    assert |t| == |cls.name|;
    assert forall i :: 0 <= i < |t| ==> t[i] == cls.name[i];
    assert t == cls.name;
  }

  /** An instance of a model class: its class and the string form of its `pk`. */
  datatype Instance = Instance(cls: Obj, pk: string)

  /** `Model.class_name`: the `__name__` of the instance's class. */
  function ClassName(self: Instance): (r: string)
    requires self.cls.Class?
    ensures r == self.cls.name
  {
    self.cls.name
  }

  /** `Model.__repr__`: `"{}.{}".format(self.class_name, self.pk)`. */
  function Repr(self: Instance): (s: string)
    requires self.cls.Class?
    ensures |s| == |ClassName(self)| + 1 + |self.pk|
    ensures ClassName(self) <= s && s[|ClassName(self)|] == '.'
    ensures s[|ClassName(self)| + 1..] == self.pk
  {
    ClassName(self) + "." + self.pk
  }

  /** Splits a representation at its first dot into class name and primary key. */
  function ParseRepr(s: string): (r: Option<(string, string)>)
    ensures r.None? <==> '.' !in s
    ensures r.Some? ==> r.value.0 + "." + r.value.1 == s && '.' !in r.value.0
  {
    match IndexOf(s, '.')
    case None => None
    case Some(i) =>
      assert s == s[..i] + "." + s[i + 1..];
      Some((s[..i], s[i + 1..]))
  }

  /** A class name never holds a dot, so the representation gives back the class name and the key. */
  lemma ReprRoundTrip(self: Instance)
    requires self.cls.Class?
    requires '.' !in ClassName(self)
    ensures ParseRepr(Repr(self)) == Some((ClassName(self), self.pk))
  {
    var s := Repr(self);
    var n := |ClassName(self)|;
    assert s[n] == '.';
    assert s[..n] == ClassName(self);
    assert IndexOf(s, '.') == Some(n);
  }

  /** Two instances of dot-free class names print alike only when class name and key agree. */
  lemma ReprInjective(x: Instance, y: Instance)
    requires x.cls.Class? && y.cls.Class?
    requires '.' !in ClassName(x) && '.' !in ClassName(y)
    requires Repr(x) == Repr(y)
    ensures ClassName(x) == ClassName(y) && x.pk == y.pk
  {
    ReprRoundTrip(x);
    ReprRoundTrip(y);
  }
}
