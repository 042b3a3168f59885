/**
 * The slice of Python's object model the loader looks at. A class carries its identity, its
 * `__name__` and the identities of all its proper ancestors (its method resolution order without
 * itself), which is all `issubclass` consults. Anything that is not a class (a module-level string,
 * a function, an instance) is a `NonClass`. Each value carries its identity, so datatype equality
 * stands for Python's `==` on classes, which is identity. For other objects it is identity too,
 * where Python may compare by value; neither `is_model` nor `is_view` accepts such an object.
 */
module Objects {

  type ObjectId = nat

  datatype Obj =
    | Class(id: ObjectId, name: string, ancestors: set<ObjectId>)
    | NonClass(id: ObjectId)

  /** `issubclass(cls, base)`: a class is a subclass of itself and of each of its ancestors. */
  predicate IsSubclass(cls: Obj, base: Obj)
    requires cls.Class?
  {
    cls == base || (base.Class? && base.id in cls.ancestors)
  }
}
