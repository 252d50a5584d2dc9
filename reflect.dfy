/**
 * The part of Java reflection the built-in converters look at: class identity,
 * the superclass chain (for `Class.isAssignableFrom`), the raw class of a declared
 * type, and the presence of the `@Streaming` marker among call-site annotations.
 */
module Reflect {

  /** A Java class: `Object`, the three classes the converters name, or a user class with its superclass. */
  datatype Class =
    | ObjectClass
    | ResponseBodyClass
    | RequestBodyClass
    | VoidClass
    | Subclass(name: string, parent: Class)

  /** `sup.isAssignableFrom(sub)`: `sub` is `sup` or one of its (transitive) subclasses. */
  predicate IsAssignableFrom(sup: Class, sub: Class)
  {
    sup == sub || sup == ObjectClass || (sub.Subclass? && IsAssignableFrom(sup, sub.parent))
  }

  /** A declared type: a plain class, or a parameterized type over a raw class. */
  datatype Type =
    | ClassType(cls: Class)
    | Parameterized(raw: Class, args: seq<Type>)

  /** The erased class of a declared type. */
  function RawType(t: Type): Class
  {
    match t
    case ClassType(c) => c
    case Parameterized(raw, _) => raw
  }

  /** A call-site annotation; only the `@Streaming` marker is ever asked about. */
  datatype Annotation = Streaming | Marker(name: string)

  /** Whether the `@Streaming` marker is among the annotations. */
  predicate IsStreamingPresent(annotations: seq<Annotation>)
  {
    Streaming in annotations
  }

  /** Assignability is transitive: a subclass of a subclass of `a` is assignable to `a`. */
  lemma {:induction false} AssignableTransitive(a: Class, b: Class, c: Class)
    requires IsAssignableFrom(a, b) && IsAssignableFrom(b, c)
    ensures IsAssignableFrom(a, c)
    decreases c
  {
    if b != c && b != ObjectClass {
      AssignableTransitive(a, b, c.parent);
    }
  }
}
