/** The slice of the .NET type system that the interface-proxy code consults:
    the flags it reads off a `System.Type` (IsSealed, IsInterface, IsValueType),
    assignability between types, and nullable object references. */
module RuntimeTypes {

  datatype Option<+T> = None | Some(value: T)

  /** A type is known by its full name. */
  type TypeName = string

  /** A runtime type. `implements` holds the names of every type a value of this
      type can be assigned to other than the type itself: its base classes and
      the interfaces it implements. */
  datatype RtType = RtType(
    name: TypeName,
    isSealed: bool,
    isInterface: bool,
    isValueType: bool,
    implements: set<TypeName>)

  /** `target.IsAssignableFrom(t)`: a value of type `t` may be stored where a
      `target` is expected. Assignability is membership in `t`'s set of supertypes. */
  predicate IsAssignableFrom(target: RtType, t: RtType) {
    t.name == target.name || target.name in t.implements
  }

  /** A reference as the program sees it: null, or an object with an identity
      and a runtime type (what `GetType()` returns). */
  datatype Ref = Null | Object(id: nat, runtimeType: RtType)

  /** C#'s `source is T` type test: false for null, otherwise the runtime type
      of the object is tested against `T`. */
  predicate Is(source: Ref, t: RtType) {
    source.Object? && IsAssignableFrom(t, source.runtimeType)
  }

  /** `System.Object`, the static type of the single-generic overloads' source. */
  const ObjectType: RtType := RtType("System.Object", false, false, false, {})
}
