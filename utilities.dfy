/** InterfaceProxyUtilities: casting an object to an interface type, either
    reporting failure (`TryCast`) or throwing (`Cast`). A generic argument is
    passed as the `RtType` it stands for; an exception becomes a `Threw` outcome. */
module InterfaceProxyUtilities {
  import opened RuntimeTypes

  /** Why an `ArgumentException` was thrown. */
  datatype ArgumentReason =
    | NotAnInterface                                          // "The generic argument must be an interface type."
    | CannotCast(sourceType: TypeName, interfaceType: TypeName)   // "Unable to cast object of type … to interface type …."

  datatype CastException =
    | ArgumentException(reason: ArgumentReason, argumentName: Option<string>)
    | ArgumentNullException(paramName: string)

  /** A call either returns a value or throws. */
  datatype Outcome<+T> = Returned(value: T) | Threw(exception: CastException)

  /** The return value and the `out` argument of `TryCast`. */
  datatype TryCastResult = TryCastResult(success: bool, result: Ref)

  /** The exception every entry point throws first when `TOut` is not an interface. */
  const NotAnInterfaceError := ArgumentException(NotAnInterface, None)

  /** `CheckInterface<TOut>()`: returns normally exactly when `TOut` is an interface. */
  function CheckInterface(tOut: RtType): (r: Outcome<()>)
    ensures r.Returned? <==> tOut.isInterface
    ensures r.Threw? ==> r.exception == NotAnInterfaceError
  {
    if !tOut.isInterface then Threw(NotAnInterfaceError) else Returned(())
  }

  /** A source value fits its static type `TIn`: only a reference type can
      hold null (`Nullable<T>` is not part of this model). */
  predicate FitsStaticType(tIn: RtType, source: Ref) {
    source.Null? ==> !tIn.isValueType
  }

  /** `TryCast<TIn, TOut>(source, out result)`. */
  function TryCast(tIn: RtType, tOut: RtType, source: Ref): (r: Outcome<TryCastResult>)
    ensures !tOut.isInterface ==> r == Threw(NotAnInterfaceError)
    ensures tOut.isInterface ==> r.Returned?
    ensures r.Returned? ==>
      (r.value.success <==> source.Object? && IsAssignableFrom(tOut, source.runtimeType))
    ensures r.Returned? && r.value.success ==> r.value.result == source
    ensures r.Returned? && !r.value.success ==> r.value.result == Null
  {
    match CheckInterface(tOut)
    case Threw(e) => Threw(e)
    case Returned(_) =>
      if Is(source, tOut) then Returned(TryCastResult(true, source))
      else Returned(TryCastResult(false, Null))
  }

  /** `TryCast<TOut>(object source, out result)`, which forwards to
      `TryCast<object, TOut>`. */
  function TryCastFromObject(tOut: RtType, source: Ref): (r: Outcome<TryCastResult>)
    ensures !tOut.isInterface ==> r == Threw(NotAnInterfaceError)
    ensures tOut.isInterface ==> r.Returned?
    ensures r.Returned? ==>
      (r.value.success <==> source.Object? && IsAssignableFrom(tOut, source.runtimeType))
    ensures r.Returned? ==> r.value.result == (if r.value.success then source else Null)
  {
    TryCast(ObjectType, tOut, source)
  }

  /** `Cast<TIn, TOut>(source)`. */
  function Cast(tIn: RtType, tOut: RtType, source: Ref): (r: Outcome<Ref>)
    requires FitsStaticType(tIn, source)
    ensures !tOut.isInterface ==> r == Threw(NotAnInterfaceError)
    ensures tOut.isInterface && source.Null? ==> r == Threw(ArgumentNullException("source"))
    ensures tOut.isInterface && source.Object? ==>
      if IsAssignableFrom(tOut, source.runtimeType) then r == Returned(source)
      else r == Threw(ArgumentException(CannotCast(source.runtimeType.name, tOut.name), Some("source")))
  {
    match CheckInterface(tOut)
    case Threw(e) => Threw(e)
    case Returned(_) =>
      if !tIn.isValueType && source.Null? then Threw(ArgumentNullException("source"))
      else if Is(source, tOut) then Returned(source)
      else Threw(ArgumentException(CannotCast(source.runtimeType.name, tOut.name), Some("source")))
  }

  /** `Cast<TOut>(object source)`, which forwards to `Cast<object, TOut>`. */
  function CastFromObject(tOut: RtType, source: Ref): (r: Outcome<Ref>)
    ensures !tOut.isInterface ==> r == Threw(NotAnInterfaceError)
    ensures tOut.isInterface && source.Null? ==> r == Threw(ArgumentNullException("source"))
    ensures tOut.isInterface && source.Object? ==>
      if IsAssignableFrom(tOut, source.runtimeType) then r == Returned(source)
      else r == Threw(ArgumentException(CannotCast(source.runtimeType.name, tOut.name), Some("source")))
  {
    Cast(ObjectType, tOut, source)
  }

  /** For a non-null source, `Cast` and `TryCast` agree: both throw the same
      exception when `TOut` is not an interface; otherwise `Cast` returns exactly
      when `TryCast` reports success, and both yield the same object. */
  lemma CastAgreesWithTryCast(tIn: RtType, tOut: RtType, source: Ref)
    requires source.Object?
    ensures !tOut.isInterface ==>
      Cast(tIn, tOut, source).Threw? && TryCast(tIn, tOut, source).Threw? &&
      Cast(tIn, tOut, source).exception == TryCast(tIn, tOut, source).exception
    ensures tOut.isInterface ==>
      (Cast(tIn, tOut, source).Returned? <==> TryCast(tIn, tOut, source).value.success)
    ensures Cast(tIn, tOut, source).Returned? ==>
      Cast(tIn, tOut, source).value == TryCast(tIn, tOut, source).value.result
  {
  }
}
