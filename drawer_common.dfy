/** What both versions of the interface-proxy property drawer share: the
    attribute they read, the serialized property they edit, the user's
    interaction with the drawn field, and what ends up on screen. */
module DrawerCommon {
  import opened RuntimeTypes

  /** `InterfaceProxyAttribute`: the type a decorated field is restricted to.
      It is stored unchecked, so it may be null or name a non-interface type. */
  datatype InterfaceProxyAttribute = InterfaceProxyAttribute(interfaceType: Option<RtType>)

  /** `interfaceType?.IsInterface ?? false`. */
  predicate IsInterfaceConstraint(attribute: InterfaceProxyAttribute) {
    attribute.interfaceType.Some? && attribute.interfaceType.value.isInterface
  }

  /** `SerializedProperty.propertyType`, as far as the drawer tells kinds apart. */
  datatype PropertyType = ObjectReference | OtherPropertyType

  /** What the user does with the drawn field during one GUI pass. A field that
      reports a change writes the chosen object into the property. */
  datatype Interaction = NoChange | ChangedTo(chosen: Ref)

  datatype Severity = Warning | Error

  /** The tooltip, and so the meaning, of an alert icon. */
  datatype AlertReason = NonInterfaceConstraint | SealedFieldType | NotObjectReference

  datatype Alert = NoAlert | Alert(severity: Severity, reason: AlertReason)

  /** How the field itself is drawn: editable, inside a disabled group, or by
      Unity's default drawer. */
  datatype FieldMode = EnabledField | DisabledField | DefaultField

  datatype Drawn = Drawn(mode: FieldMode, alert: Alert)

  /** One line written by `Debug.LogError`, naming the offending object's type
      and the interface it does not implement. */
  datatype LogEntry =
    | ReferenceCleared(objectType: TypeName, interfaceType: TypeName)
    | AssignmentRejected(objectType: TypeName, interfaceType: TypeName)

  /** The state a render pass reads and writes: the property's object
      reference, whether the owning object was marked dirty, whether pending
      modifications were applied, and the error log. */
  datatype PropertyState = PropertyState(value: Ref, dirty: bool, applied: bool, log: seq<LogEntry>)

  /** The branch in which a drawer validates assignments: an object-reference
      property whose declared field type is not sealed, under an attribute
      naming an interface. */
  predicate Validates(fieldType: RtType, attribute: InterfaceProxyAttribute, propertyType: PropertyType) {
    propertyType == ObjectReference && !fieldType.isSealed && IsInterfaceConstraint(attribute)
  }

  /** The reference is null or implements the interface. */
  predicate Conforms(value: Ref, interfaceType: RtType) {
    value.Null? || IsAssignableFrom(interfaceType, value.runtimeType)
  }

  /** The reference after an editable object field has been drawn: the
      user's choice, if any. */
  function Edited(value: Ref, input: Interaction): Ref {
    match input
    case NoChange => value
    case ChangedTo(chosen) => chosen
  }

  /** One GUI pass of a drawer over a property: what it drew, and the new state. */
  type Pass = (PropertyState, Interaction) -> (Drawn, PropertyState)

  /** Successive passes over one property, the user doing `inputs[k]` during
      pass k: what each pass drew, and the state after the last one. */
  function RenderFrames(pass: Pass, s: PropertyState, inputs: seq<Interaction>): (r: (seq<Drawn>, PropertyState))
    ensures |r.0| == |inputs|
    ensures inputs == [] ==> r.1 == s
    decreases |inputs|
  {
    if inputs == [] then ([], s)
    else
      var (drawn, next) := pass(s, inputs[0]);
      var (rest, last) := RenderFrames(pass, next, inputs[1..]);
      ([drawn] + rest, last)
  }

  /** The serialized property under the drawer, with the parts of its
      serialized object and of the editor console that the drawer touches. */
  class SerializedProperty {
    const propertyType: PropertyType
    var objectReferenceValue: Ref
    var targetDirty: bool
    var applied: bool
    var log: seq<LogEntry>

    function State(): PropertyState
      reads this
    {
      PropertyState(objectReferenceValue, targetDirty, applied, log)
    }

    constructor (propertyType: PropertyType, value: Ref)
      ensures this.propertyType == propertyType
      ensures State() == PropertyState(value, false, false, [])
    {
      this.propertyType := propertyType;
      objectReferenceValue := value;
      targetDirty := false;
      applied := false;
      log := [];
    }

    /** `EditorGUI.PropertyField`, with `BeginChangeCheck`/`EndChangeCheck`
        around it: the host draws the field, stores what the user chose and
        reports whether anything changed. A field inside a disabled group
        cannot change. Only an object-reference property stores a reference;
        what the user types into any other kind of field is not modelled. */
    method PropertyField(enabled: bool, input: Interaction) returns (didChange: bool)
      modifies this`objectReferenceValue
      ensures didChange == (enabled && input.ChangedTo?)
      ensures objectReferenceValue ==
        if enabled && propertyType == ObjectReference then Edited(old(objectReferenceValue), input)
        else old(objectReferenceValue)
    {
      didChange := enabled && input.ChangedTo?;
      if didChange && propertyType == ObjectReference {
        objectReferenceValue := input.chosen;
      }
    }

    /** `EditorUtility.SetDirty(property.serializedObject.targetObject)`. */
    method SetDirty()
      modifies this`targetDirty
      ensures targetDirty
    {
      targetDirty := true;
    }

    /** `property.serializedObject.ApplyModifiedProperties()`. */
    method ApplyModifiedProperties()
      modifies this`applied
      ensures applied
    {
      applied := true;
    }

    /** `Debug.LogError`. */
    method LogError(entry: LogEntry)
      modifies this`log
      ensures log == old(log) + [entry]
    {
      log := log + [entry];
    }
  }
}
