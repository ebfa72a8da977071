/** The earlier property drawer of
    `Assets/InterfaceProxy/Scripts/Editor/InterfaceProxyPropertyDrawer.cs`. It
    hands non-reference properties to Unity's default drawer, does not clear an
    invalid stored reference, and its revert test is the opposite of the one
    its comment and its log message describe: it reverts a change to an object
    that DOES implement the interface. */
module AssetsDrawer {
  import opened RuntimeTypes
  import opened DrawerCommon

  /** One call of `OnGUI`, as a function of the property's state before the
      call and of what the user did with the field. */
  function Render(fieldType: RtType, attribute: InterfaceProxyAttribute, propertyType: PropertyType,
                  s: PropertyState, input: Interaction): (r: (Drawn, PropertyState))
    // A property that holds no object reference goes to the default drawer, without alert.
    ensures propertyType == OtherPropertyType ==> r == (Drawn(DefaultField, NoAlert), s)
    // A sealed field type: enabled, with a warning; whatever the user picks is kept unchecked.
    ensures propertyType == ObjectReference && fieldType.isSealed ==>
      r.0 == Drawn(EnabledField, Alert(Warning, SealedFieldType)) &&
      r.1 == s.(value := Edited(s.value, input))
    // A constraint that is null or not an interface: disabled, with an error; nothing is written.
    ensures propertyType == ObjectReference && !fieldType.isSealed && !IsInterfaceConstraint(attribute) ==>
      r == (Drawn(DisabledField, Alert(Error, NonInterfaceConstraint)), s)
    // A valid constraint: the field is enabled without alert,
    ensures Validates(fieldType, attribute, propertyType) ==> r.0 == Drawn(EnabledField, NoAlert)
    // ... with no change nothing at all is written, even if the stored reference does not conform,
    ensures Validates(fieldType, attribute, propertyType) && input.NoChange? ==> r.1 == s
    // ... a change to an object that implements the interface is reverted and logged,
    ensures Validates(fieldType, attribute, propertyType) && input.ChangedTo? && input.chosen.Object? &&
            IsAssignableFrom(attribute.interfaceType.value, input.chosen.runtimeType) ==>
      r.1.value == s.value &&
      r.1.log == s.log + [AssignmentRejected(input.chosen.runtimeType.name, attribute.interfaceType.value.name)]
    // ... a change to null, or to an object that does not implement it, is kept without a log line,
    ensures Validates(fieldType, attribute, propertyType) && input.ChangedTo? &&
            !(input.chosen.Object? && IsAssignableFrom(attribute.interfaceType.value, input.chosen.runtimeType)) ==>
      r.1.value == input.chosen && r.1.log == s.log
    // ... and every change, kept or reverted, marks the owner dirty and applies modifications.
    ensures Validates(fieldType, attribute, propertyType) && input.ChangedTo? ==>
      r.1.dirty && r.1.applied
    // Only that branch ever writes the dirty or applied flags or the log.
    ensures !Validates(fieldType, attribute, propertyType) ==>
      r.1.dirty == s.dirty && r.1.applied == s.applied && r.1.log == s.log
  {
    if propertyType == ObjectReference then
      if !fieldType.isSealed then
        if IsInterfaceConstraint(attribute) then
          var interfaceType := attribute.interfaceType.value;
          var previousObjRef := s.value;
          match input
          case NoChange => (Drawn(EnabledField, NoAlert), s)
          case ChangedTo(newObj) =>
            var checked :=
              if newObj != Null && IsAssignableFrom(interfaceType, newObj.runtimeType) then
                s.(value := previousObjRef,
                   log := s.log + [AssignmentRejected(newObj.runtimeType.name, interfaceType.name)])
              else s.(value := newObj);
            (Drawn(EnabledField, NoAlert), checked.(dirty := true, applied := true))
        else (Drawn(DisabledField, Alert(Error, NonInterfaceConstraint)), s)
      else (Drawn(EnabledField, Alert(Warning, SealedFieldType)), s.(value := Edited(s.value, input)))
    else (Drawn(DefaultField, NoAlert), s)
  }

  /** The drawer Unity creates for one decorated field. */
  class InterfaceProxyPropertyDrawer {
    const fieldType: RtType
    const attribute: InterfaceProxyAttribute

    constructor (fieldType: RtType, attribute: InterfaceProxyAttribute)
      ensures this.fieldType == fieldType && this.attribute == attribute
    {
      this.fieldType := fieldType;
      this.attribute := attribute;
    }

    /** `OnGUI`: one GUI pass over the property, during which the user does `input`. */
    method OnGUI(property: SerializedProperty, input: Interaction) returns (drawn: Drawn)
      modifies property
      ensures (drawn, property.State()) == Render(fieldType, attribute, property.propertyType, old(property.State()), input)
    {
      if property.propertyType == ObjectReference {
        if !fieldType.isSealed {
          var interfaceType := attribute.interfaceType;
          var isInterfaceType := interfaceType.Some? && interfaceType.value.isInterface;
          if isInterfaceType {
            var iface := interfaceType.value;
            var previousObjRef := property.objectReferenceValue;

            var didChange := property.PropertyField(true, input);

            if didChange {
              var newObj := property.objectReferenceValue;
              if newObj != Null && IsAssignableFrom(iface, newObj.runtimeType) {
                property.LogError(AssignmentRejected(property.objectReferenceValue.runtimeType.name, iface.name));
                property.objectReferenceValue := previousObjRef;
              }
              property.SetDirty();
              property.ApplyModifiedProperties();
            }
            drawn := Drawn(EnabledField, NoAlert);
          } else {
            // Drawn inside a disabled group, with the error icon beside it.
            var _ := property.PropertyField(false, input);
            drawn := Drawn(DisabledField, Alert(Error, NonInterfaceConstraint));
          }
        } else {
          // Drawn editable, with the warning icon beside it.
          var _ := property.PropertyField(true, input);
          drawn := Drawn(EnabledField, Alert(Warning, SealedFieldType));
        }
      } else {
        // Unity's default drawer edits the property as if no attribute were present.
        var _ := property.PropertyField(true, input);
        drawn := Drawn(DefaultField, NoAlert);
      }
    }
  }
}

/** Successive GUI passes of the `Assets/` drawer over one property. */
module AssetsDrawerFrames {
  import opened RuntimeTypes
  import opened DrawerCommon
  import opened AssetsDrawer

  /** The `Assets/` drawer of one field, as a pass. */
  function AssetsPass(fieldType: RtType, attribute: InterfaceProxyAttribute, propertyType: PropertyType): Pass {
    (s, input) => Render(fieldType, attribute, propertyType, s, input)
  }

  /** Without a clean-up step, a reference written from outside the drawer
      that does not implement the interface survives any number of passes in
      which the user changes nothing: the property is never written and every
      pass draws an enabled field with no alert. */
  lemma {:induction false} KeepsCorruptionWhileUnchanged(fieldType: RtType, attribute: InterfaceProxyAttribute,
                                                         s: PropertyState, inputs: seq<Interaction>)
    requires Validates(fieldType, attribute, ObjectReference)
    requires forall k :: 0 <= k < |inputs| ==> inputs[k] == NoChange
    ensures var r := RenderFrames(AssetsPass(fieldType, attribute, ObjectReference), s, inputs);
      r.1 == s && forall k :: 0 <= k < |inputs| ==> r.0[k] == Drawn(EnabledField, NoAlert)
    decreases |inputs|
  {
    if inputs != [] {
      KeepsCorruptionWhileUnchanged(fieldType, attribute, s, inputs[1..]);
    }
  }
}
