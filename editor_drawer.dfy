/** The property drawer of `Editor/InterfaceProxyPropertyDrawer.cs`: it clears
    an invalid reference before drawing, and reverts a user's change to an
    object that does not implement the attribute's interface. */
module EditorDrawer {
  import opened RuntimeTypes
  import opened DrawerCommon
  import InterfaceProxyUtilities

  /** `IsUnsupportedType(obj, interfaceType)`: a non-null object whose type
      the interface is not assignable from. For an interface it agrees with the
      utilities' `TryCast`: unsupported is a non-null object that does not cast. */
  function IsUnsupportedType(obj: Ref, interfaceType: RtType): (r: bool)
    ensures obj.Null? ==> !r
    ensures !r <==> Conforms(obj, interfaceType)
    ensures interfaceType.isInterface ==>
      (r <==> obj.Object? && !InterfaceProxyUtilities.TryCastFromObject(interfaceType, obj).value.success)
  {
    obj.Object? && !IsAssignableFrom(interfaceType, obj.runtimeType)
  }

  /** The log lines the clean-up before drawing writes for a stored reference:
      one naming its type and the interface if it does not conform, else none. */
  function CleanUpLog(value: Ref, interfaceType: RtType): seq<LogEntry> {
    if Conforms(value, interfaceType) then [] else [ReferenceCleared(value.runtimeType.name, interfaceType.name)]
  }

  /** The clean-up before drawing: an unsupported stored reference is logged,
      set to null and its owner marked dirty; anything else is left alone. */
  function ClearUnsupported(s: PropertyState, interfaceType: RtType): (r: PropertyState)
    ensures Conforms(r.value, interfaceType) && r.applied == s.applied
    ensures Conforms(s.value, interfaceType) ==> r == s
    ensures !Conforms(s.value, interfaceType) ==> r.value.Null? && r.dirty
    ensures r.log == s.log + CleanUpLog(s.value, interfaceType)
  {
    if IsUnsupportedType(s.value, interfaceType) then
      s.(value := Null, dirty := true,
         log := s.log + [ReferenceCleared(s.value.runtimeType.name, interfaceType.name)])
    else s
  }

  /** One call of `OnGUI`, on the drawer of a field declared with type
      `fieldType` and decorated with `attribute`, as a function of the
      property's state before the call and of what the user did with the field. */
  function Render(fieldType: RtType, attribute: InterfaceProxyAttribute, propertyType: PropertyType,
                  s: PropertyState, input: Interaction): (r: (Drawn, PropertyState))
    // A property that holds no object reference: enabled, with a warning; nothing is written.
    ensures propertyType == OtherPropertyType ==>
      r == (Drawn(EnabledField, Alert(Warning, NotObjectReference)), s)
    // A sealed field type: enabled, with a warning; whatever the user picks is kept unchecked.
    ensures propertyType == ObjectReference && fieldType.isSealed ==>
      r.0 == Drawn(EnabledField, Alert(Warning, SealedFieldType)) &&
      r.1 == s.(value := Edited(s.value, input))
    // A constraint that is null or not an interface: disabled, with an error; nothing is written.
    ensures propertyType == ObjectReference && !fieldType.isSealed && !IsInterfaceConstraint(attribute) ==>
      r == (Drawn(DisabledField, Alert(Error, NonInterfaceConstraint)), s)
    // A valid constraint: the field is enabled without alert, and afterwards the
    // reference is null or implements the interface.
    ensures Validates(fieldType, attribute, propertyType) ==>
      r.0 == Drawn(EnabledField, NoAlert) && Conforms(r.1.value, attribute.interfaceType.value)
    // ... nothing is touched when the user changes nothing and the reference conforms,
    ensures Validates(fieldType, attribute, propertyType) && input.NoChange? &&
            Conforms(s.value, attribute.interfaceType.value) ==>
      r.1 == s
    // ... a non-conforming stored reference is cleared, once logged, and its owner marked dirty,
    ensures Validates(fieldType, attribute, propertyType) && !Conforms(s.value, attribute.interfaceType.value) ==>
      r.1.dirty && |r.1.log| > |s.log| && r.1.log[..|s.log| + 1] ==
        s.log + [ReferenceCleared(s.value.runtimeType.name, attribute.interfaceType.value.name)] &&
      (input.NoChange? ==>
        r.1 == s.(value := Null, dirty := true,
                  log := s.log + [ReferenceCleared(s.value.runtimeType.name, attribute.interfaceType.value.name)]))
    // ... a change to null or to an implementing object is kept,
    ensures Validates(fieldType, attribute, propertyType) && input.ChangedTo? &&
            Conforms(input.chosen, attribute.interfaceType.value) ==>
      r.1.value == input.chosen &&
      r.1.log == s.log + CleanUpLog(s.value, attribute.interfaceType.value)
    // ... a change to any other object is reverted to the reference held after clean-up, and logged,
    ensures Validates(fieldType, attribute, propertyType) && input.ChangedTo? &&
            !Conforms(input.chosen, attribute.interfaceType.value) ==>
      r.1.value == (if Conforms(s.value, attribute.interfaceType.value) then s.value else Null) &&
      r.1.log == s.log + CleanUpLog(s.value, attribute.interfaceType.value) +
                 [AssignmentRejected(input.chosen.runtimeType.name, attribute.interfaceType.value.name)]
    // ... and every change, kept or reverted, marks the owner dirty and applies modifications.
    ensures Validates(fieldType, attribute, propertyType) && input.ChangedTo? ==>
      r.1.dirty && r.1.applied
    // Only this branch ever writes the dirty or applied flags or the log.
    ensures !Validates(fieldType, attribute, propertyType) ==>
      r.1.dirty == s.dirty && r.1.applied == s.applied && r.1.log == s.log
  {
    if propertyType == ObjectReference then
      if !fieldType.isSealed then
        if IsInterfaceConstraint(attribute) then
          var interfaceType := attribute.interfaceType.value;
          var cleaned := ClearUnsupported(s, interfaceType);
          var previousObjRef := cleaned.value;
          match input
          case NoChange => (Drawn(EnabledField, NoAlert), cleaned)
          case ChangedTo(chosen) =>
            var checked :=
              if IsUnsupportedType(chosen, interfaceType) then
                cleaned.(value := previousObjRef,
                         log := cleaned.log + [AssignmentRejected(chosen.runtimeType.name, interfaceType.name)])
              else cleaned.(value := chosen);
            (Drawn(EnabledField, NoAlert), checked.(dirty := true, applied := true))
        else (Drawn(DisabledField, Alert(Error, NonInterfaceConstraint)), s)
      else (Drawn(EnabledField, Alert(Warning, SealedFieldType)), s.(value := Edited(s.value, input)))
    else (Drawn(EnabledField, Alert(Warning, NotObjectReference)), s)
  }

  /** The drawer Unity creates for one decorated field: it knows the field's
      declared type (`fieldInfo.FieldType`) and the attribute instance. */
  class InterfaceProxyPropertyDrawer {
    const fieldType: RtType
    const attribute: InterfaceProxyAttribute

    constructor (fieldType: RtType, attribute: InterfaceProxyAttribute)
      ensures this.fieldType == fieldType && this.attribute == attribute
    {
      this.fieldType := fieldType;
      this.attribute := attribute;
    }

    /** `DisplayFieldWithAlert`: the field, disabled unless `fieldEnabled`, with an alert icon beside it. */
    method DisplayFieldWithAlert(property: SerializedProperty, fieldEnabled: bool, alert: Alert, input: Interaction)
      returns (drawn: Drawn)
      modifies property`objectReferenceValue
      ensures drawn == Drawn(if fieldEnabled then EnabledField else DisabledField, alert)
      ensures property.objectReferenceValue ==
        if fieldEnabled && property.propertyType == ObjectReference
        then Edited(old(property.objectReferenceValue), input)
        else old(property.objectReferenceValue)
    {
      var _ := property.PropertyField(fieldEnabled, input);
      drawn := Drawn(if fieldEnabled then EnabledField else DisabledField, alert);
    }

    /** `OnGUI`: one GUI pass over the property, during which the user does `input`. */
    method OnGUI(property: SerializedProperty, input: Interaction) returns (drawn: Drawn)
      modifies property
      ensures (drawn, property.State()) == Render(fieldType, attribute, property.propertyType, old(property.State()), input)
      ensures Validates(fieldType, attribute, property.propertyType) ==>
        Conforms(property.objectReferenceValue, attribute.interfaceType.value)
    {
      if property.propertyType == ObjectReference {
        if !fieldType.isSealed {
          var interfaceType := attribute.interfaceType;
          var isInterfaceType := interfaceType.Some? && interfaceType.value.isInterface;
          if isInterfaceType {
            var iface := interfaceType.value;
            if IsUnsupportedType(property.objectReferenceValue, iface) {
              property.LogError(ReferenceCleared(property.objectReferenceValue.runtimeType.name, iface.name));
              property.objectReferenceValue := Null;
              property.SetDirty();
            }

            var previousObjRef := property.objectReferenceValue;

            var didChange := property.PropertyField(true, input);

            if didChange {
              if IsUnsupportedType(property.objectReferenceValue, iface) {
                property.LogError(AssignmentRejected(property.objectReferenceValue.runtimeType.name, iface.name));
                property.objectReferenceValue := previousObjRef;
              }
              property.SetDirty();
              property.ApplyModifiedProperties();
            }
            drawn := Drawn(EnabledField, NoAlert);
          } else {
            drawn := DisplayFieldWithAlert(property, false, Alert(Error, NonInterfaceConstraint), input);
          }
        } else {
          drawn := DisplayFieldWithAlert(property, true, Alert(Warning, SealedFieldType), input);
        }
      } else {
        drawn := DisplayFieldWithAlert(property, true, Alert(Warning, NotObjectReference), input);
      }
    }
  }
}

/** Successive GUI passes of the `Editor/` drawer over one property. */
module EditorDrawerFrames {
  import opened RuntimeTypes
  import opened DrawerCommon
  import opened EditorDrawer

  /** The `Editor/` drawer of one field, as a pass. */
  function EditorPass(fieldType: RtType, attribute: InterfaceProxyAttribute, propertyType: PropertyType): Pass {
    (s, input) => Render(fieldType, attribute, propertyType, s, input)
  }

  /** A constraint that is null or not an interface is a terminal configuration
      error: every pass draws the field disabled with the error icon, and the
      property is never written, whatever the user attempts. */
  lemma {:induction false} NonInterfaceConstraintIsTerminal(fieldType: RtType, attribute: InterfaceProxyAttribute,
                                                            s: PropertyState, inputs: seq<Interaction>)
    requires !fieldType.isSealed && !IsInterfaceConstraint(attribute)
    ensures var r := RenderFrames(EditorPass(fieldType, attribute, ObjectReference), s, inputs);
      r.1 == s &&
      forall k :: 0 <= k < |inputs| ==> r.0[k] == Drawn(DisabledField, Alert(Error, NonInterfaceConstraint))
    decreases |inputs|
  {
    if inputs != [] {
      NonInterfaceConstraintIsTerminal(fieldType, attribute, s, inputs[1..]);
    }
  }

  /** The value a field holds after `inputs` when every change is kept as
      picked: the object chosen in the last pass that changed the field, or
      `v` when no pass did. */
  function LastPick(v: Ref, inputs: seq<Interaction>): (r: Ref)
    ensures inputs != [] && inputs[|inputs| - 1].ChangedTo? ==> r == inputs[|inputs| - 1].chosen
    ensures inputs != [] && inputs[|inputs| - 1].NoChange? ==> r == LastPick(v, inputs[..|inputs| - 1])
    ensures (forall k :: 0 <= k < |inputs| ==> inputs[k].NoChange?) ==> r == v
    decreases |inputs|
  {
    if inputs == [] then v
    else
      var r := LastPick(Edited(v, inputs[0]), inputs[1..]);
      if |inputs| > 1 then
        assert inputs[1..][..|inputs[1..]| - 1] == inputs[..|inputs| - 1][1..];
        r
      else r
  }

  /** On a sealed field type no pass checks anything: each draws the field
      enabled with the warning icon, the dirty and applied flags and the log
      are never written, and the field ends up holding the object picked in
      the last pass that changed it (the original value if none did), whether
      or not it implements the interface. */
  lemma {:induction false} SealedFieldIsNeverChecked(fieldType: RtType, attribute: InterfaceProxyAttribute,
                                                     s: PropertyState, inputs: seq<Interaction>)
    requires fieldType.isSealed
    ensures var r := RenderFrames(EditorPass(fieldType, attribute, ObjectReference), s, inputs);
      r.1 == s.(value := LastPick(s.value, inputs)) &&
      forall k :: 0 <= k < |inputs| ==> r.0[k] == Drawn(EnabledField, Alert(Warning, SealedFieldType))
    decreases |inputs|
  {
    if inputs != [] {
      var next := Render(fieldType, attribute, ObjectReference, s, inputs[0]).1;
      SealedFieldIsNeverChecked(fieldType, attribute, next, inputs[1..]);
    }
  }

  /** The number of clean-up lines in a log. */
  function ClearedCount(log: seq<LogEntry>): nat {
    if log == [] then 0 else (if log[0].ReferenceCleared? then 1 else 0) + ClearedCount(log[1..])
  }

  lemma {:induction false} ClearedCountAppend(a: seq<LogEntry>, b: seq<LogEntry>)
    ensures ClearedCount(a + b) == ClearedCount(a) + ClearedCount(b)
  {
    if a == [] {
      assert a + b == b;
    } else {
      assert (a + b)[1..] == a[1..] + b;
      ClearedCountAppend(a[1..], b);
    }
  }

  /** One validating pass only appends to the log, and appends a clean-up
      line exactly when the stored reference did not conform. */
  lemma RenderAppendsOneClearIfCorrupt(fieldType: RtType, attribute: InterfaceProxyAttribute,
                                       s: PropertyState, input: Interaction)
    requires Validates(fieldType, attribute, ObjectReference)
    ensures var next := Render(fieldType, attribute, ObjectReference, s, input).1;
      |s.log| <= |next.log| && next.log[..|s.log|] == s.log &&
      ClearedCount(next.log[|s.log|..]) == if Conforms(s.value, attribute.interfaceType.value) then 0 else 1
  {
    var iface := attribute.interfaceType.value;
    var next := Render(fieldType, attribute, ObjectReference, s, input).1;
    var cleaned := ClearUnsupported(s, iface);
    var clears := cleaned.log[|s.log|..];
    assert cleaned.log == s.log + clears;
    assert ClearedCount(clears) == if Conforms(s.value, iface) then 0 else 1 by {
      if !Conforms(s.value, iface) {
        assert clears == [ReferenceCleared(s.value.runtimeType.name, iface.name)];
        assert clears[1..] == [];
      } else {
        assert clears == [];
      }
    }
    if input.ChangedTo? && !Conforms(input.chosen, iface) {
      var rejected := AssignmentRejected(input.chosen.runtimeType.name, iface.name);
      assert next.log == s.log + (clears + [rejected]);
      assert ClearedCount([rejected]) == 0 by { assert [rejected][1..] == []; }
      ClearedCountAppend(clears, [rejected]);
      assert next.log[|s.log|..] == clears + [rejected];
    } else {
      assert next.log == cleaned.log;
    }
  }

  /** A reference that does not implement the interface, written to the
      property from outside the drawer, is cleared on the next pass and on no
      later one: across any run of passes the log only grows, it gains exactly
      one clean-up line if the run starts from such a reference and none
      otherwise, and after the first pass the reference conforms. */
  lemma {:induction false} ClearsCorruptionOnce(fieldType: RtType, attribute: InterfaceProxyAttribute,
                                                s: PropertyState, inputs: seq<Interaction>)
    requires Validates(fieldType, attribute, ObjectReference)
    ensures var last := RenderFrames(EditorPass(fieldType, attribute, ObjectReference), s, inputs).1;
      |s.log| <= |last.log| && last.log[..|s.log|] == s.log &&
      ClearedCount(last.log[|s.log|..]) ==
        (if inputs != [] && !Conforms(s.value, attribute.interfaceType.value) then 1 else 0) &&
      (inputs != [] ==> Conforms(last.value, attribute.interfaceType.value))
    decreases |inputs|
  {
    if inputs != [] {
      var next := Render(fieldType, attribute, ObjectReference, s, inputs[0]).1;
      var last := RenderFrames(EditorPass(fieldType, attribute, ObjectReference), next, inputs[1..]).1;
      RenderAppendsOneClearIfCorrupt(fieldType, attribute, s, inputs[0]);
      ClearsCorruptionOnce(fieldType, attribute, next, inputs[1..]);
      var step, later := next.log[|s.log|..], last.log[|next.log|..];
      assert last.log[|s.log|..] == step + later;
      ClearedCountAppend(step, later);
    }
  }
}
