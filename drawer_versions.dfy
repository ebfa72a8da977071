/** The two versions of the drawer side by side. The fields of the example
    component make the concrete cases: an `UnityEngine.Object` field restricted
    to `System.ICloneable`, and the two test assets, one implementing
    `ICloneable` and one not. */
module DrawerVersions {
  import opened RuntimeTypes
  import opened DrawerCommon
  import EditorDrawer
  import AssetsDrawer

  const ICloneable := RtType("System.ICloneable", false, true, false, {})
  const UnityObject := RtType("UnityEngine.Object", false, false, false, {"System.Object"})
  const CloneableAsset := Object(1, RtType("TestCloneableScriptableObject", false, false, false,
    {"UnityEngine.ScriptableObject", "UnityEngine.Object", "System.Object", "System.ICloneable"}))
  const EmptyAsset := Object(2, RtType("TestEmptyScriptableObject", false, false, false,
    {"UnityEngine.ScriptableObject", "UnityEngine.Object", "System.Object"}))
  const RestrictedToCloneable := InterfaceProxyAttribute(Some(ICloneable))
  const Unassigned := PropertyState(Null, false, false, [])

  /** As written, the `Assets/` drawer keeps a test asset that does not
      implement `ICloneable` in a field restricted to `ICloneable`, logging nothing. */
  lemma AssetsDrawerKeepsNonImplementingObject()
    ensures var after := AssetsDrawer.Render(UnityObject, RestrictedToCloneable, ObjectReference,
                                             Unassigned, ChangedTo(EmptyAsset)).1;
      after.value == EmptyAsset && !Conforms(after.value, ICloneable) && after.log == []
  {
  }

  /** ... and refuses the asset that does implement it, with a log line saying
      that it does not. */
  lemma AssetsDrawerRefusesImplementingObject()
    ensures var after := AssetsDrawer.Render(UnityObject, RestrictedToCloneable, ObjectReference,
                                             Unassigned, ChangedTo(CloneableAsset)).1;
      after.value == Null &&
      after.log == [AssignmentRejected("TestCloneableScriptableObject", "System.ICloneable")]
  {
  }

  /** The `Editor/` drawer does the opposite on the same two changes, as both
      versions' comments intend. */
  lemma EditorDrawerOnTheSameChanges()
    ensures var after := EditorDrawer.Render(UnityObject, RestrictedToCloneable, ObjectReference,
                                             Unassigned, ChangedTo(EmptyAsset)).1;
      after.value == Null &&
      after.log == [AssignmentRejected("TestEmptyScriptableObject", "System.ICloneable")]
    ensures var after := EditorDrawer.Render(UnityObject, RestrictedToCloneable, ObjectReference,
                                             Unassigned, ChangedTo(CloneableAsset)).1;
      after.value == CloneableAsset && after.log == []
  {
  }

  /** For every validating field and every object that does not implement the
      interface, a change to that object leaves a non-conforming reference
      under the `Assets/` drawer and a conforming one under the `Editor/` drawer. */
  lemma OnlyEditorDrawerKeepsConformance(fieldType: RtType, attribute: InterfaceProxyAttribute,
                                         s: PropertyState, chosen: Ref)
    requires Validates(fieldType, attribute, ObjectReference)
    requires !Conforms(chosen, attribute.interfaceType.value)
    ensures !Conforms(AssetsDrawer.Render(fieldType, attribute, ObjectReference, s, ChangedTo(chosen)).1.value,
                      attribute.interfaceType.value)
    ensures Conforms(EditorDrawer.Render(fieldType, attribute, ObjectReference, s, ChangedTo(chosen)).1.value,
                     attribute.interfaceType.value)
  {
  }

  /** Outside the validating branch the two versions write the same state,
      and on object-reference properties they draw the same thing. */
  lemma VersionsAgreeOutsideValidation(fieldType: RtType, attribute: InterfaceProxyAttribute,
                                       propertyType: PropertyType, s: PropertyState, input: Interaction)
    requires !Validates(fieldType, attribute, propertyType)
    ensures EditorDrawer.Render(fieldType, attribute, propertyType, s, input).1 ==
            AssetsDrawer.Render(fieldType, attribute, propertyType, s, input).1
    ensures propertyType == ObjectReference ==>
      EditorDrawer.Render(fieldType, attribute, propertyType, s, input).0 ==
      AssetsDrawer.Render(fieldType, attribute, propertyType, s, input).0
  {
  }
}
