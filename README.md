# InterfaceProxy in Dafny

A model of Unity-InterfaceProxy, a Unity Editor extension that restricts a
serialized object-reference field to objects implementing a given interface.
It has three parts:

- **The attribute.** `[InterfaceProxy(typeof(I))]` records the constraint type `I`. It is not
  checked when it is constructed.
- **The property drawer.** The inspector calls it once per GUI pass for each
  decorated field. It decides from four facts what to draw and what to write:
  - whether the property is an object reference;
  - whether the field's declared type is sealed;
  - whether the constraint is a non-null interface;
  - whether the stored or newly chosen object's runtime type implements it.

  Two versions of the drawer exist in the repository, and both are modelled:
  - the current one, under `Editor/`;
  - an earlier one, under `Assets/InterfaceProxy/Scripts/Editor/`.
- **The cast helpers** `TryCast` and `Cast`. Each has a one-generic and a
  two-generic overload.

Types are values of `RtType`, which carries the flags the code reads:
`IsSealed`, `IsInterface` and `IsValueType`. It also holds the set of names
of its supertypes: its base classes and the interfaces it implements, not the
type itself. `IsAssignableFrom(target, t)` holds when `t` is `target` itself
or `target` is in that set. A reference is `Null` or an `Object` with an identity and a
runtime type.

The drawer's GUI is abstracted as follows:
- The user's interaction during a pass is an input: `NoChange` or `ChangedTo(v)`.
- What is drawn is an output: the field enabled, disabled or drawn by Unity's
  default drawer, and an alert that is none, a warning or an error, with its reason.
- `SerializedProperty` is a class. Its fields are the object reference, the
  dirty flag of the owning object, whether modifications were applied, and the
  error log.

Each drawer version has two parts:
- a pure `Render` function, whose contract states the behaviour of each branch;
- a class `InterfaceProxyPropertyDrawer` whose `OnGUI` method updates the
  property in place, as the source does, and is proved equal to `Render`.

`RenderFrames` chains passes. Induction lemmas over it state what holds
across repeated renders.

The cast helpers are pure functions. They return an `Outcome`, which is either
a returned value or the exception thrown.

Two drawing rules are worth noting:
- A sealed field type is drawn editable with a warning
  (`Editor/InterfaceProxyPropertyDrawer.cs:159`; there is no disabled group at
  `Assets/InterfaceProxy/Scripts/Editor/InterfaceProxyPropertyDrawer.cs:141`).
- A property that is not an object reference is drawn enabled with a warning
  (`Editor/InterfaceProxyPropertyDrawer.cs:164`), or by Unity's default drawer
  with no alert
  (`Assets/InterfaceProxy/Scripts/Editor/InterfaceProxyPropertyDrawer.cs:148`).

## Model

| member | source | states |
|---|---|---|
| InterfaceProxyUtilities.CheckInterface | Assets/InterfaceProxy/Scripts/InterfaceProxyUtilities.cs:11-15 | returns normally exactly when `TOut` is an interface, otherwise throws the "must be an interface type" `ArgumentException` |
| InterfaceProxyUtilities.TryCast | Assets/InterfaceProxy/Scripts/InterfaceProxyUtilities.cs:36-49 | a non-interface `TOut` throws `ArgumentException` whatever the source; otherwise it returns true exactly when the source is non-null and implements `TOut`; the out result is then the source itself, and null on failure, including for a null source |
| InterfaceProxyUtilities.TryCastFromObject | Assets/InterfaceProxy/Scripts/InterfaceProxyUtilities.cs:58-62 | the one-generic overload has the same exception, success condition and result as the two-generic one |
| InterfaceProxyUtilities.Cast | Assets/InterfaceProxy/Scripts/InterfaceProxyUtilities.cs:78-90 | the interface check comes first; then a null source throws `ArgumentNullException("source")`; an implementing source is returned unchanged; any other source throws `ArgumentException` naming the source's type and `TOut` |
| InterfaceProxyUtilities.CastFromObject | Assets/InterfaceProxy/Scripts/InterfaceProxyUtilities.cs:99-103 | the one-generic overload throws the same exceptions in the same order as the two-generic one: `ArgumentException` for a non-interface `TOut`, then `ArgumentNullException("source")` for a null source; it returns the source when it implements `TOut` and otherwise throws `ArgumentException` naming both types |
| InterfaceProxyUtilities.CastAgreesWithTryCast | Assets/InterfaceProxy/Scripts/InterfaceProxyUtilities.cs:36-90 | for a non-null source both throw the same exception on a non-interface `TOut`; otherwise `Cast` returns exactly when `TryCast` succeeds, and both yield the same object |
| DrawerCommon.SerializedProperty.PropertyField | Editor/InterfaceProxyPropertyDrawer.cs:133-137 | the change check reports a change exactly when the field is enabled and the user chose something; only then, and only on an object-reference property, is the choice stored |
| DrawerCommon.SerializedProperty.SetDirty | Editor/InterfaceProxyPropertyDrawer.cs:126 | marks the owning object dirty and changes nothing else |
| DrawerCommon.SerializedProperty.ApplyModifiedProperties | Editor/InterfaceProxyPropertyDrawer.cs:149 | records that modifications were applied and changes nothing else |
| DrawerCommon.SerializedProperty.LogError | Editor/InterfaceProxyPropertyDrawer.cs:123 | appends exactly one entry to the log and changes nothing else |
| EditorDrawer.IsUnsupportedType | Editor/InterfaceProxyPropertyDrawer.cs:83-86 | false for null; true exactly when the object is non-null and does not implement the type; for an interface, true exactly when a non-null object fails `TryCast` |
| EditorDrawer.ClearUnsupported | Editor/InterfaceProxyPropertyDrawer.cs:121-127 | the clean-up leaves a conforming reference; a conforming state is untouched; a non-conforming reference becomes null and its owner is marked dirty, with one log line naming its type and the interface; modifications are not applied |
| EditorDrawer.Render | Editor/InterfaceProxyPropertyDrawer.cs:101-166 | per branch: a non-reference property is drawn enabled with a warning and nothing is written. A sealed field type is drawn enabled with a warning and the user's pick is kept unchecked. A null or non-interface constraint is drawn disabled with an error and nothing is written. With a valid constraint: a non-conforming stored value is cleared, logged once and marked dirty (and, with no change, nothing else is written); a change to null or to an implementing object is kept; any other change is reverted to the post-clean-up snapshot and logged; every change sets dirty and applied; no change on a conforming value writes nothing; afterwards the value is null or implements the interface |
| EditorDrawer.InterfaceProxyPropertyDrawer.DisplayFieldWithAlert | Editor/InterfaceProxyPropertyDrawer.cs:88-99 | draws the field enabled or disabled with the given alert; only an enabled object-reference field stores the user's choice |
| EditorDrawer.InterfaceProxyPropertyDrawer.OnGUI | Editor/InterfaceProxyPropertyDrawer.cs:101-166 | the in-place update leaves the property in exactly the state `Render` gives and draws what it draws; in the validating branch the stored reference then conforms |
| EditorDrawerFrames.NonInterfaceConstraintIsTerminal | Editor/InterfaceProxyPropertyDrawer.cs:152-155 | over any number of passes a null or non-interface constraint leaves the property untouched, and every pass draws the field disabled with the error icon |
| EditorDrawerFrames.LastPick | Editor/InterfaceProxyPropertyDrawer.cs:157-160 | the value left by passes that keep every pick unchecked: the object chosen in the last pass that changed the field, the value after the earlier passes when the last pass changed nothing, the original value when no pass changed it |
| EditorDrawerFrames.SealedFieldIsNeverChecked | Editor/InterfaceProxyPropertyDrawer.cs:157-160 | over any number of passes on a sealed field type the whole state is the starting state with only the value replaced by the last pick: the dirty flag, the applied flag and the log are never written, and the field holds the object picked in the last pass that changed it (the original value if none did), whatever its type; every pass draws an enabled field with the warning |
| EditorDrawerFrames.RenderAppendsOneClearIfCorrupt | Editor/InterfaceProxyPropertyDrawer.cs:121-146 | a validating pass only appends to the log, and appends a clean-up line exactly when the stored reference did not conform |
| EditorDrawerFrames.ClearsCorruptionOnce | Editor/InterfaceProxyPropertyDrawer.cs:121-130 | over any non-empty run of passes the log only grows; it gains exactly one clean-up line if the starting reference did not conform and none otherwise; the final reference conforms |
| AssetsDrawer.Render | Assets/InterfaceProxy/Scripts/Editor/InterfaceProxyPropertyDrawer.cs:78-150 | per branch: a non-reference property goes to the default drawer with no alert and nothing is written. A sealed field type is drawn enabled with a warning and is unchecked. A null or non-interface constraint is drawn disabled with an error and nothing is written. With a valid constraint: no change writes nothing, even on a non-conforming value; a change to an implementing object is reverted and logged; a change to null or to a non-implementing object is kept; every change sets dirty and applied |
| AssetsDrawer.InterfaceProxyPropertyDrawer.OnGUI | Assets/InterfaceProxy/Scripts/Editor/InterfaceProxyPropertyDrawer.cs:78-150 | the in-place update leaves the property in exactly the state `Render` gives and draws what it draws |
| AssetsDrawerFrames.KeepsCorruptionWhileUnchanged | Assets/InterfaceProxy/Scripts/Editor/InterfaceProxyPropertyDrawer.cs:97-105 | with no pre-draw clean-up, a stored reference (even a non-conforming one) survives any number of passes without a user change, and each pass draws an enabled field with no alert |
| DrawerVersions.AssetsDrawerKeepsNonImplementingObject | Assets/InterfaceProxy/Scripts/Editor/InterfaceProxyPropertyDrawer.cs:111-116 | as written, an `ICloneable`-restricted field keeps a dragged-in asset that does not implement `ICloneable`, and logs nothing |
| DrawerVersions.AssetsDrawerRefusesImplementingObject | Assets/InterfaceProxy/Scripts/Editor/InterfaceProxyPropertyDrawer.cs:111-116 | as written, the same field reverts a dragged-in asset that does implement `ICloneable`, and logs that it does not |
| DrawerVersions.EditorDrawerOnTheSameChanges | Editor/InterfaceProxyPropertyDrawer.cs:139-146 | the `Editor/` drawer refuses and logs the non-implementing asset, and keeps the implementing one without logging |
| DrawerVersions.OnlyEditorDrawerKeepsConformance | Assets/InterfaceProxy/Scripts/Editor/InterfaceProxyPropertyDrawer.cs:112 | for every validating field, state and non-conforming choice, the `Assets/` drawer ends with a non-conforming reference and the `Editor/` drawer with a conforming one |
| DrawerVersions.VersionsAgreeOutsideValidation | Assets/InterfaceProxy/Scripts/Editor/InterfaceProxyPropertyDrawer.cs:122-149 | outside the validating branch both versions write the same state, and on object-reference properties they draw the same thing |

## Left out

- GUI drawing is abstracted to an input and outputs. This covers `EditorGUI.PropertyField`, the disabled groups, `LabelField` and the change check. The host's rendering is not part of this model.
- `GetAlertRect` is left out. It does floating-point layout.
- The reflection lookups of Unity's non-public `GetHelpIcon` and `DefaultPropertyField` are left out. They are calls into code not shown.
- The lazily cached `GUIContent` properties are left out. Only the alert's severity and reason (its tooltip's meaning) are modelled.
- `SetDirty`, `ApplyModifiedProperties` and `Debug.LogError` are reduced to two flags and a log. Unity's serialization and undo are not modelled.
- A flag cannot count how often the owner was marked dirty. "Cleaned once per corruption" is therefore stated through the log's clean-up lines.
- Log lines and exception messages are structured entries that carry the type names they print, not formatted strings.
- The value of a property that is not an object reference is not modelled. The user may edit it through the enabled or default field, and the model keeps the object reference and flags unchanged.
- After `OnGUI` returns, the inspector applies its own modifications. That step is the host's and is not modelled.
- Unity's "fake null" for destroyed objects, and the `==` overload behind it, is not modelled. A reference is either null or a live object.
- InterfaceProxyUtilities.Cast: the `Nullable<T>` source is left out. A null nullable skips the null check because it is a value type, and it then depends on CLR boxing rules. `Cast` therefore requires that a source whose static type is a value type is non-null.
- InterfaceProxyUtilities.TryCast, InterfaceProxyUtilities.TryCastFromObject, InterfaceProxyUtilities.Cast, InterfaceProxyUtilities.CastFromObject: a value-type source that is cast to an interface is boxed. The model does not distinguish the box from the value, and each of these returns the source itself.
- The example components, their `Start` methods and the test assets are not part of this model. They only supply the concrete types used in `DrawerVersions`.

## Findings

| source | as written | input that shows it | evidently intended | confidence | as-written member | corrected member |
|---|---|---|---|---|---|---|
| Assets/InterfaceProxy/Scripts/Editor/InterfaceProxyPropertyDrawer.cs:112 | reverts the user's change when the new object is non-null and DOES implement the interface, and keeps it otherwise | an `UnityEngine.Object` field with `[InterfaceProxy(typeof(ICloneable))]`; the user drags in a `TestEmptyScriptableObject`, which is kept, or a `TestCloneableScriptableObject`, which is reverted with an error saying it does not implement `ICloneable` | revert when the new object is non-null and does NOT implement the interface, as the comment on line 111 and the message on line 114 say; the `Editor/` version does this | high; not executed | DrawerVersions.AssetsDrawerKeepsNonImplementingObject | EditorDrawer.Render |
