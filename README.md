# toolkit.scene scene management, modelled in Dafny

This project models the scene-management core of the Unity package `toolkit.scene` and proves properties of that model. It covers five parts:

- **SceneReference** (`scene_reference.dfy`). A serializable reference to a scene that keeps two fields in step: a stored path string (all a player build has) and an editor-only asset handle. The path setter and the two serialization hooks reconcile them. The asset wins when it is a valid scene asset. A path that no longer resolves is cleared. The deferred after-deserialize handler unsubscribes itself, so it runs once per subscription.
- **SubScene** (`sub_scene.dfy`). A component that opens another scene additively in the editor. It moves that scene's root objects under its own transform, flagged `DontSave`, and gives them back before saving and closing. It tracks dirty markers on its GameObject and on every transform below it. The file also holds the scene name derived from a generated sub-scene asset path.
- **Build settings helpers** (`scene_reference_drawer.dfy`). These come from the SceneReference inspector drawer and act on the ordered build list of `{guid, enabled}` entries: first-match lookup, enable/disable of the first match, append, and removal of every match. The add and remove dialogs can be cancelled. The drawer also resets the stored path when the object field changes.
- **SubScene editor helpers** (`sub_scene_editor.dfy`). The counter that makes the "New Subscene From Selection" menu command run once for a multi-object selection. The parent-chain walks `GetDepth` and `SubsceneParent` (`hierarchy.dfy` holds the parent links they walk). The load toggle drawn beside each SubScene in the hierarchy.
- **TransmissionCollection inspector** (`transmission_editor.dfy`). The reorderable-list callbacks: rename, add, reorder and remove. Removal clamps the selection. The set of renamed transmissions is saved when the inspector is disabled.

Engine services are parameters or state:

- The asset database is a pair of maps, path to asset and asset to path (`assets.dfy`).
- The scene the editor opens and the objects it creates are inputs to `OpenSubscene`.
- `EditorSceneManager.SaveScene` is an input boolean. Each call records the root objects the saved scene held at that moment.
- Dialog answers are inputs.
- `Application.isPlaying` is an input.
- `Mathf.Clamp`'s result is an input. It is constrained only where the clamp range is not empty.

Methods on the classes assign fields as the source does. Each method's postcondition ties the new state to a function on values. The lemmas state the properties of those functions.

## Model

| member | source | states |
|---|---|---|
| Base.LastIndexOf | Runtime/SubScene.cs:344 | String.LastIndexOf(char) is -1 exactly when the character is absent; otherwise the character is at that position and nowhere after it |
| Base.FileNameWithoutExtension | Runtime/SceneReference.cs:81 | the file name of a path contains no '/' and is no longer than the path |
| Base.FileNameOfSplitPath | Runtime/SceneReference.cs:81 | the file name without extension of `dir/name.ext` is `name` |
| Assets.AssetPath | Runtime/SceneReference.cs:113-118 | GetAssetPath of a null or deleted asset is empty; for a live asset it is a non-empty path at which the index stores that same asset |
| Assets.LoadSceneAssetAtPath | Runtime/SceneReference.cs:106-111 | a found asset is a scene stored at the path, live, and reports that path back |
| Assets.AssetPathToGuid | Editor/SceneReferenceDrawer.cs:320-321 | the GUID of the asset stored at the path; the empty GUID when nothing is stored there |
| SceneReferences.IsValidSceneAsset | Runtime/SceneReference.cs:42-51 | false for a null handle and for a non-scene asset; a valid asset has a non-empty path |
| SceneReferences.PathOf | Runtime/SceneReference.cs:59-71 | in the editor, the asset's path, or "" when the asset is null; in a build, the stored string unchanged |
| SceneReferences.NameOf | Runtime/SceneReference.cs:81 | the scene name never contains a directory separator |
| SceneReferences.WithPath | Runtime/SceneReference.cs:72-78 | the setter stores the string; the asset becomes null for "" and the scene asset looked up at the path otherwise |
| SceneReferences.BeforeSerialize | Runtime/SceneReference.cs:120-138 | a valid asset or an empty path: the asset's path overwrites the stored path, nothing marked dirty; otherwise: the asset is re-resolved from the path, the path is cleared when that fails, and all scenes are marked dirty (the path is read through `ScenePathFromAsset` (GetScenePathFromAsset) and the asset through `SceneAssetFromPath` (GetSceneAssetFromPath)) |
| SceneReferences.AfterDeserialize | Runtime/SceneReference.cs:140-163 | both fields untouched when the asset is valid or the path empty; otherwise re-resolved with the path cleared on failure, and marked dirty only outside play mode (the asset is re-resolved through `SceneAssetFromPath` (GetSceneAssetFromPath)) |
| SceneReferences.BeforeSerializeStoresEditorPath | Runtime/SceneReference.cs:120-138 | after serialization the stored path a build reads equals the path the editor reports |
| SceneReferences.SerializeValidAssetTwice | Runtime/SceneReference.cs:133-137 | with a valid asset the stored path becomes that asset's path, and a second serialization changes nothing |
| SceneReferences.BeforeSerializeSettles | Runtime/SceneReference.cs:120-138 | serializing twice equals serializing once, unless the first run leaves a live non-scene asset |
| SceneReferences.NonSceneAssetDoesNotSettle | Runtime/SceneReference.cs:120-138 | for every live non-scene asset in a consistent index: with an empty stored path the first run copies the asset's path, and a second run clears both fields |
| SceneReferences.AfterDeserializeResolves | Runtime/SceneReference.cs:144-157 | after the handler the asset is a valid scene or the stored path is empty |
| SceneReferences.AfterDeserializeIdempotent | Runtime/SceneReference.cs:140-163 | running the handler again changes nothing and marks nothing dirty |
| SceneReferences.ClearedPathRestoredBySerialize | Runtime/SceneReference.cs:133-137 | with a valid asset, clearing the stored path is undone by the next serialization |
| SceneReferences.SetPathThenGet | Runtime/SceneReference.cs:59-78 | after setting `path`, a build reads the string back; the editor reads it back when a scene asset is stored there, and "" otherwise |
| SceneReferences.SceneReference.SetPath | Runtime/SceneReference.cs:72-78 | the fields become the setter's result |
| SceneReferences.SceneReference.OnBeforeSerialize | Runtime/SceneReference.cs:89-94 | the fields and the dirty call are those of the before-serialize rule |
| SceneReferences.SceneReference.OnAfterDeserialize | Runtime/SceneReference.cs:97-103 | one more subscription of the deferred handler |
| SceneReferences.SceneReference.HandleAfterDeserialize | Runtime/SceneReference.cs:140-163 | removes its own subscription first, then applies the after-deserialize rule |
| Hierarchy.AncestorsOfChild | Editor/SubSceneEditor.cs:301-306 | in a forest, the ancestors of a child are its parent followed by the parent's ancestors |
| Hierarchy.NotOwnAncestor | Editor/SubSceneEditor.cs:285-296 | in a forest, no object is among its own ancestors |
| SubScenes.ChildInSubtree | Runtime/SubScene.cs:202-204 | every direct child of the owner is among the transforms GetComponentsInChildren returns |
| SubScenes.Adopt | Runtime/SubScene.cs:184-190 | every root of EditingScene is moved to the owner's scene, parented to the owner and flagged DontSave; every other object is unchanged |
| SubScenes.Release | Runtime/SubScene.cs:202-210 | every direct child of the owner has DontSave cleared, is detached and moved into EditingScene; every other object is unchanged |
| SubScenes.Cleaned | Runtime/SubScene.cs:259-267 | ClearDirty removes exactly the markers IsDirty inspects, and afterwards the sub-scene is not dirty |
| SubScenes.SaveStep | Runtime/SubScene.cs:236-257 | returns false with nothing changed when playing or not dirty; otherwise one save, objects given back and taken again whatever the result, result = save result, dirty cleared only on success |
| SubScenes.OpenStep | Runtime/SubScene.cs:78-81 | an invalid scene reference gives false and no state change |
| SubScenes.CloseStepAsWritten | Runtime/SubScene.cs:135-138 | closing an unloaded sub-scene returns true and changes nothing (the source's ordering) |
| SubScenes.CloseStepSaveFirst | Runtime/SubScene.cs:135-138 | closing an unloaded sub-scene returns true and changes nothing (corrected ordering, save moved first) |
| SubScenes.OpenLoadsRoots | Runtime/SubScene.cs:74-114 | opening with a valid reference returns true ("True if the Scene is open") with the opened scene loaded as EditingScene; every root of the opened scene becomes a DontSave child of the owner in the owner's scene, the scene keeps no roots, and nothing is left dirty |
| SubScenes.LoadTakesRoots | Runtime/SubScene.cs:176-190 | with EditingScene loaded, its roots become the owner's new DontSave children in the owner's scene and it keeps no roots; otherwise nothing changes |
| SubScenes.UnloadGivesBackChildren | Runtime/SubScene.cs:197-211 | afterwards the owner has no children, and EditingScene's roots are its old roots plus the owner's old children |
| SubScenes.UnloadAfterLoad | Runtime/SubScene.cs:184-210 | unload after load returns every original root to EditingScene, parentless with DontSave cleared; exactly the original objects when the owner had no children and no root was DontSave |
| SubScenes.LoadAfterUnload | Runtime/SubScene.cs:244-250 | load after unload restores a composed hierarchy exactly |
| SubScenes.SaveWritesChildren | Runtime/SubScene.cs:244-250 | a save that goes ahead writes one scene holding every child of the owner, and leaves a composed hierarchy as it was |
| SubScenes.SaveTwice | Runtime/SubScene.cs:252-256 | after a successful save a second save returns false and changes nothing |
| SubScenes.CloseAsWrittenOutcome | Runtime/SubScene.cs:129-171 | for every loaded sub-scene, the source's close returns true and unloads in the editor ("True if the subscene is closed"), and returns false with the scene still loaded in play mode; a save runs exactly when the sub-scene is dirty, a save is requested, and it is still dirty after the children are given back; a save that runs records every former child and leaves them all under the owner; otherwise nothing is saved and the owner keeps no children; no inspected marker is left |
| SubScenes.CloseSavesThenGivesBack | Runtime/SubScene.cs:152-169 | an editor close with a dirty sub-scene and save requested (flag or dialog) saves once with all children; otherwise it does not save; afterwards the scene is unloaded and the owner has no children |
| SubScenes.CloseAsWrittenSkipsSave | Runtime/SubScene.cs:140-160 | on the Findings world (owner 0, child 5): as written, a close with SaveSubsceneOnClose whose only dirty marker is on the child's transform saves nothing |
| SubScenes.CloseSavesDirtyChild | Runtime/SubScene.cs:140-160 | on the Findings world (owner 0, child 5): with the save moved first, the same close saves the scene holding the child |
| SubScenes.CloseAsWrittenLeavesChildren | Runtime/SubScene.cs:140-167 | on the Findings world (owner 0, child 5): as written, when the SubScene GameObject itself is dirty the save re-parents the child, and the scene is closed with the child still under the owner, flagged DontSave |
| SubScenes.SceneNameFromAssetPath | Runtime/SubScene.cs:344-345 | None exactly when the text after the last '/' is shorter than ".unity", where Substring would throw; otherwise a name of that length less ".unity", containing no '/' |
| SubScenes.SceneNameOfAssetPath | Runtime/SubScene.cs:344-345 | for `dir/name.unity` the derived scene name is `name`, the same name the SceneReference reports for that path |
| SubScenes.SceneNameOfRequestedPath | Runtime/SubScene.cs:341-345 | the requested path `Assets/Scenes/Subscenes/<name>.unity` yields `<name>` (the requested path is `SubsceneAssetPath`) |
| SubScenes.SubScene.LoadSubsceneGameObjects | Runtime/SubScene.cs:176-195 | the loop over EditingScene's roots leaves the adopted objects (value form `LoadStep`) |
| SubScenes.SubScene.UnloadSubsceneGameObjects | Runtime/SubScene.cs:197-211 | the loop over the transforms below the owner, skipping the owner and deeper descendants, leaves the released objects (value form `UnloadStep`; the transforms visited are `Subtree`) |
| SubScenes.SubScene.ClearDirty | Runtime/SubScene.cs:259-267 | the loop leaves exactly the cleaned markers (value form `CleanStep`) |
| SubScenes.SubScene.IsDirty | Runtime/SubScene.cs:269-280 | true iff the owner's GameObject or any transform at or below it is marked (value form `Dirty` over `Subtree`) |
| SubScenes.SubScene.SaveSubScene | Runtime/SubScene.cs:236-257 | state and result are those of the save rule |
| SubScenes.SubScene.OpenSubscene | Runtime/SubScene.cs:78-118 | state and result are those of opening; the owner stays outside EditingScene's roots |
| SubScenes.SubScene.CloseScene | Runtime/SubScene.cs:166 | EditingScene is unloaded and its root objects destroyed (value form `CloseSceneStep`) |
| SubScenes.SubScene.CloseSubscene | Runtime/SubScene.cs:135-171 | state and result are those of the close in the source's order |
| SubScenes.SubScene.CloseSubsceneSaveFirst | Runtime/SubScene.cs:135-171 | state and result are those of the corrected close, which saves before giving the children back |
| SubScenes.SubScene.OnDestroy | Runtime/SubScene.cs:215-225 | runs the source's close with SaveSubsceneOnClose = true in the editor and false in play mode |
| SceneReferenceDrawer.IndexOfGuid | Editor/SceneReferenceDrawer.cs:323-333 | the result lies in [-1, length); it is -1 iff no entry has the GUID; otherwise that entry has it and no earlier one does |
| SceneReferenceDrawer.BuildSceneOfFinds | Editor/SceneReferenceDrawer.cs:310-334 | a non-scene object gives build index -1, no entry and the empty GUID; a scene asset gives its own GUID, which no other live asset carries, its path, and the first entry with that GUID, or -1 when there is none |
| SceneReferenceDrawer.WithSceneState | Editor/SceneReferenceDrawer.cs:339-350 | the length of the list is unchanged |
| SceneReferenceDrawer.WithSceneStateKeepsIndices | Editor/SceneReferenceDrawer.cs:339-350 | only the first matching entry changes, and it takes the new state; every other entry and every GUID lookup is unchanged |
| SceneReferenceDrawer.AddedScenes | Editor/SceneReferenceDrawer.cs:355-384 | a cancelled dialog leaves the list unchanged; otherwise exactly one entry, the scene's GUID with the chosen state, is appended to the unchanged list |
| SceneReferenceDrawer.IndexOfGuidAppend | Editor/SceneReferenceDrawer.cs:380-383 | after an append a lookup finds the old entry if there was one, else the appended one at the old length |
| SceneReferenceDrawer.AddedSceneFound | Editor/SceneReferenceDrawer.cs:355-384 | adding a scene that is not listed puts it at the old length (the index the Add button announces) with the chosen state; adding a listed one leaves the lookup unchanged |
| SceneReferenceDrawer.RemoveAllGuid | Editor/SceneReferenceDrawer.cs:431-436 | no remaining entry has the GUID, and the list does not grow |
| SceneReferenceDrawer.RemoveAllGuidKeepsOthers | Editor/SceneReferenceDrawer.cs:431-436 | every entry with another GUID is kept as many times as it occurred |
| SceneReferenceDrawer.RemoveAllGuidAppend | Editor/SceneReferenceDrawer.cs:431-436 | removal keeps the relative order of the remaining entries: on two joined lists it is the join of the two removals |
| SceneReferenceDrawer.RemoveAllGuidAbsent | Editor/SceneReferenceDrawer.cs:431-436 | a list without the GUID is left unchanged, order included |
| SceneReferenceDrawer.RemoveChoice | Editor/SceneReferenceDrawer.cs:402-422 | "Just Disable" is chosen only for an enabled scene; for a disabled scene, removal happens iff the dialog is confirmed |
| SceneReferenceDrawer.RemovedSceneNotFound | Editor/SceneReferenceDrawer.cs:389-437 | cancel changes nothing; removal leaves no entry with the GUID and keeps all others; "just disable" keeps the index and disables the entry |
| SceneReferenceDrawer.ObjectFieldEdit | Editor/SceneReferenceDrawer.cs:62-70 | an unchanged object field changes nothing; a change stores the chosen object, and resets the stored path to "" when the chosen object is not a scene asset or its GUID has no build entry, keeping the path otherwise |
| SceneReferenceDrawer.ObjectFieldEditThenSerialize | Editor/SceneReferenceDrawer.cs:62-70 | after choosing a valid scene and serializing, the stored path is that scene's path whether or not it was reset; clearing the field gives an empty reference |
| SceneReferenceDrawer.BuildRegistry.GetBuildScene | Editor/SceneReferenceDrawer.cs:310-334 | the scan returns the build-scene record of the lookup (value form `BuildSceneOf`) |
| SceneReferenceDrawer.BuildRegistry.SetBuildSceneState | Editor/SceneReferenceDrawer.cs:339-350 | the list becomes the state-set list, and is stored back only on a match |
| SceneReferenceDrawer.BuildRegistry.AddBuildScene | Editor/SceneReferenceDrawer.cs:355-384 | the list becomes the list with the entry added (the dialog answer is `AddChoice`) |
| SceneReferenceDrawer.BuildRegistry.RemoveBuildScene | Editor/SceneReferenceDrawer.cs:389-437 | the list becomes the list after the chosen removal action (value form `RemovedScenes`, the action chosen by `RemoveActionOf`) |
| SceneReferenceDrawer.BuildRegistry.OnGUI | Editor/SceneReferenceDrawer.cs:50-79 | a changed field stores the chosen asset and resets the path when the object has no build entry; the build info is drawn iff the GUID is not empty |
| SubSceneEditor.GuardStep | Editor/SubSceneEditor.cs:73-80 | a call either proceeds and resets the counter to 0, or returns early with the counter incremented and still below the selection size; it returns early exactly while the incremented counter is below the selection size, and otherwise proceeds with the counter reset |
| SubSceneEditor.OneRunPerSelection | Editor/SubSceneEditor.cs:73-80 | from 0 with n selected, the first n-1 calls return early and the n-th proceeds and resets the counter (`CounterAfter` is the counter after a number of calls) |
| SubSceneEditor.SelectionCounter.CreateCustomGameObject | Editor/SubSceneEditor.cs:70-90 | the counter and the decision follow the guard |
| SubSceneEditor.SelectionCounter.Initialize | Editor/SubSceneEditor.cs:93-99 | the counter is reset to 0 |
| SubSceneEditor.GetDepth | Editor/SubSceneEditor.cs:298-308 | the count is the number of strict ancestors, 0 for a root |
| SubSceneEditor.DepthOfChild | Editor/SubSceneEditor.cs:298-308 | a child is one level deeper than its parent |
| SubSceneEditor.SubsceneParent | Editor/SubSceneEditor.cs:285-296 | the nearest strict ancestor that carries a SubScene, never the object itself; None iff no ancestor carries one |
| SubSceneEditor.ToggleOpensOrCloses | Editor/SubSceneEditor.cs:202-219 | an unchanged toggle does nothing; switching off runs the source's close and unloads; when the dialog answers Save and the sub-scene is still dirty after its children are given back, one save records every former child and the children stay under the owner; otherwise nothing is saved and the owner keeps no children; switching on with a valid reference loads the opened scene with each of its roots taken as a DontSave child of the owner and nothing dirty, and with an invalid reference changes nothing |
| SubSceneEditor.DrawToggle | Editor/SubSceneEditor.cs:202-219 | the state follows the toggle rule over the source's close, and the hierarchy is repainted iff the toggle changed (value form `ToggleStep`) |
| TransmissionEditor.RemovedAt | Editor/TransmissionCollectionEditor.cs:138 | RemoveAt shortens the list by one |
| TransmissionEditor.RemovedAtKeepsOthers | Editor/TransmissionCollectionEditor.cs:136-139 | exactly the element at the index is removed; the others keep their order |
| TransmissionEditor.MovedPermutes | Editor/TransmissionCollectionEditor.cs:124-127 | a drag-reorder is a permutation that puts the dragged element at its target position |
| TransmissionEditor.ClampedIndexInRange | Editor/TransmissionCollectionEditor.cs:140 | after removal the clamped selection is within the shortened, non-empty list |
| TransmissionEditor.TransmissionCollectionEditor.OnEnable | Editor/TransmissionCollectionEditor.cs:27-33 | the list control shows a copy of the collection's list, and nothing is dirty |
| TransmissionEditor.TransmissionCollectionEditor.DrawElementCallback | Editor/TransmissionCollectionEditor.cs:35-59 | an index outside the list, or no edit, changes nothing; an edit renames that transmission and records it as dirty (the range test is `Between`, inclusive) |
| TransmissionEditor.TransmissionCollectionEditor.ElementHeightCallback | Editor/TransmissionCollectionEditor.cs:88-102 | the height is non-zero iff the index lies within the list (the range test is `Between`, inclusive) |
| TransmissionEditor.TransmissionCollectionEditor.OnCanAddCallback | Editor/TransmissionCollectionEditor.cs:104-107 | adding is always permitted |
| TransmissionEditor.TransmissionCollectionEditor.OnAddDropdownCallback | Editor/TransmissionCollectionEditor.cs:109-122 | exactly one new transmission is appended, named, stored in the collection's asset and shown by the list |
| TransmissionEditor.TransmissionCollectionEditor.OnReorderCallback | Editor/TransmissionCollectionEditor.cs:124-127 | the collection's list becomes the reordered list |
| TransmissionEditor.TransmissionCollectionEditor.Reorder | Editor/TransmissionCollectionEditor.cs:124-127 | after a drag (`Moved`, the ReorderableList move) the collection's list is the moved list, and the selection is the drop position, holding the dragged element |
| TransmissionEditor.TransmissionCollectionEditor.OnCanRemoveCallback | Editor/TransmissionCollectionEditor.cs:129-132 | removal is permitted iff the list is non-empty |
| TransmissionEditor.TransmissionCollectionEditor.OnRemoveCallback | Editor/TransmissionCollectionEditor.cs:134-145 | the selected element leaves the list and the asset, the list control shows the shortened list, and the selection becomes the clamp result (the clamp result is constrained by `ClampContract`) |
| TransmissionEditor.TransmissionCollectionEditor.OnDisable | Editor/TransmissionCollectionEditor.cs:69-75 | every dirty transmission is saved exactly once |

## Left out

- Play mode: `OpenSubscene`'s asynchronous load, its completion callback and the active-scene restore (Runtime/SubScene.cs:84-102) are not modelled; the toggle and `OpenSubscene` are modelled outside play mode only. In play mode `CloseSubscene` is modelled up to its return: the children are given back and the scene is still loaded, because `UnloadSceneAsync` completes later.
- `CloseSubscene` calls the editor-only `IsDirty` and `ClearDirty` outside `#if UNITY_EDITOR`, so a player build would not compile it; the model follows the editor build.
- `GetComponentsInChildren<Transform>()` skips inactive objects; objects have no active flag in the model, so every transform below the owner is visited.
- Sibling order of transforms and the order in which `GetRootGameObjects` returns roots are not modelled; loops over them visit the objects in an arbitrary order, and the proved results do not depend on that order.
- SubScenes.Adopt: the scene written for an adopted object is the owner's recorded scene. That is the owner's real scene when the owner is a root; a child's scene is its root's scene either way.
- SubScenes.Adopt, SubScenes.Release: reparenting, moving objects between scenes and changing `hideFlags` add no dirty marker. Whether the engine marks these objects dirty is not modelled. `OpenSubscene` clears the markers right after loading, which suggests that it may. The first row under "## Findings" depends on this.
- SubScenes.SubScene.CloseScene: destroying a closed scene removes its root objects; their descendants remain in the map but are no longer reachable from any scene root.
- `EditingScene.isSubScene`, `Debug.Log`, `RepaintHierarchyWindow`, `SetExpanded` and `ItemIsExpanded` have no effect on the modelled state and are left out; `SetExpanded` and `ItemIsExpanded` use reflection on editor internals.
- The Revert button calls `CloseSubscene(false, true)` although `CloseSubscene` takes one argument; the inspector buttons (`OnInspectorGUI`) are not modelled.
- `Start` with `AutoLoadScene` only calls `OpenSubscene`, which is modelled.
- `SceneGUID` (a Hash128 of the reference's hash code), `ReconnectEditingScene`, and the asset and scene creation in `CreateSubsceneFromGameObjects` other than its scene-name derivation are engine calls and are not modelled. `GenerateUniqueAssetPath` is treated as returning some `dir/name.unity` path.
- `CountDecendants` is unused and is not modelled.
- IMGUI drawing and layout (`DrawSceneInfoGUI`, `GetPropertyHeight`, `DrawUtils`, hierarchy painting), and the read-only check `IsReadOnly`/`QueryBuildSettingsStatus` (wall-clock caching and a version-control query) are not modelled.
- `Path.GetFileNameWithoutExtension` is pinned to '/' as the only separator and the last '.' as the extension start; `Index.Between` is pinned as inclusive at both ends.
- TransmissionEditor.TransmissionCollectionEditor.OnRemoveCallback: `Mathf.Clamp` is an input constrained only when the clamp range is non-empty, so the selection after removing the last element is not stated.
- TransmissionEditor.TransmissionCollectionEditor.DrawElementCallback: a list element whose object reference is null would make the source throw; listed transmissions are assumed to exist.
- The list control and the collection can share one `List` object after an add or remove. The model keeps both as values that every callback leaves equal, so aliasing itself is not represented.
- `AssetDatabase.SaveAssets`, `Refresh` and the asset-file contents beyond membership are not modelled. `AssetUtil.SaveSubAsset` is recorded as a call log.
- `TransmissionSender`, `TransmissionReceiver` and `TransmissionCollection` are thin wrappers around a `Transmission` type that is not part of this model.
- SceneReferenceDrawer.BuildRegistry.RemoveBuildScene requires an entry for the scene when the dialog is shown: the source dereferences `buildScene.scene`, which the drawer only reaches for a listed scene.
- SubScenes.SubScene.OpenSubscene requires the opened scene's objects to be new and the owner not to be a root of that scene.

## Findings

| source | as written | input that shows it | evidently intended | confidence | as-written member | corrected member |
|---|---|---|---|---|---|---|
| Runtime/SubScene.cs:140-160 | `CloseSubscene` gives the children back before calling `SaveSubScene`, whose own `IsDirty` check then no longer sees them | owner 0, a root of scene 1, with child 5 from loaded scene 2; only `TransformMark(5)` is dirty; `CloseSubscene(true)` in the editor saves nothing, provided giving the children back marks nothing dirty (see "## Left out") | a dirty sub-scene closed with SaveSubsceneOnClose is saved | not executed | SubScenes.CloseAsWrittenSkipsSave | SubScenes.CloseSavesDirtyChild |
| Runtime/SubScene.cs:140-167 | when the save does run, it takes the children back under the owner before the scene is closed | same world with `GameObjectMark(0)` dirty; after `CloseSubscene(true)` object 5 is still a DontSave child of the owner and the scene is unloaded | closing leaves no object of the sub-scene under the owner | not executed | SubScenes.CloseAsWrittenLeavesChildren | SubScenes.CloseSavesThenGivesBack |

