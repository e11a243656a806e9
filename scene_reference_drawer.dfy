/** The inspector drawer of a SceneReference and its BuildUtils helpers: looking a scene up in
    the editor build settings list, and enabling, disabling, adding and removing it there.
    The build settings list is a field of `BuildRegistry`; dialog answers are parameters. */
module SceneReferenceDrawer {
  import opened Base
  import opened Assets
  import SceneReferences

  /** EditorBuildSettingsScene: a scene GUID and whether it is included in builds. */
  datatype BuildEntry = BuildEntry(guid: Guid, enabled: bool)

  /** BuildUtils.BuildScene: the position in the build list (-1 when absent), the scene's
      GUID and path, and the list entry found for it. */
  datatype BuildScene = BuildScene(buildIndex: int, assetGuid: Guid, assetPath: string, scene: Option<BuildEntry>)

  /** What the Remove dialog leads to. */
  datatype RemoveAction = Remove | JustDisable | Cancel

  /** The position of the first entry with GUID `g`, or -1. */
  function IndexOfGuid(s: seq<BuildEntry>, g: Guid): (r: int)
    ensures -1 <= r < |s|
    ensures r == -1 <==> forall i :: 0 <= i < |s| ==> s[i].guid != g
    ensures r >= 0 ==> s[r].guid == g && forall i :: 0 <= i < r ==> s[i].guid != g
    decreases |s|
  {
    if |s| == 0 then -1
    else if s[0].guid == g then 0
    else
      var k := IndexOfGuid(s[1..], g);
      if k < 0 then -1 else k + 1
  }

  /** GetBuildScene: nothing found unless the object is a scene asset; otherwise its path,
      its GUID, and the first build entry with that GUID. */
  function BuildSceneOf(db: AssetDb, sceneObject: Option<Asset>, scenes: seq<BuildEntry>): BuildScene {
    if !(Live(db, sceneObject) && sceneObject.value.isScene) then BuildScene(-1, EmptyGuid, "", None)
    else
      var path := AssetPath(db, sceneObject);
      var guid := AssetPathToGuid(db, path);
      var index := IndexOfGuid(scenes, guid);
      BuildScene(index, guid, path, if index < 0 then None else Some(scenes[index]))
  }

  /** What GetBuildScene reports: -1 and no entry for anything but a live scene asset; for a
      scene asset its own GUID, which no other live asset carries, and -1 exactly when no entry carries it, otherwise the first
      entry that does, at its position. */
  lemma BuildSceneOfFinds(db: AssetDb, sceneObject: Option<Asset>, scenes: seq<BuildEntry>)
    requires Consistent(db)
    ensures var b := BuildSceneOf(db, sceneObject, scenes);
      && (!(Live(db, sceneObject) && sceneObject.value.isScene) ==> b.buildIndex == -1 && b.scene.None? && b.assetGuid == EmptyGuid)
      && (Live(db, sceneObject) && sceneObject.value.isScene ==>
            && b.assetGuid == sceneObject.value.guid
            && b.assetPath == db.pathOf[sceneObject.value]
            && (forall a :: a in db.pathOf && a != sceneObject.value ==> a.guid != b.assetGuid)
            && (b.buildIndex == -1 <==> forall i :: 0 <= i < |scenes| ==> scenes[i].guid != b.assetGuid)
            && (b.buildIndex >= 0 ==> b.scene == Some(scenes[b.buildIndex]) && scenes[b.buildIndex].guid == b.assetGuid
                                      && forall i :: 0 <= i < b.buildIndex ==> scenes[i].guid != b.assetGuid))
  {
  }

  /** SetBuildSceneState on the list: the first entry with GUID `g` gets `enabled`. */
  function WithSceneState(s: seq<BuildEntry>, g: Guid, enabled: bool): (r: seq<BuildEntry>)
    ensures |r| == |s|
  {
    var i := IndexOfGuid(s, g);
    if i < 0 then s else s[i := s[i].(enabled := enabled)]
  }

  /** Setting the state keeps every GUID in its place, so every lookup finds the same index;
      the entry for `g`, if any, then has the new state and no other entry changes. */
  lemma WithSceneStateKeepsIndices(s: seq<BuildEntry>, g: Guid, enabled: bool, h: Guid)
    ensures var r := WithSceneState(s, g, enabled);
      && IndexOfGuid(r, h) == IndexOfGuid(s, h)
      && (IndexOfGuid(s, g) >= 0 ==> r[IndexOfGuid(s, g)] == BuildEntry(g, enabled))
      && forall i :: 0 <= i < |s| && i != IndexOfGuid(s, g) ==> r[i] == s[i]
  {
    var r := WithSceneState(s, g, enabled);
    assert forall i :: 0 <= i < |s| ==> r[i].guid == s[i].guid;
  }

  /** AddBuildScene's choice of state: forced, or from the dialog (0 enabled, 1 disabled,
      anything else cancels). */
  function AddChoice(force: bool, enabled: bool, selection: int): Option<bool> {
    if force then Some(enabled)
    else if selection == 0 then Some(true)
    else if selection == 1 then Some(false)
    else None
  }

  /** AddBuildScene on the list: append an entry for the scene unless cancelled. */
  function AddedScenes(s: seq<BuildEntry>, buildScene: BuildScene, force: bool, enabled: bool, selection: int): (r: seq<BuildEntry>)
    ensures |s| <= |r| <= |s| + 1 && r[..|s|] == s
    ensures AddChoice(force, enabled, selection).None? ==> r == s
    ensures AddChoice(force, enabled, selection).Some? ==>
      r == s + [BuildEntry(buildScene.assetGuid, AddChoice(force, enabled, selection).value)]
  {
    match AddChoice(force, enabled, selection)
    case None => s
    case Some(e) => s + [BuildEntry(buildScene.assetGuid, e)]
  }

  /** Looking a GUID up after an append finds the old entry if there was one, else the new one. */
  lemma IndexOfGuidAppend(s: seq<BuildEntry>, e: BuildEntry, g: Guid)
    ensures IndexOfGuid(s + [e], g) ==
      if IndexOfGuid(s, g) >= 0 then IndexOfGuid(s, g) else if e.guid == g then |s| else -1
  {
    var r := IndexOfGuid(s + [e], g);
    if IndexOfGuid(s, g) >= 0 {
      assert (s + [e])[IndexOfGuid(s, g)] == s[IndexOfGuid(s, g)];
    } else if e.guid == g {
      assert (s + [e])[|s|] == e;
    }
  }

  /** Adding a scene that is not in the build list puts it at the index the Add button
      announces (the list length) with the chosen state; adding one that is already listed
      leaves every lookup finding the old entry. */
  lemma AddedSceneFound(s: seq<BuildEntry>, buildScene: BuildScene, force: bool, enabled: bool, selection: int)
    requires AddChoice(force, enabled, selection).Some?
    ensures var r := AddedScenes(s, buildScene, force, enabled, selection);
      var g := buildScene.assetGuid;
      && (IndexOfGuid(s, g) == -1 ==>
            IndexOfGuid(r, g) == |s| && r[|s|] == BuildEntry(g, AddChoice(force, enabled, selection).value))
      && (IndexOfGuid(s, g) >= 0 ==> IndexOfGuid(r, g) == IndexOfGuid(s, g))
  {
    IndexOfGuidAppend(s, BuildEntry(buildScene.assetGuid, AddChoice(force, enabled, selection).value), buildScene.assetGuid);
  }

  /** List.RemoveAll of the entries with GUID `g`. */
  function RemoveAllGuid(s: seq<BuildEntry>, g: Guid): (r: seq<BuildEntry>)
    ensures |r| <= |s|
    ensures forall i :: 0 <= i < |r| ==> r[i].guid != g
    decreases |s|
  {
    if |s| == 0 then []
    else (if s[0].guid == g then [] else [s[0]]) + RemoveAllGuid(s[1..], g)
  }

  /** RemoveAll keeps every entry with another GUID, as many times as it occurred. */
  lemma {:induction false} RemoveAllGuidKeepsOthers(s: seq<BuildEntry>, g: Guid)
    ensures forall e :: multiset(RemoveAllGuid(s, g))[e] == if e.guid == g then 0 else multiset(s)[e]
    decreases |s|
  {
    if |s| > 0 {
      RemoveAllGuidKeepsOthers(s[1..], g);
      var head := if s[0].guid == g then [] else [s[0]];
      assert s == [s[0]] + s[1..];
      assert multiset(s) == multiset([s[0]]) + multiset(s[1..]);
      assert multiset(RemoveAllGuid(s, g)) == multiset(head) + multiset(RemoveAllGuid(s[1..], g));
    }
  }

  /** RemoveAll keeps the order of the entries it leaves: removing from two lists joined is
      removing from each and joining the results. */
  lemma {:induction false} RemoveAllGuidAppend(a: seq<BuildEntry>, b: seq<BuildEntry>, g: Guid)
    ensures RemoveAllGuid(a + b, g) == RemoveAllGuid(a, g) + RemoveAllGuid(b, g)
    decreases |a|
  {
    if |a| > 0 {
      assert (a + b)[1..] == a[1..] + b;
      RemoveAllGuidAppend(a[1..], b, g);
    } else {
      assert a + b == b;
    }
  }

  /** RemoveAll leaves a list without the GUID unchanged. */
  lemma {:induction false} RemoveAllGuidAbsent(s: seq<BuildEntry>, g: Guid)
    requires forall i :: 0 <= i < |s| ==> s[i].guid != g
    ensures RemoveAllGuid(s, g) == s
    decreases |s|
  {
    if |s| > 0 {
      assert forall i :: 0 <= i < |s[1..]| ==> s[1..][i] == s[i + 1];
      RemoveAllGuidAbsent(s[1..], g);
      assert s == [s[0]] + s[1..];
    }
  }

  /** RemoveBuildScene's dialog: an enabled scene is offered remove, just disable or cancel;
      a disabled one only remove or cancel. */
  function RemoveChoice(sceneEnabled: bool, complexSelection: int, confirmed: bool): (a: RemoveAction)
    ensures a == JustDisable ==> sceneEnabled
    ensures !sceneEnabled ==> (a == Remove <==> confirmed)
  {
    var selection := if sceneEnabled then complexSelection else if confirmed then 0 else 2;
    if selection == 0 then Remove else if selection == 1 then JustDisable else Cancel
  }

  /** The action RemoveBuildScene takes: forced removal skips the dialog. */
  function RemoveActionOf(buildScene: BuildScene, force: bool, complexSelection: int, confirmed: bool): RemoveAction
    requires !force ==> buildScene.scene.Some?
  {
    if force then Remove else RemoveChoice(buildScene.scene.value.enabled, complexSelection, confirmed)
  }

  /** RemoveBuildScene on the list. */
  function RemovedScenes(s: seq<BuildEntry>, buildScene: BuildScene, force: bool, complexSelection: int, confirmed: bool): seq<BuildEntry>
    requires !force ==> buildScene.scene.Some?
  {
    match RemoveActionOf(buildScene, force, complexSelection, confirmed)
    case Cancel => s
    case JustDisable => WithSceneState(s, buildScene.assetGuid, false)
    case Remove => RemoveAllGuid(s, buildScene.assetGuid)
  }

  /** After a removal the scene is no longer found; after "just disable" it is found at the
      same index, disabled; a cancelled dialog changes nothing. Entries for other scenes keep
      their multiplicity throughout. */
  lemma RemovedSceneNotFound(s: seq<BuildEntry>, buildScene: BuildScene, force: bool, complexSelection: int, confirmed: bool)
    requires !force ==> buildScene.scene.Some?
    ensures var r := RemovedScenes(s, buildScene, force, complexSelection, confirmed);
      var g := buildScene.assetGuid;
      match RemoveActionOf(buildScene, force, complexSelection, confirmed)
      case Cancel => r == s
      case Remove => IndexOfGuid(r, g) == -1 && forall e: BuildEntry :: e.guid != g ==> multiset(r)[e] == multiset(s)[e]
      case JustDisable =>
        IndexOfGuid(r, g) == IndexOfGuid(s, g) && (IndexOfGuid(s, g) >= 0 ==> !r[IndexOfGuid(r, g)].enabled)
  {
    var g := buildScene.assetGuid;
    match RemoveActionOf(buildScene, force, complexSelection, confirmed)
    case Cancel =>
    case Remove => RemoveAllGuidKeepsOthers(s, g);
    case JustDisable => WithSceneStateKeepsIndices(s, g, false, g);
  }

  /** OnGUI's object field: a change stores the chosen asset, and when the chosen object is
      not found in the build list the stored path is reset to the empty string. */
  function ObjectFieldEdit(db: AssetDb, scenes: seq<BuildEntry>, s: SceneReferences.RefState,
                           chosen: Option<Asset>, changed: bool): (r: SceneReferences.RefState)
    ensures !changed ==> r == s
    ensures changed ==> r.sceneAsset == chosen
    ensures changed && !(Live(db, chosen) && chosen.value.isScene) ==> r.scenePath == ""
    ensures changed && Live(db, chosen) && chosen.value.isScene ==>
      r.scenePath == if IndexOfGuid(scenes, AssetPathToGuid(db, AssetPath(db, chosen))) < 0 then "" else s.scenePath
  {
    if !changed then s
    else
      var picked := s.(sceneAsset := chosen);
      if BuildSceneOf(db, chosen, scenes).scene.None? then picked.(scenePath := "") else picked
  }

  /** The reset is harmless for a valid scene: the next serialization writes the chosen
      scene's path whether or not it was reset. Clearing the field leaves an empty reference. */
  lemma ObjectFieldEditThenSerialize(db: AssetDb, scenes: seq<BuildEntry>, s: SceneReferences.RefState, chosen: Option<Asset>)
    requires Consistent(db)
    ensures var r := SceneReferences.BeforeSerialize(db, ObjectFieldEdit(db, scenes, s, chosen, true));
      && (Live(db, chosen) && chosen.value.isScene ==> r == SceneReferences.Hooked(SceneReferences.RefState(db.pathOf[chosen.value], chosen), false))
      && (chosen.None? ==> r == SceneReferences.Hooked(SceneReferences.RefState("", None), false))
  {
  }

  /** EditorBuildSettings.scenes, the build list the helpers read and replace. */
  class BuildRegistry {
    var scenes: seq<BuildEntry>

    constructor (scenes: seq<BuildEntry>)
      ensures this.scenes == scenes
    {
      this.scenes := scenes;
    }

    /** GetBuildScene: a scan of the build list for the first entry with the scene's GUID. */
    method GetBuildScene(db: AssetDb, sceneObject: Option<Asset>) returns (entry: BuildScene)
      ensures entry == BuildSceneOf(db, sceneObject, scenes)
    {
      entry := BuildScene(-1, EmptyGuid, "", None);
      if !(Live(db, sceneObject) && sceneObject.value.isScene) {
        return;
      }
      var path := AssetPath(db, sceneObject);
      entry := entry.(assetPath := path, assetGuid := AssetPathToGuid(db, path));
      var index := 0;
      while index < |scenes|
        invariant 0 <= index <= |scenes|
        invariant forall i :: 0 <= i < index ==> scenes[i].guid != entry.assetGuid
        invariant entry == BuildScene(-1, AssetPathToGuid(db, path), path, None)
      {
        if entry.assetGuid == scenes[index].guid {
          entry := entry.(scene := Some(scenes[index]), buildIndex := index);
          return;
        }
        index := index + 1;
      }
    }

    /** SetBuildSceneState: set the state of the first matching entry of a copy of the list,
        and store the copy back only when an entry matched. */
    method SetBuildSceneState(buildScene: BuildScene, enabled: bool)
      modifies this`scenes
      ensures scenes == WithSceneState(old(scenes), buildScene.assetGuid, enabled)
    {
      var modified := false;
      var scenesToModify := scenes;
      var index := 0;
      while index < |scenesToModify|
        invariant 0 <= index <= |scenesToModify|
        invariant scenesToModify == scenes && !modified
        invariant forall i :: 0 <= i < index ==> scenesToModify[i].guid != buildScene.assetGuid
      {
        if scenesToModify[index].guid == buildScene.assetGuid {
          scenesToModify := scenesToModify[index := scenesToModify[index].(enabled := enabled)];
          modified := true;
          break;
        }
        index := index + 1;
      }
      if modified {
        scenes := scenesToModify;
      }
    }

    /** AddBuildScene; `selection` is the answer to the Add dialog when it is shown. */
    method AddBuildScene(buildScene: BuildScene, force: bool, enabled: bool, selection: int)
      modifies this`scenes
      ensures scenes == AddedScenes(old(scenes), buildScene, force, enabled, selection)
    {
      var state := enabled;
      if !force {
        if selection == 0 {
          state := true;
        } else if selection == 1 {
          state := false;
        } else {
          return;
        }
      }
      var newScene := BuildEntry(buildScene.assetGuid, state);
      scenes := scenes + [newScene];
    }

    /** RemoveBuildScene; `complexSelection` answers the three-way dialog shown for an
        enabled scene and `confirmed` the two-way one shown for a disabled scene. */
    method RemoveBuildScene(buildScene: BuildScene, force: bool, complexSelection: int, confirmed: bool)
      requires !force ==> buildScene.scene.Some?
      modifies this`scenes
      ensures scenes == RemovedScenes(old(scenes), buildScene, force, complexSelection, confirmed)
    {
      var onlyDisable := false;
      if !force {
        var selection := -1;
        if buildScene.scene.value.enabled {
          selection := complexSelection;
        } else {
          selection := if confirmed then 0 else 2;
        }
        if selection == 0 {
        } else if selection == 1 {
          onlyDisable := true;
        } else {
          return;
        }
      }
      if onlyDisable {
        SetBuildSceneState(buildScene, false);
      } else {
        scenes := RemoveAllGuid(scenes, buildScene.assetGuid);
      }
    }

    /** OnGUI's edit of the reference's fields through the object field; returns whether the
        build settings information is drawn (the scene has a GUID). */
    method OnGUI(db: AssetDb, reference: SceneReferences.SceneReference, chosen: Option<Asset>, changed: bool)
      returns (drawsSceneInfo: bool)
      modifies reference`scenePath, reference`sceneAsset
      ensures reference.State() == ObjectFieldEdit(db, scenes, old(reference.State()), chosen, changed)
      ensures drawsSceneInfo == (BuildSceneOf(db, reference.sceneAsset, scenes).assetGuid != EmptyGuid)
    {
      if changed {
        reference.sceneAsset := chosen;
      }
      var buildScene := GetBuildScene(db, reference.sceneAsset);
      if changed {
        if buildScene.scene.None? {
          reference.scenePath := "";
        }
      }
      drawsSceneInfo := buildScene.assetGuid != EmptyGuid;
    }
  }
}
