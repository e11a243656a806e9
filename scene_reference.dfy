/** SceneReference: a serializable reference to a scene that keeps two fields in step, a
    stored path (the only field a player build has) and an editor-only asset handle. The
    asset index is a parameter; the reconciliation rules are functions on the two fields,
    and the class assigns the fields in place as the setter and serialization hooks do. */
module SceneReferences {
  import opened Base
  import opened Assets

  /** The serialized fields m_scenePath and m_sceneAsset. */
  datatype RefState = RefState(scenePath: string, sceneAsset: Option<Asset>)

  /** What a serialization hook leaves behind, and whether it called MarkAllScenesDirty. */
  datatype Hooked = Hooked(state: RefState, marksScenesDirty: bool)

  /** isValidSceneAsset: the handle is not null (nor a deleted asset) and is a SceneAsset. */
  predicate IsValidSceneAsset(db: AssetDb, s: RefState)
    ensures s.sceneAsset.None? || !s.sceneAsset.value.isScene ==> !IsValidSceneAsset(db, s)
    ensures Consistent(db) && IsValidSceneAsset(db, s) ==> AssetPath(db, s.sceneAsset) != ""
  {
    Live(db, s.sceneAsset) && s.sceneAsset.value.isScene
  }

  /** GetScenePathFromAsset: the asset's stored path, or empty when the handle is null. */
  function ScenePathFromAsset(db: AssetDb, s: RefState): string {
    AssetPath(db, s.sceneAsset)
  }

  /** GetSceneAssetFromPath: no asset for an empty path, else the scene asset at the path. */
  function SceneAssetFromPath(db: AssetDb, s: RefState): Option<Asset> {
    if s.scenePath == "" then None else LoadSceneAssetAtPath(db, s.scenePath)
  }

  /** The `path` getter: derived from the asset in the editor, the stored string in a build. */
  function PathOf(db: AssetDb, s: RefState, inEditor: bool): (p: string)
    ensures inEditor && !Live(db, s.sceneAsset) ==> p == ""
    ensures inEditor && Live(db, s.sceneAsset) ==> p == db.pathOf[s.sceneAsset.value]
    ensures !inEditor ==> p == s.scenePath
  {
    if inEditor then ScenePathFromAsset(db, s) else s.scenePath
  }

  /** The `name` property: the file name of `path` without its extension. */
  function NameOf(db: AssetDb, s: RefState, inEditor: bool): (n: string)
    ensures '/' !in n
  {
    FileNameWithoutExtension(PathOf(db, s, inEditor))
  }

  /** The `path` setter: store the string, then look the asset up from it. */
  function WithPath(db: AssetDb, s: RefState, value: string): (r: RefState)
    ensures r.scenePath == value
    ensures value == "" ==> r.sceneAsset == None
    ensures value != "" ==> r.sceneAsset == LoadSceneAssetAtPath(db, value)
  {
    var stored := s.(scenePath := value);
    stored.(sceneAsset := SceneAssetFromPath(db, stored))
  }

  /** HandleBeforeSerialize: with an invalid asset and a stored path, re-resolve the asset from
      the path (clearing the path when that fails); otherwise the asset overwrites the path. */
  function BeforeSerialize(db: AssetDb, s: RefState): (r: Hooked)
    ensures IsValidSceneAsset(db, s) || s.scenePath == "" ==>
      r == Hooked(RefState(AssetPath(db, s.sceneAsset), s.sceneAsset), false)
    ensures !IsValidSceneAsset(db, s) && s.scenePath != "" ==>
      && r.marksScenesDirty
      && r.state.sceneAsset == LoadSceneAssetAtPath(db, s.scenePath)
      && r.state.scenePath == (if Live(db, r.state.sceneAsset) then s.scenePath else "")
  {
    if !IsValidSceneAsset(db, s) && s.scenePath != "" then
      var asset := SceneAssetFromPath(db, s);
      Hooked(RefState(if !Live(db, asset) then "" else s.scenePath, asset), true)
    else
      Hooked(s.(scenePath := ScenePathFromAsset(db, s)), false)
  }

  /** HandleAfterDeserialize (after it has unsubscribed itself): nothing to do when the asset
      is valid or no path is stored; otherwise re-resolve, clearing a path that fails. */
  function AfterDeserialize(db: AssetDb, s: RefState, isPlaying: bool): (r: Hooked)
    ensures IsValidSceneAsset(db, s) || s.scenePath == "" ==> r == Hooked(s, false)
    ensures !IsValidSceneAsset(db, s) && s.scenePath != "" ==>
      && r.marksScenesDirty == !isPlaying
      && r.state.sceneAsset == LoadSceneAssetAtPath(db, s.scenePath)
      && r.state.scenePath == (if Live(db, r.state.sceneAsset) then s.scenePath else "")
  {
    if IsValidSceneAsset(db, s) then Hooked(s, false)
    else if s.scenePath == "" then Hooked(s, false)
    else
      var asset := SceneAssetFromPath(db, s);
      Hooked(RefState(if !Live(db, asset) then "" else s.scenePath, asset), !isPlaying)
  }

  /** After serialization the stored path is exactly what the editor getter reports, so a
      build reads the same path the editor showed. */
  lemma BeforeSerializeStoresEditorPath(db: AssetDb, s: RefState)
    requires Consistent(db)
    ensures PathOf(db, BeforeSerialize(db, s).state, false) == PathOf(db, BeforeSerialize(db, s).state, true)
  {
    var r := BeforeSerialize(db, s).state;
    if !IsValidSceneAsset(db, s) && s.scenePath != "" && Live(db, r.sceneAsset) {
      assert db.pathOf[r.sceneAsset.value] == s.scenePath;
    }
  }

  /** Once serialized with a valid asset, the stored path is that asset's path and serializing
      again changes nothing and marks nothing dirty. */
  lemma SerializeValidAssetTwice(db: AssetDb, s: RefState)
    requires IsValidSceneAsset(db, s)
    ensures BeforeSerialize(db, s).state.scenePath == db.pathOf[s.sceneAsset.value]
    ensures BeforeSerialize(db, BeforeSerialize(db, s).state) == BeforeSerialize(db, s)
  {
  }

  /** Serializing twice is serializing once, unless the handle left behind is a live asset
      that is not a scene (the object field only offers scene assets). */
  lemma BeforeSerializeSettles(db: AssetDb, s: RefState)
    requires Consistent(db)
    requires var a := BeforeSerialize(db, s).state.sceneAsset; !(Live(db, a) && !a.value.isScene)
    ensures var r := BeforeSerialize(db, s).state; BeforeSerialize(db, r) == Hooked(r, false)
  {
    var r := BeforeSerialize(db, s).state;
    if !IsValidSceneAsset(db, s) && s.scenePath != "" {
      if Live(db, r.sceneAsset) {
        assert db.pathOf[r.sceneAsset.value] == r.scenePath;
        assert IsValidSceneAsset(db, r);
      } else {
        assert r.scenePath == "";
      }
    } else {
      assert r.scenePath == AssetPath(db, r.sceneAsset);
      if Live(db, r.sceneAsset) {
        assert IsValidSceneAsset(db, r);
      }
    }
  }

  /** A live non-scene asset with an empty stored path does not settle: the first run copies
      its path, the second finds no scene there and clears both fields. */
  lemma NonSceneAssetDoesNotSettle(db: AssetDb, a: Asset)
    requires Consistent(db) && a in db.pathOf && !a.isScene
    ensures BeforeSerialize(db, RefState("", Some(a))).state == RefState(db.pathOf[a], Some(a))
    ensures BeforeSerialize(db, RefState(db.pathOf[a], Some(a))).state == RefState("", None)
  {
    assert Live(db, Some(a));
  }

  /** After deserialization the reference is resolved: either the asset is a valid scene or
      no path is stored, so a stale path is never carried forward. */
  lemma AfterDeserializeResolves(db: AssetDb, s: RefState, isPlaying: bool)
    requires Consistent(db)
    ensures var r := AfterDeserialize(db, s, isPlaying).state; IsValidSceneAsset(db, r) || r.scenePath == ""
  {
    var r := AfterDeserialize(db, s, isPlaying).state;
    if !IsValidSceneAsset(db, s) && s.scenePath != "" && Live(db, r.sceneAsset) {
      assert r.sceneAsset.value.isScene;
    }
  }

  /** Running the deserialization handler a second time changes nothing. */
  lemma AfterDeserializeIdempotent(db: AssetDb, s: RefState, isPlaying: bool)
    requires Consistent(db)
    ensures var r := AfterDeserialize(db, s, isPlaying).state;
            AfterDeserialize(db, r, isPlaying) == Hooked(r, false)
  {
    AfterDeserializeResolves(db, s, isPlaying);
  }

  /** Clearing the stored path of a reference whose asset is valid is undone by the next
      serialization: the asset's path is written back. */
  lemma ClearedPathRestoredBySerialize(db: AssetDb, s: RefState)
    requires IsValidSceneAsset(db, s)
    ensures BeforeSerialize(db, s.(scenePath := "")) == BeforeSerialize(db, s)
  {
  }

  /** Setting `path` and reading it back: a build returns the string as set; the editor
      returns it when a scene asset is stored there and the empty string otherwise. */
  lemma SetPathThenGet(db: AssetDb, s: RefState, value: string)
    requires Consistent(db)
    ensures PathOf(db, WithPath(db, s, value), false) == value
    ensures PathOf(db, WithPath(db, s, value), true) ==
      (if value != "" && LoadSceneAssetAtPath(db, value).Some? then value else "")
  {
  }

  /** The SceneReference object. The path setter and the two serialization hooks assign
      its fields in place; `pendingAfterDeserialize` counts the copies of the deferred
      after-deserialize handler currently subscribed to the editor's update event. */
  class SceneReference {
    var scenePath: string
    var sceneAsset: Option<Asset>
    var pendingAfterDeserialize: nat

    /** A fresh reference: empty path, null asset, nothing subscribed. */
    constructor ()
      ensures State() == RefState("", None) && pendingAfterDeserialize == 0
    {
      scenePath := "";
      sceneAsset := None;
      pendingAfterDeserialize := 0;
    }

    function State(): RefState
      reads this
    {
      RefState(scenePath, sceneAsset)
    }

    /** The `path` setter. */
    method SetPath(db: AssetDb, value: string)
      modifies this`scenePath, this`sceneAsset
      ensures State() == WithPath(db, old(State()), value)
    {
      scenePath := value;
      sceneAsset := SceneAssetFromPath(db, State());
    }

    /** OnBeforeSerialize, which in the editor runs HandleBeforeSerialize. */
    method OnBeforeSerialize(db: AssetDb) returns (marksScenesDirty: bool)
      modifies this`scenePath, this`sceneAsset
      ensures Hooked(State(), marksScenesDirty) == BeforeSerialize(db, old(State()))
    {
      if !IsValidSceneAsset(db, State()) && scenePath != "" {
        sceneAsset := SceneAssetFromPath(db, State());
        if !Live(db, sceneAsset) {
          scenePath := "";
        }
        marksScenesDirty := true;
      } else {
        scenePath := ScenePathFromAsset(db, State());
        marksScenesDirty := false;
      }
    }

    /** OnAfterDeserialize: defer the handler by subscribing it to the update event. */
    method OnAfterDeserialize()
      modifies this`pendingAfterDeserialize
      ensures pendingAfterDeserialize == old(pendingAfterDeserialize) + 1
    {
      pendingAfterDeserialize := pendingAfterDeserialize + 1;
    }

    /** HandleAfterDeserialize, run by the update event: it unsubscribes itself first, so
        each subscription runs it once. */
    method HandleAfterDeserialize(db: AssetDb, isPlaying: bool) returns (marksScenesDirty: bool)
      requires pendingAfterDeserialize > 0
      modifies this
      ensures pendingAfterDeserialize == old(pendingAfterDeserialize) - 1
      ensures Hooked(State(), marksScenesDirty) == AfterDeserialize(db, old(State()), isPlaying)
    {
      pendingAfterDeserialize := pendingAfterDeserialize - 1;
      marksScenesDirty := false;
      if IsValidSceneAsset(db, State()) {
        return;
      }
      if scenePath == "" {
        return;
      }
      sceneAsset := SceneAssetFromPath(db, State());
      if !Live(db, sceneAsset) {
        scenePath := "";
      }
      if !isPlaying {
        marksScenesDirty := true;
      }
    }
  }
}
