/** SubScene: a component that opens another scene additively, moves that scene's root
    objects under its own transform (flagged DontSave so the outer scene does not save
    them twice), gives them back before saving or closing, and tracks dirty markers.
    Only the synchronous editor path is modelled. Engine services are inputs: the scene
    the engine opens and the objects it creates, the save result and the dialog answer. */
module SubScenes {
  import opened Base
  import opened Hierarchy
  import opened Assets
  import SceneReferences

  type SceneId = nat

  /** What the engine records about a game object: the scene it was last moved into (the
      scene of a root; a child belongs to its root's scene), its parent, and whether
      HideFlags.DontSave is set on it. */
  datatype Obj = Obj(scene: SceneId, parent: Option<ObjId>, dontSave: bool)

  /** An editor dirty marker, on a GameObject or on a Transform. */
  datatype Mark = GameObjectMark(id: ObjId) | TransformMark(id: ObjId)

  /** The engine's game objects. */
  type World = map<ObjId, Obj>

  /** What the component and the engine hold between calls: the objects, EditingScene and
      whether it is loaded, the dirty markers, and the root objects EditingScene held at
      each call of EditorSceneManager.SaveScene. */
  datatype State = State(objects: World, editingScene: SceneId, loaded: bool, dirty: set<Mark>, saves: seq<set<ObjId>>)

  /** The state an operation leaves and the boolean it returns. */
  datatype Outcome = Outcome(state: State, result: bool)

  function Links(w: World): Hierarchy.Links {
    map o | o in w && w[o].parent.Some? :: w[o].parent.value
  }

  /** GetComponentsInChildren<Transform>() on the owner: its own transform and all below it. */
  function Subtree(w: World, owner: ObjId): set<ObjId> {
    set o | o in w && (o == owner || owner in Ancestors(Links(w), o))
  }

  /** Scene.GetRootGameObjects(). */
  function RootsOf(w: World, scene: SceneId): set<ObjId> {
    set o | o in w && w[o].scene == scene && w[o].parent.None?
  }

  /** The direct children of the owner's transform. */
  function ChildrenOf(w: World, owner: ObjId): set<ObjId> {
    set o | o in w && o != owner && w[o].parent == Some(owner)
  }

  /** A direct child is among the transforms below the owner. */
  lemma ChildInSubtree(w: World, owner: ObjId, c: ObjId)
    requires c in ChildrenOf(w, owner)
    ensures c in Subtree(w, owner)
  {
    var h := Links(w);
    assert c in h && h[c] == owner;
    assert |h| > 0;
    assert Ancestors(h, c)[0] == owner;
  }

  /** The objects after LoadSubsceneGameObjects' loop: every root of `editing` is moved to
      the owner's scene, parented to the owner and flagged DontSave. */
  function Adopt(w: World, owner: ObjId, editing: SceneId): (r: World)
    requires owner in w
    ensures r.Keys == w.Keys
    ensures forall o :: o in RootsOf(w, editing) ==> r[o] == Obj(w[owner].scene, Some(owner), true)
    ensures forall o :: o in w && o !in RootsOf(w, editing) ==> r[o] == w[o]
  {
    map o | o in w :: if o in RootsOf(w, editing) then Obj(w[owner].scene, Some(owner), true) else w[o]
  }

  /** The objects after UnloadSubsceneGameObjects' loop: every direct child of the owner has
      DontSave cleared, is detached and is moved into `editing`; nothing else changes. */
  function Release(w: World, owner: ObjId, editing: SceneId): (r: World)
    ensures r.Keys == w.Keys
    ensures forall o :: o in ChildrenOf(w, owner) ==> r[o] == Obj(editing, None, false)
    ensures forall o :: o in w && o !in ChildrenOf(w, owner) ==> r[o] == w[o]
  {
    map o | o in w :: if o in ChildrenOf(w, owner) then Obj(editing, None, false) else w[o]
  }

  /** IsDirty: the owner's GameObject or any transform at or below the owner is marked. */
  predicate Dirty(w: World, owner: ObjId, dirty: set<Mark>) {
    GameObjectMark(owner) in dirty || exists t :: t in Subtree(w, owner) && TransformMark(t) in dirty
  }

  /** The markers ClearDirty leaves: exactly the ones IsDirty inspects are removed. */
  function Cleaned(w: World, owner: ObjId, dirty: set<Mark>): (r: set<Mark>)
    ensures r <= dirty
    ensures !Dirty(w, owner, r)
    ensures forall m :: m in dirty && m !in r ==>
      m == GameObjectMark(owner) || (m.TransformMark? && m.id in Subtree(w, owner))
  {
    dirty - ({GameObjectMark(owner)} + set t | t in Subtree(w, owner) :: TransformMark(t))
  }

  /** The owner's transform is the parent of every object of the loaded scene: it has no
      roots left, and every direct child sits in the owner's scene flagged DontSave. */
  ghost predicate Composed(w: World, owner: ObjId, editing: SceneId)
    requires owner in w
  {
    && RootsOf(w, editing) == {}
    && forall c :: c in ChildrenOf(w, owner) ==> w[c] == Obj(w[owner].scene, Some(owner), true)
  }

  /** LoadSubsceneGameObjects: nothing when EditingScene is not loaded. */
  function LoadStep(s: State, owner: ObjId): State
    requires owner in s.objects
  {
    if !s.loaded then s else s.(objects := Adopt(s.objects, owner, s.editingScene))
  }

  /** UnloadSubsceneGameObjects: nothing when EditingScene is not loaded. */
  function UnloadStep(s: State, owner: ObjId): State {
    if !s.loaded then s else s.(objects := Release(s.objects, owner, s.editingScene))
  }

  /** ClearDirty. */
  function CleanStep(s: State, owner: ObjId): State {
    s.(dirty := Cleaned(s.objects, owner, s.dirty))
  }

  /** EditorSceneManager.CloseScene(EditingScene, true): the scene is unloaded and its root
      objects destroyed. */
  function CloseSceneStep(s: State): State {
    s.(objects := s.objects - RootsOf(s.objects, s.editingScene), loaded := false)
  }

  /** SaveSubScene: refused when playing or not dirty; otherwise the children are given back,
      the scene is saved, the children are taken again whatever the save result, and the
      markers are cleared only when the save succeeded. */
  function SaveStep(s: State, owner: ObjId, isPlaying: bool, saveSucceeds: bool): (r: Outcome)
    requires owner in s.objects
    ensures isPlaying || !Dirty(s.objects, owner, s.dirty) ==> r == Outcome(s, false)
    ensures !isPlaying && Dirty(s.objects, owner, s.dirty) ==>
      && r.result == saveSucceeds
      && r.state.saves == s.saves + [RootsOf(UnloadStep(s, owner).objects, s.editingScene)]
      && r.state.objects == LoadStep(UnloadStep(s, owner), owner).objects
      && (saveSucceeds ==> !Dirty(r.state.objects, owner, r.state.dirty))
      && (!saveSucceeds ==> r.state.dirty == s.dirty)
  {
    if isPlaying || !Dirty(s.objects, owner, s.dirty) then Outcome(s, false)
    else
      var released := UnloadStep(s, owner);
      var written := released.(saves := released.saves + [RootsOf(released.objects, released.editingScene)]);
      var restored := LoadStep(written, owner);
      Outcome(if saveSucceeds then CleanStep(restored, owner) else restored, saveSucceeds)
  }

  /** OpenSubscene in the editor: refused when the reference is not a valid scene asset;
      otherwise the engine opens `openedScene`, creating `contents`, whose roots are taken under
      the owner, and the markers are cleared. Returns IsLoaded. */
  function OpenStep(s: State, owner: ObjId, referenceValid: bool, openedScene: SceneId, contents: World): (r: Outcome)
    requires owner in s.objects
    ensures !referenceValid ==> r == Outcome(s, false)
  {
    if !referenceValid then Outcome(s, false)
    else
      var opening := s.(objects := s.objects + contents, editingScene := openedScene, loaded := true);
      var taken := CleanStep(LoadStep(opening, owner), owner);
      Outcome(taken, taken.loaded)
  }

  /** CloseSubscene as the source writes it: dirty state is computed, the children are given
      back, and only then is SaveSubScene called. */
  function CloseStepAsWritten(s: State, owner: ObjId, saveOnClose: bool, isPlaying: bool,
                              dialogSave: bool, saveSucceeds: bool): (r: Outcome)
    requires owner in s.objects
    ensures !s.loaded ==> r == Outcome(s, true)
  {
    if !s.loaded then Outcome(s, true)
    else
      var dirty := Dirty(s.objects, owner, s.dirty);
      var released := UnloadStep(s, owner);
      if isPlaying then
        Outcome(CleanStep(released, owner), false)
      else
        var saved := if dirty && (saveOnClose || dialogSave)
                     then SaveStep(released, owner, false, saveSucceeds).state else released;
        var closed := CloseSceneStep(saved);
        Outcome(CleanStep(closed, owner), !closed.loaded)
  }

  /** CloseSubscene with the save moved ahead of giving the children back, so the save sees
      the same dirty state that decided it and the children do not stay under the owner. */
  function CloseStepSaveFirst(s: State, owner: ObjId, saveOnClose: bool, isPlaying: bool,
                     dialogSave: bool, saveSucceeds: bool): (r: Outcome)
    requires owner in s.objects
    ensures !s.loaded ==> r == Outcome(s, true)
  {
    if !s.loaded then Outcome(s, true)
    else if isPlaying then
      Outcome(CleanStep(UnloadStep(s, owner), owner), false)
    else
      var saved := if Dirty(s.objects, owner, s.dirty) && (saveOnClose || dialogSave)
                   then SaveStep(s, owner, false, saveSucceeds).state else s;
      var closed := CloseSceneStep(UnloadStep(saved, owner));
      Outcome(CleanStep(closed, owner), !closed.loaded)
  }

  /** Loading takes every root of EditingScene as a DontSave child of the owner, leaving the
      scene without roots; when EditingScene is not loaded nothing changes. */
  lemma LoadTakesRoots(s: State, owner: ObjId)
    requires owner in s.objects && owner !in RootsOf(s.objects, s.editingScene)
    ensures var r := LoadStep(s, owner).objects;
      if s.loaded then
        && RootsOf(r, s.editingScene) == {}
        && ChildrenOf(r, owner) == ChildrenOf(s.objects, owner) + RootsOf(s.objects, s.editingScene)
        && forall o :: o in RootsOf(s.objects, s.editingScene) ==> r[o].dontSave && r[o].scene == s.objects[owner].scene
      else r == s.objects
  {
    if s.loaded {
      var w, r, e := s.objects, LoadStep(s, owner).objects, s.editingScene;
      assert forall o :: o in r ==> (o in ChildrenOf(r, owner) <==> o in ChildrenOf(w, owner) || o in RootsOf(w, e));
    }
  }

  /** Opening with a valid reference loads the opened scene and returns true: every root of
      the opened scene becomes a DontSave child of the owner, in the owner's scene, the scene
      keeps no roots, and nothing is left dirty. */
  lemma OpenLoadsRoots(s: State, owner: ObjId, openedScene: SceneId, contents: World)
    requires owner in s.objects && owner !in contents && owner !in RootsOf(s.objects, openedScene)
    ensures var r := OpenStep(s, owner, true, openedScene, contents);
      && r.result && r.state.loaded && r.state.editingScene == openedScene
      && RootsOf(r.state.objects, openedScene) == {}
      && (forall o :: o in RootsOf(s.objects + contents, openedScene) ==>
            && o in ChildrenOf(r.state.objects, owner)
            && r.state.objects[o].dontSave && r.state.objects[o].scene == s.objects[owner].scene)
      && !Dirty(r.state.objects, owner, r.state.dirty)
  {
    var opening := s.(objects := s.objects + contents, editingScene := openedScene, loaded := true);
    assert owner !in RootsOf(opening.objects, openedScene);
    LoadTakesRoots(opening, owner);
  }

  /** Unloading touches only the owner's direct children, each becoming a root of
      EditingScene; the owner keeps no children. */
  lemma UnloadGivesBackChildren(s: State, owner: ObjId)
    requires s.loaded
    ensures var r := UnloadStep(s, owner).objects;
      && ChildrenOf(r, owner) == {}
      && RootsOf(r, s.editingScene) == RootsOf(s.objects, s.editingScene) + ChildrenOf(s.objects, owner)
  {
    var w, r, e := s.objects, UnloadStep(s, owner).objects, s.editingScene;
    assert forall o :: o in r ==> (o in RootsOf(r, e) <==> o in RootsOf(w, e) || o in ChildrenOf(w, owner));
  }

  /** Unloading after loading returns every root of EditingScene to it as a parentless object
      with DontSave cleared; when the owner had no children and no root was flagged DontSave,
      the objects are exactly as before. */
  lemma UnloadAfterLoad(s: State, owner: ObjId)
    requires s.loaded && owner in s.objects && owner !in RootsOf(s.objects, s.editingScene)
    ensures var r := UnloadStep(LoadStep(s, owner), owner).objects;
      forall o :: o in RootsOf(s.objects, s.editingScene) ==> r[o] == Obj(s.editingScene, None, false)
    ensures ChildrenOf(s.objects, owner) == {} &&
            (forall o :: o in RootsOf(s.objects, s.editingScene) ==> !s.objects[o].dontSave) ==>
            UnloadStep(LoadStep(s, owner), owner).objects == s.objects
  {
    var w, e := s.objects, s.editingScene;
    var a := Adopt(w, owner, e);
    assert forall o :: o in RootsOf(w, e) ==> o in ChildrenOf(a, owner);
    if ChildrenOf(w, owner) == {} && (forall o :: o in RootsOf(w, e) ==> !w[o].dontSave) {
      var r := Release(a, owner, e);
      forall o | o in w ensures r[o] == w[o] {
        if o in RootsOf(w, e) {
          assert w[o] == Obj(e, None, false);
        } else {
          assert o !in ChildrenOf(w, owner);
          assert a[o] == w[o];
          assert o !in ChildrenOf(a, owner);
        }
      }
    }
  }

  /** Loading after unloading restores a composed hierarchy exactly. */
  lemma LoadAfterUnload(s: State, owner: ObjId)
    requires s.loaded && owner in s.objects && Composed(s.objects, owner, s.editingScene)
    ensures LoadStep(UnloadStep(s, owner), owner).objects == s.objects
  {
    var w, e := s.objects, s.editingScene;
    var u := Release(w, owner, e);
    forall o | o in u ensures o in RootsOf(u, e) <==> o in ChildrenOf(w, owner) {
      if o in ChildrenOf(w, owner) {
      } else {
        assert o !in RootsOf(w, e);
      }
    }
  }

  /** A save that goes ahead writes the scene with every child the owner had, and leaves the
      objects of a composed hierarchy as they were. */
  lemma SaveWritesChildren(s: State, owner: ObjId, saveSucceeds: bool)
    requires s.loaded && owner in s.objects && Dirty(s.objects, owner, s.dirty)
    ensures var r := SaveStep(s, owner, false, saveSucceeds).state;
      && |r.saves| == |s.saves| + 1
      && ChildrenOf(s.objects, owner) <= r.saves[|s.saves|]
      && (Composed(s.objects, owner, s.editingScene) ==> r.objects == s.objects)
  {
    UnloadGivesBackChildren(s, owner);
    if Composed(s.objects, owner, s.editingScene) {
      LoadAfterUnload(s, owner);
    }
  }

  /** After a successful save a second save is refused and changes nothing. */
  lemma SaveTwice(s: State, owner: ObjId, saveSucceeds: bool)
    requires owner in s.objects
    ensures var first := SaveStep(s, owner, false, true);
      first.result ==> SaveStep(first.state, owner, false, saveSucceeds) == Outcome(first.state, false)
  {
  }

  /** Closing in the editor with a save requested, when the sub-scene is dirty, saves the
      scene with all the owner's children in it exactly once; afterwards the scene is closed
      and the owner has no children left. */
  lemma CloseSavesThenGivesBack(s: State, owner: ObjId, saveOnClose: bool, dialogSave: bool, saveSucceeds: bool)
    requires s.loaded && owner in s.objects && owner !in RootsOf(s.objects, s.editingScene)
    ensures var r := CloseStepSaveFirst(s, owner, saveOnClose, false, dialogSave, saveSucceeds);
      && r.result && !r.state.loaded
      && ChildrenOf(r.state.objects, owner) == {}
      && (Dirty(s.objects, owner, s.dirty) && (saveOnClose || dialogSave) ==>
            |r.state.saves| == |s.saves| + 1 && ChildrenOf(s.objects, owner) <= r.state.saves[|s.saves|])
      && (!(Dirty(s.objects, owner, s.dirty) && (saveOnClose || dialogSave)) ==> r.state.saves == s.saves)
  {
    var saved := if Dirty(s.objects, owner, s.dirty) && (saveOnClose || dialogSave)
                 then SaveStep(s, owner, false, saveSucceeds).state else s;
    if Dirty(s.objects, owner, s.dirty) && (saveOnClose || dialogSave) {
      SaveWritesChildren(s, owner, saveSucceeds);
    }
    assert saved.loaded;
    UnloadGivesBackChildren(saved, owner);
  }

  /** Giving back children when the owner has none changes nothing. */
  lemma ReleaseWithoutChildren(w: World, owner: ObjId, editing: SceneId)
    requires ChildrenOf(w, owner) == {}
    ensures Release(w, owner, editing) == w
  {
  }

  /** CloseSubscene as written, for every loaded sub-scene: in the editor it returns true and
      the scene is closed; in play mode it returns false and the scene is still loaded. The
      save runs only when the sub-scene is dirty, a save is requested, and it is still dirty
      once the children have been given back; a save that runs writes the scene with every
      root it then holds, every former child among them, and takes them all back under the
      owner, where they stay. Otherwise nothing is saved and the owner keeps no children.
      No marker IsDirty inspects is left. */
  lemma CloseAsWrittenOutcome(s: State, owner: ObjId, saveOnClose: bool, isPlaying: bool,
                              dialogSave: bool, saveSucceeds: bool)
    requires s.loaded && owner in s.objects && owner !in RootsOf(s.objects, s.editingScene)
    ensures var r := CloseStepAsWritten(s, owner, saveOnClose, isPlaying, dialogSave, saveSucceeds);
      var released := UnloadStep(s, owner).objects;
      var saving := && !isPlaying && Dirty(s.objects, owner, s.dirty) && (saveOnClose || dialogSave)
                    && Dirty(released, owner, s.dirty);
      && (r.result <==> !isPlaying)
      && (r.state.loaded <==> isPlaying)
      && (saving ==>
            && r.state.saves == s.saves + [RootsOf(released, s.editingScene)]
            && ChildrenOf(s.objects, owner) <= RootsOf(released, s.editingScene)
            && ChildrenOf(r.state.objects, owner) == RootsOf(released, s.editingScene))
      && (!saving ==> r.state.saves == s.saves && ChildrenOf(r.state.objects, owner) == {})
      && !Dirty(r.state.objects, owner, r.state.dirty)
  {
    var released := UnloadStep(s, owner);
    UnloadGivesBackChildren(s, owner);
    assert released.objects[owner] == s.objects[owner];
    assert owner !in RootsOf(released.objects, s.editingScene);
    if !isPlaying && Dirty(s.objects, owner, s.dirty) && (saveOnClose || dialogSave)
       && Dirty(released.objects, owner, s.dirty) {
      ReleaseWithoutChildren(released.objects, owner, s.editingScene);
      assert UnloadStep(released, owner) == released;
      var saved := SaveStep(released, owner, false, saveSucceeds).state;
      LoadTakesRoots(released, owner);
      assert saved.objects == LoadStep(released, owner).objects;
      assert RootsOf(saved.objects, s.editingScene) == {};
      assert saved.objects - RootsOf(saved.objects, s.editingScene) == saved.objects;
    } else if !isPlaying {
      var closed := CloseSceneStep(released);
      assert forall o :: o in ChildrenOf(closed.objects, owner) ==> o in ChildrenOf(released.objects, owner);
    }
  }

  /** The world of the finding: the owner 0 is a root of scene 1, and object 5, a root of the
      loaded scene 2, is its child. */
  function FindingWorld(): World {
    map[0 := Obj(1, None, false), 5 := Obj(1, Some(0), true)]
  }

  /** Object 5 is the only transform below the owner besides the owner itself. */
  lemma FindingSubtree()
    ensures Subtree(FindingWorld(), 0) == {0, 5}
    ensures Subtree(Release(FindingWorld(), 0, 2), 0) == {0}
  {
    var w := FindingWorld();
    var h := Links(w);
    assert h == map[5 := 0];
    assert Ancestors(h, 5) == [0];
    assert Ancestors(h, 0) == [];
    var u := Release(w, 0, 2);
    assert 5 in ChildrenOf(w, 0);
    assert Links(u) == map[];
    assert Ancestors(Links(u), 5) == [];
  }

  /** Giving back the children in the world of the finding makes object 5 the only root of
      scene 2 and leaves the owner's markers as they were. */
  lemma FindingRelease(dirty: set<Mark>)
    ensures var released := UnloadStep(State(FindingWorld(), 2, true, dirty, []), 0);
      && released.objects == map[0 := Obj(1, None, false), 5 := Obj(2, None, false)]
      && RootsOf(released.objects, 2) == {5}
      && released.dirty == dirty
  {
    var released := UnloadStep(State(FindingWorld(), 2, true, dirty, []), 0);
    assert 5 in ChildrenOf(FindingWorld(), 0);
    assert released.objects == map[0 := Obj(1, None, false), 5 := Obj(2, None, false)];
  }

  /** As written, closing with SaveSubsceneOnClose when only a child's transform is dirty saves
      nothing: SaveSubScene re-checks IsDirty after the child has left the owner. */
  lemma CloseAsWrittenSkipsSave()
    ensures var s := State(FindingWorld(), 2, true, {TransformMark(5)}, []);
      && Dirty(s.objects, 0, s.dirty)
      && CloseStepAsWritten(s, 0, true, false, false, true).state.saves == []
  {
    var s := State(FindingWorld(), 2, true, {TransformMark(5)}, []);
    FindingSubtree();
    FindingRelease(s.dirty);
    var released := UnloadStep(s, 0);
    assert !Dirty(released.objects, 0, released.dirty);
    assert SaveStep(released, 0, false, true).state == released;
  }

  /** With the save moved first, the same close writes scene 2 holding object 5. */
  lemma CloseSavesDirtyChild()
    ensures var s := State(FindingWorld(), 2, true, {TransformMark(5)}, []);
      CloseStepSaveFirst(s, 0, true, false, false, true).state.saves == [{5}]
  {
    var s := State(FindingWorld(), 2, true, {TransformMark(5)}, []);
    FindingSubtree();
    FindingRelease(s.dirty);
    assert Dirty(s.objects, 0, s.dirty);
    var saved := SaveStep(s, 0, false, true).state;
    assert saved.saves == [{5}];
  }

  /** As written, closing with SaveSubsceneOnClose when the owner's GameObject is dirty saves,
      but the save takes the children back under the owner and the scene is then closed with
      them still there, flagged DontSave. */
  lemma CloseAsWrittenLeavesChildren()
    ensures var s := State(FindingWorld(), 2, true, {GameObjectMark(0)}, []);
      var r := CloseStepAsWritten(s, 0, true, false, false, true).state;
      && !r.loaded && 5 in r.objects && r.objects[5] == Obj(1, Some(0), true)
  {
    var s := State(FindingWorld(), 2, true, {GameObjectMark(0)}, []);
    FindingRelease(s.dirty);
    var released := UnloadStep(s, 0);
    var saved := SaveStep(released, 0, false, true).state;
    assert saved.objects[5] == Obj(1, Some(0), true);
    assert 5 !in RootsOf(saved.objects, 2);
  }

  /** The asset path CreateSubsceneFromGameObjects asks for. */
  function SubsceneAssetPath(sceneAssetName: string): string {
    "Assets/Scenes/Subscenes/" + sceneAssetName + ".unity"
  }

  /** The scene name CreateSubsceneFromGameObjects derives from the (uniquified) asset path:
      the text after the last '/', less the length of ".unity" at the end; None where
      String.Substring would throw. */
  function SceneNameFromAssetPath(path: string): (r: Option<string>)
    ensures r.None? <==> |path| - (LastIndexOf(path, '/') + 1) < |".unity"|
    ensures r.Some? ==> '/' !in r.value
    ensures r.Some? ==> |r.value| == |path| - (LastIndexOf(path, '/') + 1) - |".unity"|
  {
    var indexOfName := LastIndexOf(path, '/') + 1;
    var length := |path| - indexOfName - |".unity"|;
    if length < 0 then None else Some(path[indexOfName..indexOfName + length])
  }

  /** For a path `dir/name.unity` the derived scene name is `name`, and it is also what the
      SceneReference `name` property reports for that path. */
  lemma SceneNameOfAssetPath(dir: string, name: string)
    requires '/' !in name
    ensures SceneNameFromAssetPath(dir + "/" + name + ".unity") == Some(name)
    ensures FileNameWithoutExtension(dir + "/" + name + ".unity") == name
  {
    var path := dir + "/" + name + ".unity";
    assert path == dir + ['/'] + (name + ".unity");
    LastIndexOfSplit(dir, '/', name + ".unity");
    assert path[|dir| + 1..|dir| + 1 + |name|] == name;
    assert dir + "/" + name + ".unity" == dir + "/" + name + "." + "unity";
    FileNameOfSplitPath(dir, name, "unity");
  }

  /** The requested sub-scene asset path yields the requested name. */
  lemma SceneNameOfRequestedPath(sceneAssetName: string)
    requires '/' !in sceneAssetName
    ensures SceneNameFromAssetPath(SubsceneAssetPath(sceneAssetName)) == Some(sceneAssetName)
  {
    assert SubsceneAssetPath(sceneAssetName) == "Assets/Scenes/Subscenes" + "/" + sceneAssetName + ".unity";
    SceneNameOfAssetPath("Assets/Scenes/Subscenes", sceneAssetName);
  }

  /** The SubScene component on the game object `owner`. */
  class SubScene {
    const owner: ObjId
    const scene: SceneReferences.SceneReference
    var objects: World
    var editingScene: SceneId
    var loaded: bool
    var dirty: set<Mark>
    var saves: seq<set<ObjId>>

    /** The owner exists and is not itself a root of EditingScene. */
    ghost predicate Valid()
      reads this
    {
      owner in objects && owner !in RootsOf(objects, editingScene)
    }

    function Current(): State
      reads this
    {
      State(objects, editingScene, loaded, dirty, saves)
    }

    /** A SubScene added to `owner`, with EditingScene a scene that is not loaded. */
    constructor (owner: ObjId, scene: SceneReferences.SceneReference, objects: World, editingScene: SceneId)
      requires owner in objects && owner !in RootsOf(objects, editingScene)
      ensures Valid() && this.owner == owner && this.scene == scene
      ensures Current() == State(objects, editingScene, false, {}, [])
    {
      this.owner := owner;
      this.scene := scene;
      this.objects := objects;
      this.editingScene := editingScene;
      loaded := false;
      dirty := {};
      saves := [];
    }

    /** Move every root of EditingScene to the owner's scene, under the owner, DontSave. */
    method LoadSubsceneGameObjects()
      requires Valid()
      modifies this`objects
      ensures Valid()
      ensures Current() == LoadStep(old(Current()), owner)
    {
      if !loaded {
        return;
      }
      var roots := RootsOf(objects, editingScene);
      ghost var before := objects;
      var pending := roots;
      while pending != {}
        invariant pending <= roots
        invariant objects.Keys == before.Keys
        invariant forall o :: o in objects ==>
          objects[o] == if o in roots - pending then Obj(before[owner].scene, Some(owner), true) else before[o]
        decreases pending
      {
        var obj :| obj in pending;
        objects := objects[obj := objects[obj].(scene := objects[owner].scene)];
        objects := objects[obj := objects[obj].(parent := Some(owner))];
        objects := objects[obj := objects[obj].(dontSave := true)];
        pending := pending - {obj};
      }
      assert objects == Adopt(before, owner, editingScene);
    }

    /** Give every direct child of the owner back to EditingScene: clear DontSave, detach,
        move. The owner and deeper descendants are skipped. */
    method UnloadSubsceneGameObjects()
      requires Valid()
      modifies this`objects
      ensures Valid()
      ensures Current() == UnloadStep(old(Current()), owner)
    {
      if !loaded {
        return;
      }
      var transforms := Subtree(objects, owner);
      ghost var before := objects;
      var pending := transforms;
      while pending != {}
        invariant pending <= transforms
        invariant objects.Keys == before.Keys
        invariant forall o :: o in objects ==>
          objects[o] == if o in ChildrenOf(before, owner) && o !in pending then Obj(editingScene, None, false) else before[o]
        decreases pending
      {
        var child :| child in pending;
        pending := pending - {child};
        if child == owner || objects[child].parent != Some(owner) {
          continue;
        }
        objects := objects[child := objects[child].(dontSave := false)];
        objects := objects[child := objects[child].(parent := None)];
        objects := objects[child := objects[child].(scene := editingScene)];
      }
      forall o | o in ChildrenOf(before, owner) ensures o in transforms {
        ChildInSubtree(before, owner, o);
      }
      assert objects == Release(before, owner, editingScene);
    }

    /** Clear the marker on the owner's GameObject and on every transform at or below it. */
    method ClearDirty()
      modifies this`dirty
      ensures Current() == CleanStep(old(Current()), owner)
    {
      dirty := dirty - {GameObjectMark(owner)};
      var transforms := Subtree(objects, owner);
      ghost var start := dirty;
      var pending := transforms;
      while pending != {}
        invariant pending <= transforms
        invariant dirty <= start
        invariant forall m :: m in start ==> (m in dirty <==> !(m.TransformMark? && m.id in transforms - pending))
        decreases pending
      {
        var t :| t in pending;
        dirty := dirty - {TransformMark(t)};
        pending := pending - {t};
      }
      assert dirty == Cleaned(objects, owner, old(dirty));
    }

    /** IsDirty: the owner's GameObject, or any transform at or below it, is marked. */
    method IsDirty() returns (r: bool)
      ensures r == Dirty(objects, owner, dirty)
    {
      if GameObjectMark(owner) in dirty {
        return true;
      }
      var transforms := Subtree(objects, owner);
      var pending := transforms;
      while pending != {}
        invariant pending <= transforms
        invariant forall t :: t in transforms && t !in pending ==> TransformMark(t) !in dirty
        decreases pending
      {
        var t :| t in pending;
        if TransformMark(t) in dirty {
          return true;
        }
        pending := pending - {t};
      }
      return false;
    }

    /** EditorSceneManager.CloseScene(EditingScene, true). */
    method CloseScene()
      requires Valid()
      modifies this`objects, this`loaded
      ensures Valid()
      ensures Current() == CloseSceneStep(old(Current()))
    {
      objects := objects - RootsOf(objects, editingScene);
      loaded := false;
    }

    /** SaveSubScene; `saveSucceeds` is what EditorSceneManager.SaveScene returns. */
    method SaveSubScene(isPlaying: bool, saveSucceeds: bool) returns (saved: bool)
      requires Valid()
      modifies this`objects, this`dirty, this`saves
      ensures Valid()
      ensures Outcome(Current(), saved) == SaveStep(old(Current()), owner, isPlaying, saveSucceeds)
    {
      if isPlaying {
        return false;
      }
      var isDirty := IsDirty();
      if !isDirty {
        return false;
      }
      UnloadSubsceneGameObjects();
      saves := saves + [RootsOf(objects, editingScene)];
      saved := saveSucceeds;
      LoadSubsceneGameObjects();
      if saved {
        ClearDirty();
      }
    }

    /** OpenSubscene in the editor: `openedScene` is the scene EditorSceneManager.OpenScene opens
        and `contents` the objects it creates. The active scene is restored afterwards, so it
        is left unchanged. */
    method OpenSubscene(db: AssetDb, openedScene: SceneId, contents: World) returns (isOpen: bool)
      requires Valid()
      requires objects.Keys !! contents.Keys && owner !in RootsOf(objects, openedScene)
      modifies this`objects, this`editingScene, this`loaded, this`dirty
      ensures Valid()
      ensures Outcome(Current(), isOpen) ==
        OpenStep(old(Current()), owner, SceneReferences.IsValidSceneAsset(db, scene.State()), openedScene, contents)
    {
      if !SceneReferences.IsValidSceneAsset(db, scene.State()) {
        return false;
      }
      editingScene := openedScene;
      objects := objects + contents;
      loaded := true;
      LoadSubsceneGameObjects();
      ClearDirty();
      isOpen := loaded;
    }

    /** CloseSubscene in the source's order: the children are given back before the save
        (see the finding in the README). In play mode the engine's asynchronous unload leaves
        the scene loaded on return. */
    method CloseSubscene(saveOnClose: bool, isPlaying: bool, dialogSave: bool, saveSucceeds: bool)
      returns (closed: bool)
      requires Valid()
      modifies this`objects, this`loaded, this`dirty, this`saves
      ensures Valid()
      ensures Outcome(Current(), closed) ==
        CloseStepAsWritten(old(Current()), owner, saveOnClose, isPlaying, dialogSave, saveSucceeds)
    {
      if !loaded {
        return true;
      }
      var isDirty := IsDirty();
      UnloadSubsceneGameObjects();
      if !isPlaying {
        if isDirty && (saveOnClose || dialogSave) {
          var _ := SaveSubScene(false, saveSucceeds);
        }
        CloseScene();
      }
      ClearDirty();
      closed := !loaded;
    }

    /** CloseSubscene corrected: the save is taken before the children are given back. */
    method CloseSubsceneSaveFirst(saveOnClose: bool, isPlaying: bool, dialogSave: bool, saveSucceeds: bool)
      returns (closed: bool)
      requires Valid()
      modifies this`objects, this`loaded, this`dirty, this`saves
      ensures Valid()
      ensures Outcome(Current(), closed) ==
        CloseStepSaveFirst(old(Current()), owner, saveOnClose, isPlaying, dialogSave, saveSucceeds)
    {
      if !loaded {
        return true;
      }
      var isDirty := IsDirty();
      if !isPlaying && isDirty && (saveOnClose || dialogSave) {
        var _ := SaveSubScene(false, saveSucceeds);
      }
      UnloadSubsceneGameObjects();
      if !isPlaying {
        CloseScene();
      }
      ClearDirty();
      closed := !loaded;
    }

    /** OnDestroy: close, asking for a save in the editor and not in play mode. */
    method OnDestroy(isPlaying: bool, saveSucceeds: bool)
      requires Valid()
      modifies this`objects, this`loaded, this`dirty, this`saves
      ensures Valid()
      ensures Current() == CloseStepAsWritten(old(Current()), owner, !isPlaying, isPlaying, false, saveSucceeds).state
    {
      if !isPlaying {
        var _ := CloseSubscene(true, false, false, saveSucceeds);
        return;
      }
      var _ := CloseSubscene(false, true, false, saveSucceeds);
    }
  }
}
