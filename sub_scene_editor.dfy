/** The SubScene inspector and hierarchy helpers: the counter that makes the "New Subscene
    From Selection" menu command run once for a multi-object selection, the parent-chain
    walks used to indent the hierarchy, and the load toggle drawn beside each SubScene. */
module SubSceneEditor {
  import opened Base
  import opened Hierarchy
  import opened Assets
  import SceneReferences
  import SubScenes

  /** The counter after one call of the menu command, and whether that call goes on to build
      the sub-scene. */
  datatype Guard = Guard(counter: nat, proceeds: bool)

  /** CreateCustomGameObject's guard, for `selected` transforms in the selection. A call that
      proceeds resets the counter; one that returns early leaves it below `selected`. */
  function GuardStep(counter: nat, selected: nat): (r: Guard)
    ensures r.proceeds <==> r.counter == 0
    ensures !r.proceeds ==> r.counter == counter + 1 && r.counter < selected
    ensures counter + 1 < selected ==> !r.proceeds
    ensures counter + 1 >= selected ==> r == Guard(0, true)
  {
    if counter < selected then
      if counter + 1 < selected then Guard(counter + 1, false) else Guard(0, true)
    else Guard(0, true)
  }

  /** The counter after `calls` calls of the command with the same selection. */
  function CounterAfter(counter: nat, selected: nat, calls: nat): nat
    decreases calls
  {
    if calls == 0 then counter else GuardStep(CounterAfter(counter, selected, calls - 1), selected).counter
  }

  /** The menu command is invoked once per selected object: starting from 0 with n selected,
      the first n-1 calls return early and the n-th proceeds and resets the counter. */
  lemma {:induction false} OneRunPerSelection(selected: nat, calls: nat)
    requires calls < selected
    ensures CounterAfter(0, selected, calls) == calls
    ensures calls + 1 < selected ==> !GuardStep(calls, selected).proceeds
    ensures calls + 1 == selected ==> GuardStep(calls, selected) == Guard(0, true)
    decreases calls
  {
    if calls > 0 {
      OneRunPerSelection(selected, calls - 1);
    }
  }

  /** The static ObjectsSelected counter. */
  class SelectionCounter {
    var objectsSelected: nat

    constructor ()
      ensures objectsSelected == 0
    {
      objectsSelected := 0;
    }

    /** CreateCustomGameObject's guard; when it proceeds the command builds a sub-scene from
        the top-level selected objects. */
    method CreateCustomGameObject(selectionCount: nat) returns (proceeds: bool)
      modifies this`objectsSelected
      ensures Guard(objectsSelected, proceeds) == GuardStep(old(objectsSelected), selectionCount)
    {
      if objectsSelected < selectionCount {
        objectsSelected := objectsSelected + 1;
        if objectsSelected < selectionCount {
          return false;
        }
      }
      objectsSelected := 0;
      proceeds := true;
    }

    /** Initialize resets the counter. */
    method Initialize()
      modifies this`objectsSelected
      ensures objectsSelected == 0
    {
      objectsSelected := 0;
    }
  }

  /** GetDepth: the number of strict ancestors of `transform`. */
  method GetDepth(h: Links, transform: ObjId) returns (count: nat)
    requires Acyclic(h)
    ensures count == |Ancestors(h, transform)|
    ensures transform !in h ==> count == 0
  {
    count := 0;
    var trans := Parent(h, transform);
    ghost var fuel: nat := |h|;
    while trans.Some?
      invariant Ends(h, trans, fuel)
      invariant count + |Walk(h, trans, fuel)| == |Ancestors(h, transform)|
      decreases fuel
    {
      count := count + 1;
      trans := Parent(h, trans.value);
      fuel := fuel - 1;
    }
  }

  /** A child is one level deeper than its parent. */
  lemma DepthOfChild(h: Links, o: ObjId)
    requires Acyclic(h) && o in h
    ensures |Ancestors(h, o)| == |Ancestors(h, h[o])| + 1
  {
    AncestorsOfChild(h, o);
  }

  /** SubsceneParent: the nearest strict ancestor carrying a SubScene (one of `subScenes`),
      never the object itself, or None when no ancestor carries one. */
  method SubsceneParent(h: Links, subScenes: set<ObjId>, transform: ObjId) returns (r: Option<ObjId>)
    requires Acyclic(h)
    ensures r.None? <==> forall i :: 0 <= i < |Ancestors(h, transform)| ==> Ancestors(h, transform)[i] !in subScenes
    ensures r.Some? ==> r.value in subScenes && r.value != transform
    ensures r.Some? ==>
      exists k :: 0 <= k < |Ancestors(h, transform)| && Ancestors(h, transform)[k] == r.value &&
        forall i :: 0 <= i < k ==> Ancestors(h, transform)[i] !in subScenes
  {
    var up := Ancestors(h, transform);
    NotOwnAncestor(h, transform);
    var trans := Parent(h, transform);
    ghost var fuel: nat := |h|;
    ghost var k := 0;
    while trans.Some?
      invariant 0 <= k <= |up|
      invariant Ends(h, trans, fuel)
      invariant Walk(h, trans, fuel) == up[k..]
      invariant forall i :: 0 <= i < k ==> up[i] !in subScenes
      decreases fuel
    {
      assert up[k..] == [trans.value] + Walk(h, Parent(h, trans.value), fuel - 1);
      assert up[k] == trans.value;
      if trans.value in subScenes {
        return trans;
      }
      assert up[k + 1..] == up[k..][1..];
      trans := Parent(h, trans.value);
      fuel := fuel - 1;
      k := k + 1;
    }
    assert k == |up|;
    return None;
  }

  /** DrawToggle outside play mode: switching off runs CloseSubscene without forcing a save
      (the close dialog's answer is `dialogSave`), switching on opens, an unchanged toggle
      does nothing. */
  function ToggleStep(s: SubScenes.State, owner: ObjId, newLoaded: bool, referenceValid: bool,
                      openedScene: SubScenes.SceneId, contents: SubScenes.World,
                      dialogSave: bool, saveSucceeds: bool): SubScenes.State
    requires owner in s.objects
  {
    if newLoaded == s.loaded then s
    else if s.loaded then SubScenes.CloseStepAsWritten(s, owner, false, false, dialogSave, saveSucceeds).state
    else SubScenes.OpenStep(s, owner, referenceValid, openedScene, contents).state
  }

  /** Switching a loaded sub-scene off closes it. When the dialog answers Save for a
      sub-scene that is dirty and still dirty once its children are given back, the scene is
      saved once with every former child in it, and the children end under the owner again;
      otherwise nothing is saved and the owner keeps no children. Switching an unloaded one
      on with a valid reference loads it with every root of the opened scene taken as a
      DontSave child of the owner and nothing dirty, and with an invalid reference changes
      nothing; an unchanged toggle changes nothing. */
  lemma ToggleOpensOrCloses(s: SubScenes.State, owner: ObjId, newLoaded: bool, referenceValid: bool,
                            openedScene: SubScenes.SceneId, contents: SubScenes.World,
                            dialogSave: bool, saveSucceeds: bool)
    requires owner in s.objects && owner !in SubScenes.RootsOf(s.objects, s.editingScene)
    requires owner !in contents && owner !in SubScenes.RootsOf(s.objects, openedScene)
    ensures var r := ToggleStep(s, owner, newLoaded, referenceValid, openedScene, contents, dialogSave, saveSucceeds);
      var saving := dialogSave && SubScenes.Dirty(s.objects, owner, s.dirty)
                    && SubScenes.Dirty(SubScenes.UnloadStep(s, owner).objects, owner, s.dirty);
      && (newLoaded == s.loaded ==> r == s)
      && (s.loaded && !newLoaded ==>
            && !r.loaded
            && (saving ==>
                  && |r.saves| == |s.saves| + 1
                  && SubScenes.ChildrenOf(s.objects, owner) <= r.saves[|s.saves|]
                  && SubScenes.ChildrenOf(s.objects, owner) <= SubScenes.ChildrenOf(r.objects, owner))
            && (!saving ==> r.saves == s.saves && SubScenes.ChildrenOf(r.objects, owner) == {}))
      && (!s.loaded && newLoaded && referenceValid ==>
            && r.loaded && r.editingScene == openedScene
            && SubScenes.RootsOf(r.objects, openedScene) == {}
            && (forall o :: o in SubScenes.RootsOf(s.objects + contents, openedScene) ==>
                  o in SubScenes.ChildrenOf(r.objects, owner) && r.objects[o].dontSave)
            && !SubScenes.Dirty(r.objects, owner, r.dirty))
      && (!s.loaded && newLoaded && !referenceValid ==> r == s)
  {
    if s.loaded && !newLoaded {
      SubScenes.CloseAsWrittenOutcome(s, owner, false, false, dialogSave, saveSucceeds);
    }
    if !s.loaded && newLoaded && referenceValid {
      SubScenes.OpenLoadsRoots(s, owner, openedScene, contents);
    }
  }

  /** DrawToggle outside play mode; returns whether the hierarchy window is repainted. */
  method DrawToggle(db: AssetDb, subscene: SubScenes.SubScene, newLoaded: bool, openedScene: SubScenes.SceneId,
                    contents: SubScenes.World, dialogSave: bool, saveSucceeds: bool) returns (repaints: bool)
    requires subscene.Valid()
    requires subscene.objects.Keys !! contents.Keys && subscene.owner !in SubScenes.RootsOf(subscene.objects, openedScene)
    modifies subscene
    ensures subscene.Valid()
    ensures repaints == (newLoaded != old(subscene.loaded))
    ensures subscene.Current() == ToggleStep(old(subscene.Current()), subscene.owner, newLoaded,
      SceneReferences.IsValidSceneAsset(db, subscene.scene.State()), openedScene, contents, dialogSave, saveSucceeds)
  {
    repaints := false;
    if newLoaded != subscene.loaded {
      if subscene.loaded && !newLoaded {
        var _ := subscene.CloseSubscene(false, false, dialogSave, saveSucceeds);
      } else if !subscene.loaded && newLoaded {
        var _ := subscene.OpenSubscene(db, openedScene, contents);
      }
      repaints := true;
    }
  }
}
