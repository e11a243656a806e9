/** The inspector of a TransmissionCollection: a reorderable list over the collection's
    transmissions with rename, add, reorder and remove callbacks, and a set of renamed
    transmissions saved when the inspector is disabled. Transmissions are identified by
    number; the asset database calls are recorded as changes to the collection's sub-assets
    and to the log of saved sub-assets. */
module TransmissionEditor {
  import opened Base

  /** A Transmission ScriptableObject. */
  type TransmissionId = nat

  /** The height of a drawn row: EditorGUIUtility.singleLineHeight (18) plus
      EditorGUIUtility.standardVerticalSpacing (2). */
  const RowHeight: nat := 20

  /** The Index.Between extension, inclusive at both ends. */
  predicate Between(index: int, lo: int, hi: int) {
    lo <= index <= hi
  }

  /** What Mathf.Clamp(value, lo, hi) is relied on to return: the value limited to [lo, hi]
      when that range is not empty. Nothing is assumed when lo > hi. */
  predicate ClampContract(value: int, lo: int, hi: int, r: int) {
    lo <= hi ==> r == (if value < lo then lo else if value > hi then hi else value)
  }

  /** List.RemoveAt. */
  function RemovedAt(s: seq<TransmissionId>, i: nat): (r: seq<TransmissionId>)
    requires i < |s|
    ensures |r| == |s| - 1
  {
    s[..i] + s[i + 1..]
  }

  /** RemoveAt drops exactly the element at the index: the elements before it keep their
      positions, those after it move down by one, and the contents lose one copy of it. */
  lemma RemovedAtKeepsOthers(s: seq<TransmissionId>, i: nat)
    requires i < |s|
    ensures forall j :: 0 <= j < i ==> RemovedAt(s, i)[j] == s[j]
    ensures forall j :: i <= j < |s| - 1 ==> RemovedAt(s, i)[j] == s[j + 1]
    ensures multiset(RemovedAt(s, i)) + multiset{s[i]} == multiset(s)
  {
    assert s == s[..i] + [s[i]] + s[i + 1..];
  }

  /** A ReorderableList drag: the element at `from` is taken out and inserted at `to`. */
  function Moved(s: seq<TransmissionId>, from: nat, to: nat): (r: seq<TransmissionId>)
    requires from < |s| && to < |s|
    ensures |r| == |s|
  {
    var rest := RemovedAt(s, from);
    rest[..to] + [s[from]] + rest[to..]
  }

  /** A drag is a permutation that puts the dragged element at its new position. */
  lemma MovedPermutes(s: seq<TransmissionId>, from: nat, to: nat)
    requires from < |s| && to < |s|
    ensures multiset(Moved(s, from, to)) == multiset(s)
    ensures Moved(s, from, to)[to] == s[from]
  {
    var rest := RemovedAt(s, from);
    RemovedAtKeepsOthers(s, from);
    assert rest == rest[..to] + rest[to..];
  }

  /** After a removal the clamped selection lies inside the shortened list, unless the list
      is now empty. */
  lemma ClampedIndexInRange(index: int, count: nat, r: int)
    requires count > 0 && ClampContract(index, 0, count - 1, r)
    ensures 0 <= r < count
  {
  }

  /** The inspector's state, together with the parts of the collection and of the asset
      database it changes. */
  class TransmissionCollectionEditor {
    /** m_collection.transmissionList. */
    var transmissionList: seq<TransmissionId>
    /** m_reorderableList.list. */
    var listView: seq<TransmissionId>
    /** m_reorderableList.index, -1 when nothing is selected. */
    var index: int
    /** Each transmission's name. */
    var names: map<TransmissionId, string>
    /** The objects stored inside the collection's asset file. */
    var subAssets: set<TransmissionId>
    /** m_dirtyTransmissions. */
    var dirtyTransmissions: set<TransmissionId>
    /** The transmissions passed to AssetUtil.SaveSubAsset, in call order. */
    var savedSubAssets: seq<TransmissionId>

    /** The list shows the collection's list, and every listed transmission has a name. */
    ghost predicate Valid()
      reads this
    {
      listView == transmissionList && forall t :: t in transmissionList ==> t in names
    }

    /** OnEnable: the list control gets a copy of the collection's list. */
    constructor OnEnable(transmissionList: seq<TransmissionId>, names: map<TransmissionId, string>, subAssets: set<TransmissionId>)
      requires forall t :: t in transmissionList ==> t in names
      ensures Valid()
      ensures this.transmissionList == transmissionList && listView == transmissionList && index == -1
      ensures this.names == names && this.subAssets == subAssets
      ensures dirtyTransmissions == {} && savedSubAssets == []
    {
      this.transmissionList := transmissionList;
      listView := transmissionList;
      index := -1;
      this.names := names;
      this.subAssets := subAssets;
      dirtyTransmissions := {};
      savedSubAssets := [];
    }

    /** drawElementCallback: outside the list nothing happens; otherwise the row's name field
        is drawn, and an edit (`edit`, the text the field returns when changed) renames the
        transmission and records it as dirty. */
    method DrawElementCallback(i: int, edit: Option<string>)
      requires Valid()
      modifies this`names, this`dirtyTransmissions
      ensures Valid()
      ensures !Between(i, 0, |transmissionList| - 1) || edit.None? ==>
        names == old(names) && dirtyTransmissions == old(dirtyTransmissions)
      ensures Between(i, 0, |transmissionList| - 1) && edit.Some? ==>
        && names == old(names)[transmissionList[i] := edit.value]
        && dirtyTransmissions == old(dirtyTransmissions) + {transmissionList[i]}
    {
      if !Between(i, 0, |transmissionList| - 1) {
        return;
      }
      var transmission := transmissionList[i];
      if edit.Some? {
        names := names[transmission := edit.value];
        dirtyTransmissions := dirtyTransmissions + {transmission};
      }
    }

    /** ElementHeightCallback: one row for an index inside the list, nothing otherwise. */
    function ElementHeightCallback(i: int): (height: nat)
      reads this
      ensures height > 0 <==> 0 <= i < |transmissionList|
    {
      if !Between(i, 0, |transmissionList| - 1) then 0 else RowHeight
    }

    /** OnCanAddCallback: adding is always allowed. */
    function OnCanAddCallback(): (allowed: bool)
      ensures allowed
    {
      true
    }

    /** OnAddDropdownCallback: a new transmission `t`, named `name` (a fresh GUID string), is
        appended to the collection, stored in its asset file, and shown by the list. */
    method OnAddDropdownCallback(t: TransmissionId, name: string)
      requires Valid() && t !in transmissionList && t !in subAssets
      modifies this`transmissionList, this`listView, this`names, this`subAssets
      ensures Valid()
      ensures transmissionList == old(transmissionList) + [t] && listView == transmissionList
      ensures names == old(names)[t := name] && subAssets == old(subAssets) + {t}
    {
      names := names[t := name];
      transmissionList := transmissionList + [t];
      subAssets := subAssets + {t};
      listView := transmissionList;
    }

    /** onReorderCallbackWithDetails: the collection takes the list the control reordered. */
    method OnReorderCallback()
      modifies this`transmissionList
      ensures transmissionList == listView
    {
      transmissionList := listView;
    }

    /** A drag in the list control from `from` to `to`: the control moves the element,
        selects it at its new position, and then calls its reorder callback. */
    method Reorder(from: nat, to: nat)
      requires Valid() && from < |listView| && to < |listView|
      modifies this`transmissionList, this`listView, this`index
      ensures Valid()
      ensures transmissionList == Moved(old(transmissionList), from, to)
      ensures index == to && transmissionList[index] == old(transmissionList)[from]
    {
      listView := Moved(listView, from, to);
      index := to;
      MovedPermutes(old(listView), from, to);
      assert forall t :: t in listView ==> t in multiset(old(listView));
      OnReorderCallback();
      MovedPermutes(old(transmissionList), from, to);
    }

    /** OnCanRemoveCallback: removal is allowed when the collection is not empty. */
    function OnCanRemoveCallback(): (allowed: bool)
      reads this
      ensures allowed <==> |transmissionList| != 0
    {
      |transmissionList| > 0
    }

    /** OnRemoveCallback: the selected transmission leaves the list and the asset file, and
        the selection is clamped to the shortened list (`clampResult` is what Mathf.Clamp
        returns). */
    method OnRemoveCallback(clampResult: int)
      requires Valid() && 0 <= index < |transmissionList|
      requires ClampContract(index, 0, |transmissionList| - 2, clampResult)
      modifies this`transmissionList, this`listView, this`index, this`subAssets
      ensures Valid()
      ensures transmissionList == RemovedAt(old(transmissionList), old(index)) && listView == transmissionList
      ensures subAssets == old(subAssets) - {old(transmissionList)[old(index)]}
      ensures index == clampResult
    {
      var transmission := transmissionList[index];
      transmissionList := RemovedAt(transmissionList, index);
      listView := transmissionList;
      index := clampResult;
      subAssets := subAssets - {transmission};
    }

    /** OnDisable: every dirty transmission is saved, each exactly once. */
    method OnDisable()
      modifies this`savedSubAssets
      ensures |savedSubAssets| == |old(savedSubAssets)| + |dirtyTransmissions|
      ensures savedSubAssets[..|old(savedSubAssets)|] == old(savedSubAssets)
      ensures multiset(savedSubAssets[|old(savedSubAssets)|..]) == multiset(dirtyTransmissions)
    {
      var pending := dirtyTransmissions;
      ghost var done: seq<TransmissionId> := [];
      while pending != {}
        invariant pending <= dirtyTransmissions
        invariant savedSubAssets == old(savedSubAssets) + done
        invariant multiset(done) + multiset(pending) == multiset(dirtyTransmissions)
        invariant |done| + |pending| == |dirtyTransmissions|
        decreases pending
      {
        var transmission :| transmission in pending;
        savedSubAssets := savedSubAssets + [transmission];
        done := done + [transmission];
        pending := pending - {transmission};
      }
      assert savedSubAssets[|old(savedSubAssets)|..] == done;
    }
  }
}
