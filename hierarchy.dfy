/** The transform hierarchy as parent links. Walks along the links are bounded by the
    number of links, which is enough to reach a root whenever the hierarchy is a forest. */
module Hierarchy {
  import opened Base

  /** A game object together with its transform. */
  type ObjId = nat

  /** The parent of each object that has one; an object absent from the map is a root. */
  type Links = map<ObjId, ObjId>

  /** Transform.parent. */
  function Parent(h: Links, o: ObjId): Option<ObjId> {
    if o in h then Some(h[o]) else None
  }

  /** The objects visited by `while (trans != null) { ...; trans = trans.parent; }` from
      `start`, cut off after `fuel` objects. */
  function Walk(h: Links, start: Option<ObjId>, fuel: nat): (w: seq<ObjId>)
    ensures |w| <= fuel
    decreases fuel
  {
    if start.None? || fuel == 0 then [] else [start.value] + Walk(h, Parent(h, start.value), fuel - 1)
  }

  /** The walk from `start` reaches a root within `fuel` objects. */
  predicate Ends(h: Links, start: Option<ObjId>, fuel: nat)
    decreases fuel
  {
    start.None? || (fuel > 0 && Ends(h, Parent(h, start.value), fuel - 1))
  }

  /** The hierarchy is a forest: following parents from any object reaches a root. */
  ghost predicate Acyclic(h: Links) {
    forall o :: Ends(h, Parent(h, o), |h|)
  }

  /** The strict ancestors of `o`, nearest first. */
  function Ancestors(h: Links, o: ObjId): seq<ObjId> {
    Walk(h, Parent(h, o), |h|)
  }

  /** A walk that ends within `fuel` objects visits the same objects with more fuel. */
  lemma {:induction false} WalkMoreFuel(h: Links, start: Option<ObjId>, fuel: nat, more: nat)
    requires Ends(h, start, fuel) && fuel <= more
    ensures Ends(h, start, more)
    ensures Walk(h, start, fuel) == Walk(h, start, more)
    decreases fuel
  {
    if start.Some? {
      WalkMoreFuel(h, Parent(h, start.value), fuel - 1, more - 1);
    }
  }

  /** In a forest the ancestors of a child are its parent followed by the parent's ancestors. */
  lemma AncestorsOfChild(h: Links, o: ObjId)
    requires Acyclic(h) && o in h
    ensures Ancestors(h, o) == [h[o]] + Ancestors(h, h[o])
  {
    assert Ends(h, Parent(h, o), |h|);
    WalkMoreFuel(h, Parent(h, h[o]), |h| - 1, |h|);
  }

  /** The ancestors of the k-th ancestor of `o` are the ancestors of `o` after position k. */
  lemma {:induction false} AncestorsOfAncestor(h: Links, o: ObjId, k: nat)
    requires Acyclic(h) && k < |Ancestors(h, o)|
    ensures Ancestors(h, Ancestors(h, o)[k]) == Ancestors(h, o)[k + 1..]
    decreases k
  {
    assert o in h;
    AncestorsOfChild(h, o);
    if k > 0 {
      AncestorsOfAncestor(h, h[o], k - 1);
    }
  }

  /** No object is its own ancestor. */
  lemma NotOwnAncestor(h: Links, o: ObjId)
    requires Acyclic(h)
    ensures o !in Ancestors(h, o)
  {
    if o in Ancestors(h, o) {
      var k :| 0 <= k < |Ancestors(h, o)| && Ancestors(h, o)[k] == o;
      AncestorsOfAncestor(h, o, k);
    }
  }
}
