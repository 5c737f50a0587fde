/** updateChildren over arrays and a DOM parent changed in place. */
module VuePatch {
  import opened Common
  import opened VueDiff

  /** patchVnode, as far as the child list is concerned: the element is taken over. */
  method PatchVnode(oldVnode: VNode, newCh: array<VNode>, j: int)
    requires 0 <= j < newCh.Length
    modifies newCh
    ensures newCh[..] == old(newCh[..])[j := old(newCh[j]).(elm := oldVnode.elm)]
  {
    newCh[j] := newCh[j].(elm := oldVnode.elm);
  }

  /** createElm: a new element, inserted before `ref` or appended. */
  method CreateElm(newCh: array<VNode>, j: int, parent: Parent, ref: Option<Elm>)
    requires 0 <= j < newCh.Length && (ref.Some? ==> ref.value in parent.children)
    modifies newCh, parent
    ensures newCh[..] == old(newCh[..])[j := old(newCh[j]).(elm := Some(old(parent.created)))]
    ensures parent.children == Inserted(old(parent.children), old(parent.created), ref) && parent.created == old(parent.created) + 1
  {
    var e := parent.CreateElement();
    newCh[j] := newCh[j].(elm := Some(e));
    parent.InsertBefore(e, ref);
  }

  /** The frame is what the arrays and the parent hold. */
  ghost predicate Fits(f: Frame, parent: Parent, oldCh: array<Option<VNode>>, newCh: array<VNode>)
    reads parent, oldCh, newCh
  {
    f.slots == oldCh[..] && f.after == newCh[..] && f.children == parent.children && f.created == parent.created
  }

  function At(slots: seq<Option<VNode>>, i: int): Option<VNode> {
    if 0 <= i < |slots| then slots[i] else None
  }

  /** The children before the diff. */
  ghost function Values(slots: seq<Option<VNode>>): seq<VNode>
    requires forall i :: 0 <= i < |slots| ==> slots[i].Some?
  {
    seq(|slots|, i requires 0 <= i < |slots| => slots[i].value)
  }

  /** Two lists of vnodes that differ in elements only. */
  ghost predicate SameShapes(a: seq<VNode>, b: seq<VNode>) {
    |a| == |b| && forall j :: 0 <= j < |a| ==> a[j].(elm := None) == b[j].(elm := None)
  }

  /** What a caller hands over: the parent shows exactly the old children, keys are distinct. */
  ghost predicate Given(slots: seq<Option<VNode>>, after: seq<VNode>, children: seq<Elm>, created: Elm) {
    && (forall i :: 0 <= i < |slots| ==> slots[i].Some? && slots[i].value.elm.Some?)
    && children == Elms(Values(slots)) && Distinct(children)
    && (forall e :: e in multiset(children) ==> e < created)
    && DistinctKeys(Values(slots)) && DistinctKeys(after)
  }

  ghost function InitialFrame(slots: seq<Option<VNode>>, after: seq<VNode>, children: seq<Elm>, created: Elm): Frame
    requires Given(slots, after, children, created)
  {
    Frame(Values(slots), slots, after, children, 0, |slots| - 1, 0, |after| - 1,
      created, created, seq(|slots|, i => -1), seq(|after|, j => -1))
  }

  lemma {:induction false} LeftAll(slots: seq<Option<VNode>>, a: int)
    requires 0 <= a <= |slots| && forall i :: 0 <= i < |slots| ==> slots[i].Some?
    ensures Left(slots, a, |slots|) == Elms(Values(slots)[a..])
    decreases |slots| - a
  {
    if a < |slots| {
      LeftAll(slots, a + 1);
      assert Values(slots)[a..] == [slots[a].value] + Values(slots)[a + 1..];
    }
  }

  lemma InitialInv(slots: seq<Option<VNode>>, after: seq<VNode>, children: seq<Elm>, created: Elm)
    requires Given(slots, after, children, created)
    ensures Inv(InitialFrame(slots, after, children, created))
  {
    var f := InitialFrame(slots, after, children, created);
    assert Windows(f);
    assert Linked(f) by {
      hide DistinctKeys, Elms, Ordered;
    }
    hide Linked, Windows, DistinctKeys;
    LeftAll(slots, 0);
    hide Left;
    assert Elms(after[..0]) == [] && Elms(after[|after|..]) == [];
    assert Values(slots)[0..] == Values(slots);
  }

  /** The loop of updateChildren is somewhere between its start and its end. */
  ghost predicate Running(f: Frame, before: seq<VNode>, base: Elm, after: seq<VNode>, keys: Option<map<Key, int>>) {
    && Inv(f) && f.before == before && f.base == base && base <= f.created && SameShapes(after, f.after)
    && (keys.Some? ==> KeyIndex(f, keys.value))
    && (keys.None? ==> forall i :: f.oldStart <= i <= f.oldEnd ==> f.slots[i].Some?)
  }

  lemma Goes(f: Frame, f': Frame, before: seq<VNode>, base: Elm, after: seq<VNode>, keys: Option<map<Key, int>>)
    requires Running(f, before, base, after, keys) && Inv(f')
    requires f'.before == f.before && f'.base == f.base && f.created <= f'.created && SameShapes(f.after, f'.after)
    requires f.oldStart <= f'.oldStart && f'.oldEnd <= f.oldEnd
    requires forall i :: 0 <= i < |f.before| && f'.slots[i].Some? ==> f.slots[i].Some?
    requires keys.None? ==> f'.slots == f.slots
    ensures Running(f', before, base, after, keys)
  {
    hide Ordered, Linked;
    if keys.Some? {
      KeyIndexStays(f, f', keys.value);
    }
  }

  lemma {:induction false} NextPresent(s: seq<Elm>, e: Elm)
    ensures Next(s, e).Some? ==> Next(s, e).value in s
    decreases |s|
  {
    if |s| >= 2 {
      NextPresent(s[1..], e);
    }
  }

  lemma StartPresent(f: Frame)
    requires Inside(f) && f.slots[f.oldStart].Some?
    ensures Elem(f, f.oldStart) in f.children && f.slots[f.oldStart] == Some(f.before[f.oldStart])
    ensures f.before[f.oldStart].elm == Some(Elem(f, f.oldStart))
    ensures Some(Elem(f, f.oldStart)) == First(Left(f.slots, f.oldStart, f.oldEnd + 1) + Elms(f.after[f.newEnd + 1..]))
  {
    hide Linked, Distinct, DistinctKeys;
    var m := Left(f.slots, f.oldStart, f.oldEnd + 1);
    assert m[0] == Elem(f, f.oldStart);
    assert f.children[|Elms(f.after[..f.newStart])|] == m[0];
  }

  lemma SlotIs(f: Frame, i: int)
    requires Inv(f) && 0 <= i < |f.before| && f.slots[i].Some?
    ensures f.slots[i] == Some(f.before[i]) && f.before[i].elm == Some(Elem(f, i))
  {
    hide Ordered, Linked, DistinctKeys;
  }

  lemma SameShapesAt(a: seq<VNode>, j: int, e: Option<Elm>)
    requires 0 <= j < |a|
    ensures SameShapes(a, a[j := a[j].(elm := e)])
  {
  }

  lemma ShapesTrans(a: seq<VNode>, b: seq<VNode>, c: seq<VNode>)
    requires SameShapes(a, b) && SameShapes(b, c)
    ensures SameShapes(a, c)
  {
  }

  /** Where the next new child may be among the old ones; the index is made when it is first needed. */
  method Locate(ghost f: Frame, oldCh: array<Option<VNode>>, node: VNode, oldStart: int, oldEnd: int, keys: Option<map<Key, int>>)
    returns (keys': Option<map<Key, int>>, idx: Option<int>)
    requires Inside(f) && f.slots == oldCh[..] && node == f.after[f.newStart] && f.oldStart == oldStart && f.oldEnd == oldEnd
    requires f.slots[oldStart].Some? && f.slots[oldEnd].Some?
    requires !SameVnode(f.before[oldStart], node) && !SameVnode(f.before[oldEnd], node)
    requires keys.Some? ==> KeyIndex(f, keys.value)
    requires keys.None? ==> forall i :: oldStart <= i <= oldEnd ==> f.slots[i].Some?
    ensures keys'.Some? && KeyIndex(f, keys'.value)
    ensures idx.Some? ==> oldStart <= idx.value <= oldEnd && f.slots[idx.value] == Some(f.before[idx.value])
    ensures idx.Some? && SameVnode(f.before[idx.value], node) ==> oldStart < idx.value < oldEnd
    ensures !(idx.Some? && SameVnode(f.before[idx.value], node)) ==> Unmatched(f, f.newStart)
  {
    hide Ordered, Linked, SameVnode, DistinctKeys, Unmatched;
    keys' := keys;
    if keys'.None? {
      var made := CreateKeyToOldIdx(oldCh, oldStart, oldEnd);
      keys' := Some(made);
      IndexMade(f, made);
    }
    if node.key.Some? {
      idx := Get(keys'.value, node.key.value);
    } else {
      idx := FindIdxInOld(node, oldCh, oldStart, oldEnd);
    }
    Located(f, keys'.value, idx);
    if idx.Some? {
      SlotIs(f, idx.value);
    }
  }

  /** An old child from inside the window is reused. */
  method TurnPick(ghost f: Frame, parent: Parent, oldCh: array<Option<VNode>>, newCh: array<VNode>,
    newStart: int, i: int, oldStartVnode: VNode)
    requires Inside(f) && Fits(f, parent, oldCh, newCh) && f.newStart == newStart
    requires f.oldStart < i <= f.oldEnd && f.slots[i].Some? && SameVnode(f.before[i], f.after[newStart])
    requires f.slots[f.oldStart] == Some(oldStartVnode)
    modifies parent, oldCh, newCh
    ensures Inv(Pick(f, i)) && Fits(Pick(f, i), parent, oldCh, newCh)
  {
    hide Ordered, Linked, SameVnode, Left, Elms, DistinctKeys, Inserted, First;
    StartPresent(f);
    SlotIs(f, i);
    PickKeeps(f, i);
    hide Inv;
    var vnodeToMove := oldCh[i].value;
    PatchVnode(vnodeToMove, newCh, newStart);
    oldCh[i] := None;
    parent.InsertBefore(vnodeToMove.elm.value, oldStartVnode.elm);
  }

  /** A new element in front of the old start. */
  method TurnMake(ghost f: Frame, parent: Parent, oldCh: array<Option<VNode>>, newCh: array<VNode>, newStart: int, oldStartVnode: VNode)
    requires Inside(f) && Fits(f, parent, oldCh, newCh) && f.newStart == newStart
    requires f.slots[f.oldStart] == Some(oldStartVnode)
    requires Unmatched(f, newStart)
    modifies parent, newCh
    ensures Inv(Make(f, oldStartVnode.elm)) && Fits(Make(f, oldStartVnode.elm), parent, oldCh, newCh)
  {
    hide Ordered, Linked, SameVnode, Left, Elms, DistinctKeys, Inserted, First;
    StartPresent(f);
    MakeKeeps(f, oldStartVnode.elm);
    hide Inv;
    CreateElm(newCh, newStart, parent, oldStartVnode.elm);
  }

  /** The last branch of the loop: neither end matches the next new child. */
  method TurnByKey(ghost f: Frame, parent: Parent, oldCh: array<Option<VNode>>, newCh: array<VNode>,
    oldStart: int, oldEnd: int, newStart: int, oldStartVnode: VNode, keys: Option<map<Key, int>>, ghost after: seq<VNode>)
    returns (keys': Option<map<Key, int>>, ghost f': Frame)
    requires Running(f, f.before, f.base, after, keys) && Inside(f) && Fits(f, parent, oldCh, newCh)
    requires f.oldStart == oldStart && f.oldEnd == oldEnd && f.newStart == newStart
    requires f.slots[oldStart] == Some(oldStartVnode) && f.slots[oldEnd].Some?
    requires !SameVnode(f.before[oldStart], f.after[newStart]) && !SameVnode(f.before[oldEnd], f.after[newStart])
    modifies parent, oldCh, newCh
    ensures Fits(f', parent, oldCh, newCh) && Running(f', f.before, f.base, after, keys')
    ensures f'.oldStart == oldStart && f'.oldEnd == oldEnd && f'.newStart == newStart + 1 && f'.newEnd == f.newEnd
    ensures f'.slots[oldStart] == f.slots[oldStart] && f'.slots[oldEnd] == f.slots[oldEnd]
  {
    hide Ordered, Linked, SameVnode, SameShapes, Left, Elms, DistinctKeys, Inserted, First;
    var node := newCh[newStart];
    var idx;
    keys', idx := Locate(f, oldCh, node, oldStart, oldEnd, keys);
    if idx.Some? && SameVnode(oldCh[idx.value].value, node) {
      TurnPick(f, parent, oldCh, newCh, newStart, idx.value, oldStartVnode);
      f' := Pick(f, idx.value);
    } else {
      TurnMake(f, parent, oldCh, newCh, newStart, oldStartVnode);
      f' := Make(f, oldStartVnode.elm);
    }
    SameShapesAt(f.after, newStart, f'.after[newStart].elm);
    Goes(f, f', f.before, f.base, after, keys');
  }

  /** The starts match. */
  method TurnFrontFront(ghost f: Frame, parent: Parent, oldCh: array<Option<VNode>>, newCh: array<VNode>,
    oldStartVnode: VNode, newStart: int, ghost after: seq<VNode>, ghost keys: Option<map<Key, int>>)
    requires Running(f, f.before, f.base, after, keys) && Inside(f) && Fits(f, parent, oldCh, newCh) && f.newStart == newStart
    requires f.slots[f.oldStart] == Some(oldStartVnode) && SameVnode(oldStartVnode, f.after[newStart])
    modifies newCh
    ensures Running(FrontFront(f), f.before, f.base, after, keys) && Fits(FrontFront(f), parent, oldCh, newCh)
  {
    hide Ordered, Linked, SameVnode, SameShapes, Left, Elms, DistinctKeys;
    SlotIs(f, f.oldStart);
    FrontFrontKeeps(f);
    SameShapesAt(f.after, newStart, oldStartVnode.elm);
    PatchVnode(oldStartVnode, newCh, newStart);
    Goes(f, FrontFront(f), f.before, f.base, after, keys);
  }

  /** The ends match. */
  method TurnBackBack(ghost f: Frame, parent: Parent, oldCh: array<Option<VNode>>, newCh: array<VNode>,
    oldEndVnode: VNode, newEnd: int, ghost after: seq<VNode>, ghost keys: Option<map<Key, int>>)
    requires Running(f, f.before, f.base, after, keys) && Inside(f) && Fits(f, parent, oldCh, newCh) && f.newEnd == newEnd
    requires f.slots[f.oldEnd] == Some(oldEndVnode) && SameVnode(oldEndVnode, f.after[newEnd])
    modifies newCh
    ensures Running(BackBack(f), f.before, f.base, after, keys) && Fits(BackBack(f), parent, oldCh, newCh)
  {
    hide Ordered, Linked, SameVnode, SameShapes, Left, Elms, DistinctKeys;
    SlotIs(f, f.oldEnd);
    BackBackKeeps(f);
    SameShapesAt(f.after, newEnd, oldEndVnode.elm);
    PatchVnode(oldEndVnode, newCh, newEnd);
    Goes(f, BackBack(f), f.before, f.base, after, keys);
  }

  /** The old start is the new end. */
  method TurnFrontBack(ghost f: Frame, parent: Parent, oldCh: array<Option<VNode>>, newCh: array<VNode>,
    oldStartVnode: VNode, oldEndVnode: VNode, newEnd: int, ghost after: seq<VNode>, ghost keys: Option<map<Key, int>>)
    requires Running(f, f.before, f.base, after, keys) && Inside(f) && Fits(f, parent, oldCh, newCh) && f.newEnd == newEnd
    requires f.slots[f.oldStart] == Some(oldStartVnode) && f.slots[f.oldEnd] == Some(oldEndVnode)
    requires SameVnode(oldStartVnode, f.after[newEnd])
    modifies parent, newCh
    ensures Running(FrontBack(f), f.before, f.base, after, keys) && Fits(FrontBack(f), parent, oldCh, newCh)
  {
    hide Ordered, Linked, SameVnode, SameShapes, Left, Elms, DistinctKeys, Inserted, Next;
    SlotIs(f, f.oldStart);
    SlotIs(f, f.oldEnd);
    FrontBackKeeps(f);
    SameShapesAt(f.after, newEnd, oldStartVnode.elm);
    PatchVnode(oldStartVnode, newCh, newEnd);
    NextPresent(parent.children, oldEndVnode.elm.value);
    parent.InsertBefore(oldStartVnode.elm.value, Next(parent.children, oldEndVnode.elm.value));
    Goes(f, FrontBack(f), f.before, f.base, after, keys);
  }

  /** The old end is the new start. */
  method TurnBackFront(ghost f: Frame, parent: Parent, oldCh: array<Option<VNode>>, newCh: array<VNode>,
    oldStartVnode: VNode, oldEndVnode: VNode, newStart: int, ghost after: seq<VNode>, ghost keys: Option<map<Key, int>>)
    requires Running(f, f.before, f.base, after, keys) && Inside(f) && Fits(f, parent, oldCh, newCh) && f.newStart == newStart
    requires f.slots[f.oldStart] == Some(oldStartVnode) && f.slots[f.oldEnd] == Some(oldEndVnode)
    requires SameVnode(oldEndVnode, f.after[newStart]) && !SameVnode(oldStartVnode, f.after[newStart])
    modifies parent, newCh
    ensures Running(BackFront(f), f.before, f.base, after, keys) && Fits(BackFront(f), parent, oldCh, newCh)
  {
    hide Ordered, Linked, SameVnode, SameShapes, Left, Elms, DistinctKeys, Inserted, First;
    SlotIs(f, f.oldEnd);
    StartPresent(f);
    BackFrontKeeps(f);
    SameShapesAt(f.after, newStart, oldEndVnode.elm);
    PatchVnode(oldEndVnode, newCh, newStart);
    parent.InsertBefore(oldEndVnode.elm.value, oldStartVnode.elm);
    Goes(f, BackFront(f), f.before, f.base, after, keys);
  }

  /** A fresh index covers the window. */
  lemma IndexMade(f: Frame, keys: map<Key, int>)
    requires Inside(f) && forall i :: f.oldStart <= i <= f.oldEnd ==> f.slots[i].Some?
    requires forall k :: k in keys ==> f.oldStart <= keys[k] <= f.oldEnd && f.slots[keys[k]].value.key == Some(k)
    requires forall i :: f.oldStart <= i <= f.oldEnd && f.slots[i].value.key.Some? ==> f.slots[i].value.key.value in keys
    ensures KeyIndex(f, keys)
  {
    hide Ordered, Linked, DistinctKeys;
  }

  /** Whatever index the next new child gets is inside the window and still there; if it is not the same vnode, there is
      nothing to reuse. */
  lemma Located(f: Frame, keys: map<Key, int>, idx: Option<int>)
    requires Inside(f) && KeyIndex(f, keys) && f.slots[f.oldStart].Some? && f.slots[f.oldEnd].Some?
    requires !SameVnode(f.before[f.oldStart], f.after[f.newStart]) && !SameVnode(f.before[f.oldEnd], f.after[f.newStart])
    requires f.after[f.newStart].key.Some? ==> idx == Get(keys, f.after[f.newStart].key.value)
    requires f.after[f.newStart].key.None? && idx.Some? ==>
      f.oldStart <= idx.value < f.oldEnd && f.slots[idx.value].Some? && SameVnode(f.after[f.newStart], f.slots[idx.value].value)
    requires f.after[f.newStart].key.None? && idx.None? ==>
      forall i :: f.oldStart <= i < f.oldEnd && f.slots[i].Some? ==> !SameVnode(f.after[f.newStart], f.slots[i].value)
    ensures idx.Some? ==> f.oldStart <= idx.value <= f.oldEnd && f.slots[idx.value].Some?
    ensures idx.Some? && SameVnode(f.slots[idx.value].value, f.after[f.newStart]) ==> f.oldStart < idx.value < f.oldEnd
    ensures !(idx.Some? && SameVnode(f.slots[idx.value].value, f.after[f.newStart])) ==> Unmatched(f, f.newStart)
  {
    var node := f.after[f.newStart];
    hide Ordered, Linked, SameVnode, DistinctKeys;
    if idx.Some? {
      if node.key.Some? {
        assert node.key.value in keys && idx.value == keys[node.key.value];
        StillThere(f, idx.value);
      } else {
        SameSymmetric(node, f.slots[idx.value].value);
      }
      SlotIs(f, idx.value);
    }
    if !(idx.Some? && SameVnode(f.slots[idx.value].value, node)) {
      if node.key.Some? {
        NothingToReuse(f, keys);
      } else {
        forall i | 0 <= i < |f.before| && SameVnode(f.before[i], node)
          ensures Gone(f, i)
        {
          SameSymmetric(f.before[i], node);
        }
      }
    }
  }

  /** addVnodes: elements for the new children that are left, all before `ref`. */
  method AddVnodes(ghost f: Frame, parent: Parent, ref: Option<Elm>, newCh: array<VNode>, start: int, end: int)
    returns (ghost f': Frame)
    requires Inv(f) && f.base <= f.created && f.oldStart > f.oldEnd && f.newStart == start && f.newEnd == end
    requires f.after == newCh[..] && f.children == parent.children && f.created == parent.created
    requires ref == First(Elms(f.after[end + 1..]))
    modifies parent, newCh
    ensures Inv(f') && f'.before == f.before && f'.base == f.base && SameShapes(f.after, f'.after)
    ensures f'.newStart == f'.newEnd + 1 && f'.oldStart > f'.oldEnd
    ensures f'.after == newCh[..] && f'.children == parent.children
  {
    hide Ordered, Linked, SameVnode, Left, Elms, DistinctKeys, Inserted, First;
    f' := f;
    var i := start;
    ShapesRefl(f.after);
    while i <= end
      invariant start <= i <= end + 1
      invariant Inv(f') && f'.before == f.before && f'.base == f.base && SameShapes(f.after, f'.after) && f'.base <= f'.created
      invariant f'.newStart == i && f'.newEnd == end && f'.oldStart == f.oldStart && f'.oldEnd == f.oldEnd
      invariant f'.after == newCh[..] && f'.children == parent.children && f'.created == parent.created
      invariant ref == First(Elms(f'.after[end + 1..]))
    {
      ghost var g := f';
      NothingLeft(g);
      NoneLeft(g, ref);
      MakeKeeps(g, ref);
      f' := Make(g, ref);
      CreateElm(newCh, i, parent, ref);
      SameShapesAt(g.after, i, Some(g.created));
      ShapesTrans(f.after, g.after, f'.after);
      assert f'.after[end + 1..] == g.after[end + 1..];
      i := i + 1;
    }
  }

  lemma ShapesRefl(a: seq<VNode>)
    ensures SameShapes(a, a)
  {
  }

  /** With nothing left of the old window the reference is the first element behind it. */
  lemma NoneLeft(f: Frame, ref: Option<Elm>)
    requires Inv(f) && f.oldStart > f.oldEnd && ref == First(Elms(f.after[f.newEnd + 1..]))
    ensures ref == First(Left(f.slots, f.oldStart, f.oldEnd + 1) + Elms(f.after[f.newEnd + 1..]))
    ensures ref.Some? ==> ref.value in f.children
  {
    hide Linked, Distinct, DistinctKeys;
    var s := Elms(f.after[f.newEnd + 1..]);
    assert [] + s == s;
    if s != [] {
      assert f.children[|Elms(f.after[..f.newStart])|] == s[0];
    }
  }

  /** removeVnodes: the elements still in the slots leave the parent. */
  method RemoveVnodes(parent: Parent, oldCh: array<Option<VNode>>, start: int, end: int, ghost p: seq<Elm>, ghost s: seq<Elm>)
    requires 0 <= start <= end + 1 <= oldCh.Length
    requires parent.children == p + Left(oldCh[..], start, end + 1) + s && Distinct(parent.children)
    modifies parent
    ensures parent.children == p + s
  {
    hide Distinct;
    var i := start;
    while i <= end
      invariant start <= i <= end + 1
      invariant parent.children == p + Left(oldCh[..], i, end + 1) + s && Distinct(parent.children)
    {
      if oldCh[i].Some? {
        ghost var e, rest := ElmOf(oldCh[i].value), Left(oldCh[..], i + 1, end + 1);
        assert Left(oldCh[..], i, end + 1) == [e] + rest;
        hide Left, Without;
        Regroup(p, [e], rest);
        Regroup(p + [e], rest, s);
        Apart(p, e, rest + s);
        WithoutParts(p, e, rest + s);
        DistinctPart(p, e, rest + s);
        Regroup(p, rest, s);
        parent.RemoveChild(ElmOf(oldCh[i].value));
      }
      i := i + 1;
    }
    assert p + [] + s == p + s;
  }

  /** Where the elements of the new children come from: the parent shows exactly them, in order and without repetition; each is
      that of an old child that is the same vnode, or fresh, and then no element it could have shown has gone; and a keyed
      child takes over whenever there is something to take. */
  ghost predicate Result(before: seq<VNode>, after: seq<VNode>, children: seq<Elm>, base: Elm) {
    && children == Elms(after) && Distinct(children)
    && (forall j :: 0 <= j < |after| ==> after[j].elm.Some?)
    && (forall j :: 0 <= j < |after| ==> ReusedFrom(before, after[j]) || (base <= ElmOf(after[j]) && NoneSpare(before, after, j)))
    && (forall i, j :: 0 <= i < |before| && 0 <= j < |after| && after[j].key.Some? && SameVnode(before[i], after[j])
          ==> after[j].elm == before[i].elm)
  }

  ghost predicate ReusedFrom(before: seq<VNode>, v: VNode) {
    exists i :: 0 <= i < |before| && SameVnode(before[i], v) && before[i].elm == v.elm
  }

  /** Every old child that this new one could have continued is continued by some new child. */
  ghost predicate NoneSpare(before: seq<VNode>, after: seq<VNode>, j: int)
    requires 0 <= j < |after|
  {
    forall i :: 0 <= i < |before| && SameVnode(before[i], after[j]) ==> Shown(after, before[i].elm)
  }

  ghost predicate Shown(after: seq<VNode>, elm: Option<Elm>) {
    exists k :: 0 <= k < |after| && after[k].elm == elm
  }

  lemma GoneShown(f: Frame, i: int)
    requires Inv(f) && 0 <= i < |f.before| && Gone(f, i)
    ensures Shown(f.after, f.before[i].elm)
  {
    hide Ordered, SameVnode, Unmatched;
    assert Settled(f, f.to[i]);
    assert f.after[f.to[i]].elm == f.before[i].elm;
  }

  lemma SettledAt(f: Frame, j: int)
    requires Inv(f) && 0 <= j < |f.after| && Processed(f, j)
    ensures f.after[j].elm.Some? && (ReusedFrom(f.before, f.after[j]) || (f.base <= ElmOf(f.after[j]) && NoneSpare(f.before, f.after, j)))
    ensures f.after[j].key.Some? ==>
      forall i :: 0 <= i < |f.before| && SameVnode(f.before[i], f.after[j]) ==> f.after[j].elm == f.before[i].elm
  {
    hide Ordered, SameInputType, Shown;
    assert Settled(f, j);
    forall i | 0 <= i < |f.before| && Gone(f, i)
      ensures Shown(f.after, f.before[i].elm)
    {
      GoneShown(f, i);
    }
  }

  /** Both windows are used up: the parent shows the new children. */
  lemma Finished(f: Frame, children: seq<Elm>)
    requires Inv(f) && f.newStart > f.newEnd && children == Elms(f.after[..f.newStart]) + Elms(f.after[f.newEnd + 1..]) && Distinct(children)
    ensures Result(f.before, f.after, children, f.base)
  {
    hide Ordered, Linked, Distinct, DistinctKeys, SameVnode, ReusedFrom, NoneSpare;
    forall j | 0 <= j < |f.after|
      ensures f.after[j].elm.Some? && (ReusedFrom(f.before, f.after[j]) || (f.base <= ElmOf(f.after[j]) && NoneSpare(f.before, f.after, j)))
      ensures f.after[j].key.Some? ==>
        forall i :: 0 <= i < |f.before| && SameVnode(f.before[i], f.after[j]) ==> f.after[j].elm == f.before[i].elm
    {
      SettledAt(f, j);
    }
    assert children == Elms(f.after);
  }

  lemma OrderOf(f: Frame)
    requires Inv(f)
    ensures f.children == Elms(f.after[..f.newStart]) + Left(f.slots, f.oldStart, f.oldEnd + 1) + Elms(f.after[f.newEnd + 1..])
    ensures Distinct(f.children)
  {
    hide Linked, DistinctKeys;
  }

  lemma DistinctWithout(p: seq<Elm>, m: seq<Elm>, s: seq<Elm>)
    requires Distinct(p + m + s)
    ensures Distinct(p + s)
  {
    assert multiset(p + m + s) == multiset(p + s) + multiset(m);
    forall e
      ensures multiset(p + s)[e] <= 1
    {
      assert multiset(p + m + s)[e] <= 1;
    }
  }

  /** After the loop: what is left of the new children is added, or what is left of the old ones is removed. */
  method FinishChildren(ghost f: Frame, parent: Parent, oldCh: array<Option<VNode>>, newCh: array<VNode>,
    oldStartIdx: int, oldEndIdx: int, newStartIdx: int, newEndIdx: int) returns (ghost g: Frame)
    requires Inv(f) && f.base <= f.created && Fits(f, parent, oldCh, newCh)
    requires f.oldStart == oldStartIdx && f.oldEnd == oldEndIdx && f.newStart == newStartIdx && f.newEnd == newEndIdx
    requires oldStartIdx > oldEndIdx || newStartIdx > newEndIdx
    modifies parent, newCh
    ensures g.after == newCh[..] && SameShapes(f.after, g.after)
    ensures Result(f.before, newCh[..], parent.children, f.base)
  {
    hide Ordered, Linked, SameVnode, SameShapes, Left, Elms, DistinctKeys, First, Distinct, Result;
    OrderOf(f);
    if oldStartIdx > oldEndIdx {
      var refElm := if newEndIdx + 1 < newCh.Length then newCh[newEndIdx + 1].elm else None;
      RefIs(f, refElm);
      g := AddVnodes(f, parent, refElm, newCh, newStartIdx, newEndIdx);
      EmptyLeft(g);
      Finished(g, parent.children);
    } else {
      g := f;
      ShapesRefl(f.after);
      ghost var p, s := Elms(f.after[..newStartIdx]), Elms(f.after[newEndIdx + 1..]);
      DistinctWithout(p, Left(f.slots, oldStartIdx, oldEndIdx + 1), s);
      RemoveVnodes(parent, oldCh, oldStartIdx, oldEndIdx, p, s);
      Finished(f, parent.children);
    }
  }

  /** What the loop needs to know at the start of a turn. */
  lemma TurnStarts(f: Frame, before: seq<VNode>, base: Elm, after: seq<VNode>, keys: Option<map<Key, int>>)
    requires Running(f, before, base, after, keys)
    ensures f.before == before && f.base == base && f.oldStart <= f.oldEnd && f.newStart <= f.newEnd ==> Inside(f)
    ensures 0 <= f.oldStart <= f.oldEnd + 1 <= |f.slots| == |f.before| && 0 <= f.newStart <= f.newEnd + 1 <= |f.after|
    ensures f.before == before && f.base == base && Inv(f) && f.base <= f.created && SameShapes(after, f.after)
  {
  }

  lemma SlotFrontAndBack(f: Frame)
    requires Inside(f) && f.slots[f.oldStart].Some? && f.slots[f.oldEnd].Some?
    ensures f.slots[f.oldStart] == Some(f.before[f.oldStart]) && f.slots[f.oldEnd] == Some(f.before[f.oldEnd])
  {
    SlotIs(f, f.oldStart);
    SlotIs(f, f.oldEnd);
  }

  lemma SkipFrontGoes(f: Frame, before: seq<VNode>, base: Elm, after: seq<VNode>, keys: Option<map<Key, int>>)
    requires Running(f, before, base, after, keys) && Inside(f) && f.slots[f.oldStart].None?
    ensures Running(SkipFront(f), before, base, after, keys)
  {
    SkipFrontKeeps(f);
    ShapesRefl(f.after);
    hide Ordered, Linked, KeyIndex;
    Goes(f, SkipFront(f), before, base, after, keys);
  }

  lemma SkipBackGoes(f: Frame, before: seq<VNode>, base: Elm, after: seq<VNode>, keys: Option<map<Key, int>>)
    requires Running(f, before, base, after, keys) && Inside(f) && f.slots[f.oldEnd].None?
    ensures Running(SkipBack(f), before, base, after, keys)
  {
    SkipBackKeeps(f);
    ShapesRefl(f.after);
    hide Ordered, Linked, KeyIndex;
    Goes(f, SkipBack(f), before, base, after, keys);
  }

  /** The four comparisons of the ends; whether one of them matched, and the windows after it. */
  method TurnEnds(ghost f: Frame, parent: Parent, oldCh: array<Option<VNode>>, newCh: array<VNode>,
    oldStart: int, oldEnd: int, newStart: int, newEnd: int, oldStartVnode: VNode, oldEndVnode: VNode,
    ghost after: seq<VNode>, ghost keys: Option<map<Key, int>>)
    returns (matched: bool, oldStart': int, oldEnd': int, newStart': int, newEnd': int, ghost f': Frame)
    requires Running(f, f.before, f.base, after, keys) && Inside(f) && Fits(f, parent, oldCh, newCh)
    requires f.oldStart == oldStart && f.oldEnd == oldEnd && f.newStart == newStart && f.newEnd == newEnd
    requires f.slots[oldStart] == Some(oldStartVnode) && f.slots[oldEnd] == Some(oldEndVnode)
    modifies parent, newCh
    ensures Running(f', f.before, f.base, after, keys) && Fits(f', parent, oldCh, newCh)
    ensures f'.oldStart == oldStart' && f'.oldEnd == oldEnd' && f'.newStart == newStart' && f'.newEnd == newEnd'
    ensures matched ==> oldEnd' - oldStart' == oldEnd - oldStart - 1 && newEnd' - newStart' == newEnd - newStart - 1
    ensures !matched ==> f' == f && !SameVnode(oldStartVnode, f.after[newStart]) && !SameVnode(oldEndVnode, f.after[newStart])
  {
    oldStart', oldEnd', newStart', newEnd' := oldStart, oldEnd, newStart, newEnd;
    f' := f;
    matched := true;
    TurnStarts(f, f.before, f.base, after, keys);
    hide Inv, Running, Windows, SameVnode, Inserted, Next;
    if SameVnode(oldStartVnode, newCh[newStart]) {
      TurnFrontFront(f, parent, oldCh, newCh, oldStartVnode, newStart, after, keys);
      f' := FrontFront(f);
      oldStart', newStart' := oldStart + 1, newStart + 1;
    } else if SameVnode(oldEndVnode, newCh[newEnd]) {
      TurnBackBack(f, parent, oldCh, newCh, oldEndVnode, newEnd, after, keys);
      f' := BackBack(f);
      oldEnd', newEnd' := oldEnd - 1, newEnd - 1;
    } else if SameVnode(oldStartVnode, newCh[newEnd]) {
      TurnFrontBack(f, parent, oldCh, newCh, oldStartVnode, oldEndVnode, newEnd, after, keys);
      f' := FrontBack(f);
      oldStart', newEnd' := oldStart + 1, newEnd - 1;
    } else if SameVnode(oldEndVnode, newCh[newStart]) {
      TurnBackFront(f, parent, oldCh, newCh, oldStartVnode, oldEndVnode, newStart, after, keys);
      f' := BackFront(f);
      oldEnd', newStart' := oldEnd - 1, newStart + 1;
    } else {
      matched := false;
    }
  }

  /** One turn of the loop with something at both ends of the old window. */
  method Turn(ghost f: Frame, parent: Parent, oldCh: array<Option<VNode>>, newCh: array<VNode>,
    oldStart: int, oldEnd: int, newStart: int, newEnd: int, oldStartVnode: VNode, oldEndVnode: VNode,
    keys: Option<map<Key, int>>, ghost after: seq<VNode>)
    returns (oldStart': int, oldEnd': int, newStart': int, newEnd': int, keys': Option<map<Key, int>>, ghost f': Frame)
    requires Running(f, f.before, f.base, after, keys) && Inside(f) && Fits(f, parent, oldCh, newCh)
    requires f.oldStart == oldStart && f.oldEnd == oldEnd && f.newStart == newStart && f.newEnd == newEnd
    requires f.slots[oldStart] == Some(oldStartVnode) && f.slots[oldEnd] == Some(oldEndVnode)
    modifies parent, oldCh, newCh
    ensures Running(f', f.before, f.base, after, keys') && Fits(f', parent, oldCh, newCh)
    ensures f'.oldStart == oldStart' && f'.oldEnd == oldEnd' && f'.newStart == newStart' && f'.newEnd == newEnd'
    ensures oldEnd' - oldStart' + newEnd' - newStart' < oldEnd - oldStart + newEnd - newStart
    ensures oldEnd' - oldStart' <= oldEnd - oldStart && newEnd' - newStart' <= newEnd - newStart
  {
    SlotFrontAndBack(f);
    hide Inv, Running, Windows, SameVnode, Inserted, Next, Ordered, Linked;
    keys' := keys;
    var matched;
    matched, oldStart', oldEnd', newStart', newEnd', f' := TurnEnds(f, parent, oldCh, newCh,
      oldStart, oldEnd, newStart, newEnd, oldStartVnode, oldEndVnode, after, keys);
    if !matched {
      keys', f' := TurnByKey(f, parent, oldCh, newCh, oldStart, oldEnd, newStart, oldStartVnode, keys, after);
      newStart' := newStart + 1;
    }
  }

  /** updateChildren. */
  method UpdateChildren(parent: Parent, oldCh: array<Option<VNode>>, newCh: array<VNode>)
    requires Given(oldCh[..], newCh[..], parent.children, parent.created)
    modifies parent, oldCh, newCh
    ensures SameShapes(old(newCh[..]), newCh[..])
    ensures Result(old(Values(oldCh[..])), newCh[..], parent.children, old(parent.created))
  {
    ghost var f := InitialFrame(oldCh[..], newCh[..], parent.children, parent.created);
    ghost var before, after, base := f.before, f.after, f.base;
    InitialInv(oldCh[..], newCh[..], parent.children, parent.created);
    ShapesRefl(after);
    hide Ordered, Linked, SameVnode, SameShapes, Left, Elms, DistinctKeys, Inserted, First, Next, Distinct, Result;
    var oldStartIdx, newStartIdx := 0, 0;
    var oldEndIdx, newEndIdx := oldCh.Length - 1, newCh.Length - 1;
    var oldStartVnode, oldEndVnode := At(oldCh[..], 0), At(oldCh[..], oldEndIdx);
    var oldKeyToIdx: Option<map<Key, int>> := None;
    hide Inv, Running, Windows;
    while oldStartIdx <= oldEndIdx && newStartIdx <= newEndIdx
      invariant Running(f, before, base, after, oldKeyToIdx) && Fits(f, parent, oldCh, newCh)
      invariant f.oldStart == oldStartIdx && f.oldEnd == oldEndIdx && f.newStart == newStartIdx && f.newEnd == newEndIdx
      invariant oldStartVnode == At(oldCh[..], oldStartIdx) && oldEndVnode == At(oldCh[..], oldEndIdx)
      decreases oldEndIdx - oldStartIdx + newEndIdx - newStartIdx
    {
      ghost var g := f;
      TurnStarts(g, before, base, after, oldKeyToIdx);
      if oldStartVnode.None? {
        SkipFrontGoes(g, before, base, after, oldKeyToIdx);
        f := SkipFront(g);
        oldStartIdx := oldStartIdx + 1;
        oldStartVnode := At(oldCh[..], oldStartIdx);
      } else if oldEndVnode.None? {
        SkipBackGoes(g, before, base, after, oldKeyToIdx);
        f := SkipBack(g);
        oldEndIdx := oldEndIdx - 1;
        oldEndVnode := At(oldCh[..], oldEndIdx);
      } else {
        oldStartIdx, oldEndIdx, newStartIdx, newEndIdx, oldKeyToIdx, f := Turn(g, parent, oldCh, newCh,
          oldStartIdx, oldEndIdx, newStartIdx, newEndIdx, oldStartVnode.value, oldEndVnode.value, oldKeyToIdx, after);
        oldStartVnode, oldEndVnode := At(oldCh[..], oldStartIdx), At(oldCh[..], oldEndIdx);
      }
    }
    TurnStarts(f, before, base, after, oldKeyToIdx);
    ghost var end := FinishChildren(f, parent, oldCh, newCh, oldStartIdx, oldEndIdx, newStartIdx, newEndIdx);
    ShapesTrans(after, f.after, end.after);
  }

  lemma EmptyLeft(f: Frame)
    requires Inv(f) && f.oldStart > f.oldEnd
    ensures f.children == Elms(f.after[..f.newStart]) + Elms(f.after[f.newEnd + 1..]) && Distinct(f.children)
  {
    hide Linked, DistinctKeys, Elms;
    assert Elms(f.after[..f.newStart]) + [] == Elms(f.after[..f.newStart]);
  }

  /** The element of the first new child behind the window, which has one. */
  lemma RefIs(f: Frame, ref: Option<Elm>)
    requires Inv(f) && ref == if f.newEnd + 1 < |f.after| then f.after[f.newEnd + 1].elm else None
    ensures ref == First(Elms(f.after[f.newEnd + 1..]))
  {
    hide Ordered, DistinctKeys, SameVnode;
    if f.newEnd + 1 < |f.after| {
      assert Settled(f, f.newEnd + 1);
    }
  }

  lemma DistinctAt(s: seq<Elm>, i: int, j: int)
    requires Distinct(s) && 0 <= i < |s| && 0 <= j < |s| && s[i] == s[j]
    ensures i == j
  {
    if i < j {
      assert s == s[..i] + [s[i]] + s[i + 1..];
      assert s[i + 1..][j - i - 1] == s[j];
      Apart(s[..i], s[i], s[i + 1..]);
      assert false;
    } else if j < i {
      DistinctAt(s, j, i);
    }
  }

  /** What the outcome means for one old and one new child: a keyed new child shows the element of an old one exactly when they
      are the same vnode, any new child shows it only then, and no two new children show the same element. */
  lemma ReuseExactly(before: seq<VNode>, after: seq<VNode>, children: seq<Elm>, base: Elm, i: int, j: int)
    requires Result(before, after, children, base) && Distinct(Elms(before))
    requires forall x :: 0 <= x < |before| ==> before[x].elm.Some? && ElmOf(before[x]) < base
    requires 0 <= i < |before| && 0 <= j < |after|
    ensures after[j].elm == before[i].elm ==> SameVnode(before[i], after[j])
    ensures after[j].key.Some? ==> (after[j].elm == before[i].elm <==> SameVnode(before[i], after[j]))
    ensures forall k :: 0 <= k < |after| && after[k].elm == after[j].elm ==> k == j
    ensures SameVnode(before[i], after[j]) && base <= ElmOf(after[j]) ==> before[i].elm.value in children
  {
    hide Distinct, SameVnode;
    if SameVnode(before[i], after[j]) && base <= ElmOf(after[j]) {
      FreshSpares(before, after, children, base, i, j);
    }
    if after[j].elm == before[i].elm {
      assert ReusedFrom(before, after[j]);
      var x :| 0 <= x < |before| && SameVnode(before[x], after[j]) && before[x].elm == after[j].elm;
      DistinctAt(Elms(before), i, x);
    }
    forall k | 0 <= k < |after| && after[k].elm == after[j].elm
      ensures k == j
    {
      DistinctAt(Elms(after), k, j);
    }
  }

  lemma FreshSpares(before: seq<VNode>, after: seq<VNode>, children: seq<Elm>, base: Elm, i: int, j: int)
    requires Result(before, after, children, base)
    requires forall x :: 0 <= x < |before| ==> before[x].elm.Some? && ElmOf(before[x]) < base
    requires 0 <= i < |before| && 0 <= j < |after| && SameVnode(before[i], after[j]) && base <= ElmOf(after[j])
    ensures before[i].elm.value in children
  {
    hide Distinct, SameVnode;
    assert !ReusedFrom(before, after[j]);
    assert Shown(after, before[i].elm);
    var k :| 0 <= k < |after| && after[k].elm == before[i].elm;
    assert children[k] == before[i].elm.value;
  }

  /** The same, field by field. A new child shows the element of an old one only if both have the same key, the same tag,
      are both comments or neither, both have data or neither, and two inputs are of one type or both of the seven types
      that take text. For a keyed child these equalities are enough; for another one that got a new element they mean
      that the old one stays in the parent, continued by a new child like it. */
  lemma ReuseByFields(before: seq<VNode>, after: seq<VNode>, children: seq<Elm>, base: Elm, i: int, j: int)
    requires Result(before, after, children, base) && Distinct(Elms(before))
    requires forall x :: 0 <= x < |before| ==> before[x].elm.Some? && ElmOf(before[x]) < base
    requires 0 <= i < |before| && 0 <= j < |after|
    ensures var a, b := before[i], after[j];
      var texts := {Type("text"), Type("number"), Type("password"), Type("search"), Type("email"), Type("tel"), Type("url")};
      var alike := a.key == b.key && a.tag == b.tag && a.comment == b.comment && a.data == b.data
        && (a.tag == Some("input") ==> a.input == b.input || (a.input in texts && b.input in texts));
      && (b.elm == a.elm ==> alike)
      && (alike && b.key.Some? ==> b.elm == a.elm)
      && (alike && base <= ElmOf(b) ==> a.elm.value in children)
  {
    ReuseExactly(before, after, children, base, i, j);
    hide Result, Distinct;
  }
}
