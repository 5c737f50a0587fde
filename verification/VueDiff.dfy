/** The keyed child diff of the vendored Vue 2.5.16: two windows closing in on old and new children, a DOM child list
    edited in place, and why the list ends up as the new children with as much of the old as keys allow. */
module VueDiff {
  import opened Common

  type Key = int
  type Elm = int

  /** The `type` attribute as sameInputType sees it: no attrs at all, attrs without a type, or a type. */
  datatype InputType = NoAttrs | NoType | Type(name: string)

  /** What sameVnode looks at, and the element. A vnode without a tag is text or a comment. */
  datatype VNode = VNode(key: Option<Key>, tag: Option<string>, comment: bool, data: bool, input: InputType, elm: Option<Elm>)

  const TEXT_INPUTS := {"text", "number", "password", "search", "email", "tel", "url"}

  predicate TextInput(t: InputType) {
    t.Type? && t.name in TEXT_INPUTS
  }

  predicate SameInputType(a: VNode, b: VNode) {
    a.tag != Some("input") || a.input == b.input || (TextInput(a.input) && TextInput(b.input))
  }

  predicate SameVnode(a: VNode, b: VNode) {
    a.key == b.key && a.tag == b.tag && a.comment == b.comment && a.data == b.data && SameInputType(a, b)
  }

  function ElmOf(v: VNode): Elm {
    if v.elm.Some? then v.elm.value else -1
  }

  function Elms(vs: seq<VNode>): seq<Elm> {
    seq(|vs|, i requires 0 <= i < |vs| => ElmOf(vs[i]))
  }

  ghost predicate Distinct(s: seq<Elm>) {
    forall e :: multiset(s)[e] <= 1
  }

  ghost predicate DistinctKeys(vs: seq<VNode>) {
    forall i, j :: 0 <= i < j < |vs| && vs[i].key.Some? ==> vs[i].key != vs[j].key
  }

  // ----------------------------------------------------------------- DOM

  function Without(s: seq<Elm>, e: Elm): seq<Elm> {
    if s == [] then [] else (if s[0] == e then [] else [s[0]]) + Without(s[1..], e)
  }

  /** `e` put before `ref`, or at the end. */
  function Before(s: seq<Elm>, e: Elm, ref: Option<Elm>): seq<Elm> {
    if s == [] then [e]
    else if ref == Some(s[0]) then [e] + s
    else [s[0]] + Before(s[1..], e, ref)
  }

  function Next(s: seq<Elm>, e: Elm): Option<Elm> {
    if |s| < 2 then None else if s[0] == e then Some(s[1]) else Next(s[1..], e)
  }

  /** insertBefore takes the element out of the list first; before itself means where it is. */
  function Inserted(s: seq<Elm>, e: Elm, ref: Option<Elm>): seq<Elm> {
    Before(Without(s, e), e, if ref == Some(e) then Next(s, e) else ref)
  }

  /** A parent element: its child list, and the next element the document creates. */
  class Parent {
    var children: seq<Elm>
    var created: Elm

    method CreateElement() returns (e: Elm)
      modifies this
      ensures e == old(created) && created == e + 1 && children == old(children)
    {
      e, created := created, created + 1;
    }

    /** insertBefore, or appendChild without a reference. */
    method InsertBefore(e: Elm, ref: Option<Elm>)
      requires ref.Some? ==> ref.value in children
      modifies this
      ensures children == Inserted(old(children), e, ref) && created == old(created)
    {
      children := Inserted(children, e, ref);
    }

    method RemoveChild(e: Elm)
      requires e in children
      modifies this
      ensures children == Without(old(children), e) && created == old(created)
    {
      children := Without(children, e);
    }
  }

  lemma {:induction false} WithoutParts(a: seq<Elm>, e: Elm, b: seq<Elm>)
    requires e !in a && e !in b
    ensures Without(a + [e] + b, e) == a + b && Without(a, e) == a
    decreases |a|
  {
    if a == [] {
      WithoutNone(b, e);
      assert ([e] + b)[1..] == b;
      assert a + [e] + b == [e] + b;
    } else {
      WithoutParts(a[1..], e, b);
      assert (a + [e] + b)[1..] == a[1..] + [e] + b;
      assert a[0] != e && [a[0]] + a[1..] == a;
      assert [a[0]] + (a[1..] + b) == a + b;
    }
  }

  lemma {:induction false} WithoutNone(s: seq<Elm>, e: Elm)
    requires e !in s
    ensures Without(s, e) == s
    decreases |s|
  {
    if s != [] {
      WithoutNone(s[1..], e);
    }
  }

  /** Insertion in front of a list that comes after a part without the reference. */
  lemma {:induction false} BeforeParts(a: seq<Elm>, e: Elm, b: seq<Elm>)
    requires b != [] ==> b[0] !in a
    ensures Before(a + b, e, if b == [] then None else Some(b[0])) == a + [e] + b
    decreases |a|
  {
    if a == [] {
      assert a + b == b;
    } else {
      assert (a + b)[0] == a[0] && (a + b)[1..] == a[1..] + b;
      BeforeParts(a[1..], e, b);
      assert [a[0]] + (a[1..] + [e] + b) == a + [e] + b;
    }
  }

  lemma {:induction false} NextParts(a: seq<Elm>, e: Elm, b: seq<Elm>)
    requires e !in a
    ensures Next(a + [e] + b, e) == if b == [] then None else Some(b[0])
    decreases |a|
  {
    if a != [] {
      NextParts(a[1..], e, b);
      assert (a + [e] + b)[1..] == a[1..] + [e] + b;
    } else {
      assert a + [e] + b == [e] + b;
    }
  }

  function First(s: seq<Elm>): Option<Elm> {
    if s == [] then None else Some(s[0])
  }

  lemma Apart(a: seq<Elm>, e: Elm, b: seq<Elm>)
    requires Distinct(a + [e] + b)
    ensures e !in a && e !in b
  {
    assert multiset(a + [e] + b) == multiset(a) + multiset{e} + multiset(b);
    assert multiset(a + [e] + b)[e] <= 1;
  }

  lemma FirstApart(a: seq<Elm>, b: seq<Elm>)
    requires Distinct(a + b)
    ensures b != [] ==> b[0] !in a
  {
    if b != [] {
      assert a + b == a + [b[0]] + b[1..];
      Apart(a, b[0], b[1..]);
    }
  }

  /** Order does not matter for being distinct. */
  lemma Shuffled(a: seq<Elm>, b: seq<Elm>)
    requires Distinct(a) && multiset(a) == multiset(b)
    ensures Distinct(b)
  {
  }

  /** Taking an element out and putting it before `rest`. */
  lemma Moved(list: seq<Elm>, e: Elm, ref: Option<Elm>, a: seq<Elm>, b: seq<Elm>, p: seq<Elm>, rest: seq<Elm>)
    requires Distinct(list) && list == a + [e] + b && a + b == p + rest && ref == First(rest) && ref != Some(e)
    ensures Inserted(list, e, ref) == p + [e] + rest && multiset(p + [e] + rest) == multiset(list) && Distinct(p + [e] + rest)
  {
    Apart(a, e, b);
    WithoutParts(a, e, b);
    assert multiset(a + b) == multiset(p + rest) && multiset(list) == multiset(a + b) + multiset{e};
    assert multiset(p + [e] + rest) == multiset(p + rest) + multiset{e};
    Shuffled(list, p + [e] + rest);
    Apart(p, e, rest);
    DistinctPart(p, e, rest);
    FirstApart(p, rest);
    BeforeParts(p, e, rest);
  }

  lemma DistinctPart(a: seq<Elm>, e: Elm, b: seq<Elm>)
    requires Distinct(a + [e] + b)
    ensures Distinct(a + b)
  {
    forall x
      ensures multiset(a + b)[x] <= 1
    {
      assert multiset(a + [e] + b) == multiset(a + b) + multiset{e};
      assert multiset(a + [e] + b)[x] <= 1;
    }
  }

  lemma NotFirst(p: seq<Elm>, m: seq<Elm>, s: seq<Elm>)
    requires m != [] && Distinct(p + m + s)
    ensures First(s) != Some(m[0])
  {
    hide Distinct;
    var h, t := [m[0]], m[1..];
    assert m == h + t;
    Regroup(p, h, t);
    Regroup(p + h, t, s);
    Apart(p, m[0], t + s);
    if s != [] {
      assert (t + s)[|t|] == s[0];
    }
  }

  lemma NextOfLast(p: seq<Elm>, m: seq<Elm>, s: seq<Elm>)
    requires m != [] && Distinct(p + m + s)
    ensures Next(p + m + s, m[|m| - 1]) == First(s) && First(s) != Some(m[0])
  {
    hide Next, Distinct;
    var init, last := m[..|m| - 1], m[|m| - 1];
    assert m == init + [last];
    Regroup(p, init, [last]);
    Apart(p + init, last, s);
    NextParts(p + init, last, s);
    NotFirst(p, m, s);
  }

  /** The first of the middle goes behind its last. */
  lemma MovedBack(p: seq<Elm>, m: seq<Elm>, s: seq<Elm>)
    requires m != [] && Distinct(p + m + s)
    ensures var list, moved := p + m + s, p + m[1..] + ([m[0]] + s);
      Inserted(list, m[0], Next(list, m[|m| - 1])) == moved && Distinct(moved) && multiset(moved) == multiset(list)
  {
    NextOfLast(p, m, s);
    hide *;
    var h, t := [m[0]], m[1..];
    assert m == h + t;
    Regroup(p, h, t);
    Regroup(p + h, t, s);
    Regroup(p, t, s);
    Moved(p + m + s, m[0], First(s), p, t + s, p + t, s);
    Regroup(p + t, h, s);
  }

  /** An element behind the first of the middle goes before it. */
  lemma MovedFront(p: seq<Elm>, m: seq<Elm>, k: nat, s: seq<Elm>)
    requires 0 < k < |m| && Distinct(p + m + s)
    ensures var list, moved := p + m + s, (p + [m[k]]) + (m[..k] + m[k + 1..]) + s;
      Inserted(list, m[k], Some(m[0])) == moved && Distinct(moved) && multiset(moved) == multiset(list)
  {
    var e, rest := m[k], m[..k] + m[k + 1..] + s;
    assert p + m + s == (p + m[..k]) + [e] + (m[k + 1..] + s);
    Apart(p + m[..k], e, m[k + 1..] + s);
    assert (p + m[..k])[|p|] == m[0];
    assert (p + m[..k]) + (m[k + 1..] + s) == p + rest;
    Moved(p + m + s, e, Some(m[0]), p + m[..k], m[k + 1..] + s, p, rest);
    assert p + [e] + rest == (p + [e]) + (m[..k] + m[k + 1..]) + s;
  }

  /** A new element goes before the rest. */
  lemma PutIn(p: seq<Elm>, e: Elm, rest: seq<Elm>)
    requires Distinct(p + rest) && e !in p + rest
    ensures Inserted(p + rest, e, First(rest)) == p + [e] + rest && Distinct(p + [e] + rest)
    ensures multiset(p + [e] + rest) == multiset(p + rest) + multiset{e}
  {
    WithoutNone(p + rest, e);
    FirstApart(p, rest);
    assert rest != [] ==> (p + rest)[|p|] == rest[0];
    BeforeParts(p, e, rest);
    assert multiset(p + [e] + rest) == multiset(p + rest) + multiset{e};
    assert e !in multiset(p + rest);
  }

  // --------------------------------------------------------------- frame

  /** The state of the diff: the children as they were, what is left of them, the new ones, and both windows;
      `to` says which new child took an old element, `from` where a new child took its element. */
  datatype Frame = Frame(
    before: seq<VNode>, slots: seq<Option<VNode>>, after: seq<VNode>, children: seq<Elm>,
    oldStart: int, oldEnd: int, newStart: int, newEnd: int,
    base: Elm, created: Elm, to: seq<int>, from: seq<int>)

  /** The elements still in the slots from `a` up to `b`. */
  function Left(slots: seq<Option<VNode>>, a: int, b: int): seq<Elm>
    requires 0 <= a && b <= |slots|
    decreases b - a
  {
    if a >= b then [] else (if slots[a].Some? then [ElmOf(slots[a].value)] else []) + Left(slots, a + 1, b)
  }

  predicate Gone(f: Frame, i: int)
    requires |f.slots| == |f.before| && 0 <= i < |f.before|
  {
    i < f.oldStart || i > f.oldEnd || f.slots[i].None?
  }

  predicate Processed(f: Frame, j: int) {
    j < f.newStart || j > f.newEnd
  }

  ghost predicate Windows(f: Frame) {
    && |f.slots| == |f.before| == |f.to| && |f.from| == |f.after|
    && 0 <= f.oldStart <= f.oldEnd + 1 <= |f.before|
    && 0 <= f.newStart <= f.newEnd + 1 <= |f.after|
    && DistinctKeys(f.before) && DistinctKeys(f.after)
    && (forall i :: 0 <= i < |f.before| ==> f.before[i].elm.Some? && (f.slots[i].None? || f.slots[i] == Some(f.before[i])))
  }

  /** The parent holds the elements of the processed new children in front, then what is left of the old window,
      then the processed ones at the back. */
  ghost predicate InOrder(slots: seq<Option<VNode>>, after: seq<VNode>, children: seq<Elm>,
    oldStart: int, oldEnd: int, newStart: int, newEnd: int, created: Elm)
    requires 0 <= oldStart <= oldEnd + 1 <= |slots| && 0 <= newStart <= newEnd + 1 <= |after|
  {
    && children == Elms(after[..newStart]) + Left(slots, oldStart, oldEnd + 1) + Elms(after[newEnd + 1..])
    && Distinct(children)
    && forall e :: e in multiset(children) ==> e < created
  }

  ghost predicate Ordered(f: Frame)
    requires Windows(f)
  {
    InOrder(f.slots, f.after, f.children, f.oldStart, f.oldEnd, f.newStart, f.newEnd, f.created)
  }

  /** No old child that is left is the same vnode as this new one; and if it has a key, none ever was. */
  ghost predicate Unmatched(f: Frame, j: int)
    requires Windows(f) && 0 <= j < |f.after|
  {
    forall i :: 0 <= i < |f.before| && SameVnode(f.before[i], f.after[j]) ==> f.after[j].key.None? && Gone(f, i)
  }

  /** A processed new child has a fresh element, and there was nothing left to reuse; or it took the element of an old
      child that is the same vnode. */
  ghost predicate Settled(f: Frame, j: int)
    requires Windows(f) && 0 <= j < |f.after|
  {
    if f.from[j] == -1 then
      && f.after[j].elm.Some? && f.base <= f.after[j].elm.value < f.created
      && Unmatched(f, j)
    else
      && 0 <= f.from[j] < |f.before| && Gone(f, f.from[j]) && f.to[f.from[j]] == j
      && f.after[j].elm == f.before[f.from[j]].elm && SameVnode(f.before[f.from[j]], f.after[j])
  }

  ghost predicate Linked(f: Frame)
    requires Windows(f)
  {
    && (forall i :: 0 <= i < |f.before| && Gone(f, i) ==>
          0 <= f.to[i] < |f.after| && Processed(f, f.to[i]) && f.from[f.to[i]] == i)
    && (forall j :: 0 <= j < |f.after| && Processed(f, j) ==> Settled(f, j))
  }

  ghost predicate Inv(f: Frame) {
    Windows(f) && Ordered(f) && Linked(f)
  }

  // ------------------------------------------------------------ list facts

  lemma {:induction false} LeftSplit(slots: seq<Option<VNode>>, a: int, m: int, b: int)
    requires 0 <= a <= m <= b <= |slots|
    ensures Left(slots, a, b) == Left(slots, a, m) + Left(slots, m, b)
    decreases m - a
  {
    if a < m {
      LeftSplit(slots, a + 1, m, b);
    }
  }

  lemma {:induction false} LeftSame(s: seq<Option<VNode>>, t: seq<Option<VNode>>, a: int, b: int)
    requires |s| == |t| && 0 <= a && b <= |s| && forall i :: a <= i < b ==> s[i] == t[i]
    ensures Left(s, a, b) == Left(t, a, b)
    decreases b - a
  {
    if a < b {
      LeftSame(s, t, a + 1, b);
    }
  }

  /** One slot in the middle of the window. */
  lemma LeftAt(slots: seq<Option<VNode>>, a: int, i: int, b: int)
    requires 0 <= a <= i < b <= |slots|
    ensures Left(slots, a, b) ==
      Left(slots, a, i) + (if slots[i].Some? then [ElmOf(slots[i].value)] else []) + Left(slots, i + 1, b)
  {
    var here := if slots[i].Some? then [ElmOf(slots[i].value)] else [];
    assert Left(slots, i, b) == here + Left(slots, i + 1, b);
    LeftSplit(slots, a, i, b);
    hide *;
    Regroup(Left(slots, a, i), here, Left(slots, i + 1, b));
  }

  lemma LeftCleared(slots: seq<Option<VNode>>, a: int, i: int, b: int)
    requires 0 <= a <= i < b <= |slots|
    ensures Left(slots[i := None], a, b) == Left(slots, a, i) + Left(slots, i + 1, b)
  {
    var cleared := slots[i := None];
    LeftAt(cleared, a, i, b);
    LeftSame(slots, cleared, a, i);
    LeftSame(slots, cleared, i + 1, b);
  }

  /** Giving one new child its element, seen from the front part and from the back part. */
  lemma ElmsAt(after: seq<VNode>, j: int, e: Elm, m: int)
    requires 0 <= j < |after| && 0 <= m <= |after|
    ensures var after' := after[j := after[j].(elm := Some(e))];
      && Elms(after'[..j + 1]) == Elms(after[..j]) + [e] && Elms(after'[j..]) == [e] + Elms(after[j + 1..])
      && (m > j ==> Elms(after'[m..]) == Elms(after[m..])) && (m <= j ==> Elms(after'[..m]) == Elms(after[..m]))
  {
    var after' := after[j := after[j].(elm := Some(e))];
    assert m > j ==> after'[m..] == after[m..];
    assert m <= j ==> after'[..m] == after[..m];
  }

  // ----------------------------------------------------------- transitions

  /** patchVnode: the new child takes the element over. */
  function Patched(f: Frame, i: int, j: int): Frame
    requires Windows(f) && 0 <= i < |f.before| && 0 <= j < |f.after|
  {
    f.(after := f.after[j := f.after[j].(elm := f.before[i].elm)], to := f.to[i := j], from := f.from[j := i])
  }

  function Created(f: Frame, j: int): Frame
    requires Windows(f) && 0 <= j < |f.after|
  {
    f.(after := f.after[j := f.after[j].(elm := Some(f.created))], created := f.created + 1, from := f.from[j := -1])
  }

  lemma KeysStay(after: seq<VNode>, j: int, e: Option<Elm>)
    requires 0 <= j < |after| && DistinctKeys(after)
    ensures DistinctKeys(after[j := after[j].(elm := e)])
  {
  }

  lemma PatchedLinks(f: Frame, i: int, j: int, f': Frame)
    requires Windows(f) && Linked(f) && Windows(f')
    requires 0 <= i < |f.before| && !Gone(f, i) && 0 <= j < |f.after| && !Processed(f, j)
    requires SameVnode(f.before[i], f.after[j])
    requires var p := Patched(f, i, j);
      f'.before == f.before && f'.after == p.after && f'.to == p.to && f'.from == p.from && f'.base == f.base && f'.created == f.created
    requires forall x :: 0 <= x < |f.before| ==> (Gone(f', x) <==> Gone(f, x) || x == i)
    requires forall y :: 0 <= y < |f.after| ==> (Processed(f', y) <==> Processed(f, y) || y == j)
    ensures Linked(f')
  {
    hide TextInput;
    forall y | 0 <= y < |f'.after| && Processed(f', y)
      ensures Settled(f', y)
    {
      assert y != j ==> Settled(f, y);
    }
  }

  lemma CreatedLinks(f: Frame, j: int, f': Frame)
    requires Windows(f) && Linked(f) && Windows(f') && f.base <= f.created
    requires 0 <= j < |f.after| && !Processed(f, j)
    requires Unmatched(f, j)
    requires var p := Created(f, j);
      f'.before == f.before && f'.after == p.after && f'.to == p.to && f'.from == p.from && f'.base == f.base && f'.created == p.created
    requires forall x :: 0 <= x < |f.before| ==> (Gone(f', x) <==> Gone(f, x))
    requires forall y :: 0 <= y < |f.after| ==> (Processed(f', y) <==> Processed(f, y) || y == j)
    ensures Linked(f')
  {
    hide TextInput;
    forall y | 0 <= y < |f'.after| && Processed(f', y)
      ensures Settled(f', y)
    {
      assert y != j ==> Settled(f, y);
    }
  }

  // ------------------------------------------------- the child list, turn by turn

  function With(after: seq<VNode>, j: int, e: Elm): seq<VNode>
    requires 0 <= j < |after|
  {
    after[j := after[j].(elm := Some(e))]
  }

  lemma FrontFrontOrder(slots: seq<Option<VNode>>, after: seq<VNode>, c: seq<Elm>, os: int, oe: int, ns: int, ne: int, created: Elm)
    requires 0 <= os <= oe < |slots| && 0 <= ns <= ne < |after| && slots[os].Some?
    requires InOrder(slots, after, c, os, oe, ns, ne, created)
    ensures InOrder(slots, With(after, ns, ElmOf(slots[os].value)), c, os + 1, oe, ns + 1, ne, created)
  {
    var e := ElmOf(slots[os].value);
    ElmsAt(after, ns, e, ne + 1);
    var p, m, s := Elms(after[..ns]), Left(slots, os + 1, oe + 1), Elms(after[ne + 1..]);
    assert Left(slots, os, oe + 1) == [e] + m;
    hide Elms, Left, Distinct;
    Regroup(p, [e], m);
  }

  lemma LastOfLeft(slots: seq<Option<VNode>>, os: int, oe: int)
    requires 0 <= os <= oe < |slots|
    ensures Left(slots, os, oe + 1) == Left(slots, os, oe) + if slots[oe].Some? then [ElmOf(slots[oe].value)] else []
  {
    LeftAt(slots, os, oe, oe + 1);
    assert Left(slots, oe + 1, oe + 1) == [];
  }

  lemma SkipBackOrder(slots: seq<Option<VNode>>, after: seq<VNode>, c: seq<Elm>, os: int, oe: int, ns: int, ne: int, created: Elm)
    requires 0 <= os <= oe < |slots| && 0 <= ns <= ne + 1 <= |after| && slots[oe].None?
    requires InOrder(slots, after, c, os, oe, ns, ne, created)
    ensures InOrder(slots, after, c, os, oe - 1, ns, ne, created)
  {
    LastOfLeft(slots, os, oe);
    hide Elms, Left, Distinct;
    assert Left(slots, os, oe) + [] == Left(slots, os, oe);
  }

  lemma BackBackOrder(slots: seq<Option<VNode>>, after: seq<VNode>, c: seq<Elm>, os: int, oe: int, ns: int, ne: int, created: Elm)
    requires 0 <= os <= oe < |slots| && 0 <= ns <= ne < |after| && slots[oe].Some?
    requires InOrder(slots, after, c, os, oe, ns, ne, created)
    ensures InOrder(slots, With(after, ne, ElmOf(slots[oe].value)), c, os, oe - 1, ns, ne - 1, created)
  {
    var e := ElmOf(slots[oe].value);
    LastOfLeft(slots, os, oe);
    ElmsAt(after, ne, e, ns);
    var p, m, s := Elms(after[..ns]), Left(slots, os, oe), Elms(after[ne + 1..]);
    hide Elms, Left, Distinct;
    Regroup(p, m, [e]);
    Regroup(p + m, [e], s);
  }

  /** The middle starts and ends with the elements of the old start and end. */
  lemma EndsOfLeft(slots: seq<Option<VNode>>, os: int, oe: int)
    requires 0 <= os <= oe < |slots| && slots[os].Some? && slots[oe].Some?
    ensures var m := Left(slots, os, oe + 1);
      && m != [] && m[0] == ElmOf(slots[os].value) && m[|m| - 1] == ElmOf(slots[oe].value)
      && m[1..] == Left(slots, os + 1, oe + 1) && m[..|m| - 1] == Left(slots, os, oe)
  {
    LeftAt(slots, os, oe, oe + 1);
  }

  lemma FrontBackOrder(slots: seq<Option<VNode>>, after: seq<VNode>, c: seq<Elm>, os: int, oe: int, ns: int, ne: int, created: Elm)
    requires 0 <= os <= oe < |slots| && 0 <= ns <= ne < |after| && slots[os].Some? && slots[oe].Some?
    requires InOrder(slots, after, c, os, oe, ns, ne, created)
    ensures var e := ElmOf(slots[os].value);
      InOrder(slots, With(after, ne, e), Inserted(c, e, Next(c, ElmOf(slots[oe].value))), os + 1, oe, ns, ne - 1, created)
  {
    var e := ElmOf(slots[os].value);
    EndsOfLeft(slots, os, oe);
    ElmsAt(after, ne, e, ns);
    var p, m, s := Elms(after[..ns]), Left(slots, os, oe + 1), Elms(after[ne + 1..]);
    hide Elms, Left, Distinct;
    MovedBack(p, m, s);
  }

  /** An element from behind the first of the middle. */
  lemma ToFrontOrder(slots: seq<Option<VNode>>, after: seq<VNode>, c: seq<Elm>, os: int, oe: int, ns: int, ne: int, created: Elm,
    k: nat, slots': seq<Option<VNode>>, oe': int)
    requires 0 <= os <= oe < |slots| && 0 <= ns <= ne < |after|
    requires InOrder(slots, after, c, os, oe, ns, ne, created)
    requires os <= oe' + 1 <= |slots'|
    requires var m := Left(slots, os, oe + 1); 0 < k < |m| && Left(slots', os, oe' + 1) == m[..k] + m[k + 1..]
    ensures var m := Left(slots, os, oe + 1);
      InOrder(slots', With(after, ns, m[k]), Inserted(c, m[k], Some(m[0])), os, oe', ns + 1, ne, created)
  {
    var p, m, s := Elms(after[..ns]), Left(slots, os, oe + 1), Elms(after[ne + 1..]);
    ElmsAt(after, ns, m[k], ne + 1);
    hide Elms, Left, Distinct;
    MovedFront(p, m, k, s);
  }

  lemma BackFrontOrder(slots: seq<Option<VNode>>, after: seq<VNode>, c: seq<Elm>, os: int, oe: int, ns: int, ne: int, created: Elm)
    requires 0 <= os < oe < |slots| && 0 <= ns <= ne < |after| && slots[os].Some? && slots[oe].Some?
    requires InOrder(slots, after, c, os, oe, ns, ne, created)
    ensures var e := ElmOf(slots[oe].value);
      InOrder(slots, With(after, ns, e), Inserted(c, e, Some(ElmOf(slots[os].value))), os, oe - 1, ns + 1, ne, created)
  {
    EndsOfLeft(slots, os, oe);
    var m := Left(slots, os, oe + 1);
    assert Left(slots, os, oe) != [];
    hide InOrder, Left;
    assert m[..|m| - 1] + m[|m| - 1 + 1..] == m[..|m| - 1];
    ToFrontOrder(slots, after, c, os, oe, ns, ne, created, |m| - 1, slots, oe - 1);
  }

  lemma MakeOrder(slots: seq<Option<VNode>>, after: seq<VNode>, c: seq<Elm>, os: int, oe: int, ns: int, ne: int, created: Elm, ref: Option<Elm>)
    requires 0 <= os <= oe + 1 <= |slots| && 0 <= ns <= ne < |after|
    requires InOrder(slots, after, c, os, oe, ns, ne, created)
    requires ref == First(Left(slots, os, oe + 1) + Elms(after[ne + 1..]))
    ensures InOrder(slots, With(after, ns, created), Inserted(c, created, ref), os, oe, ns + 1, ne, created + 1)
  {
    ElmsAt(after, ns, created, ne + 1);
    var p, m, s := Elms(after[..ns]), Left(slots, os, oe + 1), Elms(after[ne + 1..]);
    hide Elms, Left, First;
    assert created !in multiset(c);
    hide Distinct;
    Regroup(p, m, s);
    PutIn(p, created, m + s);
    Regroup(p + [created], m, s);
  }

  // ---------------------------------------------------- one turn of the loop

  ghost predicate Inside(f: Frame) {
    Inv(f) && f.oldStart <= f.oldEnd && f.newStart <= f.newEnd && f.base <= f.created
  }

  function Elem(f: Frame, i: int): Elm
    requires 0 <= i < |f.before|
  {
    ElmOf(f.before[i])
  }

  function SkipFront(f: Frame): Frame {
    f.(oldStart := f.oldStart + 1)
  }

  function SkipBack(f: Frame): Frame {
    f.(oldEnd := f.oldEnd - 1)
  }

  lemma SkipFrontKeeps(f: Frame)
    requires Inside(f) && f.slots[f.oldStart].None?
    ensures Inv(SkipFront(f))
  {
    var f' := SkipFront(f);
    assert InOrder(f'.slots, f'.after, f'.children, f'.oldStart, f'.oldEnd, f'.newStart, f'.newEnd, f'.created) by {
      hide Elms;
    }
    hide InOrder;
    forall j | 0 <= j < |f.after| && Processed(f', j)
      ensures Settled(f', j)
    {
      assert Settled(f, j);
    }
  }

  lemma SkipBackKeeps(f: Frame)
    requires Inside(f) && f.slots[f.oldEnd].None?
    ensures Inv(SkipBack(f))
  {
    var f' := SkipBack(f);
    SkipBackOrder(f.slots, f.after, f.children, f.oldStart, f.oldEnd, f.newStart, f.newEnd, f.created);
    hide InOrder;
    forall j | 0 <= j < |f.after| && Processed(f', j)
      ensures Settled(f', j)
    {
      assert Settled(f, j);
    }
  }

  /** The old and the new start are the same vnode. */
  function FrontFront(f: Frame): Frame
    requires Inside(f)
  {
    Patched(f, f.oldStart, f.newStart).(oldStart := f.oldStart + 1, newStart := f.newStart + 1)
  }

  lemma FrontFrontKeeps(f: Frame)
    requires Inside(f) && f.slots[f.oldStart].Some? && SameVnode(f.before[f.oldStart], f.after[f.newStart])
    ensures Inv(FrontFront(f))
  {
    var f' := FrontFront(f);
    FrontFrontOrder(f.slots, f.after, f.children, f.oldStart, f.oldEnd, f.newStart, f.newEnd, f.created);
    KeysStay(f.after, f.newStart, f.before[f.oldStart].elm);
    hide InOrder, Left, DistinctKeys, SameVnode, Linked, Inserted;
    assert Windows(f');
    PatchedLinks(f, f.oldStart, f.newStart, f');
  }

  /** The old and the new end are the same vnode. */
  function BackBack(f: Frame): Frame
    requires Inside(f)
  {
    Patched(f, f.oldEnd, f.newEnd).(oldEnd := f.oldEnd - 1, newEnd := f.newEnd - 1)
  }

  lemma BackBackKeeps(f: Frame)
    requires Inside(f) && f.slots[f.oldEnd].Some? && SameVnode(f.before[f.oldEnd], f.after[f.newEnd])
    ensures Inv(BackBack(f))
  {
    var f' := BackBack(f);
    BackBackOrder(f.slots, f.after, f.children, f.oldStart, f.oldEnd, f.newStart, f.newEnd, f.created);
    KeysStay(f.after, f.newEnd, f.before[f.oldEnd].elm);
    hide InOrder, Left, DistinctKeys, SameVnode, Linked, Inserted;
    assert Windows(f');
    PatchedLinks(f, f.oldEnd, f.newEnd, f');
  }

  /** The old start moved right: its element goes behind that of the old end. */
  function FrontBack(f: Frame): Frame
    requires Inside(f)
  {
    Patched(f, f.oldStart, f.newEnd).(
      oldStart := f.oldStart + 1, newEnd := f.newEnd - 1,
      children := Inserted(f.children, Elem(f, f.oldStart), Next(f.children, Elem(f, f.oldEnd))))
  }

  lemma FrontBackKeeps(f: Frame)
    requires Inside(f) && f.slots[f.oldStart].Some? && f.slots[f.oldEnd].Some?
    requires SameVnode(f.before[f.oldStart], f.after[f.newEnd])
    ensures Inv(FrontBack(f))
  {
    var f' := FrontBack(f);
    FrontBackOrder(f.slots, f.after, f.children, f.oldStart, f.oldEnd, f.newStart, f.newEnd, f.created);
    KeysStay(f.after, f.newEnd, f.before[f.oldStart].elm);
    hide InOrder, Left, DistinctKeys, SameVnode, Linked, Inserted;
    assert Windows(f');
    PatchedLinks(f, f.oldStart, f.newEnd, f');
  }

  /** The old end moved left: its element goes before that of the old start. */
  function BackFront(f: Frame): Frame
    requires Inside(f)
  {
    Patched(f, f.oldEnd, f.newStart).(
      oldEnd := f.oldEnd - 1, newStart := f.newStart + 1,
      children := Inserted(f.children, Elem(f, f.oldEnd), Some(Elem(f, f.oldStart))))
  }

  lemma BackFrontKeeps(f: Frame)
    requires Inside(f) && f.oldStart < f.oldEnd && f.slots[f.oldStart].Some? && f.slots[f.oldEnd].Some?
    requires SameVnode(f.before[f.oldEnd], f.after[f.newStart])
    ensures Inv(BackFront(f))
  {
    hide Inserted, Elms, SameVnode, Left;
    var f' := BackFront(f);
    BackFrontOrder(f.slots, f.after, f.children, f.oldStart, f.oldEnd, f.newStart, f.newEnd, f.created);
    KeysStay(f.after, f.newStart, f.before[f.oldEnd].elm);
    hide InOrder, Left, DistinctKeys, SameVnode, Linked, Inserted;
    assert Windows(f');
    PatchedLinks(f, f.oldEnd, f.newStart, f');
  }

  /** An old child from inside the window: its element goes before that of the old start, its slot is cleared. */
  function Pick(f: Frame, i: int): Frame
    requires Inside(f) && f.oldStart < i <= f.oldEnd
  {
    Patched(f, i, f.newStart).(
      slots := f.slots[i := None], newStart := f.newStart + 1,
      children := Inserted(f.children, Elem(f, i), Some(Elem(f, f.oldStart))))
  }

  lemma PickedLeft(f: Frame, i: int) returns (k: nat)
    requires Inside(f) && f.oldStart < i <= f.oldEnd && f.slots[f.oldStart].Some? && f.slots[i].Some?
    ensures var m := Left(f.slots, f.oldStart, f.oldEnd + 1);
      && 0 < k < |m| && m[0] == Elem(f, f.oldStart) && m[k] == Elem(f, i)
      && m[..k] + m[k + 1..] == Left(f.slots[i := None], f.oldStart, f.oldEnd + 1)
  {
    LeftAt(f.slots, f.oldStart, i, f.oldEnd + 1);
    LeftCleared(f.slots, f.oldStart, i, f.oldEnd + 1);
    var a, b := Left(f.slots, f.oldStart, i), Left(f.slots, i + 1, f.oldEnd + 1);
    var m := Left(f.slots, f.oldStart, f.oldEnd + 1);
    k := |a|;
    assert m == a + [Elem(f, i)] + b && m[..k] == a && m[k + 1..] == b;
  }

  lemma PickKeeps(f: Frame, i: int)
    requires Inside(f) && f.oldStart < i <= f.oldEnd && f.slots[f.oldStart].Some? && f.slots[i].Some?
    requires SameVnode(f.before[i], f.after[f.newStart])
    ensures Inv(Pick(f, i))
  {
    var f' := Pick(f, i);
    var k := PickedLeft(f, i);
    ToFrontOrder(f.slots, f.after, f.children, f.oldStart, f.oldEnd, f.newStart, f.newEnd, f.created, k, f.slots[i := None], f.oldEnd);
    KeysStay(f.after, f.newStart, f.before[i].elm);
    hide InOrder, Left, DistinctKeys, SameVnode, Linked, Inserted;
    assert Windows(f');
    PatchedLinks(f, i, f.newStart, f');
  }

  /** A new element before `ref`. */
  function Make(f: Frame, ref: Option<Elm>): Frame
    requires Windows(f) && f.newStart <= f.newEnd
  {
    Created(f, f.newStart).(newStart := f.newStart + 1, children := Inserted(f.children, f.created, ref))
  }

  lemma MakeKeeps(f: Frame, ref: Option<Elm>)
    requires Inv(f) && f.newStart <= f.newEnd && f.base <= f.created
    requires Unmatched(f, f.newStart)
    requires ref == First(Left(f.slots, f.oldStart, f.oldEnd + 1) + Elms(f.after[f.newEnd + 1..]))
    ensures Inv(Make(f, ref))
  {
    hide Inserted, Elms, SameVnode, Left;
    var f' := Make(f, ref);
    MakeOrder(f.slots, f.after, f.children, f.oldStart, f.oldEnd, f.newStart, f.newEnd, f.created, ref);
    KeysStay(f.after, f.newStart, Some(f.created));
    hide InOrder, Left, SameVnode, DistinctKeys, Linked, Inserted, First;
    assert Windows(f');
    CreatedLinks(f, f.newStart, f');
  }

  // -------------------------------------------------------------- keys

  /** The key index: where the keyed old children are that are still in the window. It may be out of date for others. */
  ghost predicate KeyIndex(f: Frame, keys: map<Key, int>)
    requires Windows(f)
  {
    && (forall k :: k in keys ==> 0 <= keys[k] < |f.before| && f.before[keys[k]].key == Some(k))
    && (forall i :: f.oldStart <= i <= f.oldEnd && f.slots[i].Some? && f.before[i].key.Some? ==> f.before[i].key.value in keys)
  }

  /** Who took the element of a consumed old child has its key. */
  lemma Taker(f: Frame, i: int) returns (j: int)
    requires Inv(f) && 0 <= i < |f.before| && Gone(f, i)
    ensures 0 <= j < |f.after| && Processed(f, j) && f.after[j].key == f.before[i].key
  {
    hide Ordered, SameInputType;
    j := f.to[i];
    assert Settled(f, j);
  }

  /** An old child with the key of the next new child is still there: nobody else can have taken it. */
  lemma StillThere(f: Frame, i: int)
    requires Inv(f) && f.newStart <= f.newEnd && 0 <= i < |f.before|
    requires f.after[f.newStart].key.Some? && f.before[i].key == f.after[f.newStart].key
    ensures !Gone(f, i)
  {
    hide Ordered, Linked;
    if Gone(f, i) {
      var j := Taker(f, i);
      assert false;
    }
  }

  /** If the index has nothing to reuse for a key, there is nothing. */
  lemma NothingToReuse(f: Frame, keys: map<Key, int>)
    requires Inv(f) && f.newStart <= f.newEnd && f.after[f.newStart].key.Some? && KeyIndex(f, keys)
    requires var k := f.after[f.newStart].key.value; k in keys ==> !SameVnode(f.before[keys[k]], f.after[f.newStart])
    ensures forall i :: 0 <= i < |f.before| ==> !SameVnode(f.before[i], f.after[f.newStart])
  {
    hide Ordered, Linked, SameInputType;
    forall i | 0 <= i < |f.before| && f.before[i].key == f.after[f.newStart].key
      ensures !SameVnode(f.before[i], f.after[f.newStart])
    {
      StillThere(f, i);
    }
  }

  /** Once the old window is empty, nothing is left to match. */
  lemma NothingLeft(f: Frame)
    requires Inv(f) && f.newStart <= f.newEnd && f.oldStart > f.oldEnd
    ensures Unmatched(f, f.newStart)
  {
    hide Ordered, Linked, SameInputType;
    forall i | 0 <= i < |f.before|
      ensures f.after[f.newStart].key.Some? ==> f.before[i].key != f.after[f.newStart].key
    {
      if f.after[f.newStart].key.Some? && f.before[i].key == f.after[f.newStart].key {
        StillThere(f, i);
        assert false;
      }
    }
  }

  /** A narrower window or a cleared slot leaves the index good. */
  lemma KeyIndexStays(f: Frame, f': Frame, keys: map<Key, int>)
    requires Windows(f) && Windows(f') && KeyIndex(f, keys) && f'.before == f.before
    requires f.oldStart <= f'.oldStart && f'.oldEnd <= f.oldEnd
    requires forall i :: 0 <= i < |f.before| && f'.slots[i].Some? ==> f.slots[i].Some?
    ensures KeyIndex(f', keys)
  {
    hide DistinctKeys;
  }

  method CreateKeyToOldIdx(children: array<Option<VNode>>, begin: int, end: int) returns (keys: map<Key, int>)
    requires 0 <= begin <= end + 1 <= children.Length
    requires forall i :: begin <= i <= end ==> children[i].Some?
    ensures forall k :: k in keys ==> begin <= keys[k] <= end && children[keys[k]].value.key == Some(k)
    ensures forall i :: begin <= i <= end && children[i].value.key.Some? ==> children[i].value.key.value in keys
  {
    keys := map[];
    var i := begin;
    while i <= end
      invariant begin <= i <= end + 1
      invariant forall k :: k in keys ==> begin <= keys[k] < i && children[keys[k]].value.key == Some(k)
      invariant forall j :: begin <= j < i && children[j].value.key.Some? ==> children[j].value.key.value in keys
    {
      var key := children[i].value.key;
      if key.Some? {
        keys := keys[key.value := i];
      }
      i := i + 1;
    }
  }

  /** The first old child in [start, end) that is the same vnode; `end` itself was compared before. */
  method FindIdxInOld(node: VNode, oldCh: array<Option<VNode>>, start: int, end: int) returns (idx: Option<int>)
    requires 0 <= start <= end < oldCh.Length
    ensures idx.Some? ==> start <= idx.value < end && oldCh[idx.value].Some? && SameVnode(node, oldCh[idx.value].value)
    ensures forall i :: start <= i < (if idx.Some? then idx.value else end) && oldCh[i].Some? ==> !SameVnode(node, oldCh[i].value)
  {
    var i := start;
    while i < end
      invariant start <= i <= end
      invariant forall j :: start <= j < i && oldCh[j].Some? ==> !SameVnode(node, oldCh[j].value)
    {
      if oldCh[i].Some? && SameVnode(node, oldCh[i].value) {
        return Some(i);
      }
      i := i + 1;
    }
    return None;
  }

  lemma SameSymmetric(a: VNode, b: VNode)
    ensures SameVnode(a, b) == SameVnode(b, a)
  {
  }
}
