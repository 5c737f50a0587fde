/** Small helpers shared by every module: options, results that stand for the
    exceptions of the original, and facts about finite sets. */
module Common {
  datatype Option<+T> = None | Some(value: T)

  /** `Err` stands for an exception leaving the call. */
  datatype Result<+T> = Ok(value: T) | Err

  /** What happens to one remote call: it is performed and answered, never arrives, or its answer is lost. */
  datatype Fault = Fine | Lost | ReplyLost

  /** What comes before a remote call: other clients perform some steps; then the call meets its fault. */
  datatype Disturbance<+Step> = Disturbance(others: seq<Step>, fault: Fault)

  /** The fault the next call meets; with nothing left to come it is undisturbed. */
  function FirstFault<Step>(tape: seq<Disturbance<Step>>): Fault {
    if tape == [] then Fine else tape[0].fault
  }

  /** Before the next call nobody else acts. */
  predicate Unaccompanied<Step>(tape: seq<Disturbance<Step>>) {
    tape == [] || tape[0].others == []
  }

  /** Nor does the call meet a fault. */
  predicate Silent<Step>(tape: seq<Disturbance<Step>>) {
    Unaccompanied(tape) && FirstFault(tape).Fine?
  }

  function Rest<T>(tape: seq<T>): seq<T> {
    if tape == [] then [] else tape[1..]
  }

  /** Calls took the front of the tape and left this. */
  predicate Consumed<T(==)>(before: seq<T>, after: seq<T>) {
    |after| <= |before| && after == before[|before| - |after|..]
  }

  lemma ConsumedRest<T>(tape: seq<T>)
    ensures Consumed(tape, tape) && Consumed(tape, Rest(tape))
  {
  }

  lemma ConsumedTrans<T>(a: seq<T>, b: seq<T>, c: seq<T>)
    requires Consumed(a, b) && Consumed(b, c)
    ensures Consumed(a, c)
  {
  }

  /** What is left of the tape after so many calls. */
  function Skip<T>(tape: seq<T>, calls: nat): seq<T> {
    if calls <= |tape| then tape[calls..] else []
  }


  lemma SkipOne<T>(tape: seq<T>, calls: nat)
    ensures Rest(Skip(tape, calls)) == Skip(tape, calls + 1) && Consumed(tape, Skip(tape, calls))
    ensures Skip(tape, 0) == tape && Rest(tape) == Skip(tape, 1) && (tape == [] ==> Skip(tape, calls) == [])
  {
  }

  /** Nobody else ever acts. */
  ghost predicate Lone<Step>(tape: seq<Disturbance<Step>>) {
    forall i :: 0 <= i < |tape| ==> tape[i].others == []
  }

  lemma LoneLater<Step>(before: seq<Disturbance<Step>>, after: seq<Disturbance<Step>>)
    requires Lone(before) && Consumed(before, after)
    ensures Lone(after) && Unaccompanied(after)
  {
  }

  /** How many of the calls fail or lose their answer. */
  function Faults<Step>(tape: seq<Disturbance<Step>>): nat {
    if tape == [] then 0 else Faults(tape[1..]) + if tape[0].fault.Fine? then 0 else 1
  }


  lemma {:induction false} ConsumedFaults<Step>(a: seq<Disturbance<Step>>, b: seq<Disturbance<Step>>)
    requires Consumed(a, b)
    ensures Faults(b) <= Faults(a)
    decreases |a|
  {
    if |b| < |a| {
      ConsumedFaults(a[1..], b);
    }
  }

  /** The last call that used up an entry of the tape failed or lost its answer. */
  predicate LastFailed<Step>(before: seq<Disturbance<Step>>, after: seq<Disturbance<Step>>) {
    |after| < |before| && !before[|before| - |after| - 1].fault.Fine?
  }

  /** So did the one before it. */
  predicate LastTwoFailed<Step>(before: seq<Disturbance<Step>>, after: seq<Disturbance<Step>>) {
    LastFailed(before, after) && |after| + 1 < |before| && !before[|before| - |after| - 2].fault.Fine?
  }

  lemma FailedNow<Step>(before: seq<Disturbance<Step>>, now: seq<Disturbance<Step>>)
    requires Consumed(before, now) && !FirstFault(now).Fine?
    ensures LastFailed(before, Rest(now)) && (LastFailed(before, now) ==> LastTwoFailed(before, Rest(now)))
  {
  }

  lemma FailedLater<Step>(a: seq<Disturbance<Step>>, b: seq<Disturbance<Step>>, c: seq<Disturbance<Step>>)
    requires Consumed(a, b)
    ensures LastFailed(b, c) ==> LastFailed(a, c)
    ensures LastTwoFailed(b, c) ==> LastTwoFailed(a, c)
  {
  }

  function Get<K, V>(m: map<K, V>, k: K): Option<V> {
    if k in m then Some(m[k]) else None
  }

  /** The maps agree on every key but `k`. */
  ghost predicate SameOff<K(!new), V>(m: map<K, V>, m': map<K, V>, k: K) {
    forall x :: x != k ==> Get(m, x) == Get(m', x)
  }

  lemma SameOffSelf<K(!new), V>(m: map<K, V>, k: K)
    ensures SameOff(m, m, k)
  {
  }

  /** The sets agree on every element but `k`. */
  ghost predicate SameBut<T(!new)>(a: set<T>, b: set<T>, k: T) {
    forall x :: x != k ==> (x in a <==> x in b)
  }

  function Max(a: int, b: int): int {
    if a >= b then a else b
  }

  /** Some element of a non-empty set. */
  method Any<T>(s: set<T>) returns (x: T)
    requires s != {}
    ensures x in s
  {
    x :| x in s;
  }

  lemma SubsetSize<T>(a: set<T>, b: set<T>)
    requires a <= b
    ensures |a| <= |b|
  {
    assert b == a + (b - a);
  }

  /** An injective image has as many elements as its source. */
  lemma {:induction false} InjectiveImage<A, B>(source: set<A>, f: map<A, B>, image: set<B>)
    requires source <= f.Keys
    requires forall a :: a in source ==> f[a] in image
    requires forall a, b :: a in source && b in source && a != b ==> f[a] != f[b]
    ensures |source| <= |image|
    decreases source
  {
    if source != {} {
      var a :| a in source;
      InjectiveImage(source - {a}, f, image - {f[a]});
    }
  }

  /** Two sets in one-to-one correspondence have the same size. */
  lemma BijectionSize<A, B>(source: set<A>, f: map<A, B>, image: set<B>, g: map<B, A>)
    requires source <= f.Keys && image <= g.Keys
    requires forall a :: a in source ==> f[a] in image && g[f[a]] == a
    requires forall b :: b in image ==> g[b] in source && f[g[b]] == b
    ensures |source| == |image|
  {
    InjectiveImage(source, f, image);
    InjectiveImage(image, g, source);
  }

  ghost predicate NoRepeat<T>(s: seq<T>) {
    forall i, j :: 0 <= i < j < |s| ==> s[i] != s[j]
  }

  function Elements<T>(s: seq<T>): set<T> {
    set x | x in s
  }

  /** A sequence without repetition has as many elements as positions. */
  lemma {:induction false} DistinctSize<T>(s: seq<T>)
    requires forall i, j :: 0 <= i < j < |s| ==> s[i] != s[j]
    ensures |Elements(s)| == |s|
    decreases |s|
  {
    if s != [] {
      var n := |s| - 1;
      DistinctSize(s[..n]);
      assert s[n] !in Elements(s[..n]);
      assert Elements(s) == Elements(s[..n]) + {s[n]};
    }
  }

  lemma Regroup<T>(a: seq<T>, b: seq<T>, c: seq<T>)
    ensures a + (b + c) == (a + b) + c
  {
  }
}
