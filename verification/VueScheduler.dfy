/** The watcher queue of Vue 2.5.16: a spliced array that behaves like a set from which the lowest id is taken. */
module VueScheduler {
  import opened Common

  /** Watchers are known by their ids. */
  type Id = int

  const MAX_UPDATE_COUNT := 100

  ghost predicate Increasing(s: seq<Id>) {
    forall i, j :: 0 <= i < j < |s| ==> s[i] < s[j]
  }

  /** One run of a watcher during a flush, and what it asked to be queued. */
  datatype Run = Run(watcher: Id, requests: seq<Id>)

  /** The watchers waiting after some runs: a run takes its watcher out and puts its requests in. */
  function Pending(start: set<Id>, runs: seq<Run>): set<Id> {
    if runs == [] then start
    else
      var last := runs[|runs| - 1];
      Pending(start, runs[..|runs| - 1]) - {last.watcher} + Elements(last.requests)
  }

  /** How often a watcher asked for itself while it ran. */
  function SelfRequests(runs: seq<Run>, w: Id): nat {
    if runs == [] then 0
    else
      var last := runs[|runs| - 1];
      SelfRequests(runs[..|runs| - 1], w) + if last.watcher == w && w in last.requests then 1 else 0
  }

  /** Each run takes the lowest waiting id. */
  ghost predicate LowestFirst(start: set<Id>, runs: seq<Run>) {
    forall k :: 0 <= k < |runs| ==>
      var waiting := Pending(start, runs[..k]);
      runs[k].watcher in waiting && forall w :: w in waiting ==> runs[k].watcher <= w
  }

  /** No watcher asked for itself too often. */
  ghost predicate Calm(runs: seq<Run>) {
    forall w :: SelfRequests(runs, w) <= 100
  }

  lemma PendingOne(start: set<Id>, runs: seq<Run>, run: Run)
    ensures Pending(start, runs + [run]) == Pending(start, runs) - {run.watcher} + Elements(run.requests)
    ensures forall w ::
      SelfRequests(runs + [run], w) == SelfRequests(runs, w) + if run.watcher == w && w in run.requests then 1 else 0
  {
    assert (runs + [run])[..|runs|] == runs;
  }

  function Put(s: seq<Id>, at: nat, w: Id): seq<Id>
    requires at <= |s|
  {
    s[..at] + [w] + s[at..]
  }

  /** A new id put where everything before is smaller and everything behind is larger. */
  lemma PutIncreasing(s: seq<Id>, at: nat, w: Id)
    requires at <= |s| && Increasing(s)
    requires at > 0 ==> s[at - 1] < w
    requires forall k :: at <= k < |s| ==> s[k] > w
    ensures Increasing(Put(s, at, w))
  {
    var r := Put(s, at, w);
    assert forall k :: 0 <= k < |r| ==> r[k] == if k < at then s[k] else if k == at then w else s[k - 1];
    hide Put;
    assert forall k :: 0 <= k < at ==> s[k] < w;
  }

  lemma PutElements(s: seq<Id>, at: nat, w: Id)
    requires at <= |s|
    ensures Elements(Put(s, at, w)) == Elements(s) + {w}
  {
    assert s == s[..at] + s[at..];
  }

  class Scheduler {
    var queue: seq<Id>
    var has: set<Id>
    var circular: map<Id, nat>
    var waiting: bool
    var flushing: bool
    var index: int

    constructor ()
      ensures Idle() && queue == []
    {
      queue, has, circular, waiting, flushing, index := [], {}, map[], false, false, 0;
    }

    /** Between flushes the queue holds each waiting watcher once, and a flush is on its way exactly if there is one. */
    ghost predicate Idle()
      reads this
    {
      !flushing && NoRepeat(queue) && has == Elements(queue) && (waiting <==> queue != []) && circular == map[]
    }

    /** While the watcher at `index` runs, what is behind it is strictly increasing and is exactly what waits. */
    ghost predicate Flushing()
      reads this
    {
      flushing && waiting && 0 <= index < |queue| && Increasing(queue[index + 1..]) && has == Elements(queue[index + 1..])
    }

    /** The search of queueWatcher from the back: behind the watcher at `index`, behind the last id that is not larger. */
    static method FindPlace(q: seq<Id>, index: int, w: Id) returns (i: int)
      requires 0 <= index < |q|
      ensures index <= i < |q| && (i > index ==> q[i] <= w) && forall k :: i < k < |q| ==> q[k] > w
    {
      i := |q| - 1;
      while i > index && q[i] > w
        invariant index <= i < |q|
        invariant forall k :: i < k < |q| ==> q[k] > w
      {
        i := i - 1;
      }
    }

    static lemma Pushed(q: seq<Id>, w: Id)
      requires NoRepeat(q) && w !in Elements(q)
      ensures NoRepeat(q + [w]) && Elements(q + [w]) == Elements(q) + {w}
    {
    }

    /** During a flush: spliced into the unrun tail. */
    method Splice(w: Id)
      requires Flushing() && w !in has
      modifies `queue, `has
      ensures Flushing() && has == old(has) + {w} && queue[..index + 1] == old(queue[..index + 1])
    {
      hide Increasing;
      var i := FindPlace(queue, index, w);
      Spliced(queue, index, i, w);
      hide Elements;
      has := has + {w};
      queue := queue[..i + 1] + [w] + queue[i + 1..];
    }

    /** queueWatcher: waiting already, or appended, or spliced in by id. */
    method QueueWatcher(w: Id)
      requires if flushing then Flushing() else Idle()
      modifies `queue, `has, `waiting
      ensures has == old(has) + {w} && waiting
      ensures if flushing then Flushing() && queue[..index + 1] == old(queue[..index + 1]) else Idle()
    {
      if w in has {
        assert !flushing ==> queue != [];
        return;
      }
      hide Increasing, NoRepeat;
      if !flushing {
        Pushed(queue, w);
        hide Elements;
        has := has + {w};
        queue := queue + [w];
      } else {
        Splice(w);
      }
      waiting := true;
    }

    /** Putting a new id where the search stopped keeps the tail increasing. */
    static lemma Spliced(q: seq<Id>, index: int, i: int, w: Id)
      requires 0 <= index <= i < |q| && Increasing(q[index + 1..]) && w !in q[index + 1..]
      requires i > index ==> q[i] <= w
      requires forall k :: i < k < |q| ==> q[k] > w
      ensures var q' := q[..i + 1] + [w] + q[i + 1..];
        && q'[..index + 1] == q[..index + 1]
        && Increasing(q'[index + 1..]) && Elements(q'[index + 1..]) == Elements(q[index + 1..]) + {w}
    {
      var tail, at := q[index + 1..], i - index;
      assert i > index ==> tail[at - 1] == q[i] && tail[at - 1] in tail;
      assert forall k :: at <= k < |tail| ==> tail[k] == q[index + 1 + k];
      hide Increasing, Elements;
      PutIncreasing(tail, at, w);
      PutElements(tail, at, w);
      assert (q[..i + 1] + [w] + q[i + 1..])[index + 1..] == Put(tail, at, w);
    }

    /** queue.sort by id. */
    method Sort()
      requires NoRepeat(queue)
      modifies `queue
      ensures Increasing(queue) && Elements(queue) == Elements(old(queue))
    {
      var q, sorted := queue, [];
      for n := 0 to |q|
        invariant Increasing(sorted) && Elements(sorted) == Elements(q[..n])
      {
        var w := q[n];
        var i := |sorted|;
        while i > 0 && sorted[i - 1] > w
          invariant 0 <= i <= |sorted| && forall k :: i <= k < |sorted| ==> sorted[k] > w
        {
          i := i - 1;
        }
        NotYet(q, n, sorted);
        hide Increasing, Elements;
        PutIncreasing(sorted, i, w);
        PutElements(sorted, i, w);
        PutElements(q[..n], n, w);
        assert Put(q[..n], n, w) == q[..n + 1];
        sorted := sorted[..i] + [w] + sorted[i..];
      }
      assert q[..|q|] == q;
      queue := sorted;
    }

    static lemma NotYet(q: seq<Id>, n: nat, sorted: seq<Id>)
      requires NoRepeat(q) && n < |q| && Elements(sorted) == Elements(q[..n])
      ensures forall k :: 0 <= k < |sorted| ==> sorted[k] != q[n]
    {
      forall k | 0 <= k < |sorted|
        ensures sorted[k] != q[n]
      {
        assert sorted[k] in Elements(q[..n]);
      }
    }

    /** watcher.run as far as the queue is concerned: some requests. */
    method RunWatcher(requests: seq<Id>)
      requires Flushing()
      modifies `queue, `has, `waiting
      ensures Flushing() && has == old(has) + Elements(requests) && queue[..index + 1] == old(queue[..index + 1])
      ensures requests == [] ==> queue == old(queue)
    {
      for k := 0 to |requests|
        invariant Flushing() && has == old(has) + Elements(requests[..k]) && queue[..index + 1] == old(queue[..index + 1])
        invariant k == 0 ==> queue == old(queue)
      {
        assert Elements(requests[..k + 1]) == Elements(requests[..k]) + {requests[k]};
        QueueWatcher(requests[k]);
      }
      assert requests[..|requests|] == requests;
    }

    /** The counter of circular updates. */
    function Circular(w: Id): nat
      reads this
    {
      if w in circular then circular[w] else 0
    }

    /** Between two runs of a flush. */
    ghost predicate Between()
      reads this
    {
      flushing && waiting && 0 <= index <= |queue| && Increasing(queue[index..]) && has == Elements(queue[index..])
    }

    /** What the flush did so far explains what waits and what was counted. */
    ghost predicate Traced(start: set<Id>, runs: seq<Run>)
      reads this
    {
      has == Pending(start, runs) && LowestFirst(start, runs) && forall w :: SelfRequests(runs, w) == Circular(w)
    }

    /** The body of the flush loop; true when it must break off. */
    method RunNext(requests: seq<Id>, ghost start: set<Id>, ghost runs: seq<Run>) returns (broken: bool)
      requires Between() && index < |queue| && Traced(start, runs) && Calm(runs)
      modifies this
      ensures index == old(index) < |queue| && queue[index] == old(queue[index])
      ensures Flushing() && Traced(start, runs + [Run(queue[index], requests)])
      ensures !broken ==> Calm(runs + [Run(queue[index], requests)])
      ensures broken ==> SelfRequests(runs + [Run(queue[index], requests)], queue[index]) == MAX_UPDATE_COUNT + 1
      ensures requests == [] ==> |queue| == old(|queue|)
    {
      hide Pending, SelfRequests;
      var id := queue[index];
      TailOf(queue, index);
      hide Increasing, LowestFirst, Elements;
      has := has - {id};
      RunWatcher(requests);
      PendingOne(start, runs, Run(id, requests));
      LowestAgain(start, runs, Run(id, requests));
      assert queue[index] == queue[..index + 1][index];
      broken := false;
      if id in has {
        circular := circular[id := Circular(id) + 1];
        broken := circular[id] > MAX_UPDATE_COUNT;
      }
    }

    static lemma TailOf(q: seq<Id>, index: int)
      requires 0 <= index < |q| && Increasing(q[index..])
      ensures Increasing(q[index + 1..]) && Elements(q[index + 1..]) == Elements(q[index..]) - {q[index]}
      ensures q[index] in Elements(q[index..]) && forall w :: w in Elements(q[index..]) ==> q[index] <= w
    {
      var tail := q[index..];
      assert tail[0] == q[index] && q[index + 1..] == tail[1..];
      assert tail == [tail[0]] + tail[1..];
    }

    /** flushSchedulerQueue. The runs are those of a set from which always the lowest id is taken, until nothing waits; the flush
        breaks off exactly when a watcher asked for itself more often than allowed. The scheduler is idle and empty afterwards.
        `script` is what the runs request; runs after its end request nothing. */
    method FlushSchedulerQueue(script: seq<seq<Id>>) returns (ghost runs: seq<Run>, broken: bool)
      requires Idle() && waiting
      modifies this
      ensures Idle() && queue == []
      ensures LowestFirst(old(has), runs)
      ensures Scripted(runs, script)
      ensures !broken ==> Pending(old(has), runs) == {} && Calm(runs)
      ensures broken ==>
        runs != [] && Calm(runs[..|runs| - 1]) && SelfRequests(runs, runs[|runs| - 1].watcher) == 101
    {
      hide Pending, SelfRequests, LowestFirst, Calm, Elements, Increasing, NoRepeat, Scripted;
      flushing := true;
      Sort();
      runs, broken, index := [], false, 0;
      ghost var start := has;
      NothingRun(start, script);
      assert queue[0..] == queue;
      while index < |queue|
        invariant Between() && Traced(start, runs) && |runs| == index && Calm(runs)
        invariant Scripted(runs, script)
        decreases Max(|script| - index, 0), |queue| - index
      {
        ghost var before := runs;
        var requests := if index < |script| then script[index] else [];
        broken := RunNext(requests, start, runs);
        ScriptedOne(runs, script, Run(queue[index], requests));
        runs := runs + [Run(queue[index], requests)];
        if broken {
          assert runs[..|runs| - 1] == before;
          break;
        }
        index := index + 1;
      }
      EmptyQueue(queue, index, broken);
      queue, has, circular, index := [], {}, map[], 0;
      waiting, flushing := false, false;
    }

    static lemma EmptyQueue(q: seq<Id>, index: int, broken: bool)
      requires broken || index == |q|
      ensures NoRepeat<Id>([]) && Elements<Id>([]) == {} && (!broken ==> Elements(q[index..]) == {})
    {
    }

    static lemma NothingRun(start: set<Id>, script: seq<seq<Id>>)
      ensures Pending(start, []) == start && Calm([]) && LowestFirst(start, [])
      ensures Scripted([], script) && forall w :: SelfRequests([], w) == 0
    {
    }

    /** The runs request what the script says, and nothing after its end. */
    static ghost predicate Scripted(runs: seq<Run>, script: seq<seq<Id>>) {
      forall k :: 0 <= k < |runs| ==> runs[k].requests == if k < |script| then script[k] else []
    }

    static lemma ScriptedOne(runs: seq<Run>, script: seq<seq<Id>>, run: Run)
      requires Scripted(runs, script) && run.requests == if |runs| < |script| then script[|runs|] else []
      ensures Scripted(runs + [run], script)
    {
    }

    static lemma LowestAgain(start: set<Id>, runs: seq<Run>, run: Run)
      requires LowestFirst(start, runs) && run.watcher in Pending(start, runs)
      requires forall w :: w in Pending(start, runs) ==> run.watcher <= w
      ensures LowestFirst(start, runs + [run])
    {
      var longer := runs + [run];
      forall k | 0 <= k < |longer|
        ensures longer[..k] == runs[..k]
      {
      }
      assert runs[..|runs|] == runs;
    }
  }

  /** With nothing left waiting, every watcher that waited at the start or was requested by a run has run after that. */
  lemma {:induction false} EveryoneRuns(start: set<Id>, runs: seq<Run>, k: nat, w: Id)
    requires Pending(start, runs) == {} && k <= |runs| && w in Pending(start, runs[..k])
    ensures exists j :: k <= j < |runs| && runs[j].watcher == w
    decreases |runs| - k
  {
    assert runs[..|runs|] == runs;
    if k < |runs| && runs[k].watcher != w {
      assert runs[..k + 1] == runs[..k] + [runs[k]];
      PendingOne(start, runs[..k], runs[k]);
      EveryoneRuns(start, runs, k + 1, w);
    }
  }

  /** No watcher runs twice unless it was requested again in between, by itself or a later run. */
  lemma {:induction false} NoRunTwice(start: set<Id>, runs: seq<Run>, i: nat, j: nat)
    requires LowestFirst(start, runs) && i < j < |runs| && runs[i].watcher == runs[j].watcher
    ensures exists m :: i <= m < j && runs[i].watcher in runs[m].requests
    decreases j - i
  {
    if forall m :: i <= m < j ==> runs[i].watcher !in runs[m].requests {
      StaysOut(start, runs, i, j);
      assert false;
    }
  }

  lemma {:induction false} StaysOut(start: set<Id>, runs: seq<Run>, i: nat, k: nat)
    requires i < k <= |runs|
    requires forall m :: i <= m < k ==> runs[i].watcher !in runs[m].requests
    ensures runs[i].watcher !in Pending(start, runs[..k])
    decreases k
  {
    assert runs[..k] == runs[..k - 1] + [runs[k - 1]];
    PendingOne(start, runs[..k - 1], runs[k - 1]);
    if i < k - 1 {
      StaysOut(start, runs, i, k - 1);
    }
  }
}
