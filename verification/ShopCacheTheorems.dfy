/** What the locks of the shop cache buy: no interleaving reinstalls a value older than the last completed
    update, one load per cold id, one rebuild task per id, and no cycle of waiting threads. */
module ShopCacheTheorems {
  import opened Common
  import opened ShopCacheModel
  import opened ShopCacheInvariant

  // ------------------------------------------------------------ freshness

  /** In every interleaving, whatever either level holds is at least as new as the last update whose
      invalidation completed, and was really committed. */
  lemma CacheFreshness(start: State, steps: seq<Step>, id: Id)
    requires Start(start)
    ensures var s := Exec(start, steps);
      && (id in s.remote ==> Current(s, id, Decode(s.config, id, s.remote[id]).data))
      && (id in s.local ==> Current(s, id, s.local[id].data))
  {
    hide Exec, Current, Decode, Start;
    ExecKeeps(start, steps);
    assert CachesAt(Exec(start, steps), id);
  }

  /** A query that started when `floor` was the last completed version, and what it may answer. */
  predicate Serves(s: State, t: Thread, id: Id, floor: Version) {
    && floor <= Floor(s, id)
    && t in s.threads && s.threads[t].Reader? && s.threads[t].id == id && s.threads[t].role == Asking
    && match s.threads[t].at
       case Done(Found(entry)) =>
         if id in s.rows then entry.data.Some? && floor <= entry.data.value <= s.rows[id] else entry.data.None?
       case _ => true
  }

  lemma ReaderServes(s: State, t: Thread, id: Id, floor: Version, now: Millis, fault: Fault)
    requires Inv(s) && Serves(s, t, id, floor) && Enabled(s, Move(t, now, fault))
    ensures Serves(ReaderMove(s, t, now, fault), t, id, floor)
  {
    var p := s.threads[t];
    At(s, t);
    hide Inv, CachesAt, Excluded;
    ActionPlace(s, id, p.role, p.at, now, fault);
    ActionAnswer(s, id, p.role, p.at, now, fault);
    hide ReaderAction, PcOk, Stripe;
  }

  /** Only what the query held when it left the guard is answered. */
  lemma ActionAnswer(s: State, id: Id, role: Role, at: Place, now: Millis, fault: Fault)
    requires PcOk(s, Reader(id, role, at)) && !at.Done?
    ensures var a := ReaderAction(s.config, id, role, at, See(s, id), now, fault);
      a.next.Some? && a.next.value.Done? && a.next.value.outcome.Found? ==> Current(s, id, a.next.value.outcome.entry.data)
  {
    hide Decode, Encode, Loaded, Current;
  }

  lemma OthersServe(s: State, s': State, u: Thread, x: Id, t: Thread, id: Id, floor: Version)
    requires Stepped(s, s', u, x) && Serves(s, t, id, floor) && t != u
    ensures Serves(s', t, id, floor)
  {
    hide Reads, Writes, Locks;
    assert Get(s.threads, t) == Get(s'.threads, t);
    assert Get(s.rows, id) == Get(s'.rows, id) || id == x;
    assert Get(s.completed, id) == Get(s'.completed, id) || id == x;
  }

  lemma StepServes(s: State, step: Step, t: Thread, id: Id, floor: Version)
    requires Inv(s) && Serves(s, t, id, floor)
    ensures Serves(Apply(s, step), t, id, floor)
  {
    hide Inv, Blocked, ReaderMove, WriterMove, Stripe;
    if Enabled(s, step) && step.Move? {
      var u := step.thread;
      if u == t {
        ReaderServes(s, t, id, floor, step.now, step.fault);
      } else if s.threads[u].Reader? {
        ReaderStepped(s, u, step.now, step.fault);
        OthersServe(s, Apply(s, step), u, s.threads[u].id, t, id, floor);
      } else {
        WriterStepped(s, u, step.fault);
        OthersServe(s, Apply(s, step), u, s.threads[u].id, t, id, floor);
      }
    }
  }

  lemma {:induction false} RunServes(s: State, steps: seq<Step>, t: Thread, id: Id, floor: Version)
    requires Inv(s) && Serves(s, t, id, floor)
    ensures Inv(Exec(s, steps)) && Serves(Exec(s, steps), t, id, floor)
    decreases |steps|
  {
    hide Inv, Apply, Serves;
    if steps != [] {
      var before := steps[..|steps| - 1];
      RunServes(s, before, t, id, floor);
      StepKeeps(Exec(s, before), steps[|steps| - 1]);
      StepServes(Exec(s, before), steps[|steps| - 1], t, id, floor);
    }
  }

  lemma QueryStarts(s: State, t: Thread, id: Id)
    requires t !in s.threads
    ensures Serves(Apply(s, StartQuery(t, id)), t, id, Floor(s, id))
  {
  }

  /** A query that starts after an update completed never answers an older version, whatever runs beside it,
      and answers that a shop does not exist exactly when it does not. */
  lemma QueryFreshness(start: State, before: seq<Step>, t: Thread, id: Id, after: seq<Step>, entry: Entry)
    requires Start(start) && t !in Exec(start, before).threads
    requires var s := Exec(Exec(start, before + [StartQuery(t, id)]), after);
      t in s.threads && s.threads[t] == Reader(id, Asking, Done(Found(entry)))
    ensures var asked, s := Exec(start, before), Exec(Exec(start, before + [StartQuery(t, id)]), after);
      if id in s.rows then entry.data.Some? && Floor(asked, id) <= entry.data.value <= s.rows[id] else entry.data.None?
  {
    hide Exec, Start, Apply, Floor;
    var asked := Exec(start, before);
    ExecKeeps(start, before + [StartQuery(t, id)]);
    ExecOne(start, before, StartQuery(t, id));
    QueryStarts(asked, t, id);
    RunServes(Exec(start, before + [StartQuery(t, id)]), after, t, id, Floor(asked, id));
  }

  // -------------------------------------------------------- single flight

  /** MySQL is asked for a shop that is not in Redis. A query never asks otherwise. */
  predicate ColdLoad(s: State, step: Step, id: Id) {
    && step.Move? && step.fault.Fine? && step.thread in s.threads
    && s.threads[step.thread].Reader? && s.threads[step.thread].id == id && s.threads[step.thread].at.Select?
    && (s.threads[step.thread].role == Asking || id !in s.remote)
  }

  /** The value is in Redis, or its loader is about to put it there. */
  predicate Got(s: State, id: Id) {
    id in s.remote || exists t | t in s.threads :: Storing(s.threads[t], id)
  }

  predicate Storing(p: Pc, id: Id) {
    p.id == id && p.Reader? && p.at.Store?
  }

  /** The Redis entry is taken away, or fails to get there. */
  predicate Loses(s: State, step: Step, id: Id) {
    || step == ExpireRemote(id)
    || (&& step.Move? && step.thread in s.threads && step.fault.Lost? && Storing(s.threads[step.thread], id))
    || (&& step.Move? && step.thread in s.threads && !step.fault.Lost? && s.threads[step.thread].id == id
        && s.threads[step.thread].Writer? && s.threads[step.thread].stage.Delete?)
  }

  /** How often MySQL was asked for a shop that was not in Redis. */
  function ColdLoads(s: State, steps: seq<Step>, id: Id): nat
    decreases |steps|
  {
    if steps == [] then 0
    else
      var before, last := steps[..|steps| - 1], steps[|steps| - 1];
      ColdLoads(s, before, id) + if ColdLoad(Exec(s, before), last, id) then 1 else 0
  }

  /** The Redis entry of the id lives on through the schedule once it is there. */
  ghost predicate Lives(s: State, steps: seq<Step>, id: Id) {
    forall k :: 0 <= k < |steps| ==> !Loses(Exec(s, steps[..k]), steps[k], id)
  }

  /** Whoever loads holds the Redisson lock, so nobody else is about to store. */
  lemma LoaderAlone(s: State, step: Step, id: Id)
    requires Inv(s) && ColdLoad(s, step, id)
    ensures !Got(s, id)
  {
    var t := step.thread;
    At(s, t);
    hide Inv, Stripe;
    assert id !in s.remote;
    forall u | u in s.threads
      ensures !Storing(s.threads[u], id)
    {
      assert u != t ==> Excluded(s.threads[t], s.threads[u]);
    }
  }

  /** Storing comes from loading, and ends with the entry in Redis. */
  lemma ActionGot(c: Config, id: Id, role: Role, at: Place, seen: Seen, now: Millis, fault: Fault)
    ensures var a := ReaderAction(c, id, role, at, seen, now, fault);
      && (a.next.Some? && a.next.value.Store? <==> at.Select? && fault.Fine?)
      && (a.remote.Put? <==> at.Store? && !fault.Lost?)
      && !a.remote.Remove?
  {
    hide Decode, Encode, Loaded;
  }

  lemma ReaderGot(s: State, t: Thread, now: Millis, fault: Fault, id: Id)
    requires Inv(s) && t in s.threads && s.threads[t].Reader? && !Loses(s, Move(t, now, fault), id)
    ensures Got(ReaderMove(s, t, now, fault), id) <==> Got(s, id) || ColdLoad(s, Move(t, now, fault), id)
  {
    var p, s' := s.threads[t], ReaderMove(s, t, now, fault);
    ActionGot(s.config, p.id, p.role, p.at, See(s, p.id), now, fault);
    hide ReaderAction, Inv, Encode, Decode;
    forall u | u != t
      ensures Get(s'.threads, u) == Get(s.threads, u)
    {
    }
    if u :| u in s.threads && u != t && Storing(s.threads[u], id) {
      assert u in s'.threads && Storing(s'.threads[u], id);
    } else if p.id == id && p.at.Select? && fault.Fine? {
      assert Storing(s'.threads[t], id);
    } else if Storing(p, id) {
      assert t in s.threads;
    }
  }

  lemma WriterGot(s: State, t: Thread, fault: Fault, now: Millis, id: Id)
    requires t in s.threads && s.threads[t].Writer? && !Loses(s, Move(t, now, fault), id)
    ensures Got(WriterMove(s, t, fault), id) <==> Got(s, id)
  {
    var s' := WriterMove(s, t, fault);
    if u :| u in s.threads && Storing(s.threads[u], id) {
      assert u in s'.threads && Storing(s'.threads[u], id);
    }
  }

  lemma StepGot(s: State, step: Step, id: Id)
    requires Inv(s) && !Loses(s, step, id)
    ensures Got(Apply(s, step), id) <==> Got(s, id) || ColdLoad(s, step, id)
    ensures !(Got(s, id) && ColdLoad(s, step, id))
  {
    if ColdLoad(s, step, id) {
      LoaderAlone(s, step, id);
    }
    var s' := Apply(s, step);
    hide Inv, Stripe, ReaderMove, WriterMove, Blocked;
    if step.Move? && Enabled(s, step) {
      if s.threads[step.thread].Reader? {
        ReaderGot(s, step.thread, step.now, step.fault, id);
      } else {
        WriterGot(s, step.thread, step.fault, step.now, id);
      }
    } else if u :| u in s.threads && Storing(s.threads[u], id) {
      assert u in s'.threads && Storing(s'.threads[u], id);
    }
  }

  lemma {:induction false} ColdLoadsCount(s: State, steps: seq<Step>, id: Id)
    requires Inv(s) && Lives(s, steps, id)
    ensures Inv(Exec(s, steps))
    ensures ColdLoads(s, steps, id) == if !Got(s, id) && Got(Exec(s, steps), id) then 1 else 0
    ensures Got(s, id) ==> Got(Exec(s, steps), id)
    decreases |steps|
  {
    hide Inv, Apply, Got, ColdLoad, Loses;
    if steps != [] {
      var before, last := steps[..|steps| - 1], steps[|steps| - 1];
      forall k | 0 <= k < |before|
        ensures !Loses(Exec(s, before[..k]), before[k], id)
      {
        assert before[..k] == steps[..k];
      }
      ColdLoadsCount(s, before, id);
      StepKeeps(Exec(s, before), last);
      StepGot(Exec(s, before), last, id);
    }
  }

  /** Single flight: while its Redis entry lives, any number of concurrent misses of one id cause at most one load. */
  lemma SingleFlight(start: State, before: seq<Step>, steps: seq<Step>, id: Id)
    requires Start(start) && Lives(Exec(start, before), steps, id)
    ensures ColdLoads(Exec(start, before), steps, id) <= 1
  {
    hide Inv, Exec, Start, ColdLoads, Lives, Got;
    ExecKeeps(start, before);
    ColdLoadsCount(Exec(start, before), steps, id);
  }

  /** The task of an id, queued or running, and the query about to hand it over. */
  function Rebuilders(s: State, id: Id): set<Thread> {
    set t | t in s.threads && Marks(s.threads[t]) && s.threads[t].id == id
  }

  /** At most one rebuild task per id is queued or running, and the mark says exactly whether there is one. */
  lemma OneRebuild(start: State, steps: seq<Step>, id: Id)
    requires Start(start)
    ensures |Rebuilders(Exec(start, steps), id)| == if id in Exec(start, steps).rebuilding then 1 else 0
  {
    hide Exec, Start, Marks, Threads, Caches, Exclusion;
    ExecKeeps(start, steps);
    var s := Exec(start, steps);
    if id in s.rebuilding {
      var t :| t in s.threads && Marks(s.threads[t]) && s.threads[t].id == id;
      forall u | u in Rebuilders(s, id)
        ensures u == t
      {
      }
      assert Rebuilders(s, id) == {t};
    } else {
      forall u | u in s.threads && Marks(s.threads[u])
        ensures s.threads[u].id in s.rebuilding
      {
      }
      assert Rebuilders(s, id) == {};
    }
  }

  // -------------------------------------------------------- no wait cycle

  predicate WaitsFor(s: State, t: Thread, u: Thread) {
    t in s.threads && ((InQueue(s.threads[t]) && BehindInQueue(s, t, u)) || BehindLock(s, t, u))
  }

  /** The holder of the Redisson lock waits for nobody, one who holds the guard waits only for such a holder,
      and one who waits for the guard holds nothing. */
  function Rank(p: Pc): nat {
    if InQueue(p) then 2 + Ticket(p) else if p.Reader? && p.at.Lock? then 1 else 0
  }

  lemma {:induction false} NoWaitCycle(s: State, chain: seq<Thread>)
    requires |chain| > 1 && forall i :: 0 <= i < |chain| - 1 ==> WaitsFor(s, chain[i], chain[i + 1])
    ensures chain[0] in s.threads && chain[|chain| - 1] in s.threads
    ensures Rank(s.threads[chain[|chain| - 1]]) < Rank(s.threads[chain[0]])
    ensures chain[0] != chain[|chain| - 1]
    decreases |chain|
  {
    hide Stripe;
    assert WaitsFor(s, chain[0], chain[1]);
    if |chain| > 2 {
      NoWaitCycle(s, chain[1..]);
    }
  }

  predicate Unfinished(p: Pc) {
    p.Writer? || !p.at.Done?
  }

  /** Whoever is stuck waits, through finitely many others, for a thread that can go on. */
  lemma {:induction false} SomeoneMoves(s: State, t: Thread) returns (u: Thread, fault: Fault)
    requires t in s.threads && Unfinished(s.threads[t])
    ensures u in s.threads && Unfinished(s.threads[u]) && !Blocked(s, u) && Enabled(s, Move(u, 0, fault))
    decreases Rank(s.threads[t])
  {
    hide Stripe;
    if Blocked(s, t) {
      var w: Thread;
      if InQueue(s.threads[t]) {
        w :| w in s.threads && BehindInQueue(s, t, w);
      } else {
        w :| w in s.threads && BehindLock(s, t, w);
      }
      u, fault := SomeoneMoves(s, w);
    } else {
      u, fault := t, if s.threads[t].Reader? && s.threads[t].at.Submit? then Lost else Fine;
    }
  }
}
