/** The methods of the shop cache over memory updated in place. Between any two accesses of a thread an adversary,
    read off a tape, runs steps of other threads and decides whether the next remote access fails. */
module ShopCacheService {
  import opened Common
  import opened ShopCacheModel
  import opened ShopCacheInvariant
  import opened ShopCacheTheorems

  /** What happens before the next access of a thread: steps of others, the time, and how the access ends. */
  datatype Interlude = Interlude(others: seq<Step>, now: Millis, fault: Fault)

  datatype Memory = Memory(rows: map<Id, Version>, remote: map<Id, Stored>, local: map<Id, Entry>, rebuilding: set<Id>)

  /** What `query` answers; `Stuck` when the guard was never given to it. */
  datatype Answer = Shop(version: Version) | Missing | Failed | Stuck

  function AnswerOf(outcome: Outcome): Answer {
    if outcome.Raised? then Failed else if outcome.entry.data.None? then Missing else Shop(outcome.entry.data.value)
  }

  /** A query that runs alone at time `now`: the entry it serves, from L1, else Redis, else MySQL, and the levels it fills. */
  function AloneEntry(c: Config, m: Memory, id: Id, now: Millis): Entry {
    if id in m.local then m.local[id]
    else if id in m.remote then Decode(c, id, m.remote[id])
    else Loaded(c, id, Get(m.rows, id), now)
  }

  function AloneMemory(c: Config, m: Memory, id: Id, now: Millis): Memory {
    var entry := AloneEntry(c, m, id, now);
    m.(remote := if id in m.local || id in m.remote then m.remote else m.remote[id := Encode(c, id, entry)],
       local := if id !in m.local && entry.data.Some? then m.local[id := entry] else m.local,
       rebuilding := if entry.data.Some? && entry.expire <= now then m.rebuilding + {id} else m.rebuilding)
  }

  /** A query of a shop that neither level has answers the row and leaves it in both levels, or the mark of its absence in
      Redis; a second one answers the same from there, and asks for a rebuild exactly when the shop is hot and `hotMillis`
      have passed in between. */
  lemma ColdQuery(c: Config, m: Memory, id: Id, loaded: Millis, now: Millis)
    requires id !in m.local && id !in m.remote && c.hotMillis > 0 && loaded < NEVER && now < NEVER
    ensures var entry, m1 := AloneEntry(c, m, id, loaded), AloneMemory(c, m, id, loaded);
      && AnswerOf(Found(entry)) == (if id in m.rows then Shop(m.rows[id]) else Missing)
      && m1 == Memory(
           m.rows,
           m.remote[id := if id !in m.rows then Empty else if id in c.hot then Wrapped(m.rows[id], loaded + c.hotMillis) else Plain(m.rows[id])],
           if id in m.rows then m.local[id := entry] else m.local,
           m.rebuilding)
      && AnswerOf(Found(AloneEntry(c, m1, id, now))) == AnswerOf(Found(entry))
      && AloneMemory(c, m1, id, now) ==
           m1.(rebuilding := if id in m.rows && id in c.hot && now >= loaded + c.hotMillis then m.rebuilding + {id} else m.rebuilding)
  {
  }

  /** A query of a shop that some level has answers what the upper one of them says and changes neither MySQL nor Redis.
      From Redis a shop is copied to L1; one stored in the older format is rebuilt at once if it is hot now. */
  lemma WarmQuery(c: Config, m: Memory, id: Id, now: Millis)
    requires (id in m.local || id in m.remote) && 0 <= now < NEVER
    ensures var answer, m1 := AnswerOf(Found(AloneEntry(c, m, id, now))), AloneMemory(c, m, id, now);
      && m1.rows == m.rows && m1.remote == m.remote && SameOff(m.local, m1.local, id)
      && (id in m.local ==> m1.local == m.local && answer == if m.local[id].data.Some? then Shop(m.local[id].data.value) else Missing)
      && (id !in m.local ==>
            if m.remote[id].Empty? then answer == Missing && m1 == m
            else answer == Shop(m.remote[id].shop) && id in m1.local && m1.local[id].data == Some(m.remote[id].shop))
      && (id !in m.local && m.remote[id].Plain? ==> m1.rebuilding == if id in c.hot then m.rebuilding + {id} else m.rebuilding)
      && (id !in m.local && m.remote[id].Wrapped? ==>
            m1.local[id].expire == m.remote[id].expire
            && m1.rebuilding == if m.remote[id].expire <= now then m.rebuilding + {id} else m.rebuilding)
  {
  }

  ghost predicate AloneIn(threads: map<Thread, Pc>, me: Thread, id: Id) {
    forall u :: u in threads && u != me ==>
      !(Stripe(threads[u].id) == Stripe(id) && (Writes(threads[u]) || InQueue(threads[u])))
      && !(Locks(threads[u]) && threads[u].id == id)
  }

  datatype Asked = Asked(thread: Thread, id: Id, floor: Version)

  class ShopCacheService {
    const config: Config
    var rows: map<Id, Version>
    var remote: map<Id, Stored>
    var local: map<Id, Entry>
    var rebuilding: set<Id>
    var threads: map<Thread, Pc>
    var tickets: nat
    var completed: map<Id, Version>
    var tape: seq<Interlude>
    ghost const start: State
    ghost var trace: seq<Step>
    ghost var asked: Option<Asked>

    constructor (config: Config, rows: map<Id, Version>, tape: seq<Interlude>)
      ensures Valid() && this.config == config && this.rows == rows && this.tape == tape
      ensures remote == map[] && local == map[] && threads == map[] && rebuilding == {}
    {
      this.config, this.rows, this.tape := config, rows, tape;
      remote, local, rebuilding, threads, tickets, completed := map[], map[], {}, map[], 0, map[];
      start := State(config, rows, map[], map[], {}, map[], 0, map[]);
      trace, asked := [], None;
    }

    function Now(): State
      reads this
    {
      State(config, rows, remote, local, rebuilding, threads, tickets, completed)
    }

    function Mem(): Memory
      reads this
    {
      Memory(rows, remote, local, rebuilding)
    }

    /** The memory is the outcome of a schedule, and a query under way is still owed a fresh answer. */
    ghost predicate Valid()
      reads this
    {
      && Start(start) && Exec(start, trace) == Now()
      && (asked.Some? ==> Serves(Now(), asked.value.thread, asked.value.id, asked.value.floor))
    }

    /** Nobody else holds or wants the guard of the id, or holds its Redisson lock. */
    ghost predicate Alone(me: Thread, id: Id)
      reads this
    {
      AloneIn(threads, me, id)
    }

    /** The memory was changed by one step. */
    ghost method Record(s: State, step: Step)
      requires Start(start) && Exec(start, trace) == s && Now() == Apply(s, step)
      requires asked.Some? ==> Serves(s, asked.value.thread, asked.value.id, asked.value.floor)
      modifies `trace
      ensures Valid()
    {
      hide Exec, Apply, Inv, Serves, Start;
      ExecKeeps(start, trace);
      ExecOne(start, trace, step);
      if asked.Some? {
        StepServes(s, step, asked.value.thread, asked.value.id, asked.value.floor);
      }
      trace := trace + [step];
    }

    static lemma OthersLeave(s: State, step: Step, me: Thread)
      requires Mover(step) != Some(me) && me in s.threads
      ensures Get(Apply(s, step).threads, me) == Some(s.threads[me]) && Apply(s, step).config == s.config
    {
      hide Blocked, Stripe, ReaderAction, WriterAction;
    }

    /** One step of another thread. */
    method Other(me: Thread, step: Step)
      requires Valid() && me in threads
      modifies this
      ensures Valid() && asked == old(asked) && tape == old(tape)
      ensures me in threads && threads[me] == old(threads[me])
    {
      hide Exec, Apply, Inv, Serves, Start;
      if Mover(step) != Some(me) {
        ghost var s := Now();
        var s' := Apply(Now(), step);
        OthersLeave(s, step, me);
        rows, remote, local, rebuilding := s'.rows, s'.remote, s'.local, s'.rebuilding;
        threads, tickets, completed := s'.threads, s'.tickets, s'.completed;
        Record(s, step);
      }
    }

    /** Other threads run before the next access of `me`. */
    method Disturb(me: Thread, clock: Millis) returns (now: Millis, fault: Fault)
      requires Valid() && me in threads
      modifies this
      ensures Valid() && asked == old(asked)
      ensures me in threads && threads[me] == old(threads[me])
      ensures |tape| <= |old(tape)| && (old(tape) != [] ==> |tape| < |old(tape)|)
      ensures fault == if old(tape) == [] then Fine else old(tape)[0].fault
      ensures old(tape) == [] ==> Now() == old(Now()) && tape == [] && now == clock
    {
      hide Exec, Apply, Inv, Serves, Start;
      if tape == [] {
        return clock, Fine;
      }
      var d := tape[0];
      for i := 0 to |d.others|
        invariant Valid() && asked == old(asked) && tape == old(tape)
        invariant me in threads && threads[me] == old(threads[me])
      {
        Other(me, d.others[i]);
      }
      tape := tape[1..];
      return d.now, d.fault;
    }

    /** No other counter changed. */
    ghost predicate OnlyMe(before: map<Thread, Pc>, me: Thread)
      reads this
    {
      me in threads && SameOff(before, threads, me)
    }

    // ---------------------------------------------------- accesses of a reading thread

    /** readLock().lock() of a new query: it joins the fair queue. */
    method Arrive(me: Thread, id: Id)
      requires Valid() && me !in threads
      modifies this
      ensures Valid() && asked == Some(Asked(me, id, Floor(old(Now()), id)))
      ensures tape == old(tape) && Mem() == old(Mem()) && OnlyMe(old(threads), me)
      ensures Get(threads, me) == Some(Reader(id, Asking, Waiting(old(tickets))))
    {
      hide Exec, Inv, Start;
      ghost var s := Now();
      threads, tickets := threads[me := Reader(id, Asking, Waiting(tickets))], tickets + 1;
      asked := None;
      Record(s, StartQuery(me, id));
      asked := Some(Asked(me, id, Floor(s, id)));
    }

    /** The end of readLock().lock(); false when the schedule ends before the guard is free. */
    method AwaitRead(me: Thread, id: Id, role: Role, clock: Millis) returns (entered: bool)
      requires Valid() && me in threads && threads[me].Reader? && threads[me].at.Waiting? && threads[me].id == id && threads[me].role == role
      modifies this
      ensures Valid() && asked == old(asked)
      ensures entered ==> Get(threads, me) == Some(Reader(id, role, if role == Asking then Local else Lock))
      ensures old(tape) == [] ==> tape == [] && Mem() == old(Mem()) && OnlyMe(old(threads), me) && (old(Alone(me, id)) ==> entered)
    {
      hide Exec, Inv, Serves, Start, Apply;
      while Blocked(Now(), me) && tape != []
        invariant Valid() && asked == old(asked) && Get(threads, me) == old(Get(threads, me))
        invariant old(tape) == [] ==> tape == [] && Now() == old(Now())
        decreases |tape|
      {
        var _, _ := Disturb(me, clock);
      }
      entered := !Blocked(Now(), me);
      if entered {
        ghost var s := Now();
        threads := threads[me := Reader(id, role, if role == Asking then Local else Lock)];
        Entered(s, me, clock);
        Record(s, Move(me, clock, Fine));
      }
    }

    static lemma Entered(s: State, me: Thread, now: Millis)
      requires me in s.threads && s.threads[me].Reader? && s.threads[me].at.Waiting? && !Blocked(s, me)
      ensures var at := if s.threads[me].role == Asking then Local else Lock;
        Apply(s, Move(me, now, Fine)) == s.(threads := s.threads[me := s.threads[me].(at := at)])
    {
      hide Blocked;
    }

    /** local.getIfPresent */
    method ReadLocal(me: Thread, id: Id, clock: Millis) returns (entry: Option<Entry>)
      requires Valid() && Get(threads, me) == Some(Reader(id, Asking, Local))
      modifies this
      ensures Valid() && asked == old(asked)
      ensures Get(threads, me) == Some(Reader(id, Asking, if entry.Some? then Serve(entry.value) else Remote))
      ensures old(tape) == [] ==> tape == [] && Mem() == old(Mem()) && OnlyMe(old(threads), me) && entry == Get(old(local), id)
    {
      hide Exec, Inv, Serves, Start, Blocked;
      var now, fault := Disturb(me, clock);
      ghost var s := Now();
      entry := Get(local, id);
      threads := threads[me := Reader(id, Asking, if entry.Some? then Serve(entry.value) else Remote)];
      Record(s, Move(me, now, fault));
    }

    /** The decoded Redis value. */
    function Lookup(id: Id): Option<Entry>
      reads this
    {
      if id in remote then Some(Decode(config, id, remote[id])) else None
    }

    /** `readRedis` before the Redisson lock. */
    method ReadRedis(me: Thread, id: Id, clock: Millis) returns (r: Result<Option<Entry>>)
      requires Valid() && Get(threads, me) == Some(Reader(id, Asking, Remote))
      modifies this
      ensures Valid() && asked == old(asked)
      ensures Get(threads, me) == Some(Reader(id, Asking,
        if r.Err? then Leave(Raised) else if r.value.Some? then Keep(r.value.value) else Lock))
      ensures old(tape) == [] ==> tape == [] && Mem() == old(Mem()) && OnlyMe(old(threads), me) && r == Ok(old(Lookup(id)))
    {
      hide Exec, Inv, Serves, Start, Blocked, Decode;
      var now, fault := Disturb(me, clock);
      ghost var s := Now();
      r := if fault.Fine? then Ok(Lookup(id)) else Err;
      var at := if r.Err? then Leave(Raised) else if r.value.Some? then Keep(r.value.value) else Lock;
      threads := threads[me := Reader(id, Asking, at)];
      Record(s, Move(me, now, fault));
    }

    /** tryLock on the Redisson lock. */
    method TryLock(me: Thread, id: Id, role: Role, clock: Millis) returns (acquired: bool)
      requires Valid() && Get(threads, me) == Some(Reader(id, role, Lock))
      modifies this
      ensures Valid() && asked == old(asked)
      ensures Get(threads, me) == Some(Reader(id, role, if acquired then Reread else Leave(Raised)))
      ensures old(tape) == [] ==> tape == [] && Mem() == old(Mem()) && OnlyMe(old(threads), me) && (old(Alone(me, id)) ==> acquired)
    {
      hide Exec, Inv, Serves, Start, Stripe;
      var now, fault := Disturb(me, clock);
      ghost var s := Now();
      acquired := fault.Fine? && !Blocked(Now(), me);
      threads := threads[me := Reader(id, role, if acquired then Reread else Leave(Raised))];
      hide Blocked;
      Record(s, Move(me, now, if acquired then Fine else Lost));
    }

    /** `readRedis` under the Redisson lock; whether MySQL must be asked. */
    method ReadAgain(me: Thread, id: Id, role: Role, clock: Millis) returns (r: Result<Option<Entry>>)
      requires Valid() && Get(threads, me) == Some(Reader(id, role, Reread))
      modifies this
      ensures Valid() && asked == old(asked)
      ensures Get(threads, me) == Some(Reader(id, role,
        if r.Err? then Unlock(Raised)
        else if r.value.None? then Select
        else if role == Asking then Unlock(Found(r.value.value))
        else Fill(r.value.value)))
      ensures old(tape) == [] ==> tape == [] && Mem() == old(Mem()) && OnlyMe(old(threads), me)
      ensures old(tape) == [] ==>
        r == Ok(if role == Rebuild && old(Lookup(id)).Some? && old(Lookup(id)).value.expire <= clock then None else old(Lookup(id)))
    {
      hide Exec, Inv, Serves, Start, Blocked, Decode;
      var now, fault := Disturb(me, clock);
      ghost var s := Now();
      var current := Lookup(id);
      if role == Rebuild && current.Some? && current.value.expire <= now {
        current := None;
      }
      r := if fault.Fine? then Ok(current) else Err;
      var at := if r.Err? then Unlock(Raised) else if current.None? then Select
        else if role == Asking then Unlock(Found(current.value)) else Fill(current.value);
      threads := threads[me := Reader(id, role, at)];
      Record(s, Move(me, now, fault));
    }

    /** shops.selectById */
    method SelectRow(me: Thread, id: Id, role: Role, clock: Millis) returns (r: Result<Option<Version>>)
      requires Valid() && Get(threads, me) == Some(Reader(id, role, Select))
      modifies this
      ensures Valid() && asked == old(asked)
      ensures Get(threads, me) == Some(Reader(id, role, if r.Ok? then Store(r.value) else Unlock(Raised)))
      ensures old(tape) == [] ==> tape == [] && Mem() == old(Mem()) && OnlyMe(old(threads), me) && r == Ok(Get(old(rows), id))
    {
      hide Exec, Inv, Serves, Start, Blocked;
      var now, fault := Disturb(me, clock);
      ghost var s := Now();
      r := if fault.Fine? then Ok(Get(rows, id)) else Err;
      threads := threads[me := Reader(id, role, if r.Ok? then Store(r.value) else Unlock(Raised))];
      Record(s, Move(me, now, fault));
    }

    /** The Redis SET of `loadDatabase`. */
    method SetRemote(me: Thread, id: Id, role: Role, row: Option<Version>, clock: Millis) returns (r: Result<Entry>)
      requires Valid() && Get(threads, me) == Some(Reader(id, role, Store(row)))
      modifies this
      ensures Valid() && asked == old(asked)
      ensures r.Ok? ==> r.value.data == row
      ensures Get(threads, me) == Some(Reader(id, role, if r.Ok? then Fill(r.value) else Unlock(Raised)))
      ensures old(tape) == [] ==> tape == [] && OnlyMe(old(threads), me) && r == Ok(Loaded(config, id, row, clock))
      ensures old(tape) == [] ==> Mem() == old(Mem()).(remote := old(remote)[id := Encode(config, id, r.value)])
    {
      hide Exec, Inv, Serves, Start, Blocked, Encode;
      var now, fault := Disturb(me, clock);
      ghost var s := Now();
      var entry := Loaded(config, id, row, now);
      if !fault.Lost? {
        remote := remote[id := Encode(config, id, entry)];
      }
      r := if fault.Fine? then Ok(entry) else Err;
      threads := threads[me := Reader(id, role, if r.Ok? then Fill(entry) else Unlock(Raised))];
      Record(s, Move(me, now, fault));
    }

    /** local.put of an existing shop, local.invalidate of a missing one. */
    method FillLocal(me: Thread, id: Id, role: Role, entry: Entry, clock: Millis)
      requires Valid() && Get(threads, me) == Some(Reader(id, role, Fill(entry)))
      modifies this
      ensures Valid() && asked == old(asked)
      ensures Get(threads, me) == Some(Reader(id, role, Unlock(Found(entry))))
      ensures old(tape) == [] ==> tape == [] && OnlyMe(old(threads), me)
      ensures old(tape) == [] ==>
        Mem() == old(Mem()).(local := if entry.data.Some? then old(local)[id := entry] else old(local) - {id})
    {
      hide Exec, Inv, Serves, Start, Blocked;
      var now, fault := Disturb(me, clock);
      ghost var s := Now();
      local := if entry.data.Some? then local[id := entry] else local - {id};
      threads := threads[me := Reader(id, role, Unlock(Found(entry)))];
      Record(s, Move(me, now, fault));
    }

    /** lock.unlock() of the Redisson lock. */
    method UnlockRedisson(me: Thread, id: Id, role: Role, outcome: Outcome, clock: Millis)
      requires Valid() && Get(threads, me) == Some(Reader(id, role, Unlock(outcome)))
      modifies this
      ensures Valid() && asked == old(asked)
      ensures Get(threads, me) == Some(Reader(id, role, if role == Asking && outcome.Found? then Keep(outcome.entry) else Leave(outcome)))
      ensures old(tape) == [] ==> tape == [] && Mem() == old(Mem()) && OnlyMe(old(threads), me)
    {
      hide Exec, Inv, Serves, Start, Blocked;
      var now, fault := Disturb(me, clock);
      ghost var s := Now();
      threads := threads[me := Reader(id, role, if role == Asking && outcome.Found? then Keep(outcome.entry) else Leave(outcome))];
      Record(s, Move(me, now, fault));
    }

    /** local.put of what a query found. */
    method KeepLocal(me: Thread, id: Id, entry: Entry, clock: Millis)
      requires Valid() && Get(threads, me) == Some(Reader(id, Asking, Keep(entry)))
      modifies this
      ensures Valid() && asked == old(asked)
      ensures Get(threads, me) == Some(Reader(id, Asking, Serve(entry)))
      ensures old(tape) == [] ==> tape == [] && OnlyMe(old(threads), me)
      ensures old(tape) == [] ==> Mem() == old(Mem()).(local := if entry.data.Some? then old(local)[id := entry] else old(local))
    {
      hide Exec, Inv, Serves, Start, Blocked;
      var now, fault := Disturb(me, clock);
      ghost var s := Now();
      if entry.data.Some? {
        local := local[id := entry];
      }
      threads := threads[me := Reader(id, Asking, Serve(entry))];
      Record(s, Move(me, now, fault));
    }

    /** The expiry check and `rebuilding.add`. */
    method MarkExpired(me: Thread, id: Id, entry: Entry, clock: Millis) returns (added: bool)
      requires Valid() && Get(threads, me) == Some(Reader(id, Asking, Serve(entry)))
      modifies this
      ensures Valid() && asked == old(asked)
      ensures Get(threads, me) == Some(Reader(id, Asking, if added then Submit(entry) else Leave(Found(entry))))
      ensures old(tape) == [] ==> tape == [] && OnlyMe(old(threads), me)
      ensures old(tape) == [] ==> added == (entry.data.Some? && entry.expire <= clock && id !in old(rebuilding))
      ensures old(tape) == [] ==> Mem() == old(Mem()).(rebuilding := if added then old(rebuilding) + {id} else old(rebuilding))
    {
      hide Exec, Inv, Serves, Start, Blocked;
      var now, fault := Disturb(me, clock);
      ghost var s := Now();
      added := entry.data.Some? && entry.expire <= now && id !in rebuilding;
      if added {
        rebuilding := rebuilding + {id};
      }
      threads := threads[me := Reader(id, Asking, if added then Submit(entry) else Leave(Found(entry)))];
      Record(s, Move(me, now, fault));
    }

    /** A name no thread has. */
    method Unused() returns (t: Thread)
      ensures t !in threads
    {
      t := 0;
      var left := threads.Keys;
      while t in threads
        invariant forall u :: u in threads && u >= t ==> u in left
        decreases left
      {
        left, t := left - {t}, t + 1;
      }
    }

    /** executor.execute: a new task, or a full queue and the mark taken back. The mark of the id stays exactly with a
        task that was accepted, and the refusal is the fault of this call. */
    method Hand(me: Thread, id: Id, entry: Entry, clock: Millis) returns (task: Option<Thread>)
      requires Valid() && Get(threads, me) == Some(Reader(id, Asking, Submit(entry)))
      modifies this
      ensures Valid() && asked == old(asked)
      ensures Get(threads, me) == Some(Reader(id, Asking, Leave(Found(entry))))
      ensures task.Some? <==> old(tape) == [] || old(tape)[0].fault.Fine?
      ensures if task.Some? then id in rebuilding && Get(threads, task.value) == Some(Reader(id, Rebuild, Queued)) else id !in rebuilding
      ensures old(tape) == [] ==> tape == [] && Mem() == old(Mem()) && task.Some? && task.value !in old(threads)
      ensures old(tape) == [] ==>
        threads == old(threads)[me := Reader(id, Asking, Leave(Found(entry)))][task.value := Reader(id, Rebuild, Queued)]
    {
      hide Exec, Inv, Serves, Start, Blocked;
      var now, fault := Disturb(me, clock);
      ghost var s := Now();
      if fault.Fine? {
        var free := Unused();
        task := Some(free);
        StillMarked(me, id);
        threads := threads[me := Reader(id, Asking, Leave(Found(entry)))][free := Reader(id, Rebuild, Queued)];
        Record(s, Execute(me, free));
      } else {
        task := None;
        rebuilding := rebuilding - {id};
        threads := threads[me := Reader(id, Asking, Leave(Found(entry)))];
        Record(s, Move(me, now, fault));
      }
    }

    /** Whoever hands a task over holds the mark of its id. */
    lemma StillMarked(me: Thread, id: Id)
      requires Valid() && me in threads && threads[me].id == id && Marks(threads[me])
      ensures id in rebuilding
    {
      hide Exec, Serves, Start, Threads, Caches, Exclusion;
      ExecKeeps(start, trace);
    }

    /** readLock().unlock() */
    method ReadUnlock(me: Thread, id: Id, role: Role, outcome: Outcome, clock: Millis)
      requires Valid() && Get(threads, me) == Some(Reader(id, role, Leave(outcome)))
      modifies this
      ensures Valid() && asked == old(asked)
      ensures Get(threads, me) == Some(Reader(id, role, if role == Asking then Done(outcome) else Forget))
      ensures old(tape) == [] ==> tape == [] && Mem() == old(Mem()) && OnlyMe(old(threads), me)
    {
      hide Exec, Inv, Serves, Start, Blocked;
      var now, fault := Disturb(me, clock);
      ghost var s := Now();
      threads := threads[me := Reader(id, role, if role == Asking then Done(outcome) else Forget)];
      Record(s, Move(me, now, fault));
    }

    // ------------------------------------------------------------- reading

    lemma AloneStays(before: map<Thread, Pc>, me: Thread, id: Id)
      requires OnlyMe(before, me)
      ensures Alone(me, id) <==> AloneIn(before, me, id)
    {
      hide Stripe, Writes, InQueue, Locks;
      forall u | u != me
        ensures Get(threads, u) == Get(before, u)
      {
      }
      forall u | u in threads && u != me
        ensures u in before && before[u] == threads[u]
      {
        assert Get(threads, u) == Get(before, u);
      }
      forall u | u in before && u != me
        ensures u in threads && before[u] == threads[u]
      {
        assert Get(threads, u) == Get(before, u);
      }
    }

    /** ShopCacheService.loadDatabase */
    method LoadDatabase(me: Thread, id: Id, role: Role, clock: Millis) returns (o: Outcome)
      requires Valid() && Get(threads, me) == Some(Reader(id, role, Select))
      modifies this
      ensures Valid() && asked == old(asked)
      ensures Get(threads, me) == Some(Reader(id, role, Unlock(o)))
      ensures old(tape) == [] ==> tape == [] && OnlyMe(old(threads), me) && o == Found(Loaded(config, id, Get(old(rows), id), clock))
      ensures old(tape) == [] ==>
        Mem() == old(Mem()).(
          remote := old(remote)[id := Encode(config, id, o.entry)],
          local := if o.entry.data.Some? then old(local)[id := o.entry] else old(local) - {id})
    {
      hide Valid, Now, Encode, Loaded;
      var row := SelectRow(me, id, role, clock);
      if row.Err? {
        return Raised;
      }
      var entry := SetRemote(me, id, role, row.value, clock);
      if entry.Err? {
        return Raised;
      }
      FillLocal(me, id, role, entry.value, clock);
      return Found(entry.value);
    }

    /** ShopCacheService.loadCold */
    method LoadCold(me: Thread, id: Id, clock: Millis) returns (o: Outcome)
      requires Valid() && Get(threads, me) == Some(Reader(id, Asking, Lock))
      modifies this
      ensures Valid() && asked == old(asked)
      ensures Get(threads, me) == Some(Reader(id, Asking, if o.Found? then Keep(o.entry) else Leave(Raised)))
      ensures old(tape) == [] ==> tape == [] && OnlyMe(old(threads), me)
      ensures old(tape) == [] && old(Alone(me, id)) && id !in old(remote) ==>
        && o == Found(Loaded(config, id, Get(old(rows), id), clock))
        && Mem() == old(Mem()).(
             remote := old(remote)[id := Encode(config, id, o.entry)],
             local := if o.entry.data.Some? then old(local)[id := o.entry] else old(local) - {id})
      ensures old(tape) == [] && old(Alone(me, id)) && id in old(remote) ==>
        o == Found(Decode(config, id, old(remote)[id])) && Mem() == old(Mem())
    {
      hide Valid, Now, Encode, Loaded, AloneIn, Decode;
      var acquired := TryLock(me, id, Asking, clock);
      if !acquired {
        return Raised;
      }
      var current := ReadAgain(me, id, Asking, clock);
      if current.Err? {
        o := Raised;
      } else if current.value.Some? {
        o := Found(current.value.value);
      } else {
        o := LoadDatabase(me, id, Asking, clock);
      }
      UnlockRedisson(me, id, Asking, o, clock);
    }

    /** What a query holds when it reaches the expiry check, or that it failed. */
    method Fetch(me: Thread, id: Id, clock: Millis) returns (o: Outcome)
      requires Valid() && Get(threads, me) == Some(Reader(id, Asking, Local))
      modifies this
      ensures Valid() && asked == old(asked)
      ensures Get(threads, me) == Some(Reader(id, Asking, if o.Found? then Serve(o.entry) else Leave(Raised)))
      ensures old(tape) == [] ==> tape == [] && OnlyMe(old(threads), me)
      ensures old(tape) == [] && old(Alone(me, id)) ==>
        && o == Found(AloneEntry(config, old(Mem()), id, clock))
        && Mem() == AloneMemory(config, old(Mem()), id, clock).(rebuilding := old(rebuilding))
    {
      hide Valid, Now, Encode, AloneIn, Decode;
      var hit := ReadLocal(me, id, clock);
      if hit.Some? {
        return Found(hit.value);
      }
      if old(tape) == [] {
        AloneStays(old(threads), me, id);
      }
      var found := ReadRedis(me, id, clock);
      if found.Err? {
        return Raised;
      }
      if old(tape) == [] {
        AloneStays(old(threads), me, id);
      }
      if found.value.Some? {
        o := Found(found.value.value);
      } else {
        o := LoadCold(me, id, clock);
        if o.Raised? {
          return;
        }
      }
      KeepLocal(me, id, o.entry, clock);
      assert id !in old(local) ==> old(local) - {id} == old(local);
    }

    /** ShopCacheService.query. An answer is never older than the last update completed before the call and never newer
        than the row, a shop is reported missing exactly when there is none, and all locks are given back. Alone, the
        query serves the entry of the first level that has one and fills the levels above it. */
    method Query(me: Thread, id: Id, clock: Millis) returns (r: Answer)
      requires Valid() && me !in threads
      modifies this
      ensures Valid()
      ensures r.Shop? ==> id in rows && Floor(old(Now()), id) <= r.version <= rows[id]
      ensures r.Missing? ==> id !in rows
      ensures !r.Stuck? ==> exists o :: Get(threads, me) == Some(Reader(id, Asking, Done(o))) && r == AnswerOf(o)
      ensures old(tape) == [] && old(Alone(me, id)) ==>
        && r == AnswerOf(Found(AloneEntry(config, old(Mem()), id, clock)))
        && Mem() == AloneMemory(config, old(Mem()), id, clock)
    {
      hide Valid, Now, Encode, AloneIn, Decode, Floor;
      Arrive(me, id);
      if old(tape) == [] {
        AloneStays(old(threads), me, id);
      }
      var entered := AwaitRead(me, id, Asking, clock);
      if !entered {
        return Stuck;
      }
      if old(tape) == [] {
        AloneStays(old(threads), me, id);
      }
      var o := Fetch(me, id, clock);
      if o.Found? {
        var added := MarkExpired(me, id, o.entry, clock);
        if added {
          var _ := Hand(me, id, o.entry, clock);
        }
      }
      assert id in old(rebuilding) ==> old(rebuilding) + {id} == old(rebuilding);
      ReadUnlock(me, id, Asking, o, clock);
      Answered(me, id, Floor(old(Now()), id), o);
      return AnswerOf(o);
    }

    lemma Answered(me: Thread, id: Id, floor: Version, o: Outcome)
      requires Valid() && asked == Some(Asked(me, id, floor)) && Get(threads, me) == Some(Reader(id, Asking, Done(o)))
      ensures AnswerOf(o).Shop? ==> id in rows && floor <= AnswerOf(o).version <= rows[id]
      ensures AnswerOf(o).Missing? ==> id !in rows
    {
      hide Exec, Start, Floor;
    }

    // ---------------------------------------------------------- rebuilding

    /** An executor thread takes the task and queues at the guard. */
    method StartTask(me: Thread, id: Id, clock: Millis)
      requires Valid() && Get(threads, me) == Some(Reader(id, Rebuild, Queued))
      modifies this
      ensures Valid() && asked == old(asked)
      ensures me in threads && threads[me].Reader? && threads[me].at.Waiting? && threads[me].id == id && threads[me].role == Rebuild
      ensures old(tape) == [] ==> tape == [] && Mem() == old(Mem()) && OnlyMe(old(threads), me)
    {
      hide Exec, Inv, Serves, Start, Blocked;
      var now, fault := Disturb(me, clock);
      ghost var s := Now();
      threads, tickets := threads[me := Reader(id, Rebuild, Waiting(tickets))], tickets + 1;
      Record(s, Move(me, now, fault));
    }

    /** rebuilding.remove, the last thing a task does. */
    method ForgetMark(me: Thread, id: Id, clock: Millis)
      requires Valid() && Get(threads, me) == Some(Reader(id, Rebuild, Forget))
      modifies this
      ensures Valid() && asked == old(asked)
      ensures me !in threads && id !in rebuilding
      ensures old(tape) == [] ==> tape == [] && Mem() == old(Mem()).(rebuilding := old(rebuilding) - {id})
    {
      hide Exec, Inv, Serves, Start, Blocked;
      var now, fault := Disturb(me, clock);
      ghost var s := Now();
      threads, rebuilding := threads - {me}, rebuilding - {id};
      Record(s, Move(me, now, fault));
    }

    /** What a task that runs alone leaves: an unexpired Redis value is copied to L1, anything else is loaded again. */
    static function TaskMemory(c: Config, m: Memory, id: Id, now: Millis): Memory {
      var kept := id in m.remote && Decode(c, id, m.remote[id]).expire > now;
      var entry := if kept then Decode(c, id, m.remote[id]) else Loaded(c, id, Get(m.rows, id), now);
      m.(remote := if kept then m.remote else m.remote[id := Encode(c, id, entry)],
         local := if entry.data.Some? then m.local[id := entry] else m.local - {id},
         rebuilding := m.rebuilding - {id})
    }

    /** A task that runs alone on a value that is due, or on none, loads the row again: Redis then has it, and until
        `hotMillis` later no query asks for another rebuild. A value that somebody else renewed meanwhile is copied to L1. */
    static lemma TaskRenews(c: Config, m: Memory, id: Id, now: Millis, later: Millis)
      requires id in c.hot && c.hotMillis > 0 && 0 <= now < NEVER && now <= later < NEVER
      ensures var m1 := TaskMemory(c, m, id, now);
        && m1.rows == m.rows && SameOff(m.remote, m1.remote, id) && SameOff(m.local, m1.local, id) && m1.rebuilding == m.rebuilding - {id}
        && (id !in m.remote || m.remote[id].Plain? || (m.remote[id].Wrapped? && m.remote[id].expire <= now) ==>
              && Get(m1.remote, id) == Some(if id in m.rows then Wrapped(m.rows[id], now + c.hotMillis) else Empty)
              && AnswerOf(Found(AloneEntry(c, m1, id, later))) == (if id in m.rows then Shop(m.rows[id]) else Missing)
              && (id in AloneMemory(c, m1, id, later).rebuilding <==> id in m.rows && later >= now + c.hotMillis))
        && (id in m.remote && m.remote[id].Wrapped? && m.remote[id].expire > now ==>
              m1.remote == m.remote && id in m1.local && m1.local[id].data == Some(m.remote[id].shop))
        && (id in m.remote && m.remote[id].Empty? ==> m1.remote == m.remote && id !in m1.local)
    {
    }

    /** The task submitted by `rebuildLater`. It ends with all locks and the mark of its id given back. */
    method RunTask(me: Thread, id: Id, clock: Millis) returns (ended: bool)
      requires Valid() && Get(threads, me) == Some(Reader(id, Rebuild, Queued))
      modifies this
      ensures Valid() && asked == old(asked)
      ensures ended ==> me !in threads && id !in rebuilding
      ensures old(tape) == [] && old(Alone(me, id)) ==> ended && Mem() == TaskMemory(config, old(Mem()), id, clock)
    {
      hide Valid, Now, Encode, Loaded, AloneIn, Decode;
      StartTask(me, id, clock);
      if old(tape) == [] {
        AloneStays(old(threads), me, id);
      }
      ended := AwaitRead(me, id, Rebuild, clock);
      if !ended {
        return;
      }
      if old(tape) == [] {
        AloneStays(old(threads), me, id);
      }
      var acquired := TryLock(me, id, Rebuild, clock);
      var o := Raised;
      if acquired {
        var current := ReadAgain(me, id, Rebuild, clock);
        if current.Ok? && current.value.Some? {
          FillLocal(me, id, Rebuild, current.value.value, clock);
          o := Found(current.value.value);
        } else if current.Ok? {
          o := LoadDatabase(me, id, Rebuild, clock);
        }
        UnlockRedisson(me, id, Rebuild, o, clock);
      }
      ReadUnlock(me, id, Rebuild, o, clock);
      ForgetMark(me, id, clock);
    }

    // ------------------------------------------------------------- updating

    /** The row update commits. */
    method CommitRow(me: Thread, id: Id) returns (version: Version)
      requires Valid() && me !in threads && id in rows
      modifies this
      ensures Valid() && asked == old(asked) && tape == old(tape)
      ensures version == old(rows)[id] + 1 && Mem() == old(Mem()).(rows := old(rows)[id := version])
      ensures Get(threads, me) == Some(Writer(id, version, Committed)) && OnlyMe(old(threads), me)
    {
      hide Exec, Inv, Serves, Start, Blocked;
      ghost var s := Now();
      version := rows[id] + 1;
      rows, threads := rows[id := version], threads[me := Writer(id, version, Committed)];
      Record(s, CommitUpdate(me, id));
    }

    /** writeLock().lock(); false when the schedule ends before the guard is free. */
    method AwaitWrite(me: Thread, id: Id, version: Version, clock: Millis) returns (entered: bool)
      requires Valid() && Get(threads, me) == Some(Writer(id, version, Committed))
      modifies this
      ensures Valid() && asked == old(asked)
      ensures entered ==> Get(threads, me) == Some(Writer(id, version, Delete))
    {
      hide Exec, Inv, Serves, Start, Apply;
      var now, fault := Disturb(me, clock);
      ghost var s := Now();
      WriterMoves(s, me, now, fault);
      threads, tickets := threads[me := Writer(id, version, Queueing(tickets))], tickets + 1;
      Record(s, Move(me, now, fault));
      while Blocked(Now(), me) && tape != []
        invariant Valid() && asked == old(asked) && me in threads
        invariant threads[me].Writer? && threads[me].stage.Queueing? && threads[me].id == id && threads[me].version == version
        decreases |tape|
      {
        now, fault := Disturb(me, clock);
      }
      entered := !Blocked(Now(), me);
      if entered {
        s := Now();
        WriterMoves(s, me, now, fault);
        threads := threads[me := Writer(id, version, Delete)];
        Record(s, Move(me, now, fault));
      }
    }

    static lemma WriterMoves(s: State, me: Thread, now: Millis, fault: Fault)
      requires me in s.threads && s.threads[me].Writer? && !(s.threads[me].stage.Queueing? && Blocked(s, me))
      ensures Apply(s, Move(me, now, fault)) == WriterMove(s, me, fault)
    {
      hide Blocked;
    }

    /** redis.delete; true when it is known to have happened. */
    method DeleteRemote(me: Thread, id: Id, version: Version, clock: Millis) returns (deleted: bool)
      requires Valid() && Get(threads, me) == Some(Writer(id, version, Delete))
      modifies this
      ensures Valid() && asked == old(asked)
      ensures Get(threads, me) == Some(Writer(id, version, Drop(deleted)))
      ensures old(tape) == [] ==> tape == [] && deleted
    {
      hide Exec, Inv, Serves, Start, Blocked;
      var now, fault := Disturb(me, clock);
      ghost var s := Now();
      deleted := fault.Fine?;
      if !fault.Lost? {
        remote := remote - {id};
      }
      threads := threads[me := Writer(id, version, Drop(deleted))];
      Record(s, Move(me, now, fault));
    }

    /** local.invalidate */
    method DropLocal(me: Thread, id: Id, version: Version, deleted: bool, clock: Millis)
      requires Valid() && Get(threads, me) == Some(Writer(id, version, Drop(deleted)))
      modifies this
      ensures Valid() && asked == old(asked)
      ensures Get(threads, me) == Some(Writer(id, version, Update.Release(deleted)))
      ensures old(tape) == [] ==> tape == []
    {
      hide Exec, Inv, Serves, Start, Blocked;
      var now, fault := Disturb(me, clock);
      ghost var s := Now();
      local := local - {id};
      threads := threads[me := Writer(id, version, Update.Release(deleted))];
      Record(s, Move(me, now, fault));
    }

    /** writeLock().unlock(): from here on every answer is at least as new. */
    method WriteUnlock(me: Thread, id: Id, version: Version, deleted: bool, clock: Millis)
      requires Valid() && Get(threads, me) == Some(Writer(id, version, Update.Release(deleted)))
      modifies this
      ensures Valid() && asked == old(asked)
      ensures me !in threads && id in rows && version <= rows[id] && id !in local
      ensures deleted ==> id !in remote && version <= Floor(Now(), id)
    {
      hide Exec, Serves, Start, Blocked, Caches, Exclusion, Marked;
      var now, fault := Disturb(me, clock);
      ghost var s := Now();
      ExecKeeps(start, trace);
      assert PcOk(s, threads[me]);
      if deleted {
        completed := completed[id := Max(Floor(Now(), id), version)];
      }
      threads := threads - {me};
      hide Inv;
      Record(s, Move(me, now, fault));
    }

    /** ShopCacheService.invalidateAfterCommit. When it returns, L1 has no value of the shop; if the delete succeeded
        neither has Redis, and no query will be answered with anything older than this update. */
    method InvalidateAfterCommit(me: Thread, id: Id, version: Version, clock: Millis) returns (ended: bool, deleted: bool)
      requires Valid() && Get(threads, me) == Some(Writer(id, version, Committed))
      modifies this
      ensures Valid() && asked == old(asked)
      ensures ended ==> me !in threads && id in rows && version <= rows[id] && id !in local
      ensures ended && deleted ==> id !in remote && version <= Floor(Now(), id)
    {
      hide Valid, Floor;
      deleted := false;
      ended := AwaitWrite(me, id, version, clock);
      if ended {
        deleted := DeleteRemote(me, id, version, clock);
        DropLocal(me, id, version, deleted, clock);
        WriteUnlock(me, id, version, deleted, clock);
      }
    }
  }

  /** ShopServiceImpl */
  class ShopService {
    const cache: ShopCacheService

    constructor (cache: ShopCacheService)
      ensures this.cache == cache
    {
      this.cache := cache;
    }

    /** ShopServiceImpl.update: the row first, the caches after the commit. False for a shop that does not exist. */
    method Update(me: Thread, id: Id, clock: Millis) returns (updated: bool, ended: bool, deleted: bool)
      requires cache.Valid() && me !in cache.threads
      modifies cache
      ensures cache.Valid()
      ensures updated == (id in old(cache.rows))
      ensures !updated ==> cache.Now() == old(cache.Now())
      ensures updated && ended ==> id in cache.rows && old(cache.rows)[id] < cache.rows[id] && id !in cache.local
      ensures updated && ended && deleted ==> id !in cache.remote && old(cache.rows)[id] < Floor(cache.Now(), id)
    {
      if id !in cache.rows {
        return false, true, true;
      }
      var version := cache.CommitRow(me, id);
      ended, deleted := cache.InvalidateAfterCommit(me, id, version, clock);
      updated := true;
    }
  }
}
