/** The methods that change and read likes and follows, over the table and the snapshot updated in place. Other threads
    run while the lock is free; while it is held only the expiry of the snapshot can interfere. */
module SocialService {
  import opened Common
  import opened Social

  datatype Answer = Done | Refused | Busy | Error

  /** How a transaction ended: a missing blog is an answer of setLike, everything else that fails is an exception. */
  datatype Outcome = Changed(time: Option<Millis>) | Missing | Failure

  /** The snapshot after an undisturbed change. */
  function Projected(key: Key, rows: map<UserId, Millis>, user: UserId, time: Option<Millis>): Key {
    if Change(key, user, time).Some? then Change(key, user, time).value else Replace(rows)
  }

  /** The table of the same blog or user: no step changes the kind, nor adds or removes the entity. */
  predicate SameEntity(a: Table, b: Table) {
    a.kind == b.kind && a.exist == b.exist
  }

  class SocialInteractionService {
    var table: Table
    var key: Key
    var holder: Option<Work>
    var tape: seq<Disturbance<Step>>
    ghost var tainted: bool
    ghost const start: State
    ghost var trace: seq<Step>

    constructor (table: Table, key: Key, tape: seq<Disturbance<Step>>)
      requires Start(State(table, key, None, false))
      ensures Valid() && this.table == table && this.key == key && this.tape == tape && holder.None?
    {
      this.table, this.key, this.tape, holder, tainted := table, key, tape, None, false;
      start, trace := State(table, key, None, false), [];
    }

    ghost function Now(): State
      reads this
    {
      State(table, key, holder, tainted)
    }

    ghost predicate Valid()
      reads this
    {
      Start(start) && Exec(start, trace) == Now()
    }

    /** The stores were changed by one step. */
    ghost method Record(s: State, step: Step)
      requires Start(start) && Exec(start, trace) == s && Now() == Apply(s, step)
      modifies `trace
      ensures Valid()
    {
      hide Apply, Start;
      assert (trace + [step])[..|trace|] == trace;
      trace := trace + [step];
    }

    /** One step of another thread. */
    method Other(step: Step)
      requires Valid()
      modifies this
      ensures Valid() && tape == old(tape) && SameEntity(table, old(table))
      ensures step.Expire? ==> holder == old(holder) && table == old(table)
    {
      hide Start, Exec;
      ghost var s := Now();
      var s' := Apply(State(table, key, holder, false), step);
      table, key, holder, tainted := s'.table, s'.key, s'.holder, Apply(s, step).tainted;
      TaintApart(s, step);
      Record(s, step);
    }

    /** The taint is bookkeeping: it decides nothing. */
    static lemma TaintApart(s: State, step: Step)
      ensures var a, b := Apply(s, step), Apply(s.(tainted := false), step);
        a.table == b.table && a.key == b.key && a.holder == b.holder && SameEntity(a.table, s.table)
    {
    }

    /** While the lock is held the others can only let the snapshot expire. */
    method Disturb() returns (fault: Fault)
      requires Valid()
      modifies this
      ensures Valid() && SameEntity(table, old(table))
      ensures old(holder).Some? ==> holder == old(holder) && table == old(table)
      ensures fault == FirstFault(old(tape)) && tape == Rest(old(tape))
      ensures old(tape) == [] ==> key == old(key) && holder == old(holder) && table == old(table)
    {
      hide Start, Exec;
      if tape == [] {
        return Fine;
      }
      var others, held := tape[0].others, holder.Some?;
      for i := 0 to |others|
        invariant Valid() && tape == old(tape) && SameEntity(table, old(table))
        invariant old(holder).Some? ==> holder == old(holder) && table == old(table)
      {
        if !held || others[i].Expire? {
          Other(others[i]);
        }
      }
      fault, tape := tape[0].fault, tape[1..];
    }

    /** lock.tryLock */
    method Acquire(step: Step) returns (acquired: bool)
      requires Valid() && (step.StartChange? || step.StartEnsure?)
      requires step.StartChange? ==> step.request.user > 0 && step.request.now >= 0 && (table.kind.Follows? ==> step.request.desired.Some?)
      modifies this
      ensures Valid() && SameEntity(table, old(table))
      ensures acquired ==> holder == Some(if step.StartChange? then Commits(step.request) else Checks)
      ensures old(tape) == [] ==> tape == [] && table == old(table) && key == old(key) && acquired == old(holder).None?
    {
      hide Start, Exec;
      var fault := Disturb();
      acquired := fault.Fine? && holder.None?;
      if acquired {
        ghost var s := Now();
        holder := Some(if step.StartChange? then Commits(step.request) else Checks);
        Record(s, step);
      }
    }

    /** lock.unlock */
    method Release()
      requires Valid() && holder == Some(Unlocks)
      modifies this
      ensures Valid() && holder.None? && table == old(table) && key == old(key) && tape == old(tape) && tainted == old(tainted)
    {
      hide Start, Exec;
      ghost var s := Now();
      holder := None;
      Record(s, Proceed(Fine));
    }

    /** The statements of setLike and setFollow, before the commit. */
    method SetRow(q: Request) returns (done: bool, answer: Option<Millis>)
      requires table.kind.Follows? ==> q.desired.Some?
      modifies `table
      ensures done == Transact(old(table), q).Ok?
      ensures done ==> Transact(old(table), q).value == Commit(table, answer)
    {
      if !table.exist {
        return false, None;
      }
      var user := q.user;
      if table.kind.Follows? {
        if q.desired.value {
          table := table.(rows := table.rows[user := 0]);
          return true, Some(0);
        }
        table := table.(rows := table.rows - {user});
        return true, None;
      }
      var liked := user in table.rows;
      var active := if q.desired.Some? then q.desired.value else !liked;
      var time := if liked then table.rows[user] else q.now;
      if active && !liked {
        table := table.(rows := table.rows[user := time]);
        table := table.(count := table.count + 1);
      } else if !active && liked {
        table := table.(rows := table.rows - {user});
        if table.count <= 0 {
          return false, None;
        }
        table := table.(count := table.count - 1);
      }
      return true, if active then Some(time) else None;
    }

    /** SocialTransactionService.setLike and setFollow: a failed statement throws and rolls back, a missing blog is
        answered with null, a missing user throws. */
    method RunTransaction(q: Request) returns (r: Outcome)
      requires Valid() && holder == Some(Commits(q)) && (table.kind.Follows? ==> q.desired.Some?)
      modifies this
      ensures Valid() && SameEntity(table, old(table))
      ensures holder == Some(if r.Changed? then Projects(q.user, r.time) else Unlocks)
      ensures var t, fault := Transact(old(table), q), FirstFault(old(tape));
        && table == (if t.Ok? && !fault.Lost? then t.value.table else old(table))
        && r == (if !fault.Fine? then Failure
                 else if t.Ok? then Changed(t.value.time)
                 else if table.kind.Likes? && !table.exist then Missing else Failure)
      ensures old(tape) == [] ==> tape == [] && key == old(key)
    {
      hide Start, Exec, Transact;
      var fault := Disturb();
      ghost var s := Now();
      var saved := table;
      KindStays(table, q);
      var done, answer := SetRow(q);
      var missing := saved.kind.Likes? && !saved.exist;
      r := if !fault.Fine? then Failure else if done then Changed(answer) else if missing then Missing else Failure;
      if !done || fault.Lost? {
        table := saved;
      }
      holder := Some(if r.Changed? then Projects(q.user, answer) else Unlocks);
      tainted := tainted || (fault.ReplyLost? && table != saved);
      Record(s, Proceed(fault));
    }

    static lemma KindStays(t: Table, q: Request)
      ensures Transact(t, q).Ok? ==> t.exist && SameEntity(Transact(t, q).value.table, t)
    {
    }

    /** The change script; false when it answers -1. */
    method RunChange(user: UserId, time: Option<Millis>) returns (r: Result<bool>)
      requires Valid() && holder == Some(Projects(user, time))
      modifies this
      ensures Valid() && table == old(table)
      ensures holder == Some(if r.Err? then Cleans else if r.value then Unlocks else Loads(true))
      ensures r.Err? <==> !FirstFault(old(tape)).Fine?
      ensures tape == Rest(old(tape))
      ensures r == Ok(true) && user > 0 ==> Ready(key)
      ensures old(tape) == [] ==> tape == [] && r == Ok(Change(old(key), user, time).Some?)
      ensures old(tape) == [] ==> key == if r == Ok(true) then Change(old(key), user, time).value else old(key)
    {
      hide Start, Exec;
      var fault := Disturb();
      ghost var s := Now();
      var current := key.Snapshot? && key.expiring && SENTINEL in key.members;
      if current && !fault.Lost? {
        key := key.(members := if time.Some? then key.members[user := time.value] else key.members - {user});
      }
      r := if fault.Fine? then Ok(current) else Err;
      holder := Some(if r.Err? then Cleans else if r.value then Unlocks else Loads(true));
      Record(s, Proceed(fault));
    }

    /** SocialProjectionService.rebuild; false when it throws. */
    method Rebuild(change: bool) returns (done: bool)
      requires Valid() && holder == Some(Loads(change))
      modifies this
      ensures Valid() && table == old(table)
      ensures holder == Some(if done then Unlocks else Failed(change))
      ensures done ==> key == Replace(table.rows)
      ensures old(tape) == [] ==> tape == [] && done
    {
      hide Start, Exec;
      var fault := Disturb();
      ghost var s := Now();
      var rows := table.rows;
      holder := Some(if fault.Fine? then Stores(rows, change) else Failed(change));
      Record(s, Proceed(fault));
      if !fault.Fine? {
        return false;
      }
      fault := Disturb();
      s := Now();
      if !fault.Lost? {
        key := Replace(rows);
      }
      tainted := tainted && fault.Lost?;
      holder := Some(if fault.Fine? then Unlocks else Failed(change));
      Record(s, Proceed(fault));
      return fault.Fine?;
    }

    /** The clean-up of a failed change. Unless the request itself is lost, there is no snapshot afterwards. */
    method Clean()
      requires Valid() && holder == Some(Cleans)
      modifies this
      ensures Valid() && table == old(table) && holder == Some(Unlocks)
      ensures if FirstFault(old(tape)).Lost? then tainted else key == Absent && !tainted
    {
      hide Start, Exec;
      var fault := Disturb();
      ghost var s := Now();
      if !fault.Lost? {
        key := Absent;
      }
      holder, tainted := Some(Unlocks), fault.Lost?;
      Record(s, Proceed(fault));
    }

    /** SocialProjectionService.change: whatever fails after the commit is answered by dropping the snapshot, so that
        afterwards it is ready and exact, or gone, or known to be doubtful because the clean-up was lost too. */
    method ChangeSnapshot(user: UserId, time: Option<Millis>) returns (done: bool)
      requires Valid() && holder == Some(Projects(user, time))
      modifies this
      ensures Valid() && table == old(table) && holder == Some(Unlocks)
      ensures done ==> Ready(key)
      ensures !done ==> tainted || key == Absent
      ensures !tainted ==> !Ready(key) || Exact(key, table.rows)
      ensures !FirstFault(old(tape)).Fine? ==> !done && (tainted <==> FirstFault(Rest(old(tape))).Lost?)
      ensures old(tape) == [] ==> done && tape == [] && key == Projected(old(key), table.rows, user, time)
    {
      hide Valid, Change, Replace, Ready, Exact;
      ProjectsUser(user, time);
      var r := RunChange(user, time);
      done := r == Ok(true);
      if r == Ok(false) {
        done := Rebuild(true);
        ReplaceReady(table.rows);
      }
      if !done {
        Clean();
      }
      SettledAtUnlock();
    }

    lemma ProjectsUser(user: UserId, time: Option<Millis>)
      requires Valid() && holder == Some(Projects(user, time))
      ensures user > 0
    {
      hide Start, Exec;
      ExecKeeps(start, trace);
    }

    static lemma ReplaceReady(rows: map<UserId, Millis>)
      ensures Ready(Replace(rows))
    {
    }

    lemma SettledAtUnlock()
      requires Valid() && holder == Some(Unlocks)
      ensures !tainted ==> !Ready(key) || Exact(key, table.rows)
    {
      hide Start, Exec;
      ExecKeeps(start, trace);
    }

    lemma Settled()
      requires Valid() && holder.None?
      ensures !tainted ==> !Ready(key) || Exact(key, table.rows)
    {
      hide Start, Exec;
      ProjectionAgrees(start, trace);
    }

    /** SocialInteractionService.like and follow from `locked` on. Done means that the relation is as asked for; unless a
        crash or failed clean-up left the snapshot behind, it is then not ready or exact. */
    method Interact(q: Request) returns (r: Answer)
      requires Valid() && q.user > 0 && q.now >= 0 && (table.kind.Follows? ==> q.desired.Some?)
      modifies this
      ensures Valid() && SameEntity(table, old(table))
      ensures r.Refused? ==> table.kind.Likes? && !table.exist
      ensures r.Done? ==> table.exist
      ensures r.Done? && q.desired.Some? ==> (q.user in table.rows <==> q.desired.value)
      ensures r.Done? && !tainted ==> !Ready(key) || Exact(key, table.rows)
      ensures old(tape) == [] && old(holder).None? ==>
        var t := Transact(old(table), q);
        && r == (if t.Ok? then Done else if table.kind.Likes? && !table.exist then Refused else Error)
        && table == (if t.Ok? then t.value.table else old(table))
        && key == if t.Ok? then Projected(old(key), table.rows, q.user, t.value.time) else old(key)
    {
      hide Valid, Change, Replace, Transact, Ready, Exact;
      var acquired := Acquire(StartChange(q));
      if !acquired {
        return Busy;
      }
      ghost var before := table;
      var committed := RunTransaction(q);
      if committed.Changed? {
        TransactMeaning(before, q);
        KindStays(before, q);
        var _ := ChangeSnapshot(q.user, committed.time);
      }
      Release();
      Settled();
      return if committed.Changed? then Done else if committed.Missing? then Refused else Error;
    }

    /** SocialInteractionService.like; refused without a proper id or without such a blog. */
    method Like(blog: Option<int>, user: UserId, desired: Option<bool>, now: Millis) returns (r: Answer)
      requires Valid() && table.kind.Likes? && user > 0 && now >= 0
      modifies this
      ensures Valid()
      ensures SameEntity(table, old(table))
      ensures r.Done? ==> blog.Some? && blog.value > 0 && table.exist && (desired.Some? ==> (user in table.rows <==> desired.value))
      ensures r.Refused? ==> blog.None? || blog.value <= 0 || !table.exist
      ensures (blog.None? || blog.value <= 0) ==> r.Refused? && table == old(table)
      ensures old(tape) == [] && old(holder).None? && !table.exist ==> r.Refused? && table == old(table) && key == old(key)
      ensures old(tape) == [] && old(holder).None? && r.Done? ==>
        var rows, liked := old(table).rows, user in old(table).rows;
        && SameOff(rows, table.rows, user) && Surplus(table) == Surplus(old(table))
        && (user in table.rows <==> if desired.Some? then desired.value else !liked)
        && (user in table.rows ==> table.rows[user] == if liked then rows[user] else now)
    {
      hide Valid, Transact, Change, Replace;
      TransactMeaning(table, Request(user, desired, now));
      if blog.None? || blog.value <= 0 {
        return Refused;
      }
      r := Interact(Request(user, desired, now));
    }

    /** SocialInteractionService.follow; the key belongs to the caller. */
    method Follow(caller: UserId, target: Option<UserId>, active: Option<bool>, targetExists: bool) returns (r: Answer)
      requires Valid() && table.kind.Follows? && caller > 0
      modifies this
      ensures Valid()
      ensures r.Done? ==> target.Some? && active.Some? && table.exist && (target.value in table.rows <==> active.value)
      ensures r.Refused? <==>
        target.None? || target.value <= 0 || active.None? || target.value == caller || (active.value && !targetExists)
    {
      hide Valid;
      if target.None? || target.value <= 0 || active.None? {
        return Refused;
      }
      if caller == target.value {
        return Refused;
      }
      if active.value && !targetExists {
        return Refused;
      }
      r := Interact(Request(target.value, active, 0));
    }

    /** SocialInteractionService.ensure. A normal return means that the snapshot is ready. Undisturbed it fails exactly
        on a key of the wrong type, which it leaves there. */
    method Ensure() returns (r: Answer)
      requires Valid()
      modifies this
      ensures Valid()
      ensures r.Done? ==> Ready(key)
      ensures old(tape) == [] && old(holder).None? ==> r == (if old(key).Other? then Error else Done) && table == old(table)
      ensures old(tape) == [] && old(holder).None? ==>
        key == if old(key).Other? || Ready(old(key)) then old(key) else Replace(table.rows)
    {
      hide Start, Exec;
      var fault := Disturb();
      if !fault.Fine? || key.Other? {
        return Error;
      }
      if Ready(key) {
        return Done;
      }
      var acquired := Acquire(StartEnsure);
      if !acquired {
        return Busy;
      }
      fault := Disturb();
      ghost var s := Now();
      var failed, ready := !fault.Fine? || key.Other?, Ready(key);
      holder := Some(if failed || ready then Unlocks else Loads(false));
      Record(s, Proceed(fault));
      r := if failed then Error else Done;
      if !failed && !ready {
        var done := Rebuild(false);
        r := if done then Done else Error;
      }
      Release();
    }
  }
}
