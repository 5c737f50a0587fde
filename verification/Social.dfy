/** Likes of one blog, or follows of one user: the relation table, the counter and the Redis snapshot of the table.
    A Redisson lock covers commit and snapshot update, so at most one thread is at work; it can fail at every remote
    access and crash at any moment, and the snapshot may expire at any moment. */
module Social {
  import opened Common

  type UserId = int
  type Millis = int

  const SENTINEL: UserId := 0
  const SENTINEL_SCORE: Millis := -1

  datatype Kind = Likes | Follows

  /** The Redis key. `Other` is a value of the wrong type. Follows are a plain set; their scores are all zero. */
  datatype Key = Absent | Other | Snapshot(members: map<UserId, Millis>, expiring: bool)

  /** The relation rows with their times and the counter of the blog row. */
  datatype Table = Table(kind: Kind, exist: bool, rows: map<UserId, Millis>, count: int)

  /** Whom to relate, and how; `desired` None toggles. */
  datatype Request = Request(user: UserId, desired: Option<bool>, now: Millis)

  // ------------------------------------------------------- transactions

  datatype Commit = Commit(table: Table, time: Option<Millis>)

  /** SocialTransactionService.setLike; the answer carries the time when the like is on. */
  function SetLike(t: Table, q: Request): Result<Commit> {
    var active := if q.desired.Some? then q.desired.value else q.user !in t.rows;
    var time := if q.user in t.rows then t.rows[q.user] else q.now;
    if active && q.user !in t.rows then
      Ok(Commit(t.(rows := t.rows[q.user := time], count := t.count + 1), Some(time)))
    else if !active && q.user in t.rows then
      if t.count <= 0 then Err else Ok(Commit(t.(rows := t.rows - {q.user}, count := t.count - 1), None))
    else Ok(Commit(t, if active then Some(time) else None))
  }

  /** SocialTransactionService.setFollow */
  function SetFollow(t: Table, q: Request): Commit {
    var active := q.desired == Some(true);
    Commit(t.(rows := if active then t.rows[q.user := 0] else t.rows - {q.user}), if active then Some(0) else None)
  }

  /** Err: the blog or user is missing, or an update hit no row; everything is rolled back. */
  function Transact(t: Table, q: Request): Result<Commit> {
    if !t.exist then Err else if t.kind.Likes? then SetLike(t, q) else Ok(SetFollow(t, q))
  }

  // ------------------------------------------------------------- scripts

  /** SocialProjectionService.ready, which throws on a key of the wrong type. */
  predicate Ready(key: Key) {
    key.Snapshot? && SENTINEL in key.members
  }

  /** social_projection.lua, mode replace. */
  function Replace(rows: map<UserId, Millis>): Key {
    Snapshot(map[SENTINEL := SENTINEL_SCORE] + rows, true)
  }

  /** social_projection.lua, mode change: None stands for -1. The expiry is left alone. */
  function Change(key: Key, user: UserId, time: Option<Millis>): Option<Key> {
    if !key.Snapshot? || !key.expiring || SENTINEL !in key.members then None
    else Some(key.(members := if time.Some? then key.members[user := time.value] else key.members - {user}))
  }

  // ------------------------------------------------------ the lock holder

  /** What the thread holding the lock does next. */
  datatype Work =
    | Commits(request: Request)
    | Projects(user: UserId, time: Option<Millis>)          // change the snapshot
    | Checks                                                // ensure: look again
    | Loads(change: bool)                                   // rebuild: read the table
    | Stores(rows: map<UserId, Millis>, change: bool)       // rebuild: write the snapshot
    | Cleans                                                // drop the snapshot after a failure
    | Unlocks

  /** `tainted`: a crash, a lost commit answer or a failed clean-up may have left the snapshot behind the table. */
  datatype State = State(table: Table, key: Key, holder: Option<Work>, tainted: bool)

  datatype Step =
    | StartChange(request: Request)
    | StartEnsure
    | Proceed(fault: Fault)
    | Crash
    | Expire

  /** The table has changed, or may have, and the snapshot has not followed yet. */
  predicate Behind(w: Work) {
    w.Projects? || (w.Loads? && w.change) || (w.Stores? && w.change) || w.Cleans?
  }

  predicate Enabled(s: State, step: Step) {
    match step
    case StartChange(q) => s.holder.None? && q.user > 0 && q.now >= 0 && (s.table.kind.Follows? ==> q.desired.Some?)
    case StartEnsure => s.holder.None?
    case Proceed(_) => s.holder.Some?
    case Crash => s.holder.Some?
    case Expire => s.key.Snapshot? && s.key.expiring
  }

  function Advance(s: State, w: Work, fault: Fault): State {
    match w
    case Commits(q) =>
      var r := Transact(s.table, q);
      if fault.Lost? || r.Err? then s.(holder := Some(Unlocks))
      else if fault.ReplyLost? then s.(table := r.value.table, holder := Some(Unlocks), tainted := s.tainted || r.value.table != s.table)
      else s.(table := r.value.table, holder := Some(Projects(q.user, r.value.time)))
    case Projects(user, time) =>
      var r := Change(s.key, user, time);
      s.(key := if fault.Lost? || r.None? then s.key else r.value,
         holder := Some(if !fault.Fine? then Cleans else if r.None? then Loads(true) else Unlocks))
    case Checks => s.(holder := Some(if !fault.Fine? || s.key.Other? || Ready(s.key) then Unlocks else Loads(false)))
    case Loads(change) => s.(holder := Some(if fault.Fine? then Stores(s.table.rows, change) else Failed(change)))
    case Stores(rows, change) =>
      s.(key := if fault.Lost? then s.key else Replace(rows), tainted := s.tainted && fault.Lost?,
         holder := Some(if fault.Fine? then Unlocks else Failed(change)))
    case Cleans =>
      s.(key := if fault.Lost? then s.key else Absent, tainted := fault.Lost?, holder := Some(Unlocks))
    case Unlocks => s.(holder := None)
  }

  /** A failure while changing is cleaned up; a failure of `ensure` is passed on. */
  function Failed(change: bool): Work {
    if change then Cleans else Unlocks
  }

  function Effect(s: State, step: Step): State
    requires Enabled(s, step)
  {
    match step
    case StartChange(q) => s.(holder := Some(Commits(q)))
    case StartEnsure => s.(holder := Some(Checks))
    case Proceed(fault) => Advance(s, s.holder.value, fault)
    case Crash => s.(holder := None, tainted := s.tainted || Behind(s.holder.value))
    case Expire => s.(key := Absent, tainted := false)
  }

  function Apply(s: State, step: Step): State {
    if Enabled(s, step) then Effect(s, step) else s
  }

  function Exec(s: State, steps: seq<Step>): State
    decreases |steps|
  {
    if steps == [] then s else Apply(Exec(s, steps[..|steps| - 1]), steps[|steps| - 1])
  }

  /** Nobody is at work, and the key, if any, is no snapshot written by this service. The seed counter may exceed the rows. */
  predicate Start(s: State) {
    && s.holder.None? && !s.tainted && !Ready(s.key)
    && (forall u :: u in s.table.rows ==> u > 0 && s.table.rows[u] >= 0)
    && s.table.count >= |s.table.rows|
  }

  // ----------------------------------------------------------- invariant

  /** The snapshot is the relation table with its times, and the sentinel. */
  predicate Exact(key: Key, rows: map<UserId, Millis>) {
    key.Snapshot? && key.members == Replace(rows).members
  }

  /** The snapshot is exact except for one user, whose change is about to be applied. */
  ghost predicate ExactBut(key: Key, rows: map<UserId, Millis>, user: UserId, time: Option<Millis>) {
    key.Snapshot? && SameOff(key.members, Replace(rows).members, user) && Get(rows, user) == time
  }

  ghost predicate Agreement(s: State) {
    match s.holder
    case Some(Projects(user, time)) =>
      user > 0 && Get(s.table.rows, user) == time && (s.tainted || !Ready(s.key) || ExactBut(s.key, s.table.rows, user, time))
    case Some(Stores(rows, change)) => rows == s.table.rows && (change || s.tainted || !Ready(s.key) || Exact(s.key, rows))
    case Some(Loads(true)) => true
    case Some(Cleans) => true
    case _ => s.tainted || !Ready(s.key) || Exact(s.key, s.table.rows)
  }

  ghost predicate Inv(s: State) {
    && Agreement(s)
    && (forall u :: u in s.table.rows ==> u > 0 && s.table.rows[u] >= 0)
    && (s.holder.Some? && s.holder.value.Commits? ==>
          var q := s.holder.value.request; q.user > 0 && q.now >= 0 && (s.table.kind.Follows? ==> q.desired.Some?))
  }

  /** How many likes the counter shows beyond the relation rows. */
  function Surplus(t: Table): int {
    t.count - |t.rows|
  }

  /** A transaction changes at most the row of its user, to what was asked for, gives a new like its own time and leaves
      that of an existing one, and moves the counter with the rows; while the counter covers the rows it cannot fail. */
  lemma TransactMeaning(t: Table, q: Request)
    requires t.kind.Follows? ==> q.desired.Some?
    ensures var r := Transact(t, q);
      && (r.Ok? ==> SameOff(t.rows, r.value.table.rows, q.user) && Get(r.value.table.rows, q.user) == r.value.time)
      && (r.Ok? ==> (q.user in r.value.table.rows <==> if q.desired.Some? then q.desired.value else q.user !in t.rows))
      && (r.Ok? && t.kind.Likes? && q.user in r.value.table.rows ==>
            r.value.table.rows[q.user] == if q.user in t.rows then t.rows[q.user] else q.now)
      && (r.Ok? && t.kind.Likes? ==> Surplus(r.value.table) == Surplus(t))
      && (Surplus(t) >= 0 ==> (r.Ok? <==> t.exist))
  {
    if q.user in t.rows {
      assert (t.rows - {q.user}).Keys == t.rows.Keys - {q.user};
    }
    assert t.rows[q.user := q.now].Keys == t.rows.Keys + {q.user};
  }

  /** The script answers -1 exactly without a complete snapshot that is going to expire. Otherwise it sets or removes the
      one member and leaves the others, and the expiry, alone. */
  lemma ChangeMeaning(key: Key, user: UserId, time: Option<Millis>)
    requires user > 0
    ensures var r := Change(key, user, time);
      && (r.Some? <==> key.Snapshot? && key.expiring && 0 in key.members)
      && (r.Some? ==> r.value.Snapshot? && r.value.expiring && 0 in r.value.members)
      && (r.Some? ==> SameOff(key.members, r.value.members, user) && Get(r.value.members, user) == time)
  {
  }

  lemma OneRowOff(key: Key, rows: map<UserId, Millis>, rows': map<UserId, Millis>, user: UserId, time: Option<Millis>)
    requires Exact(key, rows) && SameOff(rows, rows', user) && Get(rows', user) == time
    ensures ExactBut(key, rows', user, time)
  {
    forall u | u != user
      ensures Get(key.members, u) == Get(Replace(rows').members, u)
    {
      assert Get(rows, u) == Get(rows', u);
    }
  }

  lemma RowsStayOk(t: Table, q: Request)
    requires q.user > 0 && q.now >= 0 && (t.kind.Follows? ==> q.desired.Some?)
    requires forall u :: u in t.rows ==> u > 0 && t.rows[u] >= 0
    ensures Transact(t, q).Ok? ==> var rows := Transact(t, q).value.table.rows; forall u :: u in rows ==> u > 0 && rows[u] >= 0
  {
  }

  lemma OneRowChanges(t: Table, q: Request)
    requires t.kind.Follows? ==> q.desired.Some?
    ensures var r := Transact(t, q);
      r.Ok? ==> SameOff(t.rows, r.value.table.rows, q.user) && Get(r.value.table.rows, q.user) == r.value.time
  {
    TransactMeaning(t, q);
  }

  lemma CommitKeeps(s: State, fault: Fault)
    requires Inv(s) && s.holder.Some? && s.holder.value.Commits?
    ensures Inv(Advance(s, s.holder.value, fault))
  {
    hide Transact, ExactBut, Exact, Ready, SameOff, Get;
    var q := s.holder.value.request;
    var r := Transact(s.table, q);
    OneRowChanges(s.table, q);
    RowsStayOk(s.table, q);
    if r.Ok? && Exact(s.key, s.table.rows) {
      OneRowOff(s.key, s.table.rows, r.value.table.rows, q.user, r.value.time);
    }
  }

  lemma ProjectKeeps(s: State, fault: Fault)
    requires Inv(s) && s.holder.Some? && s.holder.value.Projects?
    ensures Inv(Advance(s, s.holder.value, fault))
  {
    var user, time := s.holder.value.user, s.holder.value.time;
    var r := Change(s.key, user, time);
    if r.Some? && ExactBut(s.key, s.table.rows, user, time) {
      forall u
        ensures Get(r.value.members, u) == Get(Replace(s.table.rows).members, u)
      {
        assert u != user ==> Get(s.key.members, u) == Get(Replace(s.table.rows).members, u);
      }
      SameMap(r.value.members, Replace(s.table.rows).members);
    }
  }

  lemma SameMap<K, V>(a: map<K, V>, b: map<K, V>)
    requires forall k :: Get(a, k) == Get(b, k)
    ensures a == b
  {
    forall k
      ensures k in a <==> k in b
      ensures k in a ==> k in b && a[k] == b[k]
    {
      assert Get(a, k) == Get(b, k);
    }
  }

  lemma StepKeeps(s: State, step: Step)
    requires Inv(s)
    ensures Inv(Apply(s, step))
  {
    if step.Proceed? && s.holder.Some? && s.holder.value.Commits? {
      CommitKeeps(s, step.fault);
    } else if step.Proceed? && s.holder.Some? && s.holder.value.Projects? {
      ProjectKeeps(s, step.fault);
    } else {
      hide Change, Transact;
    }
  }

  lemma StartInv(s: State)
    requires Start(s)
    ensures Inv(s)
  {
  }

  lemma {:induction false} ExecKeeps(start: State, steps: seq<Step>)
    requires Start(start)
    ensures Inv(Exec(start, steps))
    decreases |steps|
  {
    hide Apply, Inv, Start;
    if steps == [] {
      StartInv(start);
    } else {
      ExecKeeps(start, steps[..|steps| - 1]);
      StepKeeps(Exec(start, steps[..|steps| - 1]), steps[|steps| - 1]);
    }
  }

  // ------------------------------------------------------------ theorems

  /** Whenever nobody is at work and nothing crashed or failed to clean up, the snapshot is either not ready, so that
      the next reader rebuilds it, or exactly the relation table with the original times. */
  lemma ProjectionAgrees(start: State, steps: seq<Step>)
    requires Start(start)
    ensures var s := Exec(start, steps);
      s.holder.None? && !s.tainted ==> !Ready(s.key) || Exact(s.key, s.table.rows)
  {
    hide Exec;
    ExecKeeps(start, steps);
  }

  /** No snapshot that a reader would use stays for ever. */
  lemma {:induction false} ReadyExpires(start: State, steps: seq<Step>)
    requires Start(start)
    ensures var s := Exec(start, steps); Ready(s.key) ==> s.key.expiring
    decreases |steps|
  {
    hide Transact;
    if steps != [] {
      ReadyExpires(start, steps[..|steps| - 1]);
    }
  }

  lemma StepSurplus(s: State, step: Step)
    requires Inv(s) && s.table.kind.Likes? && Surplus(s.table) >= 0
    ensures var s' := Apply(s, step); s'.table.kind == Likes && Surplus(s'.table) == Surplus(s.table)
    ensures var s' := Apply(s, step); forall u :: u in s.table.rows && u in s'.table.rows ==> s'.table.rows[u] == s.table.rows[u]
  {
    if step.Proceed? && s.holder.Some? && s.holder.value.Commits? {
      var q := s.holder.value.request;
      TransactMeaning(s.table, q);
      hide Agreement;
      forall u | u in s.table.rows && u in Apply(s, step).table.rows
        ensures Apply(s, step).table.rows[u] == s.table.rows[u]
      {
        assert u != q.user && Transact(s.table, q).Ok? ==> Get(s.table.rows, u) == Get(Transact(s.table, q).value.table.rows, u);
      }
    } else {
      hide Transact, Change, Agreement;
    }
  }

  /** The like counter minus the like rows never changes, so the guarded decrement never finds the counter at zero:
      a transaction on an existing blog always succeeds. */
  lemma {:induction false} CountFollowsRows(start: State, steps: seq<Step>, q: Request)
    requires Start(start) && start.table.kind.Likes?
    ensures var s := Exec(start, steps);
      && s.table.kind == Likes && Surplus(s.table) == Surplus(start.table)
      && (Transact(s.table, q).Ok? <==> s.table.exist)
    decreases |steps|
  {
    hide Apply, Transact, Inv;
    if steps != [] {
      var before := steps[..|steps| - 1];
      CountFollowsRows(start, before, q);
      ExecKeeps(start, before);
      StepSurplus(Exec(start, before), steps[|steps| - 1]);
    }
    TransactMeaning(Exec(start, steps).table, q);
  }

  // ---------------------------------------------------------- like times

  function RowsAt(start: State, steps: seq<Step>, k: nat): map<UserId, Millis>
    requires k <= |steps|
  {
    Exec(start, steps[..k]).table.rows
  }

  /** The like of the user that is there at the end was made by the i-th step and not taken back since. */
  ghost predicate LikedAt(start: State, steps: seq<Step>, u: UserId, i: nat) {
    i < |steps| && u !in RowsAt(start, steps, i) && forall k :: i < k <= |steps| ==> u in RowsAt(start, steps, k)
  }

  /** The clock of the requests does not go back. */
  ghost predicate ClockForward(steps: seq<Step>) {
    forall a, b :: 0 <= a < b < |steps| && steps[a].StartChange? && steps[b].StartChange? ==> steps[a].request.now <= steps[b].request.now
  }

  lemma StepAt(start: State, steps: seq<Step>, k: nat)
    requires k < |steps|
    ensures Exec(start, steps[..k + 1]) == Apply(Exec(start, steps[..k]), steps[k])
  {
    assert steps[..k + 1][..k] == steps[..k];
  }

  /** A like appears only by the transaction of a request of its user, with the time of that request. */
  lemma LikeAppears(s: State, step: Step, u: UserId)
    requires s.table.kind.Likes? && u !in s.table.rows && u in Apply(s, step).table.rows
    ensures s.holder.Some? && s.holder.value.Commits? && s.holder.value.request.user == u
    ensures Apply(s, step).table.rows[u] == s.holder.value.request.now
    ensures var after := Apply(s, step).holder; after.Some? ==> !after.value.Commits?
  {
  }

  /** The request that is being committed was started by an earlier step, and nothing else was going on since. */
  lemma {:induction false} StartedAt(start: State, steps: seq<Step>, k: nat, q: Request) returns (a: nat)
    requires Start(start) && k <= |steps| && Exec(start, steps[..k]).holder == Some(Commits(q))
    ensures a < k && steps[a] == StartChange(q)
    ensures forall b :: a < b <= k ==> Exec(start, steps[..b]).holder == Some(Commits(q))
    decreases k
  {
    if k == 0 {
      assert false;
    }
    StepAt(start, steps, k - 1);
    var before := Exec(start, steps[..k - 1]);
    if before.holder == Some(Commits(q)) {
      a := StartedAt(start, steps, k - 1, q);
    } else {
      CommitStarts(before, steps[k - 1], q);
      a := k - 1;
    }
  }

  lemma CommitStarts(s: State, step: Step, q: Request)
    requires s.holder != Some(Commits(q)) && Apply(s, step).holder == Some(Commits(q))
    ensures step == StartChange(q)
  {
    hide Transact, Change, Ready;
  }

  /** A like keeps its time as long as it is there. */
  lemma {:induction false} TimeStays(start: State, steps: seq<Step>, u: UserId, i: nat, k: nat)
    requires Start(start) && start.table.kind.Likes? && i <= k <= |steps|
    requires forall b :: i <= b <= k ==> u in RowsAt(start, steps, b)
    ensures RowsAt(start, steps, k)[u] == RowsAt(start, steps, i)[u]
    decreases k
  {
    hide Exec, Apply, Inv, Start, Surplus;
    if i < k {
      TimeStays(start, steps, u, i, k - 1);
      var s := Exec(start, steps[..k - 1]);
      StepAt(start, steps, k - 1);
      ExecKeeps(start, steps[..k - 1]);
      CountFollowsRows(start, steps[..k - 1], Request(u, None, 0));
      SurplusCovers(start);
      StepSurplus(s, steps[k - 1]);
      assert u in RowsAt(start, steps, k - 1) && u in RowsAt(start, steps, k);
    }
  }

  lemma SurplusCovers(s: State)
    requires Start(s)
    ensures Surplus(s.table) >= 0
  {
  }

  /** The time of a like is the clock of the request that made it. */
  lemma LikeTime(start: State, steps: seq<Step>, u: UserId, i: nat) returns (a: nat)
    requires Start(start) && start.table.kind.Likes? && LikedAt(start, steps, u, i)
    ensures a < i < |steps| && steps[a].StartChange? && steps[a].request.user == u
    ensures u in Exec(start, steps).table.rows && Exec(start, steps).table.rows[u] == steps[a].request.now
    ensures forall b :: a < b <= i ==> Exec(start, steps[..b]).holder == Some(Commits(steps[a].request))
    ensures var after := Exec(start, steps[..i + 1]).holder; after.Some? ==> !after.value.Commits?
  {
    hide Exec, Apply, Start, Inv;
    var s := Exec(start, steps[..i]);
    StepAt(start, steps, i);
    CountFollowsRows(start, steps[..i], Request(u, None, 0));
    assert u in RowsAt(start, steps, i + 1);
    LikeAppears(s, steps[i], u);
    a := StartedAt(start, steps, i, s.holder.value.request);
    TimeStays(start, steps, u, i + 1, |steps|);
    assert steps[..|steps|] == steps;
  }

  /** Who liked first has the lower time, or the same if the clock did not move on. */
  lemma EarlierLike(start: State, steps: seq<Step>, u: UserId, i: nat, v: UserId, j: nat)
    requires Start(start) && start.table.kind.Likes? && ClockForward(steps)
    requires LikedAt(start, steps, u, i) && LikedAt(start, steps, v, j) && i < j
    ensures var rows := Exec(start, steps).table.rows; u in rows && v in rows && rows[u] <= rows[v]
  {
    hide Exec, Start, LikedAt;
    var a := LikeTime(start, steps, u, i);
    var b := LikeTime(start, steps, v, j);
    if b <= i {
      assert false;
    }
    assert steps[a].request.now <= steps[b].request.now;
  }

  // ------------------------------------------------------------ top five

  /** ZRANGE order: by score; ties are ordered by member in some fixed way. */
  ghost predicate Ranking(members: map<UserId, Millis>, order: seq<UserId>) {
    && |order| == |members|
    && (forall i :: 0 <= i < |order| ==> order[i] in members)
    && (forall i, j :: 0 <= i < j < |order| ==> order[i] != order[j] && members[order[i]] <= members[order[j]])
  }

  /** Every member has a rank. */
  lemma RankOf(members: map<UserId, Millis>, order: seq<UserId>, u: UserId) returns (k: nat)
    requires Ranking(members, order) && u in members
    ensures k < |order| && order[k] == u
  {
    DistinctSize(order);
    if u !in Elements(order) {
      SubsetSize(Elements(order), members.Keys - {u});
      assert false;
    }
    k :| k < |order| && order[k] == u;
  }

  /** Ranks 1 to 5, without rank 0. */
  function RangeOneToFive(order: seq<UserId>): seq<UserId> {
    if |order| <= 1 then [] else if |order| <= 6 then order[1..] else order[1..6]
  }

  lemma SentinelFirst(rows: map<UserId, Millis>, order: seq<UserId>)
    requires forall u :: u in rows ==> u > 0 && rows[u] >= 0
    requires Ranking(Replace(rows).members, order)
    ensures order != [] && order[0] == SENTINEL && |order| == |rows| + 1
  {
    var members := Replace(rows).members;
    assert members.Keys == rows.Keys + {SENTINEL};
    var k := RankOf(members, order, SENTINEL);
    assert order[0] in members && members[order[0]] <= members[order[k]];
  }

  /** Ranks from 1 on hold the likes, earliest first. */
  lemma LikesRanked(rows: map<UserId, Millis>, order: seq<UserId>)
    requires forall u :: u in rows ==> u > 0 && rows[u] >= 0
    requires Ranking(Replace(rows).members, order)
    ensures order != [] && Ranking(rows, order[1..])
  {
    SentinelFirst(rows, order);
    var members, likes := Replace(rows).members, order[1..];
    forall i | 0 <= i < |likes|
      ensures likes[i] == order[i + 1] && likes[i] in rows && members[likes[i]] == rows[likes[i]]
    {
      assert order[i + 1] in members && order[i + 1] != order[0];
    }
  }

  /** The first `n` of a ranking are the earliest. */
  lemma Earliest(rows: map<UserId, Millis>, likes: seq<UserId>, n: nat, u: UserId, i: nat)
    requires Ranking(rows, likes) && i < n <= |likes| && u in rows && forall k :: 0 <= k < n ==> likes[k] != u
    ensures rows[likes[i]] <= rows[u]
  {
    var k := RankOf(rows, likes, u);
  }

  /** The sentinel ranks first, so ranks 1 to 5 are the five earliest likes, or all of them, earliest first. */
  lemma TopFive(rows: map<UserId, Millis>, order: seq<UserId>)
    requires forall u :: u in rows ==> u > 0 && rows[u] >= 0
    requires Ranking(Replace(rows).members, order)
    ensures var top := RangeOneToFive(order);
      && |top| == (if |rows| < 5 then |rows| else 5)
      && (forall i :: 0 <= i < |top| ==> top[i] in rows)
      && (forall i, j :: 0 <= i < j < |top| ==> top[i] != top[j] && rows[top[i]] <= rows[top[j]])
      && (forall u, i :: u in rows && u !in top && 0 <= i < |top| ==> rows[top[i]] <= rows[u])
  {
    LikesRanked(rows, order);
    var top, likes := RangeOneToFive(order), order[1..];
    var n := |top|;
    assert top == likes[..n];
    forall u, i | u in rows && u !in top && 0 <= i < n
      ensures likes[i] in rows && rows[likes[i]] <= rows[u]
    {
      Earliest(rows, likes, n, u, i);
    }
  }

  /** Over all runs with a clock that does not go back, of those who liked during the run: whoever is among the five liked before
      everybody who is left out, except for likes in the same millisecond. */
  lemma TopFiveLikedFirst(start: State, steps: seq<Step>, order: seq<UserId>, u: UserId, i: nat, v: UserId, j: nat)
    requires Start(start) && start.table.kind.Likes? && ClockForward(steps)
    requires var rows := Exec(start, steps).table.rows;
      && Ranking(Replace(rows).members, order)
      && u in RangeOneToFive(order) && v in rows && v !in RangeOneToFive(order)
    requires LikedAt(start, steps, u, i) && LikedAt(start, steps, v, j)
    ensures var rows := Exec(start, steps).table.rows; i < j || (u in rows && rows[u] == rows[v])
  {
    hide *;
    var rows := Exec(start, steps).table.rows;
    RowsPositive(start, steps);
    InTop(rows, order, u, v);
    if i == j {
      SameLiker(start, steps, u, v, i);
    } else if j < i {
      EarlierLike(start, steps, v, j, u, i);
    }
  }

  lemma RowsPositive(start: State, steps: seq<Step>)
    requires Start(start)
    ensures var rows := Exec(start, steps).table.rows; forall w :: w in rows ==> w > 0 && rows[w] >= 0
  {
    ExecKeeps(start, steps);
    hide Exec, Start, Agreement;
  }

  lemma InTop(rows: map<UserId, Millis>, order: seq<UserId>, u: UserId, v: UserId)
    requires forall w :: w in rows ==> w > 0 && rows[w] >= 0
    requires Ranking(Replace(rows).members, order)
    requires u in RangeOneToFive(order) && v in rows && v !in RangeOneToFive(order)
    ensures u in rows && rows[u] <= rows[v]
  {
    TopFive(rows, order);
    hide *;
    var k :| 0 <= k < |RangeOneToFive(order)| && RangeOneToFive(order)[k] == u;
  }

  lemma SameLiker(start: State, steps: seq<Step>, u: UserId, v: UserId, i: nat)
    requires Start(start) && start.table.kind.Likes? && LikedAt(start, steps, u, i) && LikedAt(start, steps, v, i)
    ensures u == v
  {
    hide Exec, Start;
    var a := LikeTime(start, steps, u, i);
    var b := LikeTime(start, steps, v, i);
    assert Exec(start, steps[..i]).holder == Some(Commits(steps[a].request)) == Some(Commits(steps[b].request));
  }
}
