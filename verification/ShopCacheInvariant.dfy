/** What holds at every moment of the shop cache: what each thread may have in hand, what both levels hold,
    who excludes whom, and who answers for a rebuilding mark. Every step of every thread keeps it. */
module ShopCacheInvariant {
  import opened Common
  import opened ShopCacheModel

  /** A value may be shown: committed, and not older than the last completed update. */
  predicate Current(s: State, id: Id, data: Option<Version>) {
    if id in s.rows then data.Some? && Floor(s, id) <= data.value <= s.rows[id] else data.None?
  }

  /** What a thread under the read lock has in hand. */
  predicate InHand(s: State, p: Pc)
    requires p.Reader?
  {
    match p.at
    case Store(row) => Current(s, p.id, row)
    case Fill(entry) => Current(s, p.id, entry.data)
    case Keep(entry) => Current(s, p.id, entry.data)
    case Serve(entry) => Current(s, p.id, entry.data)
    case Submit(entry) => Current(s, p.id, entry.data)
    case Unlock(outcome) => outcome.Found? ==> Current(s, p.id, outcome.entry.data)
    case Leave(outcome) => outcome.Found? ==> Current(s, p.id, outcome.entry.data)
    case _ => true
  }

  /** What the counter of one thread says about the shared memory. */
  predicate PcOk(s: State, p: Pc) {
    && (InQueue(p) ==> Ticket(p) < s.tickets)
    && match p
       case Reader(id, role, at) =>
         && InHand(s, p)
         && (at.Queued? || at.Forget? ==> role == Rebuild)
         && (at.Local? || at.Remote? || at.Keep? || at.Serve? || at.Submit? || at.Done? ==> role == Asking)
         && (role == Asking && (at.Select? || at.Store?) ==> id !in s.remote)
       case Writer(id, version, stage) =>
         && id in s.rows && version <= s.rows[id]
         && (stage == Drop(true) || stage == Update.Release(true) ==> id !in s.remote)
         && (stage.Release? ==> id !in s.local)
  }

  ghost predicate Threads(s: State) {
    forall t :: t in s.threads ==> PcOk(s, s.threads[t])
  }

  /** Both cache levels hold current values only, and L1 never caches a missing shop. */
  predicate CachesAt(s: State, id: Id) {
    && (id in s.remote ==> Current(s, id, Decode(s.config, id, s.remote[id]).data))
    && (id in s.local ==> Current(s, id, s.local[id].data) && s.local[id].data.Some?)
    && (id in s.completed ==> id in s.rows && s.completed[id] <= s.rows[id])
  }

  ghost predicate Caches(s: State) {
    forall id :: CachesAt(s, id)
  }

  predicate Excluded(p: Pc, q: Pc) {
    && (Stripe(p.id) == Stripe(q.id) && Writes(p) ==> !Reads(q) && !Writes(q))
    && (p.id == q.id ==> !(Locks(p) && Locks(q)))
    && (InQueue(p) && InQueue(q) ==> Ticket(p) != Ticket(q))
  }

  ghost predicate Exclusion(s: State) {
    forall t, u :: t in s.threads && u in s.threads && t != u ==> Excluded(s.threads[t], s.threads[u])
  }

  /** The thread answers for the rebuilding mark of its id: it is handing the task over, or it is the task. */
  predicate Marks(p: Pc) {
    p.Reader? && (p.at.Submit? || p.role.Rebuild?)
  }

  ghost predicate Marked(s: State) {
    && (forall t :: t in s.threads && Marks(s.threads[t]) ==> s.threads[t].id in s.rebuilding)
    && (forall t, u :: t in s.threads && u in s.threads && t != u && Marks(s.threads[t]) && Marks(s.threads[u])
          ==> s.threads[t].id != s.threads[u].id)
    && (forall id :: id in s.rebuilding ==> exists t :: t in s.threads && Marks(s.threads[t]) && s.threads[t].id == id)
  }

  ghost predicate Inv(s: State) {
    Threads(s) && Caches(s) && Exclusion(s) && Marked(s)
  }

  lemma StartInv(s: State)
    requires Start(s)
    ensures Inv(s)
  {
  }

  // --------------------------------------------------------- preservation

  /** Thread `t` made a step: other counters are as before, and memory changed only as its counter allows. */
  ghost predicate Stepped(s: State, s': State, t: Thread, id: Id) {
    && s'.config == s.config && s'.tickets >= s.tickets
    && SameOff(s.threads, s'.threads, t)
    && SameOff(s.remote, s'.remote, id) && SameOff(s.local, s'.local, id) && SameOff(s.rows, s'.rows, id)
    && SameOff(s.completed, s'.completed, id)
    && (id in s'.rows <==> id in s.rows) && (id in s.rows ==> s.rows[id] <= s'.rows[id])
    && Floor(s, id) <= Floor(s', id)
    && (id in s'.remote && id !in s.remote ==> t in s.threads && s.threads[t].id == id && Locks(s.threads[t]))
    && (id in s'.local && id !in s.local ==> t in s.threads && s.threads[t].id == id && Reads(s.threads[t]))
    && (s'.completed != s.completed ==> t in s.threads && s.threads[t].id == id && Writes(s.threads[t]))
  }

  lemma WrittenOff<V>(m: map<Id, V>, id: Id, w: Write<V>)
    ensures SameOff(m, Written(m, id, w), id)
  {
  }

  /** Redis is written under the Redisson lock, L1 under the read lock. */
  lemma ReaderWrites(c: Config, id: Id, role: Role, at: Place, seen: Seen, now: Millis, fault: Fault)
    ensures var a := ReaderAction(c, id, role, at, seen, now, fault);
      && (a.remote != Same ==> Locks(Reader(id, role, at)))
      && (a.local != Same ==> Reads(Reader(id, role, at)))
  {
    hide Decode, Encode, Loaded;
  }

  lemma ReaderStepped(s: State, t: Thread, now: Millis, fault: Fault)
    requires t in s.threads && s.threads[t].Reader?
    ensures Stepped(s, ReaderMove(s, t, now, fault), t, s.threads[t].id)
  {
    hide ReaderAction, Stripe;
    var s', p := ReaderMove(s, t, now, fault), s.threads[t];
    var a := ReaderAction(s.config, p.id, p.role, p.at, See(s, p.id), now, fault);
    ReaderWrites(s.config, p.id, p.role, p.at, See(s, p.id), now, fault);
    hide Reads, Locks;
    WrittenOff(s.remote, p.id, a.remote);
    WrittenOff(s.local, p.id, a.local);
  }

  lemma WriterStepped(s: State, t: Thread, fault: Fault)
    requires t in s.threads && s.threads[t].Writer?
    ensures Stepped(s, WriterMove(s, t, fault), t, s.threads[t].id)
  {
    hide Stripe;
    var p := s.threads[t];
    var a := WriterAction(p.stage, s.tickets, fault);
    WrittenOff(s.remote, p.id, a.remote);
    WrittenOff(s.local, p.id, a.local);
  }

  /** A step of another thread leaves the counter of `u` truthful. */
  lemma OtherPcOk(s: State, s': State, t: Thread, id: Id, u: Thread)
    requires Threads(s) && Exclusion(s) && Stepped(s, s', t, id) && u in s.threads && u != t
    ensures u in s'.threads && s'.threads[u] == s.threads[u] && PcOk(s', s'.threads[u])
  {
    hide Stripe;
    var p := s.threads[u];
    assert Get(s.threads, u) == Get(s'.threads, u);
    assert PcOk(s, p);
    assert Get(s.rows, p.id) == Get(s'.rows, p.id) || p.id == id;
    assert Get(s.remote, p.id) == Get(s'.remote, p.id) || p.id == id;
    assert Get(s.local, p.id) == Get(s'.local, p.id) || p.id == id;
    assert Get(s.completed, p.id) == Get(s'.completed, p.id) || p.id == id;
    if t in s.threads {
      assert Excluded(s.threads[t], p) && Excluded(p, s.threads[t]);
    }
  }

  /** Everyone stays truthful if the moving thread does. */
  lemma ThreadsKeep(s: State, s': State, t: Thread, id: Id)
    requires Threads(s) && Exclusion(s) && Stepped(s, s', t, id)
    requires t in s'.threads ==> PcOk(s', s'.threads[t])
    ensures Threads(s')
  {
    hide PcOk, Excluded;
    forall u | u in s'.threads && u != t
      ensures PcOk(s', s'.threads[u])
    {
      assert Get(s.threads, u) == Get(s'.threads, u);
      OtherPcOk(s, s', t, id, u);
    }
  }

  lemma CachesKeep(s: State, s': State, t: Thread, id: Id)
    requires Caches(s) && Stepped(s, s', t, id) && CachesAt(s', id)
    ensures Caches(s')
  {
    hide Stripe, Locks, Reads, Writes, Decode;
    forall x
      ensures CachesAt(s', x)
    {
      if x != id {
        assert CachesAt(s, x);
        assert Get(s.rows, x) == Get(s'.rows, x);
        assert Get(s.remote, x) == Get(s'.remote, x);
        assert Get(s.local, x) == Get(s'.local, x);
        assert Get(s.completed, x) == Get(s'.completed, x);
      }
    }
  }

  /** All pairs stay exclusive if those of the moving thread do. */
  lemma ExclusionKeeps(s: State, s': State, t: Thread)
    requires Exclusion(s) && SameOff(s.threads, s'.threads, t)
    requires forall u :: u in s.threads && u != t && t in s'.threads ==>
      Excluded(s'.threads[t], s.threads[u]) && Excluded(s.threads[u], s'.threads[t])
    ensures Exclusion(s')
  {
    hide Excluded;
    forall u, w | u in s'.threads && w in s'.threads && u != w
      ensures Excluded(s'.threads[u], s'.threads[w])
    {
      assert Get(s.threads, u) == Get(s'.threads, u) || u == t;
      assert Get(s.threads, w) == Get(s'.threads, w) || w == t;
    }
  }

  /** The mark of an id stays with exactly one thread: the mover keeps what it had, takes a free mark or gives its own back. */
  predicate MarkMoved(s: State, s': State, t: Thread, id: Id) {
    var had, has := t in s.threads && Marks(s.threads[t]), t in s'.threads && Marks(s'.threads[t]);
    && (had ==> s.threads[t].id == id) && (has ==> s'.threads[t].id == id)
    && (|| (had == has && s'.rebuilding == s.rebuilding)
        || (!had && has && id !in s.rebuilding && s'.rebuilding == s.rebuilding + {id})
        || (had && !has && s'.rebuilding == s.rebuilding - {id}))
  }

  lemma MarkedKeeps(s: State, s': State, t: Thread, id: Id)
    requires Marked(s) && SameOff(s.threads, s'.threads, t) && MarkMoved(s, s', t, id)
    ensures Marked(s')
  {
    hide Marks;
    forall u | u in s'.threads && Marks(s'.threads[u])
      ensures s'.threads[u].id in s'.rebuilding
    {
      assert Get(s.threads, u) == Get(s'.threads, u) || u == t;
    }
    forall u, w | u in s'.threads && w in s'.threads && u != w && Marks(s'.threads[u]) && Marks(s'.threads[w])
      ensures s'.threads[u].id != s'.threads[w].id
    {
      assert Get(s.threads, u) == Get(s'.threads, u) || u == t;
      assert Get(s.threads, w) == Get(s'.threads, w) || w == t;
    }
    forall x | x in s'.rebuilding
      ensures exists u :: u in s'.threads && Marks(s'.threads[u]) && s'.threads[u].id == x
    {
      if !(t in s'.threads && Marks(s'.threads[t]) && s'.threads[t].id == x) {
        var u :| u in s.threads && Marks(s.threads[u]) && s.threads[u].id == x;
        assert Get(s.threads, u) == Get(s'.threads, u) || u == t;
      }
    }
  }

  // the moving thread

  /** What a thread of the id may see. */
  predicate SeenOk(s: State, id: Id, seen: Seen) {
    && seen == See(s, id)
    && (seen.remote.Some? ==> Current(s, id, Decode(s.config, id, seen.remote.value).data))
    && (seen.local.Some? ==> Current(s, id, seen.local.value.data) && seen.local.value.data.Some?)
    && Current(s, id, seen.row)
  }

  lemma ActionInHand(s: State, id: Id, role: Role, at: Place, seen: Seen, now: Millis, fault: Fault)
    requires SeenOk(s, id, seen) && PcOk(s, Reader(id, role, at))
    ensures var a := ReaderAction(s.config, id, role, at, seen, now, fault);
      && (a.next.Some? ==> InHand(s, Reader(id, role, a.next.value)))
      && (a.remote.Put? ==> Current(s, id, Decode(s.config, id, a.remote.value).data))
      && (a.local.Put? ==> Current(s, id, a.local.value.data) && a.local.value.data.Some?)
  {
    hide Current;
  }

  /** What a counter says beside the values in hand. */
  lemma ActionPlace(s: State, id: Id, role: Role, at: Place, now: Millis, fault: Fault)
    requires PcOk(s, Reader(id, role, at))
    ensures var a := ReaderAction(s.config, id, role, at, See(s, id), now, fault);
      && (a.next.None? <==> at.Forget?)
      && (a.next.Some? ==>
            && (InQueue(Reader(id, role, a.next.value)) ==> at.Queued? && a.next.value == Waiting(s.tickets))
            && (a.next.value.Queued? || a.next.value.Forget? ==> role == Rebuild)
            && (a.next.value.Local? || a.next.value.Remote? || a.next.value.Keep? || a.next.value.Serve? ==> role == Asking)
            && (a.next.value.Submit? || a.next.value.Done? ==> role == Asking)
            && (role == Asking && (a.next.value.Select? || a.next.value.Store?) ==> id !in s.remote && a.remote == Same))
  {
    hide Decode, Encode, Loaded, InHand;
  }

  lemma ReaderPcOk(s: State, t: Thread, now: Millis, fault: Fault)
    requires t in s.threads && s.threads[t].Reader? && PcOk(s, s.threads[t]) && CachesAt(s, s.threads[t].id)
    ensures var s' := ReaderMove(s, t, now, fault); t in s'.threads ==> PcOk(s', s'.threads[t])
  {
    var p := s.threads[t];
    hide Decode, ReaderAction, Stripe;
    assert SeenOk(s, p.id, See(s, p.id));
    ActionInHand(s, p.id, p.role, p.at, See(s, p.id), now, fault);
    ActionPlace(s, p.id, p.role, p.at, now, fault);
  }

  lemma ReaderCaches(s: State, t: Thread, now: Millis, fault: Fault)
    requires t in s.threads && s.threads[t].Reader? && PcOk(s, s.threads[t]) && CachesAt(s, s.threads[t].id)
    ensures CachesAt(ReaderMove(s, t, now, fault), s.threads[t].id)
  {
    var p := s.threads[t];
    hide Decode, ReaderAction, PcOk;
    assert SeenOk(s, p.id, See(s, p.id));
    ActionInHand(s, p.id, p.role, p.at, See(s, p.id), now, fault);
  }

  /** Where the thread may get to: into the guard or the Redisson lock only from waiting for it. */
  lemma ActionLocks(s: State, id: Id, role: Role, at: Place, now: Millis, fault: Fault)
    ensures var a, p := ReaderAction(s.config, id, role, at, See(s, id), now, fault), Reader(id, role, at);
      a.next.Some? ==> var q := Reader(id, role, a.next.value);
        && (Reads(q) ==> Reads(p) || at.Waiting?)
        && (Locks(q) ==> Locks(p) || (at.Lock? && fault.Fine?))
        && (InQueue(q) ==> at.Queued? && a.next.value == Waiting(s.tickets))
  {
    hide Decode, Encode, Loaded;
  }

  lemma ReaderExcluded(s: State, t: Thread, now: Millis, fault: Fault, u: Thread)
    requires t in s.threads && s.threads[t].Reader? && u in s.threads && u != t
    requires InQueue(s.threads[u]) ==> Ticket(s.threads[u]) < s.tickets
    requires Excluded(s.threads[t], s.threads[u]) && Excluded(s.threads[u], s.threads[t])
    requires Enabled(s, Move(t, now, fault))
    ensures var s' := ReaderMove(s, t, now, fault);
      t in s'.threads ==> Excluded(s'.threads[t], s.threads[u]) && Excluded(s.threads[u], s'.threads[t])
  {
    var p := s.threads[t];
    ActionLocks(s, p.id, p.role, p.at, now, fault);
    assert InQueue(p) ==> !BehindInQueue(s, t, u);
    assert p.at.Lock? && fault.Fine? ==> !BehindLock(s, t, u);
    hide ReaderAction, Stripe, Enabled;
  }

  lemma ActionMark(s: State, id: Id, role: Role, at: Place, now: Millis, fault: Fault)
    requires PcOk(s, Reader(id, role, at))
    ensures var a := ReaderAction(s.config, id, role, at, See(s, id), now, fault);
      var had, has := Marks(Reader(id, role, at)), a.next.Some? && Marks(Reader(id, role, a.next.value));
      match a.mark
      case Same => had == has
      case Put(_) => !had && has && id !in s.rebuilding
      case Remove => had && !has
  {
    hide Decode, Encode, Loaded, InHand;
  }

  lemma ReaderMark(s: State, t: Thread, now: Millis, fault: Fault)
    requires t in s.threads && s.threads[t].Reader? && PcOk(s, s.threads[t])
    ensures MarkMoved(s, ReaderMove(s, t, now, fault), t, s.threads[t].id)
  {
    var p := s.threads[t];
    ActionMark(s, p.id, p.role, p.at, now, fault);
    hide ReaderAction, Marks, PcOk;
  }

  lemma PairKeeps(s: State, s': State, t: Thread, id: Id)
    requires Inv(s) && Stepped(s, s', t, id)
    requires t in s'.threads ==> PcOk(s', s'.threads[t])
    requires CachesAt(s', id) && MarkMoved(s, s', t, id)
    requires forall u :: u in s.threads && u != t && t in s'.threads ==>
      Excluded(s'.threads[t], s.threads[u]) && Excluded(s.threads[u], s'.threads[t])
    ensures Inv(s')
  {
    ThreadsKeep(s, s', t, id);
    CachesKeep(s, s', t, id);
    ExclusionKeeps(s, s', t);
    MarkedKeeps(s, s', t, id);
    hide *;
  }

  lemma At(s: State, t: Thread)
    requires Inv(s) && t in s.threads
    ensures PcOk(s, s.threads[t]) && CachesAt(s, s.threads[t].id)
    ensures InQueue(s.threads[t]) ==> Ticket(s.threads[t]) < s.tickets
    ensures forall u :: u in s.threads && u != t ==> Excluded(s.threads[t], s.threads[u]) && Excluded(s.threads[u], s.threads[t])
  {
    hide CachesAt, Excluded;
  }

  lemma ReaderKeeps(s: State, t: Thread, now: Millis, fault: Fault)
    requires Inv(s) && t in s.threads && s.threads[t].Reader? && Enabled(s, Move(t, now, fault))
    ensures Inv(ReaderMove(s, t, now, fault))
  {
    hide *;
    var s', id := ReaderMove(s, t, now, fault), s.threads[t].id;
    At(s, t);
    ReaderStepped(s, t, now, fault);
    ReaderPcOk(s, t, now, fault);
    ReaderCaches(s, t, now, fault);
    ReaderMark(s, t, now, fault);
    forall u | u in s.threads && u != t && t in s'.threads
      ensures Excluded(s'.threads[t], s.threads[u]) && Excluded(s.threads[u], s'.threads[t])
    {
      At(s, u);
      ReaderExcluded(s, t, now, fault, u);
    }
    PairKeeps(s, s', t, id);
  }

  lemma WriterOk(s: State, t: Thread, fault: Fault)
    requires t in s.threads && s.threads[t].Writer? && PcOk(s, s.threads[t]) && CachesAt(s, s.threads[t].id)
    ensures var s' := WriterMove(s, t, fault); t in s'.threads ==> PcOk(s', s'.threads[t])
    ensures CachesAt(WriterMove(s, t, fault), s.threads[t].id)
    ensures MarkMoved(s, WriterMove(s, t, fault), t, s.threads[t].id)
  {
    hide Decode, Stripe;
  }

  lemma WriterExcluded(s: State, t: Thread, now: Millis, fault: Fault, u: Thread)
    requires t in s.threads && s.threads[t].Writer? && u in s.threads && u != t
    requires InQueue(s.threads[u]) ==> Ticket(s.threads[u]) < s.tickets
    requires Excluded(s.threads[t], s.threads[u]) && Excluded(s.threads[u], s.threads[t])
    requires Enabled(s, Move(t, now, fault))
    ensures var s' := WriterMove(s, t, fault);
      t in s'.threads ==> Excluded(s'.threads[t], s.threads[u]) && Excluded(s.threads[u], s'.threads[t])
  {
    var p := s.threads[t];
    assert InQueue(p) ==> !BehindInQueue(s, t, u);
    hide Stripe, Enabled;
  }

  lemma WriterKeeps(s: State, t: Thread, now: Millis, fault: Fault)
    requires Inv(s) && t in s.threads && s.threads[t].Writer? && Enabled(s, Move(t, now, fault))
    ensures Inv(WriterMove(s, t, fault))
  {
    hide *;
    var s', id := WriterMove(s, t, fault), s.threads[t].id;
    At(s, t);
    WriterStepped(s, t, fault);
    WriterOk(s, t, fault);
    forall u | u in s.threads && u != t && t in s'.threads
      ensures Excluded(s'.threads[t], s.threads[u]) && Excluded(s.threads[u], s'.threads[t])
    {
      At(s, u);
      WriterExcluded(s, t, now, fault, u);
    }
    PairKeeps(s, s', t, id);
  }

  /** A new thread, or one more task. */
  lemma NewThread(s: State, s': State, t: Thread, p: Pc)
    requires Inv(s) && t !in s.threads && PcOk(s', p) && !Reads(p) && !Writes(p) && !Locks(p) && !Marks(p)
    requires s' == s.(threads := s.threads[t := p], rows := s'.rows, tickets := s'.tickets) && s'.tickets >= s.tickets
    requires SameOff(s.rows, s'.rows, p.id) && (p.id in s.rows <==> p.id in s'.rows) && (p.id in s.rows ==> s.rows[p.id] <= s'.rows[p.id])
    requires InQueue(p) ==> Ticket(p) == s.tickets
    ensures Inv(s')
  {
    forall u | u in s.threads && u != t && t in s'.threads
      ensures Excluded(s'.threads[t], s.threads[u]) && Excluded(s.threads[u], s'.threads[t])
    {
      At(s, u);
    }
    hide PcOk, Excluded, Stripe;
    assert Stepped(s, s', t, p.id) by {
      hide Inv;
    }
    assert CachesAt(s', p.id) by {
      hide Threads, Exclusion, Marked;
      assert CachesAt(s, p.id);
    }
    PairKeeps(s, s', t, p.id);
  }

  lemma StartKeeps(s: State, t: Thread, id: Id)
    requires Inv(s) && Enabled(s, StartQuery(t, id))
    ensures Inv(Apply(s, StartQuery(t, id)))
  {
    hide Inv;
    NewThread(s, Apply(s, StartQuery(t, id)), t, Reader(id, Asking, Waiting(s.tickets)));
  }

  lemma CommitKeeps(s: State, t: Thread, id: Id)
    requires Inv(s) && Enabled(s, CommitUpdate(t, id))
    ensures Inv(Apply(s, CommitUpdate(t, id)))
  {
    hide Inv;
    NewThread(s, Apply(s, CommitUpdate(t, id)), t, Writer(id, s.rows[id] + 1, Committed));
  }

  /** Replacing or adding a counter that gains no lock and leaves memory alone. */
  lemma Repoint(s: State, t: Thread, p: Pc)
    requires Threads(s) && Exclusion(s) && Caches(s) && PcOk(s, p) && !InQueue(p) && !Writes(p) && !Locks(p)
    requires if t in s.threads then p.id == s.threads[t].id && Reads(s.threads[t]) else !Reads(p)
    ensures var s' := s.(threads := s.threads[t := p]); Threads(s') && Exclusion(s') && Caches(s')
  {
    var s' := s.(threads := s.threads[t := p]);
    forall u | u in s.threads && u != t
      ensures Excluded(p, s.threads[u]) && Excluded(s.threads[u], p)
    {
      assert t in s.threads ==> Excluded(s.threads[t], s.threads[u]) && Excluded(s.threads[u], s.threads[t]);
    }
    hide Excluded, Stripe;
    assert PcOk(s', p);
    hide PcOk;
    assert Stepped(s, s', t, p.id) by {
      hide Threads, Exclusion, Caches;
    }
    assert CachesAt(s', p.id) by {
      assert CachesAt(s, p.id);
    }
    ThreadsKeep(s, s', t, p.id);
    CachesKeep(s, s', t, p.id);
    ExclusionKeeps(s, s', t);
  }

  /** The thread hands its mark over to the task. */
  lemma MarkHandedOver(s: State, s': State, t: Thread, left: Pc, task: Thread, added: Pc)
    requires Marked(s) && t in s.threads && t != task && task !in s.threads && Marks(s.threads[t])
    requires s' == s.(threads := s.threads[t := left][task := added])
    requires !Marks(left) && Marks(added) && added.id == s.threads[t].id
    ensures Marked(s')
  {
    hide Marks;
    forall x | x in s'.rebuilding
      ensures exists u :: u in s'.threads && Marks(s'.threads[u]) && s'.threads[u].id == x
    {
      var u :| u in s.threads && Marks(s.threads[u]) && s.threads[u].id == x;
      assert u != t ==> u in s'.threads && s'.threads[u] == s.threads[u];
      assert task in s'.threads && s'.threads[task] == added;
    }
  }

  lemma ExecuteKeeps(s: State, t: Thread, task: Thread)
    requires Inv(s) && Enabled(s, Execute(t, task))
    ensures Inv(Apply(s, Execute(t, task)))
  {
    var p, s' := s.threads[t], Apply(s, Execute(t, task));
    var left := p.(at := Leave(Found(p.at.entry)));
    At(s, t);
    hide Excluded, Stripe, Current, Threads, Exclusion, Marked, Caches, CachesAt;
    Repoint(s, t, left);
    Repoint(s.(threads := s.threads[t := left]), task, Reader(p.id, Rebuild, Queued));
    MarkHandedOver(s, s', t, left, task, Reader(p.id, Rebuild, Queued));
  }

  lemma RemovalKeeps(s: State, step: Step)
    requires Inv(s) && (step.ExpireRemote? || step.EvictLocal?)
    ensures Inv(Apply(s, step))
  {
    var s' := Apply(s, step);
    hide Excluded, Stripe, Decode;
    forall t | t in s'.threads
      ensures PcOk(s', s'.threads[t])
    {
      assert PcOk(s, s.threads[t]);
    }
    forall id
      ensures CachesAt(s', id)
    {
      assert CachesAt(s, id);
    }
  }

  lemma StepKeeps(s: State, step: Step)
    requires Inv(s)
    ensures Inv(Apply(s, step))
  {
    hide Inv, Enabled, ReaderMove, WriterMove;
    if Enabled(s, step) {
      match step {
        case StartQuery(t, id) => StartKeeps(s, t, id);
        case CommitUpdate(t, id) => CommitKeeps(s, t, id);
        case Execute(t, task) => ExecuteKeeps(s, t, task);
        case Move(t, now, fault) =>
          assert t in s.threads by {
            MoveOfThread(s, t, now, fault);
          }
          if s.threads[t].Reader? {
            ReaderKeeps(s, t, now, fault);
          } else {
            WriterKeeps(s, t, now, fault);
          }
        case _ => RemovalKeeps(s, step);
      }
    }
  }

  lemma MoveOfThread(s: State, t: Thread, now: Millis, fault: Fault)
    requires Enabled(s, Move(t, now, fault))
    ensures t in s.threads
  {
  }

  lemma {:induction false} ExecKeeps(start: State, steps: seq<Step>)
    requires Start(start)
    ensures Inv(Exec(start, steps))
    decreases |steps|
  {
    hide Inv, Apply, Start;
    if steps == [] {
      StartInv(start);
    } else {
      ExecKeeps(start, steps[..|steps| - 1]);
      StepKeeps(Exec(start, steps[..|steps| - 1]), steps[|steps| - 1]);
    }
  }
}
