/** When cached shops fall due: every value in use was loaded once, and a hot one is rebuilt exactly from the moment
    on at which its time since then has passed. */
module ShopCacheExpiry {
  import opened Common
  import opened ShopCacheModel
  import opened ShopCacheInvariant

  /** The step ends a load of this shop, whose value then reaches Redis. */
  predicate Loads(s: State, step: Step, id: Id, shop: Version) {
    && step.Move? && !step.fault.Lost? && step.thread in s.threads && s.threads[step.thread].Reader?
    && s.threads[step.thread].id == id && s.threads[step.thread].at == Store(Some(shop))
  }

  /** The first moment at which a value loaded at `loaded` is due, if it ever is. */
  function DueFrom(c: Config, id: Id, loaded: Millis): Option<Millis> {
    if id in c.hot then Some(loaded + c.hotMillis) else None
  }

  /** What a value carries that is due from then on: a time, or the greatest there is. */
  predicate Carries(entry: Entry, due: Option<Millis>) {
    match due
    case Some(time) => entry.expire == time
    case None => entry.expire == 0x7fff_ffff_ffff_ffff
  }

  /** The entries made by the loads of a schedule. */
  function Made(start: State, steps: seq<Step>): set<(Id, Entry)>
    decreases |steps|
  {
    if steps == [] then {}
    else
      var before, last := steps[..|steps| - 1], steps[|steps| - 1];
      Made(start, before) + MadeBy(Exec(start, before), last)
  }

  function MadeBy(s: State, step: Step): set<(Id, Entry)> {
    if step.Move? && step.thread in s.threads && s.threads[step.thread].Reader? && s.threads[step.thread].at.Store?
       && s.threads[step.thread].at.row.Some? && !step.fault.Lost?
    then
      var p := s.threads[step.thread];
      {(p.id, Loaded(s.config, p.id, p.at.row, step.now))}
    else {}
  }

  /** Such an entry was made by some load, and carries what that load gave it. */
  lemma {:induction false} MadeOnce(start: State, steps: seq<Step>, id: Id, entry: Entry) returns (at: nat)
    requires (id, entry) in Made(start, steps)
    ensures at < |steps| && entry.data.Some?
    ensures Loads(Exec(start, steps[..at]), steps[at], id, entry.data.value)
    ensures Carries(entry, DueFrom(start.config, id, steps[at].now))
    decreases |steps|
  {
    hide Exec;
    var n := |steps| - 1;
    if (id, entry) in Made(start, steps[..n]) {
      at := MadeOnce(start, steps[..n], id, entry);
      assert steps[..n][..at] == steps[..at];
    } else {
      at := n;
      SameConfig(start, steps[..n]);
    }
  }

  lemma {:induction false} SameConfig(start: State, steps: seq<Step>)
    ensures Exec(start, steps).config == start.config
    decreases |steps|
  {
    hide Enabled, ReaderAction, WriterAction;
    if steps != [] {
      SameConfig(start, steps[..|steps| - 1]);
    }
  }

  // ------------------------------------------- nothing else is ever in use

  predicate Known(made: set<(Id, Entry)>, id: Id, entry: Entry) {
    entry.data.Some? ==> (id, entry) in made
  }

  predicate Holds(made: set<(Id, Entry)>, p: Pc) {
    p.Reader? ==>
      match p.at
      case Fill(entry) => Known(made, p.id, entry)
      case Keep(entry) => Known(made, p.id, entry)
      case Serve(entry) => Known(made, p.id, entry)
      case Submit(entry) => Known(made, p.id, entry)
      case Unlock(outcome) => outcome.Found? ==> Known(made, p.id, outcome.entry)
      case Leave(outcome) => outcome.Found? ==> Known(made, p.id, outcome.entry)
      case Done(outcome) => outcome.Found? ==> Known(made, p.id, outcome.entry)
      case _ => true
  }

  /** Only the values of hot shops are stored with a time. */
  predicate FormFits(c: Config, id: Id, stored: Stored) {
    stored.Empty? || (stored.Wrapped? <==> id in c.hot)
  }

  /** What both levels hold of the shop was loaded. */
  predicate OriginsAt(s: State, made: set<(Id, Entry)>, id: Id) {
    && (id in s.remote ==> Known(made, id, Decode(s.config, id, s.remote[id])) && FormFits(s.config, id, s.remote[id]))
    && (id in s.local ==> Known(made, id, s.local[id]))
  }

  /** So was everything that a thread has in hand. */
  ghost predicate Origins(s: State, made: set<(Id, Entry)>) {
    && (forall t :: t in s.threads ==> Holds(made, s.threads[t]))
    && (forall id :: OriginsAt(s, made, id))
  }

  lemma MoreMade(s: State, made: set<(Id, Entry)>, more: set<(Id, Entry)>)
    requires Origins(s, made)
    ensures Origins(s, made + more)
  {
    hide Decode, FormFits;
    forall id
      ensures OriginsAt(s, made + more, id)
    {
      assert OriginsAt(s, made, id);
    }
  }

  /** One access hands on what it found, or what it has just loaded. */
  lemma ActionOrigins(c: Config, id: Id, role: Role, at: Place, seen: Seen, now: Millis, fault: Fault, made: set<(Id, Entry)>)
    requires Holds(made, Reader(id, role, at))
    requires seen.local.Some? ==> Known(made, id, seen.local.value)
    requires seen.remote.Some? ==> Known(made, id, Decode(c, id, seen.remote.value))
    requires at.Store? && at.row.Some? && !fault.Lost? ==> (id, Loaded(c, id, at.row, now)) in made
    ensures var a := ReaderAction(c, id, role, at, seen, now, fault);
      && (a.next.Some? ==> Holds(made, Reader(id, role, a.next.value)))
      && (a.remote.Put? ==> Known(made, id, Decode(c, id, a.remote.value)) && FormFits(c, id, a.remote.value))
      && (a.local.Put? ==> Known(made, id, a.local.value))
  {
    if at.Store? {
      RoundTrip(c, id, at.row, now);
    } else {
      hide Encode;
    }
    hide Decode;
  }

  /** It is enough to look at the thread that moved and at its id. */
  lemma OriginsKeep(s: State, s': State, t: Thread, id: Id, made: set<(Id, Entry)>)
    requires Origins(s, made) && Stepped(s, s', t, id) && OriginsAt(s', made, id)
    requires t in s'.threads ==> Holds(made, s'.threads[t])
    ensures Origins(s', made)
  {
    hide Decode, Known, FormFits, Holds, Reads, Locks, Writes;
    forall u | u in s'.threads
      ensures Holds(made, s'.threads[u])
    {
      assert u == t || Get(s.threads, u) == Get(s'.threads, u);
    }
    forall x
      ensures OriginsAt(s', made, x)
    {
      if x != id {
        assert OriginsAt(s, made, x);
        assert Get(s.remote, x) == Get(s'.remote, x) && Get(s.local, x) == Get(s'.local, x);
      }
    }
  }

  lemma ReaderOrigins(s: State, t: Thread, now: Millis, fault: Fault, made: set<(Id, Entry)>)
    requires t in s.threads && s.threads[t].Reader? && Origins(s, made) && MadeBy(s, Move(t, now, fault)) <= made
    ensures Origins(ReaderMove(s, t, now, fault), made)
  {
    var p := s.threads[t];
    if p.at.Store? && p.at.row.Some? && !fault.Lost? {
      assert (p.id, Loaded(s.config, p.id, p.at.row, now)) in MadeBy(s, Move(t, now, fault));
    }
    assert OriginsAt(s, made, p.id) && Holds(made, p);
    hide ReaderAction, Decode, Known, Loaded, FormFits, Holds, Origins, Stepped, MadeBy;
    ActionOrigins(s.config, p.id, p.role, p.at, See(s, p.id), now, fault, made);
    ReaderStepped(s, t, now, fault);
    OriginsKeep(s, ReaderMove(s, t, now, fault), t, p.id, made);
  }

  lemma StepOrigins(s: State, made: set<(Id, Entry)>, step: Step)
    requires Origins(s, made)
    ensures Origins(Apply(s, step), made + MadeBy(s, step))
  {
    var more := MadeBy(s, step);
    MoreMade(s, made, more);
    hide Decode, Known, MadeBy, Blocked, FormFits;
    if Enabled(s, step) && step.Move? && s.threads[step.thread].Reader? {
      ReaderOrigins(s, step.thread, step.now, step.fault, made + more);
      hide ReaderMove, Origins;
    } else {
      OtherOrigins(s, made + more, step);
    }
  }

  lemma OtherOrigins(s: State, made: set<(Id, Entry)>, step: Step)
    requires Origins(s, made) && !(Enabled(s, step) && step.Move? && s.threads[step.thread].Reader?)
    ensures Origins(Apply(s, step), made)
  {
    hide Decode, Known, Blocked, FormFits;
    forall id
      ensures OriginsAt(Apply(s, step), made, id)
    {
      assert OriginsAt(s, made, id);
    }
  }

  lemma {:induction false} RunOrigins(start: State, steps: seq<Step>)
    requires Start(start)
    ensures Origins(Exec(start, steps), Made(start, steps))
    decreases |steps|
  {
    hide Apply, MadeBy;
    if steps != [] {
      var before := steps[..|steps| - 1];
      RunOrigins(start, before);
      StepOrigins(Exec(start, before), Made(start, before), steps[|steps| - 1]);
      hide Origins;
    }
  }

  // --------------------------------------------------------- the theorems

  /** What L1 holds in any run was loaded by one of its steps; it never falls due unless the shop is hot, and then exactly
      `hotMillis` after that load. */
  lemma LocalDue(start: State, steps: seq<Step>, id: Id) returns (at: nat)
    requires Start(start) && id in Exec(start, steps).local && Exec(start, steps).local[id].data.Some?
    ensures var entry := Exec(start, steps).local[id];
      at < |steps| && Loads(Exec(start, steps[..at]), steps[at], id, entry.data.value)
      && Carries(entry, DueFrom(start.config, id, steps[at].now))
  {
    hide Exec, Start, Made;
    RunOrigins(start, steps);
    assert OriginsAt(Exec(start, steps), Made(start, steps), id);
    at := MadeOnce(start, steps, id, Exec(start, steps).local[id]);
  }

  /** The same for Redis: a hot shop is stored with the moment `hotMillis` after its load, any other without a time. */
  lemma RemoteDue(start: State, steps: seq<Step>, id: Id) returns (at: nat)
    requires Start(start) && id in Exec(start, steps).remote && !Exec(start, steps).remote[id].Empty?
    ensures var stored := Exec(start, steps).remote[id];
      && at < |steps| && Loads(Exec(start, steps[..at]), steps[at], id, stored.shop)
      && stored == (if id in start.config.hot then Wrapped(stored.shop, steps[at].now + start.config.hotMillis) else Plain(stored.shop))
  {
    hide Exec, Start, Made;
    RunOrigins(start, steps);
    SameConfig(start, steps);
    var s := Exec(start, steps);
    assert OriginsAt(s, Made(start, steps), id);
    at := MadeOnce(start, steps, id, Decode(s.config, id, s.remote[id]));
  }

  /** In any run, a query about to serve a shop asks for a rebuild exactly when the shop is hot, at least `hotMillis` have
      passed since the load that the value comes from, and nobody has asked already. */
  lemma RebuildOnTime(start: State, steps: seq<Step>, t: Thread, now: Millis, fault: Fault) returns (at: nat)
    requires Start(start) && now < 0x7fff_ffff_ffff_ffff
    requires var s := Exec(start, steps);
      t in s.threads && s.threads[t].Reader? && s.threads[t].at.Serve? && s.threads[t].at.entry.data.Some?
    ensures var s := Exec(start, steps);
      var (id, entry), s' := (s.threads[t].id, s.threads[t].at.entry), Apply(s, Move(t, now, fault));
      && at < |steps| && Loads(Exec(start, steps[..at]), steps[at], id, entry.data.value)
      && t in s'.threads && s'.threads[t].id == id
      && s'.threads[t].at == (
           if id in start.config.hot && now >= steps[at].now + start.config.hotMillis && id !in s.rebuilding then Submit(entry)
           else Leave(Found(entry)))
      && s'.rebuilding == s.rebuilding + (if s'.threads[t].at.Submit? then {id} else {})
  {
    hide Exec, Start, Made;
    RunOrigins(start, steps);
    var s := Exec(start, steps);
    var p := s.threads[t];
    assert Holds(Made(start, steps), p);
    at := MadeOnce(start, steps, p.id, p.at.entry);
  }
}
