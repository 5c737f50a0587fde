/** The two-level shop cache as threads over shared memory. Each thread is a program counter; the striped
    read/write locks and the Redisson locks are held exactly where the counters say so. One step is one
    access to shared memory, so every interleaving of queries, rebuild tasks and updates is a run. */
module ShopCacheModel {
  import opened Common

  type Id = int
  type Thread = int
  type Millis = int

  /** How many updates of the shop had committed when the value was read: values are told apart by age. */
  type Version = nat

  const NEVER: Millis := 0x7fff_ffff_ffff_ffff

  /** ShopCacheEntry; no data means the shop does not exist. */
  datatype Entry = Entry(data: Option<Version>, expire: Millis)

  /** The three formats a Redis value may have. */
  datatype Stored = Empty | Plain(shop: Version) | Wrapped(shop: Version, expire: Millis)

  datatype Config = Config(hot: set<Id>, hotMillis: Millis)

  /** The decoding half of `readRedis`. */
  function Decode(c: Config, id: Id, stored: Stored): Entry {
    match stored
    case Empty => Entry(None, NEVER)
    case Wrapped(shop, expire) => Entry(Some(shop), expire)
    case Plain(shop) => Entry(Some(shop), if id in c.hot then 0 else NEVER)
  }

  /** The entry `loadDatabase` makes of a row, and the form it stores. */
  function Loaded(c: Config, id: Id, row: Option<Version>, now: Millis): Entry {
    Entry(row, if row.Some? && id in c.hot then now + c.hotMillis else NEVER)
  }

  function Encode(c: Config, id: Id, entry: Entry): Stored {
    if entry.data.None? then Empty
    else if id in c.hot then Wrapped(entry.data.value, entry.expire)
    else Plain(entry.data.value)
  }

  /** What `loadDatabase` stores is read back as the entry it returns. */
  lemma RoundTrip(c: Config, id: Id, row: Option<Version>, now: Millis)
    ensures Decode(c, id, Encode(c, id, Loaded(c, id, row, now))) == Loaded(c, id, row, now)
  {
  }

  /** What a call ends with: an entry or an exception. */
  datatype Outcome = Found(entry: Entry) | Raised

  datatype Role = Asking | Rebuild

  /** Where a reading thread stands: the next access it makes. */
  datatype Place =
    | Queued                       // a task waiting for an executor thread
    | Waiting(ticket: nat)         // in the fair queue of the guard
    | Local | Remote               // query: look into L1, then Redis
    | Lock                         // try the Redisson lock
    | Reread | Select              // under it: read Redis again, then MySQL
    | Store(row: Option<Version>)  // write Redis
    | Fill(entry: Entry)           // write L1
    | Unlock(outcome: Outcome)     // give the Redisson lock back
    | Keep(entry: Entry)           // query: write L1
    | Serve(entry: Entry)          // query: check logical expiry, mark the id as rebuilding
    | Submit(entry: Entry)         // query: hand the task to the executor
    | Leave(outcome: Outcome)      // give the read lock back
    | Forget                       // task: clear the rebuilding mark
    | Done(outcome: Outcome)       // query: returned

  /** Where an updating thread stands after its commit. */
  datatype Update =
    | Committed | Queueing(ticket: nat)
    | Delete                       // Redis DEL
    | Drop(deleted: bool)          // L1 invalidate
    | Release(deleted: bool)       // give the write lock back

  datatype Pc =
    | Reader(id: Id, role: Role, at: Place)
    | Writer(id: Id, version: Version, stage: Update)

  /** `completed` is the newest version whose invalidation finished with a successful Redis delete. */
  datatype State = State(
    config: Config,
    rows: map<Id, Version>,
    remote: map<Id, Stored>,
    local: map<Id, Entry>,
    rebuilding: set<Id>,
    threads: map<Thread, Pc>,
    tickets: nat,
    completed: map<Id, Version>)

  datatype Step =
    | StartQuery(thread: Thread, id: Id)
    | CommitUpdate(thread: Thread, id: Id)
    | Execute(thread: Thread, task: Thread)       // the executor accepts a task
    | Move(thread: Thread, now: Millis, fault: Fault)
    | ExpireRemote(id: Id)
    | EvictLocal(id: Id)

  /** The thread that acts. */
  function Mover(step: Step): Option<Thread> {
    if step.ExpireRemote? || step.EvictLocal? then None else Some(step.thread)
  }

  /** Index of the guard of an id: Long.hashCode without its sign bit, modulo 256. That keeps the lowest bytes of
      the two halves of the id, combined by exclusive or. */
  function Stripe(id: Id): bv8 {
    ((id % 0x100) as bv8) ^ ((id / 0x1_0000_0000 % 0x100) as bv8)
  }

  predicate Reads(p: Pc) {
    p.Reader? && !p.at.Queued? && !p.at.Waiting? && !p.at.Forget? && !p.at.Done?
  }

  predicate Writes(p: Pc) {
    p.Writer? && (p.stage.Delete? || p.stage.Drop? || p.stage.Release?)
  }

  predicate Locks(p: Pc) {
    p.Reader? && (p.at.Reread? || p.at.Select? || p.at.Store? || p.at.Fill? || p.at.Unlock?)
  }

  predicate InQueue(p: Pc) {
    if p.Reader? then p.at.Waiting? else p.stage.Queueing?
  }

  function Ticket(p: Pc): nat
    requires InQueue(p)
  {
    if p.Reader? then p.at.ticket else p.stage.ticket
  }

  /** `t` stands in the queue of its guard and must let `u` finish first. */
  predicate BehindInQueue(s: State, t: Thread, u: Thread)
    requires t in s.threads && InQueue(s.threads[t])
  {
    && u in s.threads && u != t && Stripe(s.threads[u].id) == Stripe(s.threads[t].id)
    && (|| Writes(s.threads[u])
        || (s.threads[t].Writer? && Reads(s.threads[u]))
        || (InQueue(s.threads[u]) && Ticket(s.threads[u]) < Ticket(s.threads[t])))
  }

  /** `t` wants the Redisson lock that `u` holds. */
  predicate BehindLock(s: State, t: Thread, u: Thread)
    requires t in s.threads
  {
    u in s.threads && u != t && s.threads[t].Reader? && s.threads[t].at.Lock? && Locks(s.threads[u]) && s.threads[u].id == s.threads[t].id
  }

  predicate Blocked(s: State, t: Thread)
    requires t in s.threads
  {
    || (InQueue(s.threads[t]) && exists u | u in s.threads :: BehindInQueue(s, t, u))
    || exists u | u in s.threads :: BehindLock(s, t, u)
  }

  /** A blocked thread cannot move, except that waiting for the Redisson lock may time out. */
  predicate Enabled(s: State, step: Step) {
    match step
    case StartQuery(t, _) => t !in s.threads
    case CommitUpdate(t, id) => t !in s.threads && id in s.rows
    case Execute(t, task) => t in s.threads && s.threads[t].Reader? && s.threads[t].at.Submit? && task !in s.threads
    case Move(t, _, fault) =>
      && t in s.threads
      && (match s.threads[t]
          case Reader(_, _, Lock) => fault.Fine? ==> !Blocked(s, t)
          case Reader(_, _, Submit(_)) => !fault.Fine?
          case Reader(_, _, Done(_)) => false
          case p => InQueue(p) ==> !Blocked(s, t))
    case ExpireRemote(_) => true
    case EvictLocal(_) => true
  }

  /** What one thread sees of its id in the shared memory. */
  datatype Seen = Seen(local: Option<Entry>, remote: Option<Stored>, row: Option<Version>, marked: bool, ticket: nat)

  function See(s: State, id: Id): Seen {
    Seen(Get(s.local, id), Get(s.remote, id), Get(s.rows, id), id in s.rebuilding, s.tickets)
  }

  datatype Write<+V> = Same | Put(value: V) | Remove

  function Written<K, V>(m: map<K, V>, k: K, w: Write<V>): map<K, V> {
    match w
    case Same => m
    case Put(v) => m[k := v]
    case Remove => m - {k}
  }

  /** One access of a reading thread: where it goes next, if anywhere, and what it writes. */
  datatype Action = Action(next: Option<Place>, remote: Write<Stored>, local: Write<Entry>, mark: Write<()>)

  function Goto(at: Place): Action {
    Action(Some(at), Same, Same, Same)
  }

  function ReaderAction(c: Config, id: Id, role: Role, at: Place, seen: Seen, now: Millis, fault: Fault): Action {
    var query := role.Asking?;
    match at
    case Queued => Goto(Waiting(seen.ticket))
    case Waiting(_) => Goto(if query then Local else Lock)
    case Local => Goto(if seen.local.Some? then Serve(seen.local.value) else Remote)
    case Remote =>
      if !fault.Fine? then Goto(Leave(Raised))
      else Goto(if seen.remote.Some? then Keep(Decode(c, id, seen.remote.value)) else Lock)
    case Lock => Goto(if fault.Fine? then Reread else Leave(Raised))
    case Reread =>
      if !fault.Fine? then Goto(Unlock(Raised))
      else if seen.remote.None? then Goto(Select)
      else
        var entry := Decode(c, id, seen.remote.value);
        Goto(if query then Unlock(Found(entry)) else if entry.expire <= now then Select else Fill(entry))
    case Select => Goto(if fault.Fine? then Store(seen.row) else Unlock(Raised))
    case Store(row) =>
      var entry := Loaded(c, id, row, now);
      Goto(if fault.Fine? then Fill(entry) else Unlock(Raised))
      .(remote := if fault.Lost? then Same else Put(Encode(c, id, entry)))
    case Fill(entry) => Goto(Unlock(Found(entry))).(local := if entry.data.Some? then Put(entry) else Remove)
    case Unlock(outcome) => Goto(if query && outcome.Found? then Keep(outcome.entry) else Leave(outcome))
    case Keep(entry) => Goto(Serve(entry)).(local := if entry.data.Some? then Put(entry) else Same)
    case Serve(entry) =>
      if entry.data.Some? && entry.expire <= now && !seen.marked then Goto(Submit(entry)).(mark := Put(()))
      else Goto(Leave(Found(entry)))
    case Submit(entry) => Goto(Leave(Found(entry))).(mark := Remove)
    case Leave(outcome) => Goto(if query then Done(outcome) else Forget)
    case Forget => Goto(Forget).(next := None, mark := Remove)
    case Done(_) => Goto(at)
  }

  function ReaderMove(s: State, t: Thread, now: Millis, fault: Fault): State
    requires t in s.threads && s.threads[t].Reader?
  {
    var p := s.threads[t];
    var a := ReaderAction(s.config, p.id, p.role, p.at, See(s, p.id), now, fault);
    s.(threads := if a.next.Some? then s.threads[t := p.(at := a.next.value)] else s.threads - {t},
       tickets := if p.at.Queued? then s.tickets + 1 else s.tickets,
       remote := Written(s.remote, p.id, a.remote),
       local := Written(s.local, p.id, a.local),
       rebuilding := match a.mark case Same => s.rebuilding case Put(_) => s.rebuilding + {p.id} case Remove => s.rebuilding - {p.id})
  }

  function Floor(s: State, id: Id): Version {
    if id in s.completed then s.completed[id] else 0
  }

  /** One access of an updating thread after its commit. */
  datatype Invalidation = Invalidation(next: Option<Update>, remote: Write<Stored>, local: Write<Entry>)

  function WriterAction(stage: Update, ticket: nat, fault: Fault): Invalidation {
    match stage
    case Committed => Invalidation(Some(Queueing(ticket)), Same, Same)
    case Queueing(_) => Invalidation(Some(Delete), Same, Same)
    case Delete => Invalidation(Some(Drop(fault.Fine?)), if fault.Lost? then Same else Remove, Same)
    case Drop(deleted) => Invalidation(Some(Release(deleted)), Same, Remove)
    case Release(_) => Invalidation(None, Same, Same)
  }

  function WriterMove(s: State, t: Thread, fault: Fault): State
    requires t in s.threads && s.threads[t].Writer?
  {
    var p := s.threads[t];
    var a := WriterAction(p.stage, s.tickets, fault);
    s.(threads := if a.next.Some? then s.threads[t := p.(stage := a.next.value)] else s.threads - {t},
       tickets := if p.stage.Committed? then s.tickets + 1 else s.tickets,
       remote := Written(s.remote, p.id, a.remote),
       local := Written(s.local, p.id, a.local),
       completed := if p.stage == Release(true) then s.completed[p.id := Max(Floor(s, p.id), p.version)] else s.completed)
  }

  function Effect(s: State, step: Step): State
    requires Enabled(s, step)
  {
    match step
    case StartQuery(t, id) => s.(threads := s.threads[t := Reader(id, Asking, Waiting(s.tickets))], tickets := s.tickets + 1)
    case CommitUpdate(t, id) =>
      s.(rows := s.rows[id := s.rows[id] + 1], threads := s.threads[t := Writer(id, s.rows[id] + 1, Committed)])
    case Execute(t, task) =>
      var p := s.threads[t];
      s.(threads := s.threads[t := p.(at := Leave(Found(p.at.entry)))][task := Reader(p.id, Rebuild, Queued)])
    case Move(t, now, fault) => if s.threads[t].Reader? then ReaderMove(s, t, now, fault) else WriterMove(s, t, fault)
    case ExpireRemote(id) => s.(remote := s.remote - {id})
    case EvictLocal(id) => s.(local := s.local - {id})
  }

  function Apply(s: State, step: Step): State {
    if Enabled(s, step) then Effect(s, step) else s
  }

  function Exec(s: State, steps: seq<Step>): State
    decreases |steps|
  {
    if steps == [] then s else Apply(Exec(s, steps[..|steps| - 1]), steps[|steps| - 1])
  }

  /** Some shops, empty caches, nobody working. */
  predicate Start(s: State) {
    s.remote == map[] && s.local == map[] && s.rebuilding == {} && s.threads == map[] && s.completed == map[]
  }

  lemma ExecOne(s: State, steps: seq<Step>, step: Step)
    ensures Exec(s, steps + [step]) == Apply(Exec(s, steps), step)
  {
    hide Apply;
    assert (steps + [step])[..|steps|] == steps;
  }
}
