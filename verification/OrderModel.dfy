/** The seckill order protocol over its three stores: the Redis keys, the MySQL
    tables and what clients and the broker may still do. Every Lua script and every
    database statement group that commits is a function on the store it touches;
    `Apply` is the transition of the combined state. */
module OrderModel {
  import opened Common

  type UserId = int
  type VoucherId = int
  type OrderId = int
  type Millis = int

  /** A reservation UUID. Only equality of tokens matters; their order breaks ties in the pending set. */
  type Token = nat

  const MAX_STOCK := 2147483647

  /** How many rows or tokens one scheduled scan takes. */
  const BATCH := 100
  const SENTINEL: UserId := 0

  // ---------------------------------------------------------------- Redis

  /** Who claims a unit of which voucher. */
  datatype Claim = Claim(user: UserId, voucher: VoucherId)

  /** Hash seckill:reservation:{token}. */
  datatype Record = Record(claim: Claim, order: Option<OrderId>)

  /** Hash seckill:meta:{voucher}; sales run in [begin, end). */
  datatype SaleWindow = SaleWindow(begin: Millis, end: Millis)

  /** Owner hashes of all vouchers are held as one map keyed by (user, voucher). */
  datatype Redis = Redis(
    stock: map<VoucherId, int>,
    users: map<VoucherId, set<UserId>>,
    meta: map<VoucherId, SaleWindow>,
    owners: map<Claim, Token>,
    records: map<Token, Record>,
    pending: map<Token, Millis>,
    closed: set<OrderId>)
  {
    /** EXISTS on the qualification set: Redis drops empty sets. */
    predicate HasUsers(v: VoucherId) {
      v in users && users[v] != {}
    }
  }

  const SUCCESS := 0
  const OUT_OF_STOCK := 1
  const DUPLICATE_ORDER := 2
  const NOT_READY := 3
  const NOT_STARTED := 4
  const ENDED := 5

  /** seckill.lua */
  function SeckillScript(r: Redis, c: Claim, t: Token, now: Millis): (Redis, int) {
    if c.voucher !in r.stock || c.voucher !in r.meta || !r.HasUsers(c.voucher) then (r, NOT_READY)
    else if now < r.meta[c.voucher].begin then (r, NOT_STARTED)
    else if now >= r.meta[c.voucher].end then (r, ENDED)
    else if r.stock[c.voucher] <= 0 then (r, OUT_OF_STOCK)
    else if c.user in r.users[c.voucher] then (r, DUPLICATE_ORDER)
    else
      (r.(stock := r.stock[c.voucher := r.stock[c.voucher] - 1],
          users := r.users[c.voucher := r.users[c.voucher] + {c.user}],
          owners := r.owners[c := t],
          records := r.records[t := Record(c, None)],
          pending := r.pending[t := now]), SUCCESS)
  }

  /** reservation_bind.lua */
  function BindScript(r: Redis, c: Claim, t: Token, o: OrderId): (Redis, int) {
    if Get(r.owners, c) != Some(t) then (r, 0)
    else if t !in r.records then (r, 0)
    else (r.(records := r.records[t := r.records[t].(order := Some(o))]), 1)
  }

  /** reservation_release.lua; `o` is None when the reservation must still be unbound. */
  function ReleaseScript(r: Redis, c: Claim, t: Token, o: Option<OrderId>, keep: bool): (Redis, int) {
    if t !in r.records then (r, 0)
    else if r.records[t].claim != c then (r, -1)
    else if c !in r.owners then (r, -1)
    else if c.voucher !in r.stock || !r.HasUsers(c.voucher) || r.pending == map[] then (r, -1)
    else if r.records[t].order != o then (r, 0)
    else
      var freed :=
        if r.owners[c] != t then r
        else r.(stock := r.stock[c.voucher := r.stock[c.voucher] + 1],
                users := if keep then r.users else r.users[c.voucher := r.users[c.voucher] - {c.user}],
                owners := r.owners - {c});
      (freed.(records := freed.records - {t}, pending := freed.pending - {t}), 1)
  }

  /** reservation_complete.lua */
  function CompleteScript(r: Redis, t: Token, o: OrderId): Redis {
    if t in r.records && r.records[t].order == Some(o)
    then r.(records := r.records - {t}, pending := r.pending - {t})
    else r
  }

  /** reservation_defer.lua; ZADD XX never adds a member. */
  function DeferScript(r: Redis, t: Token, now: Millis): Redis {
    if t in r.pending then r.(pending := r.pending[t := now]) else r
  }

  /** order_close_release.lua; `t` is None for an order without a delivery row. */
  function CloseReleaseScript(r: Redis, c: Claim, t: Option<Token>, o: OrderId): (Redis, int) {
    if o in r.closed then (r, 0)
    else if c.voucher !in r.stock || !r.HasUsers(c.voucher) then (r, -1)
    else if r.stock[c.voucher] < 0 || r.stock[c.voucher] >= MAX_STOCK then (r, -1)
    else if Get(r.owners, c) != t || c.user !in r.users[c.voucher] then (r, -1)
    else
      (r.(stock := r.stock[c.voucher := r.stock[c.voucher] + 1],
          users := r.users[c.voucher := r.users[c.voucher] - {c.user}],
          owners := r.owners - {c},
          closed := r.closed + {o}), 1)
  }

  // ---------------------------------------------------------------- MySQL

  /** Status codes 1, 2 and 4. */
  datatype Status = Pending | Paid | Closed

  datatype Order = Order(claim: Claim, status: Status, version: int, expire: Millis)

  datatype DeliveryState = Open | Created | Cancelled

  datatype Delivery = Delivery(claim: Claim, token: Token, state: DeliveryState)

  /** Row of tb_order_stock_release. */
  datatype Release = Release(claim: Claim, token: Option<Token>, completed: bool, retryAt: Millis)

  datatype Database = Database(
    stock: map<VoucherId, int>,
    orders: map<OrderId, Order>,
    deliveries: map<OrderId, Delivery>,
    releases: map<OrderId, Release>)
  {
    /** A row with this active_user_id and voucher_id exists. */
    predicate HasActive(c: Claim) {
      exists o | o in orders :: orders[o].claim == c && orders[o].status != Closed
    }
  }

  datatype Message = Message(order: Option<OrderId>, claim: Claim, token: Token)
  {
    predicate Valid() {
      order.Some? && order.value > 0 && claim.user > 0 && claim.voucher > 0
    }
  }

  datatype Outcome = CREATED | CANCELLED | CANCELLED_KEEP_QUALIFICATION

  /** The delivery row seen by `lock`: inserted as OPEN when missing, refused when it names another reservation. */
  function LockRow(d: Database, m: Message): Result<Delivery>
    requires m.order.Some?
  {
    if !m.Valid() then Err
    else if m.order.value !in d.deliveries then Ok(Delivery(m.claim, m.token, Open))
    else if d.deliveries[m.order.value].claim != m.claim || d.deliveries[m.order.value].token != m.token then Err
    else Ok(d.deliveries[m.order.value])
  }

  /** The writes of `create` after `isBound` answered true; `timeout` is the payment period. */
  function CreateWrites(d: Database, m: Message, now: Millis, timeout: Millis): Result<Database>
    requires m.order.Some?
  {
    var o, v := m.order.value, m.claim.voucher;
    if v !in d.stock || d.stock[v] <= 0 then Err
    else if timeout <= 0 then Err
    else if o in d.orders || d.HasActive(m.claim) then Err
    else Ok(d.(stock := d.stock[v := d.stock[v] - 1],
               orders := d.orders[o := Order(m.claim, Pending, 0, now + timeout)],
               deliveries := d.deliveries[o := Delivery(m.claim, m.token, Created)]))
  }

  /** OrderTransactionService.cancel */
  function CancelTx(d: Database, m: Message): Result<(Database, Outcome)>
    requires m.order.Some?
  {
    var o := m.order.value;
    match LockRow(d, m)
    case Err => Err
    case Ok(row) =>
      if o in d.orders then
        if d.orders[o].claim != m.claim then Err
        else Ok((d.(deliveries := d.deliveries[o := row.(state := Created)]), CREATED))
      else if row.state == Created then Err
      else
        Ok((d.(deliveries := d.deliveries[o := row.(state := Cancelled)]),
            if d.HasActive(m.claim) then CANCELLED_KEEP_QUALIFICATION else CANCELLED))
  }

  /** The conditional update of `simulatePay`; `version` comes from an earlier read. */
  function PayUpdate(d: Database, o: OrderId, version: int, now: Millis): (Database, bool) {
    if o in d.orders && d.orders[o].status == Pending && d.orders[o].version == version && d.orders[o].expire > now
    then (d.(orders := d.orders[o := d.orders[o].(status := Paid, version := version + 1)]), true)
    else (d, false)
  }

  /** `close` from its conditional update on: the update, the stock row and the release row commit together. */
  function CloseTx(d: Database, o: OrderId, version: int, now: Millis): Result<(Database, bool)> {
    if !(o in d.orders && d.orders[o].status == Pending && d.orders[o].version == version && d.orders[o].expire <= now)
    then Ok((d, false))
    else
      var row := d.orders[o];
      if row.claim.voucher !in d.stock then Err
      else if o in d.releases then Err
      else
        var token := if o in d.deliveries then Some(d.deliveries[o].token) else None;
        Ok((d.(stock := d.stock[row.claim.voucher := d.stock[row.claim.voucher] + 1],
               orders := d.orders[o := row.(status := Closed, version := version + 1)],
               releases := d.releases[o := Release(row.claim, token, false, now)]), true))
  }

  /** OrderStockReleaseMapper.complete */
  function CompleteRelease(d: Database, o: OrderId): Database {
    if o in d.releases then d.(releases := d.releases[o := d.releases[o].(completed := true)]) else d
  }

  /** OrderStockReleaseMapper.defer */
  function DeferRelease(d: Database, o: OrderId, at: Millis): Database {
    if o in d.releases && !d.releases[o].completed
    then d.(releases := d.releases[o := d.releases[o].(retryAt := at)])
    else d
  }

  // ------------------------------------------------- clients and broker

  /** How far an open `create` transaction has come: it holds the delivery row lock,
      and `isBound` reads the owner entry first and the reservation record second. */
  datatype Phase = Locked | OwnerSeen | BoundSeen

  /** What happened so far outside the stores. It only grows, except `creating`: a message
      in `sent` may be delivered any number of times, at any later time, or never. */
  datatype Net = Net(
    issued: map<Token, Claim>,       // reservations that succeeded
    alloc: map<Token, OrderId>,      // order ids drawn for them
    tokenOf: map<OrderId, Token>,    // inverse of alloc
    bound: set<OrderId>,             // bind answered 1
    sent: set<OrderId>,              // handed to the broker
    creating: map<OrderId, Phase>,   // open create transactions
    permits: set<(OrderId, bool)>)   // committed cancellations with their keep flag

  datatype State = State(redis: Redis, db: Database, net: Net)
  {
    function MessageOf(o: OrderId): (m: Message)
      requires o in net.tokenOf && net.tokenOf[o] in net.issued
    {
      Message(Some(o), net.issued[net.tokenOf[o]], net.tokenOf[o])
    }
  }

  datatype Step =
    | Reserve(token: Token, claim: Claim, now: Millis)
    | Allocate(token: Token, order: OrderId)
    | Bind(order: OrderId)
    | Publish(order: OrderId)
    | CreateLock(order: OrderId)
    | CreateReadOwner(order: OrderId)
    | CreateReadRecord(order: OrderId)
    | CreateCommit(order: OrderId, now: Millis, timeout: Millis)
    | CreateAbort(order: OrderId)
    | Cancel(order: OrderId)
    | ReleaseBound(order: OrderId, keep: bool)
    | ReleaseUnbound(token: Token)
    | Complete(order: OrderId)
    | Defer(token: Token, now: Millis)
    | Pay(order: OrderId, version: int, now: Millis)
    | Close(order: OrderId, version: int, now: Millis)
    | CloseRelease(order: OrderId)
    | MarkReleased(order: OrderId)
    | DeferReleaseRow(order: OrderId, now: Millis)

  /** The order id was drawn for a reservation that exists. */
  predicate Known(s: State, o: OrderId) {
    o in s.net.tokenOf && s.net.tokenOf[o] in s.net.issued
  }

  /** When some client of the real system could perform the step. */
  predicate Enabled(s: State, step: Step) {
    match step
    case Reserve(t, c, now) => t !in s.net.issued && c.user > 0 && c.voucher > 0 && now >= 0
    case Allocate(t, o) => t in s.net.issued && t !in s.net.alloc && o !in s.net.tokenOf && o > 0
    case Bind(o) => Known(s, o)
    case Publish(o) => o in s.net.bound
    case CreateLock(o) => Known(s, o) && o in s.net.sent && o !in s.net.creating
    case CreateReadOwner(o) => Known(s, o) && Get(s.net.creating, o) == Some(Locked)
    case CreateReadRecord(o) => Known(s, o) && Get(s.net.creating, o) == Some(OwnerSeen)
    case CreateCommit(o, _, _) => Known(s, o) && Get(s.net.creating, o) == Some(BoundSeen)
    case CreateAbort(o) => o in s.net.creating
    case Cancel(o) => Known(s, o) && o !in s.net.creating
    case ReleaseBound(o, keep) => Known(s, o) && (o, keep) in s.net.permits
    case ReleaseUnbound(t) => t in s.net.issued
    case Complete(o) => Known(s, o) && o in s.db.deliveries && s.db.deliveries[o].state == Created
    case Defer(t, now) => now >= 0
    case Pay(o, _, _) => true
    case Close(o, _, _) => true
    case CloseRelease(o) => o in s.db.releases
    case MarkReleased(o) => o in s.redis.closed
    case DeferReleaseRow(o, _) => true
  }

  /** The effect of an enabled step. */
  function Effect(s: State, step: Step): State
    requires Enabled(s, step)
  {
    match step
    case Reserve(t, c, now) =>
      var (r, code) := SeckillScript(s.redis, c, t, now);
      if code == SUCCESS then s.(redis := r, net := s.net.(issued := s.net.issued[t := c])) else s
    case Allocate(t, o) =>
      s.(net := s.net.(alloc := s.net.alloc[t := o], tokenOf := s.net.tokenOf[o := t]))
    case Bind(o) =>
      var m := s.MessageOf(o);
      var (r, code) := BindScript(s.redis, m.claim, m.token, o);
      if code == 1 then s.(redis := r, net := s.net.(bound := s.net.bound + {o})) else s
    case Publish(o) => s.(net := s.net.(sent := s.net.sent + {o}))
    case CreateLock(o) =>
      (match LockRow(s.db, s.MessageOf(o))
       case Err => s
       case Ok(row) =>
         if row.state == Open then s.(net := s.net.(creating := s.net.creating[o := Locked])) else s)
    case CreateReadOwner(o) =>
      var m := s.MessageOf(o);
      if Get(s.redis.owners, m.claim) == Some(m.token) then s.(net := s.net.(creating := s.net.creating[o := OwnerSeen]))
      else s.(net := s.net.(creating := s.net.creating - {o}))
    case CreateReadRecord(o) =>
      var m := s.MessageOf(o);
      if m.token in s.redis.records && s.redis.records[m.token].order == Some(o)
      then s.(net := s.net.(creating := s.net.creating[o := BoundSeen]))
      else s.(net := s.net.(creating := s.net.creating - {o}))
    case CreateCommit(o, now, timeout) =>
      var done := s.(net := s.net.(creating := s.net.creating - {o}));
      (match CreateWrites(s.db, s.MessageOf(o), now, timeout)
       case Err => done
       case Ok(d) => done.(db := d))
    case CreateAbort(o) => s.(net := s.net.(creating := s.net.creating - {o}))
    case Cancel(o) =>
      (match CancelTx(s.db, s.MessageOf(o))
       case Err => s
       case Ok((d, outcome)) =>
         if outcome == CREATED then s.(db := d)
         else s.(db := d, net := s.net.(permits := s.net.permits + {(o, outcome == CANCELLED_KEEP_QUALIFICATION)})))
    case ReleaseBound(o, keep) =>
      var m := s.MessageOf(o);
      s.(redis := ReleaseScript(s.redis, m.claim, m.token, Some(o), keep).0)
    case ReleaseUnbound(t) => s.(redis := ReleaseScript(s.redis, s.net.issued[t], t, None, false).0)
    case Complete(o) => s.(redis := CompleteScript(s.redis, s.net.tokenOf[o], o))
    case Defer(t, now) => s.(redis := DeferScript(s.redis, t, now))
    case Pay(o, version, now) => s.(db := PayUpdate(s.db, o, version, now).0)
    case Close(o, version, now) =>
      (match CloseTx(s.db, o, version, now)
       case Err => s
       case Ok((d, _)) => s.(db := d))
    case CloseRelease(o) =>
      var row := s.db.releases[o];
      s.(redis := CloseReleaseScript(s.redis, row.claim, row.token, o).0)
    case MarkReleased(o) => s.(db := CompleteRelease(s.db, o))
    case DeferReleaseRow(o, now) => s.(db := DeferRelease(s.db, o, now))
  }

  /** A step nobody can perform changes nothing, so any list of steps is a schedule. */
  function Apply(s: State, step: Step): State {
    if Enabled(s, step) then Effect(s, step) else s
  }

  function Exec(s: State, steps: seq<Step>): State
    decreases |steps|
  {
    if steps == [] then s else Apply(Exec(s, steps[..|steps| - 1]), steps[|steps| - 1])
  }

  /** Vouchers with `units` units each, just preheated; nothing reserved or ordered yet. */
  ghost predicate Fresh(s: State, units: map<VoucherId, nat>) {
    && (forall v :: v in units ==> v > 0 && units[v] <= MAX_STOCK)
    && s.redis.stock == units && s.db.stock == units
    && s.redis.users == (map v | v in units :: {SENTINEL})
    && s.redis.meta.Keys == units.Keys
    && s.redis.owners == map[] && s.redis.records == map[] && s.redis.pending == map[] && s.redis.closed == {}
    && s.db.orders == map[] && s.db.deliveries == map[] && s.db.releases == map[]
    && s.net == Net(map[], map[], map[], {}, {}, map[], {})
  }

  lemma ExecOne(s: State, steps: seq<Step>, step: Step)
    ensures Exec(s, steps + [step]) == Apply(Exec(s, steps), step)
  {
    hide Apply;
    assert (steps + [step])[..|steps|] == steps;
  }

  /** Running one schedule after another. */
  lemma {:induction false} ExecAppend(s: State, a: seq<Step>, b: seq<Step>)
    ensures Exec(s, a + b) == Exec(Exec(s, a), b)
    decreases |b|
  {
    if b == [] {
      assert a + b == a;
    } else {
      var last := |b| - 1;
      assert (a + b)[..|a + b| - 1] == a + b[..last];
      ExecAppend(s, a, b[..last]);
    }
  }
}
