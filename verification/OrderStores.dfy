/** The three stores as the services see them: Redis keys and MySQL tables that scripts and
    statements update in place, with other clients running between any two calls, and calls
    whose request or reply is lost. */
module OrderStores {
  import opened Common
  import opened OrderModel
  import opened OrderInvariant
  import opened OrderPreservation
  import opened OrderGrowth

  class Stores {
    // Redis
    var redisStock: map<VoucherId, int>
    var users: map<VoucherId, set<UserId>>
    var meta: map<VoucherId, SaleWindow>
    var owners: map<Claim, Token>
    var records: map<Token, Record>
    var pending: map<Token, Millis>
    var closed: set<OrderId>
    // MySQL
    var mysqlStock: map<VoucherId, int>
    var orders: map<OrderId, Order>
    var deliveries: map<OrderId, Delivery>
    var releases: map<OrderId, Release>
    // clients and broker
    var net: Net
    /** The reservation and the open transaction of the calling thread, which nobody else can act for. */
    var ownToken: Option<Token>
    var ownTx: Option<OrderId>
    /** What is still to come from the outside. When it is used up, calls are undisturbed. */
    var tape: seq<Disturbance<Step>>

    ghost const start: State
    ghost const units: map<VoucherId, nat>
    ghost var trace: seq<Step>

    function RedisNow(): Redis
      reads this
    {
      Redis(redisStock, users, meta, owners, records, pending, closed)
    }

    function DatabaseNow(): Database
      reads this
    {
      Database(mysqlStock, orders, deliveries, releases)
    }

    function Now(): State
      reads this
    {
      State(RedisNow(), DatabaseNow(), net)
    }

    /** The stores are where the schedule performed so far has brought them. */
    ghost predicate Valid()
      reads this
    {
      Fresh(start, units) && Now() == Exec(start, trace)
    }

    constructor (s: State, ghost units: map<VoucherId, nat>, tape: seq<Disturbance<Step>>)
      requires Fresh(s, units)
      ensures Valid() && Now() == s && this.units == units && this.tape == tape && trace == []
    {
      redisStock, users, meta, owners := s.redis.stock, s.redis.users, s.redis.meta, s.redis.owners;
      records, pending, closed := s.redis.records, s.redis.pending, s.redis.closed;
      mysqlStock, orders, deliveries, releases := s.db.stock, s.db.orders, s.db.deliveries, s.db.releases;
      net, ownToken, ownTx := s.net, None, None;
      start, trace := s, [];
      this.units, this.tape := units, tape;
    }

    method LoadRedis(r: Redis)
      modifies `redisStock, `users, `meta, `owners, `records, `pending, `closed
      ensures RedisNow() == r
    {
      redisStock, users, meta, owners := r.stock, r.users, r.meta, r.owners;
      records, pending, closed := r.records, r.pending, r.closed;
    }

    method LoadDatabase(d: Database)
      modifies `mysqlStock, `orders, `deliveries, `releases
      ensures DatabaseNow() == d
    {
      mysqlStock, orders, deliveries, releases := d.stock, d.orders, d.deliveries, d.releases;
    }

    /** Some other client performs one step. */
    method Other(step: Step)
      requires Valid()
      modifies this
      ensures Valid() && trace == old(trace) + [step] && Now() == Apply(old(Now()), step) && unchanged(`tape, `ownToken, `ownTx)
    {
      hide Fresh, Apply, Exec;
      ExecOne(start, trace, step);
      var s := Apply(Now(), step);
      LoadRedis(s.redis);
      LoadDatabase(s.db);
      net, trace := s.net, trace + [step];
    }

    /** Others only add knowledge, and nobody acts for the calling thread. */
    lemma OtherStep(before: State, s: State, step: Step)
      requires Inv(s, units) && Grows(before, s) && OwnSame(before, s, ownToken, ownTx)
      requires !Impersonates(s, step, ownToken, ownTx)
      ensures Grows(before, Apply(s, step)) && OwnSame(before, Apply(s, step), ownToken, ownTx)
    {
      hide Inv, Apply, Grows, Impersonates, OwnSame;
      StepGrows(s, units, step);
      GrowsTrans(before, s, Apply(s, step));
      OthersLeaveOwn(s, step, ownToken, ownTx);
      OwnTrans(before, s, Apply(s, step), ownToken, ownTx);
    }

    lemma ValidInv()
      requires Valid()
      ensures Inv(Now(), units)
    {
      hide Inv, Fresh, Exec;
      InitInv(start, units);
      ExecKeeps(start, units, trace);
    }

    /** Other clients run the steps they can run. */
    method Others(steps: seq<Step>)
      requires Valid()
      modifies this
      ensures Valid() && unchanged(`tape, `ownToken, `ownTx)
      ensures old(trace) <= trace && Grows(old(Now()), Now()) && OwnSame(old(Now()), Now(), ownToken, ownTx)
      ensures ownToken.None? && ownTx.None? ==> Now() == Exec(old(Now()), steps)
      ensures steps == [] ==> trace == old(trace) && Now() == old(Now())
    {
      assert Grows(Now(), Now()) && Now() == Exec(Now(), []);
      assert OwnSame(Now(), Now(), ownToken, ownTx);
      hide Valid, Grows, Apply, Inv, Impersonates, OwnSame, Now, Exec;
      for i := 0 to |steps|
        invariant Valid() && unchanged(`tape, `ownToken, `ownTx)
        invariant old(trace) <= trace && Grows(old(Now()), Now()) && OwnSame(old(Now()), Now(), ownToken, ownTx)
        invariant i == 0 ==> trace == old(trace) && Now() == old(Now())
        invariant ownToken.None? && ownTx.None? ==> Now() == Exec(old(Now()), steps[..i])
      {
        assert steps[..i + 1] == steps[..i] + [steps[i]];
        ExecOne(old(Now()), steps[..i], steps[i]);
        NobodysOwn(Now(), steps[i]);
        if !Impersonates(Now(), steps[i], ownToken, ownTx) {
          ValidInv();
          OtherStep(old(Now()), Now(), steps[i]);
          Other(steps[i]);
        }
      }
      assert steps[..|steps|] == steps;
    }

    static lemma NobodysOwn(s: State, step: Step)
      ensures !Impersonates(s, step, None, None)
    {
    }

    /** What comes before a remote call, and what will become of the call. */
    method Disturb() returns (f: Fault)
      requires Valid()
      modifies this
      ensures Valid() && unchanged(`ownToken, `ownTx)
      ensures old(trace) <= trace && Grows(old(Now()), Now()) && OwnSame(old(Now()), Now(), ownToken, ownTx)
      ensures f == FirstFault(old(tape)) && tape == Rest(old(tape))
      ensures old(tape) == [] ==> f == Fine && tape == []
      ensures Unaccompanied(old(tape)) ==> trace == old(trace) && Now() == old(Now())
    {
      assert Grows(Now(), Now());
      if tape == [] {
        return Fine;
      }
      var d := tape[0];
      tape := tape[1..];
      hide Valid, Grows;
      Others(d.others);
      return d.fault;
    }

    // ----------------------------------------------------------- scripts

    /** seckill.lua */
    method SeckillLua(c: Claim, t: Token, now: Millis) returns (code: int)
      modifies `redisStock, `users, `owners, `records, `pending
      ensures (RedisNow(), code) == SeckillScript(old(RedisNow()), c, t, now)
      ensures code != SUCCESS ==> RedisNow() == old(RedisNow())
    {
      if c.voucher !in redisStock || c.voucher !in meta || c.voucher !in users || users[c.voucher] == {} {
        return NOT_READY;
      }
      if now < meta[c.voucher].begin {
        return NOT_STARTED;
      }
      if now >= meta[c.voucher].end {
        return ENDED;
      }
      if redisStock[c.voucher] <= 0 {
        return OUT_OF_STOCK;
      }
      if c.user in users[c.voucher] {
        return DUPLICATE_ORDER;
      }
      redisStock := redisStock[c.voucher := redisStock[c.voucher] - 1];
      users := users[c.voucher := users[c.voucher] + {c.user}];
      owners := owners[c := t];
      records := records[t := Record(c, None)];
      pending := pending[t := now];
      return SUCCESS;
    }

    /** reservation_bind.lua */
    method BindLua(c: Claim, t: Token, o: OrderId) returns (code: int)
      modifies `records
      ensures (RedisNow(), code) == BindScript(old(RedisNow()), c, t, o)
    {
      if c !in owners || owners[c] != t {
        return 0;
      }
      if t !in records {
        return 0;
      }
      records := records[t := records[t].(order := Some(o))];
      return 1;
    }

    /** reservation_release.lua */
    method ReleaseLua(c: Claim, t: Token, o: Option<OrderId>, keep: bool) returns (code: int)
      modifies `redisStock, `users, `owners, `records, `pending
      ensures (RedisNow(), code) == ReleaseScript(old(RedisNow()), c, t, o, keep)
    {
      if t !in records {
        return 0;
      }
      if records[t].claim != c {
        return -1;
      }
      if c !in owners {
        return -1;
      }
      if c.voucher !in redisStock || c.voucher !in users || users[c.voucher] == {} || pending == map[] {
        return -1;
      }
      if records[t].order != o {
        return 0;
      }
      if owners[c] == t {
        redisStock := redisStock[c.voucher := redisStock[c.voucher] + 1];
        if !keep {
          users := users[c.voucher := users[c.voucher] - {c.user}];
        }
        owners := owners - {c};
      }
      records := records - {t};
      pending := pending - {t};
      return 1;
    }

    /** reservation_complete.lua */
    method CompleteLua(t: Token, o: OrderId)
      modifies `records, `pending
      ensures RedisNow() == CompleteScript(old(RedisNow()), t, o)
    {
      if t in records && records[t].order == Some(o) {
        records := records - {t};
        pending := pending - {t};
      }
    }

    /** reservation_defer.lua */
    method DeferLua(t: Token, now: Millis)
      modifies `pending
      ensures RedisNow() == DeferScript(old(RedisNow()), t, now)
    {
      if t in pending {
        pending := pending[t := now];
      }
    }

    /** order_close_release.lua */
    method CloseReleaseLua(c: Claim, t: Option<Token>, o: OrderId) returns (code: int)
      modifies `redisStock, `users, `owners, `closed
      ensures (RedisNow(), code) == CloseReleaseScript(old(RedisNow()), c, t, o)
    {
      if o in closed {
        return 0;
      }
      if c.voucher !in redisStock || c.voucher !in users || users[c.voucher] == {} {
        return -1;
      }
      var stock := redisStock[c.voucher];
      if stock < 0 || stock >= MAX_STOCK {
        return -1;
      }
      var owner := Get(owners, c);
      if owner != t || c.user !in users[c.voucher] {
        return -1;
      }
      redisStock := redisStock[c.voucher := stock + 1];
      users := users[c.voucher := users[c.voucher] - {c.user}];
      owners := owners - {c};
      closed := closed + {o};
      return 1;
    }

    // -------------------------------------------------------- transactions

    /** The writes of `create`; an exception rolls all of them back. */
    method InsertOrder(m: Message, now: Millis, timeout: Millis) returns (ok: bool)
      requires m.order.Some?
      modifies `mysqlStock, `orders, `deliveries
      ensures ok == CreateWrites(old(DatabaseNow()), m, now, timeout).Ok?
      ensures DatabaseNow() == if ok then CreateWrites(old(DatabaseNow()), m, now, timeout).value else old(DatabaseNow())
    {
      var o, v := m.order.value, m.claim.voucher;
      if v !in mysqlStock || mysqlStock[v] <= 0 {
        return false;
      }
      var before := mysqlStock;
      mysqlStock := mysqlStock[v := mysqlStock[v] - 1];
      if timeout <= 0 || o in orders || exists p | p in orders :: orders[p].claim == m.claim && orders[p].status != Closed {
        mysqlStock := before;
        return false;
      }
      orders := orders[o := Order(m.claim, Pending, 0, now + timeout)];
      deliveries := deliveries[o := Delivery(m.claim, m.token, Created)];
      return true;
    }

    /** The statements of `cancel`; every exception comes before the first write. */
    method CancelDelivery(m: Message) returns (r: Result<Outcome>)
      requires m.order.Some?
      modifies `deliveries
      ensures r.Ok? == CancelTx(old(DatabaseNow()), m).Ok?
      ensures r.Ok? ==> (DatabaseNow(), r.value) == CancelTx(old(DatabaseNow()), m).value
      ensures r.Err? ==> DatabaseNow() == old(DatabaseNow())
    {
      var o := m.order.value;
      if !m.Valid() {
        return Err;
      }
      var row := if o in deliveries then deliveries[o] else Delivery(m.claim, m.token, Open);
      if row.claim != m.claim || row.token != m.token {
        return Err;
      }
      if o in orders {
        if orders[o].claim != m.claim {
          return Err;
        }
        deliveries := deliveries[o := row.(state := Created)];
        return Ok(CREATED);
      }
      if row.state == Created {
        return Err;
      }
      deliveries := deliveries[o := row.(state := Cancelled)];
      var otherOrder := exists p | p in orders :: orders[p].claim == m.claim && orders[p].status != Closed;
      return Ok(if otherOrder then CANCELLED_KEEP_QUALIFICATION else CANCELLED);
    }

    /** The conditional update of `simulatePay`. */
    method UpdatePaid(o: OrderId, version: int, now: Millis) returns (changed: bool)
      modifies `orders
      ensures (DatabaseNow(), changed) == PayUpdate(old(DatabaseNow()), o, version, now)
    {
      if o !in orders || orders[o].status != Pending || orders[o].version != version || orders[o].expire <= now {
        return false;
      }
      orders := orders[o := orders[o].(status := Paid, version := orders[o].version + 1)];
      return true;
    }

    /** `close` from its conditional update on; an exception rolls all writes back. */
    method CloseOrder(o: OrderId, version: int, now: Millis) returns (r: Result<bool>)
      modifies `mysqlStock, `orders, `releases
      ensures r.Ok? == CloseTx(old(DatabaseNow()), o, version, now).Ok?
      ensures r.Ok? ==> (DatabaseNow(), r.value) == CloseTx(old(DatabaseNow()), o, version, now).value
      ensures r.Err? ==> DatabaseNow() == old(DatabaseNow())
    {
      if o !in orders || orders[o].status != Pending || orders[o].version != version || orders[o].expire > now {
        return Ok(false);
      }
      var ordersBefore, stockBefore, v := orders, mysqlStock, orders[o].claim.voucher;
      orders := orders[o := orders[o].(status := Closed, version := orders[o].version + 1)];
      if v !in mysqlStock {
        orders := ordersBefore;
        return Err;
      }
      mysqlStock := mysqlStock[v := mysqlStock[v] + 1];
      if o in releases {
        orders, mysqlStock := ordersBefore, stockBefore;
        return Err;
      }
      var token := if o in deliveries then Some(deliveries[o].token) else None;
      releases := releases[o := Release(orders[o].claim, token, false, now)];
      return Ok(true);
    }

    /** OrderStockReleaseMapper.complete */
    method SetReleaseCompleted(o: OrderId)
      modifies `releases
      ensures DatabaseNow() == CompleteRelease(old(DatabaseNow()), o)
    {
      if o in releases {
        releases := releases[o := releases[o].(completed := true)];
      }
    }

    /** OrderStockReleaseMapper.defer */
    method SetReleaseRetry(o: OrderId, at: Millis)
      modifies `releases
      ensures DatabaseNow() == DeferRelease(old(DatabaseNow()), o, at)
    {
      if o in releases && !releases[o].completed {
        releases := releases[o := releases[o].(retryAt := at)];
      }
    }

    // --------------------------------------------- steps of the calling thread

    /** Redis executes seckill.lua for a fresh token. */
    method RunSeckill(c: Claim, t: Token, now: Millis) returns (code: int)
      requires Valid() && Enabled(Now(), Reserve(t, c, now))
      modifies this
      ensures Valid() && trace == old(trace) + [Reserve(t, c, now)] && unchanged(`tape, `ownToken, `ownTx)
      ensures Now() == Apply(old(Now()), Reserve(t, c, now)) && Grows(old(Now()), Now())
      ensures code == SeckillScript(old(RedisNow()), c, t, now).1
    {
      hide Fresh, Exec, SeckillScript, Grows, Inv;
      ValidInv();
      StepGrows(Now(), units, Reserve(t, c, now));
      ExecOne(start, trace, Reserve(t, c, now));
      trace := trace + [Reserve(t, c, now)];
      code := SeckillLua(c, t, now);
      if code == SUCCESS {
        net := net.(issued := net.issued[t := c]);
      }
    }

    /** An order id that was never drawn before is drawn for the token. */
    method Draw(t: Token, o: OrderId)
      requires Valid() && Enabled(Now(), Allocate(t, o))
      modifies this
      ensures Valid() && trace == old(trace) + [Allocate(t, o)] && unchanged(`tape, `ownToken, `ownTx)
      ensures Now() == Apply(old(Now()), Allocate(t, o)) && Grows(old(Now()), Now())
    {
      hide Fresh, Exec, Grows, Inv;
      ValidInv();
      StepGrows(Now(), units, Allocate(t, o));
      ExecOne(start, trace, Allocate(t, o));
      trace := trace + [Allocate(t, o)];
      net := net.(alloc := net.alloc[t := o], tokenOf := net.tokenOf[o := t]);
    }

    /** Redis executes reservation_bind.lua. */
    method RunBind(o: OrderId) returns (code: int)
      requires Valid() && Enabled(Now(), Bind(o))
      modifies this
      ensures Valid() && trace == old(trace) + [Bind(o)] && unchanged(`tape, `ownToken, `ownTx)
      ensures Now() == Apply(old(Now()), Bind(o)) && Grows(old(Now()), Now())
      ensures code == BindScript(old(RedisNow()), old(Now()).MessageOf(o).claim, old(Now()).MessageOf(o).token, o).1
      ensures code == 1 ==> o in net.bound
    {
      hide Fresh, Exec, Grows, Inv;
      ValidInv();
      StepGrows(Now(), units, Bind(o));
      ExecOne(start, trace, Bind(o));
      trace := trace + [Bind(o)];
      code := BindLua(net.issued[net.tokenOf[o]], net.tokenOf[o], o);
      if code == 1 {
        net := net.(bound := net.bound + {o});
      }
    }

    /** The broker takes the message. */
    method Send(o: OrderId)
      requires Valid() && Enabled(Now(), Publish(o))
      modifies this
      ensures Valid() && trace == old(trace) + [Publish(o)] && unchanged(`tape, `ownToken, `ownTx)
      ensures Now() == Apply(old(Now()), Publish(o)) && Grows(old(Now()), Now())
      ensures o in net.sent
    {
      hide Fresh, Exec, Grows, Inv;
      ValidInv();
      StepGrows(Now(), units, Publish(o));
      ExecOne(start, trace, Publish(o));
      trace := trace + [Publish(o)];
      net := net.(sent := net.sent + {o});
    }

    /** The delivery row is inserted if missing and locked; a final state ends the transaction at once. */
    method LockDelivery(o: OrderId) returns (state: Result<DeliveryState>)
      requires Valid() && Enabled(Now(), CreateLock(o))
      modifies this
      ensures Valid() && trace == old(trace) + [CreateLock(o)] && unchanged(`tape, `ownToken, `ownTx)
      ensures Now() == Apply(old(Now()), CreateLock(o)) && Grows(old(Now()), Now())
      ensures state == (match LockRow(old(DatabaseNow()), old(Now()).MessageOf(o)) case Err => Err case Ok(row) => Ok(row.state))
      ensures state == Ok(Open) ==> Get(net.creating, o) == Some(Locked)
    {
      hide Fresh, Exec, Grows, Inv;
      ValidInv();
      StepGrows(Now(), units, CreateLock(o));
      ExecOne(start, trace, CreateLock(o));
      trace := trace + [CreateLock(o)];
      var row := LockRow(DatabaseNow(), Now().MessageOf(o));
      if row.Err? {
        return Err;
      }
      if row.value.state == Open {
        net := net.(creating := net.creating[o := Locked]);
      }
      return Ok(row.value.state);
    }

    /** First read of `isBound`; a wrong owner rolls the transaction back. */
    method SeeOwner(o: OrderId) returns (ok: bool)
      requires Valid() && Enabled(Now(), CreateReadOwner(o))
      modifies this
      ensures Valid() && trace == old(trace) + [CreateReadOwner(o)] && unchanged(`tape, `ownToken, `ownTx)
      ensures Now() == Apply(old(Now()), CreateReadOwner(o)) && Grows(old(Now()), Now())
      ensures ok == (Get(old(owners), old(Now()).MessageOf(o).claim) == Some(net.tokenOf[o]))
      ensures Get(net.creating, o) == if ok then Some(OwnerSeen) else None
    {
      hide Fresh, Exec, Grows, Inv;
      ValidInv();
      StepGrows(Now(), units, CreateReadOwner(o));
      ExecOne(start, trace, CreateReadOwner(o));
      trace := trace + [CreateReadOwner(o)];
      ok := Get(owners, net.issued[net.tokenOf[o]]) == Some(net.tokenOf[o]);
      net := net.(creating := if ok then net.creating[o := OwnerSeen] else net.creating - {o});
    }

    /** Second read of `isBound`; a wrong order id rolls the transaction back. */
    method SeeRecord(o: OrderId) returns (ok: bool)
      requires Valid() && Enabled(Now(), CreateReadRecord(o))
      modifies this
      ensures Valid() && trace == old(trace) + [CreateReadRecord(o)] && unchanged(`tape, `ownToken, `ownTx)
      ensures Now() == Apply(old(Now()), CreateReadRecord(o)) && Grows(old(Now()), Now())
      ensures ok == (net.tokenOf[o] in old(records) && old(records)[net.tokenOf[o]].order == Some(o))
      ensures Get(net.creating, o) == if ok then Some(BoundSeen) else None
    {
      hide Fresh, Exec, Grows, Inv;
      ValidInv();
      StepGrows(Now(), units, CreateReadRecord(o));
      ExecOne(start, trace, CreateReadRecord(o));
      trace := trace + [CreateReadRecord(o)];
      ok := net.tokenOf[o] in records && records[net.tokenOf[o]].order == Some(o);
      net := net.(creating := if ok then net.creating[o := BoundSeen] else net.creating - {o});
    }

    /** Stock, order and delivery row are written and committed. */
    method CommitOrder(o: OrderId, now: Millis, timeout: Millis) returns (ok: bool)
      requires Valid() && Enabled(Now(), CreateCommit(o, now, timeout))
      modifies this
      ensures Valid() && trace == old(trace) + [CreateCommit(o, now, timeout)] && unchanged(`tape, `ownToken, `ownTx)
      ensures Now() == Apply(old(Now()), CreateCommit(o, now, timeout)) && Grows(old(Now()), Now())
      ensures ok == CreateWrites(old(DatabaseNow()), old(Now()).MessageOf(o), now, timeout).Ok?
      ensures ok ==> o in deliveries && deliveries[o].state == Created && o in orders
      ensures o !in net.creating
    {
      hide Fresh, Exec, Grows, Inv;
      ValidInv();
      StepGrows(Now(), units, CreateCommit(o, now, timeout));
      ExecOne(start, trace, CreateCommit(o, now, timeout));
      trace := trace + [CreateCommit(o, now, timeout)];
      ok := InsertOrder(Now().MessageOf(o), now, timeout);
      net := net.(creating := net.creating - {o});
    }

    /** The open transaction is rolled back. */
    method Rollback(o: OrderId)
      requires Valid() && Enabled(Now(), CreateAbort(o))
      modifies this
      ensures Valid() && trace == old(trace) + [CreateAbort(o)] && unchanged(`tape, `ownToken, `ownTx)
      ensures Now() == Apply(old(Now()), CreateAbort(o)) && Grows(old(Now()), Now())
      ensures o !in net.creating
    {
      hide Fresh, Exec, Grows, Inv;
      ValidInv();
      StepGrows(Now(), units, CreateAbort(o));
      ExecOne(start, trace, CreateAbort(o));
      trace := trace + [CreateAbort(o)];
      net := net.(creating := net.creating - {o});
    }

    /** The cancelling transaction runs and commits. */
    method CommitCancel(o: OrderId) returns (r: Result<Outcome>)
      requires Valid() && Enabled(Now(), Cancel(o))
      modifies this
      ensures Valid() && trace == old(trace) + [Cancel(o)] && unchanged(`tape, `ownToken, `ownTx)
      ensures Now() == Apply(old(Now()), Cancel(o)) && Grows(old(Now()), Now())
      ensures RedisNow() == old(RedisNow())
      ensures r == (match CancelTx(old(DatabaseNow()), old(Now()).MessageOf(o)) case Err => Err case Ok(p) => Ok(p.1))
      ensures r == Ok(CREATED) ==> o in deliveries && deliveries[o].state == Created && o in orders
      ensures r.Ok? && r.value != CREATED ==> o in deliveries && deliveries[o].state == Cancelled && (o, r.value == CANCELLED_KEEP_QUALIFICATION) in net.permits
    {
      hide Fresh, Exec, Grows, Inv;
      ValidInv();
      StepGrows(Now(), units, Cancel(o));
      ExecOne(start, trace, Cancel(o));
      trace := trace + [Cancel(o)];
      r := CancelDelivery(Now().MessageOf(o));
      if r.Ok? && r.value != CREATED {
        net := net.(permits := net.permits + {(o, r.value == CANCELLED_KEEP_QUALIFICATION)});
      }
    }

    /** Redis executes reservation_release.lua after a committed cancellation. */
    method RunRelease(o: OrderId, keep: bool) returns (code: int)
      requires Valid() && Enabled(Now(), ReleaseBound(o, keep))
      modifies this
      ensures Valid() && trace == old(trace) + [ReleaseBound(o, keep)] && unchanged(`tape, `ownToken, `ownTx)
      ensures Now() == Apply(old(Now()), ReleaseBound(o, keep)) && Grows(old(Now()), Now())
      ensures code == ReleaseScript(old(RedisNow()), net.issued[net.tokenOf[o]], net.tokenOf[o], Some(o), keep).1
    {
      hide Fresh, Exec, ReleaseScript, Grows, Inv;
      ValidInv();
      StepGrows(Now(), units, ReleaseBound(o, keep));
      ExecOne(start, trace, ReleaseBound(o, keep));
      trace := trace + [ReleaseBound(o, keep)];
      code := ReleaseLua(net.issued[net.tokenOf[o]], net.tokenOf[o], Some(o), keep);
    }

    /** Redis executes reservation_release.lua for a reservation that must be unbound. */
    method RunReleaseUnbound(t: Token) returns (code: int)
      requires Valid() && Enabled(Now(), ReleaseUnbound(t))
      modifies this
      ensures Valid() && trace == old(trace) + [ReleaseUnbound(t)] && unchanged(`tape, `ownToken, `ownTx)
      ensures Now() == Apply(old(Now()), ReleaseUnbound(t)) && Grows(old(Now()), Now())
      ensures code == ReleaseScript(old(RedisNow()), net.issued[t], t, None, false).1
    {
      hide Fresh, Exec, ReleaseScript, Grows, Inv;
      ValidInv();
      StepGrows(Now(), units, ReleaseUnbound(t));
      ExecOne(start, trace, ReleaseUnbound(t));
      trace := trace + [ReleaseUnbound(t)];
      code := ReleaseLua(net.issued[t], t, None, false);
    }

    /** Redis executes reservation_complete.lua after a committed order. */
    method RunComplete(o: OrderId)
      requires Valid() && Enabled(Now(), Complete(o))
      modifies this
      ensures Valid() && trace == old(trace) + [Complete(o)] && unchanged(`tape, `ownToken, `ownTx)
      ensures Now() == Apply(old(Now()), Complete(o)) && Grows(old(Now()), Now())
    {
      hide Fresh, Exec, CompleteScript, Grows, Inv;
      ValidInv();
      StepGrows(Now(), units, Complete(o));
      ExecOne(start, trace, Complete(o));
      trace := trace + [Complete(o)];
      CompleteLua(net.tokenOf[o], o);
    }

    /** Redis executes reservation_defer.lua. */
    method RunDefer(t: Token, now: Millis)
      requires Valid() && Enabled(Now(), Defer(t, now))
      modifies this
      ensures Valid() && trace == old(trace) + [Defer(t, now)] && unchanged(`tape, `ownToken, `ownTx)
      ensures Now() == Apply(old(Now()), Defer(t, now)) && Grows(old(Now()), Now())
    {
      hide Fresh, Exec, DeferScript, Grows, Inv;
      ValidInv();
      StepGrows(Now(), units, Defer(t, now));
      ExecOne(start, trace, Defer(t, now));
      trace := trace + [Defer(t, now)];
      DeferLua(t, now);
    }

    /** The conditional update of `simulatePay` commits. */
    method CommitPaid(o: OrderId, version: int, now: Millis) returns (changed: bool)
      requires Valid() && Enabled(Now(), Pay(o, version, now))
      modifies this
      ensures Valid() && trace == old(trace) + [Pay(o, version, now)] && unchanged(`tape, `ownToken, `ownTx)
      ensures Now() == Apply(old(Now()), Pay(o, version, now)) && Grows(old(Now()), Now())
      ensures changed == PayUpdate(old(DatabaseNow()), o, version, now).1
    {
      hide Fresh, Exec, Grows, Inv;
      ValidInv();
      StepGrows(Now(), units, Pay(o, version, now));
      ExecOne(start, trace, Pay(o, version, now));
      trace := trace + [Pay(o, version, now)];
      changed := UpdatePaid(o, version, now);
    }

    /** The closing transaction commits or is rolled back. */
    method CommitClose(o: OrderId, version: int, now: Millis) returns (r: Result<bool>)
      requires Valid() && Enabled(Now(), Close(o, version, now))
      modifies this
      ensures Valid() && trace == old(trace) + [Close(o, version, now)] && unchanged(`tape, `ownToken, `ownTx)
      ensures Now() == Apply(old(Now()), Close(o, version, now)) && Grows(old(Now()), Now())
      ensures r == (match CloseTx(old(DatabaseNow()), o, version, now) case Err => Err case Ok(p) => Ok(p.1))
    {
      hide Fresh, Exec, CloseTx, Grows, Inv;
      ValidInv();
      StepGrows(Now(), units, Close(o, version, now));
      ExecOne(start, trace, Close(o, version, now));
      trace := trace + [Close(o, version, now)];
      r := CloseOrder(o, version, now);
    }

    /** Redis executes order_close_release.lua. */
    method RunCloseRelease(o: OrderId) returns (code: int)
      requires Valid() && Enabled(Now(), CloseRelease(o))
      modifies this
      ensures Valid() && trace == old(trace) + [CloseRelease(o)] && unchanged(`tape, `ownToken, `ownTx)
      ensures Now() == Apply(old(Now()), CloseRelease(o)) && Grows(old(Now()), Now())
      ensures code == CloseReleaseScript(old(RedisNow()), old(releases)[o].claim, old(releases)[o].token, o).1
      ensures code >= 0 ==> o in closed
    {
      hide Fresh, Exec, Grows, Inv;
      ValidInv();
      StepGrows(Now(), units, CloseRelease(o));
      ExecOne(start, trace, CloseRelease(o));
      trace := trace + [CloseRelease(o)];
      code := CloseReleaseLua(releases[o].claim, releases[o].token, o);
    }

    /** The release row is marked completed. */
    method CommitReleaseDone(o: OrderId)
      requires Valid() && Enabled(Now(), MarkReleased(o))
      modifies this
      ensures Valid() && trace == old(trace) + [MarkReleased(o)] && unchanged(`tape, `ownToken, `ownTx)
      ensures Now() == Apply(old(Now()), MarkReleased(o)) && Grows(old(Now()), Now())
      ensures o in releases ==> releases[o].completed
    {
      hide Fresh, Exec, Grows, Inv;
      ValidInv();
      StepGrows(Now(), units, MarkReleased(o));
      ExecOne(start, trace, MarkReleased(o));
      trace := trace + [MarkReleased(o)];
      SetReleaseCompleted(o);
    }

    /** The release row is put back for a later try. */
    method CommitReleaseRetry(o: OrderId, at: Millis)
      requires Valid() && Enabled(Now(), DeferReleaseRow(o, at))
      modifies this
      ensures Valid() && trace == old(trace) + [DeferReleaseRow(o, at)] && unchanged(`tape, `ownToken, `ownTx)
      ensures Now() == Apply(old(Now()), DeferReleaseRow(o, at)) && Grows(old(Now()), Now())
    {
      hide Fresh, Exec, Grows, Inv;
      ValidInv();
      StepGrows(Now(), units, DeferReleaseRow(o, at));
      ExecOne(start, trace, DeferReleaseRow(o, at));
      trace := trace + [DeferReleaseRow(o, at)];
      SetReleaseRetry(o, at);
    }
  }
}
