/** What the scripts and the statement groups of the order path answer, and which keys and rows they change, said without
    their bodies: every answer by its own condition, every change key by key. */
module OrderScripts {
  import opened Common
  import opened OrderModel
  import opened OrderInvariant

  // ---------------------------------------------------------------- selling

  /** Stock, sale window and qualification set of the voucher are preheated. */
  predicate Preheated(r: Redis, v: VoucherId) {
    v in r.stock && v in r.meta && v in r.users && r.users[v] != {}
  }

  /** The sale is open from its begin on and closed from its end on. */
  predicate OnSale(meta: map<VoucherId, SaleWindow>, v: VoucherId, now: Millis) {
    v in meta && meta[v].begin <= now && now < meta[v].end
  }

  /** Each answer of seckill.lua has its own condition, in this order, and only success changes anything: one unit less,
      the user qualified, the claim owned by the token, a record without an order and an entry on the recovery index. */
  lemma ReserveAnswers(r: Redis, c: Claim, t: Token, now: Millis)
    ensures var (r', code) := SeckillScript(r, c, t, now);
      var ready, v := Preheated(r, c.voucher), c.voucher;
      && (code == 3 <==> !ready)
      && (code == 4 <==> ready && now < r.meta[v].begin)
      && (code == 5 <==> ready && r.meta[v].begin <= now && r.meta[v].end <= now)
      && (code == 1 <==> ready && OnSale(r.meta, v, now) && r.stock[v] <= 0)
      && (code == 2 <==> ready && OnSale(r.meta, v, now) && r.stock[v] > 0 && c.user in r.users[v])
      && (code == 0 <==> ready && OnSale(r.meta, v, now) && r.stock[v] > 0 && c.user !in r.users[v])
      && SUCCESS == 0 && OUT_OF_STOCK == 1 && DUPLICATE_ORDER == 2 && NOT_READY == 3 && NOT_STARTED == 4 && ENDED == 5
      && (code != 0 ==> r' == r)
      && (code == 0 ==>
            && SameOff(r.stock, r'.stock, v) && Get(r'.stock, v) == Some(r.stock[v] - 1)
            && SameOff(r.users, r'.users, v) && Get(r'.users, v) == Some(r.users[v] + {c.user})
            && SameOff(r.owners, r'.owners, c) && Get(r'.owners, c) == Some(t)
            && SameOff(r.records, r'.records, t) && Get(r'.records, t) == Some(Record(c, None))
            && SameOff(r.pending, r'.pending, t) && Get(r'.pending, t) == Some(now)
            && r'.meta == r.meta && r'.closed == r.closed)
  {
  }

  lemma MetaStays(s: State, step: Step)
    ensures Apply(s, step).redis.meta == s.redis.meta
  {
  }

  lemma {:induction false} MetaNeverChanges(start: State, steps: seq<Step>)
    ensures Exec(start, steps).redis.meta == start.redis.meta
    decreases |steps|
  {
    hide Apply;
    if steps != [] {
      MetaNeverChanges(start, steps[..|steps| - 1]);
      MetaStays(Exec(start, steps[..|steps| - 1]), steps[|steps| - 1]);
    }
  }

  /** Only a reservation while the sale is open adds a token. */
  lemma SoldBy(s: State, step: Step, t: Token)
    requires t !in s.net.issued && t in Apply(s, step).net.issued
    ensures step.Reserve? && step.token == t && OnSale(s.redis.meta, step.claim.voucher, step.now)
  {
  }

  /** After every schedule each reservation was made by a request within the sale window of its voucher. */
  lemma {:induction false} SalesInWindow(start: State, units: map<VoucherId, nat>, steps: seq<Step>, t: Token)
    requires Fresh(start, units) && t in Exec(start, steps).net.issued
    ensures exists i ::
      0 <= i < |steps| && steps[i].Reserve? && steps[i].token == t && OnSale(start.redis.meta, steps[i].claim.voucher, steps[i].now)
    decreases |steps|
  {
    hide Apply, OnSale;
    if steps != [] {
      var n := |steps| - 1;
      if t in Exec(start, steps[..n]).net.issued {
        SalesInWindow(start, units, steps[..n], t);
        var i :|
          0 <= i < n && steps[..n][i].Reserve? && steps[..n][i].token == t
          && OnSale(start.redis.meta, steps[..n][i].claim.voucher, steps[..n][i].now);
        assert steps[i] == steps[..n][i];
      } else {
        SoldBy(Exec(start, steps[..n]), steps[n], t);
        MetaNeverChanges(start, steps[..n]);
      }
    }
  }

  // ------------------------------------------------------------ giving back

  /** reservation_release.lua: a matching reservation always loses its record and its index entry; the unit, the claim
      and, unless it is to be kept, the qualification go back only if the reservation is still the current owner. */
  lemma ReleaseAnswers(r: Redis, c: Claim, t: Token, o: Option<OrderId>, keep: bool)
    ensures var (r', code) := ReleaseScript(r, c, t, o, keep);
      var v := c.voucher;
      var broken := t in r.records
        && (r.records[t].claim != c || c !in r.owners || v !in r.stock || v !in r.users || r.users[v] == {} || r.pending == map[]);
      && (code == -1 <==> broken)
      && (code == 1 <==> !broken && t in r.records && r.records[t].order == o)
      && (code == 0 <==> !broken && !(t in r.records && r.records[t].order == o))
      && (code != 1 ==> r' == r)
      && (code == 1 ==>
            && SameOff(r.records, r'.records, t) && t !in r'.records
            && SameOff(r.pending, r'.pending, t) && t !in r'.pending
            && r'.meta == r.meta && r'.closed == r.closed)
      && (code == 1 && r.owners[c] != t ==> r'.stock == r.stock && r'.users == r.users && r'.owners == r.owners)
      && (code == 1 && r.owners[c] == t ==>
            && SameOff(r.stock, r'.stock, v) && Get(r'.stock, v) == Some(r.stock[v] + 1)
            && SameOff(r.owners, r'.owners, c) && c !in r'.owners
            && SameOff(r.users, r'.users, v) && v in r'.users
            && r'.users[v] == if keep then r.users[v] else r.users[v] - {c.user})
  {
  }

  /** order_close_release.lua: the first call for an order that is all in place credits it, any later one is told so. */
  lemma CloseReleaseAnswers(r: Redis, c: Claim, t: Option<Token>, o: OrderId)
    ensures var (r', code) := CloseReleaseScript(r, c, t, o);
      var v := c.voucher;
      var whole := v in r.stock && v in r.users && 0 <= r.stock[v] < 2147483647 && Get(r.owners, c) == t && c.user in r.users[v];
      && (code == 0 <==> o in r.closed)
      && (code == 1 <==> o !in r.closed && whole)
      && (code == -1 <==> o !in r.closed && !whole)
      && (code != 1 ==> r' == r)
      && (code == 1 ==>
            && SameOff(r.stock, r'.stock, v) && Get(r'.stock, v) == Some(r.stock[v] + 1)
            && SameOff(r.users, r'.users, v) && Get(r'.users, v) == Some(r.users[v] - {c.user})
            && SameOff(r.owners, r'.owners, c) && c !in r'.owners
            && SameBut(r.closed, r'.closed, o) && o in r'.closed
            && r'.records == r.records && r'.pending == r.pending && r'.meta == r.meta)
      && (code == 1 ==> CloseReleaseScript(r', c, t, o) == (r', 0))
  {
  }

  /** reservation_bind.lua, reservation_complete.lua and reservation_defer.lua each touch one field of one entry. */
  lemma RecordAnswers(r: Redis, c: Claim, t: Token, o: OrderId, now: Millis)
    ensures var (b, code) := BindScript(r, c, t, o);
      && (code == 1 <==> Get(r.owners, c) == Some(t) && t in r.records) && (code == 0 <==> code != 1)
      && SameOff(r.records, b.records, t) && b == r.(records := b.records)
      && Get(b.records, t) == if code == 1 then Some(Record(r.records[t].claim, Some(o))) else Get(r.records, t)
    ensures var d := CompleteScript(r, t, o);
      var done := t in r.records && r.records[t].order == Some(o);
      && d == r.(records := d.records, pending := d.pending)
      && SameOff(r.records, d.records, t) && Get(d.records, t) == (if done then None else Get(r.records, t))
      && SameOff(r.pending, d.pending, t) && Get(d.pending, t) == (if done then None else Get(r.pending, t))
    ensures var p := DeferScript(r, t, now);
      && p == r.(pending := p.pending) && SameOff(r.pending, p.pending, t)
      && Get(p.pending, t) == if t in r.pending then Some(now) else None
  {
  }

  // --------------------------------------------------------------- tables

  /** A message needs positive ids of order, user and voucher, and the delivery row it locks has to name its reservation. */
  predicate RowFits(d: Database, m: Message) {
    && m.order.Some? && m.order.value > 0 && m.claim.user > 0 && m.claim.voucher > 0
    && (m.order.value in d.deliveries ==>
          d.deliveries[m.order.value].claim == m.claim && d.deliveries[m.order.value].token == m.token)
  }

  /** No unpaid or paid order of the same user for the same voucher. */
  ghost predicate NoneActive(d: Database, c: Claim) {
    forall o :: o in d.orders && d.orders[o].claim == c ==> d.orders[o].status == Closed
  }

  /** The writes of `create` need a unit, a payment period and a free place, and take exactly one unit for one new row. */
  lemma CreateAnswers(d: Database, m: Message, now: Millis, timeout: Millis)
    requires m.order.Some?
    ensures var o, v, r := m.order.value, m.claim.voucher, CreateWrites(d, m, now, timeout);
      && (r.Ok? <==> v in d.stock && d.stock[v] > 0 && timeout > 0 && o !in d.orders && NoneActive(d, m.claim))
      && (r.Ok? ==>
            var d' := r.value;
            && SameOff(d.stock, d'.stock, v) && Get(d'.stock, v) == Some(d.stock[v] - 1)
            && SameOff(d.orders, d'.orders, o) && Get(d'.orders, o) == Some(Order(m.claim, Pending, 0, now + timeout))
            && SameOff(d.deliveries, d'.deliveries, o) && Get(d'.deliveries, o) == Some(Delivery(m.claim, m.token, Created))
            && d'.releases == d.releases)
  {
  }

  /** `cancel` decides by the order row: CREATED if it is there, else the delivery is fenced, and the qualification kept
      exactly when the user has another order that is not closed. */
  lemma CancelAnswers(d: Database, m: Message)
    requires m.order.Some?
    ensures var o, r := m.order.value, CancelTx(d, m);
      && (r.Ok? <==>
            && RowFits(d, m)
            && (o in d.orders ==> d.orders[o].claim == m.claim)
            && (o !in d.orders && o in d.deliveries ==> d.deliveries[o].state != Created))
      && (r.Ok? ==>
            var (d', outcome) := r.value;
            && (outcome == CREATED <==> o in d.orders)
            && (outcome == CANCELLED <==> o !in d.orders && NoneActive(d, m.claim))
            && (outcome == CANCELLED_KEEP_QUALIFICATION <==> o !in d.orders && !NoneActive(d, m.claim))
            && d' == d.(deliveries := d'.deliveries) && SameOff(d.deliveries, d'.deliveries, o)
            && Get(d'.deliveries, o) == Some(Delivery(m.claim, m.token, if o in d.orders then Created else Cancelled)))
  {
  }

  /** At every moment a pending order can either be paid or be closed, never both: it is payable before its expiry and
      closable from then on. Both bump the version, so whoever read it before does nothing any more. */
  lemma PayOrClose(d: Database, o: OrderId, version: int, now: Millis, pay: Millis, close: Millis)
    requires o in d.orders && d.orders[o].status == Pending && d.orders[o].version == version
    requires d.orders[o].claim.voucher in d.stock && o !in d.releases
    ensures PayUpdate(d, o, version, now).1 <==> now < d.orders[o].expire
    ensures CloseTx(d, o, version, now).Ok? && (CloseTx(d, o, version, now).value.1 <==> now >= d.orders[o].expire)
    ensures var d' := if now < d.orders[o].expire then PayUpdate(d, o, version, now).0 else CloseTx(d, o, version, now).value.0;
      && SameOff(d.orders, d'.orders, o)
      && Get(d'.orders, o) == Some(d.orders[o].(status := if now < d.orders[o].expire then Paid else Closed, version := version + 1))
      && !PayUpdate(d', o, version, pay).1 && CloseTx(d', o, version, close) == Ok((d', false))
  {
  }

  /** Closing gives the unit back to MySQL and saves a release row that is due at once. */
  lemma CloseWrites(d: Database, o: OrderId, version: int, now: Millis)
    requires CloseTx(d, o, version, now).Ok? && CloseTx(d, o, version, now).value.1
    ensures var d', v := CloseTx(d, o, version, now).value.0, d.orders[o].claim.voucher;
      && SameOff(d.stock, d'.stock, v) && Get(d'.stock, v) == Some(d.stock[v] + 1)
      && SameOff(d.releases, d'.releases, o) && o in d'.releases && d'.deliveries == d.deliveries
      && var row := d'.releases[o];
         && row.claim == d.orders[o].claim && !row.completed && row.retryAt <= now
         && row.token == if o in d.deliveries then Some(d.deliveries[o].token) else None
  {
  }
}
