/** The inductive invariant of the order protocol. Everything the stores know about one
    reservation is collected in a `View`; a step acts on one reservation, leaves the views of
    all others alone, and keeps its own view good. */
module OrderInvariant {
  import opened Common
  import opened OrderModel

  /** All that the stores and clients hold about one reservation. */
  datatype View = View(
    claim: Claim,
    token: Token,
    record: Option<Record>,
    holds: bool,                  // the owner entry of the claim is this token
    order: Option<OrderId>,
    delivery: Option<Delivery>,
    row: Option<Order>,
    release: Option<Release>,
    credited: bool,               // closed marker set
    phase: Option<Phase>,
    bound: bool,
    sent: bool,
    cancelled: bool,              // some cancellation committed
    keep: bool)                   // some cancellation committed with the keep flag
  {
    predicate Landed() {
      delivery.Some? && delivery.value.state == Created
    }

    predicate Fenced() {
      delivery.Some? && delivery.value.state == Cancelled
    }
  }

  predicate Holds(s: State, t: Token) {
    t in s.net.issued && Get(s.redis.owners, s.net.issued[t]) == Some(t)
  }

  function ViewOf(s: State, t: Token): View
    requires t in s.net.issued
  {
    var claim, record, holds := s.net.issued[t], Get(s.redis.records, t), Holds(s, t);
    if t in s.net.alloc then
      var o := s.net.alloc[t];
      View(claim, t, record, holds, Some(o), Get(s.db.deliveries, o), Get(s.db.orders, o), Get(s.db.releases, o),
           o in s.redis.closed, Get(s.net.creating, o), o in s.net.bound, o in s.net.sent,
           (o, false) in s.net.permits || (o, true) in s.net.permits, (o, true) in s.net.permits)
    else
      View(claim, t, record, holds, None, None, None, None, false, None, false, false, false, false)
  }

  /** What holds of every reservation at every moment. */
  predicate Good(v: View) {
    // identities agree
    && (v.record.Some? ==> v.record.value.claim == v.claim && (v.record.value.order.Some? ==> v.bound && v.record.value.order == v.order))
    && (v.delivery.Some? ==> v.delivery.value.claim == v.claim && v.delivery.value.token == v.token)
    && (v.row.Some? ==> v.row.value.claim == v.claim && v.sent)
    && (v.release.Some? ==> v.release.value.claim == v.claim && v.release.value.token == Some(v.token))
    // the fence: an order row exists exactly when the delivery row says so
    && (v.row.Some? <==> v.Landed())
    // lifecycle of the row
    && (v.row.Some? ==> v.row.value.version == (if v.row.value.status == Pending then 0 else 1))
    && (v.release.Some? <==> v.row.Some? && v.row.value.status == Closed)
    && (v.credited ==> v.release.Some?)
    && (v.release.Some? && v.release.value.completed ==> v.credited)
    // the unit is held exactly while a reservation is unlanded or its order has not been given back to Redis
    && (v.holds <==> if v.row.Some? then !v.credited else v.record.Some?)
    // only bound reservations travel, and binding is final
    && (v.sent ==> v.bound)
    && (v.bound && v.record.Some? ==> v.record.value.order == v.order)
    // an open create transaction excludes both final delivery states
    && (v.phase.Some? ==> v.sent && !v.Landed() && !v.Fenced())
    && (v.phase.Some? && v.phase.value != Locked ==> v.holds)
    // cancellations are final, and keeping the qualification means there was nothing left to release
    && (v.cancelled ==> v.Fenced())
    && (v.keep ==> v.cancelled && v.record.None?)
  }

  /** Order ids and tokens are paired one to one, and no row lacks its reservation. */
  ghost predicate Paired(s: State) {
    && (forall t :: t in s.net.alloc ==> t in s.net.issued && s.net.alloc[t] in s.net.tokenOf && s.net.tokenOf[s.net.alloc[t]] == t)
    && (forall o :: o in s.net.tokenOf ==> o > 0 && s.net.tokenOf[o] in s.net.alloc && s.net.alloc[s.net.tokenOf[o]] == o)
    && s.redis.records.Keys <= s.net.issued.Keys
    && s.db.deliveries.Keys <= s.net.tokenOf.Keys
    && s.db.orders.Keys <= s.net.tokenOf.Keys
    && s.db.releases.Keys <= s.net.tokenOf.Keys
    && s.redis.closed <= s.net.tokenOf.Keys
    && s.net.bound <= s.net.tokenOf.Keys
    && s.net.sent <= s.net.tokenOf.Keys
    && s.net.creating.Keys <= s.net.tokenOf.Keys
    && (forall p :: p in s.net.permits ==> p.0 in s.net.tokenOf)
  }

  /** Owner entries name reservations of their own claim; the qualification set is their users. */
  ghost predicate Slots(s: State) {
    && (forall c :: c in s.redis.owners ==> s.redis.owners[c] in s.net.issued && s.net.issued[s.redis.owners[c]] == c)
    && (forall v, u :: v in s.redis.users ==> (u in s.redis.users[v] <==> u == SENTINEL || Claim(u, v) in s.redis.owners))
  }

  /** The recovery index covers exactly the reservation records. */
  ghost predicate Indexed(r: Redis) {
    && r.pending.Keys == r.records.Keys
    && (forall t :: t in r.pending ==> r.pending[t] >= 0)
  }

  function OwnersOf(r: Redis, v: VoucherId): set<Claim> {
    set c | c in r.owners && c.voucher == v
  }

  function ActiveOrders(d: Database, v: VoucherId): set<OrderId> {
    set o | o in d.orders && d.orders[o].claim.voucher == v && d.orders[o].status != Closed
  }

  /** Redis accounts for every unit: in stock or held by an owner. */
  ghost predicate RedisBalanced(r: Redis, units: map<VoucherId, nat>) {
    && r.stock.Keys == units.Keys && r.users.Keys == units.Keys
    && forall v :: v in units ==> r.stock[v] >= 0 && r.stock[v] + |OwnersOf(r, v)| == units[v]
  }

  /** MySQL accounts for every unit: in stock or in an order that is not closed. */
  ghost predicate DbBalanced(d: Database, units: map<VoucherId, nat>) {
    && d.stock.Keys == units.Keys
    && forall v :: v in units ==> d.stock[v] + |ActiveOrders(d, v)| == units[v]
  }

  ghost predicate Claims(s: State, units: map<VoucherId, nat>) {
    && (forall v :: v in units ==> v > 0 && units[v] <= MAX_STOCK)
    && (forall t :: t in s.net.issued ==> s.net.issued[t].voucher in units && s.net.issued[t].user > 0)
  }

  ghost predicate AllGood(s: State) {
    forall t {:trigger ViewOf(s, t)} :: t in s.net.issued ==> Good(ViewOf(s, t))
  }

  ghost predicate Inv(s: State, units: map<VoucherId, nat>) {
    && Paired(s)
    && AllGood(s)
    && Slots(s)
    && Indexed(s.redis)
    && RedisBalanced(s.redis, units)
    && DbBalanced(s.db, units)
    && Claims(s, units)
  }

  /** The reservation a step acts for. */
  function TokenOfStep(s: State, step: Step): Option<Token> {
    match step
    case Reserve(t, _, _) => Some(t)
    case Allocate(t, _) => Some(t)
    case ReleaseUnbound(t) => Some(t)
    case Defer(t, _) => Some(t)
    case _ => Get(s.net.tokenOf, step.order)
  }

  /** All tables and keys agree except at one reservation, its order id and its claim. */
  ghost predicate Touches(s: State, s': State, t: Token, o: OrderId) {
    && t in s'.net.issued
    && SameOff(s.redis.records, s'.redis.records, t)
    && SameOff(s.redis.pending, s'.redis.pending, t)
    && SameOff(s.db.deliveries, s'.db.deliveries, o)
    && SameOff(s.db.orders, s'.db.orders, o)
    && SameOff(s.db.releases, s'.db.releases, o)
    && SameOff(s.net.creating, s'.net.creating, o)
    && SameOff(s.net.issued, s'.net.issued, t)
    && SameOff(s.net.alloc, s'.net.alloc, t)
    && SameBut(s.redis.closed, s'.redis.closed, o)
    && SameBut(s.net.bound, s'.net.bound, o)
    && SameBut(s.net.sent, s'.net.sent, o)
    && (forall p: (OrderId, bool) :: p.0 != o ==> (p in s.net.permits <==> p in s'.net.permits))
    && var c := s'.net.issued[t];
       && SameOff(s.redis.owners, s'.redis.owners, c)
       && (Get(s'.redis.owners, c) == Get(s.redis.owners, c)
           || {Get(s.redis.owners, c), Get(s'.redis.owners, c)} <= {None, Some(t)})
  }

  /** A step leaves the views of all other reservations as they were. */
  lemma TouchLocal(s: State, s': State, t: Token, o: OrderId, u: Token)
    requires Touches(s, s', t, o) && u in s.net.issued && u != t
    requires u in s.net.alloc ==> s.net.alloc[u] != o
    ensures u in s'.net.issued && ViewOf(s', u) == ViewOf(s, u) && Get(s'.redis.pending, u) == Get(s.redis.pending, u)
  {
    assert Get(s.net.issued, u) == Get(s'.net.issued, u);
    assert Get(s.net.alloc, u) == Get(s'.net.alloc, u);
    assert Holds(s', u) == Holds(s, u);
  }

  /** No reservation but `t` is affected. */
  ghost predicate Untouched(s: State, s': State, t: Token) {
    forall u :: u in s.net.issued && u != t ==>
      u in s'.net.issued && ViewOf(s', u) == ViewOf(s, u) && Get(s'.redis.pending, u) == Get(s.redis.pending, u)
  }

  lemma UntouchedAt(s: State, s': State, t: Token, u: Token)
    requires Untouched(s, s', t) && u in s.net.issued && u != t
    ensures u in s'.net.issued && ViewOf(s', u) == ViewOf(s, u) && Get(s'.redis.pending, u) == Get(s.redis.pending, u)
  {
    if u in s'.net.issued {
      assert ViewOf(s', u) == ViewOf(s, u);
    }
  }

  /** A step that neither reserves nor draws an order id touches one reservation only. */
  ghost predicate Moves(s: State, s': State, t: Token, o: OrderId) {
    && Touches(s, s', t, o)
    && s'.net.issued == s.net.issued && s'.net.alloc == s.net.alloc && s'.net.tokenOf == s.net.tokenOf
    && (if o in s.net.tokenOf then s.net.tokenOf[o] == t
        else s'.db == s.db && s'.net == s.net && s'.redis.closed == s.redis.closed)
  }

  lemma MovePaired(s: State, s': State, t: Token, o: OrderId)
    requires Paired(s) && Moves(s, s', t, o)
    ensures Paired(s')
  {
    forall x | x in s'.redis.records
      ensures x in s'.net.issued
    {
      assert x != t ==> Get(s.redis.records, x) == Get(s'.redis.records, x);
    }
    if o in s.net.tokenOf {
      forall x | x != o
        ensures x in s'.db.deliveries || x in s'.db.orders || x in s'.db.releases || x in s'.net.creating ==> x in s.net.tokenOf
      {
        assert Get(s.db.deliveries, x) == Get(s'.db.deliveries, x) && Get(s.db.orders, x) == Get(s'.db.orders, x);
        assert Get(s.db.releases, x) == Get(s'.db.releases, x) && Get(s.net.creating, x) == Get(s'.net.creating, x);
      }
    }
  }

  /** Such a step keeps the pairing and every good view, if its own view stays good. */
  lemma MoveKeeps(s: State, s': State, t: Token, o: OrderId)
    requires Paired(s) && AllGood(s) && Moves(s, s', t, o)
    requires Good(ViewOf(s', t))
    ensures Paired(s') && AllGood(s') && Untouched(s, s', t)
  {
    hide Good, ViewOf, Touches;
    MovePaired(s, s', t, o);
    forall u | u in s'.net.issued
      ensures Good(ViewOf(s', u))
      ensures u != t ==> ViewOf(s', u) == ViewOf(s, u) && Get(s'.redis.pending, u) == Get(s.redis.pending, u)
    {
      if u != t {
        assert u in s.net.alloc ==> s.net.alloc[u] != o;
        TouchLocal(s, s', t, o, u);
      }
    }
  }

  lemma InitInv(s: State, units: map<VoucherId, nat>)
    requires Fresh(s, units)
    ensures Inv(s, units)
  {
    forall v | v in units
      ensures OwnersOf(s.redis, v) == {} && ActiveOrders(s.db, v) == {}
    {
    }
  }

  // ------------------------------------------------------ consequences

  /** The order id was drawn for an existing reservation. */
  predicate Drawn(s: State, o: OrderId) {
    Known(s, o) && s.net.tokenOf[o] in s.net.alloc && s.net.alloc[s.net.tokenOf[o]] == o
  }

  /** A reservation and its order id as the invariant sees them. */
  lemma GoodAt(s: State, units: map<VoucherId, nat>, t: Token)
    requires Inv(s, units) && t in s.net.issued
    ensures Good(ViewOf(s, t))
  {
    hide Good, ViewOf;
  }

  lemma KnownPair(s: State, units: map<VoucherId, nat>, o: OrderId)
    requires Inv(s, units) && o in s.net.tokenOf
    ensures s.net.tokenOf[o] in s.net.issued && Drawn(s, o) && Good(ViewOf(s, s.net.tokenOf[o]))
  {
    hide Good, ViewOf;
  }

  /** An active order pins its user's owner entry. */
  lemma ActiveHolds(s: State, units: map<VoucherId, nat>, o: OrderId)
    requires Inv(s, units) && o in s.db.orders && s.db.orders[o].status != Closed
    ensures Drawn(s, o) && s.net.issued[s.net.tokenOf[o]] == s.db.orders[o].claim
    ensures Get(s.redis.owners, s.db.orders[o].claim) == Some(s.net.tokenOf[o])
  {
    assert o in s.net.tokenOf by {
      hide AllGood;
    }
    hide Paired, AllGood, Slots, Indexed, RedisBalanced, DbBalanced, Claims;
    KnownPair(s, units, o);
  }

  /** No active order shares the claim of a holder whose own order has not landed. */
  lemma HolderHasNoRival(s: State, units: map<VoucherId, nat>, t: Token)
    requires Inv(s, units) && Holds(s, t) && ViewOf(s, t).row.None?
    ensures !s.db.HasActive(s.net.issued[t])
  {
    hide Inv;
    forall o | o in s.db.orders && s.db.orders[o].status != Closed
      ensures s.db.orders[o].claim != s.net.issued[t]
    {
      ActiveHolds(s, units, o);
    }
  }

  /** Fewer orders are active than units are held while some holder has not landed. */
  lemma ActiveFewerThanHeld(s: State, units: map<VoucherId, nat>, t: Token)
    requires Inv(s, units) && Holds(s, t) && ViewOf(s, t).row.None?
    ensures |ActiveOrders(s.db, s.net.issued[t].voucher)| < |OwnersOf(s.redis, s.net.issued[t].voucher)|
  {
    hide Inv;
    var c := s.net.issued[t];
    HolderHasNoRival(s, units, t);
    var active, owners := ActiveOrders(s.db, c.voucher), OwnersOf(s.redis, c.voucher);
    var f := map o | o in active :: s.db.orders[o].claim;
    forall o | o in active
      ensures f[o] in owners - {c}
    {
      ActiveHolds(s, units, o);
    }
    forall a, b | a in active && b in active && a != b
      ensures f[a] != f[b]
    {
      ActiveHolds(s, units, a);
      ActiveHolds(s, units, b);
    }
    InjectiveImage(active, f, owners - {c});
    assert c in owners;
  }

  /** A holder that has not landed always finds a MySQL unit and a free unique-index slot. */
  lemma RoomToLand(s: State, units: map<VoucherId, nat>, t: Token)
    requires Inv(s, units) && Holds(s, t) && ViewOf(s, t).row.None?
    ensures !s.db.HasActive(s.net.issued[t])
    ensures s.net.issued[t].voucher in s.db.stock && s.db.stock[s.net.issued[t].voucher] > 0
  {
    HolderHasNoRival(s, units, t);
    ActiveFewerThanHeld(s, units, t);
    hide Paired, AllGood, Slots, Indexed, ViewOf;
  }
}
