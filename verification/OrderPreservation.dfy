/** Every step keeps the invariant. Each step gets three facts: it moves one reservation only,
    the view of that reservation stays good, and the counts still add up. */
module OrderPreservation {
  import opened Common
  import opened OrderModel
  import opened OrderInvariant

  /** Everything that is shared between reservations. */
  predicate SameCounters(s: State, s': State) {
    && s'.redis.owners == s.redis.owners && s'.redis.stock == s.redis.stock && s'.redis.users == s.redis.users
    && s'.db.stock == s.db.stock && s'.db.orders == s.db.orders
  }

  lemma SameCountersKeep(s: State, s': State, units: map<VoucherId, nat>, t: Token, o: OrderId)
    requires Inv(s, units) && Moves(s, s', t, o) && SameCounters(s, s') && Indexed(s'.redis) && Good(ViewOf(s', t))
    ensures Inv(s', units) && Untouched(s, s', t)
  {
    hide Good, ViewOf, Touches, Paired, AllGood, Untouched;
    MoveKeeps(s, s', t, o);
    forall v | v in units
      ensures OwnersOf(s'.redis, v) == OwnersOf(s.redis, v) && ActiveOrders(s'.db, v) == ActiveOrders(s.db, v)
    {
    }
  }

  /** The steps around binding, publishing and an open create transaction. */
  predicate Early(step: Step) {
    step.Bind? || step.Publish? || step.CreateLock? || step.CreateReadOwner? || step.CreateReadRecord? || step.CreateAbort?
  }

  lemma BindingMoves(s: State, s': State, step: Step)
    requires (step.Bind? || step.Publish?) && Enabled(s, step) && s' == Effect(s, step) && Drawn(s, step.order)
    ensures Moves(s, s', s.net.tokenOf[step.order], step.order) && SameCounters(s, s')
  {
  }

  lemma CreatingMoves(s: State, s': State, step: Step)
    requires Early(step) && !step.Bind? && !step.Publish?
    requires Enabled(s, step) && s' == Effect(s, step) && Drawn(s, step.order)
    ensures Moves(s, s', s.net.tokenOf[step.order], step.order) && SameCounters(s, s')
  {
    assert s' == s.(net := s.net.(creating := s'.net.creating));
    hide LockRow;
  }

  lemma EarlyGood(s: State, s': State, step: Step)
    requires Early(step) && Enabled(s, step) && s' == Effect(s, step) && Drawn(s, step.order)
    requires Good(ViewOf(s, s.net.tokenOf[step.order]))
    ensures Good(ViewOf(s', s.net.tokenOf[step.order]))
  {
  }

  lemma EarlyIndexed(s: State, s': State, step: Step)
    requires Early(step) && Enabled(s, step) && s' == Effect(s, step) && Indexed(s.redis)
    ensures Indexed(s'.redis)
  {
  }

  lemma EarlyKeeps(s: State, units: map<VoucherId, nat>, step: Step)
    requires Inv(s, units) && Early(step) && Enabled(s, step) && step.order in s.net.tokenOf
    ensures Inv(Effect(s, step), units)
    ensures Untouched(s, Effect(s, step), s.net.tokenOf[step.order])
  {
    assert Indexed(s.redis);
    hide *;
    KnownPair(s, units, step.order);
    var s', t := Effect(s, step), s.net.tokenOf[step.order];
    if step.Bind? || step.Publish? {
      BindingMoves(s, s', step);
    } else {
      CreatingMoves(s, s', step);
    }
    EarlyGood(s, s', step);
    EarlyIndexed(s, s', step);
    SameCountersKeep(s, s', units, t, step.order);
  }

  // ---------------------------------------------------- bookkeeping

  predicate Bookkeeping(step: Step) {
    step.Complete? || step.MarkReleased? || step.DeferReleaseRow?
  }

  lemma BookkeepingMoves(s: State, s': State, step: Step)
    requires Bookkeeping(step) && Enabled(s, step) && s' == Effect(s, step) && Drawn(s, step.order)
    ensures Moves(s, s', s.net.tokenOf[step.order], step.order) && SameCounters(s, s')
  {
  }

  lemma BookkeepingGood(s: State, s': State, step: Step)
    requires Bookkeeping(step) && Enabled(s, step) && s' == Effect(s, step) && Drawn(s, step.order)
    requires Good(ViewOf(s, s.net.tokenOf[step.order]))
    ensures Good(ViewOf(s', s.net.tokenOf[step.order]))
  {
  }

  lemma BookkeepingIndexed(s: State, s': State, step: Step)
    requires Bookkeeping(step) && Enabled(s, step) && s' == Effect(s, step) && Indexed(s.redis)
    ensures Indexed(s'.redis)
  {
  }

  lemma BookkeepingKeeps(s: State, units: map<VoucherId, nat>, step: Step)
    requires Inv(s, units) && Bookkeeping(step) && Enabled(s, step) && step.order in s.net.tokenOf
    ensures Inv(Effect(s, step), units)
    ensures Untouched(s, Effect(s, step), s.net.tokenOf[step.order])
  {
    assert Indexed(s.redis);
    hide *;
    KnownPair(s, units, step.order);
    var s', t := Effect(s, step), s.net.tokenOf[step.order];
    BookkeepingMoves(s, s', step);
    BookkeepingGood(s, s', step);
    BookkeepingIndexed(s, s', step);
    SameCountersKeep(s, s', units, t, step.order);
  }

  lemma DeferMoves(s: State, s': State, t: Token, now: Millis)
    requires Enabled(s, Defer(t, now)) && s' == Effect(s, Defer(t, now))
    requires t in s.net.issued && 0 !in s.net.tokenOf && Indexed(s.redis)
    ensures Moves(s, s', t, 0) && SameCounters(s, s') && Indexed(s'.redis) && ViewOf(s', t) == ViewOf(s, t)
  {
  }

  lemma DeferAbsent(s: State, t: Token, now: Millis)
    requires Enabled(s, Defer(t, now)) && t !in s.redis.pending
    ensures Effect(s, Defer(t, now)) == s
  {
  }

  lemma DeferKeeps(s: State, units: map<VoucherId, nat>, t: Token, now: Millis)
    requires Inv(s, units) && Enabled(s, Defer(t, now))
    ensures Inv(Effect(s, Defer(t, now)), units)
    ensures Untouched(s, Effect(s, Defer(t, now)), t)
  {
    assert Indexed(s.redis);
    if t in s.redis.pending {
      NoOrderZero(s, units);
      assert t in s.net.issued by {
        hide AllGood;
      }
      hide *;
      GoodAt(s, units, t);
      var s' := Effect(s, Defer(t, now));
      DeferMoves(s, s', t, now);
      SameCountersKeep(s, s', units, t, 0);
    } else {
      NothingUntouched(s, t);
      hide *;
      DeferAbsent(s, t, now);
    }
  }

  lemma NoOrderZero(s: State, units: map<VoucherId, nat>)
    requires Inv(s, units)
    ensures 0 !in s.net.tokenOf
  {
    hide AllGood;
  }

  // --------------------------------------------------- cancellation

  /** Another active order of the claim holds the owner entry, so a reservation that never landed is gone. */
  lemma KeepMeansGone(s: State, units: map<VoucherId, nat>, t: Token)
    requires Inv(s, units) && t in s.net.issued && s.db.HasActive(s.net.issued[t])
    requires ViewOf(s, t).row.None?
    ensures t !in s.redis.records
  {
    GoodAt(s, units, t);
    var p :| p in s.db.orders && s.db.orders[p].claim == s.net.issued[t] && s.db.orders[p].status != Closed;
    assert t in s.net.alloc ==> s.net.alloc[t] != p;
    hide Paired, AllGood, Slots, Indexed, RedisBalanced, DbBalanced, Claims;
    ActiveHolds(s, units, p);
    KnownPair(s, units, p);
  }

  lemma CancelMoves(s: State, s': State, o: OrderId)
    requires Enabled(s, Cancel(o)) && s' == Effect(s, Cancel(o)) && Drawn(s, o)
    ensures Moves(s, s', s.net.tokenOf[o], o) && SameCounters(s, s')
    ensures s'.redis == s.redis
  {
  }

  lemma CancelGood(s: State, s': State, o: OrderId)
    requires Enabled(s, Cancel(o)) && s' == Effect(s, Cancel(o)) && Drawn(s, o)
    requires Good(ViewOf(s, s.net.tokenOf[o]))
    requires o !in s.db.orders && s.db.HasActive(s.net.issued[s.net.tokenOf[o]]) ==> s.net.tokenOf[o] !in s.redis.records
    ensures Good(ViewOf(s', s.net.tokenOf[o]))
  {
  }

  lemma CancelKeeps(s: State, units: map<VoucherId, nat>, o: OrderId)
    requires Inv(s, units) && Enabled(s, Cancel(o)) && o in s.net.tokenOf
    ensures Inv(Effect(s, Cancel(o)), units)
    ensures Untouched(s, Effect(s, Cancel(o)), s.net.tokenOf[o])
  {
    assert Indexed(s.redis);
    assert Known(s, o);
    hide *;
    KnownPair(s, units, o);
    var s', t := Effect(s, Cancel(o)), s.net.tokenOf[o];
    if o !in s.db.orders && s.db.HasActive(s.net.issued[t]) {
      NoRow(s, o);
      KeepMeansGone(s, units, t);
    }
    CancelMoves(s, s', o);
    CancelGood(s, s', o);
    SameCountersKeep(s, s', units, t, o);
  }

  lemma NoRow(s: State, o: OrderId)
    requires Drawn(s, o) && o !in s.db.orders
    ensures ViewOf(s, s.net.tokenOf[o]).row.None?
  {
  }

  // ------------------------------------------------- landing and lifecycle

  /** Steps on the order row and the MySQL stock; Redis is not touched. */
  predicate Row(step: Step) {
    step.CreateCommit? || step.Pay? || step.Close?
  }

  lemma CommitMoves(s: State, s': State, step: Step)
    requires step.CreateCommit? && Enabled(s, step) && s' == Effect(s, step) && Drawn(s, step.order)
    ensures Moves(s, s', s.net.tokenOf[step.order], step.order) && s'.redis == s.redis
  {
  }

  lemma PayCloseMoves(s: State, s': State, step: Step)
    requires (step.Pay? || step.Close?) && Enabled(s, step) && s' == Effect(s, step) && Drawn(s, step.order)
    ensures Moves(s, s', s.net.tokenOf[step.order], step.order) && s'.redis == s.redis
  {
  }

  lemma RowGood(s: State, s': State, step: Step)
    requires Row(step) && Enabled(s, step) && s' == Effect(s, step) && Drawn(s, step.order)
    requires Good(ViewOf(s, s.net.tokenOf[step.order]))
    ensures Good(ViewOf(s', s.net.tokenOf[step.order]))
  {
  }

  /** The MySQL stock moves against the number of active orders. */
  lemma CreateBalanced(d: Database, d': Database, m: Message, now: Millis, timeout: Millis, units: map<VoucherId, nat>)
    requires m.order.Some? && CreateWrites(d, m, now, timeout) == Ok(d') && DbBalanced(d, units)
    ensures DbBalanced(d', units)
  {
    forall v | v in units
      ensures d'.stock[v] + |ActiveOrders(d', v)| == units[v]
    {
      if v == m.claim.voucher {
        assert ActiveOrders(d', v) == ActiveOrders(d, v) + {m.order.value};
      } else {
        assert ActiveOrders(d', v) == ActiveOrders(d, v);
      }
    }
  }

  lemma PayBalanced(d: Database, o: OrderId, version: int, now: Millis, units: map<VoucherId, nat>)
    requires DbBalanced(d, units)
    ensures DbBalanced(PayUpdate(d, o, version, now).0, units)
  {
    forall v | v in units
      ensures ActiveOrders(PayUpdate(d, o, version, now).0, v) == ActiveOrders(d, v)
    {
    }
  }

  lemma CloseBalanced(d: Database, d': Database, o: OrderId, version: int, now: Millis, units: map<VoucherId, nat>)
    requires CloseTx(d, o, version, now) == Ok((d', true)) && DbBalanced(d, units)
    ensures DbBalanced(d', units)
  {
    forall v | v in units
      ensures d'.stock[v] + |ActiveOrders(d', v)| == units[v]
    {
      if v == d.orders[o].claim.voucher {
        assert ActiveOrders(d', v) == ActiveOrders(d, v) - {o};
        assert o in ActiveOrders(d, v);
      } else {
        assert ActiveOrders(d', v) == ActiveOrders(d, v);
      }
    }
  }

  lemma RowBalanced(s: State, s': State, units: map<VoucherId, nat>, step: Step)
    requires Row(step) && Enabled(s, step) && s' == Effect(s, step) && DbBalanced(s.db, units)
    ensures DbBalanced(s'.db, units)
  {
    hide DbBalanced, CreateWrites, PayUpdate, CloseTx;
    match step
    case CreateCommit(o, now, timeout) =>
      var m := s.MessageOf(o);
      if CreateWrites(s.db, m, now, timeout).Ok? {
        CreateBalanced(s.db, s'.db, m, now, timeout, units);
      }
    case Pay(o, version, now) => PayBalanced(s.db, o, version, now, units);
    case Close(o, version, now) =>
      var tx := CloseTx(s.db, o, version, now);
      if tx.Ok? {
        if tx.value.1 {
          CloseBalanced(s.db, s'.db, o, version, now, units);
        } else {
          CloseRefused(s.db, o, version, now);
        }
      }
  }

  lemma CloseRefused(d: Database, o: OrderId, version: int, now: Millis)
    requires CloseTx(d, o, version, now).Ok? && !CloseTx(d, o, version, now).value.1
    ensures CloseTx(d, o, version, now).value.0 == d
  {
  }

  /** Only the stock of MySQL and the order rows may differ from a quiet step. */
  lemma RowKeeps(s: State, units: map<VoucherId, nat>, step: Step)
    requires Inv(s, units) && Row(step) && Enabled(s, step) && step.order in s.net.tokenOf
    ensures Inv(Effect(s, step), units)
    ensures Untouched(s, Effect(s, step), s.net.tokenOf[step.order])
  {
    var s', t := Effect(s, step), s.net.tokenOf[step.order];
    assert DbBalanced(s.db, units);
    hide *;
    KnownPair(s, units, step.order);
    if step.CreateCommit? {
      CommitMoves(s, s', step);
    } else {
      PayCloseMoves(s, s', step);
    }
    RowGood(s, s', step);
    RowBalanced(s, s', units, step);
    DbSideKeeps(s, s', units, t, step.order);
  }

  lemma DbSideKeeps(s: State, s': State, units: map<VoucherId, nat>, t: Token, o: OrderId)
    requires Inv(s, units) && Moves(s, s', t, o) && Good(ViewOf(s', t))
    requires s'.redis == s.redis && DbBalanced(s'.db, units)
    ensures Inv(s', units) && Untouched(s, s', t)
  {
    hide Good, ViewOf, Touches, Paired, AllGood, Untouched;
    MoveKeeps(s, s', t, o);
  }

  /** Orders that were never created have no row to update. */
  lemma NoSuchRow(s: State, units: map<VoucherId, nat>, step: Step)
    requires Inv(s, units) && (step.Pay? || step.Close? || step.MarkReleased? || step.DeferReleaseRow?)
    requires step.order !in s.net.tokenOf
    ensures Apply(s, step) == s
  {
    hide AllGood, Slots, Indexed, RedisBalanced, DbBalanced, Claims;
  }

  // ------------------------------------------------------------ releases

  /** The scripts that return a unit to Redis. */
  predicate Returning(step: Step) {
    step.ReleaseBound? || step.ReleaseUnbound? || step.CloseRelease?
  }

  lemma ReleaseBoundMoves(s: State, s': State, o: OrderId, keep: bool)
    requires Enabled(s, ReleaseBound(o, keep)) && s' == Effect(s, ReleaseBound(o, keep)) && Drawn(s, o)
    ensures Moves(s, s', s.net.tokenOf[o], o) && s'.db == s.db
  {
  }

  lemma ReleaseBoundGood(s: State, s': State, o: OrderId, keep: bool)
    requires Enabled(s, ReleaseBound(o, keep)) && s' == Effect(s, ReleaseBound(o, keep)) && Drawn(s, o)
    requires Good(ViewOf(s, s.net.tokenOf[o]))
    ensures Good(ViewOf(s', s.net.tokenOf[o]))
  {
  }

  lemma ReleaseUnboundMoves(s: State, s': State, t: Token, o: OrderId)
    requires Enabled(s, ReleaseUnbound(t)) && s' == Effect(s, ReleaseUnbound(t))
    requires if t in s.net.alloc then s.net.alloc[t] == o && Get(s.net.tokenOf, o) == Some(t) else o !in s.net.tokenOf
    ensures Moves(s, s', t, o) && s'.db == s.db
  {
  }

  lemma ReleaseUnboundGood(s: State, s': State, t: Token)
    requires Enabled(s, ReleaseUnbound(t)) && s' == Effect(s, ReleaseUnbound(t))
    requires Good(ViewOf(s, t))
    ensures Good(ViewOf(s', t))
  {
  }

  lemma CloseReleaseMoves(s: State, s': State, o: OrderId)
    requires Enabled(s, CloseRelease(o)) && s' == Effect(s, CloseRelease(o)) && Drawn(s, o)
    requires Good(ViewOf(s, s.net.tokenOf[o]))
    ensures Moves(s, s', s.net.tokenOf[o], o) && s'.db == s.db
  {
  }

  lemma CloseReleaseGood(s: State, s': State, o: OrderId)
    requires Enabled(s, CloseRelease(o)) && s' == Effect(s, CloseRelease(o)) && Drawn(s, o)
    requires Good(ViewOf(s, s.net.tokenOf[o]))
    ensures Good(ViewOf(s', s.net.tokenOf[o]))
  {
  }

  /** Either nothing was held, or exactly the unit of claim `c`, held by `t`, went back. */
  ghost predicate Returned(r: Redis, r': Redis, c: Claim, t: Token) {
    || (r'.owners == r.owners && r'.stock == r.stock && r'.users == r.users)
    || (&& Get(r.owners, c) == Some(t) && r'.owners == r.owners - {c}
        && c.voucher in r.stock && r'.stock == r.stock[c.voucher := r.stock[c.voucher] + 1]
        && c.voucher in r.users && r'.users == r.users[c.voucher := r.users[c.voucher] - {c.user}])
  }

  lemma ReleaseReturns(r: Redis, c: Claim, t: Token, o: Option<OrderId>, keep: bool)
    requires keep ==> t !in r.records
    requires Indexed(r)
    ensures Returned(r, ReleaseScript(r, c, t, o, keep).0, c, t) && Indexed(ReleaseScript(r, c, t, o, keep).0)
  {
  }

  lemma CloseReleaseReturns(r: Redis, c: Claim, t: Token, o: OrderId)
    requires Indexed(r)
    ensures Returned(r, CloseReleaseScript(r, c, Some(t), o).0, c, t) && Indexed(CloseReleaseScript(r, c, Some(t), o).0)
  {
  }

  lemma ReturnedBalanced(r: Redis, r': Redis, c: Claim, t: Token, units: map<VoucherId, nat>)
    requires Returned(r, r', c, t) && RedisBalanced(r, units)
    ensures RedisBalanced(r', units)
  {
    forall v | v in units
      ensures r'.stock[v] >= 0 && r'.stock[v] + |OwnersOf(r', v)| == units[v]
    {
      if r'.owners == r.owners {
        assert OwnersOf(r', v) == OwnersOf(r, v);
      } else if v == c.voucher {
        assert OwnersOf(r', v) == OwnersOf(r, v) - {c};
        assert c in OwnersOf(r, v);
      } else {
        assert OwnersOf(r', v) == OwnersOf(r, v);
      }
    }
  }

  lemma ReturnedSlots(s: State, s': State, c: Claim, t: Token)
    requires Returned(s.redis, s'.redis, c, t) && Slots(s) && c.user > 0 && s'.net.issued == s.net.issued
    ensures Slots(s')
  {
  }

  /** What all three returning steps come down to. */
  lemma RedisSideKeeps(s: State, s': State, units: map<VoucherId, nat>, t: Token, o: OrderId)
    requires Inv(s, units) && t in s.net.issued && Moves(s, s', t, o) && Good(ViewOf(s', t))
    requires s'.db == s.db && Returned(s.redis, s'.redis, s.net.issued[t], t) && Indexed(s'.redis)
    ensures Inv(s', units) && Untouched(s, s', t)
  {
    hide Good, ViewOf, Touches, Paired, AllGood, Slots, RedisBalanced, DbBalanced, Returned, Indexed, Untouched;
    MoveKeeps(s, s', t, o);
    ReturnedBalanced(s.redis, s'.redis, s.net.issued[t], t, units);
    ReturnedSlots(s, s', s.net.issued[t], t);
  }

  lemma ReleaseBoundKeeps(s: State, units: map<VoucherId, nat>, o: OrderId, keep: bool)
    requires Inv(s, units) && Enabled(s, ReleaseBound(o, keep)) && o in s.net.tokenOf
    ensures Inv(Effect(s, ReleaseBound(o, keep)), units)
    ensures Untouched(s, Effect(s, ReleaseBound(o, keep)), s.net.tokenOf[o])
  {
    assert Indexed(s.redis) && (o, keep) in s.net.permits;
    var s', t := Effect(s, ReleaseBound(o, keep)), s.net.tokenOf[o];
    assert Known(s, o);
    var m := s.MessageOf(o);
    assert s'.redis == ReleaseScript(s.redis, m.claim, t, Some(o), keep).0;
    hide *;
    KnownPair(s, units, o);
    ReleaseBoundMoves(s, s', o, keep);
    ReleaseBoundGood(s, s', o, keep);
    KeepGone(s, o, keep);
    ReleaseReturns(s.redis, m.claim, t, Some(o), keep);
    RedisSideKeeps(s, s', units, t, o);
  }

  lemma KeepGone(s: State, o: OrderId, keep: bool)
    requires Drawn(s, o) && Good(ViewOf(s, s.net.tokenOf[o])) && (o, keep) in s.net.permits
    ensures keep ==> s.net.tokenOf[o] !in s.redis.records
  {
  }

  lemma ReleaseUnboundKeeps(s: State, units: map<VoucherId, nat>, t: Token)
    requires Inv(s, units) && Enabled(s, ReleaseUnbound(t))
    ensures Inv(Effect(s, ReleaseUnbound(t)), units)
    ensures Untouched(s, Effect(s, ReleaseUnbound(t)), t)
  {
    assert Indexed(s.redis) && t in s.net.issued;
    var s' := Effect(s, ReleaseUnbound(t));
    var c := s.net.issued[t];
    assert s'.redis == ReleaseScript(s.redis, c, t, None, false).0;
    hide *;
    var o := OrderOrZero(s, units, t);
    GoodAt(s, units, t);
    ReleaseUnboundMoves(s, s', t, o);
    ReleaseUnboundGood(s, s', t);
    ReleaseReturns(s.redis, c, t, None, false);
    RedisSideKeeps(s, s', units, t, o);
  }

  /** The order id of a reservation, or 0, which no order has. */
  lemma OrderOrZero(s: State, units: map<VoucherId, nat>, t: Token) returns (o: OrderId)
    requires Inv(s, units) && t in s.net.issued
    ensures if t in s.net.alloc then s.net.alloc[t] == o && Get(s.net.tokenOf, o) == Some(t) else o !in s.net.tokenOf
  {
    hide AllGood;
    o := if t in s.net.alloc then s.net.alloc[t] else 0;
  }

  lemma CloseReleaseKeeps(s: State, units: map<VoucherId, nat>, o: OrderId)
    requires Inv(s, units) && Enabled(s, CloseRelease(o)) && o in s.net.tokenOf
    ensures Inv(Effect(s, CloseRelease(o)), units)
    ensures Untouched(s, Effect(s, CloseRelease(o)), s.net.tokenOf[o])
  {
    assert Indexed(s.redis) && o in s.db.releases;
    var s', t := Effect(s, CloseRelease(o)), s.net.tokenOf[o];
    var row := s.db.releases[o];
    assert s'.redis == CloseReleaseScript(s.redis, row.claim, row.token, o).0;
    hide *;
    KnownPair(s, units, o);
    ReleaseRow(s, o);
    CloseReleaseMoves(s, s', o);
    CloseReleaseGood(s, s', o);
    CloseReleaseReturns(s.redis, row.claim, t, o);
    RedisSideKeeps(s, s', units, t, o);
  }

  lemma ReleaseRow(s: State, o: OrderId)
    requires Drawn(s, o) && Good(ViewOf(s, s.net.tokenOf[o])) && o in s.db.releases
    ensures s.db.releases[o].claim == s.net.issued[s.net.tokenOf[o]] && s.db.releases[o].token == Some(s.net.tokenOf[o])
  {
  }

  // ----------------------------------------------- reserving and drawing ids

  lemma AllocateViews(s: State, s': State, t: Token, o: OrderId, u: Token)
    requires Enabled(s, Allocate(t, o)) && s' == Effect(s, Allocate(t, o)) && Paired(s) && u in s.net.issued
    requires Good(ViewOf(s, u))
    ensures Good(ViewOf(s', u)) && (u != t ==> ViewOf(s', u) == ViewOf(s, u))
  {
  }

  lemma AllocatePaired(s: State, s': State, t: Token, o: OrderId)
    requires Enabled(s, Allocate(t, o)) && s' == Effect(s, Allocate(t, o)) && Paired(s)
    ensures Paired(s')
  {
  }

  /** Nothing but the pairing changes. */
  lemma AllocateSide(s: State, s': State, t: Token, o: OrderId, units: map<VoucherId, nat>)
    requires Enabled(s, Allocate(t, o)) && s' == Effect(s, Allocate(t, o)) && Slots(s) && Claims(s, units)
    ensures s'.redis == s.redis && s'.db == s.db && s'.net.issued == s.net.issued && Slots(s') && Claims(s', units)
  {
  }

  lemma AllocateKeeps(s: State, units: map<VoucherId, nat>, t: Token, o: OrderId)
    requires Inv(s, units) && Enabled(s, Allocate(t, o))
    ensures Inv(Effect(s, Allocate(t, o)), units)
    ensures Untouched(s, Effect(s, Allocate(t, o)), t)
  {
    var s' := Effect(s, Allocate(t, o));
    hide Good, ViewOf, Paired, Enabled, Effect, Indexed, RedisBalanced, DbBalanced, Slots, Claims;
    AllocatePaired(s, s', t, o);
    AllocateSide(s, s', t, o, units);
    forall u | u in s'.net.issued
      ensures Good(ViewOf(s', u)) && (u != t ==> ViewOf(s', u) == ViewOf(s, u))
    {
      AllocateViews(s, s', t, o, u);
    }
  }

  lemma ReserveBalanced(r: Redis, c: Claim, t: Token, now: Millis, units: map<VoucherId, nat>)
    requires SeckillScript(r, c, t, now).1 == SUCCESS && RedisBalanced(r, units) && c !in r.owners
    ensures RedisBalanced(SeckillScript(r, c, t, now).0, units)
  {
    var r' := SeckillScript(r, c, t, now).0;
    forall v | v in units
      ensures r'.stock[v] >= 0 && r'.stock[v] + |OwnersOf(r', v)| == units[v]
    {
      if v == c.voucher {
        assert OwnersOf(r', v) == OwnersOf(r, v) + {c};
      } else {
        assert OwnersOf(r', v) == OwnersOf(r, v);
      }
    }
  }

  lemma ReserveSlots(s: State, s': State, t: Token, c: Claim, now: Millis)
    requires Slots(s) && Indexed(s.redis) && Enabled(s, Reserve(t, c, now)) && s' == Effect(s, Reserve(t, c, now)) && s' != s
    ensures c !in s.redis.owners && Slots(s') && Indexed(s'.redis)
    ensures SeckillScript(s.redis, c, t, now) == (s'.redis, SUCCESS) && s'.db == s.db && s'.net == s.net.(issued := s.net.issued[t := c])
  {
    assert c !in s.redis.owners;
  }

  lemma ReserveClaims(s: State, s': State, t: Token, c: Claim, now: Millis, units: map<VoucherId, nat>)
    requires Claims(s, units) && RedisBalanced(s.redis, units) && c.user > 0
    requires SeckillScript(s.redis, c, t, now).1 == SUCCESS && s'.net == s.net.(issued := s.net.issued[t := c])
    ensures Claims(s', units)
  {
  }

  lemma ReservePaired(s: State, s': State, t: Token, c: Claim, now: Millis)
    requires Paired(s) && SeckillScript(s.redis, c, t, now) == (s'.redis, SUCCESS)
    requires s'.db == s.db && s'.net == s.net.(issued := s.net.issued[t := c])
    ensures Paired(s')
  {
  }

  lemma ReserveViews(s: State, s': State, t: Token, c: Claim, now: Millis, u: Token)
    requires Enabled(s, Reserve(t, c, now)) && s' == Effect(s, Reserve(t, c, now)) && s' != s
    requires Paired(s) && c !in s.redis.owners && u in s'.net.issued
    requires u in s.net.issued ==> Good(ViewOf(s, u))
    ensures Good(ViewOf(s', u))
    ensures u != t ==> u in s.net.issued && ViewOf(s', u) == ViewOf(s, u) && Get(s'.redis.pending, u) == Get(s.redis.pending, u)
  {
    if u != t {
      assert ViewOf(s', u) == ViewOf(s, u) by {
        hide Good;
      }
    }
  }

  lemma ReserveKeeps(s: State, units: map<VoucherId, nat>, t: Token, c: Claim, now: Millis)
    requires Inv(s, units) && Enabled(s, Reserve(t, c, now))
    ensures Inv(Effect(s, Reserve(t, c, now)), units)
    ensures Untouched(s, Effect(s, Reserve(t, c, now)), t)
  {
    var s' := Effect(s, Reserve(t, c, now));
    if s' != s {
      assert c.user > 0;
      hide Good, ViewOf, Slots, RedisBalanced, DbBalanced, Claims, Indexed, Paired, Effect, Enabled, SeckillScript;
      ReserveSlots(s, s', t, c, now);
      ReservePaired(s, s', t, c, now);
      ReserveBalanced(s.redis, c, t, now, units);
      ReserveClaims(s, s', t, c, now, units);
      forall u | u in s'.net.issued
        ensures Good(ViewOf(s', u))
        ensures u != t ==> u in s.net.issued && ViewOf(s', u) == ViewOf(s, u) && Get(s'.redis.pending, u) == Get(s.redis.pending, u)
      {
        ReserveViews(s, s', t, c, now, u);
      }
    }
  }

  // ---------------------------------------------------------------- all steps

  lemma NothingUntouched(s: State, t: Token)
    ensures Untouched(s, s, t)
  {
  }

  /** Every step keeps the invariant and affects no reservation but its own. */
  lemma StepKeeps(s: State, units: map<VoucherId, nat>, step: Step, t: Token)
    requires Inv(s, units) && (TokenOfStep(s, step).Some? ==> TokenOfStep(s, step) == Some(t))
    ensures Inv(Apply(s, step), units) && Untouched(s, Apply(s, step), t)
  {
    hide Inv, Effect, Untouched;
    NothingUntouched(s, t);
    if Enabled(s, step) {
      match step
      case Reserve(_, c, now) => ReserveKeeps(s, units, t, c, now);
      case Allocate(_, o) => AllocateKeeps(s, units, t, o);
      case CreateCommit(o, _, _) => RowKeeps(s, units, step);
      case Cancel(o) => CancelKeeps(s, units, o);
      case ReleaseBound(o, keep) => ReleaseBoundKeeps(s, units, o, keep);
      case ReleaseUnbound(_) => ReleaseUnboundKeeps(s, units, t);
      case Complete(o) => BookkeepingKeeps(s, units, step);
      case Defer(_, now) => DeferKeeps(s, units, t, now);
      case CloseRelease(o) =>
        OrderKnown(s, units, o);
        CloseReleaseKeeps(s, units, o);
      case Pay(o, _, _) => if o in s.net.tokenOf { RowKeeps(s, units, step); } else { NoSuchRow(s, units, step); }
      case Close(o, _, _) => if o in s.net.tokenOf { RowKeeps(s, units, step); } else { NoSuchRow(s, units, step); }
      case MarkReleased(o) => if o in s.net.tokenOf { BookkeepingKeeps(s, units, step); } else { NoSuchRow(s, units, step); }
      case DeferReleaseRow(o, _) => if o in s.net.tokenOf { BookkeepingKeeps(s, units, step); } else { NoSuchRow(s, units, step); }
      case _ =>
        OrderKnown(s, units, step.order);
        EarlyKeeps(s, units, step);
    }
  }

  /** Only drawn order ids are bound, opened or closed. */
  lemma OrderKnown(s: State, units: map<VoucherId, nat>, o: OrderId)
    requires Inv(s, units)
    ensures o in s.db.releases || o in s.net.bound || o in s.net.creating || Known(s, o) ==> o in s.net.tokenOf
  {
    hide AllGood;
  }

  /** The invariant holds after every schedule. */
  lemma {:induction false} ExecKeeps(s: State, units: map<VoucherId, nat>, steps: seq<Step>)
    requires Inv(s, units)
    ensures Inv(Exec(s, steps), units)
    decreases |steps|
  {
    hide Inv, Apply;
    if steps != [] {
      var before, last := Exec(s, steps[..|steps| - 1]), steps[|steps| - 1];
      ExecKeeps(s, units, steps[..|steps| - 1]);
      StepKeeps(before, units, last, if TokenOfStep(before, last).Some? then TokenOfStep(before, last).value else 0);
    }
  }
}
