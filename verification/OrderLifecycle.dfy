/** Paying, closing and giving a closed order's unit back to Redis. */
module OrderLifecycle {
  import opened Common
  import opened OrderModel
  import opened OrderInvariant
  import opened OrderPreservation
  import opened OrderTheorems
  import opened OrderGrowth
  import opened OrderScripts
  import opened OrderStores

  datatype PayAnswer = PaidNow | AlreadyPaid | NotFound | AlreadyClosed | Stale

  /** What an undisturbed payment answers. */
  function PayResult(d: Database, caller: UserId, o: OrderId, now: Millis): PayAnswer {
    if o !in d.orders || d.orders[o].claim.user != caller then NotFound
    else match d.orders[o].status
      case Paid => AlreadyPaid
      case Closed => AlreadyClosed
      case Pending => if d.orders[o].expire > now then PaidNow else Stale
  }

  /** Each answer has its own condition: somebody else's order is not found, and only the caller's own order that is neither
      paid nor closed nor expired is paid now. */
  lemma PayAnswers(d: Database, caller: UserId, o: OrderId, now: Millis)
    ensures var r, mine := PayResult(d, caller, o, now), o in d.orders && d.orders[o].claim.user == caller;
      && (r == NotFound <==> !mine)
      && (r == AlreadyPaid <==> mine && d.orders[o].status == Paid)
      && (r == AlreadyClosed <==> mine && d.orders[o].status == Closed)
      && (r == PaidNow <==> mine && d.orders[o].status == Pending && now < d.orders[o].expire)
      && (r == PaidNow <==> mine && PayUpdate(d, o, d.orders[o].version, now).1)
  {
  }

  predicate Closable(d: Database, o: OrderId, now: Millis) {
    o in d.orders && d.orders[o].status == Pending && d.orders[o].expire <= now
  }

  const RETRY_MILLIS := 10000

  /** The first hundred expired pending orders above the cursor, in id order. */
  ghost predicate IsExpiredBatch(d: Database, after: OrderId, now: Millis, ids: seq<OrderId>) {
    && (forall i :: 0 <= i < |ids| ==> Closable(d, ids[i], now) && ids[i] > after)
    && (forall i, j :: 0 <= i < j < |ids| ==> ids[i] < ids[j])
    && |ids| <= 100
    && (forall o :: Closable(d, o, now) && o > after && o !in ids ==> |ids| == 100 && ids[99] < o)
  }

  class OrderLifecycleService {
    const stores: Stores

    constructor (stores: Stores)
      ensures this.stores == stores
    {
      this.stores := stores;
    }

    /** The conditional update of `simulatePay`. */
    method PayRow(caller: UserId, o: OrderId, version: int, now: Millis) returns (r: Result<PayAnswer>)
      requires stores.Valid() && o in stores.orders && stores.orders[o].claim.user == caller
      modifies stores
      ensures stores.Valid() && unchanged(stores`ownToken, stores`ownTx)
      ensures old(stores.trace) <= stores.trace && Grows(old(stores.Now()), stores.Now())
      ensures r.Ok? ==> r.value == PaidNow || r.value == Stale
      ensures r == Ok(PaidNow) ==> o in stores.orders && stores.orders[o].claim.user == caller && stores.orders[o].status == Paid
      ensures old(stores.tape) == [] ==> stores.tape == [] && stores.Now() == Apply(old(stores.Now()), Pay(o, version, now))
      ensures old(stores.tape) == [] ==> r == Ok(if PayUpdate(old(stores.DatabaseNow()), o, version, now).1 then PaidNow else Stale)
    {
      hide Grows, Fresh, Exec, Inv, FirstFault, Rest;
      var f := stores.Disturb();
      ghost var s := stores.Now();
      if f.Lost? {
        return Err;
      }
      GrownRow(old(stores.Now()), s, o);
      var changed := stores.CommitPaid(o, version, now);
      GrowsTrans(old(stores.Now()), s, stores.Now());
      if f.ReplyLost? {
        return Err;
      }
      return Ok(if changed then PaidNow else Stale);
    }

    lemma PayMissed(s: State, o: OrderId, version: int, now: Millis)
      requires !PayUpdate(s.db, o, version, now).1
      ensures Apply(s, Pay(o, version, now)) == s
    {
    }

    /** OrderLifecycleService.simulatePay. A positive answer means the caller's order is paid now. */
    method SimulatePay(caller: UserId, o: OrderId, now: Millis) returns (r: Result<PayAnswer>)
      requires stores.Valid()
      modifies stores
      ensures stores.Valid() && unchanged(stores`ownToken, stores`ownTx)
      ensures old(stores.trace) <= stores.trace && Grows(old(stores.Now()), stores.Now())
      ensures r.Ok? && (r.value == PaidNow || r.value == AlreadyPaid) ==>
        o in stores.orders && stores.orders[o].claim.user == caller && stores.orders[o].status == Paid
      ensures old(stores.tape) == [] ==> stores.tape == [] && r == Ok(PayResult(old(stores.DatabaseNow()), caller, o, now))
      ensures old(stores.tape) == [] ==>
        stores.Now() == if r == Ok(PaidNow) then Apply(old(stores.Now()), Pay(o, old(stores.orders)[o].version, now)) else old(stores.Now())
    {
      hide Grows, Fresh, Exec, Inv, FirstFault, Rest;
      var f := stores.Disturb();
      if !f.Fine? {
        return Err;
      }
      if o !in stores.orders || stores.orders[o].claim.user != caller {
        return Ok(NotFound);
      }
      var row := stores.orders[o];
      if row.status == Paid {
        return Ok(AlreadyPaid);
      }
      if row.status == Closed {
        return Ok(AlreadyClosed);
      }
      ghost var s := stores.Now();
      r := PayRow(caller, o, row.version, now);
      GrowsTrans(old(stores.Now()), s, stores.Now());
      if !PayUpdate(s.db, o, row.version, now).1 {
        PayMissed(s, o, row.version, now);
      }
    }

    /** The lowest of some order ids. */
    method Lowest(ids: set<OrderId>) returns (o: OrderId)
      requires ids != {}
      ensures o in ids && forall p :: p in ids ==> o <= p
    {
      o := Any(ids);
      var rest := ids;
      while rest != {}
        invariant o in ids && forall p :: p in ids && p !in rest ==> o <= p
        decreases rest
      {
        var p := Any(rest);
        rest := rest - {p};
        if p < o {
          o := p;
        }
      }
    }

    /** What the SELECT of `expiredAfter` answers at this moment. */
    method SelectExpired(after: OrderId, now: Millis) returns (ids: seq<OrderId>)
      ensures IsExpiredBatch(stores.DatabaseNow(), after, now, ids)
    {
      var d := stores.DatabaseNow();
      var rest := set o | o in d.orders && Closable(d, o, now) && o > after;
      ids := [];
      while rest != {} && |ids| < BATCH
        invariant forall i :: 0 <= i < |ids| ==> Closable(d, ids[i], now) && ids[i] > after
        invariant forall i, j :: 0 <= i < j < |ids| ==> ids[i] < ids[j]
        invariant forall o :: o in rest ==> Closable(d, o, now) && o > after
        invariant forall o, i :: o in rest && 0 <= i < |ids| ==> ids[i] < o
        invariant forall o :: Closable(d, o, now) && o > after ==> o in ids || o in rest
        invariant |ids| <= BATCH
        decreases rest
      {
        var o := Lowest(rest);
        ids, rest := ids + [o], rest - {o};
      }
    }

    method ExpiredAfter(after: OrderId, now: Millis) returns (r: Result<seq<OrderId>>)
      requires stores.Valid()
      modifies stores
      ensures stores.Valid() && unchanged(stores`ownToken, stores`ownTx)
      ensures stores.tape == Rest(old(stores.tape)) && (r.Ok? <==> FirstFault(old(stores.tape)).Fine?)
      ensures old(stores.trace) <= stores.trace
      ensures r.Ok? ==> IsExpiredBatch(stores.DatabaseNow(), after, now, r.value)
      ensures old(stores.tape) == [] ==> r.Ok? && stores.tape == [] && stores.Now() == old(stores.Now())
    {
      hide Grows, Fresh, Exec, Inv, IsExpiredBatch;
      var f := stores.Disturb();
      if !f.Fine? {
        return Err;
      }
      var ids := SelectExpired(after, now);
      return Ok(ids);
    }

    lemma GrownRow(s: State, s': State, o: OrderId)
      requires Grows(s, s') && o in s.db.orders
      ensures o in s'.db.orders && RowForward(s.db.orders[o], s'.db.orders[o])
    {
    }

    /** `close` from its conditional update on: the statements that commit together. */
    method CloseRow(o: OrderId, version: int, now: Millis) returns (r: Result<bool>)
      requires stores.Valid()
      modifies stores
      ensures stores.Valid() && unchanged(stores`ownToken, stores`ownTx)
      ensures stores.tape == Rest(old(stores.tape))
      ensures old(stores.trace) <= stores.trace && Grows(old(stores.Now()), stores.Now())
      ensures r == Ok(true) ==> o in stores.orders && stores.orders[o].status == Closed && o in stores.releases
      ensures old(stores.tape) == [] ==>
        r == Ok(Closable(old(stores.DatabaseNow()), o, now) && old(stores.orders)[o].version == version)
      ensures old(stores.tape) == [] ==> stores.Now() == Apply(old(stores.Now()), Step.Close(o, version, now))
    {
      hide Grows, Fresh, Exec, Inv, RowForward, FirstFault, Rest;
      var f := stores.Disturb();
      ghost var s := stores.Now();
      if f.Lost? {
        return Err;
      }
      stores.ValidInv();
      CloseCannotFail(s, stores.units, o, version, now);
      r := stores.CommitClose(o, version, now);
      GrowsTrans(old(stores.Now()), s, stores.Now());
      if f.ReplyLost? {
        return Err;
      }
    }

    /** OrderLifecycleService.close. True means the order is closed and its release row is saved. */
    method Close(o: OrderId, now: Millis) returns (r: Result<bool>)
      requires stores.Valid()
      modifies stores
      ensures stores.Valid() && unchanged(stores`ownToken, stores`ownTx)
      ensures Consumed(Rest(old(stores.tape)), stores.tape)
      ensures old(stores.trace) <= stores.trace && Grows(old(stores.Now()), stores.Now())
      ensures r == Ok(true) ==> o in stores.orders && stores.orders[o].status == Closed && o in stores.releases
      ensures old(stores.tape) == [] && r == Ok(true) ==> Due(stores.releases, o, now)
      ensures old(stores.tape) == [] ==> stores.tape == [] && r == Ok(Closable(old(stores.DatabaseNow()), o, now))
      ensures old(stores.tape) == [] ==>
        stores.Now() == if r == Ok(true) then Apply(old(stores.Now()), Step.Close(o, old(stores.orders)[o].version, now)) else old(stores.Now())
    {
      hide Grows, Fresh, Exec, Inv, FirstFault, Consumed, CloseTx;
      var f := stores.Disturb();
      ConsumedRest(stores.tape);
      if !f.Fine? {
        return Err;
      }
      if o !in stores.orders || stores.orders[o].status != Pending {
        return Ok(false);
      }
      ghost var s := stores.Now();
      stores.ValidInv();
      CloseCannotFail(s, stores.units, o, stores.orders[o].version, now);
      r := CloseRow(o, stores.orders[o].version, now);
      GrowsTrans(old(stores.Now()), s, stores.Now());
      if !Closable(s.db, o, now) {
        UpdateMissed(s, o, now);
      } else {
        DueAtOnce(s, stores.units, o, now);
      }
    }

    /** The release row of a fresh close waits for nothing. */
    lemma DueAtOnce(s: State, units: map<VoucherId, nat>, o: OrderId, now: Millis)
      requires Closable(s.db, o, now) && CloseTx(s.db, o, s.db.orders[o].version, now).Ok?
      ensures Due(Apply(s, Step.Close(o, s.db.orders[o].version, now)).db.releases, o, now)
    {
      CloseWrites(s.db, o, s.db.orders[o].version, now);
    }

    lemma UpdateMissed(s: State, o: OrderId, now: Millis)
      requires o in s.db.orders && !Closable(s.db, o, now)
      ensures Apply(s, Step.Close(o, s.db.orders[o].version, now)) == s
    {
    }

    /** The stock row exists and the release row does not, so the conditional update alone decides. */
    lemma CloseCannotFail(s: State, units: map<VoucherId, nat>, o: OrderId, version: int, now: Millis)
      requires Inv(s, units)
      ensures CloseTx(s.db, o, version, now).Ok?
      ensures CloseTx(s.db, o, version, now).value.1 <==> Closable(s.db, o, now) && s.db.orders[o].version == version
    {
      if o in s.db.orders && s.db.orders[o].status == Pending {
        RowsKnown(s, units, o);
        assert s.db.stock.Keys == units.Keys && s.net.tokenOf[o] in s.net.issued && s.net.issued[s.net.tokenOf[o]].voucher in units by {
          hide AllGood, Slots, Indexed, RedisBalanced;
        }
        hide Inv;
        KnownPair(s, units, o);
      }
    }
  }

  // ---------------------------------------------------- returning closed units

  predicate Due(rows: map<OrderId, OrderModel.Release>, o: OrderId, now: Millis) {
    o in rows && !rows[o].completed && rows[o].retryAt <= now
  }

  /** ORDER BY retry_time, order_id. */
  predicate DueBefore(rows: map<OrderId, OrderModel.Release>, a: OrderId, b: OrderId) {
    a in rows && b in rows && (rows[a].retryAt < rows[b].retryAt || (rows[a].retryAt == rows[b].retryAt && a < b))
  }

  /** The first hundred uncompleted rows that are due. */
  ghost predicate IsDueBatch(rows: map<OrderId, OrderModel.Release>, now: Millis, ids: seq<OrderId>) {
    && (forall i :: 0 <= i < |ids| ==> Due(rows, ids[i], now))
    && (forall i, j :: 0 <= i < j < |ids| ==> DueBefore(rows, ids[i], ids[j]))
    && |ids| <= 100
    && (forall o :: Due(rows, o, now) && o !in ids ==> |ids| == 100 && DueBefore(rows, ids[99], o))
  }

  /** Redis has the unit of the closed order and its release row says so. */
  predicate GivenBack(s: State, o: OrderId) {
    o in s.db.releases && s.db.releases[o].completed && o in s.redis.closed
  }

  /** The row is done with, or put off to this time. */
  predicate Handled(s: State, o: OrderId, at: Millis) {
    GivenBack(s, o) || (o in s.db.releases && s.db.releases[o].retryAt == at)
  }

  /** The release row of an order, as some task read it earlier. */
  predicate ReadBefore(s: State, o: OrderId, row: Release) {
    o in s.db.releases && SameRelease(row, s.db.releases[o])
  }

  /** A closed order either got its unit back already or still holds it: the script never refuses. */
  lemma CloseReleaseWorks(s: State, units: map<VoucherId, nat>, o: OrderId)
    requires Inv(s, units) && o in s.db.releases
    ensures CloseReleaseScript(s.redis, s.db.releases[o].claim, s.db.releases[o].token, o).1 >= 0
  {
    OrderKnown(s, units, o);
    var t := s.net.tokenOf[o];
    assert t in s.net.issued && s.net.issued[t].voucher in units && units[s.net.issued[t].voucher] <= MAX_STOCK by {
      hide AllGood, Slots, Indexed, RedisBalanced, DbBalanced;
    }
    var c := s.net.issued[t];
    if o !in s.redis.closed {
      ClosedHolder(s, units, o, t);
      assert c.voucher in s.redis.stock && c.voucher in s.redis.users && 0 <= s.redis.stock[c.voucher] < MAX_STOCK by {
        hide AllGood, Paired, Slots, Indexed, DbBalanced, Claims;
        assert c in OwnersOf(s.redis, c.voucher);
      }
      assert c.user in s.redis.users[c.voucher] by {
        hide AllGood, Paired, Indexed, RedisBalanced, DbBalanced, Claims;
      }
      hide Inv;
    }
  }

  lemma ClosedHolder(s: State, units: map<VoucherId, nat>, o: OrderId, t: Token)
    requires Inv(s, units) && o in s.db.releases && o !in s.redis.closed && Get(s.net.tokenOf, o) == Some(t)
    ensures t in s.net.issued && Get(s.redis.owners, s.net.issued[t]) == Some(t)
    ensures s.db.releases[o].claim == s.net.issued[t] && s.db.releases[o].token == Some(t)
  {
    hide Inv;
    KnownPair(s, units, o);
  }

  class OrderStockReleaseService {
    const stores: Stores

    constructor (stores: Stores)
      ensures this.stores == stores
    {
      this.stores := stores;
    }

    /** The script half: Redis has the unit of this order when the call returns normally. */
    method Credit(o: OrderId) returns (r: Result<()>)
      requires stores.Valid() && o in stores.releases
      modifies stores
      ensures stores.Valid() && unchanged(stores`ownToken, stores`ownTx)
      ensures stores.tape == Rest(old(stores.tape))
      ensures old(stores.trace) <= stores.trace && Grows(old(stores.Now()), stores.Now())
      ensures o in stores.releases && (r.Ok? ==> o in stores.closed)
      ensures r.Ok? <==> FirstFault(old(stores.tape)).Fine?
      ensures Unaccompanied(old(stores.tape)) ==> stores.releases == old(stores.releases)
    {
      hide Grows, Fresh, Exec, Inv, Apply, CloseReleaseScript, SameRelease, Rest;
      var f := stores.Disturb();
      ghost var s := stores.Now();
      ReleaseStays(old(stores.Now()), s, o);
      if f.Lost? {
        return Err;
      }
      stores.ValidInv();
      CloseReleaseWorks(s, stores.units, o);
      RedisOnly(s, o);
      var code := stores.RunCloseRelease(o);
      GrowsTrans(old(stores.Now()), s, stores.Now());
      ReleaseStays(s, stores.Now(), o);
      return if f.ReplyLost? || code < 0 then Err else Ok(());
    }

    /** The database half: the row of a credited order is marked completed. */
    method MarkDone(o: OrderId) returns (r: Result<()>)
      requires stores.Valid() && o in stores.releases && o in stores.closed
      modifies stores
      ensures stores.Valid() && unchanged(stores`ownToken, stores`ownTx)
      ensures stores.tape == Rest(old(stores.tape))
      ensures old(stores.trace) <= stores.trace && Grows(old(stores.Now()), stores.Now())
      ensures o in stores.releases && o in stores.closed && (r.Ok? ==> stores.releases[o].completed)
      ensures r.Ok? <==> FirstFault(old(stores.tape)).Fine?
      ensures Unaccompanied(old(stores.tape)) ==> SameOff(old(stores.releases), stores.releases, o)
      ensures Unaccompanied(old(stores.tape)) ==> stores.releases[o].retryAt == old(stores.releases[o]).retryAt
    {
      hide Grows, Fresh, Exec, Inv, Apply, SameRelease, Rest;
      var f := stores.Disturb();
      ghost var s := stores.Now();
      ReleaseStays(old(stores.Now()), s, o);
      if f.Lost? {
        return Err;
      }
      DoneOnly(s, o);
      stores.CommitReleaseDone(o);
      GrowsTrans(old(stores.Now()), s, stores.Now());
      ReleaseStays(s, stores.Now(), o);
      return if f.ReplyLost? then Err else Ok(());
    }

    /** OrderStockReleaseService.release. A normal return means Redis has the unit and the row says so. */
    method Release(o: OrderId, row: OrderModel.Release) returns (r: Result<()>)
      requires stores.Valid() && ReadBefore(stores.Now(), o, row)
      modifies stores
      ensures stores.Valid() && unchanged(stores`ownToken, stores`ownTx)
      ensures Consumed(old(stores.tape), stores.tape)
      ensures old(stores.trace) <= stores.trace && Grows(old(stores.Now()), stores.Now())
      ensures o in stores.releases && (r.Ok? && !row.completed ==> o in stores.closed && stores.releases[o].completed)
      ensures old(stores.tape) == [] ==> r.Ok? && stores.tape == []
      ensures r.Err? ==> LastFailed(old(stores.tape), stores.tape)
      ensures Lone(old(stores.tape)) ==> SameOff(old(stores.releases), stores.releases, o)
    {
      hide Grows, Fresh, Exec, Inv, SameRelease, Consumed, Rest, FirstFault, Lone, Unaccompanied, LastFailed, LastTwoFailed;
      ghost var t := stores.tape;
      TapeTwice(t);
      if row.completed {
        GrowsRefl(stores.Now());
        return Ok(());
      }
      if !FirstFault(t).Fine? {
        FailedNow(t, t);
      } else if !FirstFault(Rest(t)).Fine? {
        FailedNow(t, Rest(t));
      }
      r := Credit(o);
      if r.Ok? {
        ghost var s := stores.Now();
        r := MarkDone(o);
        GrowsTrans(old(stores.Now()), s, stores.Now());
      }
    }

    /** Puts the row back for a later try. */
    method DeferRow(o: OrderId, now: Millis) returns (r: Result<()>)
      requires stores.Valid()
      modifies stores
      ensures stores.Valid() && unchanged(stores`ownToken, stores`ownTx)
      ensures stores.tape == Rest(old(stores.tape))
      ensures old(stores.trace) <= stores.trace && Grows(old(stores.Now()), stores.Now())
      ensures r.Ok? <==> FirstFault(old(stores.tape)).Fine?
      ensures Unaccompanied(old(stores.tape)) ==> SameOff(old(stores.releases), stores.releases, o)
      ensures Unaccompanied(old(stores.tape)) && r.Ok? && o in old(stores.releases) ==>
        var was := old(stores.releases[o]);
        Get(stores.releases, o) == Some(if was.completed then was else was.(retryAt := now + 10000))
    {
      hide Grows, Fresh, Exec, Inv, Apply, Rest;
      var f := stores.Disturb();
      if f.Lost? {
        return Err;
      }
      ghost var s := stores.Now();
      DeferOnly(s, o, now + RETRY_MILLIS);
      stores.CommitReleaseRetry(o, now + RETRY_MILLIS);
      GrowsTrans(old(stores.Now()), s, stores.Now());
      return if f.ReplyLost? then Err else Ok(());
    }

    /** The row of `ids` that is due first. */
    method FirstDue(rows: map<OrderId, OrderModel.Release>, ids: set<OrderId>) returns (o: OrderId)
      requires ids != {} && ids <= rows.Keys
      ensures o in ids && forall p :: p in ids && p != o ==> DueBefore(rows, o, p)
    {
      o := Any(ids);
      var rest := ids;
      while rest != {}
        invariant rest <= ids && o in ids && forall p :: p in ids && p !in rest && p != o ==> DueBefore(rows, o, p)
        decreases rest
      {
        var p := Any(rest);
        rest := rest - {p};
        if p != o && !DueBefore(rows, o, p) {
          o := p;
        }
      }
    }

    /** OrderStockReleaseMapper.pending */
    method SelectPending(now: Millis) returns (ids: seq<OrderId>)
      ensures IsDueBatch(stores.releases, now, ids)
    {
      var rows := stores.releases;
      var rest := set o | o in rows && Due(rows, o, now);
      ids := [];
      while rest != {} && |ids| < BATCH
        invariant forall i :: 0 <= i < |ids| ==> Due(rows, ids[i], now)
        invariant forall i, j :: 0 <= i < j < |ids| ==> DueBefore(rows, ids[i], ids[j])
        invariant forall o :: o in rest ==> Due(rows, o, now)
        invariant forall o, i :: o in rest && 0 <= i < |ids| ==> DueBefore(rows, ids[i], o)
        invariant forall o :: Due(rows, o, now) ==> o in ids || o in rest
        invariant |ids| <= BATCH
        decreases rest
      {
        var o := FirstDue(rows, rest);
        ids, rest := ids + [o], rest - {o};
      }
    }

    /** One pass of the loop of `retryPending`: a release, and if that fails, a deferral by ten seconds; if that fails, too,
        the loop ends. */
    method OneRow(o: OrderId, row: OrderModel.Release, now: Millis) returns (stop: bool)
      requires stores.Valid() && ReadBefore(stores.Now(), o, row) && !row.completed
      modifies stores
      ensures stores.Valid() && unchanged(stores`ownToken, stores`ownTx)
      ensures Consumed(old(stores.tape), stores.tape)
      ensures old(stores.trace) <= stores.trace && Grows(old(stores.Now()), stores.Now())
      ensures stop ==> LastTwoFailed(old(stores.tape), stores.tape)
      ensures Lone(old(stores.tape)) ==> SameOff(old(stores.releases), stores.releases, o)
      ensures Lone(old(stores.tape)) && !stop ==> Handled(stores.Now(), o, now + 10000)
      ensures old(stores.tape) == [] ==> stores.tape == [] && !stop && GivenBack(stores.Now(), o)
    {
      hide Grows, Fresh, Exec, Inv, SameRelease, Consumed, Rest, FirstFault, Lone, Unaccompanied, LastFailed, LastTwoFailed;
      ghost var t := stores.tape;
      stop := false;
      var r := Release(o, row);
      ghost var s, left := stores.Now(), stores.tape;
      if r.Err? {
        ConsumedRest(left);
        ConsumedTrans(t, left, Rest(left));
        if Lone(t) {
          LoneLater(t, left);
        }
        if !FirstFault(left).Fine? {
          FailedNow(t, left);
        }
        var deferred := DeferRow(o, now);
        GrowsTrans(old(stores.Now()), s, stores.Now());
        stop := deferred.Err?;
        stores.ValidInv();
        CompletedCredited(stores.Now(), stores.units, o);
      }
    }

    /** The loop of `retryPending` over the selected rows; `tried` is how many got through their turn. */
    method RetryRows(ids: seq<OrderId>, rows: map<OrderId, OrderModel.Release>, now: Millis) returns (ghost tried: nat)
      requires stores.Valid() && rows == stores.releases
      requires forall i :: 0 <= i < |ids| ==> ids[i] in rows && !rows[ids[i]].completed
      requires forall i, j :: 0 <= i < j < |ids| ==> ids[i] != ids[j]
      modifies stores
      ensures stores.Valid() && unchanged(stores`ownToken, stores`ownTx) && old(stores.trace) <= stores.trace
      ensures Consumed(old(stores.tape), stores.tape) && Grows(old(stores.Now()), stores.Now())
      ensures tried <= |ids| && (tried < |ids| ==> LastTwoFailed(old(stores.tape), stores.tape))
      ensures Lone(old(stores.tape)) ==> forall i :: 0 <= i < tried ==> Handled(stores.Now(), ids[i], now + 10000)
      ensures old(stores.tape) == [] ==>
        stores.tape == [] && tried == |ids| && forall i :: 0 <= i < |ids| ==> GivenBack(stores.Now(), ids[i])
    {
      hide Grows, Fresh, Exec, Inv, SameRelease, FirstFault, Rest, Consumed, Lone, Unaccompanied, LastTwoFailed;
      ghost var t, s0 := stores.tape, stores.Now();
      GrowsRefl(s0);
      ConsumedRest(t);
      tried := 0;
      for i := 0 to |ids|
        invariant stores.Valid() && unchanged(stores`ownToken, stores`ownTx) && old(stores.trace) <= stores.trace
        invariant Grows(s0, stores.Now()) && Consumed(t, stores.tape) && tried == i
        invariant Lone(t) ==> forall j :: 0 <= j < i ==> Handled(stores.Now(), ids[j], now + 10000)
        invariant t == [] ==> stores.tape == [] && forall j :: 0 <= j < i ==> GivenBack(stores.Now(), ids[j])
      {
        ghost var s, left := stores.Now(), stores.tape;
        CompletedStays(s0, s, ids[i], rows[ids[i]]);
        if Lone(t) {
          LoneLater(t, left);
        }
        var stop := OneRow(ids[i], rows[ids[i]], now);
        GrowsTrans(s0, s, stores.Now());
        ConsumedTrans(t, left, stores.tape);
        FailedLater(t, left, stores.tape);
        RowsKept(s, stores.Now(), ids, i, now + 10000);
        if stop {
          return;
        }
        tried := tried + 1;
      }
    }

    lemma RowsKept(s: State, s': State, ids: seq<OrderId>, i: nat, at: Millis)
      requires Grows(s, s') && i < |ids| && forall a, b :: 0 <= a < b < |ids| ==> ids[a] != ids[b]
      ensures forall j :: 0 <= j < i && GivenBack(s, ids[j]) ==> GivenBack(s', ids[j])
      ensures SameOff(s.db.releases, s'.db.releases, ids[i]) ==>
        forall j :: 0 <= j < i && Handled(s, ids[j], at) ==> Handled(s', ids[j], at)
    {
      hide Grows;
      forall j | 0 <= j < i
        ensures GivenBack(s, ids[j]) ==> GivenBack(s', ids[j])
        ensures SameOff(s.db.releases, s'.db.releases, ids[i]) && Handled(s, ids[j], at) ==> Handled(s', ids[j], at)
      {
        ReleaseStays(s, s', ids[j]);
        assert SameOff(s.db.releases, s'.db.releases, ids[i]) ==> Get(s.db.releases, ids[j]) == Get(s'.db.releases, ids[j]);
      }
    }

    /** OrderStockReleaseService.retryPending. Undisturbed, the batch is the first hundred due rows and all of them are
        credited and completed. Otherwise `tried` says how many of them got through their turn: all, unless both the
        release of one and its deferral failed, as the last two calls; and with nobody else at work each of them is credited and completed, or
        put off by ten seconds. */
    method RetryPending(now: Millis) returns (ghost batch: seq<OrderId>, ghost tried: nat)
      requires stores.Valid()
      modifies stores
      ensures stores.Valid() && unchanged(stores`ownToken, stores`ownTx) && old(stores.trace) <= stores.trace
      ensures Consumed(old(stores.tape), stores.tape)
      ensures Grows(old(stores.Now()), stores.Now())
      ensures tried <= |batch|
      ensures !FirstFault(old(stores.tape)).Fine? ==> batch == []
      ensures tried < |batch| ==> LastTwoFailed(old(stores.tape), stores.tape)
      ensures FirstFault(old(stores.tape)).Fine? && Lone(old(stores.tape)) ==>
        && IsDueBatch(old(stores.releases), now, batch)
        && forall i :: 0 <= i < tried ==> Handled(stores.Now(), batch[i], now + 10000)
      ensures old(stores.tape) == [] ==>
        && stores.tape == []
        && IsDueBatch(old(stores.releases), now, batch) && tried == |batch|
        && (forall i :: 0 <= i < |batch| ==> GivenBack(stores.Now(), batch[i]))
    {
      hide Grows, Fresh, Exec, Inv, SameRelease, FirstFault, Rest, Consumed, Lone, Unaccompanied, IsDueBatch, LastTwoFailed;
      ghost var t := stores.tape;
      GrowsRefl(stores.Now());
      TapeTwice(t);
      batch, tried := [], 0;
      var f := stores.Disturb();
      if !f.Fine? {
        return;
      }
      var ids := SelectPending(now);
      batch := ids;
      DueFacts(stores.releases, now, ids);
      ghost var s0, left := stores.Now(), stores.tape;
      if Lone(t) {
        LoneLater(t, left);
      }
      tried := RetryRows(ids, stores.releases, now);
      GrowsTrans(old(stores.Now()), s0, stores.Now());
      ConsumedTrans(t, left, stores.tape);
      FailedLater(t, left, stores.tape);
    }

    lemma DueFacts(rows: map<OrderId, OrderModel.Release>, now: Millis, ids: seq<OrderId>)
      requires IsDueBatch(rows, now, ids)
      ensures forall i :: 0 <= i < |ids| ==> ids[i] in rows && !rows[ids[i]].completed
      ensures forall i, j :: 0 <= i < j < |ids| ==> ids[i] != ids[j]
    {
    }

    static lemma TapeTwice(t: seq<Disturbance<Step>>)
      ensures Consumed(t, t) && Consumed(t, Rest(t)) && Consumed(t, Rest(Rest(t)))
      ensures Lone(t) ==> Unaccompanied(t) && Unaccompanied(Rest(t))
      ensures t == [] ==> Rest(t) == [] && FirstFault(t).Fine? && Unaccompanied(t) && Lone(t)
    {
    }

    static lemma RedisOnly(s: State, o: OrderId)
      ensures Apply(s, CloseRelease(o)).db == s.db
    {
    }

    static lemma DoneOnly(s: State, o: OrderId)
      ensures var s' := Apply(s, MarkReleased(o));
        && SameOff(s.db.releases, s'.db.releases, o)
        && (o in s.db.releases ==> o in s'.db.releases && s'.db.releases[o].retryAt == s.db.releases[o].retryAt)
    {
    }

    static lemma DeferOnly(s: State, o: OrderId, at: Millis)
      ensures var s' := Apply(s, DeferReleaseRow(o, at));
        && SameOff(s.db.releases, s'.db.releases, o)
        && (o in s.db.releases ==>
              Get(s'.db.releases, o) == Some(if s.db.releases[o].completed then s.db.releases[o] else s.db.releases[o].(retryAt := at)))
    {
    }

    /** A completed row belongs to an order whose unit Redis has. */
    static lemma CompletedCredited(s: State, units: map<VoucherId, nat>, o: OrderId)
      requires Inv(s, units) && o in s.db.releases
      ensures s.db.releases[o].completed ==> o in s.redis.closed
    {
      OrderKnown(s, units, o);
      hide Inv;
      KnownPair(s, units, o);
      CompletedView(s, o);
    }

    static lemma CompletedView(s: State, o: OrderId)
      requires o in s.db.releases && Drawn(s, o) && Good(ViewOf(s, s.net.tokenOf[o]))
      ensures s.db.releases[o].completed ==> o in s.redis.closed
    {
    }

    lemma CompletedStays(s: State, s': State, o: OrderId, row: OrderModel.Release)
      requires Grows(s, s') && Get(s.db.releases, o) == Some(row) && !row.completed
      ensures ReadBefore(s', o, row)
    {
    }

    lemma ReleaseStays(s: State, s': State, o: OrderId)
      requires Grows(s, s')
      ensures o in s.db.releases ==> o in s'.db.releases && SameRelease(s.db.releases[o], s'.db.releases[o])
      ensures o in s.redis.closed ==> o in s'.redis.closed
      ensures GivenBack(s, o) ==> GivenBack(s', o)
    {
    }
  }
}
