/** The service classes of the order path. Every call to Redis, MySQL or the broker may be
    preceded by any steps of other clients, may never arrive, or may lose its answer; an `Err`
    result is an exception. Each method states what its caller may rely on in spite of that,
    and, when nothing interferes, exactly which steps it performs. */
module OrderServices {
  import opened Common
  import opened OrderModel
  import opened OrderInvariant
  import opened OrderTheorems
  import opened OrderGrowth
  import opened OrderReturns
  import opened OrderScripts
  import opened OrderStores

  /** The message names an existing reservation and the order id drawn for it. */
  predicate Genuine(s: State, m: Message) {
    m.order.Some? && Known(s, m.order.value) && s.MessageOf(m.order.value) == m
  }

  /** A message that may still lack its order id. */
  predicate Plausible(s: State, m: Message) {
    if m.order.Some? then Genuine(s, m) else m.token in s.net.issued && s.net.issued[m.token] == m.claim
  }

  lemma PlausibleStays(s: State, s': State, m: Message)
    requires Plausible(s, m) && Grows(s, s')
    ensures Plausible(s', m) && (m.order.Some? ==> Genuine(s', m))
  {
  }

  /** The delivery row of the order id is decided and names another reservation. */
  predicate Conflicting(d: Database, m: Message) {
    && m.order.Some? && m.order.value in d.deliveries && d.deliveries[m.order.value].state != Open
    && (d.deliveries[m.order.value].claim != m.claim || d.deliveries[m.order.value].token != m.token)
  }

  /** A malformed message, or one whose order id belongs to another reservation: `lock` throws. */
  predicate Unacceptable(s: State, m: Message) {
    !m.Valid() || Conflicting(s.db, m)
  }

  /** A message of this system never conflicts. */
  lemma GenuineAccepted(s: State, units: map<VoucherId, nat>, m: Message)
    requires Inv(s, units) && Genuine(s, m)
    ensures !Unacceptable(s, m)
  {
    assert s.net.issued[m.token].voucher > 0 && s.net.issued[m.token].user > 0 by {
      hide AllGood, Paired, Slots, Indexed, RedisBalanced, DbBalanced;
    }
    assert m.order.value > 0 by {
      hide AllGood, Slots, Indexed, RedisBalanced, DbBalanced, Claims;
    }
    hide Inv;
    KnownPair(s, units, m.order.value);
  }

  lemma UnacceptableStays(s: State, s': State, m: Message)
    requires Unacceptable(s, m) && Grows(s, s')
    ensures Unacceptable(s', m)
  {
  }

  predicate Delivered(s: State, o: OrderId, state: DeliveryState) {
    o in s.db.deliveries && s.db.deliveries[o].state == state
  }

  lemma DeliveredStays(s: State, s': State, o: OrderId, state: DeliveryState)
    requires Delivered(s, o, state) && state != Open && Grows(s, s')
    ensures Delivered(s', o, state)
  {
  }

  /** The script refuses an order id that is not bound yet exactly when the reservation was taken back before. */
  lemma BindLapses(s: State, units: map<VoucherId, nat>, m: Message)
    requires Inv(s, units) && Genuine(s, m) && m.order.value !in s.net.bound
    ensures BindScript(s.redis, m.claim, m.token, m.order.value).1 != 1 <==> TakenBack(s, m.token)
    ensures TakenBack(s, m.token) ==> Apply(s, Step.Bind(m.order.value)) == s
  {
    hide Inv, Good, ViewOf;
    KnownPair(s, units, m.order.value);
    LapsedView(s, m);
  }

  lemma LapsedView(s: State, m: Message)
    requires Genuine(s, m) && Drawn(s, m.order.value) && Good(ViewOf(s, m.token)) && m.order.value !in s.net.bound
    ensures BindScript(s.redis, m.claim, m.token, m.order.value).1 != 1 <==> TakenBack(s, m.token)
    ensures TakenBack(s, m.token) ==> Apply(s, Step.Bind(m.order.value)) == s
  {
  }

  class OrderReservationService {
    const stores: Stores

    constructor (stores: Stores)
      ensures this.stores == stores
    {
      this.stores := stores;
    }

    method Reserve(m: Message, now: Millis) returns (r: Result<int>)
      requires stores.Valid() && stores.ownToken == Some(m.token) && m.token !in stores.net.issued && m.token !in stores.net.alloc
      requires m.claim.user > 0 && m.claim.voucher > 0 && now >= 0
      modifies stores
      ensures stores.Valid() && unchanged(stores`ownToken, stores`ownTx)
      ensures stores.tape == Rest(old(stores.tape))
      ensures old(stores.trace) <= stores.trace && Grows(old(stores.Now()), stores.Now())
      ensures r.Ok? <==> FirstFault(old(stores.tape)).Fine?
      ensures r.Ok? ==> (r.value == SUCCESS <==> m.token in stores.net.issued)
      ensures m.token in stores.net.issued ==> OnSale(stores.start.redis.meta, m.claim.voucher, now)
      ensures m.token in stores.net.issued ==> stores.net.issued[m.token] == m.claim && m.token !in stores.net.alloc
      ensures Silent(old(stores.tape)) ==> stores.trace == old(stores.trace) + [Step.Reserve(m.token, m.claim, now)]
      ensures Silent(old(stores.tape)) ==> r == Ok(SeckillScript(old(stores.RedisNow()), m.claim, m.token, now).1)
      ensures Silent(old(stores.tape)) ==> stores.Now() == Apply(old(stores.Now()), Step.Reserve(m.token, m.claim, now))
    {
      hide Grows, Fresh, Exec, Inv, OnSale;
      var f := stores.Disturb();
      if f.Lost? {
        return Err;
      }
      ghost var s := stores.Now();
      MetaNeverChanges(stores.start, stores.trace);
      ReserveAnswers(s.redis, m.claim, m.token, now);
      var code := stores.RunSeckill(m.claim, m.token, now);
      GrowsTrans(old(stores.Now()), s, stores.Now());
      if f.ReplyLost? {
        return Err;
      }
      return Ok(code);
    }

    method Bind(m: Message) returns (r: Result<bool>)
      requires stores.Valid() && Genuine(stores.Now(), m)
      modifies stores
      ensures stores.Valid() && unchanged(stores`ownToken, stores`ownTx)
      ensures stores.tape == Rest(old(stores.tape))
      ensures old(stores.trace) <= stores.trace && Grows(old(stores.Now()), stores.Now())
      ensures r.Ok? <==> FirstFault(old(stores.tape)).Fine?
      ensures r == Ok(true) ==> m.order.value in stores.net.bound
      ensures r == Ok(false) && stores.ownToken == Some(m.token) && m.order.value !in old(stores.net.bound) ==> TakenBack(stores.Now(), m.token)
      ensures Silent(old(stores.tape)) ==> stores.trace == old(stores.trace) + [Step.Bind(m.order.value)]
      ensures Silent(old(stores.tape)) ==> r == Ok(BindScript(old(stores.RedisNow()), m.claim, m.token, m.order.value).1 == 1)
    {
      hide Grows, Fresh, Exec, Inv, Apply, BindScript, TakenBack;
      var f := stores.Disturb();
      if f.Lost? {
        return Err;
      }
      ghost var s := stores.Now();
      PlausibleStays(old(stores.Now()), s, m);
      stores.ValidInv();
      if m.order.value !in s.net.bound {
        BindLapses(s, stores.units, m);
      }
      var code := stores.RunBind(m.order.value);
      GrowsTrans(old(stores.Now()), s, stores.Now());
      if f.ReplyLost? {
        return Err;
      }
      return Ok(code == 1);
    }

    /** With an order id the caller must have committed the cancellation with this keep flag. */
    method Release(m: Message, keep: bool) returns (r: Result<()>)
      requires stores.Valid() && Plausible(stores.Now(), m)
      requires if m.order.Some? then (m.order.value, keep) in stores.net.permits else !keep
      modifies stores
      ensures stores.Valid() && unchanged(stores`ownToken, stores`ownTx)
      ensures stores.tape == Rest(old(stores.tape))
      ensures old(stores.trace) <= stores.trace && Grows(old(stores.Now()), stores.Now())
      ensures Unaccompanied(old(stores.tape)) ==> SameOff(old(stores.pending), stores.pending, m.token)
      ensures r.Ok? ==> FirstFault(old(stores.tape)).Fine?
      ensures !FirstFault(old(stores.tape)).Lost? && Returnable(old(stores.Now()), m, stores.ownToken) ==> TakenBack(stores.Now(), m.token)
      ensures FirstFault(old(stores.tape)).Fine? && Unlanded(old(stores.Now()), m, stores.ownToken) ==> r.Ok?
      ensures Silent(old(stores.tape)) ==> stores.trace == old(stores.trace) + [ReleaseStep(m, keep)]
      ensures Silent(old(stores.tape)) ==>
        (r.Ok? <==> ReleaseScript(old(stores.RedisNow()), m.claim, m.token, m.order, keep).1 >= 0)
    {
      hide Grows, Fresh, Exec, Inv, Apply, ReleaseScript, TakenBack, Returnable, Unlanded, OwnSame;
      var f := stores.Disturb();
      if f.Lost? {
        return Err;
      }
      ghost var s := stores.Now();
      PlausibleStays(old(stores.Now()), s, m);
      PermitStays(old(stores.Now()), s, m, keep);
      stores.ValidInv();
      ReturnsNow(old(stores.Now()), s, stores.units, m, keep, stores.ownToken, stores.ownTx);
      IndexOnly(s, ReleaseStep(m, keep), m.token);
      var code;
      if m.order.Some? {
        code := stores.RunRelease(m.order.value, keep);
      } else {
        code := stores.RunReleaseUnbound(m.token);
      }
      GrowsTrans(old(stores.Now()), s, stores.Now());
      if f.ReplyLost? || code < 0 {
        return Err;
      }
      return Ok(());
    }

    method Complete(m: Message) returns (r: Result<()>)
      requires stores.Valid() && Genuine(stores.Now(), m) && Delivered(stores.Now(), m.order.value, Created)
      modifies stores
      ensures stores.Valid() && unchanged(stores`ownToken, stores`ownTx)
      ensures stores.tape == Rest(old(stores.tape))
      ensures old(stores.trace) <= stores.trace && Grows(old(stores.Now()), stores.Now())
      ensures r.Ok? <==> FirstFault(old(stores.tape)).Fine?
      ensures Unaccompanied(old(stores.tape)) ==> SameOff(old(stores.pending), stores.pending, m.token)
      ensures Silent(old(stores.tape)) ==> stores.trace == old(stores.trace) + [Step.Complete(m.order.value)]
    {
      hide Grows, Fresh, Exec, Inv, Apply;
      var f := stores.Disturb();
      if f.Lost? {
        return Err;
      }
      ghost var s := stores.Now();
      PlausibleStays(old(stores.Now()), s, m);
      DeliveredStays(old(stores.Now()), s, m.order.value, Created);
      IndexOnly(s, Step.Complete(m.order.value), m.token);
      stores.RunComplete(m.order.value);
      GrowsTrans(old(stores.Now()), s, stores.Now());
      return if f.ReplyLost? then Err else Ok(());
    }

    method Defer(t: Token, now: Millis) returns (r: Result<()>)
      requires stores.Valid() && now >= 0
      modifies stores
      ensures stores.Valid() && unchanged(stores`ownToken, stores`ownTx)
      ensures stores.tape == Rest(old(stores.tape))
      ensures old(stores.trace) <= stores.trace && Grows(old(stores.Now()), stores.Now())
      ensures r.Ok? <==> FirstFault(old(stores.tape)).Fine?
      ensures Unaccompanied(old(stores.tape)) ==> SameOff(old(stores.pending), stores.pending, t)
      ensures Silent(old(stores.tape)) ==> stores.Now() == Apply(old(stores.Now()), Step.Defer(t, now))
    {
      hide Grows, Fresh, Exec, Inv, Apply;
      var f := stores.Disturb();
      if f.Lost? {
        return Err;
      }
      ghost var s := stores.Now();
      IndexOnly(s, Step.Defer(t, now), t);
      stores.RunDefer(t, now);
      GrowsTrans(old(stores.Now()), s, stores.Now());
      return if f.ReplyLost? then Err else Ok(());
    }

    /** The entry of `candidates` with the lowest score. */
    method Lowest(candidates: set<Token>) returns (t: Token)
      requires candidates != {} && candidates <= stores.pending.Keys
      ensures t in candidates && forall u :: u in candidates ==> stores.pending[t] <= stores.pending[u]
    {
      t := Any(candidates);
      var rest := candidates;
      while rest != {}
        invariant rest <= candidates && t in candidates
        invariant forall u :: u in candidates && u !in rest ==> stores.pending[t] <= stores.pending[u]
        decreases rest
      {
        var u := Any(rest);
        rest := rest - {u};
        if stores.pending[u] < stores.pending[t] {
          t := u;
        }
      }
    }

    /** What ZRANGEBYSCORE answers at this moment. */
    method OldestPending(cutoff: Millis) returns (tokens: seq<Token>)
      ensures IsOverdueBatch(stores.pending, cutoff, tokens)
    {
      var pending := stores.pending;
      var rest := set t | t in pending && Eligible(pending, cutoff, t);
      tokens := [];
      while rest != {} && |tokens| < BATCH
        invariant forall i :: 0 <= i < |tokens| ==> Eligible(pending, cutoff, tokens[i])
        invariant forall t :: t in rest ==> Eligible(pending, cutoff, t) && t !in tokens
        invariant forall t :: Eligible(pending, cutoff, t) ==> t in tokens || t in rest
        invariant forall i, j :: 0 <= i < j < |tokens| ==> tokens[i] != tokens[j] && pending[tokens[i]] <= pending[tokens[j]]
        invariant forall t, i :: t in rest && 0 <= i < |tokens| ==> pending[tokens[i]] <= pending[t]
        invariant |tokens| <= BATCH
        decreases rest
      {
        var t := Lowest(rest);
        tokens, rest := tokens + [t], rest - {t};
      }
    }

    method Overdue(cutoff: Millis) returns (r: Result<seq<Token>>)
      requires stores.Valid()
      modifies stores
      ensures stores.Valid() && unchanged(stores`ownToken, stores`ownTx)
      ensures stores.tape == Rest(old(stores.tape))
      ensures old(stores.trace) <= stores.trace && Grows(old(stores.Now()), stores.Now())
      ensures r.Ok? <==> FirstFault(old(stores.tape)).Fine?
      ensures r.Ok? ==> IsOverdueBatch(stores.pending, cutoff, r.value)
      ensures Silent(old(stores.tape)) ==> stores.trace == old(stores.trace)
    {
      hide Grows, Fresh, Exec, Inv, Apply, IsOverdueBatch;
      var f := stores.Disturb();
      if !f.Fine? {
        return Err;
      }
      var tokens := OldestPending(cutoff);
      return Ok(tokens);
    }

    /** The recovery record of a token, as a message; a missing record is an exception. */
    method Read(t: Token) returns (r: Result<Message>)
      requires stores.Valid()
      modifies stores
      ensures stores.Valid() && unchanged(stores`ownToken, stores`ownTx)
      ensures stores.tape == Rest(old(stores.tape))
      ensures old(stores.trace) <= stores.trace && Grows(old(stores.Now()), stores.Now())
      ensures r.Ok? ==> r.value.token == t && Plausible(stores.Now(), r.value)
      ensures r.Ok? ==> FirstFault(old(stores.tape)).Fine?
      ensures Unaccompanied(old(stores.tape)) ==> stores.trace == old(stores.trace)
      ensures Silent(old(stores.tape)) ==>
        r == if t in old(stores.records) then Ok(Message(old(stores.records)[t].order, old(stores.records)[t].claim, t)) else Err
    {
      hide Grows, Fresh, Exec, Inv, Apply;
      var f := stores.Disturb();
      if !f.Fine? || t !in stores.records {
        return Err;
      }
      stores.ValidInv();
      RecordIsPlausible(stores.Now(), stores.units, t);
      return Ok(Message(stores.records[t].order, stores.records[t].claim, t));
    }
  }

  predicate Eligible(pending: map<Token, Millis>, cutoff: Millis, t: Token) {
    t in pending && 0 <= pending[t] <= cutoff
  }

  /** ZRANGEBYSCORE pending 0 cutoff LIMIT 0 100: the lowest scores first, and no more than a batch. */
  ghost predicate IsOverdueBatch(pending: map<Token, Millis>, cutoff: Millis, tokens: seq<Token>) {
    && (forall i :: 0 <= i < |tokens| ==> Eligible(pending, cutoff, tokens[i]))
    && (forall i, j :: 0 <= i < j < |tokens| ==> tokens[i] != tokens[j] && pending[tokens[i]] <= pending[tokens[j]])
    && |tokens| <= 100
    && (|tokens| < 100 ==> forall t :: Eligible(pending, cutoff, t) ==> t in tokens)
    && (forall t, i :: Eligible(pending, cutoff, t) && t !in tokens && 0 <= i < |tokens| ==> pending[tokens[i]] <= pending[t])
  }

  function ReleaseStep(m: Message, keep: bool): Step {
    if m.order.Some? then ReleaseBound(m.order.value, keep) else ReleaseUnbound(m.token)
  }

  /** The order of the message is cancelled for good, or the thread that owns the reservation has drawn none for it. */
  predicate Unlanded(s: State, m: Message, own: Option<Token>) {
    if m.order.Some? then Genuine(s, m) && Delivered(s, m.order.value, Cancelled)
    else own == Some(m.token) && m.token in s.net.issued && m.token !in s.net.alloc
  }

  /** And if there is an order id, it is bound, so that the release finds the record it names. */
  predicate Returnable(s: State, m: Message, own: Option<Token>) {
    Unlanded(s, m, own) && (m.order.Some? ==> m.order.value in s.net.bound)
  }

  /** Whatever others did since, the release takes the reservation back. */
  lemma ReturnsNow(before: State, s: State, units: map<VoucherId, nat>, m: Message, keep: bool, own: Option<Token>, tx: Option<OrderId>)
    requires Inv(s, units) && Plausible(before, m) && Plausible(s, m)
    requires Grows(before, s) && OwnSame(before, s, own, tx) && (m.order.None? ==> !keep)
    ensures Unlanded(before, m, own) ==> ReleaseScript(s.redis, m.claim, m.token, m.order, keep).1 >= 0
    ensures Returnable(before, m, own) ==>
      TakenBack(s.(redis := ReleaseScript(s.redis, m.claim, m.token, m.order, keep).0), m.token)
    ensures Enabled(s, ReleaseStep(m, keep)) ==>
      Apply(s, ReleaseStep(m, keep)) == s.(redis := ReleaseScript(s.redis, m.claim, m.token, m.order, keep).0)
  {
    hide Inv, ReleaseScript, TakenBack;
    if Unlanded(before, m, own) {
      if m.order.Some? {
        KnownPair(s, units, m.order.value);
        DeliveredStays(before, s, m.order.value, Cancelled);
        CancelledNoRow(s, m.order.value);
      }
      NeverRefused(s, units, m.token, m.order, keep);
      if Returnable(before, m, own) {
        ReleaseTakesBack(s, units, m.token, keep);
      }
    }
  }

  /** The cancelling transaction of a message of this system never fails by itself; it decides by the order row. */
  lemma CancelDecides(s: State, units: map<VoucherId, nat>, m: Message)
    requires Inv(s, units) && Genuine(s, m)
    ensures !Unacceptable(s, m) && CancelOutcome(s.db, m).Ok?
    ensures CancelOutcome(s.db, m).value == CREATED <==> m.order.value in s.db.orders
    ensures m.order.value !in s.net.creating ==>
      var s' := Apply(s, Step.Cancel(m.order.value)); s'.net.creating == s.net.creating && s'.db.orders == s.db.orders
  {
    GenuineAccepted(s, units, m);
    hide Inv;
    KnownPair(s, units, m.order.value);
    CancelAnswers(s.db, m);
    RowAgrees(s, m.order.value);
  }

  lemma RowAgrees(s: State, o: OrderId)
    requires Drawn(s, o) && Good(ViewOf(s, s.net.tokenOf[o]))
    ensures o in s.db.orders ==> s.db.orders[o].claim == s.net.issued[s.net.tokenOf[o]]
    ensures o in s.db.deliveries ==>
      s.db.deliveries[o].claim == s.net.issued[s.net.tokenOf[o]] && s.db.deliveries[o].token == s.net.tokenOf[o]
    ensures o in s.db.orders <==> Delivered(s, o, Created)
  {
  }

  lemma CancelledNoRow(s: State, o: OrderId)
    requires Drawn(s, o) && Good(ViewOf(s, s.net.tokenOf[o])) && Delivered(s, o, Cancelled)
    ensures o !in s.db.orders
  {
  }

  /** What these steps do to the recovery index they do to the entry of their own reservation. */
  lemma IndexOnly(s: State, step: Step, t: Token)
    requires step.ReleaseBound? || step.ReleaseUnbound? || step.Complete? || step.Defer?
    requires if step.ReleaseUnbound? || step.Defer? then step.token == t else Get(s.net.tokenOf, step.order) == Some(t)
    ensures SameOff(s.redis.pending, Apply(s, step).redis.pending, t)
  {
  }

  lemma PermitStays(s: State, s': State, m: Message, keep: bool)
    requires Grows(s, s') && (m.order.Some? ==> (m.order.value, keep) in s.net.permits)
    ensures m.order.Some? ==> (m.order.value, keep) in s'.net.permits
  {
  }

  lemma RecordIsPlausible(s: State, units: map<VoucherId, nat>, t: Token)
    requires Inv(s, units) && t in s.redis.records
    ensures Plausible(s, Message(s.redis.records[t].order, s.redis.records[t].claim, t))
  {
    assert t in s.net.issued && (t in s.net.alloc ==> Get(s.net.tokenOf, s.net.alloc[t]) == Some(t)) by {
      hide AllGood;
    }
    hide Inv;
    GoodAt(s, units, t);
  }

  // ---------------------------------------------------------- landing an order

  function WithPhase(s: State, o: OrderId, p: Option<Phase>): State {
    s.(net := s.net.(creating := if p.Some? then s.net.creating[o := p.value] else s.net.creating - {o}))
  }

  /** The state after each statement of `create`, for an order whose delivery row is open. */
  lemma LockState(s: State, o: OrderId)
    requires Enabled(s, CreateLock(o))
    ensures Apply(s, CreateLock(o)) ==
      if LockRow(s.db, s.MessageOf(o)).Ok? && LockRow(s.db, s.MessageOf(o)).value.state == Open then WithPhase(s, o, Some(Locked)) else s
  {
  }

  lemma OwnerState(s: State, o: OrderId)
    requires Enabled(s, CreateReadOwner(o))
    ensures Apply(s, CreateReadOwner(o)) ==
      WithPhase(s, o, if Get(s.redis.owners, s.MessageOf(o).claim) == Some(s.net.tokenOf[o]) then Some(OwnerSeen) else None)
  {
  }

  lemma RecordState(s: State, o: OrderId)
    requires Enabled(s, CreateReadRecord(o))
    ensures Apply(s, CreateReadRecord(o)) ==
      WithPhase(s, o, if s.net.tokenOf[o] in s.redis.records && s.redis.records[s.net.tokenOf[o]].order == Some(o) then Some(BoundSeen) else None)
  {
  }

  lemma CommitState(s: State, o: OrderId, now: Millis, timeout: Millis)
    requires Enabled(s, CreateCommit(o, now, timeout))
    ensures var writes := CreateWrites(s.db, s.MessageOf(o), now, timeout);
      Apply(s, CreateCommit(o, now, timeout)) == WithPhase(s, o, None).(db := if writes.Ok? then writes.value else s.db)
  {
  }

  lemma AbortState(s: State, o: OrderId)
    requires Enabled(s, CreateAbort(o))
    ensures Apply(s, CreateAbort(o)) == WithPhase(s, o, None)
  {
  }

  class OrderTransactionService {
    const stores: Stores

    constructor (stores: Stores)
      ensures this.stores == stores
    {
      this.stores := stores;
    }

    /** The open transaction ends without having written anything. */
    method Abort(o: OrderId)
      requires stores.Valid() && o in stores.net.creating
      modifies stores
      ensures stores.Valid() && stores.ownTx == None && unchanged(stores`ownToken, stores`tape)
      ensures old(stores.trace) <= stores.trace && Grows(old(stores.Now()), stores.Now())
      ensures stores.Now() == WithPhase(old(stores.Now()), o, None)
    {
      hide Grows, Fresh, Exec, Inv, Apply;
      AbortState(stores.Now(), o);
      stores.Rollback(o);
      stores.ownTx := None;
    }

    /** First HGET of `isBound`; false or an exception has rolled the transaction back. */
    method ReadOwner(m: Message) returns (r: Result<bool>)
      requires stores.Valid() && Genuine(stores.Now(), m)
      requires stores.ownTx == m.order && Get(stores.net.creating, m.order.value) == Some(Locked)
      modifies stores
      ensures stores.Valid() && unchanged(stores`ownToken)
      ensures old(stores.trace) <= stores.trace && Grows(old(stores.Now()), stores.Now())
      ensures stores.ownTx == (if r == Ok(true) then m.order else None)
      ensures r == Ok(true) ==> Get(stores.net.creating, m.order.value) == Some(OwnerSeen)
      ensures old(stores.tape) == [] ==> stores.tape == [] && r == Ok(OwnerIs(old(stores.RedisNow()), m))
      ensures old(stores.tape) == [] ==>
        stores.Now() == WithPhase(old(stores.Now()), m.order.value, if r == Ok(true) then Some(OwnerSeen) else None)
    {
      hide Grows, Fresh, Exec, Inv, Apply;
      var o := m.order.value;
      var f := stores.Disturb();
      ghost var s := stores.Now();
      PlausibleStays(old(stores.Now()), s, m);
      if !f.Fine? {
        Abort(o);
        GrowsTrans(old(stores.Now()), s, stores.Now());
        return Err;
      }
      OwnerState(s, o);
      var ok := stores.SeeOwner(o);
      GrowsTrans(old(stores.Now()), s, stores.Now());
      if !ok {
        stores.ownTx := None;
      }
      return Ok(ok);
    }

    /** Second HGET of `isBound`. */
    method ReadRecord(m: Message) returns (r: Result<bool>)
      requires stores.Valid() && Genuine(stores.Now(), m)
      requires stores.ownTx == m.order && Get(stores.net.creating, m.order.value) == Some(OwnerSeen)
      modifies stores
      ensures stores.Valid() && unchanged(stores`ownToken)
      ensures old(stores.trace) <= stores.trace && Grows(old(stores.Now()), stores.Now())
      ensures stores.ownTx == (if r == Ok(true) then m.order else None)
      ensures r == Ok(true) ==> Get(stores.net.creating, m.order.value) == Some(BoundSeen)
      ensures old(stores.tape) == [] ==> stores.tape == [] && r == Ok(RecordIs(old(stores.RedisNow()), m))
      ensures old(stores.tape) == [] ==>
        stores.Now() == WithPhase(old(stores.Now()), m.order.value, if r == Ok(true) then Some(BoundSeen) else None)
    {
      hide Grows, Fresh, Exec, Inv, Apply;
      var o := m.order.value;
      var f := stores.Disturb();
      ghost var s := stores.Now();
      PlausibleStays(old(stores.Now()), s, m);
      if !f.Fine? {
        Abort(o);
        GrowsTrans(old(stores.Now()), s, stores.Now());
        return Err;
      }
      RecordState(s, o);
      var ok := stores.SeeRecord(o);
      GrowsTrans(old(stores.Now()), s, stores.Now());
      if !ok {
        stores.ownTx := None;
      }
      return Ok(ok);
    }

    /** Both reads inside the open transaction. */
    method IsBound(m: Message) returns (r: Result<bool>)
      requires stores.Valid() && Genuine(stores.Now(), m)
      requires stores.ownTx == m.order && Get(stores.net.creating, m.order.value) == Some(Locked)
      modifies stores
      ensures stores.Valid() && unchanged(stores`ownToken)
      ensures old(stores.trace) <= stores.trace && Grows(old(stores.Now()), stores.Now())
      ensures stores.ownTx == (if r == Ok(true) then m.order else None)
      ensures r == Ok(true) ==> Get(stores.net.creating, m.order.value) == Some(BoundSeen)
      ensures old(stores.tape) == [] ==> stores.tape == [] && r == Ok(OwnerIs(old(stores.RedisNow()), m) && RecordIs(old(stores.RedisNow()), m))
      ensures old(stores.tape) == [] ==>
        stores.Now() == WithPhase(old(stores.Now()), m.order.value, if r == Ok(true) then Some(BoundSeen) else None)
    {
      hide Grows, Fresh, Exec, Inv, Apply, OwnerIs, RecordIs, Genuine;
      r := ReadOwner(m);
      if r == Ok(true) {
        ghost var s := stores.Now();
        GenuineStays(old(stores.Now()), s, m);
        r := ReadRecord(m);
        GrowsTrans(old(stores.Now()), s, stores.Now());
      }
    }

    /** `create` from the moment the row is locked; `f` is the fate of the locking statement. */
    method Land(m: Message, f: Fault, now: Millis, timeout: Millis) returns (r: Result<Outcome>)
      requires stores.Valid() && Genuine(stores.Now(), m)
      requires stores.ownTx == m.order && Get(stores.net.creating, m.order.value) == Some(Locked)
      modifies stores
      ensures stores.Valid() && stores.ownTx == None && unchanged(stores`ownToken)
      ensures old(stores.trace) <= stores.trace && Grows(old(stores.Now()), stores.Now())
      ensures r.Ok? ==> r.value == CREATED && Delivered(stores.Now(), m.order.value, Created)
      ensures old(stores.tape) == [] ==> stores.tape == []
      ensures old(stores.tape) == [] && f.Fine? ==>
        if OwnerIs(old(stores.RedisNow()), m) && RecordIs(old(stores.RedisNow()), m) && timeout > 0
        then r.Ok? && CreateWrites(old(stores.DatabaseNow()), m, now, timeout).Ok?
             && stores.Now() == WithPhase(old(stores.Now()), m.order.value, None).(db := CreateWrites(old(stores.DatabaseNow()), m, now, timeout).value)
        else r.Err? && stores.Now() == WithPhase(old(stores.Now()), m.order.value, None)
    {
      hide Grows, Fresh, Exec, Inv, Apply, OwnerIs, RecordIs, CreateWrites;
      var o := m.order.value;
      if !f.Fine? {
        Abort(o);
        return Err;
      }
      var bound := IsBound(m);
      if bound != Ok(true) {
        return Err;
      }
      ghost var s1 := stores.Now();
      var f' := stores.Disturb();
      ghost var s2 := stores.Now();
      GrowsTrans(old(stores.Now()), s1, s2);
      GenuineStays(old(stores.Now()), s2, m);
      if f'.Lost? {
        Abort(o);
        GrowsTrans(old(stores.Now()), s2, stores.Now());
        return Err;
      }
      BoundCommits(o, now, timeout);
      var ok := stores.CommitOrder(o, now, timeout);
      GrowsTrans(old(stores.Now()), s2, stores.Now());
      stores.ownTx := None;
      return if f'.Fine? && ok then Ok(CREATED) else Err;
    }

    /** Whatever other clients did since the reads, the writes will succeed. */
    lemma BoundCommits(o: OrderId, now: Millis, timeout: Millis)
      requires stores.Valid() && Get(stores.net.creating, o) == Some(BoundSeen) && Known(stores.Now(), o)
      ensures timeout > 0 ==> CreateWrites(stores.DatabaseNow(), stores.Now().MessageOf(o), now, timeout).Ok?
      ensures timeout <= 0 ==> CreateWrites(stores.DatabaseNow(), stores.Now().MessageOf(o), now, timeout).Err?
      ensures var writes := CreateWrites(stores.DatabaseNow(), stores.Now().MessageOf(o), now, timeout);
        Apply(stores.Now(), CreateCommit(o, now, timeout))
        == WithPhase(stores.Now(), o, None).(db := if writes.Ok? then writes.value else stores.DatabaseNow())
    {
      CommitState(stores.Now(), o, now, timeout);
      hide Fresh, Exec, Inv, Apply;
      stores.ValidInv();
      if timeout > 0 {
        CommitLands(stores.Now(), stores.units, o, now, timeout);
      }
    }

    /** OrderTransactionService.create. CREATED and CANCELLED are answers about committed rows. Undisturbed, a bound
        undecided order lands, a decided one is left alone, and anything else is an exception that changes nothing. */
    method Create(m: Message, now: Millis, timeout: Millis) returns (r: Result<Outcome>)
      requires stores.Valid() && stores.ownTx == None
      requires Unacceptable(stores.Now(), m) || (Genuine(stores.Now(), m) && m.order.value in stores.net.sent)
      modifies stores
      ensures stores.Valid() && stores.ownTx == None && unchanged(stores`ownToken)
      ensures old(stores.trace) <= stores.trace && Grows(old(stores.Now()), stores.Now())
      ensures r.Ok? ==> r.value != CANCELLED_KEEP_QUALIFICATION
      ensures r.Ok? ==> m.order.Some? && Delivered(stores.Now(), m.order.value, if r.value == CREATED then Created else Cancelled)
      ensures old(Unacceptable(stores.Now(), m)) ==> r.Err?
      ensures old(stores.tape) == [] ==> stores.tape == []
      ensures old(stores.tape) == [] ==> CreateResult(old(stores.Now()), stores.Now(), m, now, timeout, r)
    {
      hide Grows, Fresh, Exec, Inv, Apply;
      if !m.Valid() {
        GrowsRefl(stores.Now());
        return Err;
      }
      var o := m.order.value;
      var f := stores.Disturb();
      ghost var s := stores.Now();
      if old(Unacceptable(stores.Now(), m)) {
        UnacceptableStays(old(stores.Now()), s, m);
      }
      // another transaction holds the row, or the statement fails, or the row names another reservation
      if f.Lost? || o in stores.net.creating || Conflicting(stores.DatabaseNow(), m) {
        return Err;
      }
      PlausibleStays(old(stores.Now()), s, m);
      SentStays(old(stores.Now()), s, o);
      r := CreateLocked(m, f, now, timeout);
      GrowsTrans(old(stores.Now()), s, stores.Now());
    }

    /** `create` from its locking statement on. */
    method CreateLocked(m: Message, f: Fault, now: Millis, timeout: Millis) returns (r: Result<Outcome>)
      requires stores.Valid() && stores.ownTx == None && Genuine(stores.Now(), m) && m.order.value in stores.net.sent
      requires m.order.value !in stores.net.creating
      modifies stores
      ensures stores.Valid() && stores.ownTx == None && unchanged(stores`ownToken)
      ensures old(stores.trace) <= stores.trace && Grows(old(stores.Now()), stores.Now())
      ensures r.Ok? ==> r.value != CANCELLED_KEEP_QUALIFICATION
      ensures r.Ok? ==> Delivered(stores.Now(), m.order.value, if r.value == CREATED then Created else Cancelled)
      ensures old(stores.tape) == [] ==> stores.tape == []
      ensures old(stores.tape) == [] && f.Fine? ==> CreateResult(old(stores.Now()), stores.Now(), m, now, timeout, r)
    {
      hide Grows, Fresh, Exec, Inv, Apply;
      var o := m.order.value;
      ghost var s := stores.Now();
      LockState(s, o);
      var state := stores.LockDelivery(o);
      if state == Ok(Cancelled) {
        return if f.Fine? then Ok(CANCELLED) else Err;
      }
      if state == Ok(Created) {
        return if f.Fine? then Ok(CREATED) else Err;
      }
      if state.Err? {
        return Err;
      }
      PhaseGone(s, o, Locked);
      stores.ownTx := m.order;
      ghost var s1 := stores.Now();
      r := Land(m, f, now, timeout);
      GrowsTrans(old(stores.Now()), s1, stores.Now());
    }

    /** OrderTransactionService.cancel. CREATED is about a committed order; any other answer about a committed CANCELLED row. */
    method Cancel(m: Message) returns (r: Result<Outcome>)
      requires stores.Valid() && (Unacceptable(stores.Now(), m) || Genuine(stores.Now(), m))
      modifies stores
      ensures stores.Valid() && unchanged(stores`ownToken, stores`ownTx)
      ensures old(stores.trace) <= stores.trace && Grows(old(stores.Now()), stores.Now())
      ensures old(Unacceptable(stores.Now(), m)) ==> r.Err?
      ensures r.Ok? ==> m.order.Some? && Genuine(stores.Now(), m)
      ensures r.Ok? ==> Delivered(stores.Now(), m.order.value, if r.value == CREATED then Created else Cancelled)
      ensures r.Ok? && r.value != CREATED ==> (m.order.value, r.value == CANCELLED_KEEP_QUALIFICATION) in stores.net.permits
      ensures m.Valid() ==> stores.tape == Rest(old(stores.tape))
      ensures !m.Valid() ==> stores.tape == old(stores.tape) && stores.Now() == old(stores.Now())
      ensures FirstFault(old(stores.tape)).Fine? && !old(Unacceptable(stores.Now(), m)) ==>
        if m.order.value in stores.net.creating then r.Err? else r.Ok? && (r.value == CREATED <==> m.order.value in stores.orders)
      ensures Silent(old(stores.tape)) ==>
        if old(Unacceptable(stores.Now(), m)) || m.order.value in old(stores.net.creating) then r.Err? && stores.trace == old(stores.trace)
        else stores.trace == old(stores.trace) + [Step.Cancel(m.order.value)] && r == CancelOutcome(old(stores.DatabaseNow()), m)
      ensures r.Ok? ==> m.Valid() && FirstFault(old(stores.tape)).Fine?
      ensures Unaccompanied(old(stores.tape)) ==> stores.RedisNow() == old(stores.RedisNow())
    {
      hide Grows, Fresh, Exec, Inv, Apply, CancelTx;
      stores.ValidInv();
      if Genuine(stores.Now(), m) {
        GenuineAccepted(stores.Now(), stores.units, m);
      }
      if !m.Valid() {
        GrowsRefl(stores.Now());
        return Err;
      }
      var f := stores.Disturb();
      ghost var s := stores.Now();
      if old(Unacceptable(stores.Now(), m)) {
        UnacceptableStays(old(stores.Now()), s, m);
      } else {
        PlausibleStays(old(stores.Now()), s, m);
        stores.ValidInv();
        CancelDecides(s, stores.units, m);
      }
      if f.Lost? || m.order.value in stores.net.creating || Conflicting(stores.DatabaseNow(), m) {
        return Err;
      }
      r := stores.CommitCancel(m.order.value);
      assert r == CancelOutcome(s.db, m);
      GrowsTrans(old(stores.Now()), s, stores.Now());
      GenuineStays(s, stores.Now(), m);
      if f.ReplyLost? {
        return Err;
      }
    }
  }

  function CancelOutcome(d: Database, m: Message): Result<Outcome>
    requires m.order.Some?
  {
    match CancelTx(d, m)
    case Err => Err
    case Ok(p) => Ok(p.1)
  }

  /** What an undisturbed `create` answers and leaves behind. */
  predicate CreateResult(s: State, s': State, m: Message, now: Millis, timeout: Millis, r: Result<Outcome>) {
    if m.order.None? then r.Err? && s' == s else
    var o := m.order.value;
    if o in s.net.creating || LockRow(s.db, m).Err? then r.Err? && s' == s
    else if LockRow(s.db, m).value.state == Cancelled then r == Ok(CANCELLED) && s' == s
    else if LockRow(s.db, m).value.state == Created then r == Ok(CREATED) && s' == s
    else if OwnerIs(s.redis, m) && RecordIs(s.redis, m) && timeout > 0 then
      r == Ok(CREATED) && CreateWrites(s.db, m, now, timeout).Ok? && s' == s.(db := CreateWrites(s.db, m, now, timeout).value)
    else r.Err? && s' == s
  }

  lemma PhaseGone(s: State, o: OrderId, p: Phase)
    requires o !in s.net.creating
    ensures WithPhase(WithPhase(s, o, Some(p)), o, None) == s
  {
  }

  predicate OwnerIs(r: Redis, m: Message) {
    Get(r.owners, m.claim) == Some(m.token)
  }

  predicate RecordIs(r: Redis, m: Message) {
    m.token in r.records && r.records[m.token].order == m.order
  }

  /** No message passes `isBound` unless it is the message of an existing reservation with the order id drawn for it. */
  lemma BoundIsGenuine(s: State, units: map<VoucherId, nat>, m: Message)
    requires Inv(s, units) && m.order.Some? && OwnerIs(s.redis, m) && RecordIs(s.redis, m)
    ensures Genuine(s, m)
  {
    assert m.token in s.net.issued && s.net.issued[m.token] == m.claim by {
      hide AllGood, Paired, Indexed, RedisBalanced, DbBalanced, Claims;
    }
    hide Inv;
    RecordIsPlausible(s, units, m.token);
  }

  lemma GenuineStays(s: State, s': State, m: Message)
    requires Genuine(s, m) && Grows(s, s')
    ensures Genuine(s', m)
  {
  }

  lemma SentStays(s: State, s': State, o: OrderId)
    requires o in s.net.sent && Grows(s, s')
    ensures o in s'.net.sent
  {
  }
}
