/** What clients and operators rely on, stated over every schedule of every interleaving: a bound reservation lands,
    stale work leaves newer reservations alone, and delivery decisions are final. */
module OrderTheorems {
  import opened Common
  import opened OrderModel
  import opened OrderInvariant
  import opened OrderPreservation

  // ------------------------------------------------------------ landing

  /** `isBound`: the owner entry is the token and the record carries the order id. */
  predicate IsBound(s: State, o: OrderId)
    requires Known(s, o)
  {
    var m := s.MessageOf(o);
    && Get(s.redis.owners, m.claim) == Some(m.token)
    && m.token in s.redis.records && s.redis.records[m.token].order == Some(o)
  }

  /** Neither delivery state is final yet. */
  predicate Undecided(s: State, o: OrderId) {
    o !in s.db.deliveries || s.db.deliveries[o].state == Open
  }

  lemma HolderWithoutRow(s: State, o: OrderId)
    requires Drawn(s, o) && Good(ViewOf(s, s.net.tokenOf[o])) && Undecided(s, o)
    requires Get(s.redis.owners, s.net.issued[s.net.tokenOf[o]]) == Some(s.net.tokenOf[o])
    ensures Holds(s, s.net.tokenOf[o]) && ViewOf(s, s.net.tokenOf[o]).row.None? && o !in s.db.orders
  {
  }

  /** A holder whose delivery is undecided passes both database guards: the stock is there and the unique key is free. */
  lemma HolderLands(s: State, units: map<VoucherId, nat>, o: OrderId, now: Millis, timeout: Millis)
    requires Inv(s, units) && Drawn(s, o) && Undecided(s, o) && timeout > 0
    requires Get(s.redis.owners, s.net.issued[s.net.tokenOf[o]]) == Some(s.net.tokenOf[o])
    ensures CreateWrites(s.db, s.MessageOf(o), now, timeout).Ok?
  {
    hide Inv, Good, ViewOf;
    KnownPair(s, units, o);
    HolderWithoutRow(s, o);
    RoomToLand(s, units, s.net.tokenOf[o]);
  }

  /** A bound reservation that is not cancelled can always land, in every reachable state. */
  lemma BoundCanLand(start: State, units: map<VoucherId, nat>, steps: seq<Step>, o: OrderId, now: Millis, timeout: Millis)
    requires Fresh(start, units) && timeout > 0
    requires var s := Exec(start, steps); Known(s, o) && IsBound(s, o) && Undecided(s, o)
    ensures var s := Exec(start, steps); CreateWrites(s.db, s.MessageOf(o), now, timeout).Ok?
  {
    hide Inv, Fresh, Exec, CreateWrites;
    InitInv(start, units);
    ExecKeeps(start, units, steps);
    var s := Exec(start, steps);
    KnownPair(s, units, o);
    HolderLands(s, units, o, now, timeout);
  }

  lemma PhaseHolds(s: State, o: OrderId)
    requires Drawn(s, o) && Good(ViewOf(s, s.net.tokenOf[o])) && Get(s.net.creating, o) == Some(BoundSeen)
    ensures Undecided(s, o)
    ensures Get(s.redis.owners, s.net.issued[s.net.tokenOf[o]]) == Some(s.net.tokenOf[o])
  {
  }

  lemma CommitLands(s: State, units: map<VoucherId, nat>, o: OrderId, now: Millis, timeout: Millis)
    requires Inv(s, units) && timeout > 0 && Get(s.net.creating, o) == Some(BoundSeen)
    ensures Known(s, o) && o !in s.db.orders && Enabled(s, CreateCommit(o, now, timeout))
    ensures CreateWrites(s.db, s.MessageOf(o), now, timeout).Ok?
  {
    OrderKnown(s, units, o);
    hide Inv, Good, ViewOf, CreateWrites, LockRow, CancelTx, ReleaseScript;
    KnownPair(s, units, o);
    PhaseHolds(s, o);
    HolderLands(s, units, o, now, timeout);
    HolderWithoutRow(s, o);
  }

  lemma LandedState(s: State, o: OrderId, now: Millis, timeout: Millis)
    requires Enabled(s, CreateCommit(o, now, timeout)) && CreateWrites(s.db, s.MessageOf(o), now, timeout).Ok?
    ensures var s' := Apply(s, CreateCommit(o, now, timeout));
      && s'.db.orders == s.db.orders[o := Order(s.MessageOf(o).claim, Pending, 0, now + timeout)]
      && o in s'.db.deliveries && s'.db.deliveries[o].state == Created
  {
  }

  /** Although `isBound` reads Redis inside a MySQL transaction, nothing can invalidate it before the
      commit: a transaction that has read both keys always lands, whatever ran in between. */
  lemma CheckedCreateLands(start: State, units: map<VoucherId, nat>, steps: seq<Step>, o: OrderId, now: Millis, timeout: Millis)
    requires Fresh(start, units) && timeout > 0
    requires Get(Exec(start, steps).net.creating, o) == Some(BoundSeen)
    ensures var s, s' := Exec(start, steps), Exec(start, steps + [CreateCommit(o, now, timeout)]);
      && Known(s, o) && o !in s.db.orders
      && s'.db.orders == s.db.orders[o := Order(s.MessageOf(o).claim, Pending, 0, now + timeout)]
      && o in s'.db.deliveries && s'.db.deliveries[o].state == Created
  {
    hide Inv, Fresh, Exec, Apply, Enabled, CreateWrites;
    InitInv(start, units);
    ExecKeeps(start, units, steps);
    ExecOne(start, steps, CreateCommit(o, now, timeout));
    CommitLands(Exec(start, steps), units, o, now, timeout);
    LandedState(Exec(start, steps), o, now, timeout);
  }

  // ------------------------------------------------------ generation safety

  /** A step for one reservation, however late, leaves every other reservation as it was:
      record, recovery entry, owner entry, delivery, order, release row and closed marker. */
  lemma GenerationSafety(start: State, units: map<VoucherId, nat>, steps: seq<Step>, step: Step, newer: Token)
    requires Fresh(start, units)
    requires newer in Exec(start, steps).net.issued
    requires TokenOfStep(Exec(start, steps), step) != Some(newer)
    ensures var s, s' := Exec(start, steps), Exec(start, steps + [step]);
      && newer in s'.net.issued && ViewOf(s', newer) == ViewOf(s, newer)
      && Get(s'.redis.pending, newer) == Get(s.redis.pending, newer)
  {
    hide Inv, Fresh, Exec, Apply, ViewOf, TokenOfStep, Untouched;
    InitInv(start, units);
    ExecKeeps(start, units, steps);
    ExecOne(start, steps, step);
    var s := Exec(start, steps);
    var t := if TokenOfStep(s, step).Some? then TokenOfStep(s, step).value else newer + 1;
    StepKeeps(s, units, step, t);
    UntouchedAt(s, Apply(s, step), t, newer);
  }

  /** What a step on behalf of `t` means for the pairing of tokens and order ids. */
  predicate StepPaired(s: State, step: Step, t: Token) {
    && t in s.net.issued && TokenOfStep(s, step) == Some(t)
    && (!step.Reserve? && !step.ReleaseUnbound? && !step.Defer? && !step.Allocate? ==> Drawn(s, step.order))
  }

  /** Nothing an event could show in changes: neither the counters, the closed markers nor the set of reservations. */
  predicate SameMarks(s: State, s': State) {
    SameCounters(s, s') && s'.redis.closed == s.redis.closed && s'.net.issued == s.net.issued
  }

  /** Steps that move neither a stock nor an order row. */
  predicate Eventless(step: Step) {
    !step.Reserve? && !Row(step) && !Returning(step)
  }

  lemma EarlyMarks(s: State, step: Step)
    requires Early(step)
    ensures SameMarks(s, Apply(s, step))
  {
    hide LockRow, CancelTx;
  }

  lemma CancelMarks(s: State, step: Step)
    requires step.Cancel?
    ensures SameMarks(s, Apply(s, step))
  {
    hide LockRow;
  }

  lemma LateMarks(s: State, step: Step)
    requires Eventless(step) && !Early(step) && !step.Cancel?
    ensures SameMarks(s, Apply(s, step))
  {
    hide LockRow, CancelTx;
  }

  lemma EventlessMarks(s: State, step: Step)
    requires Eventless(step)
    ensures SameMarks(s, Apply(s, step))
  {
    hide SameMarks, Apply;
    if Early(step) {
      EarlyMarks(s, step);
    } else if step.Cancel? {
      CancelMarks(s, step);
    } else {
      LateMarks(s, step);
    }
  }

  lemma NonHolderRow(s: State, step: Step, t: Token)
    requires StepPaired(s, step, t) && Enabled(s, step) && Good(ViewOf(s, t)) && !Holds(s, t) && Row(step)
    ensures SameCounters(s, Effect(s, step))
  {
  }

  lemma NonHolderReturning(s: State, step: Step, t: Token)
    requires StepPaired(s, step, t) && Enabled(s, step) && Good(ViewOf(s, t)) && !Holds(s, t) && Returning(step)
    ensures SameCounters(s, Effect(s, step))
  {
  }

  lemma PairStep(s: State, units: map<VoucherId, nat>, step: Step, t: Token)
    requires Inv(s, units) && t in s.net.issued && TokenOfStep(s, step) == Some(t)
    ensures StepPaired(s, step, t)
  {
    hide AllGood;
  }

  /** Once a reservation has given its unit back, or lost its claim to a newer one, nothing done on its
      behalf moves a stock, a qualification, an owner entry or an order row again. */
  lemma StaleStepsAreHarmless(start: State, units: map<VoucherId, nat>, steps: seq<Step>, step: Step, past: Token)
    requires Fresh(start, units)
    requires past in Exec(start, steps).net.issued && !Holds(Exec(start, steps), past)
    requires TokenOfStep(Exec(start, steps), step) == Some(past)
    ensures SameCounters(Exec(start, steps), Exec(start, steps + [step]))
  {
    hide Inv, Fresh, Exec, TokenOfStep, Good, ViewOf, Holds, Enabled, Effect, StepPaired, SameCounters;
    InitInv(start, units);
    ExecKeeps(start, units, steps);
    ExecOne(start, steps, step);
    var s := Exec(start, steps);
    GoodAt(s, units, past);
    PairStep(s, units, step, past);
    if !Enabled(s, step) {
      Unchanged(s);
    } else if Row(step) {
      NonHolderRow(s, step, past);
    } else if Returning(step) {
      NonHolderReturning(s, step, past);
    } else if step.Reserve? {
      ReservedOnce(s, step, past);
    } else {
      EventlessMarks(s, step);
    }
  }

  lemma Unchanged(s: State)
    ensures SameCounters(s, s)
  {
  }

  lemma KeepNeedsNothing(s: State, o: OrderId)
    requires Drawn(s, o) && Good(ViewOf(s, s.net.tokenOf[o])) && (o, true) in s.net.permits
    ensures Apply(s, ReleaseBound(o, true)) == s
  {
  }

  /** CANCELLED_KEEP_QUALIFICATION is only answered when the release that follows finds nothing to do. */
  lemma KeepQualificationIsNoop(start: State, units: map<VoucherId, nat>, steps: seq<Step>, o: OrderId)
    requires Fresh(start, units) && (o, true) in Exec(start, steps).net.permits
    ensures Exec(start, steps + [ReleaseBound(o, true)]) == Exec(start, steps)
  {
    hide Inv, Fresh, Exec, Apply, Good, ViewOf, Drawn;
    InitInv(start, units);
    ExecKeeps(start, units, steps);
    ExecOne(start, steps, ReleaseBound(o, true));
    PermitKnown(Exec(start, steps), units, o);
    KnownPair(Exec(start, steps), units, o);
    KeepNeedsNothing(Exec(start, steps), o);
  }

  lemma PermitKnown(s: State, units: map<VoucherId, nat>, o: OrderId)
    requires Inv(s, units) && (o, true) in s.net.permits
    ensures o in s.net.tokenOf
  {
    hide AllGood;
    var p := (o, true);
    assert p.0 in s.net.tokenOf;
  }

  // -------------------------------------------------------------- fencing

  /** The direction in which one reservation can change. Nothing on this list is ever undone. */
  predicate Progress(v: View, v': View) {
    && v'.claim == v.claim
    && (v.order.Some? ==> v'.order == v.order)
    // final delivery states stay; OPEN is the only state that can change
    && (v.delivery.Some? && v.delivery.value.state != Open ==> v'.delivery == v.delivery)
    // an order row stays, and leaves PENDING for good
    && (v.row.Some? ==> v'.row.Some? && v'.row.value.claim == v.row.value.claim && v'.row.value.expire == v.row.value.expire)
    && (v.row.Some? && v.row.value.status != Pending ==> v'.row == v.row)
    && (v.release.Some? ==> v'.release.Some? && v'.release.value.claim == v.release.value.claim && v'.release.value.token == v.release.value.token)
    && (v.release.Some? ==> (v.release.value.completed ==> v'.release.value.completed))
    && (v.credited ==> v'.credited)
    && (v.bound ==> v'.bound) && (v.sent ==> v'.sent) && (v.cancelled ==> v'.cancelled)
    // what was given back or finished is not taken again
    && (!v.holds ==> !v'.holds)
    && (v.record.None? ==> v'.record.None?)
  }

  lemma TransactionProgress(s: State, step: Step, t: Token)
    requires StepPaired(s, step, t) && Enabled(s, step) && Good(ViewOf(s, t)) && Early(step) && !step.Bind? && !step.Publish?
    ensures t in Effect(s, step).net.issued && Progress(ViewOf(s, t), ViewOf(Effect(s, step), t))
  {
  }

  lemma BindingProgress(s: State, step: Step, t: Token)
    requires StepPaired(s, step, t) && Enabled(s, step) && Good(ViewOf(s, t)) && (step.Bind? || step.Publish?)
    ensures t in Effect(s, step).net.issued && Progress(ViewOf(s, t), ViewOf(Effect(s, step), t))
  {
  }

  lemma NumberProgress(s: State, step: Step, t: Token)
    requires StepPaired(s, step, t) && Enabled(s, step) && Good(ViewOf(s, t)) && (step.Allocate? || step.Defer?)
    ensures t in Effect(s, step).net.issued && Progress(ViewOf(s, t), ViewOf(Effect(s, step), t))
  {
  }

  lemma EarlyProgress(s: State, step: Step, t: Token)
    requires StepPaired(s, step, t) && Enabled(s, step) && Good(ViewOf(s, t))
    requires Early(step) || step.Allocate? || step.Defer?
    ensures t in Effect(s, step).net.issued && Progress(ViewOf(s, t), ViewOf(Effect(s, step), t))
  {
    hide StepPaired, Enabled, Effect, Good, ViewOf, Progress;
    if step.Bind? || step.Publish? {
      BindingProgress(s, step, t);
    } else if Early(step) {
      TransactionProgress(s, step, t);
    } else {
      NumberProgress(s, step, t);
    }
  }

  lemma CommitProgress(s: State, step: Step, t: Token)
    requires StepPaired(s, step, t) && Enabled(s, step) && Good(ViewOf(s, t)) && step.CreateCommit?
    ensures t in Effect(s, step).net.issued && Progress(ViewOf(s, t), ViewOf(Effect(s, step), t))
  {
  }

  lemma PayCloseProgress(s: State, step: Step, t: Token)
    requires StepPaired(s, step, t) && Enabled(s, step) && Good(ViewOf(s, t)) && (step.Pay? || step.Close?)
    ensures t in Effect(s, step).net.issued && Progress(ViewOf(s, t), ViewOf(Effect(s, step), t))
  {
  }

  lemma CancelProgress(s: State, step: Step, t: Token)
    requires StepPaired(s, step, t) && Enabled(s, step) && Good(ViewOf(s, t)) && step.Cancel?
    ensures t in Effect(s, step).net.issued && Progress(ViewOf(s, t), ViewOf(Effect(s, step), t))
  {
  }

  lemma ReleaseRowProgress(s: State, step: Step, t: Token)
    requires StepPaired(s, step, t) && Enabled(s, step) && (step.MarkReleased? || step.DeferReleaseRow?)
    ensures t in Effect(s, step).net.issued && Progress(ViewOf(s, t), ViewOf(Effect(s, step), t))
  {
  }

  lemma ReleaseProgress(s: State, step: Step, t: Token)
    requires StepPaired(s, step, t) && Enabled(s, step) && Good(ViewOf(s, t)) && (step.ReleaseUnbound? || step.ReleaseBound?)
    ensures t in Effect(s, step).net.issued && Progress(ViewOf(s, t), ViewOf(Effect(s, step), t))
  {
  }

  lemma FinishProgress(s: State, step: Step, t: Token)
    requires StepPaired(s, step, t) && Enabled(s, step) && Good(ViewOf(s, t)) && (step.CloseRelease? || step.Complete?)
    ensures t in Effect(s, step).net.issued && Progress(ViewOf(s, t), ViewOf(Effect(s, step), t))
  {
  }

  lemma RedisProgress(s: State, step: Step, t: Token)
    requires StepPaired(s, step, t) && Enabled(s, step) && Good(ViewOf(s, t))
    requires Returning(step) || step.Complete?
    ensures t in Effect(s, step).net.issued && Progress(ViewOf(s, t), ViewOf(Effect(s, step), t))
  {
    hide StepPaired, Enabled, Effect, Good, ViewOf, Progress;
    if step.ReleaseUnbound? || step.ReleaseBound? {
      ReleaseProgress(s, step, t);
    } else {
      FinishProgress(s, step, t);
    }
  }

  lemma StepProgress(s: State, units: map<VoucherId, nat>, step: Step, t: Token)
    requires Inv(s, units) && t in s.net.issued
    ensures t in Apply(s, step).net.issued && Progress(ViewOf(s, t), ViewOf(Apply(s, step), t))
  {
    hide Inv, ViewOf, Good, Enabled, Effect, TokenOfStep, StepPaired, Untouched;
    GoodAt(s, units, t);
    if !Enabled(s, step) {
    } else if TokenOfStep(s, step) == Some(t) {
      PairStep(s, units, step, t);
      if Early(step) || step.Allocate? || step.Defer? {
        EarlyProgress(s, step, t);
      } else if Returning(step) || step.Complete? {
        RedisProgress(s, step, t);
      } else if step.Reserve? {
        ReservedOnce(s, step, t);
      } else if step.CreateCommit? {
        CommitProgress(s, step, t);
      } else if Row(step) {
        PayCloseProgress(s, step, t);
      } else if step.Cancel? {
        CancelProgress(s, step, t);
      } else {
        ReleaseRowProgress(s, step, t);
      }
    } else {
      var other := if TokenOfStep(s, step).Some? then TokenOfStep(s, step).value else t + 1;
      StepKeeps(s, units, step, other);
      UntouchedAt(s, Apply(s, step), other, t);
    }
  }

  lemma ReservedOnce(s: State, step: Step, t: Token)
    requires step.Reserve? && TokenOfStep(s, step) == Some(t) && t in s.net.issued
    ensures !Enabled(s, step)
  {
  }

  /** Under duplicated, reordered, late and lost messages and any crashes, every reservation only moves forward. */
  lemma {:induction false} EverForward(start: State, units: map<VoucherId, nat>, steps: seq<Step>, more: seq<Step>, t: Token)
    requires Fresh(start, units) && t in Exec(start, steps).net.issued
    ensures t in Exec(start, steps + more).net.issued
    ensures Progress(ViewOf(Exec(start, steps), t), ViewOf(Exec(start, steps + more), t))
    decreases |more|
  {
    hide Inv, Fresh, Exec, Apply, ViewOf;
    if more == [] {
      assert steps + more == steps;
    } else {
      var init, last := more[..|more| - 1], more[|more| - 1];
      EverForward(start, units, steps, init, t);
      assert steps + more == (steps + init) + [last];
      ExecOne(start, steps + init, last);
      InitInv(start, units);
      ExecKeeps(start, units, steps + init);
      StepProgress(Exec(start, steps + init), units, last, t);
    }
  }

  /** In every state: the order row exists exactly when the delivery row says CREATED, and a cancelled delivery has no row. */
  lemma Fence(start: State, units: map<VoucherId, nat>, steps: seq<Step>, o: OrderId)
    requires Fresh(start, units)
    ensures var d := Exec(start, steps).db;
      && (o in d.orders <==> o in d.deliveries && d.deliveries[o].state == Created)
      && (o in d.deliveries && d.deliveries[o].state == Cancelled ==> o !in d.orders)
  {
    hide Inv, Fresh, Exec, Good, ViewOf;
    InitInv(start, units);
    ExecKeeps(start, units, steps);
    var s := Exec(start, steps);
    RowsKnown(s, units, o);
    if o in s.net.tokenOf {
      KnownPair(s, units, o);
      FenceView(s, o);
    }
  }

  lemma RowsKnown(s: State, units: map<VoucherId, nat>, o: OrderId)
    requires Inv(s, units)
    ensures o in s.db.orders || o in s.db.deliveries ==> o in s.net.tokenOf
  {
    hide AllGood;
  }

  lemma FenceView(s: State, o: OrderId)
    requires Drawn(s, o) && Good(ViewOf(s, s.net.tokenOf[o]))
    ensures o in s.db.orders <==> o in s.db.deliveries && s.db.deliveries[o].state == Created
  {
  }

  /** A cancellation that committed stays: no later schedule creates the order. */
  lemma CancelledNeverLands(start: State, units: map<VoucherId, nat>, steps: seq<Step>, more: seq<Step>, o: OrderId)
    requires Fresh(start, units)
    requires var d := Exec(start, steps).db; o in d.deliveries && d.deliveries[o].state == Cancelled
    ensures var d := Exec(start, steps + more).db;
      o in d.deliveries && d.deliveries[o] == Exec(start, steps).db.deliveries[o] && o !in d.orders
  {
    hide Inv, Fresh, Exec, Good, ViewOf, Progress;
    DeliveryStays(start, units, steps, more, o);
    Fence(start, units, steps + more, o);
  }

  /** An order that landed stays landed, for the same user and voucher. */
  lemma CreatedStays(start: State, units: map<VoucherId, nat>, steps: seq<Step>, more: seq<Step>, o: OrderId)
    requires Fresh(start, units)
    requires var d := Exec(start, steps).db; o in d.deliveries && d.deliveries[o].state == Created
    ensures var d, d' := Exec(start, steps).db, Exec(start, steps + more).db;
      && o in d.orders && o in d'.orders && d'.orders[o].claim == d.orders[o].claim
      && o in d'.deliveries && d'.deliveries[o] == d.deliveries[o]
  {
    hide Inv, Fresh, Exec, Good, ViewOf, Progress;
    DeliveryStays(start, units, steps, more, o);
    Fence(start, units, steps, o);
    Fence(start, units, steps + more, o);
  }

  lemma DeliveryStays(start: State, units: map<VoucherId, nat>, steps: seq<Step>, more: seq<Step>, o: OrderId)
    requires Fresh(start, units)
    requires var d := Exec(start, steps).db; o in d.deliveries && d.deliveries[o].state != Open
    ensures var d, d' := Exec(start, steps).db, Exec(start, steps + more).db;
      && Get(d'.deliveries, o) == Some(d.deliveries[o])
      && (o in d.orders && o in d'.orders ==> d'.orders[o].claim == d.orders[o].claim)
  {
    hide Inv, Fresh, Exec, Good;
    InitInv(start, units);
    ExecKeeps(start, units, steps);
    var s := Exec(start, steps);
    RowsKnown(s, units, o);
    KnownPair(s, units, o);
    EverForward(start, units, steps, more, s.net.tokenOf[o]);
    ExecKeeps(start, units, steps + more);
    ForwardRow(s, Exec(start, steps + more), s.net.tokenOf[o], o);
  }

  lemma ForwardRow(s: State, s': State, t: Token, o: OrderId)
    requires t in s.net.issued && t in s'.net.issued && Progress(ViewOf(s, t), ViewOf(s', t))
    requires t in s.net.alloc && s.net.alloc[t] == o && o in s.db.deliveries && s.db.deliveries[o].state != Open
    ensures Get(s'.db.deliveries, o) == Some(s.db.deliveries[o])
    ensures o in s.db.orders && o in s'.db.orders ==> s'.db.orders[o].claim == s.db.orders[o].claim
  {
  }

  /** A message delivered again after its delivery row is final starts no transaction and changes nothing. */
  lemma RedeliveryChangesNothing(start: State, units: map<VoucherId, nat>, steps: seq<Step>, o: OrderId, now: Millis, timeout: Millis)
    requires Fresh(start, units) && o in Exec(start, steps).db.deliveries && Exec(start, steps).db.deliveries[o].state != Open
    ensures Exec(start, steps + [CreateLock(o), CreateReadOwner(o), CreateReadRecord(o), CreateCommit(o, now, timeout)])
         == Exec(start, steps)
  {
    hide Inv, Fresh, Exec, Apply, Good, ViewOf;
    InitInv(start, units);
    ExecKeeps(start, units, steps);
    var s := Exec(start, steps);
    RowsKnown(s, units, o);
    KnownPair(s, units, o);
    var lock, own, rec, commit := CreateLock(o), CreateReadOwner(o), CreateReadRecord(o), CreateCommit(o, now, timeout);
    assert steps + [lock, own, rec, commit] == (((steps + [lock]) + [own]) + [rec]) + [commit];
    ExecOne(start, steps, lock);
    ExecOne(start, steps + [lock], own);
    ExecOne(start, steps + [lock] + [own], rec);
    ExecOne(start, steps + [lock] + [own] + [rec], commit);
    CreateRefused(s, o, now, timeout);
  }

  lemma CreateRefused(s: State, o: OrderId, now: Millis, timeout: Millis)
    requires Drawn(s, o) && Good(ViewOf(s, s.net.tokenOf[o])) && o in s.db.deliveries && s.db.deliveries[o].state != Open
    ensures Apply(s, CreateLock(o)) == s && Apply(s, CreateReadOwner(o)) == s
    ensures Apply(s, CreateReadRecord(o)) == s && Apply(s, CreateCommit(o, now, timeout)) == s
  {
  }
}
