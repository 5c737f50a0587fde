/** The scheduled recovery of reservations that were never finished, and why a crash at any
    point loses nothing: undisturbed passes empty the recovery index. */
module OrderRecovery {
  import opened Common
  import opened OrderModel
  import opened OrderInvariant
  import opened OrderPreservation
  import opened OrderGrowth
  import opened OrderReturns
  import opened OrderStores
  import opened OrderServices
  import opened OrderFlows
  import OrderConservation

  /** The message `read` rebuilds from a reservation record. */
  function RecordMessage(s: State, t: Token): Message
    requires t in s.redis.records
  {
    Message(s.redis.records[t].order, s.redis.records[t].claim, t)
  }

  // ------------------------------------------------- one token, undisturbed

  lemma CompleteWorks(r: Redis, t: Token, o: OrderId)
    requires t in r.records && r.records[t].order == Some(o)
    ensures CompleteScript(r, t, o).records == r.records - {t} && CompleteScript(r, t, o).pending == r.pending - {t}
  {
  }

  /** The recovery of `t` left its record and index entry out and everything else of them alone. */
  predicate Recovered(s: State, s': State, t: Token) {
    && s'.redis.records == s.redis.records - {t} && s'.redis.pending == s.redis.pending - {t}
    && s'.net.creating == s.net.creating && s'.net.alloc == s.net.alloc
  }

  /** No create transaction for the order of this reservation is open. */
  predicate Quiet(s: State, t: Token) {
    t in s.net.alloc ==> s.net.alloc[t] !in s.net.creating
  }

  lemma RecoverUnbound(s: State, units: map<VoucherId, nat>, t: Token)
    requires Inv(s, units) && t in s.redis.records && s.redis.records[t].order.None?
    ensures Plausible(s, RecordMessage(s, t)) && Compensation(s, RecordMessage(s, t)) == ([ReleaseUnbound(t)], Ok(false))
    ensures Recovered(s, Exec(s, [ReleaseUnbound(t)]), t)
  {
    hide Inv, Good, ViewOf;
    ExecOne(s, [], ReleaseUnbound(t));
    assert [] + [ReleaseUnbound(t)] == [ReleaseUnbound(t)];
    UnboundHasNoRow(s, units, t);
    UnlandedHolds(s, units, t);
    ReleaseWorks(s.redis, s.redis.records[t].claim, t, None);
    hide ReleaseScript;
  }

  lemma UnboundHasNoRow(s: State, units: map<VoucherId, nat>, t: Token)
    requires Inv(s, units) && t in s.redis.records && s.redis.records[t].order.None?
    ensures !OrderConservation.HasRow(s, t)
  {
    assert t in s.net.issued by {
      hide AllGood;
    }
    hide Inv;
    GoodAt(s, units, t);
  }

  lemma BoundRecord(s: State, units: map<VoucherId, nat>, t: Token)
    requires Inv(s, units) && t in s.redis.records && s.redis.records[t].order.Some?
    ensures var o := s.redis.records[t].order.value;
      && t in s.net.alloc && s.net.alloc[t] == o && Get(s.net.tokenOf, o) == Some(t) && Drawn(s, o)
      && Genuine(s, RecordMessage(s, t))
  {
    hide Inv;
    RecordIsPlausible(s, units, t);
    var o := s.redis.records[t].order.value;
    KnownPair(s, units, o);
  }

  /** The cancelling transaction never meets a conflicting row. */
  lemma CancelWorks(s: State, units: map<VoucherId, nat>, t: Token, o: OrderId)
    requires Inv(s, units) && t in s.redis.records && s.redis.records[t].order == Some(o)
    requires Drawn(s, o) && s.net.tokenOf[o] == t && Genuine(s, RecordMessage(s, t))
    ensures CancelOutcome(s.db, RecordMessage(s, t)) == Ok(if o in s.db.orders then CREATED else CANCELLED)
  {
    assert s.net.issued[t].voucher > 0 && s.net.issued[t].user > 0 by {
      hide AllGood, Paired, Slots, Indexed, RedisBalanced, DbBalanced;
    }
    assert o > 0 by {
      hide AllGood, Slots, Indexed, RedisBalanced, DbBalanced, Claims;
    }
    hide Inv;
    GoodAt(s, units, t);
    if o !in s.db.orders && s.db.HasActive(s.net.issued[t]) {
      NoRow(s, o);
      KeepMeansGone(s, units, t);
    }
    CancelRow(s, o, t);
  }

  lemma CancelRow(s: State, o: OrderId, t: Token)
    requires Drawn(s, o) && s.net.tokenOf[o] == t && Good(ViewOf(s, t)) && s.MessageOf(o).Valid()
    ensures CancelTx(s.db, s.MessageOf(o)).Ok?
    ensures CancelTx(s.db, s.MessageOf(o)).value.1 ==
      if o in s.db.orders then CREATED else if s.db.HasActive(s.net.issued[t]) then CANCELLED_KEEP_QUALIFICATION else CANCELLED
  {
  }

  lemma RecoverLanded(s: State, units: map<VoucherId, nat>, t: Token, o: OrderId)
    requires Inv(s, units) && t in s.redis.records && s.redis.records[t].order == Some(o) && Quiet(s, t)
    requires o in s.db.orders
    ensures Plausible(s, RecordMessage(s, t)) && Compensation(s, RecordMessage(s, t)) == ([Cancel(o), Complete(o)], Ok(true))
    ensures Recovered(s, Exec(s, [Cancel(o), Complete(o)]), t)
  {
    hide Inv, CancelOutcome, CancelTx, CompleteScript;
    BoundRecord(s, units, t);
    CancelWorks(s, units, t, o);
    CompleteWorks(s.redis, t, o);
    TwoSteps(s, Cancel(o), Complete(o));
    AfterCancel(s, o);
    hide LockRow;
  }

  lemma AfterCancel(s: State, o: OrderId)
    requires Drawn(s, o) && o !in s.net.creating && CancelOutcome(s.db, s.MessageOf(o)).Ok?
    ensures var s', outcome := Apply(s, Cancel(o)), CancelOutcome(s.db, s.MessageOf(o)).value;
      && s'.redis == s.redis && s'.net.creating == s.net.creating && s'.net.alloc == s.net.alloc && Drawn(s', o)
      && s'.net.issued == s.net.issued && s'.net.tokenOf == s.net.tokenOf
      && (outcome == CREATED ==> Delivered(s', o, Created))
      && (outcome != CREATED ==> (o, outcome == CANCELLED_KEEP_QUALIFICATION) in s'.net.permits)
  {
  }

  lemma TwoSteps(s: State, a: Step, b: Step)
    ensures Exec(s, [a, b]) == Apply(Apply(s, a), b)
  {
    hide Apply;
    ExecOne(s, [a], b);
    ExecOne(s, [], a);
    assert [a] + [b] == [a, b] && [] + [a] == [a];
  }

  lemma RecoverCancelled(s: State, units: map<VoucherId, nat>, t: Token, o: OrderId)
    requires Inv(s, units) && t in s.redis.records && s.redis.records[t].order == Some(o) && Quiet(s, t)
    requires o !in s.db.orders
    ensures Plausible(s, RecordMessage(s, t))
    ensures Compensation(s, RecordMessage(s, t)) == ([Cancel(o), ReleaseBound(o, false)], Ok(false))
    ensures Recovered(s, Exec(s, [Cancel(o), ReleaseBound(o, false)]), t)
  {
    hide Inv, CancelOutcome, CancelTx, ReleaseScript;
    BoundRecord(s, units, t);
    CancelWorks(s, units, t, o);
    UnlandedHolds(s, units, t);
    ReleaseWorks(s.redis, s.redis.records[t].claim, t, Some(o));
    TwoSteps(s, Cancel(o), ReleaseBound(o, false));
    AfterCancel(s, o);
    hide LockRow;
  }

  lemma IndexedRecord(s: State, units: map<VoucherId, nat>, t: Token)
    requires Inv(s, units) && t in s.redis.pending
    ensures t in s.redis.records
  {
    hide AllGood, Paired, Slots, RedisBalanced, DbBalanced, Claims;
  }

  /** One undisturbed compensation of a recorded reservation succeeds and finishes it. */
  lemma RecoverOne(s: State, units: map<VoucherId, nat>, t: Token)
    requires Inv(s, units) && t in s.redis.pending && Quiet(s, t)
    ensures t in s.redis.records && Plausible(s, RecordMessage(s, t)) && Compensation(s, RecordMessage(s, t)).1.Ok?
    ensures Recovered(s, Exec(s, Compensation(s, RecordMessage(s, t)).0), t)
    ensures Inv(Exec(s, Compensation(s, RecordMessage(s, t)).0), units)
  {
    hide *;
    IndexedRecord(s, units, t);
    if s.redis.records[t].order.None? {
      RecoverUnbound(s, units, t);
    } else if s.redis.records[t].order.value in s.db.orders {
      RecoverLanded(s, units, t, s.redis.records[t].order.value);
    } else {
      RecoverCancelled(s, units, t, s.redis.records[t].order.value);
    }
    ExecKeeps(s, units, Compensation(s, RecordMessage(s, t)).0);
  }

  // ------------------------------------------------------------- one pass

  /** What an undisturbed pass does about one token. */
  function RecoverToken(s: State, t: Token, now: Millis): State {
    if t in s.redis.records && Plausible(s, RecordMessage(s, t)) then
      var (steps, answer) := Compensation(s, RecordMessage(s, t));
      if answer.Ok? then Exec(s, steps) else Apply(Exec(s, steps), Defer(t, now))
    else Apply(s, Defer(t, now))
  }

  function RecoverPass(s: State, tokens: seq<Token>, now: Millis): State
    decreases |tokens|
  {
    if tokens == [] then s
    else RecoverToken(RecoverPass(s, tokens[..|tokens| - 1], now), tokens[|tokens| - 1], now)
  }

  /** The token is off the index, or on it with this time. */
  predicate PutOff(pending: map<Token, Millis>, t: Token, now: Millis) {
    t in pending ==> pending[t] == now
  }

  class OrderReservationRecoveryTask {
    const reservations: OrderReservationService
    const compensation: OrderCompensationService
    const stores: Stores

    constructor (reservations: OrderReservationService, compensation: OrderCompensationService)
      requires reservations.stores == compensation.stores
      ensures this.reservations == reservations && this.compensation == compensation && stores == reservations.stores
    {
      this.reservations, this.compensation, stores := reservations, compensation, reservations.stores;
    }

    ghost predicate Wired() {
      reservations.stores == stores && compensation.stores == stores && compensation.Wired()
    }

    /** Reads one record and compensates; false asks for the token to be deferred. With nobody else at work true means that
        the token is off the index. */
    method TryOne(t: Token) returns (ok: bool)
      requires Wired() && stores.Valid()
      modifies stores
      ensures stores.Valid() && unchanged(stores`ownToken, stores`ownTx)
      ensures old(stores.trace) <= stores.trace
      ensures Consumed(old(stores.tape), stores.tape)
      ensures Lone(old(stores.tape)) ==> SameOff(old(stores.pending), stores.pending, t)
      ensures Lone(old(stores.tape)) && ok ==> t !in stores.pending
      ensures old(stores.tape) == [] ==> forall now :: now >= 0 ==>
        (if ok then stores.Now() else Apply(stores.Now(), Step.Defer(t, now))) == RecoverToken(old(stores.Now()), t, now)
    {
      hide Grows, Fresh, Exec, Inv, Apply, Compensation, Genuine, Unacceptable, Consumed, Rest, SameOff, Reached;
      hide ClearedUp, Returnable, Silent, Unaccompanied, Lone;
      ghost var s, trace, tape := stores.Now(), stores.trace, stores.tape;
      TapeSplit(tape);
      SameOffSelf(stores.pending, t);
      var m := reservations.Read(t);
      if m.Err? {
        return false;
      }
      if Unaccompanied(tape) {
        stores.ValidInv();
        if m.value.order.Some? {
          GenuineAccepted(s, stores.units, m.value);
        }
      }
      ghost var left := stores.tape;
      var answer, _ := compensation.Cancel(m.value);
      ConsumedTrans(tape, left, stores.tape);
      if Lone(tape) && answer.Ok? {
        SuccessIsRecovery(s, stores.units, t, stores.start, trace, stores.Now(), stores.trace);
      } else if tape == [] {
        ExecAppend(stores.start, trace, Compensation(s, RecordMessage(s, t)).0);
      }
      return answer.Ok?;
    }

    static lemma TapeSplit(tape: seq<Disturbance<Step>>)
      ensures Consumed(tape, tape) && Consumed(tape, Rest(tape))
      ensures Lone(tape) ==> Unaccompanied(tape) && Lone(Rest(tape))
      ensures Lone(tape) && FirstFault(tape).Fine? ==> Silent(tape)
      ensures Lone(tape) && FirstFault(Rest(tape)).Fine? ==> Silent(Rest(tape))
      ensures Lone(tape) && FirstFault(Rest(Rest(tape))).Fine? ==> Silent(Rest(Rest(tape)))
      ensures tape == [] ==> Rest(tape) == [] && Silent(tape) && Lone(tape)
    {
    }

    /** A compensation that answered, with nobody else at work, did what an undisturbed one does. */
    static lemma SuccessIsRecovery(s: State, units: map<VoucherId, nat>, t: Token, start: State, trace: seq<Step>, s': State, trace': seq<Step>)
      requires Inv(s, units) && t in s.redis.records && Plausible(s, RecordMessage(s, t))
      requires s == Exec(start, trace) && s' == Exec(start, trace')
      requires trace' == trace + Compensation(s, RecordMessage(s, t)).0 && Compensation(s, RecordMessage(s, t)).1.Ok?
      ensures t !in s'.redis.pending
      ensures forall now :: s' == RecoverToken(s, t, now)
    {
      ExecAppend(start, trace, Compensation(s, RecordMessage(s, t)).0);
      RecordIndexed(s, units, t);
      if Quiet(s, t) {
        RecoverOne(s, units, t);
      } else {
        BusyBound(s, units, t);
        hide Inv, Exec;
        assert false;
      }
    }

    static lemma RecordIndexed(s: State, units: map<VoucherId, nat>, t: Token)
      requires Inv(s, units) && t in s.redis.records
      ensures t in s.redis.pending
    {
      hide AllGood, Paired, Slots, RedisBalanced, DbBalanced, Claims;
    }

    /** One pass of the loop of `recover`: a failed compensation is answered by a deferral; if that fails, too, the loop
        ends. With nobody else at work the token is then off the index or put off. */
    method Turn(t: Token, now: Millis) returns (stop: bool)
      requires Wired() && stores.Valid() && now >= 0
      modifies stores
      ensures stores.Valid() && unchanged(stores`ownToken, stores`ownTx)
      ensures old(stores.trace) <= stores.trace
      ensures Consumed(old(stores.tape), stores.tape)
      ensures stop ==> LastFailed(old(stores.tape), stores.tape)
      ensures Lone(old(stores.tape)) ==> SameOff(old(stores.pending), stores.pending, t)
      ensures Lone(old(stores.tape)) && !stop ==> PutOff(stores.pending, t, now)
      ensures old(stores.tape) == [] ==> !stop && stores.tape == [] && stores.Now() == RecoverToken(old(stores.Now()), t, now)
    {
      hide Grows, Fresh, Exec, Inv, Apply, Consumed, Rest, RecoverToken, Lone, FirstFault, Unaccompanied, LastFailed;
      ghost var tape := stores.tape;
      stop := false;
      var ok := TryOne(t);
      ghost var left, s := stores.tape, stores.Now();
      LoneStays(tape, left);
      if !ok {
        ConsumedRest(left);
        ConsumedTrans(tape, left, Rest(left));
        DeferPutsOff(s, t, now);
        if !FirstFault(left).Fine? {
          FailedNow(tape, left);
        }
        var deferred := reservations.Defer(t, now);
        stop := deferred.Err?;
      }
    }

    static lemma LoneStays(tape: seq<Disturbance<Step>>, left: seq<Disturbance<Step>>)
      requires Consumed(tape, left)
      ensures Lone(tape) ==> Lone(left) && Unaccompanied(left) && (FirstFault(left).Fine? ==> Silent(left))
      ensures tape == [] ==> left == [] && Rest(left) == [] && FirstFault(left).Fine? && Silent(left) && Lone(tape)
    {
    }

    static lemma DeferPutsOff(s: State, t: Token, now: Millis)
      requires now >= 0
      ensures PutOff(Apply(s, Step.Defer(t, now)).redis.pending, t, now)
    {
    }

    /** The loop of `recover`; `turns` is how many of the tokens got their turn. */
    method TakeTurns(batch: seq<Token>, now: Millis) returns (ghost turns: nat)
      requires Wired() && stores.Valid() && now >= 0 && NoRepeat(batch)
      modifies stores
      ensures stores.Valid() && old(stores.trace) <= stores.trace && unchanged(stores`ownToken, stores`ownTx)
      ensures Consumed(old(stores.tape), stores.tape)
      ensures turns <= |batch| && (turns < |batch| ==> LastFailed(old(stores.tape), stores.tape))
      ensures Lone(old(stores.tape)) ==>
        && (forall i :: 0 <= i < turns ==> PutOff(stores.pending, batch[i], now))
        && (forall t :: t !in batch ==> Get(stores.pending, t) == Get(old(stores.pending), t))
      ensures old(stores.tape) == [] ==>
        turns == |batch| && stores.tape == [] && stores.Now() == RecoverPass(old(stores.Now()), batch, now)
    {
      hide Grows, Fresh, Exec, Inv, Apply, RecoverToken, Consumed, Rest, Lone, FirstFault, Unaccompanied, LastFailed, NoRepeat;
      ghost var tape, s, pending := stores.tape, stores.Now(), stores.pending;
      turns := 0;
      ConsumedRest(tape);
      for i := 0 to |batch|
        invariant stores.Valid() && old(stores.trace) <= stores.trace && unchanged(stores`ownToken, stores`ownTx)
        invariant turns == i && Consumed(tape, stores.tape)
        invariant Lone(tape) ==> forall j :: 0 <= j < i ==> PutOff(stores.pending, batch[j], now)
        invariant Lone(tape) ==> forall t :: t !in batch ==> Get(stores.pending, t) == Get(pending, t)
        invariant tape == [] ==> stores.tape == [] && stores.Now() == RecoverPass(s, batch[..i], now)
      {
        assert batch[..i + 1][..i] == batch[..i];
        ghost var left, before := stores.tape, stores.pending;
        LoneStays(tape, left);
        var stop := Turn(batch[i], now);
        ConsumedTrans(tape, left, stores.tape);
        FailedLater(tape, left, stores.tape);
        EntriesKept(before, stores.pending, batch, i, now);
        if stop {
          // the failure to defer ends the pass
          return;
        }
        turns := turns + 1;
      }
      assert batch[..|batch|] == batch;
    }

    /** OrderReservationRecoveryTask.recover. `batch` is the tokens looked at and `turns` how many of them got their turn: all,
        unless the deferral of one failed, as the last call. Undisturbed, each is recovered; with nobody else at work, and
        whatever calls fail, each is off the index or put off, and all other entries are as before. */
    method Recover(clock: Millis, age: Millis, now: Millis) returns (ghost batch: seq<Token>, ghost turns: nat)
      requires Wired() && stores.Valid() && now >= 0
      modifies stores
      ensures stores.Valid() && old(stores.trace) <= stores.trace && unchanged(stores`ownToken, stores`ownTx)
      ensures turns <= |batch| && (turns < |batch| ==> LastFailed(old(stores.tape), stores.tape))
      ensures !FirstFault(old(stores.tape)).Fine? ==> batch == []
      ensures Lone(old(stores.tape)) && FirstFault(old(stores.tape)).Fine? ==>
        && IsOverdueBatch(old(stores.pending), clock - age, batch)
        && (forall i :: 0 <= i < turns ==> PutOff(stores.pending, batch[i], now))
        && (forall t :: t !in batch ==> Get(stores.pending, t) == Get(old(stores.pending), t))
      ensures old(stores.tape) == [] ==> turns == |batch| && stores.tape == [] && IsOverdueBatch(old(stores.pending), clock - age, batch)
      ensures old(stores.tape) == [] ==> stores.Now() == RecoverPass(old(stores.Now()), batch, now)
    {
      hide Grows, Fresh, Exec, Inv, Apply, IsOverdueBatch, RecoverPass, Consumed, Rest, Lone, FirstFault, Unaccompanied, LastFailed;
      ghost var tape := stores.tape;
      batch, turns := [], 0;
      ConsumedRest(tape);
      LoneStays(tape, tape);
      LoneStays(tape, Rest(tape));
      var tokens := reservations.Overdue(clock - age);
      if tokens.Err? {
        return;
      }
      batch := tokens.value;
      BatchDistinct(stores.pending, clock - age, batch);
      ghost var left := stores.tape;
      turns := TakeTurns(tokens.value, now);
      FailedLater(tape, left, stores.tape);
    }

    lemma EntriesKept(before: map<Token, Millis>, after: map<Token, Millis>, batch: seq<Token>, i: nat, now: Millis)
      requires i < |batch| && NoRepeat(batch)
      ensures SameOff(before, after, batch[i]) ==>
        && (forall j :: 0 <= j < i && PutOff(before, batch[j], now) ==> PutOff(after, batch[j], now))
        && (forall t :: t !in batch ==> Get(after, t) == Get(before, t))
    {
      if SameOff(before, after, batch[i]) {
        forall j | 0 <= j < i && PutOff(before, batch[j], now)
          ensures PutOff(after, batch[j], now)
        {
          assert Get(before, batch[j]) == Get(after, batch[j]);
        }
        forall t | t !in batch
          ensures Get(after, t) == Get(before, t)
        {
          assert batch[i] in batch;
        }
      }
    }

    /** What the scheduler does: one pass at each of these clock readings, the first for the cutoff and the second for
        deferrals, while other clients perform the steps of `gaps` in between. `passes` records what each looked at. */
    method Run(clocks: seq<(Millis, Millis)>, gaps: seq<seq<Step>>, age: Millis) returns (ghost passes: seq<Pass>)
      requires Wired() && stores.Valid() && |gaps| == |clocks| && forall i :: 0 <= i < |clocks| ==> clocks[i].1 >= 0
      modifies stores
      ensures stores.Valid() && old(stores.trace) <= stores.trace
      ensures old(stores.tape) == [] && old(stores.ownToken).None? && old(stores.ownTx).None? ==>
        && stores.tape == [] && |passes| == |clocks|
        && (forall i :: 0 <= i < |clocks| ==>
              passes[i].others == gaps[i] && passes[i].cutoff == clocks[i].0 - age && passes[i].now == clocks[i].1)
        && PassRun(old(stores.Now()), passes) && stores.Now() == Passes(old(stores.Now()), passes)
    {
      hide Grows, Fresh, Exec, Inv, IsOverdueBatch, RecoverPass, OwnSame, Passes, PassRun;
      passes := [];
      NoPasses(stores.Now());
      ghost var alone := stores.tape == [] && stores.ownToken.None? && stores.ownTx.None?;
      for i := 0 to |clocks|
        invariant stores.Valid() && old(stores.trace) <= stores.trace
        invariant alone ==> stores.tape == [] && stores.ownToken.None? && stores.ownTx.None? && |passes| == i
        invariant alone ==> forall j :: 0 <= j < i ==>
          passes[j].others == gaps[j] && passes[j].cutoff == clocks[j].0 - age && passes[j].now == clocks[j].1
        invariant alone ==> PassRun(old(stores.Now()), passes) && stores.Now() == Passes(old(stores.Now()), passes)
      {
        stores.Others(gaps[i]);
        ghost var batch, turns := Recover(clocks[i].0, age, clocks[i].1);
        ghost var pass := Pass(gaps[i], clocks[i].0 - age, batch, clocks[i].1);
        OneMorePass(old(stores.Now()), passes, pass);
        passes := passes + [pass];
      }
    }
  }

  /** One pass: what other clients did since the one before, up to which score it looks, the batch it got and its own
      clock for deferrals. */
  datatype Pass = Pass(others: seq<Step>, cutoff: Millis, batch: seq<Token>, now: Millis)

  function Passes(s: State, passes: seq<Pass>): State
    decreases |passes|
  {
    if passes == [] then s
    else
      var last := passes[|passes| - 1];
      RecoverPass(Exec(Passes(s, passes[..|passes| - 1]), last.others), last.batch, last.now)
  }

  /** The state that the last pass meets. */
  function Met(s: State, passes: seq<Pass>): State
    requires passes != []
  {
    Exec(Passes(s, passes[..|passes| - 1]), passes[|passes| - 1].others)
  }

  /** Every pass looks at the oldest entries of its own moment. */
  ghost predicate PassRun(s: State, passes: seq<Pass>)
    decreases |passes|
  {
    passes == [] ||
    var last := passes[|passes| - 1];
    PassRun(s, passes[..|passes| - 1]) && IsOverdueBatch(Met(s, passes).redis.pending, last.cutoff, last.batch)
  }

  lemma NoPasses(s: State)
    ensures PassRun(s, []) && Passes(s, []) == s
  {
  }

  lemma OneMorePass(s: State, passes: seq<Pass>, pass: Pass)
    ensures var met := Exec(Passes(s, passes), pass.others);
      && Passes(s, passes + [pass]) == RecoverPass(met, pass.batch, pass.now)
      && (PassRun(s, passes + [pass]) <==> PassRun(s, passes) && IsOverdueBatch(met.redis.pending, pass.cutoff, pass.batch))
  {
    assert (passes + [pass])[..|passes|] == passes;
    hide RecoverPass, Exec, IsOverdueBatch;
  }

  // --------------------------------------------------- what one pass does

  /** A token whose create transaction is open cannot be compensated and is put off. */
  lemma BusyDeferred(s: State, units: map<VoucherId, nat>, t: Token, now: Millis)
    requires Inv(s, units) && !Quiet(s, t) && t in s.redis.pending
    ensures RecoverToken(s, t, now) == Apply(s, Defer(t, now))
  {
    IndexedRecord(s, units, t);
    RecordIsPlausible(s, units, t);
    BusyBound(s, units, t);
    hide Inv;
    var m := RecordMessage(s, t);
    assert Compensation(s, m) == ([], Err);
  }

  lemma BusyBound(s: State, units: map<VoucherId, nat>, t: Token)
    requires Inv(s, units) && !Quiet(s, t) && t in s.redis.records
    ensures s.redis.records[t].order == Some(s.net.alloc[t])
  {
    assert t in s.net.issued by {
      hide AllGood;
    }
    hide Inv;
    GoodAt(s, units, t);
  }

  lemma RecoverTokenWorks(s: State, units: map<VoucherId, nat>, t: Token, now: Millis)
    requires Inv(s, units) && Quiet(s, t) && t in s.redis.pending
    ensures Inv(RecoverToken(s, t, now), units) && Recovered(s, RecoverToken(s, t, now), t)
  {
    hide Inv, Recovered, Compensation, Plausible, Exec, Quiet;
    RecoverOne(s, units, t);
  }

  /** These tokens have left the index, or were put off because their create transaction is open; everything else on
      the index and the open transactions are as before. */
  ghost predicate Handled(s: State, s': State, tokens: set<Token>, now: Millis) {
    && (forall u :: u !in tokens ==> Get(s'.redis.pending, u) == Get(s.redis.pending, u))
    && (forall u :: u in tokens && u in s'.redis.pending ==> !Quiet(s, u) && (now >= 0 ==> s'.redis.pending[u] == now))
    && s'.net.creating == s.net.creating && s'.net.alloc == s.net.alloc
  }

  lemma TokenHandled(s: State, units: map<VoucherId, nat>, t: Token, now: Millis)
    requires Inv(s, units) && t in s.redis.pending
    ensures Inv(RecoverToken(s, t, now), units) && Handled(s, RecoverToken(s, t, now), {t}, now)
  {
    hide Inv, RecoverToken;
    if Quiet(s, t) {
      RecoverTokenWorks(s, units, t, now);
    } else {
      BusyDeferred(s, units, t, now);
      StepKeeps(s, units, Defer(t, now), t);
    }
  }

  lemma NoneHandled(s: State, now: Millis)
    ensures Handled(s, s, Elements([]), now)
  {
  }

  lemma OneMoreHandled(s: State, mid: State, s': State, tokens: set<Token>, t: Token, now: Millis)
    requires Handled(s, mid, tokens, now) && Handled(mid, s', {t}, now) && t !in tokens
    ensures Handled(s, s', tokens + {t}, now)
  {
  }

  lemma StillListed(s: State, mid: State, tokens: set<Token>, t: Token, now: Millis)
    requires Handled(s, mid, tokens, now) && t in s.redis.pending && t !in tokens
    ensures t in mid.redis.pending
  {
    assert Get(mid.redis.pending, t) == Get(s.redis.pending, t);
  }

  /** A pass over distinct recorded tokens handles exactly them. */
  lemma {:induction false} PassHandles(s: State, units: map<VoucherId, nat>, tokens: seq<Token>, now: Millis)
    requires Inv(s, units) && NoRepeat(tokens) && forall i :: 0 <= i < |tokens| ==> tokens[i] in s.redis.pending
    ensures Inv(RecoverPass(s, tokens, now), units)
    ensures Handled(s, RecoverPass(s, tokens, now), Elements(tokens), now)
    decreases |tokens|
  {
    hide Inv, RecoverToken, Handled;
    if tokens == [] {
      NoneHandled(s, now);
    } else {
      var n := |tokens| - 1;
      var done := Elements(tokens[..n]);
      PassHandles(s, units, tokens[..n], now);
      var mid := RecoverPass(s, tokens[..n], now);
      assert tokens[n] !in done;
      StillListed(s, mid, done, tokens[n], now);
      TokenHandled(mid, units, tokens[n], now);
      OneMoreHandled(s, mid, RecoverToken(mid, tokens[n], now), done, tokens[n], now);
      assert Elements(tokens) == done + {tokens[n]};
    }
  }

  /** A pass over distinct recorded tokens with no create transaction open for them takes exactly them off the index. */
  lemma PassWorks(s: State, units: map<VoucherId, nat>, tokens: seq<Token>, now: Millis)
    requires Inv(s, units) && NoRepeat(tokens)
    requires forall i :: 0 <= i < |tokens| ==> tokens[i] in s.redis.pending && Quiet(s, tokens[i])
    ensures var s' := RecoverPass(s, tokens, now);
      && Inv(s', units) && s'.redis.pending == s.redis.pending - Elements(tokens)
      && s'.net.creating == s.net.creating && s'.net.alloc == s.net.alloc
  {
    hide Inv, RecoverPass;
    PassHandles(s, units, tokens, now);
    var s' := RecoverPass(s, tokens, now);
    forall t
      ensures t in s'.redis.pending <==> t in s.redis.pending - Elements(tokens)
      ensures t in s'.redis.pending && t in s.redis.pending ==> s'.redis.pending[t] == s.redis.pending[t]
    {
      assert t !in Elements(tokens) ==> Get(s'.redis.pending, t) == Get(s.redis.pending, t);
    }
  }

  // ----------------------------------------------------------- whole runs

  /** Entries up to a score. */
  function UpTo(pending: map<Token, Millis>, score: Millis): set<Token> {
    set t | t in pending && pending[t] <= score
  }

  /** Among the entries up to any score below the cutoff, a batch takes a full hundred, or all of them. */
  lemma BatchTakesOldest(pending: map<Token, Millis>, cutoff: Millis, tokens: seq<Token>, score: Millis)
    requires IsOverdueBatch(pending, cutoff, tokens) && score <= cutoff
    requires forall t :: t in pending ==> pending[t] >= 0
    ensures |UpTo(pending, score) - Elements(tokens)| <= Max(0, |UpTo(pending, score)| - BATCH)
  {
    var before, after := UpTo(pending, score), UpTo(pending, score) - Elements(tokens);
    if after != {} {
      var t :| t in after;
      assert Eligible(pending, cutoff, t);
      assert |tokens| == BATCH;
      forall x | x in Elements(tokens)
        ensures x in before
      {
        var i :| 0 <= i < |tokens| && tokens[i] == x;
      }
      BatchDistinct(pending, cutoff, tokens);
      DistinctSize(tokens);
      assert |after| == |before| - |Elements(tokens)|;
    }
  }

  /** Nothing new comes to stand at or below this score: the cutoffs have passed it, the other clients reserve and defer
      at later times, and a pass that meets an open create transaction defers to a later time. */
  ghost predicate Onward(s: State, passes: seq<Pass>, score: Millis)
    decreases |passes|
  {
    passes == [] ||
    var last := passes[|passes| - 1];
    && Onward(s, passes[..|passes| - 1], score)
    && score <= last.cutoff
    && Later(last.others, score)
    && ((last.now >= 0 && score < last.now) || forall t :: t in last.batch ==> Quiet(Met(s, passes), t))
  }

  predicate Later(steps: seq<Step>, score: Millis) {
    forall step :: step in steps && (step.Reserve? || step.Defer?) ==> step.now > score
  }

  lemma StepLater(s: State, step: Step, score: Millis)
    requires step.Reserve? || step.Defer? ==> step.now > score
    ensures UpTo(Apply(s, step).redis.pending, score) <= UpTo(s.redis.pending, score)
  {
    hide LockRow, CancelTx, CreateWrites, CloseTx;
    forall t | t in UpTo(Apply(s, step).redis.pending, score)
      ensures t in UpTo(s.redis.pending, score)
    {
    }
  }

  lemma {:induction false} OthersLater(s: State, steps: seq<Step>, score: Millis)
    requires Later(steps, score)
    ensures UpTo(Exec(s, steps).redis.pending, score) <= UpTo(s.redis.pending, score)
    decreases |steps|
  {
    hide Apply, UpTo;
    if steps != [] {
      var n := |steps| - 1;
      assert forall step :: step in steps[..n] ==> step in steps;
      OthersLater(s, steps[..n], score);
      StepLater(Exec(s, steps[..n]), steps[n], score);
    }
  }

  lemma HandledLater(s: State, s': State, tokens: set<Token>, now: Millis, score: Millis)
    requires Handled(s, s', tokens, now) && ((now >= 0 && score < now) || forall t :: t in tokens ==> Quiet(s, t))
    ensures UpTo(s'.redis.pending, score) <= UpTo(s.redis.pending, score) - tokens
  {
    forall t | t in UpTo(s'.redis.pending, score)
      ensures t in UpTo(s.redis.pending, score) - tokens
    {
      if t !in tokens {
        assert Get(s'.redis.pending, t) == Get(s.redis.pending, t);
      }
    }
  }

  /** Between the passes the other clients leave the entry of this reservation alone, and when a pass lists it no
      create transaction of it is open. */
  ghost predicate Alone(s: State, passes: seq<Pass>, t: Token)
    decreases |passes|
  {
    passes == [] ||
    var init, last := passes[..|passes| - 1], passes[|passes| - 1];
    && Alone(s, init, t)
    && Get(Met(s, passes).redis.pending, t) == Get(Passes(s, init).redis.pending, t)
    && (t in last.batch ==> Quiet(Met(s, passes), t))
  }

  /** The entry is not new, keeps its score while it is there, and is still there if it was above the bound. */
  predicate KeptEntry(s: State, s': State, t: Token, high: Millis) {
    && (t in s'.redis.pending ==> Get(s.redis.pending, t) == Some(s'.redis.pending[t]))
    && (t in s.redis.pending && s.redis.pending[t] > high ==> t in s'.redis.pending)
  }

  lemma KeptOne(s: State, init: State, met: State, s': State, t: Token, high: Millis, pass: Pass)
    requires KeptEntry(s, init, t, high) && Get(met.redis.pending, t) == Get(init.redis.pending, t)
    requires Handled(met, s', Elements(pass.batch), pass.now) && (t in pass.batch ==> Quiet(met, t))
    requires IsOverdueBatch(met.redis.pending, pass.cutoff, pass.batch) && pass.cutoff <= high
    ensures KeptEntry(s, s', t, high)
  {
    if t in pass.batch {
      assert t in Elements(pass.batch);
      assert Eligible(met.redis.pending, pass.cutoff, t);
    } else {
      assert Get(s'.redis.pending, t) == Get(met.redis.pending, t);
    }
  }

  lemma KeptNone(s: State, high: Millis)
    ensures forall t :: KeptEntry(s, s, t, high)
  {
  }

  /** Whatever other clients do in between, each pass takes a hundred of the entries up to any score that nothing comes
      to stand below, until there are none; an entry they leave alone stays with its score until a pass takes it, and
      no pass takes one above its cutoff. */
  lemma {:induction false} PassesShrink(s: State, units: map<VoucherId, nat>, passes: seq<Pass>, low: Millis, high: Millis)
    requires Inv(s, units) && PassRun(s, passes) && Onward(s, passes, low)
    requires forall i :: 0 <= i < |passes| ==> passes[i].cutoff <= high
    ensures var s' := Passes(s, passes);
      && Inv(s', units)
      && (forall t :: Alone(s, passes, t) ==> KeptEntry(s, s', t, high))
      && |UpTo(s'.redis.pending, low)| <= Max(0, |UpTo(s.redis.pending, low)| - BATCH * |passes|)
    decreases |passes|
  {
    hide Inv, RecoverPass, IsOverdueBatch, UpTo, Quiet, KeptEntry, Handled, Exec, Later;
    if passes == [] {
      KeptNone(s, high);
    } else {
      var init, last := passes[..|passes| - 1], passes[|passes| - 1];
      assert forall i :: 0 <= i < |init| ==> init[i] == passes[i];
      PassesShrink(s, units, init, low, high);
      LastPass(s, units, passes, low);
      var mid, met, s' := Passes(s, init), Met(s, passes), Passes(s, passes);
      forall t | Alone(s, passes, t)
        ensures KeptEntry(s, s', t, high)
      {
        KeptOne(s, mid, met, s', t, high, last);
      }
    }
  }

  lemma LastPass(s: State, units: map<VoucherId, nat>, passes: seq<Pass>, low: Millis)
    requires passes != [] && Inv(Passes(s, passes[..|passes| - 1]), units) && PassRun(s, passes) && Onward(s, passes, low)
    ensures var mid, last := Passes(s, passes[..|passes| - 1]), passes[|passes| - 1];
      && Inv(Passes(s, passes), units)
      && Handled(Met(s, passes), Passes(s, passes), Elements(last.batch), last.now)
      && |UpTo(Passes(s, passes).redis.pending, low)| <= Max(0, |UpTo(mid.redis.pending, low)| - BATCH)
  {
    hide Inv, RecoverPass, UpTo, Quiet, Handled, Exec, Later, IsOverdueBatch;
    var mid, met, last := Passes(s, passes[..|passes| - 1]), Met(s, passes), passes[|passes| - 1];
    ExecKeeps(mid, units, last.others);
    BatchDistinct(met.redis.pending, last.cutoff, last.batch);
    PassHandles(met, units, last.batch, last.now);
    OthersLater(mid, last.others, low);
    IndexScores(met, units);
    BatchTakesOldest(met.redis.pending, last.cutoff, last.batch, low);
    HandledLater(met, Passes(s, passes), Elements(last.batch), last.now, low);
    SubsetSize(UpTo(met.redis.pending, low), UpTo(mid.redis.pending, low));
    SubsetSize(UpTo(Passes(s, passes).redis.pending, low), UpTo(met.redis.pending, low) - Elements(last.batch));
  }

  lemma BatchDistinct(pending: map<Token, Millis>, cutoff: Millis, tokens: seq<Token>)
    requires IsOverdueBatch(pending, cutoff, tokens)
    ensures forall i :: 0 <= i < |tokens| ==> tokens[i] in pending
    ensures NoRepeat(tokens)
  {
  }

  /** The server goes down: open transactions are rolled back, everything committed stays. */
  function Crashed(s: State): State {
    s.(net := s.net.(creating := map[]))
  }

  lemma CrashView(s: State, t: Token)
    requires t in s.net.issued && Good(ViewOf(s, t))
    ensures Good(ViewOf(Crashed(s), t))
  {
  }

  lemma CrashKeeps(s: State, units: map<VoucherId, nat>)
    requires Inv(s, units)
    ensures Inv(Crashed(s), units)
  {
    var s' := Crashed(s);
    assert Paired(s') && Slots(s') by {
      hide AllGood, Indexed, RedisBalanced, DbBalanced, Claims;
    }
    hide Good, ViewOf, Paired, Slots, Indexed, RedisBalanced, DbBalanced;
    forall t | t in s'.net.issued
      ensures Good(ViewOf(s', t))
    {
      CrashView(s, t);
    }
  }

  /** The reservation is an order or has given its unit back. */
  predicate Settled(s: State, t: Token) {
    OrderConservation.HasRow(s, t) || !Holds(s, t)
  }

  /** A reservation that is off the index is settled. */
  lemma OffIndexSettled(s: State, units: map<VoucherId, nat>, t: Token)
    requires Inv(s, units) && t in s.net.issued && t !in s.redis.pending
    ensures Settled(s, t)
  {
    assert t !in s.redis.records by {
      hide AllGood, Paired, Slots, RedisBalanced, DbBalanced, Claims;
    }
    hide Inv;
    GoodAt(s, units, t);
  }

  lemma EmptyIndex(s: State, units: map<VoucherId, nat>)
    requires Inv(s, units) && s.redis.pending == map[]
    ensures s.redis.records == map[] && forall v :: v in units ==> CreditsOnly(s, v)
  {
    assert s.redis.records.Keys == {} by {
      hide AllGood, Paired, Slots, RedisBalanced, DbBalanced, Claims;
    }
    hide Inv;
    forall v | v in units
      ensures CreditsOnly(s, v)
    {
      OrderConservation.InvConserves(s, units, v);
      assert OrderConservation.Unlanded(s, v) == {};
    }
  }

  /** The stocks differ by the closed orders whose unit Redis does not have yet, and by nothing else. */
  ghost predicate CreditsOnly(s: State, v: VoucherId) {
    && v in s.db.stock && v in s.redis.stock
    && s.db.stock[v] - s.redis.stock[v] == |OrderConservation.ClosedUncredited(s, v)|
  }

  /** A crash after any schedule, then passes between which other clients go on with anything that concerns later times:
      with as many passes as there are hundreds of entries up to `due`, only later entries are left, and an entry that was
      due and that the others left alone is gone. Whatever is off the index is landed or fully returned, and every unit
      is accounted for. */
  lemma CrashRecovers(start: State, units: map<VoucherId, nat>, steps: seq<Step>, passes: seq<Pass>, due: Millis)
    requires Fresh(start, units)
    requires var s := Crashed(Exec(start, steps));
      PassRun(s, passes) && Onward(s, passes, due) && BATCH * |passes| >= |UpTo(s.redis.pending, due)|
    ensures var s, s' := Crashed(Exec(start, steps)), Passes(Crashed(Exec(start, steps)), passes);
      && Inv(s', units)
      && (forall t :: t in s'.redis.pending ==> s'.redis.pending[t] > due)
      && (forall t :: t in s'.redis.pending && Alone(s, passes, t) ==> Get(s.redis.pending, t) == Some(s'.redis.pending[t]))
      && (forall t :: t in s'.net.issued && t !in s'.redis.pending ==> Settled(s', t))
      && (forall v :: v in units ==> OrderConservation.Conserved(s', v, units[v]))
  {
    hide Inv, Fresh, Exec, PassRun, Passes, Onward, Alone, Settled, KeptEntry, OrderConservation.Conserved;
    InitInv(start, units);
    ExecKeeps(start, units, steps);
    var s := Crashed(Exec(start, steps));
    CrashKeeps(Exec(start, steps), units);
    var high := HighestCutoff(passes);
    PassesShrink(s, units, passes, due, high);
    var s' := Passes(s, passes);
    OnlyLater(s, s', due);
    forall t | t in s'.redis.pending && Alone(s, passes, t)
      ensures Get(s.redis.pending, t) == Some(s'.redis.pending[t])
    {
      SameScore(s, s', t, high);
    }
    forall t | t in s'.net.issued && t !in s'.redis.pending
      ensures Settled(s', t)
    {
      OffIndexSettled(s', units, t);
    }
    forall v | v in units
      ensures OrderConservation.Conserved(s', v, units[v])
    {
      OrderConservation.InvConserves(s', units, v);
    }
  }

  lemma SameScore(s: State, s': State, t: Token, high: Millis)
    requires KeptEntry(s, s', t, high) && t in s'.redis.pending
    ensures Get(s.redis.pending, t) == Some(s'.redis.pending[t])
  {
  }

  /** With nobody else at work after the crash all entries are left alone and no transaction is open. */
  lemma {:induction false} LonePasses(s: State, units: map<VoucherId, nat>, passes: seq<Pass>, due: Millis)
    requires Inv(s, units) && s.net.creating == map[] && PassRun(s, passes)
    requires forall i :: 0 <= i < |passes| ==> passes[i].others == [] && due <= passes[i].cutoff
    ensures Inv(Passes(s, passes), units) && Passes(s, passes).net.creating == map[]
    ensures Onward(s, passes, due) && forall t :: Alone(s, passes, t)
    decreases |passes|
  {
    hide Inv, RecoverPass, IsOverdueBatch, Handled;
    if passes != [] {
      var init, last := passes[..|passes| - 1], passes[|passes| - 1];
      assert forall i :: 0 <= i < |init| ==> init[i] == passes[i];
      LonePasses(s, units, init, due);
      var met := Met(s, passes);
      assert met == Passes(s, init);
      BatchDistinct(met.redis.pending, last.cutoff, last.batch);
      PassHandles(met, units, last.batch, last.now);
      HandledCreating(met, Passes(s, passes), Elements(last.batch), last.now);
    }
  }

  lemma HandledCreating(s: State, s': State, tokens: set<Token>, now: Millis)
    requires Handled(s, s', tokens, now)
    ensures s'.net.creating == s.net.creating
  {
  }

  /** A crash after any schedule, then nothing but undisturbed passes: whatever reservation was due is landed or fully
      returned and only later ones are left, with their scores. Once everything is due nothing is left, and the stocks
      differ by no more than the closed orders still to be credited. */
  lemma LoneRecovery(start: State, units: map<VoucherId, nat>, steps: seq<Step>, passes: seq<Pass>, due: Millis)
    requires Fresh(start, units)
    requires var s := Crashed(Exec(start, steps));
      && PassRun(s, passes) && BATCH * |passes| >= |UpTo(s.redis.pending, due)|
      && forall i :: 0 <= i < |passes| ==> passes[i].others == [] && due <= passes[i].cutoff
    ensures var s, s' := Crashed(Exec(start, steps)), Passes(Crashed(Exec(start, steps)), passes);
      && (forall t :: t in s'.redis.pending ==> Get(s.redis.pending, t) == Some(s'.redis.pending[t]) && s.redis.pending[t] > due)
      && (forall t :: t in s'.net.issued && t !in s'.redis.pending ==> Settled(s', t))
      && (forall v :: v in units ==> OrderConservation.Conserved(s', v, units[v]))
      && ((forall t :: t in s.redis.pending ==> s.redis.pending[t] <= due) ==>
            && s'.redis.pending == map[] && s'.redis.records == map[]
            && forall v :: v in units ==> CreditsOnly(s', v))
  {
    hide Inv, Fresh, Exec, PassRun, Passes, Onward, Alone, Settled, CreditsOnly, OrderConservation.Conserved;
    InitInv(start, units);
    ExecKeeps(start, units, steps);
    var s := Crashed(Exec(start, steps));
    CrashKeeps(Exec(start, steps), units);
    LonePasses(s, units, passes, due);
    CrashRecovers(start, units, steps, passes, due);
    var s' := Passes(s, passes);
    forall t | t in s'.redis.pending
      ensures Get(s.redis.pending, t) == Some(s'.redis.pending[t])
    {
      assert Alone(s, passes, t);
    }
    if s'.redis.pending == map[] {
      EmptyIndex(s', units);
    }
  }

  lemma OnlyLater(s: State, s': State, due: Millis)
    requires |UpTo(s'.redis.pending, due)| <= 0
    ensures forall t :: t in s'.redis.pending ==> s'.redis.pending[t] > due
  {
    assert UpTo(s'.redis.pending, due) == {};
    forall t | t in s'.redis.pending
      ensures s'.redis.pending[t] > due
    {
      assert t !in UpTo(s'.redis.pending, due);
    }
  }

  lemma {:induction false} HighestCutoff(passes: seq<Pass>) returns (high: Millis)
    ensures forall i :: 0 <= i < |passes| ==> passes[i].cutoff <= high
  {
    high := 0;
    if passes != [] {
      high := HighestCutoff(passes[1..]);
      high := Max(high, passes[0].cutoff);
      assert forall i :: 0 < i < |passes| ==> passes[i] == passes[1..][i - 1];
    }
  }

  lemma IndexScores(s: State, units: map<VoucherId, nat>)
    requires Inv(s, units)
    ensures forall t :: t in s.redis.pending ==> s.redis.pending[t] >= 0
  {
    hide AllGood, Paired, Slots, RedisBalanced, DbBalanced, Claims;
  }

  /** Every reservation record is on the recovery index and nothing else is, after every schedule. */
  lemma IndexComplete(start: State, units: map<VoucherId, nat>, steps: seq<Step>)
    requires Fresh(start, units)
    ensures var r := Exec(start, steps).redis; r.pending.Keys == r.records.Keys
  {
    InitInv(start, units);
    ExecKeeps(start, units, steps);
    hide AllGood, Paired, Slots, RedisBalanced, DbBalanced, Claims, Exec, Fresh;
  }
}
