/** The flows that string the services together: buying, consuming messages, compensating. */
module OrderFlows {
  import opened Common
  import opened OrderModel
  import opened OrderInvariant
  import opened OrderGrowth
  import opened OrderReturns
  import opened OrderScripts
  import opened OrderStores
  import opened OrderServices
  import OrderIds

  /** The steps of an undisturbed compensation, and its answer. */
  function Compensation(s: State, m: Message): (seq<Step>, Result<bool>)
    requires Plausible(s, m)
  {
    if m.order.None? then
      ([ReleaseUnbound(m.token)], if ReleaseScript(s.redis, m.claim, m.token, None, false).1 >= 0 then Ok(false) else Err)
    else
      var o := m.order.value;
      if o in s.net.creating then ([], Err)
      else
        match CancelOutcome(s.db, m)
        case Err => ([Cancel(o)], Err)
        case Ok(outcome) =>
          if outcome == CREATED then ([Cancel(o), Complete(o)], Ok(true))
          else
            var keep := outcome == CANCELLED_KEEP_QUALIFICATION;
            ([Cancel(o), ReleaseBound(o, keep)],
             if ReleaseScript(s.redis, m.claim, m.token, m.order, keep).1 >= 0 then Ok(false) else Err)
  }

  /** The schedule of an undisturbed compensation, one call after the other. */
  lemma CompensationCases(s: State, m: Message, trace: seq<Step>)
    requires Plausible(s, m)
    ensures m.order.None? ==>
      Compensation(s, m) == ([ReleaseUnbound(m.token)], if ReleaseScript(s.redis, m.claim, m.token, None, false).1 >= 0 then Ok(false) else Err)
    ensures m.order.Some? ==>
      var o, c := m.order.value, Compensation(s, m);
      && (o in s.net.creating ==> c.1 == Err && trace + c.0 == trace)
      && (o !in s.net.creating && CancelOutcome(s.db, m).Err? ==> c == ([Cancel(o)], Err))
      && (o !in s.net.creating && CancelOutcome(s.db, m) == Ok(CREATED) ==> c.1 == Ok(true) && trace + c.0 == trace + [Cancel(o)] + [Complete(o)])
      && (o !in s.net.creating && CancelOutcome(s.db, m).Ok? && CancelOutcome(s.db, m).value != CREATED ==>
            var keep := CancelOutcome(s.db, m).value == CANCELLED_KEEP_QUALIFICATION;
            && c.1 == (if ReleaseScript(s.redis, m.claim, m.token, m.order, keep).1 >= 0 then Ok(false) else Err)
            && trace + c.0 == trace + [Cancel(o)] + [ReleaseBound(o, keep)])
  {
    hide CancelOutcome, ReleaseScript, Plausible;
  }

  /** What a compensation comes to whose two calls succeed, `met` being the state in which its cancellation ended: an open
      create transaction makes it fail; an order that has landed stays; anything else is cancelled for good and, if the
      order id was bound, has given its unit back. */
  predicate ClearedUp(m: Message, met: State, s: State, r: Result<bool>)
    requires m.order.Some?
  {
    var o := m.order.value;
    if o in met.net.creating then r.Err?
    else if o in met.db.orders then r == Ok(true) && Delivered(s, o, Created)
    else r == Ok(false) && Delivered(s, o, Cancelled) && (o in met.net.bound ==> TakenBack(s, m.token))
  }

  /** The state when the schedule had this length. */
  ghost function Reached(start: State, trace: seq<Step>, at: nat): State
    requires at <= |trace|
  {
    Exec(start, trace[..at])
  }

  lemma ReachedThen(start: State, read: seq<Step>, trace: seq<Step>)
    requires read <= trace
    ensures Reached(start, trace, |read|) == Exec(start, read)
  {
    assert trace[..|read|] == read;
  }

  lemma ReachedNow(start: State, trace: seq<Step>)
    ensures Reached(start, trace, |trace|) == Exec(start, trace)
  {
    ReachedThen(start, trace, trace);
  }

  class OrderCompensationService {
    const transactions: OrderTransactionService
    const reservations: OrderReservationService
    const stores: Stores

    constructor (transactions: OrderTransactionService, reservations: OrderReservationService)
      requires transactions.stores == reservations.stores
      ensures this.transactions == transactions && this.reservations == reservations && stores == transactions.stores
    {
      this.transactions, this.reservations, stores := transactions, reservations, transactions.stores;
    }

    ghost predicate Wired() {
      transactions.stores == stores && reservations.stores == stores
    }

    /** OrderCompensationService.cancel: true means the order exists; false, with an order id, that it never will. `at` is
        how long the schedule was when the cancelling transaction had ended. */
    method Cancel(m: Message) returns (r: Result<bool>, ghost at: nat)
      requires Wired() && stores.Valid()
      requires Plausible(stores.Now(), m) || (m.order.Some? && Unacceptable(stores.Now(), m))
      modifies stores
      ensures stores.Valid() && unchanged(stores`ownToken, stores`ownTx)
      ensures old(stores.trace) <= stores.trace && Grows(old(stores.Now()), stores.Now())
      ensures r == Ok(true) ==> m.order.Some? && Delivered(stores.Now(), m.order.value, Created)
      ensures r == Ok(false) && m.order.Some? ==> Delivered(stores.Now(), m.order.value, Cancelled)
      ensures m.order.Some? && old(Unacceptable(stores.Now(), m)) ==> r.Err?
      ensures |old(stores.trace)| <= at <= |stores.trace| && Grows(old(stores.Now()), Reached(stores.start, stores.trace, at))
      ensures var t := old(stores.tape);
        FirstFault(t).Fine? && FirstFault(Rest(t)).Fine? && m.order.Some? && !old(Unacceptable(stores.Now(), m)) ==>
          ClearedUp(m, Reached(stores.start, stores.trace, at), stores.Now(), r)
      ensures FirstFault(old(stores.tape)).Fine? && m.order.None? && old(Returnable(stores.Now(), m, stores.ownToken)) ==>
        r == Ok(false) && TakenBack(stores.Now(), m.token)
      ensures old(stores.tape) == [] ==> stores.tape == []
      ensures Consumed(old(stores.tape), stores.tape)
      ensures r.Ok? ==> FirstFault(old(stores.tape)).Fine? && (m.order.Some? ==> FirstFault(Rest(old(stores.tape))).Fine?)
      ensures Lone(old(stores.tape)) ==> SameOff(old(stores.pending), stores.pending, m.token)
      ensures Silent(old(stores.tape)) && m.order.Some? && old(Unacceptable(stores.Now(), m)) ==> stores.trace == old(stores.trace)
      ensures Silent(old(stores.tape)) && (m.order.None? || (Silent(Rest(old(stores.tape))) && !old(Unacceptable(stores.Now(), m)))) ==>
        stores.trace == old(stores.trace) + Compensation(old(stores.Now()), m).0 && r == Compensation(old(stores.Now()), m).1
    {
      hide Grows, Fresh, Exec, Inv, Apply, CancelOutcome, ReleaseScript, Genuine, Delivered, Unacceptable, TakenBack, Rest, Reached;
      hide Consumed, Lone, Unaccompanied, SameOff;
      RestOfNothing(stores.tape);
      if Plausible(stores.Now(), m) {
        CompensationCases(stores.Now(), m, stores.trace);
      }
      hide Compensation;
      LoneTwice(stores.tape);
      SameOffSelf(stores.pending, m.token);
      if m.order.None? {
        var unbound := reservations.Release(m, false);
        at := |stores.trace|;
        ReachedNow(stores.start, stores.trace);
        return if unbound.Ok? then Ok(false) else Err, at;
      }
      hide Returnable;
      var outcome := transactions.Cancel(m);
      ghost var s, read := stores.Now(), stores.trace;
      at := |read|;
      if outcome.Ok? {
        r := Finish(m, outcome.value);
        GrowsTrans(old(stores.Now()), s, stores.Now());
      } else {
        r := Err;
      }
      ReachedThen(stores.start, read, stores.trace);
    }

    lemma LoneTwice(tape: seq<Disturbance<Step>>)
      ensures Consumed(tape, tape) && Consumed(tape, Rest(tape)) && Consumed(tape, Rest(Rest(tape)))
      ensures Lone(tape) ==> Unaccompanied(tape) && Unaccompanied(Rest(tape))
    {
    }

    lemma RestOfNothing(tape: seq<Disturbance<Step>>)
      ensures tape == [] ==> Rest(tape) == [] && Silent(tape)
    {
    }

    /** What the outcome of the cancelling transaction calls for. */
    method Finish(m: Message, outcome: Outcome) returns (r: Result<bool>)
      requires Wired() && stores.Valid() && m.order.Some? && Genuine(stores.Now(), m)
      requires Delivered(stores.Now(), m.order.value, if outcome == CREATED then Created else Cancelled)
      requires outcome != CREATED ==> (m.order.value, outcome == CANCELLED_KEEP_QUALIFICATION) in stores.net.permits
      modifies stores
      ensures stores.Valid() && unchanged(stores`ownToken, stores`ownTx) && stores.tape == Rest(old(stores.tape))
      ensures old(stores.trace) <= stores.trace && Grows(old(stores.Now()), stores.Now())
      ensures Delivered(stores.Now(), m.order.value, if outcome == CREATED then Created else Cancelled)
      ensures r.Ok? ==> r.value == (outcome == CREATED)
      ensures r.Ok? <==> FirstFault(old(stores.tape)).Fine?
      ensures Unaccompanied(old(stores.tape)) ==> SameOff(old(stores.pending), stores.pending, m.token)
      ensures FirstFault(old(stores.tape)).Fine? && outcome != CREATED && m.order.value in old(stores.net.bound) ==>
        TakenBack(stores.Now(), m.token)
      ensures Silent(old(stores.tape)) ==>
        var keep := outcome == CANCELLED_KEEP_QUALIFICATION;
        && stores.trace == old(stores.trace) + [if outcome == CREATED then Step.Complete(m.order.value) else ReleaseBound(m.order.value, keep)]
        && (outcome != CREATED ==> (r.Ok? <==> ReleaseScript(old(stores.RedisNow()), m.claim, m.token, m.order, keep).1 >= 0))
    {
      hide Grows, Fresh, Exec, Inv, Apply, ReleaseScript, Genuine, Delivered, TakenBack, Rest;
      ghost var s := stores.Now();
      if outcome == CREATED {
        var completed := reservations.Complete(m);
        DeliveredStays(s, stores.Now(), m.order.value, Created);
        return if completed.Ok? then Ok(true) else Err;
      }
      var released := reservations.Release(m, outcome == CANCELLED_KEEP_QUALIFICATION);
      DeliveredStays(s, stores.Now(), m.order.value, Cancelled);
      return if released.Ok? then Ok(false) else Err;
    }
  }

  class OrderListener {
    const transactions: OrderTransactionService
    const reservations: OrderReservationService
    const compensation: OrderCompensationService
    const stores: Stores

    constructor (transactions: OrderTransactionService, reservations: OrderReservationService, compensation: OrderCompensationService)
      requires transactions.stores == reservations.stores == compensation.stores
      ensures this.transactions == transactions && this.reservations == reservations && this.compensation == compensation
      ensures stores == transactions.stores
    {
      this.transactions, this.reservations, this.compensation := transactions, reservations, compensation;
      stores := transactions.stores;
    }

    ghost predicate Wired() {
      transactions.stores == stores && reservations.stores == stores && compensation.stores == stores && compensation.Wired()
    }

    /** Consumes one delivery of a message. A normal return, which acknowledges it, means the order is decided. Undisturbed, a
        landed order is taken off the recovery index, a cancelled one is compensated, and a failed landing changes nothing. */
    method Create(m: Message, now: Millis, timeout: Millis) returns (r: Result<()>, ghost mid: State, ghost outcome: Result<Outcome>)
      requires Wired() && stores.Valid() && stores.ownTx == None
      requires Unacceptable(stores.Now(), m) || (Genuine(stores.Now(), m) && m.order.value in stores.net.sent)
      modifies stores
      ensures stores.Valid() && stores.ownTx == None
      ensures old(Unacceptable(stores.Now(), m)) ==> r.Err?
      ensures old(stores.trace) <= stores.trace && Grows(old(stores.Now()), stores.Now())
      ensures r.Ok? ==>
        m.order.Some? && (Delivered(stores.Now(), m.order.value, Created) || Delivered(stores.Now(), m.order.value, Cancelled))
      ensures outcome.Ok? ==> m.order.Some? && Genuine(mid, m)
      ensures old(stores.tape) == [] ==> CreateResult(old(stores.Now()), mid, m, now, timeout, outcome)
      ensures old(stores.tape) == [] ==>
        if outcome.Err? then r.Err? && stores.Now() == old(stores.Now())
        else if outcome.value == CREATED then r.Ok? && stores.Now() == Apply(mid, Step.Complete(m.order.value))
        else stores.Now() == Exec(mid, Compensation(mid, m).0) && (r.Ok? <==> Compensation(mid, m).1.Ok?)
    {
      hide Grows, Fresh, Exec, Inv, Apply, Genuine, Delivered, LockRow, OwnerIs, RecordIs, CreateWrites, Compensation, Unacceptable;
      mid, outcome := stores.Now(), Err;
      if !m.Valid() {
        GrowsRefl(stores.Now());
        InvalidRefused(stores.Now(), m, now, timeout);
        return Err, mid, outcome;
      }
      var answer := transactions.Create(m, now, timeout);
      mid, outcome := stores.Now(), answer;
      if answer.Err? {
        return Err, mid, outcome;
      }
      ghost var s := stores.Now();
      PlausibleStays(old(stores.Now()), s, m);
      if answer.value == CREATED {
        ExecOne(stores.start, stores.trace, Step.Complete(m.order.value));
        r := reservations.Complete(m);
        GrowsTrans(old(stores.Now()), s, stores.Now());
        DeliveredStays(s, stores.Now(), m.order.value, Created);
      } else {
        stores.ValidInv();
        GenuineAccepted(s, stores.units, m);
        ExecAppend(stores.start, stores.trace, Compensation(s, m).0);
        var late, _ := compensation.Cancel(m);
        GrowsTrans(old(stores.Now()), s, stores.Now());
        DeliveredStays(s, stores.Now(), m.order.value, Cancelled);
        r := if late.Ok? then Ok(()) else Err;
      }
    }

    lemma InvalidRefused(s: State, m: Message, now: Millis, timeout: Millis)
      requires !m.Valid()
      ensures Unacceptable(s, m) && CreateResult(s, s, m, now, timeout, Err)
    {
    }

    /** Consumes one dead letter. A normal return means the order is decided. Undisturbed, it compensates and nothing else. */
    method DeadLetter(m: Message) returns (r: Result<()>)
      requires Wired() && stores.Valid() && (Unacceptable(stores.Now(), m) || Genuine(stores.Now(), m))
      modifies stores
      ensures stores.Valid() && unchanged(stores`ownTx)
      ensures old(stores.trace) <= stores.trace && Grows(old(stores.Now()), stores.Now())
      ensures r.Ok? ==>
        m.order.Some? && (Delivered(stores.Now(), m.order.value, Created) || Delivered(stores.Now(), m.order.value, Cancelled))
      ensures old(Unacceptable(stores.Now(), m)) ==> r.Err?
      ensures old(stores.tape) == [] && old(Unacceptable(stores.Now(), m)) ==> stores.trace == old(stores.trace)
      ensures old(stores.tape) == [] && !old(Unacceptable(stores.Now(), m)) ==>
        stores.trace == old(stores.trace) + Compensation(old(stores.Now()), m).0
        && (r.Ok? <==> Compensation(old(stores.Now()), m).1.Ok?)
    {
      hide Grows, Fresh, Exec, Inv, Apply, Delivered, Compensation, Conflicting;
      if !m.Valid() {
        GrowsRefl(stores.Now());
        return Err;
      }
      var done, _ := compensation.Cancel(m);
      match done
      case Err => return Err;
      case Ok(landed) =>
        assert if landed then done == Ok(true) else done == Ok(false);
        return Ok(());
    }
  }

  // ---------------------------------------------------------------- buying

  datatype Response =
    | Accepted(order: OrderId)
    | Invalid                  // the voucher id is not positive
    | Refused(code: int)       // the qualification script said no
    | Lapsed                   // the reservation was taken back before it could be bound
    | Unconfirmed              // something failed; the order may or may not follow

  /** What the buyer is told after a failure, `met` being the state in which the cancelling transaction ended. */
  predicate Compensated(m: Message, met: State, s: State, r: Response)
    requires m.order.Some?
  {
    var o := m.order.value;
    if o in met.net.creating then r == Unconfirmed
    else if o in met.db.orders then r == Accepted(o) && Delivered(s, o, Created)
    else r == Unconfirmed && Delivered(s, o, Cancelled) && (o in met.net.bound ==> TakenBack(s, m.token))
  }

  /** The answer after a successful reservation by what the tape holds for the calls: drawing the id, binding, publishing,
      and, after the first of them that fails, those of the compensation. */
  predicate AnswerByFault(t: seq<Disturbance<Step>>, m: Message, met: State, s: State, r: Response) {
    if !FirstFault(t).Fine? then
      FirstFault(Skip(t, 1)).Fine? ==> r == Unconfirmed && TakenBack(s, m.token)
    else if !FirstFault(Skip(t, 1)).Fine? then
      && m.order.Some?
      && (FirstFault(Skip(t, 2)).Fine? && FirstFault(Skip(t, 3)).Fine? ==> Compensated(m, met, s, r))
    else if r != Lapsed && !FirstFault(Skip(t, 2)).Fine? then
      && m.order.Some? && m.order.value in met.net.bound
      && (FirstFault(Skip(t, 3)).Fine? && FirstFault(Skip(t, 4)).Fine? ==> Compensated(m, met, s, r))
    else r == Lapsed || r.Accepted?
  }

  /** Nobody else is at work, and of the five calls after the reservation only the publication meets a fault: it is lost. */
  predicate OnlyPublishLost(t: seq<Disturbance<Step>>) {
    && Silent(t) && Silent(Skip(t, 1))
    && Unaccompanied(Skip(t, 2)) && FirstFault(Skip(t, 2)).Lost?
    && Silent(Skip(t, 3)) && Silent(Skip(t, 4))
  }

  /** Reserving, binding and releasing leaves Redis as it was. */
  lemma RedisRound(r: Redis, c: Claim, t: Token, now: Millis, o: OrderId)
    requires SeckillScript(r, c, t, now).1 == SUCCESS && t !in r.records && t !in r.pending && c !in r.owners
    ensures var r1 := SeckillScript(r, c, t, now).0;
      var (r2, code) := BindScript(r1, c, t, o);
      code == 1 && ReleaseScript(r2, c, t, Some(o), false) == (r, 1)
  {
    var r1 := SeckillScript(r, c, t, now).0;
    var r2 := BindScript(r1, c, t, o).0;
    var r3 := ReleaseScript(r2, c, t, Some(o), false).0;
    ReserveAnswers(r, c, t, now);
    assert r3.users[c.voucher] == r.users[c.voucher] + {c.user} - {c.user} == r.users[c.voucher];
    assert r3.stock.Keys == r.stock.Keys && r3.users.Keys == r.users.Keys;
    assert r3.stock == r.stock && r3.users == r.users;
    assert r3.owners == r.owners && r3.records == r.records && r3.pending == r.pending;
  }

  /** Whoever may reserve has neither an owner entry nor an order that is not closed. */
  lemma BuyerIsFree(s: State, units: map<VoucherId, nat>, c: Claim)
    requires Inv(s, units) && c.voucher in s.redis.users && c.user !in s.redis.users[c.voucher]
    ensures c !in s.redis.owners && NoneActive(s.db, c)
  {
    assert c !in s.redis.owners by {
      hide AllGood, Paired, Indexed, RedisBalanced, DbBalanced, Claims;
      assert c == Claim(c.user, c.voucher);
    }
    forall o | o in s.db.orders && s.db.orders[o].claim == c
      ensures s.db.orders[o].status == Closed
    {
      hide Inv;
      if s.db.orders[o].status != Closed {
        ActiveHolds(s, units, o);
        assert false;
      }
    }
  }

  lemma FreshEverywhere(s: State, units: map<VoucherId, nat>, t: Token, o: OrderId)
    requires Inv(s, units) && t !in s.net.issued && o !in s.net.tokenOf
    ensures t !in s.redis.records && t !in s.redis.pending
    ensures o !in s.db.deliveries && o !in s.db.orders && o !in s.net.creating
  {
    hide AllGood, Slots, RedisBalanced, DbBalanced, Claims;
  }

  /** The state after the three steps of a purchase that was not published. */
  lemma BoughtState(s: State, c: Claim, t: Token, now: Millis, o: OrderId)
    requires Enabled(s, Step.Reserve(t, c, now)) && t !in s.net.alloc && o > 0 && o !in s.net.tokenOf
    requires SeckillScript(s.redis, c, t, now).1 == SUCCESS
    requires BindScript(SeckillScript(s.redis, c, t, now).0, c, t, o).1 == 1
    ensures var s2 := Exec(s, [Step.Reserve(t, c, now)] + [Allocate(t, o), Step.Bind(o)]);
      && s2.redis == BindScript(SeckillScript(s.redis, c, t, now).0, c, t, o).0 && s2.db == s.db
      && s2.net.creating == s.net.creating && Get(s2.net.tokenOf, o) == Some(t) && Get(s2.net.issued, t) == Some(c)
  {
    hide SeckillScript, BindScript;
    var one, two := Step.Reserve(t, c, now), Allocate(t, o);
    ExecOne(s, [], one);
    ExecOne(s, [one], two);
    ExecOne(s, [one, two], Step.Bind(o));
    assert [] + [one] == [one] && [one] + [two] == [one, two];
    assert [one] + [two, Step.Bind(o)] == [one, two] + [Step.Bind(o)];
  }

  lemma CancelThenRelease(s: State, c: Claim, t: Token, o: OrderId)
    requires Get(s.net.tokenOf, o) == Some(t) && Get(s.net.issued, t) == Some(c) && o !in s.net.creating
    requires CancelOutcome(s.db, Message(Some(o), c, t)) == Ok(CANCELLED)
    ensures Exec(s, [Step.Cancel(o), ReleaseBound(o, false)]).redis == ReleaseScript(s.redis, c, t, Some(o), false).0
  {
    hide ReleaseScript, LockRow;
    ExecOne(s, [], Step.Cancel(o));
    ExecOne(s, [Step.Cancel(o)], ReleaseBound(o, false));
    assert [] + [Step.Cancel(o)] == [Step.Cancel(o)] && [Step.Cancel(o)] + [ReleaseBound(o, false)] == [Step.Cancel(o), ReleaseBound(o, false)];
  }

  /** The order was drawn and bound and then compensated, with nothing else in between. */
  ghost predicate Undone(s: State, m: Message, s': State, r: Response) {
    && m.order.Some? && m.order.value > 0 && m.order.value !in s.net.tokenOf
    && var o := m.order.value;
       var mid := Exec(s, [Allocate(m.token, o), Step.Bind(o)]);
       && Plausible(mid, m) && s' == Exec(mid, Compensation(mid, m).0)
       && (r.Accepted? <==> Compensation(mid, m).1 == Ok(true)) && (r.Accepted? || r.Unconfirmed?)
  }

  lemma UndoneBy(s: State, m: Message, start: State, trace: seq<Step>, mid: State, trace1: seq<Step>, s': State, trace2: seq<Step>, r: Response)
    requires s == Exec(start, trace) && mid == Exec(start, trace1) && s' == Exec(start, trace2)
    requires m.order.Some? && m.order.value > 0 && m.order.value !in s.net.tokenOf && Plausible(mid, m)
    requires trace1 == trace + [Allocate(m.token, m.order.value), Step.Bind(m.order.value)]
    requires trace2 == trace1 + Compensation(mid, m).0
    requires (r.Accepted? <==> Compensation(mid, m).1 == Ok(true)) && (r.Accepted? || r.Unconfirmed?)
    ensures Undone(s, m, s', r)
  {
    ExecAppend(start, trace, [Allocate(m.token, m.order.value), Step.Bind(m.order.value)]);
    ExecAppend(start, trace1, Compensation(mid, m).0);
    hide Exec, Compensation, Plausible;
  }

  lemma UndoneFromStart(s: State, units: map<VoucherId, nat>, c: Claim, t: Token, now: Millis, m: Message, s': State, r: Response)
    requires Inv(s, units) && Enabled(s, Step.Reserve(t, c, now)) && t !in s.net.alloc && m.claim == c && m.token == t
    requires SeckillScript(s.redis, c, t, now).1 == SUCCESS && Undone(Apply(s, Step.Reserve(t, c, now)), m, s', r)
    ensures r == Unconfirmed && s'.redis == s.redis
  {
    hide Inv, Exec, SeckillScript, Compensation, Plausible;
    var o := m.order.value;
    ExecOne(s, [], Step.Reserve(t, c, now));
    assert [] + [Step.Reserve(t, c, now)] == [Step.Reserve(t, c, now)] && Exec(s, []) == s by {
      NothingRuns(s);
    }
    ExecAppend(s, [Step.Reserve(t, c, now)], [Allocate(t, o), Step.Bind(o)]);
    LostPublishUndone(s, units, c, t, now, o);
    assert m == Message(Some(o), c, t);
  }

  lemma NothingRuns(s: State)
    ensures Exec(s, []) == s
  {
  }

  /** Undoing what was just reserved, numbered and bound leaves Redis as it was before. */
  lemma LostPublishUndone(s: State, units: map<VoucherId, nat>, c: Claim, t: Token, now: Millis, o: OrderId)
    requires Inv(s, units) && Enabled(s, Step.Reserve(t, c, now)) && t !in s.net.alloc && o > 0 && o !in s.net.tokenOf
    requires SeckillScript(s.redis, c, t, now).1 == SUCCESS
    ensures var s2, m := Exec(s, [Step.Reserve(t, c, now)] + [Allocate(t, o), Step.Bind(o)]), Message(Some(o), c, t);
      && Plausible(s2, m) && Compensation(s2, m).1 == Ok(false)
      && Exec(s2, Compensation(s2, m).0).redis == s.redis
  {
    hide Inv, Exec, SeckillScript, BindScript, ReleaseScript, CancelTx, LockRow;
    ReserveAnswers(s.redis, c, t, now);
    FreshEverywhere(s, units, t, o);
    BuyerIsFree(s, units, c);
    RedisRound(s.redis, c, t, now, o);
    BoughtState(s, c, t, now, o);
    var s2, m := Exec(s, [Step.Reserve(t, c, now)] + [Allocate(t, o), Step.Bind(o)]), Message(Some(o), c, t);
    CancelAnswers(s2.db, m);
    CancelThenRelease(s2, c, t, o);
  }

  class VoucherOrderService {
    const reservations: OrderReservationService
    const compensation: OrderCompensationService
    const stores: Stores

    constructor (reservations: OrderReservationService, compensation: OrderCompensationService)
      requires reservations.stores == compensation.stores
      ensures this.reservations == reservations && this.compensation == compensation && stores == reservations.stores
    {
      this.reservations, this.compensation, stores := reservations, compensation, reservations.stores;
    }

    ghost predicate Wired() {
      reservations.stores == stores && compensation.stores == stores && compensation.Wired()
    }

    /** An order id that was never drawn before, as those of `RedisIdWorker` are: see `WorkerDraws`. */
    method NextId() returns (o: OrderId)
      ensures o > 0 && o !in stores.net.tokenOf
    {
      o := 1;
      var rest := stores.net.tokenOf.Keys;
      while rest != {}
        invariant o > 0 && forall u :: u in stores.net.tokenOf ==> u in rest || u < o
        decreases rest
      {
        var u := Any(rest);
        rest := rest - {u};
        o := Max(o, u + 1);
      }
    }

    /** `nextId` and what follows from it: an order id for the reservation. */
    method Number(m: Message) returns (r: Result<Message>)
      requires stores.Valid() && m.order.None? && Plausible(stores.Now(), m)
      requires stores.ownToken == Some(m.token) && m.token !in stores.net.alloc
      modifies stores
      ensures stores.Valid() && unchanged(stores`ownToken, stores`ownTx)
      ensures old(stores.trace) <= stores.trace && Grows(old(stores.Now()), stores.Now())
      ensures r.Ok? ==> r.value.claim == m.claim && r.value.token == m.token && Genuine(stores.Now(), r.value)
      ensures r.Ok? ==> r.value.order.Some? && r.value.order.value > 0 && r.value.order.value !in stores.net.bound
      ensures stores.tape == Rest(old(stores.tape)) && (r.Ok? <==> FirstFault(old(stores.tape)).Fine?)
      ensures r.Err? ==> m.token !in stores.net.alloc
      ensures Silent(old(stores.tape)) ==>
        r.value.order.value !in old(stores.net.tokenOf) && stores.trace == old(stores.trace) + [Allocate(m.token, r.value.order.value)]
        && stores.RedisNow() == old(stores.RedisNow())
    {
      hide Grows, Fresh, Exec, Inv;
      var f := stores.Disturb();
      ghost var s0 := stores.Now();
      PlausibleStays(old(stores.Now()), s0, m);
      if !f.Fine? {
        return Err;
      }
      var o := NextId();
      stores.ValidInv();
      NotBound(stores.Now(), stores.units, o);
      stores.Draw(m.token, o);
      GrowsTrans(old(stores.Now()), s0, stores.Now());
      return Ok(Message(Some(o), m.claim, m.token));
    }

    /** The broker takes the message, but the confirmation may not come back. */
    method Publish(m: Message) returns (r: Result<()>)
      requires stores.Valid() && Genuine(stores.Now(), m) && m.order.value in stores.net.bound
      modifies stores
      ensures stores.Valid() && unchanged(stores`ownToken, stores`ownTx)
      ensures old(stores.trace) <= stores.trace && Grows(old(stores.Now()), stores.Now())
      ensures r.Ok? ==> m.order.value in stores.net.sent
      ensures stores.tape == Rest(old(stores.tape)) && (r.Ok? <==> FirstFault(old(stores.tape)).Fine?)
      ensures Silent(old(stores.tape)) ==> stores.trace == old(stores.trace) + [Step.Publish(m.order.value)]
      ensures Unaccompanied(old(stores.tape)) && FirstFault(old(stores.tape)).Lost? ==> stores.trace == old(stores.trace)
    {
      hide Grows, Fresh, Exec, Inv, Apply;
      var f := stores.Disturb();
      if f.Lost? {
        return Err;
      }
      ghost var s := stores.Now();
      BoundStays(old(stores.Now()), s, m.order.value);
      stores.Send(m.order.value);
      GrowsTrans(old(stores.Now()), s, stores.Now());
      return if f.Fine? then Ok(()) else Err;
    }

    /** Binds the drawn order id and publishes the message. */
    method BindThenPublish(m: Message) returns (r: Result<Response>)
      requires Wired() && stores.Valid() && m.order.Some? && Genuine(stores.Now(), m)
      requires stores.ownToken == Some(m.token) && m.order.value !in stores.net.bound
      modifies stores
      ensures stores.Valid() && unchanged(stores`ownToken, stores`ownTx)
      ensures old(stores.trace) <= stores.trace && Grows(old(stores.Now()), stores.Now())
      ensures Genuine(stores.Now(), m)
      ensures r == Ok(Lapsed) ==> TakenBack(stores.Now(), m.token)
      ensures r.Ok? ==> r.value == Lapsed || (r.value == Accepted(m.order.value) && m.order.value in stores.net.sent)
      ensures var t := old(stores.tape);
        if !FirstFault(t).Fine? then r.Err? && stores.tape == Rest(t)
        else if r == Ok(Lapsed) then stores.tape == Rest(t)
        else m.order.value in stores.net.bound && (r.Ok? <==> FirstFault(Rest(t)).Fine?) && stores.tape == Rest(Rest(t))
      ensures var t, bind := old(stores.tape), BindScript(old(stores.RedisNow()), m.claim, m.token, m.order.value).1;
        Silent(t) && Unaccompanied(Rest(t)) ==>
          if bind != 1 then r == Ok(Lapsed) && stores.trace == old(stores.trace) + [Step.Bind(m.order.value)]
          else if FirstFault(Rest(t)).Fine? then
            r == Ok(Accepted(m.order.value)) && stores.trace == old(stores.trace) + [Step.Bind(m.order.value), Step.Publish(m.order.value)]
          else FirstFault(Rest(t)).Lost? ==> r.Err? && stores.trace == old(stores.trace) + [Step.Bind(m.order.value)]
    {
      hide Grows, Fresh, Exec, Inv, Apply, BindScript, Genuine, TakenBack, Rest;
      var bound := reservations.Bind(m);
      ghost var s := stores.Now();
      GenuineStays(old(stores.Now()), s, m);
      if bound.Err? {
        return Err;
      }
      if !bound.value {
        return Ok(Lapsed);
      }
      var published := Publish(m);
      GrowsTrans(old(stores.Now()), s, stores.Now());
      GenuineStays(s, stores.Now(), m);
      BoundStays(s, stores.Now(), m.order.value);
      return if published.Ok? then Ok(Accepted(m.order.value)) else Err;
    }

    /** The try block after a successful reservation: draw an id, bind it, publish. `m` comes back as far as it was filled. */
    method BindAndPublish(unnumbered: Message) returns (m: Message, r: Result<Response>)
      requires Wired() && stores.Valid() && unnumbered.order.None? && Plausible(stores.Now(), unnumbered)
      requires stores.ownToken == Some(unnumbered.token) && unnumbered.token !in stores.net.alloc
      modifies stores
      ensures stores.Valid() && unchanged(stores`ownToken, stores`ownTx)
      ensures old(stores.trace) <= stores.trace && Grows(old(stores.Now()), stores.Now())
      ensures m.claim == unnumbered.claim && m.token == unnumbered.token && Plausible(stores.Now(), m)
      ensures r == Ok(Lapsed) ==> TakenBack(stores.Now(), m.token)
      ensures r.Ok? ==> r.value == Lapsed || (m.order.Some? && r.value == Accepted(m.order.value) && m.order.value in stores.net.sent)
      ensures var t := old(stores.tape);
        if !FirstFault(t).Fine? then r.Err? && m == unnumbered && m.token !in stores.net.alloc && stores.tape == Skip(t, 1)
        else if !FirstFault(Skip(t, 1)).Fine? then r.Err? && m.order.Some? && stores.tape == Skip(t, 2)
        else if r == Ok(Lapsed) then m.order.Some? && stores.tape == Skip(t, 2)
        else
          && m.order.Some? && m.order.value in stores.net.bound && stores.tape == Skip(t, 3)
          && (r.Ok? <==> FirstFault(Skip(t, 2)).Fine?)
      ensures var t := old(stores.tape);
        Silent(t) && Silent(Skip(t, 1)) && Unaccompanied(Skip(t, 2)) ==>
          && m.order.Some? && m.order.value !in old(stores.net.tokenOf) && m.order.value > 0
          && var o := m.order.value;
             if BindScript(old(stores.RedisNow()), m.claim, m.token, o).1 != 1
             then r == Ok(Lapsed) && stores.trace == old(stores.trace) + [Allocate(m.token, o), Step.Bind(o)]
             else if FirstFault(Skip(t, 2)).Fine?
             then r == Ok(Accepted(o)) && stores.trace == old(stores.trace) + [Allocate(m.token, o), Step.Bind(o), Step.Publish(o)]
             else FirstFault(Skip(t, 2)).Lost? ==>
               r.Err? && stores.trace == old(stores.trace) + [Allocate(m.token, o), Step.Bind(o)]
    {
      hide Grows, Fresh, Exec, Inv, Apply, BindScript, Genuine, TakenBack, Rest, Skip, Consumed;
      ghost var t := stores.tape;
      SkipOne(t, 1);
      SkipOne(t, 2);
      var numbered := Number(unnumbered);
      ghost var s := stores.Now();
      PlausibleStays(old(stores.Now()), s, unnumbered);
      if numbered.Err? {
        return unnumbered, Err;
      }
      m := numbered.value;
      r := BindThenPublish(m);
      GrowsTrans(old(stores.Now()), s, stores.Now());
    }

    /** The catch block: the request may have had its effect, so the delivery row decides between landing and giving back. */
    method AfterFailure(m: Message) returns (r: Response, ghost at: nat)
      requires Wired() && stores.Valid() && Plausible(stores.Now(), m)
      modifies stores
      ensures stores.Valid() && unchanged(stores`ownToken, stores`ownTx)
      ensures old(stores.trace) <= stores.trace && Grows(old(stores.Now()), stores.Now())
      ensures |old(stores.trace)| <= at <= |stores.trace|
      ensures Grows(old(stores.Now()), Reached(stores.start, stores.trace, at))
      ensures r.Accepted? ==> m.order.Some? && r.order == m.order.value && Delivered(stores.Now(), r.order, Created)
      ensures r.Accepted? || r.Unconfirmed?
      ensures FirstFault(old(stores.tape)).Fine? && FirstFault(Rest(old(stores.tape))).Fine? && m.order.Some? ==>
        Compensated(m, Reached(stores.start, stores.trace, at), stores.Now(), r)
      ensures FirstFault(old(stores.tape)).Fine? && old(Returnable(stores.Now(), m, stores.ownToken)) && m.order.None? ==>
        r == Unconfirmed && TakenBack(stores.Now(), m.token)
      ensures Silent(old(stores.tape)) && Silent(Rest(old(stores.tape))) ==>
        stores.trace == old(stores.trace) + Compensation(old(stores.Now()), m).0
        && (r.Accepted? <==> Compensation(old(stores.Now()), m).1 == Ok(true))
    {
      hide Grows, Fresh, Exec, Inv, Apply, Delivered, TakenBack, Rest, Consumed, Compensation, Returnable, Unacceptable;
      stores.ValidInv();
      if m.order.Some? {
        GenuineAccepted(stores.Now(), stores.units, m);
      }
      var landed;
      landed, at := compensation.Cancel(m);
      r := if landed == Ok(true) then Accepted(m.order.value) else Unconfirmed;
    }

    /** The try block and, if it fails, the catch block. */
    method Buy(unnumbered: Message) returns (r: Response, filled: Message, ghost at: nat)
      requires Wired() && stores.Valid() && unnumbered.order.None? && Plausible(stores.Now(), unnumbered)
      requires stores.ownToken == Some(unnumbered.token) && unnumbered.token !in stores.net.alloc
      modifies stores
      ensures stores.Valid() && unchanged(stores`ownToken, stores`ownTx)
      ensures old(stores.trace) <= stores.trace && Grows(old(stores.Now()), stores.Now())
      ensures filled.claim == unnumbered.claim && filled.token == unnumbered.token && Plausible(stores.Now(), filled)
      ensures |old(stores.trace)| <= at <= |stores.trace|
      ensures r.Accepted? || r.Lapsed? || r.Unconfirmed?
      ensures r.Accepted? ==> filled.order == Some(r.order) && (r.order in stores.net.sent || Delivered(stores.Now(), r.order, Created))
      ensures r.Lapsed? ==> TakenBack(stores.Now(), filled.token)
      ensures AnswerByFault(old(stores.tape), filled, Reached(stores.start, stores.trace, at), stores.Now(), r)
      ensures var t, o := old(stores.tape), filled.order;
        Silent(t) && Silent(Skip(t, 1)) && Silent(Skip(t, 2))
        && (forall o :: BindScript(old(stores.RedisNow()), filled.claim, filled.token, o).1 == 1) ==>
          && r.Accepted?
          && stores.trace == old(stores.trace) + [Allocate(filled.token, r.order), Step.Bind(r.order), Step.Publish(r.order)]
      ensures OnlyPublishLost(old(stores.tape)) && (forall o :: BindScript(old(stores.RedisNow()), filled.claim, filled.token, o).1 == 1) ==>
        Undone(old(stores.Now()), filled, stores.Now(), r)
    {
      hide Grows, Fresh, Exec, Inv, Apply, BindScript, Genuine, TakenBack, Rest, Skip, Consumed, Delivered, Reached, Compensation;
      ghost var t := stores.tape;
      SkipOne(t, 1);
      SkipOne(t, 2);
      SkipOne(t, 3);
      at := |stores.trace|;
      var answer;
      filled, answer := BindAndPublish(unnumbered);
      ghost var s, trace1 := stores.Now(), stores.trace;
      if answer.Ok? {
        PlausibleStays(s, s, filled) by {
          GrowsRefl(s);
        }
        return answer.value, filled, at;
      }
      r, at := AfterFailure(filled);
      ghost var met := Reached(stores.start, stores.trace, at);
      GrowsTrans(old(stores.Now()), s, stores.Now());
      PlausibleStays(s, stores.Now(), filled);
      if filled.order.Some? && filled.order.value in s.net.bound {
        BoundStays(s, met, filled.order.value);
      }
      if OnlyPublishLost(t) {
        UndoneBy(old(stores.Now()), filled, stores.start, old(stores.trace), s, trace1, stores.Now(), stores.trace, r);
      }
    }

    /** VoucherOrderServiceImpl.seckillVoucher with a fresh token. An accepted order is with the broker or already landed; a
        refused request reserved nothing; whatever reserves does so while the sale is open. When one call of the try block
        fails and the two of the compensation do not, the answer is what the cancelling transaction found at moment `at`, and
        without a landed order the unit is back at once. Undisturbed, the qualification script alone decides; and if only
        the publication is lost, nobody else being at work, Redis ends as it was before. */
    method SeckillVoucher(user: UserId, voucher: VoucherId, token: Token, now: Millis)
      returns (r: Result<Response>, ghost filled: Message, ghost at: nat)
      requires Wired() && stores.Valid() && user > 0 && now >= 0
      requires stores.ownToken == Some(token) && token !in stores.net.issued && token !in stores.net.alloc
      modifies stores
      ensures stores.Valid() && unchanged(stores`ownToken, stores`ownTx)
      ensures old(stores.trace) <= stores.trace && Grows(old(stores.Now()), stores.Now())
      ensures filled.claim == Claim(user, voucher) && filled.token == token && |old(stores.trace)| <= at <= |stores.trace|
      ensures r == Ok(Invalid) <==> voucher <= 0
      ensures r.Ok? && r.value.Accepted? ==>
        var o := r.value.order;
        && Genuine(stores.Now(), Message(Some(o), Claim(user, voucher), token))
        && (o in stores.net.sent || Delivered(stores.Now(), o, Created))
      ensures r.Ok? && (r.value.Invalid? || r.value.Refused?) ==> token !in stores.net.issued
      ensures token in stores.net.issued ==> OnSale(stores.start.redis.meta, voucher, now)
      ensures r == Ok(Lapsed) ==> TakenBack(stores.Now(), token)
      ensures voucher > 0 ==> (r.Err? <==> !FirstFault(old(stores.tape)).Fine?)
      ensures voucher > 0 && r.Ok? && !r.value.Refused? ==>
        AnswerByFault(Rest(old(stores.tape)), filled, Reached(stores.start, stores.trace, at), stores.Now(), r.value)
      ensures var t, code := old(stores.tape), SeckillScript(old(stores.RedisNow()), Claim(user, voucher), token, now).1;
        voucher > 0 && Silent(t) && Silent(Rest(t)) && Silent(Skip(Rest(t), 1)) && Silent(Skip(Rest(t), 2)) ==>
          if code == SUCCESS then
            r.Ok? && r.value.Accepted? &&
            stores.trace == old(stores.trace) + [Step.Reserve(token, Claim(user, voucher), now)]
              + [Allocate(token, r.value.order), Step.Bind(r.value.order), Step.Publish(r.value.order)]
          else r == Ok(Refused(code)) && stores.Now() == old(stores.Now())
      ensures var t, code := old(stores.tape), SeckillScript(old(stores.RedisNow()), Claim(user, voucher), token, now).1;
        voucher > 0 && code == SUCCESS && Silent(t) && OnlyPublishLost(Rest(t)) ==>
          r == Ok(Unconfirmed) && stores.RedisNow() == old(stores.RedisNow())
    {
      hide Grows, Fresh, Exec, Inv, Genuine, Delivered, BindScript, SeckillScript, Apply, TakenBack, OnSale, Rest, Skip, Consumed;
      hide AnswerByFault, OnlyPublishLost, Compensation, Reached, Undone;
      var m := Message(None, Claim(user, voucher), token);
      filled, at := m, |stores.trace|;
      if voucher <= 0 {
        GrowsRefl(stores.Now());
        return Ok(Invalid), filled, at;
      }
      ghost var s := stores.Now();
      stores.ValidInv();
      RefusedUnchanged(s, m.claim, token, now);
      if SeckillScript(s.redis, m.claim, token, now).1 == SUCCESS {
        ReservedBinds(s, m.claim, token, now);
      }
      var code := reservations.Reserve(m, now);
      ghost var s1 := stores.Now();
      if code.Err? {
        return Err, filled, at;
      }
      if code.value != SUCCESS {
        return Ok(Refused(code.value)), filled, at;
      }
      var answer, numbered;
      answer, numbered, at := Buy(m);
      filled := numbered;
      GrowsTrans(s, s1, stores.Now());
      if Undone(s1, filled, stores.Now(), answer) && s1 == Apply(s, Step.Reserve(token, m.claim, now)) {
        UndoneFromStart(s, stores.units, m.claim, token, now, filled, stores.Now(), answer);
      }
      return Ok(answer), filled, at;
    }

    /** A refused request leaves no trace in the stores. */
    lemma RefusedUnchanged(s: State, c: Claim, t: Token, now: Millis)
      ensures SeckillScript(s.redis, c, t, now).1 != SUCCESS ==> Apply(s, Step.Reserve(t, c, now)) == s
    {
    }

    /** What was just reserved can be bound. */
    lemma ReservedBinds(s: State, c: Claim, t: Token, now: Millis)
      requires Enabled(s, Step.Reserve(t, c, now)) && SeckillScript(s.redis, c, t, now).1 == SUCCESS
      ensures forall o :: BindScript(Apply(s, Step.Reserve(t, c, now)).redis, c, t, o).1 == 1
    {
    }
  }

  /** If every order id of the stores was drawn from the worker, the next one it makes can be drawn for any reservation
      that has none. */
  lemma WorkerDraws(s: State, t: Token, calls: seq<OrderIds.Call>)
    requires t in s.net.issued && t !in s.net.alloc && calls != []
    requires forall k :: 0 <= k < |calls| ==>
      OrderIds.InRange(OrderIds.Timestamp(calls, k)) && OrderIds.CounterFits(calls, OrderIds.KeyOf(calls[k]))
    requires forall o :: o in s.net.tokenOf.Keys ==>
      exists k :: 0 <= k < |calls| - 1 && calls[k].prefix == calls[|calls| - 1].prefix && o == OrderIds.Number(OrderIds.IdOf(calls, k))
    ensures Enabled(s, Allocate(t, OrderIds.Number(OrderIds.IdOf(calls, |calls| - 1))))
  {
    hide *;
    OrderIds.NewIdUnused(calls, s.net.tokenOf.Keys);
    DrawEnabled(s, t, OrderIds.Number(OrderIds.IdOf(calls, |calls| - 1)));
  }

  lemma DrawEnabled(s: State, t: Token, o: OrderId)
    requires t in s.net.issued && t !in s.net.alloc && o > 0 && o !in s.net.tokenOf.Keys
    ensures Enabled(s, Allocate(t, o))
  {
  }

  /** What is bound was drawn. */
  lemma NotBound(s: State, units: map<VoucherId, nat>, o: OrderId)
    requires Inv(s, units) && o !in s.net.tokenOf
    ensures o !in s.net.bound
  {
    hide AllGood, Slots, Indexed, RedisBalanced, DbBalanced, Claims;
  }

  lemma BoundStays(s: State, s': State, o: OrderId)
    requires o in s.net.bound && Grows(s, s')
    ensures o in s'.net.bound
  {
  }
}
