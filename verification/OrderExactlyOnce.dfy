/** Over any run an order leaves PENDING at most once and each store gets its unit back at most once. */
module OrderExactlyOnce {
  import opened Common
  import opened OrderModel
  import opened OrderInvariant
  import opened OrderPreservation
  import opened OrderTheorems

  datatype Event =
    | LeftPending(order: OrderId)   // the status changed from PENDING
    | MysqlCredit(order: OrderId)   // closing gave the unit back to MySQL
    | RedisCredit(order: OrderId)   // the close release gave the unit back to Redis
    | UnitReturned(token: Token)    // anything done for the reservation gave a unit back to Redis

  /** The event takes place in this step. */
  predicate Happens(s: State, step: Step, e: Event) {
    var s' := Apply(s, step);
    match e
    case LeftPending(o) =>
      o in s.db.orders && s.db.orders[o].status == Pending && o in s'.db.orders && s'.db.orders[o].status != Pending
    case MysqlCredit(o) =>
      TokenOfStep(s, step) == Get(s.net.tokenOf, o) && Known(s, o)
      && Raised(s.db.stock, s'.db.stock, s.net.issued[s.net.tokenOf[o]].voucher)
    case RedisCredit(o) =>
      step == CloseRelease(o) && Known(s, o) && Raised(s.redis.stock, s'.redis.stock, s.net.issued[s.net.tokenOf[o]].voucher)
    case UnitReturned(t) =>
      TokenOfStep(s, step) == Some(t) && t in s.net.issued && Raised(s.redis.stock, s'.redis.stock, s.net.issued[t].voucher)
  }

  predicate Raised(before: map<VoucherId, int>, after: map<VoucherId, int>, v: VoucherId) {
    v in before && v in after && after[v] > before[v]
  }

  /** How the state shows that the event took place. */
  predicate Shown(s: State, e: Event) {
    match e
    case LeftPending(o) => o in s.db.orders && s.db.orders[o].status != Pending
    case MysqlCredit(o) => o in s.db.orders && s.db.orders[o].status == Closed
    case RedisCredit(o) => o in s.redis.closed
    case UnitReturned(t) => t in s.net.issued && !Holds(s, t)
  }

  function Times(s: State, steps: seq<Step>, e: Event): nat
    decreases |steps|
  {
    if steps == [] then 0
    else
      var init, last := steps[..|steps| - 1], steps[|steps| - 1];
      Times(s, init, e) + if Happens(Exec(s, init), last, e) then 1 else 0
  }

  lemma NoEvent(s: State, step: Step, e: Event)
    requires SameMarks(s, Apply(s, step))
    ensures Shown(Apply(s, step), e) == Shown(s, e) && !Happens(s, step, e)
  {
    hide Apply;
  }

  /** An event can take place only once for its reservation, and leaves its mark. */
  predicate Marks(s: State, step: Step, e: Event) {
    && (Shown(Apply(s, step), e) <==> Shown(s, e) || Happens(s, step, e))
    && !(Shown(s, e) && Happens(s, step, e))
  }

  /** The event belongs to this reservation. */
  predicate EventOf(s: State, e: Event, t: Token) {
    if e.UnitReturned? then e.token == t else Drawn(s, e.order) && s.net.tokenOf[e.order] == t
  }

  lemma RowEvent(s: State, step: Step, t: Token, e: Event)
    requires StepPaired(s, step, t) && Enabled(s, step) && Good(ViewOf(s, t)) && EventOf(s, e, t) && Row(step)
    ensures Marks(s, step, e)
  {
  }

  lemma ReturningEvent(s: State, step: Step, t: Token, e: Event)
    requires StepPaired(s, step, t) && Enabled(s, step) && Good(ViewOf(s, t)) && EventOf(s, e, t) && Returning(step)
    ensures Marks(s, step, e)
  {
  }

  lemma SameViewSameMarks(s: State, s': State, t: Token, e: Event)
    requires EventOf(s, e, t) && t in s.net.issued && t in s'.net.issued && ViewOf(s', t) == ViewOf(s, t)
    ensures Shown(s', e) == Shown(s, e)
    ensures !e.UnitReturned? ==> Get(s'.db.orders, e.order) == Get(s.db.orders, e.order)
  {
  }

  lemma ForeignEvent(s: State, step: Step, t: Token, e: Event)
    requires EventOf(s, e, t) && TokenOfStep(s, step) != Some(t)
    requires t in s.net.issued && t in Apply(s, step).net.issued && ViewOf(Apply(s, step), t) == ViewOf(s, t)
    ensures Marks(s, step, e)
  {
    hide Apply, ViewOf, Shown;
    SameViewSameMarks(s, Apply(s, step), t, e);
  }

  /** Events of order ids never drawn or tokens never reserved do not take place. */
  lemma UnknownEvent(s: State, step: Step, e: Event)
    requires if e.UnitReturned? then e.token !in s.net.issued
      else e.order !in s.net.tokenOf && e.order !in s.db.orders && e.order !in s.db.releases && e.order !in s.redis.closed
    ensures Marks(s, step, e)
  {
  }

  lemma UnknownOrder(s: State, units: map<VoucherId, nat>, o: OrderId)
    requires Inv(s, units) && o !in s.net.tokenOf
    ensures o !in s.db.orders && o !in s.db.releases && o !in s.redis.closed
  {
    hide AllGood;
  }

  lemma KnownEvent(s: State, units: map<VoucherId, nat>, step: Step, t: Token, e: Event)
    requires Inv(s, units) && t in s.net.issued && EventOf(s, e, t)
    ensures Marks(s, step, e)
  {
    hide Inv, ViewOf, Good, Enabled, Effect, TokenOfStep, StepPaired, Untouched, EventOf, Marks, SameMarks;
    GoodAt(s, units, t);
    if !Enabled(s, step) {
      SameState(s);
      NoEventMarks(s, step, e);
    } else if TokenOfStep(s, step) == Some(t) {
      PairStep(s, units, step, t);
      if Row(step) {
        RowEvent(s, step, t, e);
      } else if Returning(step) {
        ReturningEvent(s, step, t, e);
      } else if step.Reserve? {
        ReservedOnce(s, step, t);
      } else {
        EventlessMarks(s, step);
        NoEventMarks(s, step, e);
      }
    } else {
      var other := if TokenOfStep(s, step).Some? then TokenOfStep(s, step).value else t + 1;
      StepKeeps(s, units, step, other);
      UntouchedAt(s, Apply(s, step), other, t);
      ForeignEvent(s, step, t, e);
    }
  }

  lemma SameState(s: State)
    ensures SameMarks(s, s)
  {
  }

  lemma NoEventMarks(s: State, step: Step, e: Event)
    requires SameMarks(s, Apply(s, step))
    ensures Marks(s, step, e)
  {
    hide Apply, SameMarks, Shown, Happens;
    NoEvent(s, step, e);
  }

  lemma StepMarks(s: State, units: map<VoucherId, nat>, step: Step, e: Event)
    requires Inv(s, units)
    ensures Marks(s, step, e)
  {
    hide Inv, Marks, Good, ViewOf;
    if e.UnitReturned? {
      if e.token in s.net.issued {
        KnownEvent(s, units, step, e.token, e);
      } else {
        UnknownEvent(s, step, e);
      }
    } else if e.order in s.net.tokenOf {
      KnownPair(s, units, e.order);
      KnownEvent(s, units, step, s.net.tokenOf[e.order], e);
    } else {
      UnknownOrder(s, units, e.order);
      UnknownEvent(s, step, e);
    }
  }

  /** Over any run an order leaves PENDING at most once, MySQL and Redis each get its unit back at most once,
      and the state shows exactly whether that happened: the status, the closed marker, the owner entry. */
  lemma {:induction false} ExactlyOnce(start: State, units: map<VoucherId, nat>, steps: seq<Step>, e: Event)
    requires Fresh(start, units)
    ensures Times(start, steps, e) == if Shown(Exec(start, steps), e) then 1 else 0
    decreases |steps|
  {
    hide Inv, Happens, Apply;
    if steps == [] {
    } else {
      var init, last := steps[..|steps| - 1], steps[|steps| - 1];
      hide Shown, Fresh;
      ExactlyOnce(start, units, init, e);
      InitInv(start, units);
      ExecKeeps(start, units, init);
      StepMarks(Exec(start, init), units, last, e);
    }
  }

  /** The version counts the status changes, and the release row, its completion and the marker follow the status. */
  lemma Lifecycle(start: State, units: map<VoucherId, nat>, steps: seq<Step>, o: OrderId)
    requires Fresh(start, units)
    ensures var s := Exec(start, steps);
      && (o in s.db.orders ==> s.db.orders[o].version == Times(start, steps, LeftPending(o)))
      && (o in s.db.releases <==> Times(start, steps, MysqlCredit(o)) == 1)
      && (o in s.redis.closed <==> Times(start, steps, RedisCredit(o)) == 1)
      && (o in s.redis.closed ==> o in s.db.releases)
      && (o in s.db.releases && s.db.releases[o].completed ==> o in s.redis.closed)
  {
    hide Inv, Exec, Times, Good, ViewOf, Fresh;
    ExactlyOnce(start, units, steps, LeftPending(o));
    ExactlyOnce(start, units, steps, MysqlCredit(o));
    ExactlyOnce(start, units, steps, RedisCredit(o));
    InitInv(start, units);
    ExecKeeps(start, units, steps);
    var s := Exec(start, steps);
    if o in s.net.tokenOf {
      KnownPair(s, units, o);
      LifecycleView(s, o);
    } else {
      UnknownOrder(s, units, o);
    }
  }

  lemma LifecycleView(s: State, o: OrderId)
    requires Drawn(s, o) && Good(ViewOf(s, s.net.tokenOf[o]))
    ensures o in s.db.orders ==> s.db.orders[o].version == if s.db.orders[o].status == Pending then 0 else 1
    ensures o in s.db.releases <==> o in s.db.orders && s.db.orders[o].status == Closed
    ensures o in s.redis.closed ==> o in s.db.releases
    ensures o in s.db.releases && s.db.releases[o].completed ==> o in s.redis.closed
  {
  }
}
