/** What a client learned from the stores stays true while others go on. */
module OrderGrowth {
  import opened Common
  import opened OrderModel
  import opened OrderInvariant
  import opened OrderPreservation
  import opened OrderTheorems

  /** What a client learned stays true while others run. */
  ghost predicate Grows(s: State, s': State) {
    && (forall t :: t in s.net.issued ==> t in s'.net.issued && s'.net.issued[t] == s.net.issued[t])
    && (forall t :: t in s.net.alloc ==> t in s'.net.alloc && s'.net.alloc[t] == s.net.alloc[t])
    && (forall o :: o in s.net.tokenOf ==> o in s'.net.tokenOf && s'.net.tokenOf[o] == s.net.tokenOf[o])
    && s.net.bound <= s'.net.bound && s.net.sent <= s'.net.sent && s.net.permits <= s'.net.permits
    && s.redis.closed <= s'.redis.closed
    && (forall o :: o in s.db.deliveries && s.db.deliveries[o].state != Open ==>
          o in s'.db.deliveries && s'.db.deliveries[o] == s.db.deliveries[o])
    && (forall o :: o in s.db.orders ==> o in s'.db.orders && RowForward(s.db.orders[o], s'.db.orders[o]))
    && (forall o :: o in s.db.releases ==> o in s'.db.releases && SameRelease(s.db.releases[o], s'.db.releases[o]))
  }

  predicate RowForward(a: Order, b: Order) {
    a.claim == b.claim && a.expire == b.expire && (a.status != Pending ==> b == a)
  }

  predicate SameRelease(a: Release, b: Release) {
    a.claim == b.claim && a.token == b.token && (a.completed ==> b.completed)
  }

  lemma NetGrows(s: State, step: Step)
    ensures var s' := Apply(s, step);
      && (forall t :: t in s.net.issued ==> t in s'.net.issued && s'.net.issued[t] == s.net.issued[t])
      && (forall t :: t in s.net.alloc ==> t in s'.net.alloc && s'.net.alloc[t] == s.net.alloc[t])
      && (forall o :: o in s.net.tokenOf ==> o in s'.net.tokenOf && s'.net.tokenOf[o] == s.net.tokenOf[o])
      && s.net.bound <= s'.net.bound && s.net.sent <= s'.net.sent && s.net.permits <= s'.net.permits
  {
  }

  lemma StoresGrow(s: State, step: Step)
    ensures s.redis.closed <= Apply(s, step).redis.closed
  {
  }

  /** The tables at one order id, before and after a forward step. */
  lemma ForwardTables(s: State, s': State, t: Token, o: OrderId)
    requires t in s.net.issued && t in s'.net.issued && Progress(ViewOf(s, t), ViewOf(s', t))
    requires t in s.net.alloc && s.net.alloc[t] == o
    ensures o in s.db.deliveries && s.db.deliveries[o].state != Open ==> Get(s'.db.deliveries, o) == Some(s.db.deliveries[o])
    ensures o in s.db.orders ==> o in s'.db.orders && RowForward(s.db.orders[o], s'.db.orders[o])
    ensures o in s.db.releases ==> o in s'.db.releases && SameRelease(s.db.releases[o], s'.db.releases[o])
  {
  }

  lemma TablesGrow(s: State, units: map<VoucherId, nat>, step: Step, o: OrderId)
    requires Inv(s, units) && (o in s.db.deliveries || o in s.db.orders || o in s.db.releases)
    ensures var s' := Apply(s, step);
      && (o in s.db.deliveries && s.db.deliveries[o].state != Open ==> Get(s'.db.deliveries, o) == Some(s.db.deliveries[o]))
      && (o in s.db.orders ==> o in s'.db.orders && RowForward(s.db.orders[o], s'.db.orders[o]))
      && (o in s.db.releases ==> o in s'.db.releases && SameRelease(s.db.releases[o], s'.db.releases[o]))
  {
    hide Inv, Apply, Good, ViewOf, Progress, RowForward, SameRelease;
    RowsKnown(s, units, o);
    OrderKnown(s, units, o);
    KnownPair(s, units, o);
    StepProgress(s, units, step, s.net.tokenOf[o]);
    ForwardTables(s, Apply(s, step), s.net.tokenOf[o], o);
  }

  lemma StepGrows(s: State, units: map<VoucherId, nat>, step: Step)
    requires Inv(s, units)
    ensures Grows(s, Apply(s, step))
  {
    hide Inv, Apply, RowForward, SameRelease;
    NetGrows(s, step);
    StoresGrow(s, step);
    forall o | o in s.db.deliveries || o in s.db.orders || o in s.db.releases
      ensures var s' := Apply(s, step);
        && (o in s.db.deliveries && s.db.deliveries[o].state != Open ==> Get(s'.db.deliveries, o) == Some(s.db.deliveries[o]))
        && (o in s.db.orders ==> o in s'.db.orders && RowForward(s.db.orders[o], s'.db.orders[o]))
        && (o in s.db.releases ==> o in s'.db.releases && SameRelease(s.db.releases[o], s'.db.releases[o]))
    {
      TablesGrow(s, units, step, o);
    }
  }

  lemma GrowsRefl(s: State)
    ensures Grows(s, s)
  {
  }

  lemma GrowsTrans(a: State, b: State, c: State)
    requires Grows(a, b) && Grows(b, c)
    ensures Grows(a, c)
  {
  }

  /** Only the thread that reserved a token draws its order id and binds it, and only the thread that holds the
      delivery row lock moves its transaction. */
  predicate Impersonates(s: State, step: Step, token: Option<Token>, tx: Option<OrderId>) {
    || ((step.Reserve? || step.Allocate?) && Some(step.token) == token)
    || (step.Bind? && token.Some? && Get(s.net.tokenOf, step.order) == token)
    || ((step.CreateReadOwner? || step.CreateReadRecord? || step.CreateCommit? || step.CreateAbort?) && Some(step.order) == tx)
  }

  /** Whether the token is reserved, numbered and bound, and how far the transaction is. */
  ghost predicate OwnSame(s: State, s': State, token: Option<Token>, tx: Option<OrderId>) {
    && (token.Some? ==> (token.value in s'.net.issued <==> token.value in s.net.issued)
                        && (token.value in s'.net.alloc <==> token.value in s.net.alloc))
    && (forall o :: token.Some? && Get(s.net.tokenOf, o) == token && o in s'.net.bound ==> o in s.net.bound)
    && (tx.Some? && tx.value in s.net.creating ==> Get(s'.net.creating, tx.value) == Get(s.net.creating, tx.value))
  }

  lemma OthersLeaveOwn(s: State, step: Step, token: Option<Token>, tx: Option<OrderId>)
    requires !Impersonates(s, step, token, tx)
    ensures OwnSame(s, Apply(s, step), token, tx)
  {
  }

  lemma OwnTrans(a: State, b: State, c: State, token: Option<Token>, tx: Option<OrderId>)
    requires Grows(a, b) && OwnSame(a, b, token, tx) && OwnSame(b, c, token, tx)
    ensures OwnSame(a, c, token, tx)
  {
  }
}
