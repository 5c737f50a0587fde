/** Giving an unlanded reservation back to Redis: why the release finds everything in place. */
module OrderReturns {
  import opened Common
  import opened OrderModel
  import opened OrderInvariant
  import OrderConservation

  /** A reservation without an order row still holds its unit, so its release goes through. */
  lemma UnlandedHolds(s: State, units: map<VoucherId, nat>, t: Token)
    requires Inv(s, units) && t in s.redis.records && !OrderConservation.HasRow(s, t)
    ensures var c := s.redis.records[t].claim;
      && t in s.net.issued && s.net.issued[t] == c && Get(s.redis.owners, c) == Some(t)
      && c.voucher in s.redis.stock && s.redis.HasUsers(c.voucher) && t in s.redis.pending
  {
    OrderConservation.UnlandedOwner(s, units, t);
    var c := s.redis.records[t].claim;
    assert t in s.redis.pending by {
      hide AllGood, Paired, Slots, RedisBalanced, DbBalanced, Claims;
    }
    assert t in s.net.issued && s.net.issued[t] == c by {
      hide AllGood, Indexed, RedisBalanced, DbBalanced, Claims;
    }
    assert c.voucher in s.redis.stock && c.voucher in s.redis.users by {
      hide AllGood, Paired, Slots, Indexed, DbBalanced;
    }
    assert SENTINEL in s.redis.users[c.voucher] by {
      hide AllGood, Paired, Indexed, DbBalanced, RedisBalanced, Claims;
    }
  }

  lemma ReleaseWorks(r: Redis, c: Claim, t: Token, o: Option<OrderId>)
    requires Get(r.records, t) == Some(Record(c, o)) && Get(r.owners, c) == Some(t)
    requires c.voucher in r.stock && r.HasUsers(c.voucher) && t in r.pending
    ensures var (r', code) := ReleaseScript(r, c, t, o, false);
      code == 1 && r'.records == r.records - {t} && r'.pending == r.pending - {t}
  {
  }

  /** Neither the record nor the owner entry is there any more: the reservation has given its unit back. */
  predicate TakenBack(s: State, t: Token) {
    t !in s.redis.records && !Holds(s, t)
  }

  lemma UnlandedView(s: State, t: Token)
    requires t in s.net.issued && Good(ViewOf(s, t)) && !OrderConservation.HasRow(s, t)
    ensures t in s.redis.records <==> Holds(s, t)
    ensures t in s.redis.records ==> s.redis.records[t].claim == s.net.issued[t]
    ensures t in s.redis.records && t !in s.net.alloc ==> s.redis.records[t].order.None?
    ensures t in s.redis.records && t in s.net.alloc && s.net.alloc[t] in s.net.bound ==> s.redis.records[t].order == Some(s.net.alloc[t])
  {
  }

  lemma ReleaseEnds(r: Redis, c: Claim, t: Token, o: Option<OrderId>, keep: bool)
    requires t in r.records ==>
      r.records[t] == Record(c, o) && Get(r.owners, c) == Some(t) && c.voucher in r.stock && r.HasUsers(c.voucher) && t in r.pending
    ensures var (r', code) := ReleaseScript(r, c, t, o, keep);
      && code >= 0 && t !in r'.records
      && (t in r.records ==> Get(r'.owners, c) == None) && (t !in r.records ==> r'.owners == r.owners)
  {
  }

  /** A release for a reservation without an order row is never refused, whatever binding it names. */
  lemma NeverRefused(s: State, units: map<VoucherId, nat>, t: Token, o: Option<OrderId>, keep: bool)
    requires Inv(s, units) && t in s.net.issued && !OrderConservation.HasRow(s, t)
    ensures ReleaseScript(s.redis, s.net.issued[t], t, o, keep).1 >= 0
  {
    if t in s.redis.records {
      UnlandedHolds(s, units, t);
    }
    hide Inv;
  }

  /** A release that arrives takes an unlanded reservation back, provided that it names the binding: the order id if that
      is bound, none if no order id was drawn. */
  lemma ReleaseTakesBack(s: State, units: map<VoucherId, nat>, t: Token, keep: bool)
    requires Inv(s, units) && t in s.net.issued && !OrderConservation.HasRow(s, t)
    requires t in s.net.alloc ==> s.net.alloc[t] in s.net.bound
    ensures var (r, code) := ReleaseScript(s.redis, s.net.issued[t], t, Get(s.net.alloc, t), keep);
      && code >= 0 && TakenBack(s.(redis := r), t)
  {
    assert Good(ViewOf(s, t)) by {
      GoodAt(s, units, t);
    }
    if t in s.redis.records {
      UnlandedHolds(s, units, t);
    }
    hide Inv;
    UnlandedView(s, t);
    ReleaseEnds(s.redis, s.net.issued[t], t, Get(s.net.alloc, t), keep);
    hide ReleaseScript;
  }
}
