/** No unit is lost or made: what every schedule keeps between the stores. */
module OrderConservation {
  import opened Common
  import opened OrderModel
  import opened OrderInvariant
  import opened OrderPreservation

  /** The reservation has an order row. */
  predicate HasRow(s: State, t: Token) {
    t in s.net.alloc && s.net.alloc[t] in s.db.orders
  }

  /** Reservations still waiting to become an order. */
  function Unlanded(s: State, v: VoucherId): set<Token> {
    set t | t in s.redis.records && s.redis.records[t].claim.voucher == v && !HasRow(s, t)
  }

  /** Closed orders whose unit is back in MySQL but not yet in Redis. */
  function ClosedUncredited(s: State, v: VoucherId): set<OrderId> {
    set o | o in s.db.orders && s.db.orders[o].claim.voucher == v && s.db.orders[o].status == Closed && o !in s.redis.closed
  }

  /** Nothing is in flight for the voucher. */
  predicate Quiescent(s: State, v: VoucherId) {
    Unlanded(s, v) == {} && ClosedUncredited(s, v) == {}
  }

  /** Owner entries of reservations with, or without, an order row of the given kind. */
  function OwnersWithRow(s: State, v: VoucherId, closed: bool): set<Claim> {
    set c | c in s.redis.owners && c.voucher == v && HasRow(s, s.redis.owners[c])
            && (s.db.orders[s.net.alloc[s.redis.owners[c]]].status == Closed) == closed
  }

  function OwnersWithoutRow(s: State, v: VoucherId): set<Claim> {
    set c | c in s.redis.owners && c.voucher == v && !HasRow(s, s.redis.owners[c])
  }

  lemma OwnerSplit(s: State, v: VoucherId)
    ensures |OwnersOf(s.redis, v)| ==
      |OwnersWithRow(s, v, false)| + |OwnersWithRow(s, v, true)| + |OwnersWithoutRow(s, v)|
  {
    var a, b, n := OwnersWithRow(s, v, false), OwnersWithRow(s, v, true), OwnersWithoutRow(s, v);
    assert OwnersOf(s.redis, v) == a + b + n;
    assert a !! b && (a + b) !! n;
  }

  /** An owner entry read back: whose it is, and what its reservation looks like. */
  lemma OwnerEntry(s: State, units: map<VoucherId, nat>, c: Claim)
    requires Inv(s, units) && c in s.redis.owners
    ensures var t := s.redis.owners[c]; t in s.net.issued && s.net.issued[t] == c && Holds(s, t) && Good(ViewOf(s, t))
    ensures var t := s.redis.owners[c]; t in s.net.alloc ==> Get(s.net.tokenOf, s.net.alloc[t]) == Some(t)
  {
    assert s.redis.owners[c] in s.net.issued && s.net.issued[s.redis.owners[c]] == c by {
      hide AllGood, Paired;
    }
    hide AllGood, Good, ViewOf;
    GoodAt(s, units, s.redis.owners[c]);
  }

  /** What an owner entry's view says, in terms of the tables. */
  lemma OwnerKind(s: State, units: map<VoucherId, nat>, c: Claim)
    requires Inv(s, units) && c in s.redis.owners
    ensures var t := s.redis.owners[c];
      if HasRow(s, t) then s.db.orders[s.net.alloc[t]].claim == c && s.net.alloc[t] !in s.redis.closed
      else t in s.redis.records && s.redis.records[t].claim == c
  {
    hide Inv;
    OwnerEntry(s, units, c);
  }

  /** An order row whose unit Redis still holds is found again through its owner entry. */
  lemma RowOwner(s: State, units: map<VoucherId, nat>, o: OrderId)
    requires Inv(s, units) && o in s.db.orders && o !in s.redis.closed
    ensures var c := s.db.orders[o].claim;
      c in s.redis.owners && HasRow(s, s.redis.owners[c]) && s.net.alloc[s.redis.owners[c]] == o
  {
    assert o in s.net.tokenOf by {
      hide AllGood;
    }
    hide Inv;
    KnownPair(s, units, o);
  }

  lemma UnlandedOwner(s: State, units: map<VoucherId, nat>, t: Token)
    requires Inv(s, units) && t in s.redis.records && !HasRow(s, t)
    ensures Get(s.redis.owners, s.redis.records[t].claim) == Some(t)
  {
    assert t in s.net.issued by {
      hide AllGood;
    }
    hide Inv;
    GoodAt(s, units, t);
  }

  /** Order rows correspond one to one to the owner entries they were made for. */
  lemma RowCount(s: State, units: map<VoucherId, nat>, v: VoucherId, closed: bool)
    requires Inv(s, units)
    ensures |OwnersWithRow(s, v, closed)| == if closed then |ClosedUncredited(s, v)| else |ActiveOrders(s.db, v)|
  {
    hide Inv, Good, ViewOf;
    var rows := if closed then ClosedUncredited(s, v) else ActiveOrders(s.db, v);
    var owners := OwnersWithRow(s, v, closed);
    var f := map c | c in owners :: s.net.alloc[s.redis.owners[c]];
    var g := map o | o in rows :: s.db.orders[o].claim;
    forall c | c in owners
      ensures f[c] in rows && g[f[c]] == c
    {
      OwnerKind(s, units, c);
    }
    forall o | o in rows
      ensures g[o] in owners && f[g[o]] == o
    {
      if !closed {
        ActiveNotCredited(s, units, o);
      }
      RowOwner(s, units, o);
    }
    BijectionSize(owners, f, rows, g);
  }

  lemma ActiveNotCredited(s: State, units: map<VoucherId, nat>, o: OrderId)
    requires Inv(s, units) && o in s.db.orders && s.db.orders[o].status != Closed
    ensures o !in s.redis.closed
  {
    assert o in s.net.tokenOf by {
      hide AllGood;
    }
    hide Inv;
    KnownPair(s, units, o);
  }

  lemma UnlandedCount(s: State, units: map<VoucherId, nat>, v: VoucherId)
    requires Inv(s, units)
    ensures |OwnersWithoutRow(s, v)| == |Unlanded(s, v)|
  {
    hide Inv, Good, ViewOf;
    var owners, waiting := OwnersWithoutRow(s, v), Unlanded(s, v);
    var f := map c | c in owners :: s.redis.owners[c];
    var g := map t | t in waiting :: s.redis.records[t].claim;
    forall c | c in owners
      ensures f[c] in waiting && g[f[c]] == c
    {
      OwnerKind(s, units, c);
    }
    forall t | t in waiting
      ensures g[t] in owners && f[g[t]] == t
    {
      UnlandedOwner(s, units, t);
    }
    BijectionSize(owners, f, waiting, g);
  }

  /** Every unit of a voucher, in every state: MySQL stock and active orders make up the units,
      so do Redis stock and owner entries, and the two stocks differ by exactly what is in flight. */
  ghost predicate Conserved(s: State, v: VoucherId, n: nat) {
    && v in s.db.stock && v in s.redis.stock
    && s.db.stock[v] >= 0 && s.redis.stock[v] >= 0
    && s.db.stock[v] + |ActiveOrders(s.db, v)| == n
    && s.redis.stock[v] + |OwnersOf(s.redis, v)| == n
    && s.db.stock[v] - s.redis.stock[v] == |Unlanded(s, v)| + |ClosedUncredited(s, v)|
  }

  lemma InvConserves(s: State, units: map<VoucherId, nat>, v: VoucherId)
    requires Inv(s, units) && v in units
    ensures Conserved(s, v, units[v])
  {
    OwnerSplit(s, v);
    RowCount(s, units, v, false);
    RowCount(s, units, v, true);
    UnlandedCount(s, units, v);
    hide AllGood, Paired, Slots, Indexed, Unlanded, ClosedUncredited;
  }

  /** Conservation after every schedule of a freshly preheated voucher. */
  lemma Conservation(start: State, units: map<VoucherId, nat>, steps: seq<Step>, v: VoucherId)
    requires Fresh(start, units) && v in units
    ensures Conserved(Exec(start, steps), v, units[v])
  {
    hide Inv, Conserved;
    InitInv(start, units);
    ExecKeeps(start, units, steps);
    InvConserves(Exec(start, steps), units, v);
  }

  /** The stocks agree exactly when nothing is in flight. */
  lemma StocksAgreeAtRest(start: State, units: map<VoucherId, nat>, steps: seq<Step>, v: VoucherId)
    requires Fresh(start, units) && v in units
    ensures var s := Exec(start, steps);
      Conserved(s, v, units[v]) && (s.db.stock[v] == s.redis.stock[v] <==> Quiescent(s, v))
  {
    hide Fresh;
    Conservation(start, units, steps, v);
  }

  /** The qualification set is the sentinel and one user per owner entry. */
  ghost predicate QualifiedAreOwners(r: Redis, v: VoucherId) {
    && v in r.users && SENTINEL in r.users[v]
    && (forall u :: u != SENTINEL ==> (u in r.users[v] <==> Claim(u, v) in r.owners))
    && |r.users[v]| == |OwnersOf(r, v)| + 1
  }

  lemma InvQualified(s: State, units: map<VoucherId, nat>, v: VoucherId)
    requires Slots(s) && RedisBalanced(s.redis, units) && Claims(s, units) && v in units
    ensures QualifiedAreOwners(s.redis, v)
  {
    var r := s.redis;
    assert Claim(SENTINEL, v) !in r.owners;
    var buyers, owners := r.users[v] - {SENTINEL}, OwnersOf(r, v);
    var f := map u | u in buyers :: Claim(u, v);
    var g := map c | c in owners :: c.user;
    BijectionSize(buyers, f, owners, g);
  }

  lemma Qualification(start: State, units: map<VoucherId, nat>, steps: seq<Step>, v: VoucherId)
    requires Fresh(start, units) && v in units
    ensures QualifiedAreOwners(Exec(start, steps).redis, v)
  {
    hide Fresh, AllGood, Paired, Slots, RedisBalanced, Claims, QualifiedAreOwners, Exec;
    InitInv(start, units);
    ExecKeeps(start, units, steps);
    InvQualified(Exec(start, steps), units, v);
  }
}
