/** The closing sweep: a cursor over expired orders that wraps around, and why no order starves
    even when closing others fails for ever. */
module OrderCloseTask {
  import opened Common
  import opened OrderModel
  import opened OrderInvariant
  import opened OrderStores
  import opened OrderGrowth
  import opened OrderLifecycle

  /** Where the cursor goes: to the last order of the batch, or back to the start. */
  function NextCursor(batch: seq<OrderId>): OrderId {
    if batch == [] then 0 else batch[|batch| - 1]
  }

  /** One scan that could list: which of the scheduled ones, how long the schedule was when it read the tables, and what
      it listed. */
  datatype Listing = Listing(scan: nat, at: nat, batch: seq<OrderId>)

  /** All listed orders in the order of their attempts. */
  function Attempts(listings: seq<Listing>): seq<OrderId> {
    if listings == [] then [] else Attempts(listings[..|listings| - 1]) + listings[|listings| - 1].batch
  }

  class CloseTask {
    const lifecycle: OrderLifecycleService
    const releases: OrderStockReleaseService
    const stores: Stores
    var after: OrderId
    /** Every order whose closing was attempted, in order. */
    ghost var tried: seq<OrderId>

    constructor (lifecycle: OrderLifecycleService, releases: OrderStockReleaseService)
      requires lifecycle.stores == releases.stores
      ensures this.lifecycle == lifecycle && this.releases == releases && stores == lifecycle.stores && after == 0
      ensures tried == []
    {
      this.lifecycle, this.releases, stores, after := lifecycle, releases, lifecycle.stores, 0;
      tried := [];
    }

    ghost predicate Wired() {
      lifecycle.stores == stores && releases.stores == stores
    }

    /** OrderCloseTask.scan. The listing fails exactly when the first call meets a fault. Otherwise the batch is the lowest
        hundred above the cursor in the tables at moment `at` of the scan, the closing of every one of them is attempted in
        a call of its own, and the cursor passes the whole batch whatever became of each order; undisturbed, every order of
        the batch is closed. */
    method Scan(now: Millis) returns (ghost listed: Option<seq<OrderId>>, ghost at: nat)
      requires Wired() && stores.Valid()
      modifies this, stores
      ensures stores.Valid() && old(stores.trace) <= stores.trace
      ensures listed.Some? <==> FirstFault(old(stores.tape)).Fine?
      ensures |old(stores.trace)| <= at <= |stores.trace|
      ensures listed.Some? ==> IsExpiredBatch(Tables(stores.start, stores.trace, at), old(after), now, listed.value)
      ensures after == if listed.Some? then NextCursor(listed.value) else old(after)
      ensures tried == old(tried) + if listed.Some? then listed.value else []
      ensures Consumed(Rest(old(stores.tape)), stores.tape)
      ensures listed.Some? ==> Taken(old(stores.tape), 1 + |listed.value|, stores.tape)
      ensures old(stores.tape) == [] ==>
        && stores.tape == [] && Tables(stores.start, stores.trace, at) == old(stores.DatabaseNow())
        && forall i :: 0 <= i < |listed.value| ==> ClosedIn(stores.Now(), listed.value[i])
    {
      hide Grows, Fresh, Exec, Inv, IsExpiredBatch, FirstFault, Rest, Consumed, Taken, Tables, ClosedIn;
      listed := None;
      var batch := lifecycle.ExpiredAfter(after, now);
      ghost var read, tables := stores.trace, stores.DatabaseNow();
      at := |read|;
      NothingTaken(stores.tape);
      if batch.Ok? {
        listed := Some(batch.value);
        BatchFacts(tables, after, now, batch.value);
        CloseAll(batch.value, now);
      }
      ghost var s, left := stores.Now(), stores.tape;
      ghost var retried, through := releases.RetryPending(now);
      ScanTape(old(stores.tape), if batch.Ok? then |batch.value| else 0, left, stores.tape);
      ReadThen(stores.start, read, stores.trace);
      if batch.Ok? {
        StayClosed(s, stores.Now(), batch.value);
      }
    }

    /** One pass of the loop of `scan`, up to the cursor. */
    method Attempt(o: OrderId, now: Millis) returns (r: Result<bool>)
      requires Wired() && stores.Valid()
      modifies `tried, stores
      ensures stores.Valid() && old(stores.trace) <= stores.trace && Grows(old(stores.Now()), stores.Now())
      ensures tried == old(tried) + [o]
      ensures Consumed(Rest(old(stores.tape)), stores.tape)
      ensures r == Ok(true) ==> ClosedIn(stores.Now(), o)
      ensures old(stores.tape) == [] ==> stores.tape == [] && r == Ok(Closable(old(stores.DatabaseNow()), o, now))
      ensures old(stores.tape) == [] ==> forall p :: p != o ==> Get(stores.orders, p) == Get(old(stores.orders), p)
    {
      hide Grows, Fresh, Exec, Inv, Consumed, Rest;
      ghost var s := stores.Now();
      tried := tried + [o];
      r := lifecycle.Close(o, now);
      if old(stores.tape) == [] && r == Ok(true) {
        OnlyOneRow(s, o, s.db.orders[o].version, now);
      }
    }

    /** The loop of `scan`. */
    method CloseAll(batch: seq<OrderId>, now: Millis)
      requires Wired() && stores.Valid()
      requires forall i, j :: 0 <= i < j < |batch| ==> batch[i] < batch[j]
      modifies this, stores
      ensures stores.Valid() && old(stores.trace) <= stores.trace
      ensures after == NextCursor(batch) && tried == old(tried) + batch
      ensures Taken(old(stores.tape), |batch|, stores.tape)
      ensures old(stores.tape) == [] && (forall i :: 0 <= i < |batch| ==> Closable(old(stores.DatabaseNow()), batch[i], now)) ==>
        forall i :: 0 <= i < |batch| ==> ClosedIn(stores.Now(), batch[i])
    {
      hide Grows, Fresh, Exec, Inv, RowForward, Consumed, Rest, Taken;
      if batch == [] {
        after := 0;
      }
      NothingTaken(stores.tape);
      ghost var d0 := stores.DatabaseNow();
      for i := 0 to |batch|
        invariant stores.Valid() && old(stores.trace) <= stores.trace
        invariant after == if i > 0 then batch[i - 1] else if batch == [] then 0 else old(after)
        invariant tried == old(tried) + batch[..i]
        invariant Taken(old(stores.tape), i, stores.tape)
        invariant old(stores.tape) == [] ==> stores.tape == []
        invariant old(stores.tape) == [] ==> forall j :: i <= j < |batch| ==> Get(stores.orders, batch[j]) == Get(d0.orders, batch[j])
        invariant old(stores.tape) == [] ==> forall j :: 0 <= j < i && Closable(d0, batch[j], now) ==> ClosedIn(stores.Now(), batch[j])
      {
        ghost var s, left := stores.Now(), stores.tape;
        var closed := Attempt(batch[i], now);
        after := batch[i];
        StayClosed(s, stores.Now(), batch[..i]);
        OneTaken(old(stores.tape), i, left, stores.tape);
        assert batch[..i + 1] == batch[..i] + [batch[i]];
      }
      assert batch[..|batch|] == batch;
    }

    /** What the scheduler does: one scan at each of these times. `w` is the sweep of the scans that could list, `listings`
        says which they were and what they read; the attempts are those of `w`, and no more scans than the tape has
        faults failed to list. */
    method Run(times: seq<Millis>) returns (ghost w: Sweep, ghost listings: seq<Listing>)
      requires Wired() && stores.Valid()
      modifies this, stores
      ensures stores.Valid() && old(stores.trace) <= stores.trace
      ensures IsSweep(w) && w.cursor[0] == old(after) && after == w.cursor[|w.attempted|]
      ensures |listings| == |w.attempted| && Recorded(w, listings, times, stores.start, stores.trace, |old(stores.trace)|)
      ensures |listings| <= |times| <= |listings| + Faults(old(stores.tape))
      ensures tried == old(tried) + Attempts(listings)
    {
      hide Grows, Fresh, Exec, Inv, IsExpiredBatch, IsBatch, MovesTo, IsSweep, ExpiredOrders, Elements, NextCursor;
      hide Consumed, Rest, FirstFault, Faults, Taken, Tables, Recorded, Attempts;
      NoAttempts();
      w, listings := Sweep([], [after], []), [];
      StartSweep(after);
      NothingRecorded(w, stores.start, stores.trace, |stores.trace|);
      for i := 0 to |times|
        invariant stores.Valid() && old(stores.trace) <= stores.trace
        invariant IsSweep(w) && w.Shaped() && w.cursor[0] == old(after) && after == w.cursor[|w.attempted|]
        invariant |listings| == |w.attempted| && Recorded(w, listings, times[..i], stores.start, stores.trace, |old(stores.trace)|)
        invariant |listings| <= i && i + Faults(stores.tape) <= |listings| + Faults(old(stores.tape))
        invariant tried == old(tried) + Attempts(listings)
      {
        ghost var before, left, schedule := after, stores.tape, stores.trace;
        ghost var listed, at := Scan(times[i]);
        FaultsLess(left, stores.tape);
        assert times[..i + 1] == times[..i] + [times[i]];
        RecordedStays(w, listings, times[..i], times[i], stores.start, schedule, stores.trace, |old(stores.trace)|);
        if listed.Some? {
          ghost var tables, listing := Tables(stores.start, stores.trace, at), Listing(i, at, listed.value);
          BatchOfScan(tables, before, times[i], listed.value);
          ExtendSweep(w, ExpiredOrders(tables, times[i]), Elements(listed.value), after);
          RecordedMore(w, listings, listing, times[..i], times[i], stores.start, schedule, stores.trace, |old(stores.trace)|, after);
          w := w.Extended(ExpiredOrders(tables, times[i]), Elements(listed.value), after);
          AttemptsMore(listings, listing);
          listings := listings + [listing];
        }
      }
      assert times[..|times|] == times;
    }
  }

  /** The tables as they were when the schedule had this length. */
  ghost function Tables(start: State, trace: seq<Step>, at: nat): Database
    requires at <= |trace|
  {
    Exec(start, trace[..at]).db
  }

  /** The sweep is what these scans read and attempted, one after the other, each at its scheduled time. */
  ghost predicate Recorded(w: Sweep, listings: seq<Listing>, times: seq<Millis>, start: State, trace: seq<Step>, from: nat)
    requires w.Shaped() && |listings| == |w.attempted|
  {
    && (forall k :: 0 <= k < |listings| ==> from <= listings[k].at <= |trace| && listings[k].scan < |times|)
    && (forall j, k :: 0 <= j < k < |listings| ==> listings[j].at <= listings[k].at && listings[j].scan < listings[k].scan)
    && (forall k :: 0 <= k < |listings| ==>
          && w.expired[k] == ExpiredOrders(Tables(start, trace, listings[k].at), times[listings[k].scan])
          && w.attempted[k] == Elements(listings[k].batch))
  }

  lemma NothingRecorded(w: Sweep, start: State, trace: seq<Step>, from: nat)
    requires w.Shaped() && w.attempted == []
    ensures Recorded(w, [], [], start, trace, from)
  {
  }

  lemma TablesStay(start: State, trace: seq<Step>, trace': seq<Step>, at: nat)
    requires at <= |trace| && trace <= trace'
    ensures Tables(start, trace', at) == Tables(start, trace, at)
  {
    assert trace'[..at] == trace[..at];
  }

  lemma RecordedStays(w: Sweep, listings: seq<Listing>, times: seq<Millis>, time: Millis, start: State, trace: seq<Step>,
                      trace': seq<Step>, from: nat)
    requires w.Shaped() && |listings| == |w.attempted| && Recorded(w, listings, times, start, trace, from) && trace <= trace'
    ensures Recorded(w, listings, times + [time], start, trace', from)
  {
    hide Tables, ExpiredOrders, Elements;
    forall k | 0 <= k < |listings|
      ensures Tables(start, trace', listings[k].at) == Tables(start, trace, listings[k].at)
    {
      TablesStay(start, trace, trace', listings[k].at);
    }
  }

  lemma RecordedMore(w: Sweep, listings: seq<Listing>, listing: Listing, times: seq<Millis>, time: Millis, start: State,
                     trace: seq<Step>, trace': seq<Step>, from: nat, after: OrderId)
    requires w.Shaped() && |listings| == |w.attempted| && Recorded(w, listings, times, start, trace, from)
    requires trace <= trace' && from <= |trace| <= listing.at <= |trace'| && listing.scan == |times|
    ensures var found, batch := ExpiredOrders(Tables(start, trace', listing.at), time), Elements(listing.batch);
      w.Extended(found, batch, after).Shaped() && Recorded(w.Extended(found, batch, after), listings + [listing], times + [time], start, trace', from)
  {
    RecordedStays(w, listings, times, time, start, trace, trace', from);
    hide Tables, ExpiredOrders, Elements;
  }

  lemma NoAttempts()
    ensures Attempts([]) == []
  {
  }

  lemma AttemptsMore(listings: seq<Listing>, listing: Listing)
    ensures Attempts(listings + [listing]) == Attempts(listings) + listing.batch
  {
    assert (listings + [listing])[..|listings|] == listings;
  }

  /** This many calls, at least, took their entries off the front of the tape. */
  predicate Taken<T(==)>(before: seq<T>, calls: nat, after: seq<T>) {
    Consumed(before, after) && (after == [] || |after| + calls <= |before|)
  }

  lemma NothingTaken<T>(tape: seq<T>)
    ensures Taken(tape, 0, tape)
  {
  }

  lemma OneTaken<T>(start: seq<T>, calls: nat, before: seq<T>, after: seq<T>)
    requires Taken(start, calls, before) && Consumed(Rest(before), after)
    ensures Taken(start, calls + 1, after)
  {
  }

  lemma ScanTape<T>(start: seq<T>, calls: nat, before: seq<T>, after: seq<T>)
    requires Taken(Rest(start), calls, before) && Consumed(before, after)
    ensures Consumed(Rest(start), after) && Taken(start, 1 + calls, after)
    ensures start == [] ==> before == [] && after == []
  {
  }

  lemma ReadThen(start: State, read: seq<Step>, trace: seq<Step>)
    requires read <= trace
    ensures Tables(start, trace, |read|) == Exec(start, read).db
  {
    assert trace[..|read|] == read;
  }

  lemma FaultsLess(before: seq<Disturbance<Step>>, after: seq<Disturbance<Step>>)
    requires Consumed(Rest(before), after)
    ensures Faults(after) + (if FirstFault(before).Fine? then 0 else 1) <= Faults(before)
  {
    ConsumedFaults(Rest(before), after);
  }

  predicate ClosedIn(s: State, o: OrderId) {
    o in s.db.orders && s.db.orders[o].status == Closed
  }

  /** Closing one order leaves the rows of the others alone. */
  lemma OnlyOneRow(s: State, o: OrderId, version: int, now: Millis)
    ensures forall p :: p != o ==> Get(Apply(s, Close(o, version, now)).db.orders, p) == Get(s.db.orders, p)
  {
  }

  lemma StayClosed(s: State, s': State, orders: seq<OrderId>)
    requires Grows(s, s')
    ensures forall i :: 0 <= i < |orders| && ClosedIn(s, orders[i]) ==> ClosedIn(s', orders[i])
  {
  }

  lemma BatchFacts(d: Database, after: OrderId, now: Millis, ids: seq<OrderId>)
    requires IsExpiredBatch(d, after, now, ids)
    ensures forall i, j :: 0 <= i < j < |ids| ==> ids[i] < ids[j]
    ensures forall i :: 0 <= i < |ids| ==> Closable(d, ids[i], now)
  {
  }

  // --------------------------------------------------------- no starvation

  /** A run of scans: the orders each listing found expired, the ones it attempted, and the cursor before each scan and
      after the last. Between two scans any order may leave the expired ones or join them; an attempt may fail,
      every time. */
  datatype Sweep = Sweep(expired: seq<set<OrderId>>, cursor: seq<OrderId>, attempted: seq<set<OrderId>>)
  {
    predicate Shaped() {
      |expired| == |attempted| && |cursor| == |attempted| + 1
    }

    function Extended(found: set<OrderId>, batch: set<OrderId>, after: OrderId): Sweep {
      Sweep(expired + [found], cursor + [after], attempted + [batch])
    }
  }

  function Above(expired: set<OrderId>, after: OrderId): set<OrderId> {
    set o | o in expired && o > after
  }

  /** The lowest hundred above the cursor. */
  ghost predicate IsBatch(expired: set<OrderId>, after: OrderId, batch: set<OrderId>) {
    && batch <= Above(expired, after)
    && |batch| <= BATCH
    && (forall o, p :: o in Above(expired, after) - batch && p in batch ==> p < o)
    && (batch != Above(expired, after) ==> |batch| == BATCH)
  }

  ghost predicate MovesTo(batch: set<OrderId>, next: OrderId) {
    if batch == {} then next == 0 else next in batch && forall p :: p in batch ==> p <= next
  }

  ghost predicate IsSweep(w: Sweep) {
    && w.Shaped()
    && forall k :: 0 <= k < |w.attempted| ==>
         IsBatch(w.expired[k], w.cursor[k], w.attempted[k]) && MovesTo(w.attempted[k], w.cursor[k + 1])
  }

  lemma StartSweep(after: OrderId)
    ensures IsSweep(Sweep([], [after], []))
  {
  }

  lemma ExtendSweep(w: Sweep, found: set<OrderId>, batch: set<OrderId>, after: OrderId)
    requires IsSweep(w) && IsBatch(found, w.cursor[|w.attempted|], batch) && MovesTo(batch, after)
    ensures IsSweep(w.Extended(found, batch, after))
    ensures w.Extended(found, batch, after).Shaped()
  {
    hide IsBatch, MovesTo;
  }

  function Ceil(n: nat): nat {
    (n + BATCH - 1) / BATCH
  }

  function ExpiredOrders(d: Database, now: Millis): set<OrderId> {
    set o | o in d.orders && Closable(d, o, now)
  }

  /** What a scan lists from the tables is such a batch. */
  lemma BatchOfScan(d: Database, after: OrderId, now: Millis, ids: seq<OrderId>)
    requires IsExpiredBatch(d, after, now, ids)
    ensures IsBatch(ExpiredOrders(d, now), after, Elements(ids))
    ensures MovesTo(Elements(ids), NextCursor(ids))
  {
    var expired := ExpiredOrders(d, now);
    DistinctSize(ids);
    assert Elements(ids) <= Above(expired, after);
    if ids != [] {
      assert ids[|ids| - 1] in ids;
    }
    forall o | o in Above(expired, after) - Elements(ids)
      ensures |ids| == BATCH && forall p :: p in Elements(ids) ==> p < o
    {
      assert Closable(d, o, now) && o > after && o !in ids;
    }
  }

  /** Orders between the cursor and a ceiling. */
  function Between(orders: set<OrderId>, after: OrderId, ceiling: OrderId): set<OrderId> {
    set o | o in orders && after < o <= ceiling
  }

  /** The k-th listing found an order that the one before had not. */
  predicate Arrives(w: Sweep, k: nat)
    requires k < |w.expired|
  {
    k > 0 && !(w.expired[k] <= w.expired[k - 1])
  }

  /** How many of the scans from the k-th on saw an arrival. */
  function Arrivals(w: Sweep, k: nat): nat
    requires k <= |w.expired|
    decreases |w.expired| - k
  {
    if k == |w.expired| then 0 else (if Arrives(w, k) then 1 else 0) + Arrivals(w, k + 1)
  }

  /** The order is attempted by one of these scans, or one of their listings no longer finds it expired. */
  predicate Served(w: Sweep, from: nat, to: nat, o: OrderId)
    requires w.Shaped() && to <= |w.attempted|
  {
    exists i :: from <= i < to && (o in w.attempted[i] || o !in w.expired[i])
  }

  /** A scan that does not reach an order above the cursor takes a hundred below it. */
  lemma FullBatch(w: Sweep, k: nat, all: set<OrderId>, ceiling: OrderId, o: OrderId)
    requires IsSweep(w) && k < |w.attempted| && w.expired[k] <= all
    requires w.cursor[k] < o <= ceiling && o in w.expired[k] && o !in w.attempted[k]
    ensures w.cursor[k + 1] < o
    ensures |Between(all, w.cursor[k + 1], ceiling)| <= |Between(all, w.cursor[k], ceiling)| - BATCH
  {
    var batch, next := w.attempted[k], w.cursor[k + 1];
    assert IsBatch(w.expired[k], w.cursor[k], batch) && MovesTo(batch, next);
    assert o in Above(w.expired[k], w.cursor[k]) - batch;
    assert |batch| == BATCH && batch != {} && next in batch;
    PastBatch(all, w.cursor[k], batch, next, ceiling);
  }

  lemma PastBatch(all: set<OrderId>, after: OrderId, batch: set<OrderId>, next: OrderId, ceiling: OrderId)
    requires batch <= Between(all, after, ceiling) && next in batch && forall p :: p in batch ==> p <= next
    ensures |Between(all, next, ceiling)| <= |Between(all, after, ceiling)| - |batch|
  {
    var now, later := Between(all, after, ceiling), Between(all, next, ceiling);
    assert later <= now - batch;
    SubsetSize(later, now - batch);
    assert |now - batch| == |now| - |batch|;
  }

  /** Whatever arrives, an order above the cursor gets its turn within one scan per hundred orders up to it. */
  lemma {:induction false} SweepsUp(w: Sweep, k: nat, scans: nat, all: set<OrderId>, ceiling: OrderId, o: OrderId)
    requires IsSweep(w) && k + scans <= |w.attempted| && forall i :: 0 <= i < |w.expired| ==> w.expired[i] <= all
    requires o in all && w.cursor[k] < o <= ceiling
    requires |Between(all, w.cursor[k], ceiling)| <= BATCH * scans
    ensures Served(w, k, k + scans, o)
    decreases scans
  {
    assert o in Between(all, w.cursor[k], ceiling);
    if o in w.expired[k] && o !in w.attempted[k] {
      FullBatch(w, k, all, ceiling, o);
      SweepsUp(w, k + 1, scans - 1, all, ceiling, o);
    }
  }

  /** A batch below the hundred empties the part above the cursor, up to what arrives. */
  lemma ShortBatch(w: Sweep, k: nat)
    requires IsSweep(w) && k + 1 < |w.attempted| && w.attempted[k] != {} && |w.attempted[k]| < BATCH && !Arrives(w, k + 1)
    ensures Above(w.expired[k + 1], w.cursor[k + 1]) == {}
  {
    assert IsBatch(w.expired[k], w.cursor[k], w.attempted[k]) && MovesTo(w.attempted[k], w.cursor[k + 1]);
    assert w.attempted[k] == Above(w.expired[k], w.cursor[k]);
    assert w.cursor[k + 1] in w.attempted[k] && w.expired[k + 1] <= w.expired[k];
    assert Above(w.expired[k + 1], w.cursor[k + 1]) <= w.attempted[k];
  }

  /** One scan per hundred and per arrival, and a listing comes back empty. */
  lemma {:induction false} ReachesEnd(w: Sweep, k: nat, all: set<OrderId>) returns (m: nat)
    requires IsSweep(w) && k < |w.attempted| && forall i :: 0 <= i < |w.expired| ==> w.expired[i] <= all
    requires k + Ceil(|Above(all, w.cursor[k])|) + Arrivals(w, k + 1) < |w.attempted|
    ensures k <= m <= k + Ceil(|Above(all, w.cursor[k])|) + Arrivals(w, k + 1) && w.attempted[m] == {}
    decreases |w.attempted| - k
  {
    var batch := w.attempted[k];
    if batch == {} {
      return k;
    }
    MovesUp(w, k, all);
    if |batch| < BATCH && !Arrives(w, k + 1) {
      ShortBatch(w, k);
      assert IsBatch(w.expired[k + 1], w.cursor[k + 1], w.attempted[k + 1]);
      return k + 1;
    }
    m := ReachesEnd(w, k + 1, all);
  }

  /** A batch that is not empty takes the cursor past as many orders. */
  lemma MovesUp(w: Sweep, k: nat, all: set<OrderId>)
    requires IsSweep(w) && k < |w.attempted| && w.attempted[k] != {} && w.expired[k] <= all
    ensures |w.attempted[k]| <= BATCH
    ensures |Above(all, w.cursor[k + 1])| <= |Above(all, w.cursor[k])| - |w.attempted[k]|
  {
    var batch, next := w.attempted[k], w.cursor[k + 1];
    assert IsBatch(w.expired[k], w.cursor[k], batch) && MovesTo(batch, next);
    var now, later := Above(all, w.cursor[k]), Above(all, next);
    assert batch <= now && next in batch;
    assert later <= now - batch;
    SubsetSize(later, now - batch);
    assert |now - batch| == |now| - |batch|;
  }

  /** From any cursor, whichever closings fail and whatever arrives, every expired order is attempted before the bound,
      unless it stops being expired: one scan per hundred above the cursor and per arrival, one to wrap, and one per
      hundred below. `all` is any set that covers what the listings find. */
  lemma NoStarvation(w: Sweep, all: set<OrderId>, o: OrderId)
    requires IsSweep(w) && forall i :: 0 <= i < |w.expired| ==> w.expired[i] <= all
    requires o in all && o > 0
    requires var above := Above(all, w.cursor[0]);
      |w.attempted| >= Ceil(|above|) + Arrivals(w, 0) + 1 + Ceil(|all - above|)
    ensures Served(w, 0, |w.attempted|, o)
  {
    var start := w.cursor[0];
    var above := Above(all, start);
    if o > start {
      assert Between(all, start, o) <= above;
      SubsetSize(Between(all, start, o), above);
      SweepsUp(w, 0, Ceil(|above|), all, o, o);
    } else {
      var m := ReachesEnd(w, 0, all);
      assert MovesTo(w.attempted[m], w.cursor[m + 1]);
      var low := Between(all, 0, start);
      assert low <= all - above;
      SubsetSize(low, all - above);
      SweepsUp(w, m + 1, Ceil(|all - above|), all, start, o);
    }
  }
}
