/** Order ids: seconds in the upper half, a daily counter in the lower half of a Java long, kept here as its bits. */
module OrderIds {
  type Long = bv64

  const BEGIN_TIMESTAMP: Long := 1640995200

  /** One call: the key prefix and the wall clock in seconds. */
  datatype Call = Call(prefix: string, now: Long)

  /** Key of the counter: the prefix and the day, which the same clock reading determines. */
  datatype Key = Key(prefix: string, day: Long)

  /** Day of a clock reading, rounded down on both sides of the epoch: `!x` is the complement -1 - x. */
  function Day(now: Long): Long {
    if now < 0x8000_0000_0000_0000 then now / 86400 else !(!now / 86400)
  }

  function KeyOf(c: Call): Key {
    Key(c.prefix, Day(c.now))
  }

  function Pack(timestamp: Long, count: Long): Long {
    (timestamp << 32) | count
  }

  /** As a signed number. */
  predicate Positive(x: Long) {
    0 < x < 0x8000_0000_0000_0000
  }

  function Upper(id: Long): Long {
    id >> 32
  }

  function Lower(id: Long): Long {
    id & 0xffff_ffff
  }

  /** Both halves can be read back from an id exactly when both fit 32 bits; and then the long is positive exactly
      when the timestamp leaves the sign bit free and not both halves are zero. */
  lemma PackReadsBack(timestamp: Long, count: Long)
    ensures Upper(Pack(timestamp, count)) == timestamp && Lower(Pack(timestamp, count)) == count
       <==> timestamp < 0x1_0000_0000 && count < 0x1_0000_0000
    ensures timestamp < 0x1_0000_0000 && count < 0x1_0000_0000 ==>
      (Positive(Pack(timestamp, count)) <==>
       timestamp < 0x8000_0000 && (timestamp != 0 || count != 0))
  {
  }

  function Increment(count: Long): Long {
    count + 1
  }

  /** A long as a number. */
  ghost function Value(x: Long): nat {
    if x == 0 then 0 else Value(x - 1) + 1
  }

  lemma IncrementAddsOne(count: Long)
    requires count < 0x1_0000_0000
    ensures Value(Increment(count)) == Value(count) + 1
  {
  }

  /** Value of a counter after these calls, each of which increments its own. */
  function Counter(calls: seq<Call>, key: Key): Long {
    if calls == [] then 0
    else
      var before := Counter(calls[..|calls| - 1], key);
      if KeyOf(calls[|calls| - 1]) == key then Increment(before) else before
  }

  /** The counter stays within 32 bits all the time. */
  ghost predicate CounterFits(calls: seq<Call>, key: Key) {
    forall k | 0 <= k <= |calls| :: Counter(calls[..k], key) < 0x1_0000_0000
  }

  function Since(now: Long): Long {
    now - BEGIN_TIMESTAMP
  }

  lemma SinceDistinct(a: Long, b: Long)
    requires Since(a) == Since(b)
    ensures a == b
  {
  }

  function Timestamp(calls: seq<Call>, k: nat): Long
    requires k < |calls|
  {
    Since(calls[k].now)
  }

  /** A second after the base whose shift leaves the sign bit alone: from 2022 to 2090. */
  predicate InRange(timestamp: Long) {
    0 < timestamp < 0x8000_0000
  }

  /** What the counter of the k-th call shows right after it. */
  function CountOf(calls: seq<Call>, k: nat): Long
    requires k < |calls|
  {
    Counter(calls[..k + 1], KeyOf(calls[k]))
  }

  /** What the k-th of some calls gets. */
  function IdOf(calls: seq<Call>, k: nat): Long
    requires k < |calls|
  {
    Pack(Timestamp(calls, k), CountOf(calls, k))
  }

  class RedisIdWorker {
    var counters: map<Key, Long>
    ghost var history: seq<Call>

    constructor ()
      ensures Valid() && history == []
    {
      counters, history := map[], [];
    }

    ghost predicate Valid()
      reads this
    {
      forall key :: Counter(history, key) == if key in counters then counters[key] else 0
    }

    /** RedisIdWorker.nextId */
    method NextId(prefix: string, now: Long) returns (id: Long)
      requires Valid()
      modifies this
      ensures Valid() && history == old(history) + [Call(prefix, now)]
      ensures id == IdOf(history, |history| - 1)
    {
      hide Pack, Day, Increment, Since;
      var timestamp := Since(now);
      var key := Key(prefix, Day(now));
      var count := Increment(if key in counters then counters[key] else 0);
      counters := counters[key := count];
      ghost var before := history;
      history := history + [Call(prefix, now)];
      assert history[..|history| - 1] == before && history[..|history| - 1 + 1] == history;
      id := Pack(timestamp, count);
    }
  }

  /** A counter within its half never goes back. */
  lemma {:induction false} CounterGrows(calls: seq<Call>, key: Key, i: nat, j: nat)
    requires i <= j <= |calls| && CounterFits(calls, key)
    ensures Value(Counter(calls[..i], key)) <= Value(Counter(calls[..j], key))
    decreases j
  {
    hide Day, Increment, Value;
    if i < j {
      assert calls[..j][..j - 1] == calls[..j - 1];
      CounterGrows(calls, key, i, j - 1);
      IncrementAddsOne(Counter(calls[..j - 1], key));
    }
  }

  /** A later use of the same counter shows more. */
  lemma CountsRise(calls: seq<Call>, i: nat, j: nat)
    requires i < j < |calls| && KeyOf(calls[i]) == KeyOf(calls[j]) && CounterFits(calls, KeyOf(calls[i]))
    ensures Value(CountOf(calls, i)) < Value(CountOf(calls, j))
  {
    hide Day, Increment, Value;
    CounterGrows(calls, KeyOf(calls[i]), i + 1, j);
    assert calls[..j + 1][..j] == calls[..j];
    IncrementAddsOne(Counter(calls[..j], KeyOf(calls[i])));
  }

  ghost function CallsOf(calls: seq<Call>, key: Key): set<int> {
    set i | 0 <= i < |calls| && KeyOf(calls[i]) == key
  }

  lemma OneMoreCall(calls: seq<Call>, key: Key)
    requires calls != []
    ensures var n := |calls| - 1;
      |CallsOf(calls, key)| == |CallsOf(calls[..n], key)| + if KeyOf(calls[n]) == key then 1 else 0
  {
    hide KeyOf;
    var n := |calls| - 1;
    var earlier := CallsOf(calls[..n], key);
    assert CallsOf(calls, key) == if KeyOf(calls[n]) == key then earlier + {n} else earlier;
  }

  lemma {:induction false} CounterCounts(calls: seq<Call>, key: Key, n: nat)
    requires n <= |calls| && CounterFits(calls, key)
    ensures Value(Counter(calls[..n], key)) == |CallsOf(calls[..n], key)|
    decreases n
  {
    hide KeyOf, Increment, Value, CallsOf;
    if n > 0 {
      assert calls[..n][..n - 1] == calls[..n - 1];
      CounterCounts(calls, key, n - 1);
      OneMoreCall(calls[..n], key);
      IncrementAddsOne(Counter(calls[..n - 1], key));
    } else {
      NoCalls(key);
      assert calls[..n] == [];
    }
  }

  lemma NoCalls(key: Key)
    ensures Value(Counter([], key)) == 0 && CallsOf([], key) == {}
  {
  }

  /** The day of a clock reading that is not before the epoch. */
  function DayNumber(now: Long): Long {
    now / 86400
  }

  lemma DayIs(now: Long)
    requires now < 0x8000_0000_0000_0000
    ensures Day(now) == DayNumber(now)
  {
  }

  /** The k-th id counts the calls so far with its prefix on its day, itself included, from one on. */
  lemma CountOfDay(calls: seq<Call>, k: nat)
    requires k < |calls| && CounterFits(calls, KeyOf(calls[k]))
    requires forall i :: 0 <= i <= k ==> calls[i].now < 0x8000_0000_0000_0000
    ensures Value(CountOf(calls, k)) ==
      |set i | 0 <= i <= k && calls[i].prefix == calls[k].prefix && DayNumber(calls[i].now) == DayNumber(calls[k].now)|
  {
    hide Counter, Value, Day, DayNumber;
    CounterCounts(calls, KeyOf(calls[k]), k + 1);
    forall i | 0 <= i <= k
      ensures Day(calls[i].now) == DayNumber(calls[i].now)
    {
      DayIs(calls[i].now);
    }
    assert CallsOf(calls[..k + 1], KeyOf(calls[k]))
        == set i | 0 <= i <= k && calls[i].prefix == calls[k].prefix && DayNumber(calls[i].now) == DayNumber(calls[k].now);
  }

  /** The k-th id is a positive long and shows the seconds since the start of 2022 and its count. */
  lemma IdParts(calls: seq<Call>, k: nat)
    requires k < |calls| && CounterFits(calls, KeyOf(calls[k])) && InRange(Timestamp(calls, k))
    ensures Positive(IdOf(calls, k))
    ensures Upper(IdOf(calls, k)) == calls[k].now - 1640995200 && Lower(IdOf(calls, k)) == CountOf(calls, k)
  {
    hide Day, Counter, Upper, Lower, Pack;
    PackReadsBack(Timestamp(calls, k), CountOf(calls, k));
  }

  /** Equal seconds fall on one day, hence on one counter. */
  lemma SameKey(calls: seq<Call>, i: nat, j: nat)
    requires i < |calls| && j < |calls| && calls[i].prefix == calls[j].prefix
    requires Timestamp(calls, i) == Timestamp(calls, j)
    ensures KeyOf(calls[i]) == KeyOf(calls[j])
  {
    hide Day, Since;
    SinceDistinct(calls[i].now, calls[j].now);
  }

  /** Ids of one prefix are positive longs and pairwise different, for any sequence of calls and any clock, even one
      that steps back: equal ids come from equal seconds, hence the same counter, hence equal counts. */
  lemma IdsDistinct(calls: seq<Call>, i: nat, j: nat)
    requires i < j < |calls| && calls[i].prefix == calls[j].prefix
    requires InRange(Timestamp(calls, i)) && CounterFits(calls, KeyOf(calls[i]))
    requires InRange(Timestamp(calls, j)) && CounterFits(calls, KeyOf(calls[j]))
    ensures Positive(IdOf(calls, i)) && IdOf(calls, i) != IdOf(calls, j)
  {
    IdParts(calls, i);
    IdParts(calls, j);
    hide *;
    if IdOf(calls, i) == IdOf(calls, j) {
      SameKey(calls, i, j);
      CountsRise(calls, i, j);
      assert false;
    }
  }

  /** The long as the order id that tables and messages carry. */
  function Number(id: Long): int {
    id as int
  }

  lemma BackToLong(id: Long)
    ensures Number(id) as Long == id
  {
  }

  lemma PositiveNumber(id: Long)
    requires Positive(id)
    ensures Number(id) > 0
  {
    BackToLong(id);
  }

  /** A new id is positive and differs from every number drawn before with its prefix. */
  lemma NewIdUnused(calls: seq<Call>, used: set<int>)
    requires calls != []
    requires forall k :: 0 <= k < |calls| ==> InRange(Timestamp(calls, k)) && CounterFits(calls, KeyOf(calls[k]))
    requires forall o :: o in used ==>
      exists k :: 0 <= k < |calls| - 1 && calls[k].prefix == calls[|calls| - 1].prefix && o == Number(IdOf(calls, k))
    ensures var o := Number(IdOf(calls, |calls| - 1)); o > 0 && o !in used
  {
    var n := |calls| - 1;
    IdParts(calls, n);
    PositiveNumber(IdOf(calls, n));
    hide *;
    if Number(IdOf(calls, n)) in used {
      var k :| 0 <= k < n && calls[k].prefix == calls[n].prefix && Number(IdOf(calls, n)) == Number(IdOf(calls, k));
      BackToLong(IdOf(calls, k));
      BackToLong(IdOf(calls, n));
      IdsDistinct(calls, k, n);
      assert false;
    }
  }
}
