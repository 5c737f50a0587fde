/** The sliding-window limiter: a sorted set of admission times edited in place, and what it promises over whole runs. */
module RateLimit {
  import opened Common

  type Millis = int

  /** What one request is told: admitted, or when to come back. */
  datatype Reply = Admitted | Retry(after: Millis)

  ghost predicate Sorted(s: seq<Millis>) {
    forall i, j :: 0 <= i < j < |s| ==> s[i] <= s[j]
  }

  /** ZREMRANGEBYSCORE -inf cut. */
  function Trim(hits: seq<Millis>, cut: Millis): seq<Millis> {
    if hits == [] || hits[0] > cut then hits else Trim(hits[1..], cut)
  }

  /** ZADD keeps the set in score order; a clock that does not step back adds at the end. */
  function Insert(hits: seq<Millis>, now: Millis): seq<Millis> {
    if hits == [] || hits[|hits| - 1] <= now then hits + [now]
    else Insert(hits[..|hits| - 1], now) + [hits[|hits| - 1]]
  }

  /** The new time stands between those up to it and the later ones. */
  lemma {:induction false} InsertPlace(hits: seq<Millis>, now: Millis) returns (i: nat)
    requires Sorted(hits)
    ensures i <= |hits| && Insert(hits, now) == hits[..i] + [now] + hits[i..]
    ensures (forall k :: 0 <= k < i ==> hits[k] <= now) && (forall k :: i <= k < |hits| ==> hits[k] > now)
    decreases |hits|
  {
    if hits == [] || hits[|hits| - 1] <= now {
      i := |hits|;
    } else {
      var n := |hits| - 1;
      i := InsertPlace(hits[..n], now);
      assert hits[..n][..i] == hits[..i] && hits[..n][i..] + [hits[n]] == hits[i..];
    }
  }

  lemma PlacedInOrder(hits: seq<Millis>, i: nat, now: Millis)
    requires Sorted(hits) && i <= |hits|
    requires (forall k :: 0 <= k < i ==> hits[k] <= now) && (forall k :: i <= k < |hits| ==> hits[k] > now)
    ensures Sorted(hits[..i] + [now] + hits[i..])
  {
    var longer := hits[..i] + [now] + hits[i..];
    forall j, k | 0 <= j < k < |longer|
      ensures longer[j] <= longer[k]
    {
      assert longer[j] == if j < i then hits[j] else if j == i then now else hits[j - 1];
      assert longer[k] == if k < i then hits[k] else if k == i then now else hits[k - 1];
    }
  }

  lemma PlacedOnce(hits: seq<Millis>, i: nat, now: Millis)
    requires i <= |hits|
    ensures multiset(hits[..i] + [now] + hits[i..]) == multiset(hits) + multiset{now}
  {
    assert hits == hits[..i] + hits[i..];
  }

  lemma InsertKeepsOrder(hits: seq<Millis>, now: Millis)
    requires Sorted(hits)
    ensures Sorted(Insert(hits, now)) && multiset(Insert(hits, now)) == multiset(hits) + multiset{now}
  {
    hide Insert, Sorted;
    var i := InsertPlace(hits, now);
    PlacedInOrder(hits, i, now);
    PlacedOnce(hits, i, now);
  }

  /** rate_limit.lua for a valid configuration. */
  function Script(hits: seq<Millis>, now: Millis, limit: int, window: Millis): (seq<Millis>, Reply)
    requires limit > 0 && window > 0
  {
    var kept := Trim(hits, now - window);
    if |kept| >= limit then (kept, Retry(Max(1, kept[0] + window - now))) else (Insert(kept, now), Admitted)
  }

  class SlidingWindowRateLimiter {
    var hits: seq<Millis>
    var expireAt: Millis

    constructor ()
      ensures hits == []
    {
      hits, expireAt := [], 0;
    }

    /** SlidingWindowRateLimiter.acquire. Zero admits, a positive number of milliseconds tells when to come back. The key lives
        for a window after its last admission; `gone` says that it expired before this call. */
    method Acquire(limit: int, windowSeconds: int, now: Millis, gone: bool) returns (r: Result<Millis>)
      requires Sorted(hits) && (gone ==> now >= expireAt)
      modifies this
      ensures Sorted(hits)
      ensures r.Err? <==> limit <= 0 || windowSeconds <= 0
      ensures r.Err? ==> hits == old(hits) && expireAt == old(expireAt)
      ensures r.Ok? ==>
        var (kept, reply) := Script(if gone then [] else old(hits), now, limit, windowSeconds * 1000);
        && hits == kept
        && r.value == (if reply.Admitted? then 0 else reply.after)
        && expireAt == (if reply.Admitted? then now + windowSeconds * 1000 else old(expireAt))
    {
      if limit <= 0 || windowSeconds <= 0 {
        return Err;
      }
      var window := windowSeconds * 1000;
      if gone {
        hits := [];
      }
      while hits != [] && hits[0] <= now - window
        invariant Sorted(hits)
        invariant Trim(hits, now - window) == Trim(if gone then [] else old(hits), now - window) && expireAt == old(expireAt)
        decreases |hits|
      {
        hits := hits[1..];
      }
      if |hits| >= limit {
        return Ok(Max(1, hits[0] + window - now));
      }
      InsertKeepsOrder(hits, now);
      hits, expireAt := Insert(hits, now), now + window;
      return Ok(0);
    }
  }

  /** When the key expires, a window after its last admission, everything in it is out of the window anyway. */
  lemma {:induction false} ExpiryInvisible(hits: seq<Millis>, now: Millis, limit: int, window: Millis)
    requires limit > 0 && window > 0 && Sorted(hits)
    requires hits != [] ==> now >= hits[|hits| - 1] + window
    ensures Trim(hits, now - window) == [] && Script(hits, now, limit, window) == Script([], now, limit, window)
    decreases |hits|
  {
    if hits != [] {
      ExpiryInvisible(hits[1..], now, limit, window);
    }
  }

  // ---------------------------------------------------------- whole runs

  /** One request: the time of the Redis clock, and whether the key expired before it. */
  datatype Call = Call(now: Millis, gone: bool)

  /** The sorted set that a call finds after a run. */
  function Found(before: seq<Call>, call: Call, limit: int, window: Millis): seq<Millis>
    requires limit > 0 && window > 0
    decreases before, 1
  {
    if call.gone then [] else Hits(before, limit, window)
  }

  /** What a call is answered after a run. */
  function Answer(before: seq<Call>, call: Call, limit: int, window: Millis): Reply
    requires limit > 0 && window > 0
  {
    Script(Found(before, call, limit, window), call.now, limit, window).1
  }

  /** The times of the admissions of a run, in order. */
  function Admissions(calls: seq<Call>, limit: int, window: Millis): seq<Millis>
    requires limit > 0 && window > 0
  {
    if calls == [] then []
    else
      var before, call := calls[..|calls| - 1], calls[|calls| - 1];
      Admissions(before, limit, window) + if Answer(before, call, limit, window).Admitted? then [call.now] else []
  }

  /** The sorted set after a run. */
  function Hits(calls: seq<Call>, limit: int, window: Millis): seq<Millis>
    requires limit > 0 && window > 0
    decreases calls, 0
  {
    if calls == [] then []
    else
      var before, call := calls[..|calls| - 1], calls[|calls| - 1];
      Script(Found(before, call, limit, window), call.now, limit, window).0
  }

  /** The clock does not go back, and the key lives for a window after each admission. */
  ghost predicate Run(calls: seq<Call>, limit: int, window: Millis)
    requires limit > 0 && window > 0
    decreases |calls|
  {
    calls == [] ||
    var before, call := calls[..|calls| - 1], calls[|calls| - 1];
    var admitted := Admissions(before, limit, window);
    && Run(before, limit, window)
    && (before != [] ==> before[|before| - 1].now <= call.now)
    && (call.gone && admitted != [] ==> call.now >= admitted[|admitted| - 1] + window)
  }

  /** Trimming the end of an ordered list moves its start forward over everything at or below the cut. */
  lemma {:induction false} TrimSuffix(list: seq<Millis>, from: nat, cut: Millis) returns (k: nat)
    requires Sorted(list) && from <= |list|
    ensures from <= k <= |list| && Trim(list[from..], cut) == list[k..]
    ensures (k > from ==> list[k - 1] <= cut) && (k < |list| ==> list[k] > cut)
    decreases |list| - from
  {
    if from == |list| || list[from] > cut {
      k := from;
    } else {
      assert list[from..][1..] == list[from + 1..];
      k := TrimSuffix(list, from + 1, cut);
    }
  }

  /** Any admission and the one `limit` places later are at least a window apart. */
  ghost predicate Spaced(admitted: seq<Millis>, limit: int, window: Millis) {
    forall i, j :: 0 <= i < j < |admitted| && i + limit <= j ==> admitted[j] - admitted[i] >= window
  }

  /** The set holds the admissions from index `from` on; those before are out of the window for good. */
  ghost predicate Tracks(admitted: seq<Millis>, from: nat, last: Millis, limit: int, window: Millis) {
    && Sorted(admitted) && from <= |admitted| <= from + limit
    && (admitted != [] ==> admitted[|admitted| - 1] <= last)
    && (from > 0 ==> admitted[from - 1] <= last - window)
  }

  lemma Appended(admitted: seq<Millis>, from: nat, now: Millis, limit: int, window: Millis)
    requires window > 0 && Tracks(admitted, from, now, limit, window) && |admitted| < from + limit && Spaced(admitted, limit, window)
    ensures Tracks(admitted + [now], from, now, limit, window) && Spaced(admitted + [now], limit, window)
    ensures (admitted + [now])[from..] == admitted[from..] + [now]
  {
    var longer := admitted + [now];
    forall i | 0 <= i && i + limit <= |admitted|
      ensures now - longer[i] >= window
    {
      assert i <= from - 1;
      assert admitted[i] <= admitted[from - 1];
    }
  }

  lemma Kept(admitted: seq<Millis>, from: nat, from': nat, last: Millis, now: Millis, limit: int, window: Millis)
    requires Tracks(admitted, from, last, limit, window) && last <= now && from <= from' <= |admitted|
    requires from' > from ==> admitted[from' - 1] <= now - window
    ensures Tracks(admitted, from', now, limit, window)
  {
    hide Sorted;
  }

  lemma AddsAtEnd(admitted: seq<Millis>, from: nat, now: Millis, limit: int, window: Millis)
    requires Tracks(admitted, from, now, limit, window)
    ensures Insert(admitted[from..], now) == admitted[from..] + [now]
  {
  }

  lemma OneCall(admitted: seq<Millis>, from: nat, last: Millis, now: Millis, limit: int, window: Millis) returns (from': nat)
    requires limit > 0 && window > 0 && Tracks(admitted, from, last, limit, window) && last <= now && Spaced(admitted, limit, window)
    ensures var (hits, reply) := Script(admitted[from..], now, limit, window);
      var admitted' := if reply.Admitted? then admitted + [now] else admitted;
      && from' <= |admitted'| && hits == admitted'[from'..]
      && Tracks(admitted', from', now, limit, window) && Spaced(admitted', limit, window)
      && (reply.Retry? ==> |hits| == limit && hits[0] > now - window)
  {
    from' := TrimSuffix(admitted, from, now - window);
    Kept(admitted, from, from', last, now, limit, window);
    AddsAtEnd(admitted, from', now, limit, window);
    hide Trim, Insert, Spaced, Sorted, Tracks;
    if |admitted| - from' < limit {
      Appended(admitted, from', now, limit, window);
    }
  }

  lemma LastCall(calls: seq<Call>, limit: int, window: Millis)
    requires limit > 0 && window > 0 && calls != []
    ensures var before, call := calls[..|calls| - 1], calls[|calls| - 1];
      var (hits, reply) := Script(Found(before, call, limit, window), call.now, limit, window);
      && Hits(calls, limit, window) == hits && Answer(before, call, limit, window) == reply
      && Admissions(calls, limit, window) == Admissions(before, limit, window) + if reply.Admitted? then [call.now] else []
  {
  }

  /** A key that expired had nothing left in it that counts. */
  lemma GoneInvisible(before: seq<Call>, call: Call, from: nat, limit: int, window: Millis)
    requires limit > 0 && window > 0
    requires var admitted := Admissions(before, limit, window);
      && from <= |admitted| && Hits(before, limit, window) == admitted[from..] && Sorted(admitted)
      && (call.gone && admitted != [] ==> call.now >= admitted[|admitted| - 1] + window)
    ensures Script(Found(before, call, limit, window), call.now, limit, window)
         == Script(Hits(before, limit, window), call.now, limit, window)
  {
    if call.gone {
      ExpiryInvisible(Hits(before, limit, window), call.now, limit, window);
    }
  }

  lemma {:induction false} RunTracks(calls: seq<Call>, last: Millis, limit: int, window: Millis) returns (from: nat)
    requires limit > 0 && window > 0 && Run(calls, limit, window) && (calls != [] ==> calls[|calls| - 1].now <= last)
    ensures var admitted := Admissions(calls, limit, window);
      && from <= |admitted| && Hits(calls, limit, window) == admitted[from..]
      && Tracks(admitted, from, last, limit, window) && Spaced(admitted, limit, window) && Sorted(admitted)
    decreases |calls|
  {
    if calls == [] {
      from := 0;
      NoCalls(last, limit, window);
    } else {
      var before, call := calls[..|calls| - 1], calls[|calls| - 1];
      assert Run(before, limit, window) && (before != [] ==> before[|before| - 1].now <= call.now);
      var admitted := Admissions(before, limit, window);
      assert call.gone && admitted != [] ==> call.now >= admitted[|admitted| - 1] + window;
      hide *;
      from := RunTracks(before, call.now, limit, window);
      GoneInvisible(before, call, from, limit, window);
      LastCall(calls, limit, window);
      assert admitted + [] == admitted;
      from := OneCall(admitted, from, call.now, call.now, limit, window);
      TracksLater(Admissions(calls, limit, window), from, call.now, last, limit, window);
    }
  }

  lemma NoCalls(last: Millis, limit: int, window: Millis)
    requires limit > 0 && window > 0
    ensures Admissions([], limit, window) == [] && Hits([], limit, window) == []
    ensures Tracks([], 0, last, limit, window) && Spaced([], limit, window)
  {
  }

  lemma TracksLater(admitted: seq<Millis>, from: nat, last: Millis, later: Millis, limit: int, window: Millis)
    requires Tracks(admitted, from, last, limit, window) && last <= later
    ensures Tracks(admitted, from, later, limit, window) && Sorted(admitted)
  {
  }

  /** A refused call leaves exactly `limit` times, all within the window. */
  lemma Refused(calls: seq<Call>, limit: int, window: Millis)
    requires limit > 0 && window > 0 && Run(calls, limit, window) && calls != []
    requires Answer(calls[..|calls| - 1], calls[|calls| - 1], limit, window).Retry?
    ensures |Hits(calls, limit, window)| == limit && Hits(calls, limit, window)[0] > calls[|calls| - 1].now - window
    ensures Answer(calls[..|calls| - 1], calls[|calls| - 1], limit, window).after
         == Hits(calls, limit, window)[0] + window - calls[|calls| - 1].now
  {
    var before, call := calls[..|calls| - 1], calls[|calls| - 1];
    var from := RunTracks(before, call.now, limit, window);
    GoneInvisible(before, call, from, limit, window);
    LastCall(calls, limit, window);
    hide Admissions, Hits, Found, Answer, Trim, Run, Tracks, Spaced, Sorted;
    from := OneCall(Admissions(before, limit, window), from, call.now, call.now, limit, window);
  }

  /** How many admissions fall into the window that ends at `t`. */
  function InWindow(admitted: seq<Millis>, t: Millis, window: Millis): nat {
    if admitted == [] then 0
    else
      var last := admitted[|admitted| - 1];
      InWindow(admitted[..|admitted| - 1], t, window) + if t - window < last <= t then 1 else 0
  }

  lemma {:induction false} AtMost(admitted: seq<Millis>, n: nat, t: Millis, window: Millis, first: nat, limit: nat)
    requires n <= |admitted|
    requires forall i :: 0 <= i < |admitted| && t - window < admitted[i] <= t ==> first <= i < first + limit
    ensures InWindow(admitted[..n], t, window) <= if n <= first then 0 else if n <= first + limit then n - first else limit
    decreases n
  {
    if n > 0 {
      AtMost(admitted, n - 1, t, window, first, limit);
      assert admitted[..n][..n - 1] == admitted[..n - 1];
    }
  }

  lemma InOrder(s: seq<Millis>, i: int, j: int)
    requires Sorted(s) && 0 <= i <= j < |s|
    ensures s[i] <= s[j]
  {
  }

  lemma NearFirst(admitted: seq<Millis>, first: nat, i: nat, t: Millis, limit: int, window: Millis)
    requires Spaced(admitted, limit, window) && limit > 0 && i < |admitted| && first < |admitted|
    requires t - window < admitted[first] && admitted[i] <= t
    ensures i < first + limit
  {
  }

  /** The admissions of a window are among `limit` consecutive ones. */
  lemma Consecutive(admitted: seq<Millis>, t: Millis, limit: int, window: Millis) returns (first: nat)
    requires limit > 0 && Sorted(admitted) && Spaced(admitted, limit, window)
    ensures forall i :: 0 <= i < |admitted| && t - window < admitted[i] <= t ==> first <= i < first + limit
  {
    first := TrimSuffix(admitted, 0, t - window);
    hide *;
    forall i | 0 <= i < |admitted| && t - window < admitted[i] <= t
      ensures first <= i < first + limit
    {
      if i < first {
        InOrder(admitted, i, first - 1);
      }
      NearFirst(admitted, first, i, t, limit, window);
    }
  }

  /** While the clock of Redis does not go back, no window of the configured length contains more admissions than the
      limit, however often the key expires. */
  lemma EveryWindow(calls: seq<Call>, limit: int, window: Millis, t: Millis)
    requires limit > 0 && window > 0 && Run(calls, limit, window)
    ensures InWindow(Admissions(calls, limit, window), t, window) <= limit
  {
    var admitted := Admissions(calls, limit, window);
    var from := RunTracks(calls, if calls == [] then 0 else calls[|calls| - 1].now, limit, window);
    assert admitted[..|admitted|] == admitted;
    hide *;
    var first := Consecutive(admitted, t, limit, window);
    AtMost(admitted, |admitted|, t, window, first, limit);
  }

  lemma {:induction false} TailInWindow(admitted: seq<Millis>, n: nat, t: Millis, window: Millis, first: nat)
    requires n <= |admitted| && first <= |admitted|
    requires forall i :: 0 <= i < |admitted| ==> (t - window < admitted[i] <= t <==> i >= first)
    ensures InWindow(admitted[..n], t, window) == Max(0, n - first)
    decreases n
  {
    if n > 0 {
      TailInWindow(admitted, n - 1, t, window, first);
      assert admitted[..n][..n - 1] == admitted[..n - 1];
    }
  }

  /** What is trimmed is out of the window for good, and what is kept is in it. */
  lemma SplitAt(admitted: seq<Millis>, from: nat, k: nat, now: Millis, limit: int, window: Millis)
    requires window > 0 && Tracks(admitted, from, now, limit, window) && from <= k <= |admitted|
    requires (k > from ==> admitted[k - 1] <= now - window) && (k < |admitted| ==> admitted[k] > now - window)
    ensures forall i :: 0 <= i < |admitted| ==> (now - window < admitted[i] <= now <==> i >= k)
  {
    hide Sorted;
    forall i | 0 <= i < |admitted|
      ensures now - window < admitted[i] <= now <==> i >= k
    {
      InOrder(admitted, i, |admitted| - 1);
      if i < k {
        InOrder(admitted, i, k - 1);
      } else {
        InOrder(admitted, k, i);
      }
    }
  }

  /** Trimming leaves exactly the times of the window, if those the set no longer holds are out of it. */
  lemma WindowIsTail(admitted: seq<Millis>, from: nat, now: Millis, limit: int, window: Millis)
    requires window > 0 && Sorted(admitted) && Tracks(admitted, from, now, limit, window)
    ensures InWindow(admitted, now, window) == |Trim(admitted[from..], now - window)|
  {
    assert from <= |admitted|;
    hide *;
    var k := TrimSuffix(admitted, from, now - window);
    SplitAt(admitted, from, k, now, limit, window);
    TailInWindow(admitted, |admitted|, now, window, k);
    assert admitted[..|admitted|] == admitted && Max(0, |admitted| - k) == |admitted[k..]|;
  }

  lemma RunBefore(before: seq<Call>, call: Call, limit: int, window: Millis)
    requires limit > 0 && window > 0 && Run(before + [call], limit, window)
    ensures Run(before, limit, window) && (before != [] ==> before[|before| - 1].now <= call.now)
    ensures var admitted := Admissions(before, limit, window);
      call.gone && admitted != [] ==> call.now >= admitted[|admitted| - 1] + window
  {
    hide Admissions;
    assert (before + [call])[..|before|] == before;
  }

  lemma ScriptAdmits(hits: seq<Millis>, now: Millis, limit: int, window: Millis)
    requires limit > 0 && window > 0
    ensures Script(hits, now, limit, window).1.Admitted? <==> |Trim(hits, now - window)| < limit
  {
  }

  /** A call is admitted exactly when fewer than `limit` admissions lie in the window that ends with it; it is never
      refused for anything else. */
  lemma AdmittedExactly(before: seq<Call>, call: Call, limit: int, window: Millis)
    requires limit > 0 && window > 0 && Run(before + [call], limit, window)
    ensures Answer(before, call, limit, window).Admitted? <==> InWindow(Admissions(before, limit, window), call.now, window) < limit
  {
    hide Admissions, Run, Hits, Found, Spaced, Trim, Insert, Tracks, Sorted, InWindow, Script;
    RunBefore(before, call, limit, window);
    var from := RunTracks(before, call.now, limit, window);
    GoneInvisible(before, call, from, limit, window);
    WindowIsTail(Admissions(before, limit, window), from, call.now, limit, window);
    ScriptAdmits(Hits(before, limit, window), call.now, limit, window);
  }

  /** Asking again alone succeeds exactly from the announced time on; until then it changes nothing. */
  lemma RetryExact(calls: seq<Call>, limit: int, window: Millis, later: Millis)
    requires limit > 0 && window > 0 && Run(calls, limit, window) && calls != [] && later >= calls[|calls| - 1].now
    requires Answer(calls[..|calls| - 1], calls[|calls| - 1], limit, window).Retry?
    ensures var hits, after := Hits(calls, limit, window), Answer(calls[..|calls| - 1], calls[|calls| - 1], limit, window).after;
      && after > 0
      && (Script(hits, later, limit, window).1.Admitted? <==> later >= calls[|calls| - 1].now + after)
      && (later < calls[|calls| - 1].now + after ==> Script(hits, later, limit, window).0 == hits)
  {
    Refused(calls, limit, window);
    var hits := Hits(calls, limit, window);
    hide Hits, Admissions, Answer, Run, Tracks, Spaced, Sorted;
    assert later < hits[0] + window ==> Trim(hits, later - window) == hits;
    if later >= hits[0] + window {
      TrimShrinks(hits[1..], later - window);
    }
  }

  lemma {:induction false} TrimShrinks(hits: seq<Millis>, cut: Millis)
    ensures |Trim(hits, cut)| <= |hits|
    decreases |hits|
  {
    if hits != [] && hits[0] <= cut {
      TrimShrinks(hits[1..], cut);
    }
  }

  /** RateLimitException: whole seconds for the client. */
  function RetryAfterSeconds(retryMillis: Millis): int
    requires retryMillis > 0
  {
    Max(1, (retryMillis + 999) / 1000)
  }

  /** The rounded time is enough, and no smaller whole number of seconds is. */
  lemma SecondsSuffice(retryMillis: Millis, seconds: int)
    requires retryMillis > 0
    ensures seconds * 1000 >= retryMillis <==> seconds >= RetryAfterSeconds(retryMillis)
  {
  }
}
