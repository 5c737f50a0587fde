/** The follow feed: a cursor of a time and a number of entries to skip, and why following it reads every entry once. */
module Feed {
  import opened Common

  type UserId = int
  type BlogId = int
  type Time = int

  /** A member of the sorted set feed:{user}; the score is the publication time in milliseconds. */
  datatype Entry = Entry(blog: BlogId, time: Time)

  /** A feed in the order of ZREVRANGEBYSCORE: latest first. Redis breaks ties by member in some fixed order. */
  ghost predicate Latest(feed: seq<Entry>) {
    forall i, j :: 0 <= i < j < |feed| ==> feed[i].time >= feed[j].time
  }

  datatype Cursor = Cursor(max: Time, offset: nat)

  const PAGE := 2

  /** The entries with a score in [0, max]. */
  function Visible(feed: seq<Entry>, max: Time): seq<Entry> {
    if feed == [] then []
    else (if 0 <= feed[0].time <= max then [feed[0]] else []) + Visible(feed[1..], max)
  }

  /** What is still to be read from a cursor on. */
  function Remaining(feed: seq<Entry>, c: Cursor): seq<Entry> {
    var visible := Visible(feed, c.max);
    if c.offset <= |visible| then visible[c.offset..] else []
  }

  /** ZREVRANGEBYSCORE feed max 0 LIMIT offset 2. */
  function Page(feed: seq<Entry>, c: Cursor): seq<Entry> {
    var rest := Remaining(feed, c);
    if |rest| <= PAGE then rest else rest[..PAGE]
  }

  /** How many entries at the end of the page have its last time. */
  function Ties(page: seq<Entry>, time: Time): nat {
    if page == [] || page[|page| - 1].time != time then 0 else 1 + Ties(page[..|page| - 1], time)
  }

  /** A page of entries at time zero counts one too many, because the loop starts from time zero, too. */
  function Extra(page: seq<Entry>): nat {
    if page != [] && Ties(page, 0) == |page| then 1 else 0
  }

  /** The cursor answered with a page: its last time, and how many entries with that time were read. */
  function Next(page: seq<Entry>, c: Cursor): Cursor
    requires page != []
  {
    var min := page[|page| - 1].time;
    Cursor(min, Ties(page, min) + Extra(page) + if min == c.max then c.offset else 0)
  }

  /** What the service answers. */
  datatype Answer = Invalid | Empty | Scroll(list: seq<BlogId>, minTime: Time, offset: nat)

  /** The blogs that still exist, in page order. */
  function Existing(ids: seq<BlogId>, blogs: set<BlogId>): seq<BlogId> {
    if ids == [] then []
    else Existing(ids[..|ids| - 1], blogs) + if ids[|ids| - 1] in blogs then [ids[|ids| - 1]] else []
  }

  function Blogs(page: seq<Entry>): seq<BlogId> {
    seq(|page|, i requires 0 <= i < |page| => page[i].blog)
  }

  /** The list is that of the places `at` of the page, in their order, and these are the places whose blog exists. */
  ghost predicate Picked(list: seq<BlogId>, page: seq<Entry>, blogs: set<BlogId>, at: seq<nat>) {
    && |at| == |list|
    && (forall k :: 0 <= k < |at| ==> at[k] < |page| && list[k] == page[at[k]].blog && list[k] in blogs)
    && (forall j, k :: 0 <= j < k < |at| ==> at[j] < at[k])
    && (forall n :: 0 <= n < |page| && page[n].blog in blogs ==> n in at)
  }

  predicate OfPage(list: seq<BlogId>, page: seq<Entry>, blogs: set<BlogId>, b: BlogId) {
    b in list <==> b in blogs && exists e | e in page :: e.blog == b
  }

  ghost predicate AsOften(list: seq<BlogId>, ids: seq<BlogId>, blogs: set<BlogId>) {
    forall b :: multiset(list)[b] == if b in blogs then multiset(ids)[b] else 0
  }

  /** What is answered besides the cursor: the two entries behind the skipped ones, as far as there are any, and of their
      blogs exactly those that exist, as often as they are there and in their order. */
  ghost predicate Listed(list: seq<BlogId>, page: seq<Entry>, blogs: set<BlogId>) {
    && (exists at :: Picked(list, page, blogs, at))
    && (forall b :: OfPage(list, page, blogs, b))
    && AsOften(list, Blogs(page), blogs)
    && ((forall e :: e in page ==> e.blog in blogs) ==> |list| == |page| && forall k :: 0 <= k < |page| ==> list[k] == page[k].blog)
  }

  lemma {:induction false} ExistingPicked(page: seq<Entry>, blogs: set<BlogId>) returns (at: seq<nat>)
    ensures Picked(Existing(Blogs(page), blogs), page, blogs, at)
    decreases |page|
  {
    at := [];
    if page != [] {
      var n := |page| - 1;
      at := ExistingPicked(page[..n], blogs);
      assert Blogs(page)[..n] == Blogs(page[..n]);
      if page[n].blog in blogs {
        at := at + [n];
      }
      assert forall k :: 0 <= k < n ==> page[..n][k] == page[k];
    }
  }

  lemma {:induction false} ExistingCounts(ids: seq<BlogId>, blogs: set<BlogId>)
    ensures AsOften(Existing(ids, blogs), ids, blogs)
    decreases |ids|
  {
    if ids != [] {
      ExistingCounts(ids[..|ids| - 1], blogs);
      assert ids == ids[..|ids| - 1] + [ids[|ids| - 1]];
    }
  }

  lemma {:induction false} ExistingAll(ids: seq<BlogId>, blogs: set<BlogId>)
    requires forall k :: 0 <= k < |ids| ==> ids[k] in blogs
    ensures Existing(ids, blogs) == ids
    decreases |ids|
  {
    if ids != [] {
      ExistingAll(ids[..|ids| - 1], blogs);
      assert ids == ids[..|ids| - 1] + [ids[|ids| - 1]];
    }
  }

  lemma PickedMember(list: seq<BlogId>, page: seq<Entry>, blogs: set<BlogId>, at: seq<nat>, b: BlogId)
    requires Picked(list, page, blogs, at)
    ensures OfPage(list, page, blogs, b)
  {
    if b in list {
      var k :| 0 <= k < |list| && list[k] == b;
      assert page[at[k]] in page && page[at[k]].blog == b;
    }
    if b in blogs && exists e | e in page :: e.blog == b {
      var n :| 0 <= n < |page| && page[n].blog == b;
      var k :| 0 <= k < |at| && at[k] == n;
      assert list[k] == b;
    }
  }

  lemma AllExist(page: seq<Entry>, blogs: set<BlogId>)
    requires forall e :: e in page ==> e.blog in blogs
    ensures var list := Existing(Blogs(page), blogs); |list| == |page| && forall k :: 0 <= k < |page| ==> list[k] == page[k].blog
  {
    forall k | 0 <= k < |page|
      ensures Blogs(page)[k] in blogs
    {
      assert page[k] in page;
    }
    ExistingAll(Blogs(page), blogs);
  }

  lemma ExistingListed(page: seq<Entry>, blogs: set<BlogId>)
    ensures Listed(Existing(Blogs(page), blogs), page, blogs)
  {
    var list := Existing(Blogs(page), blogs);
    var at := ExistingPicked(page, blogs);
    ExistingCounts(Blogs(page), blogs);
    hide Existing, Picked, AsOften, OfPage;
    forall b
      ensures OfPage(list, page, blogs, b)
    {
      PickedMember(list, page, blogs, at, b);
    }
    if forall e :: e in page ==> e.blog in blogs {
      AllExist(page, blogs);
    }
  }

  /** A page is the next two visible entries, or what there is of them. */
  lemma PageIs(feed: seq<Entry>, c: Cursor)
    ensures var visible, page := Visible(feed, c.max), Page(feed, c);
      && |page| == Max(0, if |visible| - c.offset < 2 then |visible| - c.offset else 2)
      && forall k :: 0 <= k < |page| ==> page[k] == visible[c.offset + k]
  {
  }

  /** BlogServiceImpl.queryBlogOfFollow for the feed of the caller. */
  method QueryBlogOfFollow(feed: seq<Entry>, blogs: set<BlogId>, max: Option<Time>, offset: Option<int>) returns (r: Answer)
    ensures r.Invalid? <==> max.None? || max.value < 0 || offset.None? || offset.value < 0
    ensures !r.Invalid? ==>
      var c := Cursor(max.value, offset.value);
      var page := Page(feed, c);
      && (page == [] ==> r == Empty)
      && (page != [] ==> r.Scroll? && Cursor(r.minTime, r.offset) == Next(page, c) && Listed(r.list, page, blogs))
  {
    if max.None? || max.value < 0 || offset.None? || offset.value < 0 {
      return Invalid;
    }
    hide Page, Next, Existing, Blogs, Listed;
    var tuples := Page(feed, Cursor(max.value, offset.value));
    if tuples == [] {
      return Empty;
    }
    var ids, minTime, os := Scan(tuples);
    var list := Present(ids, blogs);
    ExistingListed(tuples, blogs);
    if minTime == max.value {
      os := os + offset.value;
    }
    NextParts(tuples, Cursor(max.value, offset.value));
    return Scroll(list, minTime, os);
  }

  lemma NextParts(page: seq<Entry>, c: Cursor)
    requires page != []
    ensures Next(page, c) == Cursor(page[|page| - 1].time,
      Ties(page, page[|page| - 1].time) + Extra(page) + if page[|page| - 1].time == c.max then c.offset else 0)
  {
  }

  /** The loop over the tuples: their ids, the last time, and the count of its ties. */
  method Scan(tuples: seq<Entry>) returns (ids: seq<BlogId>, minTime: Time, os: nat)
    requires tuples != []
    ensures ids == Blogs(tuples) && minTime == tuples[|tuples| - 1].time
    ensures os == Ties(tuples, minTime) + Extra(tuples)
  {
    ids, minTime, os := [], 0, 1;
    for i := 0 to |tuples|
      invariant ids == Blogs(tuples[..i])
      invariant i == 0 ==> minTime == 0 && os == 1
      invariant i > 0 ==> minTime == tuples[i - 1].time && os == Ties(tuples[..i], minTime) + Extra(tuples[..i])
    {
      ids := ids + [tuples[i].blog];
      assert tuples[..i + 1][..i] == tuples[..i];
      if tuples[i].time == minTime {
        os := os + 1;
      } else {
        minTime, os := tuples[i].time, 1;
      }
    }
    assert tuples[..|tuples|] == tuples;
  }

  /** The stream that drops ids without a blog. */
  method Present(ids: seq<BlogId>, blogs: set<BlogId>) returns (list: seq<BlogId>)
    ensures list == Existing(ids, blogs)
  {
    list := [];
    for i := 0 to |ids|
      invariant list == Existing(ids[..i], blogs)
    {
      assert ids[..i + 1][..i] == ids[..i];
      if ids[i] in blogs {
        list := list + [ids[i]];
      }
    }
    assert ids[..|ids|] == ids;
  }

  // ------------------------------------------------------------- walking

  lemma {:induction false} VisibleFacts(feed: seq<Entry>, max: Time)
    ensures forall e :: e in Visible(feed, max) ==> e in feed && 0 <= e.time <= max
    ensures forall e :: e in feed && 0 <= e.time <= max ==> e in Visible(feed, max)
    ensures Latest(feed) ==> Latest(Visible(feed, max))
    ensures |Visible(feed, max)| <= |feed|
    decreases |feed|
  {
    if feed != [] {
      VisibleFacts(feed[1..], max);
    }
  }

  /** Every entry in the range is visible as often as it is there. */
  lemma {:induction false} VisibleCounts(feed: seq<Entry>, max: Time, e: Entry)
    ensures multiset(Visible(feed, max))[e] == if 0 <= e.time <= max then multiset(feed)[e] else 0
    decreases |feed|
  {
    if feed != [] {
      VisibleCounts(feed[1..], max, e);
      assert feed == [feed[0]] + feed[1..];
    }
  }

  lemma {:induction false} VisibleAgain(feed: seq<Entry>, max: Time, min: Time)
    requires min <= max
    ensures Visible(Visible(feed, max), min) == Visible(feed, min)
    decreases |feed|
  {
    if feed != [] {
      VisibleAgain(feed[1..], max, min);
      assert ([feed[0]] + Visible(feed[1..], max))[1..] == Visible(feed[1..], max);
      assert [] + Visible(feed[1..], max) == Visible(feed[1..], max);
    }
  }

  /** In an ordered list the entries at or below a time are a suffix. */
  lemma {:induction false} VisibleSuffix(list: seq<Entry>, min: Time, j: nat)
    requires j <= |list| && forall e :: e in list ==> e.time >= 0
    requires forall i :: 0 <= i < j ==> list[i].time > min
    requires forall i :: j <= i < |list| ==> list[i].time <= min
    ensures Visible(list, min) == list[j..]
    decreases |list|
  {
    if list != [] {
      VisibleSuffix(list[1..], min, if j > 0 then j - 1 else 0);
      assert j > 0 ==> list[1..][j - 1..] == list[j..];
      assert j == 0 ==> [list[0]] + list[1..] == list[0..];
    }
  }

  /** The entries that a cursor skips all have its time. The first request has nothing to skip. */
  ghost predicate Sound(feed: seq<Entry>, c: Cursor) {
    var visible := Visible(feed, c.max);
    c.offset <= |visible| && forall i :: 0 <= i < c.offset ==> visible[i].time == c.max
  }

  lemma {:induction false} TiesCount(page: seq<Entry>, time: Time)
    ensures Ties(page, time) <= |page|
    ensures forall i :: |page| - Ties(page, time) <= i < |page| ==> page[i].time == time
    ensures Ties(page, time) < |page| ==> page[|page| - Ties(page, time) - 1].time != time
    decreases |page|
  {
    if page != [] && page[|page| - 1].time == time {
      TiesCount(page[..|page| - 1], time);
    }
  }

  /** Where a page of an ordered list ends: within the ties of its last time. */
  lemma PageEnd(list: seq<Entry>, max: Time, offset: nat, n: nat)
    requires Latest(list) && offset < n <= |list|
    requires forall i :: 0 <= i < |list| ==> list[i].time <= max
    requires forall i :: 0 <= i < offset ==> list[i].time == max
    ensures var min, ties := list[n - 1].time, Ties(list[offset..n], list[n - 1].time);
      && 0 < ties <= n - offset && (min == max ==> ties == n - offset)
      && (forall i :: n - ties <= i < n ==> list[i].time == min)
      && (min != max ==> forall i :: 0 <= i < n - ties ==> list[i].time > min)
  {
    var min, page := list[n - 1].time, list[offset..n];
    assert page[|page| - 1] == list[n - 1];
    TiesCount(page, min);
    var ties := Ties(page, min);
    hide Ties;
    forall i | n - ties <= i < n
      ensures list[i].time == min
    {
      assert list[i] == page[i - offset];
    }
    if ties < n - offset {
      assert page[|page| - ties - 1] == list[n - ties - 1];
    }
  }

  lemma PageShape(feed: seq<Entry>, c: Cursor)
    requires Page(feed, c) != []
    ensures var list, page := Visible(feed, c.max), Page(feed, c);
      var n := c.offset + |page|;
      n <= |list| && page == list[c.offset..n] && page[0] == list[c.offset] && page[|page| - 1] == list[n - 1]
      && Remaining(feed, c)[|page|..] == list[n..]
  {
    hide Visible;
  }

  lemma VisibleTimes(feed: seq<Entry>, max: Time)
    requires Latest(feed)
    ensures var list := Visible(feed, max); Latest(list) && forall i :: 0 <= i < |list| ==> 0 <= list[i].time <= max
  {
    VisibleFacts(feed, max);
    var list := Visible(feed, max);
    hide Visible, Latest;
    assert forall i :: 0 <= i < |list| ==> list[i] in list;
  }

  /** Reading on from the time of the last entry of a page: the list starts with the ties of that time. */
  lemma NextList(list: seq<Entry>, max: Time, offset: nat, n: nat)
    requires Latest(list) && offset < n <= |list|
    requires forall i :: 0 <= i < |list| ==> 0 <= list[i].time <= max
    requires forall i :: 0 <= i < offset ==> list[i].time == max
    ensures var min := list[n - 1].time;
      var ties := Ties(list[offset..n], min);
      var j := if min == max then 0 else n - ties;
      && 0 < ties <= n - offset && (min == max ==> ties == n - offset)
      && Visible(list, min) == list[j..] && forall i :: j <= i < n ==> list[i].time == min
  {
    PageEnd(list, max, offset, n);
    var min := list[n - 1].time;
    var j := if min == max then 0 else n - Ties(list[offset..n], min);
    forall i | j <= i < |list|
      ensures list[i].time <= min
    {
    }
    hide Visible, Ties, Latest;
    VisibleSuffix(list, min, j);
  }

  /** A cursor at offset `k` into the part of the list from `j` on. */
  lemma CursorInto(feed: seq<Entry>, list: seq<Entry>, j: nat, next: Cursor)
    requires j <= |list| && Visible(feed, next.max) == list[j..]
    ensures Remaining(feed, next) == if j + next.offset <= |list| then list[j + next.offset..] else []
    ensures j + next.offset <= |list| && (forall i :: j <= i < j + next.offset ==> list[i].time == next.max) ==> Sound(feed, next)
  {
    hide Visible;
    if j + next.offset <= |list| {
      assert list[j..][next.offset..] == list[j + next.offset..];
      assert forall i :: 0 <= i < next.offset ==> list[j..][i] == list[j + i];
    }
  }

  lemma PositionInList(feed: seq<Entry>, c: Cursor, list: seq<Entry>, page: seq<Entry>)
    requires page != [] && c.offset + |page| <= |list| && page == list[c.offset..c.offset + |page|]
    requires list == Visible(feed, c.max) && Latest(list)
    requires forall i :: 0 <= i < |list| ==> 0 <= list[i].time <= c.max
    requires forall i :: 0 <= i < c.offset ==> list[i].time == c.max
    ensures var next, n := Next(page, c), c.offset + |page| + Extra(page);
      Remaining(feed, next) == (if n <= |list| then list[n..] else []) && (Extra(page) == 0 ==> Sound(feed, next))
  {
    hide *;
    var n := c.offset + |page|;
    var min := list[n - 1].time;
    assert page[|page| - 1].time == min;
    NextList(list, c.max, c.offset, n);
    VisibleAgain(feed, c.max, min);
    NextParts(page, c);
    CursorInto(feed, list, if min == c.max then 0 else n - Ties(page, min), Next(page, c));
  }

  /** The next cursor points behind the page, or one entry further for a page of entries at time zero. */
  lemma NextPosition(feed: seq<Entry>, c: Cursor)
    requires Latest(feed) && Sound(feed, c) && Page(feed, c) != []
    ensures var list, page := Visible(feed, c.max), Page(feed, c);
      var next, n := Next(page, c), c.offset + |page| + Extra(page);
      Remaining(feed, next) == (if n <= |list| then list[n..] else []) && (Extra(page) == 0 ==> Sound(feed, next))
  {
    hide Visible, Latest, Page, Remaining, Next, Extra;
    PageShape(feed, c);
    VisibleTimes(feed, c.max);
    PositionInList(feed, c, Visible(feed, c.max), Page(feed, c));
  }

  lemma ExtraMeans(page: seq<Entry>)
    requires page != [] && Latest(page) && forall i :: 0 <= i < |page| ==> page[i].time >= 0
    ensures Extra(page) == 1 <==> page[0].time == 0
  {
    TiesCount(page, 0);
    hide Ties;
  }

  /** Following the cursor continues exactly behind the page if and only if the page does not start at time zero
      or was the last one. */
  lemma NextExact(feed: seq<Entry>, c: Cursor)
    requires Latest(feed) && Sound(feed, c) && Page(feed, c) != []
    ensures var page := Page(feed, c);
      Remaining(feed, Next(page, c)) == Remaining(feed, c)[|page|..] <==> page[0].time != 0 || page == Remaining(feed, c)
  {
    var list, page := Visible(feed, c.max), Page(feed, c);
    var n := c.offset + |page|;
    PageShape(feed, c);
    NextPosition(feed, c);
    VisibleTimes(feed, c.max);
    assert forall i :: 0 <= i < |page| ==> page[i] == list[c.offset + i];
    assert Latest(page);
    hide Visible, Ties, Latest, Next, Page;
    ExtraMeans(page);
    assert Remaining(feed, c) == list[c.offset..];
    if Extra(page) == 1 && n < |list| {
      assert |list[n + 1..]| < |list[n..]|;
    }
  }

  /** All entries read by following the cursor; the k-th request sees the k-th feed. */
  function Walk(feeds: seq<seq<Entry>>, c: Cursor): seq<Entry> {
    if feeds == [] then []
    else
      var page := Page(feeds[0], c);
      if page == [] then [] else page + Walk(feeds[1..], Next(page, c))
  }

  /** Between two requests the feed changes only above the time of the cursor. */
  ghost predicate Growing(feeds: seq<seq<Entry>>, c: Cursor) {
    feeds != [] && Latest(feeds[0]) &&
    var page := Page(feeds[0], c);
    page != [] && |feeds| > 1 ==>
      Visible(feeds[1], Next(page, c).max) == Visible(feeds[0], Next(page, c).max) && Growing(feeds[1..], Next(page, c))
  }

  ghost predicate Positive(feed: seq<Entry>, max: Time) {
    forall e :: e in Visible(feed, max) ==> e.time > 0
  }

  lemma PositiveLower(feed: seq<Entry>, max: Time, min: Time)
    requires min <= max && Positive(feed, max)
    ensures Positive(feed, min)
  {
    VisibleAgain(feed, max, min);
    VisibleFacts(Visible(feed, max), min);
    hide Visible;
  }

  lemma StepOn(feed: seq<Entry>, c: Cursor)
    requires Latest(feed) && Sound(feed, c) && Page(feed, c) != [] && Positive(feed, c.max)
    ensures var page, next := Page(feed, c), Next(Page(feed, c), c);
      && Sound(feed, next) && Positive(feed, next.max)
      && Remaining(feed, c) == page + Remaining(feed, next)
      && (|page| == PAGE || Remaining(feed, next) == [])
  {
    var list, page := Visible(feed, c.max), Page(feed, c);
    PageShape(feed, c);
    NextPosition(feed, c);
    PositiveStart(feed, c);
    VisibleTimes(feed, c.max);
    hide Visible, Latest, Ties, Extra, Positive;
    assert Next(page, c).max <= c.max;
    PositiveLower(feed, c.max, Next(page, c).max);
    hide Sound;
  }

  lemma PositiveStart(feed: seq<Entry>, c: Cursor)
    requires Latest(feed) && Page(feed, c) != [] && Positive(feed, c.max)
    ensures Extra(Page(feed, c)) == 0
  {
    var page := Page(feed, c);
    PageShape(feed, c);
    TiesCount(page, 0);
    assert page[0] in Visible(feed, c.max);
    hide Visible, Latest, Ties;
  }

  lemma SameBelow(a: seq<Entry>, b: seq<Entry>, c: Cursor)
    requires Visible(a, c.max) == Visible(b, c.max) && Sound(a, c) && Positive(a, c.max)
    ensures Sound(b, c) && Positive(b, c.max) && Remaining(b, c) == Remaining(a, c)
  {
    hide Visible;
  }

  lemma {:induction false} WalkReads(feeds: seq<seq<Entry>>, c: Cursor)
    requires Growing(feeds, c) && Sound(feeds[0], c) && Positive(feeds[0], c.max)
    requires |Remaining(feeds[0], c)| <= PAGE * |feeds|
    ensures Walk(feeds, c) == Remaining(feeds[0], c)
    decreases |feeds|
  {
    var page := Page(feeds[0], c);
    if page != [] {
      var next := Next(page, c);
      StepOn(feeds[0], c);
      if |feeds| > 1 {
        hide Visible, Latest, Next, Page, Sound, Positive, Remaining;
        SameBelow(feeds[0], feeds[1], next);
        WalkReads(feeds[1..], next);
      } else {
        hide Growing, Visible, Latest, Next, Page, Sound, Positive, Remaining;
        assert feeds[1..] == [];
        assert Walk([], next) == [];
      }
    }
  }

  /** Pages partition the feed. From offset zero, whatever is published above the cursor between the requests and however
      ties straddle pages, the pages are exactly the entries at or below the start time, latest first, each once; one request
      per two entries reads them all. */
  lemma PagesPartition(feeds: seq<seq<Entry>>, max: Time)
    requires Growing(feeds, Cursor(max, 0)) && Positive(feeds[0], max)
    requires |Visible(feeds[0], max)| <= PAGE * |feeds|
    ensures Walk(feeds, Cursor(max, 0)) == Visible(feeds[0], max)
  {
    hide Visible, Latest, Growing, Walk;
    WalkReads(feeds, Cursor(max, 0));
  }

  /** Publishing above a time leaves everything at or below it in place. */
  lemma {:induction false} PublishedAbove(feed: seq<Entry>, i: nat, e: Entry, max: Time)
    requires i <= |feed| && e.time > max
    ensures Visible(feed[..i] + [e] + feed[i..], max) == Visible(feed, max)
    decreases i
  {
    var grown := feed[..i] + [e] + feed[i..];
    if i == 0 {
      assert grown[1..] == feed;
    } else {
      assert grown[1..] == feed[1..][..i - 1] + [e] + feed[1..][i - 1..];
      PublishedAbove(feed[1..], i - 1, e, max);
    }
  }

  /** With entries at time zero the cursor skips: of three such entries the last is never read. */
  lemma ZeroTimesAreSkipped()
    ensures var feed := [Entry(3, 0), Entry(2, 0), Entry(1, 0)];
      Latest(feed) && Walk([feed, feed, feed], Cursor(0, 0)) == feed[..2]
  {
    var feed := [Entry(3, 0), Entry(2, 0), Entry(1, 0)];
    assert feed[1..] == [Entry(2, 0), Entry(1, 0)] && feed[1..][1..] == [Entry(1, 0)] && feed[1..][1..][1..] == [];
    assert Visible(feed, 0) == feed;
    assert Page(feed, Cursor(0, 0)) == feed[..2];
    assert feed[..2][..1] == [Entry(3, 0)] && [Entry(3, 0)][..0] == [];
    assert Ties([Entry(3, 0)], 0) == 1;
    assert Ties(feed[..2], 0) == 2;
    assert Next(feed[..2], Cursor(0, 0)) == Cursor(0, 3);
    assert Page(feed, Cursor(0, 3)) == [];
    assert [feed, feed, feed][1..] == [feed, feed];
    assert Walk([feed, feed], Cursor(0, 3)) == [];
  }

  // ----------------------------------------------------------- publishing

  /** BlogServiceImpl.saveBlog, the part that fills the feeds. */
  class Feeds {
    var feeds: map<UserId, seq<Entry>>

    constructor ()
      ensures feeds == map[]
    {
      feeds := map[];
    }

    function FeedOf(u: UserId): seq<Entry>
      reads this
    {
      if u in feeds then feeds[u] else []
    }

    /** ZADD of a new member: the first place where its score fits. */
    static method Place(feed: seq<Entry>, e: Entry) returns (i: nat)
      requires Latest(feed)
      ensures i <= |feed| && Latest(feed[..i] + [e] + feed[i..])
    {
      i := 0;
      while i < |feed| && feed[i].time >= e.time
        invariant i <= |feed| && forall k :: 0 <= k < i ==> feed[k].time >= e.time
      {
        i := i + 1;
      }
    }

    /** Adding to one feed leaves the others alone. */
    method Push(f: UserId, e: Entry)
      requires Latest(FeedOf(f))
      modifies this
      ensures forall u :: u != f ==> FeedOf(u) == old(FeedOf(u))
      ensures Received(old(FeedOf(f)), FeedOf(f), e)
    {
      hide Latest, Visible;
      var feed := FeedOf(f);
      var i := Place(feed, e);
      feeds := feeds[f := feed[..i] + [e] + feed[i..]];
      assert feed == feed[..i] + feed[i..];
      forall max | max < e.time
        ensures Visible(FeedOf(f), max) == Visible(feed, max)
      {
        PublishedAbove(feed, i, e, max);
      }
    }

    /** Every follower, and nobody else, gets the blog, each at the time the clock shows then. */
    method Publish(followers: seq<UserId>, blog: BlogId, times: seq<Time>)
      requires forall u :: Latest(FeedOf(u))
      requires NoRepeat(followers) && |times| == |followers|
      modifies this
      ensures forall k :: 0 <= k < |followers| ==>
        Received(old(FeedOf(followers[k])), FeedOf(followers[k]), Entry(blog, times[k]))
      ensures forall u :: u !in followers ==> FeedOf(u) == old(FeedOf(u))
    {
      hide Latest, Received, FeedOf;
      for n := 0 to |followers|
        invariant forall k :: 0 <= k < n ==>
          Received(old(FeedOf(followers[k])), FeedOf(followers[k]), Entry(blog, times[k]))
        invariant forall u :: u !in followers[..n] ==> FeedOf(u) == old(FeedOf(u))
      {
        assert followers[..n + 1] == followers[..n] + [followers[n]];
        assert followers[n] !in followers[..n];
        Push(followers[n], Entry(blog, times[n]));
      }
      assert followers[..|followers|] == followers;
    }
  }

  /** The feed with the entry: once, in order, and with everything at or below an earlier time as it was. */
  ghost predicate Received(before: seq<Entry>, after: seq<Entry>, e: Entry) {
    && Latest(after) && multiset(after) == multiset(before) + multiset{e}
    && forall max :: max < e.time ==> Visible(after, max) == Visible(before, max)
  }
}
