/** The calendar pages of getPrayerCalendarWindow and the client calendar they are merged into. */
module CalendarWindow {
  import opened Outcomes
  import opened IqamahRule
  import PrayerCache

  type Date = PrayerCache.Date
  type Rows = map<Prayer, Row>

  /** The rows each day gets in one request; None where fetching or building them throws. */
  type Source = Date -> Option<Rows>

  /** What the k-th awaited call of a request answers for a day. Availability may change between the calls, but a
      request asks for each day at most once, so its answers make a Source. */
  type Answers = (nat, Date) -> Option<Rows>

  datatype Direction = Past | Future

  const CHUNK := 7
  const KEPT_DAYS := 30

  /** The k-th day from the cursor in the direction. */
  function Nth(cursor: Date, direction: Direction, k: int): Date {
    if direction == Future then cursor + k else cursor - k
  }

  /** How many days ahead of the cursor a day lies. */
  function Ahead(cursor: Date, direction: Direction, d: Date): int {
    if direction == Future then d - cursor else cursor - d
  }

  // ---------------------------------------------------------------- the server's pages

  function Reversed(entries: seq<(Date, Rows)>): seq<(Date, Rows)> {
    seq(|entries|, i requires 0 <= i < |entries| => entries[|entries| - 1 - i])
  }

  function Dates(entries: seq<(Date, Rows)>): set<Date> {
    set e | e in entries :: e.0
  }

  ghost predicate OutwardSoFar(source: Source, cursor: Date, direction: Direction, entries: seq<(Date, Rows)>) {
    forall i :: 0 <= i < |entries| ==>
      entries[i].0 == Nth(cursor, direction, i + 1) && source(entries[i].0) == Some(entries[i].1)
  }

  predicate Ascending(entries: seq<(Date, Rows)>, first: Date) {
    forall i :: 0 <= i < |entries| ==> entries[i].0 == first + i
  }

  /** Consecutive available days outward from the cursor, up to the limit or the first unavailable one. */
  ghost predicate Outward(source: Source, cursor: Date, direction: Direction, entries: seq<(Date, Rows)>) {
    && |entries| <= CHUNK
    && OutwardSoFar(source, cursor, direction, entries)
    && (|entries| < CHUNK ==> source(Nth(cursor, direction, |entries| + 1)) == None)
  }

  /** The k-th day of a chunk is asked for by its k-th call. */
  function Heard(answers: Answers, cursor: Date, direction: Direction): Source {
    (d: Date) => if Ahead(cursor, direction, d) >= 1 then answers(Ahead(cursor, direction, d) - 1, d) else None
  }

  /** In date order, at most seven consecutive days next to the cursor, each as the call that asked for it answered, the
      nearest first, and fewer only if the next call had no answer. */
  ghost predicate AnsweredRight(answers: Answers, cursor: Date, direction: Direction, entries: seq<(Date, Rows)>) {
    && |entries| <= 7
    && (forall i :: 0 <= i < |entries| ==>
          && entries[i].0 == (if direction == Future then cursor + 1 + i else cursor - |entries| + i)
          && answers(if direction == Future then i else |entries| - 1 - i, entries[i].0) == Some(entries[i].1))
    && (|entries| < 7 ==>
          answers(|entries|, if direction == Future then cursor + |entries| + 1 else cursor - |entries| - 1) == None)
  }

  lemma OutwardAnswered(answers: Answers, cursor: Date, direction: Direction, entries: seq<(Date, Rows)>)
    requires Outward(Heard(answers, cursor, direction), cursor, direction, entries)
    ensures AnsweredRight(answers, cursor, direction, if direction == Past then Reversed(entries) else entries)
  {
    var reply := if direction == Past then Reversed(entries) else entries;
    forall i | 0 <= i < |reply|
      ensures reply[i].0 == (if direction == Future then cursor + 1 + i else cursor - |reply| + i)
      ensures answers(if direction == Future then i else |reply| - 1 - i, reply[i].0) == Some(reply[i].1)
    {
      var k := if direction == Future then i else |reply| - 1 - i;
      assert reply[i] == entries[k] && entries[k].0 == Nth(cursor, direction, k + 1);
    }
  }

  /** The entries of a chunk in the order of the reply: at most seven consecutive days up to the first
      unavailable one, ascending in either direction. */
  method DirectionalWindow(answers: Answers, cursor: Date, direction: Direction) returns (entries: seq<(Date, Rows)>)
    ensures var source := Heard(answers, cursor, direction);
            && Outward(source, cursor, direction, if direction == Past then Reversed(entries) else entries)
            && Dates(entries) == Chunk(source, cursor, direction)
    ensures Ascending(entries, if direction == Future then cursor + 1 else cursor - |entries|)
    ensures AnsweredRight(answers, cursor, direction, entries)
  {
    ghost var source := Heard(answers, cursor, direction);
    entries := [];
    var date := if direction == Past then cursor - 1 else cursor + 1;
    var offset := 0;
    while offset < CHUNK
      invariant 0 <= offset == |entries| <= CHUNK
      invariant date == Nth(cursor, direction, |entries| + 1)
      invariant OutwardSoFar(source, cursor, direction, entries)
    {
      var rows := answers(offset, date);
      assert Ahead(cursor, direction, date) == offset + 1 && source(date) == rows;
      if rows == None {
        break;
      }
      entries := entries + [(date, rows.value)];
      date := if direction == Past then date - 1 else date + 1;
      offset := offset + 1;
    }
    ChunkIs(source, cursor, direction, entries);
    OutwardAscends(source, cursor, direction, entries);
    OutwardAnswered(answers, cursor, direction, entries);
    if direction == Past {
      entries := Reversed(entries);
    }
  }

  lemma OutwardAscends(source: Source, cursor: Date, direction: Direction, entries: seq<(Date, Rows)>)
    requires Outward(source, cursor, direction, entries)
    ensures direction == Future ==> Ascending(entries, cursor + 1)
    ensures direction == Past ==> Ascending(Reversed(entries), cursor - |entries|)
    ensures Reversed(Reversed(entries)) == entries
    ensures Dates(Reversed(entries)) == Dates(entries)
  {
    var back := Reversed(entries);
    assert forall i :: 0 <= i < |entries| ==> entries[i] == back[|entries| - 1 - i];
    assert forall e :: e in back <==> e in entries;
  }

  /** The days of the default page: every available one from a week before today to a week after. Each of the
      fifteen days is asked for once, so a source stands for the answers of the request. */
  method DefaultWindow(source: Source, today: Date) returns (calendar: map<Date, Rows>)
    ensures calendar.Keys == Week(source, today)
    ensures forall d :: d in calendar <==> today - 7 <= d <= today + 7 && source(d).Some?
    ensures forall d :: d in calendar ==> source(d) == Some(calendar[d])
  {
    var startDate := today - 7;
    calendar := map[];
    for offset := 0 to 15
      invariant forall d :: d in calendar <==> startDate <= d < startDate + offset && source(d).Some?
      invariant forall d :: d in calendar ==> source(d) == Some(calendar[d])
    {
      var date := startDate + offset;
      var rows := source(date);
      if rows == None {
        continue;
      }
      calendar := calendar[date := rows.value];
    }
  }

  function Week(source: Source, today: Date): set<Date> {
    set d: Date | today - 7 <= d <= today + 7 && source(d).Some?
  }

  /** Days before the first unavailable one, at most `limit`. */
  function Available(source: Source, cursor: Date, direction: Direction, limit: nat): (n: nat)
    ensures n <= limit
    ensures forall k :: 1 <= k <= n ==> source(Nth(cursor, direction, k)).Some?
    ensures n < limit ==> source(Nth(cursor, direction, n + 1)) == None
  {
    if limit == 0 then 0
    else
      var n := Available(source, cursor, direction, limit - 1);
      if n == limit - 1 && source(Nth(cursor, direction, limit)).Some? then limit else n
  }

  predicate Reached(source: Source, cursor: Date, direction: Direction, d: Date) {
    1 <= Ahead(cursor, direction, d) <= Available(source, cursor, direction, CHUNK)
  }

  function Chunk(source: Source, cursor: Date, direction: Direction): set<Date> {
    set d: Date | cursor - CHUNK <= d <= cursor + CHUNK && Reached(source, cursor, direction, d)
  }

  lemma AvailableIs(source: Source, cursor: Date, direction: Direction, limit: nat, n: nat)
    requires n <= limit
    requires forall k :: 1 <= k <= n ==> source(Nth(cursor, direction, k)).Some?
    requires n < limit ==> source(Nth(cursor, direction, n + 1)) == None
    ensures n == Available(source, cursor, direction, limit)
  {
  }

  lemma ChunkIs(source: Source, cursor: Date, direction: Direction, entries: seq<(Date, Rows)>)
    requires Outward(source, cursor, direction, entries)
    ensures Dates(entries) == Chunk(source, cursor, direction)
  {
    forall k | 1 <= k <= |entries|
      ensures source(Nth(cursor, direction, k)).Some?
    {
      assert entries[k - 1].0 == Nth(cursor, direction, k);
    }
    AvailableIs(source, cursor, direction, CHUNK, |entries|);
    forall d
      ensures d in Chunk(source, cursor, direction) <==> d in Dates(entries)
    {
      if Reached(source, cursor, direction, d) {
        var i := Ahead(cursor, direction, d) - 1;
        assert entries[i].0 == d && entries[i] in entries;
      }
    }
  }

  // ---------------------------------------------------------------- paging

  function Days(cursor: Date, direction: Direction, n: nat): (r: seq<Date>)
    ensures |r| == n && forall i :: 0 <= i < n ==> r[i] == Nth(cursor, direction, i + 1)
  {
    seq(n, k requires 0 <= k < n => Nth(cursor, direction, k + 1))
  }

  /** Days reached by `pages` requests that each use the far edge of the one before as their cursor, nearest first. */
  function Paged(source: Source, cursor: Date, direction: Direction, pages: nat): seq<Date>
    decreases pages
  {
    if pages == 0 then []
    else
      var n := Available(source, cursor, direction, CHUNK);
      if n == 0 then []
      else Days(cursor, direction, n) + Paged(source, Nth(cursor, direction, n), direction, pages - 1)
  }

  lemma NthShift(cursor: Date, direction: Direction, a: nat, k: int)
    ensures Nth(Nth(cursor, direction, a), direction, k) == Nth(cursor, direction, a + k)
  {
  }

  lemma AvailableSplit(source: Source, cursor: Date, direction: Direction, a: nat, b: nat)
    ensures var n := Available(source, cursor, direction, a);
            Available(source, cursor, direction, a + b) ==
              if n < a then n else a + Available(source, Nth(cursor, direction, a), direction, b)
  {
    var n := Available(source, cursor, direction, a);
    if n < a {
      AvailableIs(source, cursor, direction, a + b, n);
    } else {
      var edge := Nth(cursor, direction, a);
      var m := Available(source, edge, direction, b);
      forall k | 1 <= k <= a + m
        ensures source(Nth(cursor, direction, k)).Some?
      {
        if k > a {
          NthShift(cursor, direction, a, k - a);
          assert source(Nth(edge, direction, k - a)).Some?;
        }
      }
      NthShift(cursor, direction, a, m + 1);
      AvailableIs(source, cursor, direction, a + b, a + m);
    }
  }

  lemma DaysAppend(cursor: Date, direction: Direction, n: nat, rest: seq<Date>)
    requires forall i :: 0 <= i < |rest| ==> rest[i] == Nth(Nth(cursor, direction, n), direction, i + 1)
    ensures Days(cursor, direction, n) + rest == Days(cursor, direction, n + |rest|)
  {
  }

  lemma NothingBeyond(source: Source, edge: Date, direction: Direction, limit: nat)
    requires source(Nth(edge, direction, 1)) == None
    ensures Available(source, edge, direction, limit) == 0
  {
    AvailableIs(source, edge, direction, limit, 0);
  }

  lemma AvailableByPages(source: Source, cursor: Date, direction: Direction, page: nat, later: nat)
    ensures var n := Available(source, cursor, direction, page);
            Available(source, cursor, direction, page + later) ==
              n + if n == 0 < page then 0 else Available(source, Nth(cursor, direction, n), direction, later)
  {
    var n := Available(source, cursor, direction, page);
    AvailableSplit(source, cursor, direction, page, later);
    if n < page {
      var edge := Nth(cursor, direction, n);
      assert source(Nth(edge, direction, 1)) == None by {
        assert source(Nth(cursor, direction, n + 1)) == None;
      }
      NothingBeyond(source, edge, direction, later);
    }
  }

  /** Paging tiles time: the pages enumerate the days from the cursor on, each once and none left out, exactly
      up to the first unavailable day or the end of the last page. */
  lemma {:induction false} PagingTiles(source: Source, cursor: Date, direction: Direction, pages: nat)
    ensures Paged(source, cursor, direction, pages) ==
              Days(cursor, direction, Available(source, cursor, direction, CHUNK * pages))
    decreases pages
  {
    if pages > 0 {
      var n := Available(source, cursor, direction, CHUNK);
      AvailableByPages(source, cursor, direction, CHUNK, CHUNK * (pages - 1));
      assert CHUNK + CHUNK * (pages - 1) == CHUNK * pages;
      if 0 < n {
        var edge := Nth(cursor, direction, n);
        PagingTiles(source, edge, direction, pages - 1);
        DaysAppend(cursor, direction, n, Days(edge, direction, Available(source, edge, direction, CHUNK * (pages - 1))));
      }
    }
  }
}
