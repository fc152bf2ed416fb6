/** The client's cached calendar: pages merged in, days far from the reference pruned, and the boundary flags. */
module ClientPages {
  import opened Outcomes
  import opened CalendarWindow

  /** The keys of the client calendar, and the directions whose navigation boundary is set. */
  datatype Pages = Pages(calendar: set<Date>, ended: set<Direction>)

  /** A chunk reply, a default page, or the prune at midnight; each request sees the source as it then is. */
  datatype Event =
    | ChunkReply(source: Source, cursor: Date, direction: Direction)
    | WindowReply(source: Source, today: Date)
    | Midnight(reference: Date)

  function Pruned(calendar: set<Date>, reference: Date): set<Date> {
    set d | d in calendar && reference - KEPT_DAYS <= d <= reference + KEPT_DAYS
  }

  function Step(s: Pages, e: Event): Pages {
    match e
    case ChunkReply(source, cursor, direction) =>
      var chunk := Chunk(source, cursor, direction);
      if chunk == {} then s.(ended := s.ended + {direction})
      else Pages(s.calendar + chunk, if |chunk| < CHUNK then s.ended + {direction} else s.ended - {direction})
    case WindowReply(source, today) => s.(calendar := s.calendar + Week(source, today))
    case Midnight(reference) => s.(calendar := Pruned(s.calendar, reference))
  }

  function Run(s: Pages, es: seq<Event>): Pages
    decreases |es|
  {
    if es == [] then s else Run(Step(s, es[0]), es[1..])
  }

  // ---------------------------------------------------------------- contiguity

  ghost predicate Contiguous(s: set<Date>) {
    forall a, b, c :: a in s && c in s && a < b < c ==> b in s
  }

  /** Some day of one lies next to, or in, the other. */
  predicate Touches(s: set<Date>, t: set<Date>) {
    exists a, b :: a in s && b in t && -1 <= a - b <= 1
  }

  /** No day of the calendar lies further in the direction. */
  predicate IsEdge(s: set<Date>, direction: Direction, d: Date) {
    d in s && forall x :: x in s ==> Ahead(d, direction, x) <= 0
  }

  lemma {:induction false} EdgeExists(s: set<Date>, direction: Direction)
    requires s != {}
    ensures exists d :: IsEdge(s, direction, d)
    decreases |s|
  {
    assert (forall y :: y !in s) ==> s == {};
    var x :| x in s;
    if s != {x} {
      var rest := s - {x};
      assert rest != {};
      EdgeExists(rest, direction);
      var d :| IsEdge(rest, direction, d);
      var e := if Ahead(d, direction, x) > 0 then x else d;
      forall y | y in s
        ensures Ahead(e, direction, y) <= 0
      {
        assert y != x ==> y in rest;
      }
      assert IsEdge(s, direction, e);
    } else {
      assert IsEdge(s, direction, x);
    }
  }

  /** Two calendars without gaps join without a gap exactly when they touch. */
  lemma JoinIff(s: set<Date>, t: set<Date>)
    requires Contiguous(s) && Contiguous(t) && s != {} && t != {}
    ensures Contiguous(s + t) <==> Touches(s, t)
  {
    EdgeExists(s, Past);
    EdgeExists(s, Future);
    EdgeExists(t, Past);
    EdgeExists(t, Future);
    var a :| IsEdge(s, Past, a);
    var b :| IsEdge(s, Future, b);
    var c :| IsEdge(t, Past, c);
    var d :| IsEdge(t, Future, d);
    Between(s, a, b);
    Between(t, c, d);
    if b < c - 1 {
      assert b + 1 !in s + t && b in s + t && c in s + t;
    } else if d < a - 1 {
      assert d + 1 !in s + t && d in s + t && a in s + t;
    } else {
      assert Touches(s, t) by {
        var x := if b < c then b else if d < a then a else if a < c then c else a;
        var y := if b < c then c else if d < a then d else if a < c then c else a;
        assert x in s && y in t;
      }
      assert forall x :: x in s + t <==> (if a < c then a else c) <= x <= (if b < d then d else b);
    }
  }

  lemma Between(s: set<Date>, a: Date, b: Date)
    requires Contiguous(s) && IsEdge(s, Past, a) && IsEdge(s, Future, b)
    ensures forall x :: x in s <==> a <= x <= b
  {
  }

  lemma ChunkContiguous(source: Source, cursor: Date, direction: Direction)
    ensures Contiguous(Chunk(source, cursor, direction))
  {
  }

  /** A chunk fetched from the current edge touches the calendar. */
  lemma EdgeChunkTouches(source: Source, s: set<Date>, cursor: Date, direction: Direction)
    requires IsEdge(s, direction, cursor) && Chunk(source, cursor, direction) != {}
    ensures Touches(s, Chunk(source, cursor, direction))
  {
    var d :| d in Chunk(source, cursor, direction);
    var next := Nth(cursor, direction, 1);
    assert Reached(source, cursor, direction, next);
    assert cursor in s && next in Chunk(source, cursor, direction);
  }

  lemma PruneContiguous(s: set<Date>, reference: Date)
    requires Contiguous(s)
    ensures Contiguous(Pruned(s, reference))
  {
  }

  /** The reply fits the calendar it arrives at: a chunk whose cursor is still its edge, or a default page without
      a gap that touches it. */
  ghost predicate Fits(s: Pages, e: Event) {
    match e
    case ChunkReply(_, cursor, direction) => IsEdge(s.calendar, direction, cursor)
    case WindowReply(source, today) =>
      Contiguous(Week(source, today)) && (s.calendar == {} || Week(source, today) == {} || Touches(s.calendar, Week(source, today)))
    case Midnight(_) => true
  }

  ghost predicate AllFit(s: Pages, es: seq<Event>)
    decreases |es|
  {
    es == [] || (Fits(s, es[0]) && AllFit(Step(s, es[0]), es[1..]))
  }

  lemma FitKeepsContiguous(s: Pages, e: Event)
    requires Contiguous(s.calendar) && Fits(s, e)
    ensures Contiguous(Step(s, e).calendar)
  {
    match e
    case ChunkReply(source, cursor, direction) =>
      var chunk := Chunk(source, cursor, direction);
      if chunk != {} {
        ChunkContiguous(source, cursor, direction);
        EdgeChunkTouches(source, s.calendar, cursor, direction);
        JoinIff(s.calendar, chunk);
      }
    case WindowReply(source, today) =>
      var week := Week(source, today);
      if s.calendar == {} {
        assert s.calendar + week == week;
      } else if week == {} {
        assert s.calendar + week == s.calendar;
      } else {
        JoinIff(s.calendar, week);
      }
    case Midnight(reference) => PruneContiguous(s.calendar, reference);
  }

  /** Whatever the sources answer, a calendar without gaps stays so over any run of replies that fit. */
  lemma {:induction false} RunContiguous(s: Pages, es: seq<Event>)
    requires Contiguous(s.calendar) && AllFit(s, es)
    ensures Contiguous(Run(s, es).calendar)
    decreases |es|
  {
    if es != [] {
      FitKeepsContiguous(s, es[0]);
      RunContiguous(Step(s, es[0]), es[1..]);
    }
  }

  /** A chunk asked for from any other day leaves a gap exactly when it does not touch the calendar. */
  lemma StaleChunkIff(s: Pages, source: Source, cursor: Date, direction: Direction)
    requires Contiguous(s.calendar) && s.calendar != {} && Chunk(source, cursor, direction) != {}
    ensures Contiguous(Step(s, ChunkReply(source, cursor, direction)).calendar)
            <==> Touches(s.calendar, Chunk(source, cursor, direction))
  {
    ChunkContiguous(source, cursor, direction);
    JoinIff(s.calendar, Chunk(source, cursor, direction));
  }

  lemma MissedEdgeLeavesGap(s: Pages, source: Source, cursor: Date, direction: Direction, reference: Date)
    requires IsEdge(s.calendar, direction, cursor) && source(Nth(cursor, direction, 1)).Some?
    requires Pruned(s.calendar, reference) != {} && cursor !in Pruned(s.calendar, reference)
    ensures !Contiguous(Step(Step(s, Midnight(reference)), ChunkReply(source, cursor, direction)).calendar)
  {
    var u := Step(s, Midnight(reference));
    var t := Step(u, ChunkReply(source, cursor, direction));
    var next := Nth(cursor, direction, 1);
    assert Available(source, cursor, direction, CHUNK) >= 1;
    assert Reached(source, cursor, direction, next);
    assert next in Chunk(source, cursor, direction);
    EdgeExists(u.calendar, direction);
    var d :| IsEdge(u.calendar, direction, d);
    assert next in t.calendar && d in t.calendar && cursor !in t.calendar;
  }

  lemma NoChunkBeyond(source: Source, cursor: Date, direction: Direction)
    requires source(Nth(cursor, direction, 1)) == None
    ensures Chunk(source, cursor, direction) == {}
  {
  }

  /** When a midnight prune comes between a request from the calendar's edge and its reply, the calendar stays without a
      gap exactly when the reply brings nothing, the edge survived the prune or nothing did. */
  lemma GapAcrossMidnightIff(s: Pages, source: Source, cursor: Date, direction: Direction, reference: Date)
    requires Contiguous(s.calendar) && IsEdge(s.calendar, direction, cursor)
    ensures var left := Pruned(s.calendar, reference);
            Contiguous(Step(Step(s, Midnight(reference)), ChunkReply(source, cursor, direction)).calendar) <==>
              Chunk(source, cursor, direction) == {} || left == {} || cursor in left
  {
    var u, chunk := Step(s, Midnight(reference)), Chunk(source, cursor, direction);
    PruneContiguous(s.calendar, reference);
    if chunk != {} {
      ChunkContiguous(source, cursor, direction);
      if u.calendar == {} {
        assert u.calendar + chunk == chunk;
      } else if cursor in u.calendar {
        EdgeChunkTouches(source, u.calendar, cursor, direction);
        JoinIff(u.calendar, chunk);
      } else {
        if source(Nth(cursor, direction, 1)) == None {
          NoChunkBeyond(source, cursor, direction);
        }
        MissedEdgeLeavesGap(s, source, cursor, direction, reference);
      }
    }
  }

  // ---------------------------------------------------------------- boundary flags

  /** A set flag means the day beyond the calendar's edge is unavailable, and an empty calendar has no flags. */
  ghost predicate Sound(source: Source, s: Pages) {
    && (s.calendar == {} ==> s.ended == {})
    && (forall d :: d in s.calendar ==> source(d).Some?)
    && (forall direction, d :: direction in s.ended && IsEdge(s.calendar, direction, d) ==>
          source(Nth(d, direction, 1)) == None)
  }

  lemma {:induction false} IntervalSize(s: set<Date>, lo: Date, n: nat)
    requires forall d :: d in s <==> lo <= d < lo + n
    ensures |s| == n
    decreases n
  {
    if n == 0 {
      assert forall d :: d !in s;
      assert s == {};
    } else {
      IntervalSize(s - {lo + n - 1}, lo, n - 1);
    }
  }

  lemma ChunkSize(source: Source, cursor: Date, direction: Direction)
    ensures |Chunk(source, cursor, direction)| == Available(source, cursor, direction, CHUNK)
  {
    var n := Available(source, cursor, direction, CHUNK);
    IntervalSize(Chunk(source, cursor, direction), if direction == Future then cursor + 1 else cursor - n, n);
  }

  lemma ChunkEdge(source: Source, s: set<Date>, cursor: Date, direction: Direction)
    requires IsEdge(s, direction, cursor)
    ensures var n := Available(source, cursor, direction, CHUNK);
            IsEdge(s + Chunk(source, cursor, direction), direction, Nth(cursor, direction, n))
  {
    var n := Available(source, cursor, direction, CHUNK);
    var d := Nth(cursor, direction, n);
    assert n > 0 ==> Reached(source, cursor, direction, d);
  }

  lemma ChunkOtherEdge(source: Source, s: set<Date>, cursor: Date, direction: Direction, way: Direction, d: Date)
    requires IsEdge(s, direction, cursor) && way != direction && IsEdge(s + Chunk(source, cursor, direction), way, d)
    ensures IsEdge(s, way, d)
  {
    assert cursor in s + Chunk(source, cursor, direction);
  }

  lemma EdgeUnique(s: set<Date>, direction: Direction, d: Date, e: Date)
    requires IsEdge(s, direction, d) && IsEdge(s, direction, e)
    ensures d == e
  {
  }

  lemma ChunkKeepsSound(source: Source, s: Pages, cursor: Date, direction: Direction)
    requires Sound(source, s) && IsEdge(s.calendar, direction, cursor)
    ensures Sound(source, Step(s, ChunkReply(source, cursor, direction)))
  {
    var t := Step(s, ChunkReply(source, cursor, direction));
    var chunk, n := Chunk(source, cursor, direction), Available(source, cursor, direction, CHUNK);
    var edge := Nth(cursor, direction, n);
    ChunkSize(source, cursor, direction);
    ChunkEdge(source, s.calendar, cursor, direction);
    assert chunk == {} ==> s.calendar + chunk == s.calendar;
    assert t.calendar == s.calendar + chunk;
    assert t.ended == if n < CHUNK then s.ended + {direction} else s.ended - {direction};
    assert n < CHUNK ==> source(Nth(cursor, direction, n + 1)) == None;
    assert Nth(edge, direction, 1) == Nth(cursor, direction, n + 1);
    forall x | x in chunk
      ensures source(x).Some?
    {
      assert x == Nth(cursor, direction, Ahead(cursor, direction, x));
    }
    forall way, d | way in t.ended && IsEdge(t.calendar, way, d)
      ensures source(Nth(d, way, 1)) == None
    {
      if way == direction {
        EdgeUnique(t.calendar, way, d, edge);
      } else {
        ChunkOtherEdge(source, s.calendar, cursor, direction, way, d);
      }
    }
  }

  lemma WindowEdge(s: set<Date>, week: set<Date>, way: Direction, e: Date, d: Date)
    requires Contiguous(week) && (week == {} || Touches(s, week))
    requires IsEdge(s, way, e) && IsEdge(s + week, way, d)
    ensures d == e || Nth(e, way, 1) in week
  {
    if d != e {
      assert d in week;
      var a, b :| a in s && b in week && -1 <= a - b <= 1;
      assert Ahead(e, way, d) > 0 && Ahead(e, way, b) <= 1;
    }
  }

  lemma WindowKeepsSound(source: Source, s: Pages, today: Date)
    requires Sound(source, s) && Fits(s, WindowReply(source, today))
    ensures Sound(source, Step(s, WindowReply(source, today)))
  {
    var week := Week(source, today);
    var t := Step(s, WindowReply(source, today));
    forall way, d | way in t.ended && IsEdge(t.calendar, way, d)
      ensures source(Nth(d, way, 1)) == None
    {
      EdgeExists(s.calendar, way);
      var e :| IsEdge(s.calendar, way, e);
      WindowEdge(s.calendar, week, way, e, d);
    }
  }

  /** Pruning keeps a set flag true exactly when it leaves the edge the flag was about. */
  lemma FlagAfterMidnightIff(source: Source, s: Pages, reference: Date, direction: Direction, edge: Date, left: Date)
    requires Sound(source, s) && Contiguous(s.calendar) && direction in s.ended
    requires IsEdge(s.calendar, direction, edge) && IsEdge(Pruned(s.calendar, reference), direction, left)
    ensures source(Nth(left, direction, 1)) == None <==> edge in Pruned(s.calendar, reference)
  {
    if edge in Pruned(s.calendar, reference) {
      assert left == edge;
    } else {
      var next := Nth(left, direction, 1);
      assert Ahead(left, direction, edge) > 0;
      assert next in s.calendar;
    }
  }

  /** One source throughout, replies that fit, and no prune that takes away an edge with its flag set. */
  ghost predicate SparesFlags(source: Source, s: Pages, e: Event) {
    match e
    case ChunkReply(asked, _, _) => asked == source && Fits(s, e)
    case WindowReply(asked, _) => asked == source && Fits(s, e)
    case Midnight(reference) =>
      forall direction, d :: direction in s.ended && IsEdge(s.calendar, direction, d) ==> d in Pruned(s.calendar, reference)
  }

  ghost predicate AllSteady(source: Source, s: Pages, es: seq<Event>)
    decreases |es|
  {
    es == [] || (SparesFlags(source, s, es[0]) && AllSteady(source, Step(s, es[0]), es[1..]))
  }

  lemma MidnightKeepsSound(source: Source, s: Pages, reference: Date)
    requires Sound(source, s) && Contiguous(s.calendar) && SparesFlags(source, s, Midnight(reference))
    ensures Sound(source, Step(s, Midnight(reference)))
  {
    var t := Step(s, Midnight(reference));
    forall way | way in s.ended
      ensures exists d :: IsEdge(s.calendar, way, d) && d in t.calendar
    {
      EdgeExists(s.calendar, way);
    }
    forall way, d | way in t.ended && IsEdge(t.calendar, way, d)
      ensures source(Nth(d, way, 1)) == None
    {
      var e :| IsEdge(s.calendar, way, e) && e in t.calendar;
      FlagAfterMidnightIff(source, s, reference, way, e, d);
    }
  }

  /** Over such a run a set boundary flag is never wrong: there is no day beyond that edge. */
  lemma {:induction false} FlagsSound(source: Source, s: Pages, es: seq<Event>)
    requires Sound(source, s) && Contiguous(s.calendar) && AllSteady(source, s, es)
    ensures Sound(source, Run(s, es)) && Contiguous(Run(s, es).calendar)
    decreases |es|
  {
    if es != [] {
      var e := es[0];
      FitKeepsContiguous(s, e);
      match e {
        case ChunkReply(_, cursor, direction) => ChunkKeepsSound(source, s, cursor, direction);
        case WindowReply(_, today) => WindowKeepsSound(source, s, today);
        case Midnight(reference) => MidnightKeepsSound(source, s, reference);
      }
      FlagsSound(source, Step(s, e), es[1..]);
    }
  }
}
