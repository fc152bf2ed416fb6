/** What a visitor's clicks come to: the day a navigation, a reset or a sync leads to, in one step and over runs. */
module ClientNavigation {
  import opened Outcomes
  import opened CalendarWindow
  import P = ClientPages
  import opened ClientCalendar

  /** One commit timer is armed, for this day, and this day is on display as the one to come. */
  predicate OnItsWay(t: Transitions, timer: nat, day: Date) {
    t.timers == map[timer := day] && t.timerRef == Some(timer) && t.guard && t.shown && t.date == Some(day)
  }

  /** The day beyond which the calendar has none, in the direction of delta. */
  ghost predicate FarthestDay(calendar: set<Date>, delta: int, day: Date) {
    day in calendar && forall d :: d in calendar ==> if delta > 0 then d <= day else day <= d
  }

  // ---------------------------------------------------------------- a click

  /** A click while nothing is in view, in no direction, or during a transition changes nothing. */
  lemma NavigateIgnored(h: Hook, delta: int)
    requires Inv(h) && (h.view.viewed == None || delta == 0 || h.transitions.guard)
    ensures var t := Step(h, Navigate(delta));
            t.transitions == h.transitions && t.requests == h.requests && t.pages == h.pages && t.view == h.view
  {
  }

  /** Any other click counts, and asks for no page; towards a day the calendar has it starts the transition to just that
      day and requests nothing. */
  lemma NavigateToCachedDay(h: Hook, delta: int)
    requires Inv(h) && h.view.viewed.Some? && delta != 0 && !h.transitions.guard
    requires h.view.viewed.value + delta in h.pages.calendar
    ensures var t := Step(h, Navigate(delta));
            && OnItsWay(t.transitions, h.transitions.nextTimer, h.view.viewed.value + delta)
            && t.requests == h.requests.(navigation := h.requests.navigation + 1)
            && t.view == h.view && t.pages == h.pages && t.refs == h.refs
  {
  }

  lemma CommitOnlyRequests(h: Hook, q: Requests)
    ensures Committed(h, h.(requests := q)) == h.(requests := q)
  {
  }

  /** Towards a day the calendar lacks, at a boundary or without any calendar, it only counts. */
  lemma NavigateAtBoundary(h: Hook, delta: int)
    requires Inv(h) && h.view.viewed.Some? && delta != 0 && !h.transitions.guard
    requires h.view.viewed.value + delta !in h.pages.calendar
    requires (if delta > 0 then Future else Past) in h.pages.ended || h.pages.calendar == {}
    ensures Step(h, Navigate(delta)) == h.(requests := h.requests.(navigation := h.requests.navigation + 1))
  {
    CommitOnlyRequests(h, NextNavigation(h.requests));
  }

  /** Towards any other day the calendar lacks it starts no transition but requests one chunk, beyond the farthest day of
      that direction, and remembers where it came from and where it goes. */
  lemma NavigateBeyondCalendar(h: Hook, delta: int)
    requires Inv(h) && h.view.viewed.Some? && delta != 0 && !h.transitions.guard
    requires h.view.viewed.value + delta !in h.pages.calendar && h.pages.calendar != {}
    requires (if delta > 0 then Future else Past) !in h.pages.ended
    ensures var t := Step(h, Navigate(delta));
            && t == h.(requests := t.requests)
            && t.requests.navigation == h.requests.navigation + 1 && t.requests.fetches == h.requests.fetches
            && t.requests.chunks.Keys == h.requests.chunks.Keys + {h.requests.nextId}
            && var chunk := t.requests.chunks[h.requests.nextId];
               && chunk.direction == (if delta > 0 then Future else Past) && FarthestDay(h.pages.calendar, delta, chunk.cursor)
               && chunk.origin == h.view.viewed.value && chunk.target == h.view.viewed.value + delta
               && chunk.request == h.requests.navigation + 1 && !chunk.aborted
  {
    var fetch := ChunkFor(h, h.view.viewed.value, delta);
    CommitOnlyRequests(h, ChunkStarted(NextNavigation(h.requests), fetch));
    ChunkIsAdded(h.requests, fetch);
    assert P.IsEdge(h.pages.calendar, Towards(delta), fetch.cursor);
  }

  lemma ChunkIsAdded(q: Requests, fetch: ChunkFetch)
    ensures var r := ChunkStarted(NextNavigation(q), fetch);
            && r.navigation == q.navigation + 1 && r.fetches == q.fetches
            && r.chunks.Keys == q.chunks.Keys + {q.nextId} && r.chunks[q.nextId] == fetch
  {
    AbortSize(NextNavigation(q));
  }

  // ---------------------------------------------------------------- its end

  /** When the timer goes off, the day it was armed for is on view and the transition over. */
  lemma TimerTakesView(h: Hook, timer: nat)
    requires Inv(h) && timer in h.transitions.timers
    ensures var t := Step(h, TransitionOver(timer));
            && t.view.viewed == Some(h.transitions.timers[timer]) && t.view.ref == t.view.viewed
            && t.transitions.timers == map[] && !t.transitions.guard && !t.transitions.shown && t.transitions.date == None
            && t.requests == h.requests && t.pages == h.pages && t.refs == h.refs
  {
  }

  lemma TimerStays(h: Hook, e: Event, timer: nat)
    requires Inv(h) && Enabled(h, e) && timer < h.transitions.nextTimer
    requires timer in Step(h, e).transitions.timers
    ensures timer in h.transitions.timers && Step(h, e).transitions.timers[timer] == h.transitions.timers[timer]
  {
  }

  lemma TimersOnlyGrow(h: Hook, e: Event)
    requires Inv(h) && Enabled(h, e)
    ensures h.transitions.nextTimer <= Step(h, e).transitions.nextTimer
  {
  }

  /** An armed timer never changes its day: a number is given once. */
  lemma {:induction false} TimerKeepsDay(h: Hook, es: seq<Event>, timer: nat)
    requires Inv(h) && IsRun(h, es) && timer < h.transitions.nextTimer
    requires timer in After(h, es).transitions.timers
    ensures timer in h.transitions.timers && After(h, es).transitions.timers[timer] == h.transitions.timers[timer]
    ensures Inv(After(h, es))
    decreases |es|
  {
    if es != [] {
      StepKeepsInv(h, es[0]);
      TimersOnlyGrow(h, es[0]);
      TimerKeepsDay(Step(h, es[0]), es[1..], timer);
      TimerStays(h, es[0], timer);
    }
  }

  /** Over runs: whatever happens after a click towards a day the calendar has, if its timer still goes off the view moves
      by exactly delta. */
  lemma ClickMovesByDelta(h: Hook, delta: int, es: seq<Event>)
    requires Inv(h) && h.view.viewed.Some? && delta != 0 && !h.transitions.guard
    requires h.view.viewed.value + delta in h.pages.calendar && IsRun(Step(h, Navigate(delta)), es)
    requires h.transitions.nextTimer in After(Step(h, Navigate(delta)), es).transitions.timers
    ensures var g, over := After(Step(h, Navigate(delta)), es), TransitionOver(h.transitions.nextTimer);
            && Enabled(g, over)
            && Step(g, over).view.viewed == Some(h.view.viewed.value + delta)
            && !Step(g, over).transitions.guard && !Step(g, over).transitions.shown
  {
    NavigateToCachedDay(h, delta);
    StepKeepsInv(h, Navigate(delta));
    ClickArms(h, delta);
    TimerKeepsDay(Step(h, Navigate(delta)), es, h.transitions.nextTimer);
    TimerTakesView(After(Step(h, Navigate(delta)), es), h.transitions.nextTimer);
  }

  lemma ClickArms(h: Hook, delta: int)
    requires Inv(h) && h.view.viewed.Some? && delta != 0 && !h.transitions.guard
    requires h.view.viewed.value + delta in h.pages.calendar
    ensures Step(h, Navigate(delta)).transitions.nextTimer == h.transitions.nextTimer + 1
  {
  }

  // ---------------------------------------------------------------- back to the reference day

  /** The hook's reference date: the latest known, else the observer's, else the clock's. */
  function Reference(r: References): Date {
    if r.initial.Some? then r.initial.value else if r.observed.Some? then r.observed.value else r.today
  }

  /** A reset starts the transition to the reference day, unless that is on view or a transition is under way. */
  lemma ResetSays(h: Hook)
    requires Inv(h)
    ensures var t := Step(h, Reset);
            && t.view == h.view && t.pages == h.pages && t.refs == h.refs
            && if h.view.viewed == Some(Reference(h.refs)) || h.transitions.guard
               then t.transitions == h.transitions && t.requests == h.requests
               else OnItsWay(t.transitions, h.transitions.nextTimer, Reference(h.refs))
                    && t.requests == h.requests.(navigation := h.requests.navigation + 1)
  {
  }

  /** A sync shows the reference day at once, ends whatever transition there was and overtakes every navigation. */
  lemma SyncSays(h: Hook)
    requires Inv(h)
    ensures var t := Step(h, Sync);
            && t.view.viewed == Some(Reference(h.refs)) && t.view.ref == t.view.viewed && t.view.idle == None
            && t.transitions.timers == map[] && !t.transitions.guard && !t.transitions.shown && t.transitions.date == None
            && t.requests == h.requests.(navigation := h.requests.navigation + 1) && t.pages == h.pages && t.refs == h.refs
  {
  }

  // ---------------------------------------------------------------- replies and midnights

  /** `latest` is the later of two dates that may be unknown. */
  predicate LatestOf(a: Option<Date>, b: Option<Date>, latest: Option<Date>) {
    && (latest == a || latest == b) && (latest == None ==> a == None && b == None)
    && (a.Some? && latest.Some? ==> a.value <= latest.value) && (b.Some? && latest.Some? ==> b.value <= latest.value)
  }

  /** The reference date a reply is compared with: the present one, else the one its request closed over. */
  function Known(h: Hook, id: nat): Option<Date>
    requires id in h.requests.fetches
  {
    if h.refs.current.Some? then h.refs.current else h.requests.fetches[id].closure
  }

  /** A default page adds its days, makes the later of its date and the known one the reference, and takes the view there,
      unless its request was to preserve the view or it is for an earlier day than is known: then a day on view stays. */
  lemma ReplySays(h: Hook, id: nat, payload: Payload)
    requires Inv(h) && id in h.requests.fetches
    ensures var t, known := Step(h, Reply(id, Some(payload))), Known(h, id);
            var early := payload.date.Some? && known.Some? && payload.date.value < known.value;
            && t.pages == h.pages.(calendar := h.pages.calendar + payload.days)
            && LatestOf(payload.date, known, t.refs.current) && LatestOf(h.refs.initial, t.refs.current, t.refs.initial)
            && t.refs.observed == h.refs.observed && t.refs.today == h.refs.today
            && t.view.viewed == if (h.requests.fetches[id].preserveViewed || early) && h.view.viewed.Some? then h.view.viewed
                                else t.refs.current
  {
  }

  /** A failed request changes nothing but the count of requests. */
  lemma FailedReplySays(h: Hook, id: nat)
    requires Inv(h) && id in h.requests.fetches
    ensures var t := Step(h, Reply(id, None)); t == h.(requests := t.requests) && id !in t.requests.fetches
  {
  }

  /** A chunk adds its days, and its direction is at a boundary exactly when it brought fewer than seven. A failed one
      changes neither, and either only ends its own request. */
  lemma ChunkSays(h: Hook, id: nat, data: Option<set<Date>>)
    requires Inv(h) && Enabled(h, ChunkSettled(id, data))
    ensures var t, direction := Step(h, ChunkSettled(id, data)), h.requests.chunks[id].direction;
            && t.view == h.view && t.refs == h.refs
            && t.requests.chunks == h.requests.chunks - {id} && t.requests.fetches == h.requests.fetches
            && t.requests.navigation == h.requests.navigation
            && t.requests.controller == (if h.requests.controller == Some(id) then None else h.requests.controller)
            && (data == None ==> t.pages == h.pages)
            && (data.Some? ==> t.pages.calendar == h.pages.calendar + data.value)
            && (data.Some? ==> (direction in t.pages.ended <==> |data.value| < 7)
                               && t.pages.ended - {direction} == h.pages.ended - {direction})
  {
  }

  /** Its navigation goes ahead when its target was brought, nothing was clicked since, the day it left from is still on
      view and no other transition is under way. */
  lemma ChunkGoesAhead(h: Hook, id: nat, data: Option<set<Date>>)
    requires Inv(h) && Enabled(h, ChunkSettled(id, data))
    ensures var t, chunk := Step(h, ChunkSettled(id, data)).transitions, h.requests.chunks[id];
            if data.Some? && chunk.target in data.value && chunk.request == h.requests.navigation
               && h.view.viewed == Some(chunk.origin) && !h.transitions.guard
            then OnItsWay(t, h.transitions.nextTimer, chunk.target)
            else t == h.transitions
  {
  }

  /** The interval's request for the default page keeps the view. */
  lemma IntervalSays(h: Hook)
    requires Inv(h)
    ensures var t := Step(h, Refetch);
            && t == h.(requests := t.requests) && t.requests.chunks == h.requests.chunks
            && t.requests.fetches == h.requests.fetches[h.requests.nextId := Fetch(h.refs.initial, true)]
  {
  }

  /** A step that moves the hook's own reference date ends any transition's timer, aborts every chunk and asks for the
      default page again, for a view that follows it. */
  lemma ReferenceMoves(h: Hook, e: Event)
    requires Inv(h) && Enabled(h, e) && Step(h, e).refs.initial != h.refs.initial
    ensures var (t, id) := (Step(h, e), h.requests.nextId);
            && id in t.requests.fetches && t.requests.fetches[id] == Fetch(t.refs.initial, false)
            && t.transitions.timers == map[] && !t.transitions.guard
            && forall chunk :: chunk in t.requests.chunks ==> t.requests.chunks[chunk].aborted
  {
    assert e.Reply? || e.Strikes?;
  }

  lemma BeginsFetch(before: Hook, after: Hook)
    ensures before.requests.nextId in Committed(before, after).requests.fetches ==>
              after.refs.initial != before.refs.initial || before.requests.nextId in after.requests.fetches
  {
  }

  /** No other step asks for it. */
  lemma FetchNeedsCause(h: Hook, e: Event)
    requires Inv(h) && Enabled(h, e) && h.requests.nextId in Step(h, e).requests.fetches
    ensures e.Refetch? || Step(h, e).refs.initial != h.refs.initial
  {
    BeginsFetch(h, Callback(h, e));
    assert h.requests.nextId !in h.requests.fetches;
  }

  /** Midnight keeps the days at most thirty away, makes the new day the reference and the observed day, and takes a view
      that was at the reference, or of nothing, along. */
  lemma MidnightSays(h: Hook, next: Date)
    requires Inv(h)
    ensures var t := Step(h, Strikes(next));
            var before := if h.refs.current.Some? then h.refs.current else if h.refs.initial.Some? then h.refs.initial else Some(next);
            && (forall d :: d in t.pages.calendar <==> d in h.pages.calendar && next - 30 <= d <= next + 30) && t.pages.ended == h.pages.ended
            && t.refs.current == Some(next) && t.refs.observed == Some(next) && LatestOf(h.refs.initial, Some(next), t.refs.initial)
            && t.view.viewed == if h.view.viewed == None || h.view.viewed == before then Some(next) else h.view.viewed
  {
  }

  /** A day on view other than the reference is given up for it after a while: a commit that changes either arms the
      inactivity timer, and the timer shows the reference of that moment. */
  lemma IdleSays(h: Hook, e: Event)
    requires Inv(h) && Enabled(h, e)
    ensures var t := Step(h, e);
            && (t.view.viewed != h.view.viewed && t.view.viewed.Some? && t.view.viewed != Some(Reference(t.refs)) ==>
                  t.view.idle == Some(Reference(t.refs)))
            && (t.view.viewed != h.view.viewed && t.view.viewed == Some(Reference(t.refs)) ==> t.view.idle == None)
    ensures e.Idle? ==> Step(h, e).view.viewed == h.view.idle && Step(h, e).view.ref == h.view.idle
  {
  }
}
