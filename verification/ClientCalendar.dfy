/** usePrayerTimes and useMidnightObserver: fetch replies, chunk replies, navigation, timers and midnight over
    the hook's state and refs. Each callback runs to its end and React then commits what it set. */
module ClientCalendar {
  import opened Outcomes
  import opened CalendarWindow
  import opened ClientPages

  // ---------------------------------------------------------------- reference dates

  /** initialReferenceDate, the observer's own date, referenceDateRef and what the clock shows. */
  datatype References = References(initial: Option<Date>, observed: Option<Date>, current: Option<Date>, today: Date)

  /** getLaterDate on day numbers; IsoDate.LaterDateIsLater relates it to the strings. */
  function Later(left: Option<Date>, right: Option<Date>): Option<Date> {
    if left == None then right else if right == None then left else if left.value > right.value then left else right
  }

  function Or(left: Option<Date>, right: Option<Date>): Option<Date> {
    if left.Some? then left else right
  }

  /** The reference date the hook returns. */
  function Active(r: References): Date {
    r.initial.GetOr(r.observed.GetOr(r.today))
  }

  datatype Payload = Payload(date: Option<Date>, days: set<Date>)

  function NextReference(r: References, payload: Payload, closure: Option<Date>): Option<Date> {
    Later(payload.date, Or(r.current, closure))
  }

  /** The payload is for an earlier day than the one already known. */
  predicate Stale(r: References, payload: Payload, closure: Option<Date>) {
    var current := Or(r.current, closure);
    payload.date.Some? && current.Some? && payload.date.value < current.value
  }

  // ---------------------------------------------------------------- the viewed day and its inactivity timer

  datatype View = View(viewed: Option<Date>, ref: Option<Date>, idle: Option<Date>)

  // ---------------------------------------------------------------- day transitions

  /** isTransitioning and transitionDate, the guard ref, the timer ref, and the commit timers armed. */
  datatype Transitions = Transitions(shown: bool, date: Option<Date>, guard: bool, timerRef: Option<nat>,
                                     timers: map<nat, Date>, nextTimer: nat)

  function Cancelled(t: Transitions): Transitions {
    t.(timers := if t.timerRef.Some? then t.timers - {t.timerRef.value} else t.timers, guard := false)
  }

  function Transition(t: Transitions, target: Date): Transitions {
    if t.guard then t
    else
      Transitions(true, Some(target), true, Some(t.nextTimer), Cancelled(t).timers[t.nextTimer := target], t.nextTimer + 1)
  }

  function TimerFired(t: Transitions, timer: nat): Transitions {
    t.(timers := t.timers - {timer}, guard := false, date := None, shown := false)
  }

  // ---------------------------------------------------------------- requests

  /** An outstanding request for the default page, with the reference date its closure saw. */
  datatype Fetch = Fetch(closure: Option<Date>, preserveViewed: bool)

  /** An outstanding chunk request and the navigation that waits for it. */
  datatype ChunkFetch = ChunkFetch(request: nat, origin: Date, target: Date, direction: Direction, cursor: Date, aborted: bool)

  /** The pending count and its state, the navigation counter, the abort controller's request, and what is outstanding. */
  datatype Requests = Requests(pending: nat, isFetching: bool, navigation: nat, controller: Option<nat>,
                               fetches: map<nat, Fetch>, chunks: map<nat, ChunkFetch>, nextId: nat)

  function Begun(q: Requests): Requests {
    q.(pending := q.pending + 1, isFetching := true)
  }

  function Finished(q: Requests): Requests {
    var n := if q.pending == 0 then 0 else q.pending - 1;
    q.(pending := n, isFetching := n != 0 && q.isFetching)
  }

  function FetchStarted(q: Requests, fetch: Fetch): Requests {
    Begun(q).(fetches := q.fetches[q.nextId := fetch], nextId := q.nextId + 1)
  }

  function FetchEnded(q: Requests, id: nat): Requests {
    Finished(q.(fetches := q.fetches - {id}))
  }

  function Abort(q: Requests): Requests {
    if q.controller.Some? && q.controller.value in q.chunks
    then q.(chunks := q.chunks[q.controller.value := q.chunks[q.controller.value].(aborted := true)])
    else q
  }

  function ChunkStarted(q: Requests, fetch: ChunkFetch): Requests {
    var aborted := Abort(q);
    Begun(aborted).(controller := Some(q.nextId), chunks := aborted.chunks[q.nextId := fetch], nextId := q.nextId + 1)
  }

  function ChunkEnded(q: Requests, id: nat): Requests {
    Finished(q.(chunks := q.chunks - {id}, controller := if q.controller == Some(id) then None else q.controller))
  }

  function NextNavigation(q: Requests): Requests {
    q.(navigation := q.navigation + 1)
  }

  // ---------------------------------------------------------------- the hook's callbacks

  datatype Hook = Hook(pages: Pages, calendarRef: set<Date>, refs: References, view: View, transitions: Transitions,
                       requests: Requests)

  function PayloadApplied(h: Hook, payload: Payload, closure: Option<Date>, preserveViewed: bool): Hook {
    var next := NextReference(h.refs, payload, closure);
    var merged := h.calendarRef + payload.days;
    var viewed := if preserveViewed || Stale(h.refs, payload, closure) then Or(h.view.viewed, next) else next;
    h.(pages := h.pages.(calendar := merged), calendarRef := merged,
       refs := h.refs.(initial := Later(h.refs.initial, next), current := next),
       view := h.view.(viewed := viewed))
  }

  function MidnightStruck(h: Hook, next: Date): Hook {
    var current := Or(h.refs.current, Or(h.refs.initial, Some(next)));
    var viewed := if h.view.ref == None || h.view.ref == current then Some(next) else h.view.ref;
    h.(pages := h.pages.(calendar := Pruned(h.pages.calendar, next)),
       refs := h.refs.(observed := Some(next), initial := Later(h.refs.initial, Some(next)), current := Some(next)),
       view := h.view.(viewed := viewed, ref := viewed))
  }

  function Replied(h: Hook, id: nat, payload: Option<Payload>): Hook
    requires id in h.requests.fetches
  {
    var fetch := h.requests.fetches[id];
    var after := if payload.Some? then PayloadApplied(h, payload.value, fetch.closure, fetch.preserveViewed) else h;
    after.(requests := FetchEnded(h.requests, id))
  }

  function Merged(pages: Pages, direction: Direction, chunk: set<Date>): Pages {
    if chunk == {} then pages.(ended := pages.ended + {direction})
    else Pages(pages.calendar + chunk, if |chunk| < CHUNK then pages.ended + {direction} else pages.ended - {direction})
  }

  /** The navigation that asked for the chunk goes ahead: it is the latest and the viewed day has not changed. */
  predicate GoesAhead(h: Hook, fetch: ChunkFetch, data: Option<set<Date>>) {
    data.Some? && fetch.target in data.value && h.requests.navigation == fetch.request && h.view.ref == Some(fetch.origin)
  }

  function Settled(h: Hook, id: nat, data: Option<set<Date>>): Hook
    requires id in h.requests.chunks
  {
    var fetch := h.requests.chunks[id];
    h.(pages := if data.Some? then Merged(h.pages, fetch.direction, data.value) else h.pages,
       requests := ChunkEnded(h.requests, id),
       transitions := if GoesAhead(h, fetch, data) then Transition(h.transitions, fetch.target) else h.transitions)
  }

  ghost function Edge(calendar: set<Date>, direction: Direction): (d: Date)
    requires calendar != {}
    ensures IsEdge(calendar, direction, d)
  {
    EdgeExists(calendar, direction);
    var d :| IsEdge(calendar, direction, d);
    d
  }

  function Towards(delta: int): Direction {
    if delta > 0 then Future else Past
  }

  /** The chunk a navigation asks for: beyond the calendar's edge in its direction. */
  ghost function ChunkFor(h: Hook, origin: Date, delta: int): ChunkFetch
    requires h.pages.calendar != {}
  {
    ChunkFetch(h.requests.navigation + 1, origin, origin + delta, Towards(delta), Edge(h.pages.calendar, Towards(delta)), false)
  }

  ghost function Navigated(h: Hook, delta: int): Hook {
    if h.view.viewed == None || delta == 0 || h.transitions.guard then h
    else
      var origin, q := h.view.viewed.value, NextNavigation(h.requests);
      if origin + delta in h.pages.calendar then h.(requests := q, transitions := Transition(h.transitions, origin + delta))
      else if Towards(delta) in h.pages.ended || h.pages.calendar == {} then h.(requests := q)
      else h.(requests := ChunkStarted(q, ChunkFor(h, origin, delta)))
  }

  function ViewReset(h: Hook): Hook {
    if h.view.viewed == Some(Active(h.refs)) || h.transitions.guard then h
    else h.(requests := NextNavigation(h.requests), transitions := Transition(h.transitions, Active(h.refs)))
  }

  function Synced(h: Hook): Hook {
    var active := Some(Active(h.refs));
    h.(requests := NextNavigation(h.requests), view := View(active, active, None),
       transitions := Cancelled(h.transitions).(date := None, shown := false))
  }

  // ---------------------------------------------------------------- React's commit

  /** The effects of a commit. The fetch effect runs again, cleanup first, when the reference date its callbacks
      close over has changed; the inactivity timer is armed anew when the viewed or the active day has. */
  function Committed(before: Hook, h: Hook): Hook {
    var refetch := h.refs.initial != before.refs.initial;
    var moved := h.view.viewed != before.view.viewed;
    var active := Active(h.refs);
    h.(transitions := if refetch then Cancelled(h.transitions) else h.transitions,
       requests := if refetch then FetchStarted(Abort(h.requests), Fetch(h.refs.initial, false)) else h.requests,
       calendarRef := if h.pages.calendar != before.pages.calendar then h.pages.calendar else h.calendarRef,
       view := View(h.view.viewed,
                    if moved then h.view.viewed else h.view.ref,
                    if moved || active != Active(before.refs) then
                      (if h.view.viewed == None || h.view.viewed == Some(active) then None else Some(active))
                    else if refetch then None else h.view.idle))
  }

  // ---------------------------------------------------------------- events

  datatype Event =
    | Reply(fetch: nat, payload: Option<Payload>)
    | Refetch
    | ChunkSettled(chunk: nat, data: Option<set<Date>>)
    | Navigate(delta: int)
    | Reset
    | Sync
    | SetViewed(date: Option<Date>)
    | TransitionOver(timer: nat)
    | Idle
    | Strikes(next: Date)
    | Clock(today: Date)

  /** An aborted chunk request can only fail. */
  predicate Enabled(h: Hook, e: Event) {
    match e
    case Reply(id, _) => id in h.requests.fetches
    case ChunkSettled(id, data) => id in h.requests.chunks && (h.requests.chunks[id].aborted ==> data == None)
    case TransitionOver(timer) => timer in h.transitions.timers
    case Idle => h.view.idle.Some?
    case _ => true
  }

  ghost function Callback(h: Hook, e: Event): Hook
    requires Enabled(h, e)
  {
    match e
    case Reply(id, payload) => Replied(h, id, payload)
    case Refetch => h.(requests := FetchStarted(h.requests, Fetch(h.refs.initial, true)))
    case ChunkSettled(id, data) => Settled(h, id, data)
    case Navigate(delta) => Navigated(h, delta)
    case Reset => ViewReset(h)
    case Sync => Synced(h)
    case SetViewed(date) => h.(view := h.view.(viewed := date))
    case TransitionOver(timer) =>
      var target := Some(h.transitions.timers[timer]);
      h.(transitions := TimerFired(h.transitions, timer), view := h.view.(viewed := target, ref := target))
    case Idle => h.(view := View(h.view.idle, h.view.idle, None))
    case Strikes(next) => MidnightStruck(h, next)
    case Clock(today) => h.(refs := h.refs.(today := today))
  }

  ghost function Step(h: Hook, e: Event): Hook
    requires Enabled(h, e)
  {
    Committed(h, Callback(h, e))
  }

  ghost predicate IsRun(h: Hook, es: seq<Event>)
    decreases |es|
  {
    es == [] || (Enabled(h, es[0]) && IsRun(Step(h, es[0]), es[1..]))
  }

  ghost function After(h: Hook, es: seq<Event>): Hook
    requires IsRun(h, es)
    decreases |es|
  {
    if es == [] then h else After(Step(h, es[0]), es[1..])
  }

  /** Mounted: nothing known, the first fetch on its way. */
  function Mounted(today: Date): Hook {
    Hook(Pages({}, {}), {}, References(None, None, None, today), View(None, None, None),
         Transitions(false, None, false, None, map[], 0), Requests(1, true, 0, None, map[0 := Fetch(None, false)], map[], 1))
  }

  // ---------------------------------------------------------------- invariants

  predicate AtMost(left: Option<Date>, right: Option<Date>) {
    left == None || (right.Some? && left.value <= right.value)
  }

  /** The guard ref is true exactly while one commit timer is armed, the one the timer ref names, for the day shown. */
  ghost predicate OneTimer(t: Transitions) {
    && (t.guard ==> t.timerRef.Some? && t.timers.Keys == {t.timerRef.value} && t.shown
                    && t.date == Some(t.timers[t.timerRef.value]))
    && (!t.guard ==> t.timers == map[])
  }

  ghost predicate Counted(q: Requests) {
    && q.pending == |q.fetches| + |q.chunks|
    && (q.isFetching <==> q.pending != 0)
    && (forall id :: id in q.fetches ==> id < q.nextId)
    && (forall id :: id in q.chunks ==> id < q.nextId)
  }

  /** At most one chunk request is not aborted, each is for another navigation, and none for a future one. */
  ghost predicate Latest(q: Requests) {
    && (forall id :: id in q.chunks ==> q.chunks[id].request <= q.navigation)
    && (forall id :: id in q.chunks && !q.chunks[id].aborted ==> q.controller == Some(id))
    && (forall i, j :: i in q.chunks && j in q.chunks && i != j ==> q.chunks[i].request != q.chunks[j].request)
  }

  ghost predicate Mirrored(h: Hook) {
    h.view.ref == h.view.viewed && h.calendarRef == h.pages.calendar && AtMost(h.refs.current, h.refs.initial)
  }

  ghost predicate Inv(h: Hook) {
    OneTimer(h.transitions) && Counted(h.requests) && Latest(h.requests) && Mirrored(h)
  }

  // ---------------------------------------------------------------- every step keeps them

  lemma CancelledOneTimer(t: Transitions)
    requires OneTimer(t)
    ensures OneTimer(Cancelled(t)) && Cancelled(t).timers == map[]
  {
    assert Cancelled(t).timers.Keys == {};
  }

  lemma TransitionOneTimer(t: Transitions, target: Date)
    requires OneTimer(t)
    ensures OneTimer(Transition(t, target))
    ensures !t.guard ==> Transition(t, target).timers == map[t.nextTimer := target]
  {
    CancelledOneTimer(t);
  }

  lemma StepOneTimer(h: Hook, e: Event)
    requires OneTimer(h.transitions) && Enabled(h, e)
    ensures OneTimer(Step(h, e).transitions)
  {
    var t := h.transitions;
    CancelledOneTimer(t);
    match e
    case ChunkSettled(id, data) => TransitionOneTimer(t, h.requests.chunks[id].target);
    case Navigate(delta) =>
      if h.view.viewed.Some? {
        TransitionOneTimer(t, h.view.viewed.value + delta);
      }
    case Reset => TransitionOneTimer(t, Active(h.refs));
    case TransitionOver(timer) =>
      assert (t.timers - {timer}).Keys == {};
    case _ =>
  }

  lemma OneMore<T>(m: map<nat, T>, id: nat, fetch: T)
    requires id !in m
    ensures |m[id := fetch]| == |m| + 1
  {
    assert m[id := fetch].Keys == m.Keys + {id};
    assert |m| == |m.Keys| && |m[id := fetch]| == |m[id := fetch].Keys|;
  }

  lemma OneLess<T>(m: map<nat, T>, id: nat)
    requires id in m
    ensures |m - {id}| == |m| - 1
  {
    assert (m - {id}).Keys == m.Keys - {id};
    assert |m| == |m.Keys| && |m - {id}| == |(m - {id}).Keys|;
  }

  lemma FetchStartedKeeps(q: Requests, fetch: Fetch)
    requires Counted(q) && Latest(q)
    ensures Counted(FetchStarted(q, fetch)) && Latest(FetchStarted(q, fetch))
  {
    OneMore(q.fetches, q.nextId, fetch);
  }

  lemma FetchEndedKeeps(q: Requests, id: nat)
    requires Counted(q) && Latest(q) && id in q.fetches
    ensures Counted(FetchEnded(q, id)) && Latest(FetchEnded(q, id))
  {
    OneLess(q.fetches, id);
  }

  lemma ChunkEndedKeeps(q: Requests, id: nat)
    requires Counted(q) && Latest(q) && id in q.chunks
    ensures Counted(ChunkEnded(q, id)) && Latest(ChunkEnded(q, id))
  {
    OneLess(q.chunks, id);
  }

  lemma AbortKeeps(q: Requests)
    requires Counted(q) && Latest(q)
    ensures Counted(Abort(q)) && Latest(Abort(q)) && Abort(q).chunks.Keys == q.chunks.Keys
    ensures forall id :: id in Abort(q).chunks ==> Abort(q).chunks[id].aborted
  {
    assert Abort(q).chunks.Keys == q.chunks.Keys;
    assert |Abort(q).chunks| == |Abort(q).chunks.Keys| && |q.chunks| == |q.chunks.Keys|;
  }

  lemma AbortSize(q: Requests)
    ensures Abort(q).chunks.Keys == q.chunks.Keys && |Abort(q).chunks| == |q.chunks|
    ensures Abort(q).fetches == q.fetches && Abort(q).pending == q.pending
  {
    assert Abort(q).chunks.Keys == q.chunks.Keys;
    assert |Abort(q).chunks| == |Abort(q).chunks.Keys| && |q.chunks| == |q.chunks.Keys|;
  }

  lemma ChunkStartedCounted(q: Requests, fetch: ChunkFetch)
    requires Counted(q)
    ensures Counted(ChunkStarted(q, fetch))
  {
    AbortSize(q);
    assert q.nextId !in Abort(q).chunks.Keys;
    OneMore(Abort(q).chunks, q.nextId, fetch);
  }

  /** Aborting keeps each chunk request but for its mark. */
  lemma AbortMarks(q: Requests)
    requires Latest(q)
    ensures Abort(q).chunks.Keys == q.chunks.Keys
    ensures forall id :: id in q.chunks ==> Abort(q).chunks[id].aborted && Abort(q).chunks[id].request == q.chunks[id].request
  {
  }

  lemma LatestAdded(q: Requests, a: map<nat, ChunkFetch>, n: Requests, fetch: ChunkFetch)
    requires Latest(q) && q.nextId !in a && fetch.request == q.navigation + 1 && n.navigation == q.navigation + 1
    requires n.chunks == a[q.nextId := fetch] && n.controller == Some(q.nextId) && a.Keys == q.chunks.Keys
    requires forall id :: id in q.chunks ==> a[id].aborted && a[id].request == q.chunks[id].request
    ensures Latest(n)
  {
  }

  lemma ChunkStartedLatest(q: Requests, fetch: ChunkFetch)
    requires Counted(q) && Latest(q) && fetch.request == q.navigation + 1
    ensures Latest(ChunkStarted(NextNavigation(q), fetch))
  {
    var n := NextNavigation(q);
    AbortMarks(n);
    var a := Abort(n).chunks;
    assert q.nextId !in a.Keys;
    LatestAdded(q, a, ChunkStarted(n, fetch), fetch);
  }

  lemma NavigationKeeps(q: Requests)
    requires Counted(q) && Latest(q)
    ensures Counted(NextNavigation(q)) && Latest(NextNavigation(q))
  {
  }

  lemma NavigatedRequests(h: Hook, delta: int)
    ensures var q := Navigated(h, delta).requests;
            q == h.requests || q == NextNavigation(h.requests)
            || (h.view.viewed.Some? && h.pages.calendar != {}
                && q == ChunkStarted(NextNavigation(h.requests), ChunkFor(h, h.view.viewed.value, delta)))
  {
  }

  lemma NavigatedKeeps(h: Hook, delta: int)
    requires Counted(h.requests) && Latest(h.requests)
    ensures Counted(Navigated(h, delta).requests) && Latest(Navigated(h, delta).requests)
  {
    NavigatedRequests(h, delta);
    NavigationKeeps(h.requests);
    if h.view.viewed.Some? && h.pages.calendar != {} {
      ChunkStartedCounted(NextNavigation(h.requests), ChunkFor(h, h.view.viewed.value, delta));
      ChunkStartedLatest(h.requests, ChunkFor(h, h.view.viewed.value, delta));
    }
  }

  lemma CallbackKeepsRequests(h: Hook, e: Event)
    requires Counted(h.requests) && Latest(h.requests) && Enabled(h, e)
    ensures Counted(Callback(h, e).requests) && Latest(Callback(h, e).requests)
  {
    match e
    case Reply(id, payload) => FetchEndedKeeps(h.requests, id);
    case Refetch => FetchStartedKeeps(h.requests, Fetch(h.refs.initial, true));
    case ChunkSettled(id, data) => ChunkEndedKeeps(h.requests, id);
    case Navigate(delta) => NavigatedKeeps(h, delta);
    case _ =>
  }

  lemma StepKeepsRequests(h: Hook, e: Event)
    requires Counted(h.requests) && Latest(h.requests) && Enabled(h, e)
    ensures Counted(Step(h, e).requests) && Latest(Step(h, e).requests)
  {
    CallbackKeepsRequests(h, e);
    var c := Callback(h, e);
    AbortKeeps(c.requests);
    FetchStartedKeeps(Abort(c.requests), Fetch(c.refs.initial, false));
  }

  lemma StepMirrored(h: Hook, e: Event)
    requires Mirrored(h) && Enabled(h, e)
    ensures Mirrored(Step(h, e))
  {
  }

  lemma StepKeepsInv(h: Hook, e: Event)
    requires Inv(h) && Enabled(h, e)
    ensures Inv(Step(h, e))
  {
    StepOneTimer(h, e);
    StepKeepsRequests(h, e);
    StepMirrored(h, e);
  }

  lemma {:induction false} RunKeepsInv(h: Hook, es: seq<Event>)
    requires Inv(h) && IsRun(h, es)
    ensures Inv(After(h, es))
    decreases |es|
  {
    if es != [] {
      StepKeepsInv(h, es[0]);
      RunKeepsInv(Step(h, es[0]), es[1..]);
    }
  }

  // ---------------------------------------------------------------- main results

  lemma MountedInv(today: Date)
    ensures Inv(Mounted(today))
  {
    assert |map[0 := Fetch(None, false)].Keys| == |{0}|;
  }

  predicate Awaited(q: Requests, id: nat) {
    id in q.chunks && !q.chunks[id].aborted
  }

  /** In every run the guard ref is true exactly while one commit timer is armed, the pending count is the number
      of outstanding requests, the fetching flag says whether there are any, and at most one chunk request is
      not aborted. */
  lemma HookSafe(today: Date, es: seq<Event>)
    requires IsRun(Mounted(today), es)
    ensures var h := After(Mounted(today), es);
            && (h.transitions.guard <==> |h.transitions.timers| == 1)
            && (!h.transitions.guard <==> |h.transitions.timers| == 0)
            && h.requests.pending == |h.requests.fetches| + |h.requests.chunks|
            && (h.requests.isFetching <==> h.requests.pending > 0)
            && (forall i, j :: Awaited(h.requests, i) && Awaited(h.requests, j) ==> i == j)
            && h.view.ref == h.view.viewed
  {
    MountedInv(today);
    RunKeepsInv(Mounted(today), es);
    var t := After(Mounted(today), es).transitions;
    assert |t.timers| == |t.timers.Keys|;
  }

  lemma StepReference(h: Hook, e: Event)
    requires Enabled(h, e)
    ensures AtMost(h.refs.initial, Step(h, e).refs.initial)
  {
  }

  /** initialReferenceDate never moves backwards, whatever dates payloads and midnights bring. */
  lemma {:induction false} ReferenceNeverBackwards(h: Hook, es: seq<Event>)
    requires IsRun(h, es)
    ensures AtMost(h.refs.initial, After(h, es).refs.initial)
    decreases |es|
  {
    if es != [] {
      StepReference(h, es[0]);
      ReferenceNeverBackwards(Step(h, es[0]), es[1..]);
    }
  }

  /** A chunk reply starts a transition exactly when none is under way, it brings the target, its navigation is the
      latest and the viewed day is the one it started from; the one timer armed is then for its target. */
  lemma ChunkStartsIff(h: Hook, id: nat, data: Option<set<Date>>)
    requires Inv(h) && Enabled(h, ChunkSettled(id, data))
    ensures var fetch := h.requests.chunks[id];
            var t := Step(h, ChunkSettled(id, data));
            && (t.transitions.guard && !h.transitions.guard <==>
                  !h.transitions.guard && data.Some? && fetch.target in data.value
                  && fetch.request == h.requests.navigation && h.view.viewed == Some(fetch.origin))
            && (t.transitions.guard && !h.transitions.guard ==>
                  t.transitions.timers == map[h.transitions.nextTimer := fetch.target] && t.view.viewed == h.view.viewed)
            && (h.transitions.guard || !t.transitions.guard ==> t.transitions == h.transitions)
  {
    TransitionOneTimer(h.transitions, h.requests.chunks[id].target);
  }

  ghost predicate Persists(q: Requests, r: Requests, id: nat) {
    && q.navigation <= r.navigation && q.nextId <= r.nextId
    && (id in r.chunks ==> id in q.chunks && r.chunks[id].request == q.chunks[id].request)
  }

  lemma ChunkStartedPersists(q: Requests, fetch: ChunkFetch, id: nat)
    requires id < q.nextId
    ensures Persists(q, ChunkStarted(NextNavigation(q), fetch), id)
  {
    assert Persists(q, Abort(NextNavigation(q)), id);
  }

  lemma CallbackPersists(h: Hook, e: Event, id: nat)
    requires Enabled(h, e) && id < h.requests.nextId
    ensures Persists(h.requests, Callback(h, e).requests, id)
  {
    match e
    case Navigate(delta) =>
      NavigatedRequests(h, delta);
      if h.view.viewed.Some? && h.pages.calendar != {} {
        ChunkStartedPersists(h.requests, ChunkFor(h, h.view.viewed.value, delta), id);
      }
    case _ =>
  }

  lemma ChunkPersists(h: Hook, e: Event, id: nat)
    requires Enabled(h, e) && id < h.requests.nextId
    ensures Persists(h.requests, Step(h, e).requests, id)
  {
    CallbackPersists(h, e, id);
    var q := Callback(h, e).requests;
    assert Persists(q, Abort(q), id);
  }

  /** Once a later navigation, reset or sync has counted, a chunk request never starts a transition, in any run. */
  lemma {:induction false} SupersededNeverStarts(h: Hook, es: seq<Event>, id: nat, data: Option<set<Date>>)
    requires Inv(h) && IsRun(h, es)
    requires id in h.requests.chunks && h.requests.chunks[id].request < h.requests.navigation
    requires Enabled(After(h, es), ChunkSettled(id, data))
    ensures var s := After(h, es);
            Step(s, ChunkSettled(id, data)).transitions == s.transitions
    decreases |es|
  {
    if es == [] {
      ChunkStartsIff(h, id, data);
    } else {
      var g := Step(h, es[0]);
      StepKeepsInv(h, es[0]);
      ChunkPersists(h, es[0], id);
      if id in g.requests.chunks {
        SupersededNeverStarts(g, es[1..], id, data);
      } else {
        Gone(g, es[1..], id);
      }
    }
  }

  lemma {:induction false} Gone(h: Hook, es: seq<Event>, id: nat)
    requires Inv(h) && IsRun(h, es) && id < h.requests.nextId && id !in h.requests.chunks
    ensures id !in After(h, es).requests.chunks
    decreases |es|
  {
    if es != [] {
      StepKeepsInv(h, es[0]);
      ChunkPersists(h, es[0], id);
      Gone(Step(h, es[0]), es[1..], id);
    }
  }

  /** The event counts as a navigation, which overtakes every chunk request made before. */
  predicate Overtakes(h: Hook, e: Event) {
    match e
    case Navigate(delta) => h.view.viewed.Some? && delta != 0 && !h.transitions.guard
    case Reset => h.view.viewed != Some(Active(h.refs)) && !h.transitions.guard
    case Sync => true
    case _ => false
  }

  ghost predicate EverOvertaken(h: Hook, es: seq<Event>)
    requires IsRun(h, es)
    decreases |es|
  {
    es != [] && (Overtakes(h, es[0]) || EverOvertaken(Step(h, es[0]), es[1..]))
  }

  lemma OvertakesCounts(h: Hook, e: Event)
    requires Enabled(h, e)
    ensures Step(h, e).requests.navigation == h.requests.navigation + if Overtakes(h, e) then 1 else 0
  {
    if e.Navigate? {
      NavigatedRequests(h, e.delta);
    }
  }

  /** While the latest navigation's chunk is awaited no other reply can start a transition. */
  lemma OnlyLatestStarts(h: Hook, e: Event, id: nat)
    requires Inv(h) && Enabled(h, e) && !Overtakes(h, e) && !h.transitions.guard
    requires id in h.requests.chunks && h.requests.chunks[id].request == h.requests.navigation
    requires id in Step(h, e).requests.chunks
    ensures !Step(h, e).transitions.guard
  {
    match e
    case ChunkSettled(chunk, data) =>
      assert id in ChunkEnded(h.requests, chunk).chunks;
      assert h.requests.chunks[chunk].request != h.requests.chunks[id].request;
    case _ =>
  }

  lemma {:induction false} AwaitedUndisturbed(h: Hook, es: seq<Event>, id: nat)
    requires Inv(h) && IsRun(h, es)
    requires id in h.requests.chunks && id in After(h, es).requests.chunks
    ensures h.requests.chunks[id].request == h.requests.navigation && !h.transitions.guard && !EverOvertaken(h, es) ==>
              After(h, es).requests.navigation == h.requests.navigation && !After(h, es).transitions.guard
    ensures EverOvertaken(h, es) ==> After(h, es).requests.navigation > h.requests.navigation
    ensures After(h, es).requests.navigation >= h.requests.navigation
    ensures var x, y := h.requests.chunks[id], After(h, es).requests.chunks[id];
            x.request == y.request && x.origin == y.origin && x.target == y.target
    decreases |es|
  {
    if es != [] {
      var g := Step(h, es[0]);
      StepKeepsInv(h, es[0]);
      ChunkPersists(h, es[0], id);
      OvertakesCounts(h, es[0]);
      if id !in g.requests.chunks {
        Gone(g, es[1..], id);
      }
      ChunkKeepsAim(h, es[0], id);
      if h.requests.chunks[id].request == h.requests.navigation && !h.transitions.guard && !Overtakes(h, es[0]) {
        OnlyLatestStarts(h, es[0], id);
      }
      AwaitedUndisturbed(g, es[1..], id);
    }
  }

  lemma ChunkKeepsAim(h: Hook, e: Event, id: nat)
    requires Counted(h.requests) && Enabled(h, e) && id in h.requests.chunks && id in Step(h, e).requests.chunks
    ensures var x, y := h.requests.chunks[id], Step(h, e).requests.chunks[id];
            x.request == y.request && x.origin == y.origin && x.target == y.target
  {
    if e.Navigate? {
      NavigatedRequests(h, e.delta);
    }
  }

  /** The reply to chunk `id` starts a transition to the target exactly when it brings it, nothing has counted as a
      navigation over the run and the day on view is the origin. */
  ghost predicate GoesAheadExactly(g: Hook, es: seq<Event>, id: nat, data: Option<set<Date>>, origin: Date, target: Date)
    requires IsRun(g, es) && Enabled(After(g, es), ChunkSettled(id, data))
  {
    var s := After(g, es);
    var t := Step(s, ChunkSettled(id, data)).transitions;
    && (t != s.transitions <==>
          data.Some? && target in data.value && !EverOvertaken(g, es) && s.view.viewed == Some(origin))
    && (t != s.transitions ==> t.guard && t.date == Some(target))
  }

  /** Chunk `id` is awaited by the latest navigation, from the origin to the target. */
  ghost predicate Awaiting(g: Hook, id: nat, origin: Date, target: Date) {
    && Inv(g) && !g.transitions.guard && id in g.requests.chunks
    && var fetch := g.requests.chunks[id];
       fetch.request == g.requests.navigation && fetch.origin == origin && fetch.target == target
  }

  /** Over whole runs: a navigation that awaits a chunk goes ahead when the reply comes exactly when the reply
      brings its target, no navigation, reset or sync has counted since and the day on view is the one it left from. */
  lemma NavigationGoesAheadIff(g: Hook, es: seq<Event>, id: nat, data: Option<set<Date>>, origin: Date, target: Date)
    requires Awaiting(g, id, origin, target)
    requires IsRun(g, es) && Enabled(After(g, es), ChunkSettled(id, data))
    ensures GoesAheadExactly(g, es, id, data, origin, target)
  {
    var s := After(g, es);
    RunKeepsInv(g, es);
    AwaitedUndisturbed(g, es, id);
    ChunkStartsIff(s, id, data);
    StartDate(s, id, data);
  }

  /** That is the state a navigation leaves when it asks for a chunk. */
  lemma NavigateAwaits(h: Hook, delta: int)
    requires Inv(h) && h.requests.nextId in Step(h, Navigate(delta)).requests.chunks
    ensures h.view.viewed.Some?
    ensures Awaiting(Step(h, Navigate(delta)), h.requests.nextId, h.view.viewed.value, h.view.viewed.value + delta)
  {
    StepKeepsInv(h, Navigate(delta));
    NavigationAsks(h, delta);
  }

  lemma StartDate(h: Hook, id: nat, data: Option<set<Date>>)
    requires Inv(h) && Enabled(h, ChunkSettled(id, data))
    ensures var t := Step(h, ChunkSettled(id, data)).transitions;
            t != h.transitions ==> t.guard && !h.transitions.guard && t.date == Some(h.requests.chunks[id].target)
  {
  }

  lemma NavigationAsks(h: Hook, delta: int)
    requires Inv(h) && h.requests.nextId in Step(h, Navigate(delta)).requests.chunks
    ensures var g := Step(h, Navigate(delta));
            var fetch := g.requests.chunks[h.requests.nextId];
            && h.view.viewed.Some? && !g.transitions.guard
            && fetch.request == g.requests.navigation
            && fetch.origin == h.view.viewed.value && fetch.target == h.view.viewed.value + delta
  {
    NavigatedRequests(h, delta);
  }

  /** The event brings a later reference date than the hook has. */
  predicate Advances(h: Hook, e: Event)
    requires Enabled(h, e)
  {
    match e
    case Reply(id, payload) =>
      payload.Some? && !AtMost(NextReference(h.refs, payload.value, h.requests.fetches[id].closure), h.refs.initial)
    case Strikes(next) => !AtMost(Some(next), h.refs.initial)
    case _ => false
  }

  lemma CallbackKeepsDisplay(h: Hook, e: Event)
    requires Inv(h) && Enabled(h, e) && (h.transitions.shown <==> h.transitions.guard)
    ensures var t := Callback(h, e).transitions; t.shown <==> t.guard
    ensures Advances(h, e) ==> Callback(h, e).transitions == h.transitions
  {
  }

  lemma AdvanceIsNewReference(h: Hook, e: Event)
    requires Inv(h) && Enabled(h, e)
    ensures Advances(h, e) <==> Callback(h, e).refs.initial != h.refs.initial
  {
  }

  /** The transition on display and the guard ref part exactly when a later reference date arrives during a
      transition: the fetch effect's cleanup cancels the commit timer but leaves isTransitioning set. */
  lemma DisplayPartsIff(h: Hook, e: Event)
    requires Inv(h) && Enabled(h, e) && (h.transitions.shown <==> h.transitions.guard)
    ensures (Step(h, e).transitions.shown <==> Step(h, e).transitions.guard)
            <==> !(h.transitions.guard && Advances(h, e))
  {
    CallbackKeepsDisplay(h, e);
    AdvanceIsNewReference(h, e);
    CommitParts(h, Callback(h, e));
  }

  lemma CommitParts(before: Hook, h: Hook)
    ensures var t := Committed(before, h).transitions;
            && t.shown == h.transitions.shown
            && t.guard == (h.transitions.guard && h.refs.initial == before.refs.initial)
  {
  }

  ghost predicate DisplayHonest(h: Hook, es: seq<Event>)
    requires IsRun(h, es)
    decreases |es|
  {
    (h.transitions.shown <==> h.transitions.guard) && (es == [] || DisplayHonest(Step(h, es[0]), es[1..]))
  }

  /** At some point of the run a later reference date arrives during a transition. */
  ghost predicate EverCutShort(h: Hook, es: seq<Event>)
    requires IsRun(h, es)
    decreases |es|
  {
    es != [] && ((h.transitions.guard && Advances(h, es[0])) || EverCutShort(Step(h, es[0]), es[1..]))
  }

  /** Over any run the display tells the truth about the guard throughout, exactly when that never happens. */
  lemma {:induction false} DisplayHonestIff(h: Hook, es: seq<Event>)
    requires Inv(h) && IsRun(h, es) && (h.transitions.shown <==> h.transitions.guard)
    ensures DisplayHonest(h, es) <==> !EverCutShort(h, es)
    decreases |es|
  {
    if es != [] {
      StepKeepsInv(h, es[0]);
      DisplayPartsIff(h, es[0]);
      if !(h.transitions.guard && Advances(h, es[0])) {
        DisplayHonestIff(Step(h, es[0]), es[1..]);
      }
    }
  }

  /** Parted, the display stays in transition with no timer to end it until a sync or the next transition. */
  lemma {:induction false} DisplayStuck(h: Hook, es: seq<Event>)
    requires Inv(h) && IsRun(h, es) && h.transitions.shown && !h.transitions.guard
    requires forall e :: e in es ==> !e.Sync? && !e.Navigate? && !e.Reset? && !e.ChunkSettled?
    ensures After(h, es).transitions.shown && !After(h, es).transitions.guard
    decreases |es|
  {
    if es != [] {
      assert es[0] in es && forall e :: e in es[1..] ==> e in es;
      StepKeepsInv(h, es[0]);
      DisplayStuck(Step(h, es[0]), es[1..]);
    }
  }

  /** Midnight keeps a viewed day other than the reference, and starts a fetch exactly when it advances the
      reference date. The reply to that fetch then replaces the day exactly when its payload is not stale and its
      reference is another day; without an advance no request starts and the day stays until something else moves it. */
  lemma MidnightLosesView(h: Hook, next: Date, payload: Payload)
    requires Inv(h) && h.view.viewed.Some?
    requires h.view.viewed != Or(h.refs.current, Or(h.refs.initial, Some(next)))
    ensures var g := Step(h, Strikes(next));
            var id := h.requests.nextId;
            var reply := Reply(id, Some(payload));
            && g.view.viewed == h.view.viewed
            && (id in g.requests.fetches <==> Advances(h, Strikes(next)))
            && (!Advances(h, Strikes(next)) ==> g.requests == h.requests)
            && (Advances(h, Strikes(next)) ==>
                  && Enabled(g, reply)
                  && (Step(g, reply).view.viewed != h.view.viewed <==>
                        !Stale(g.refs, payload, Some(next)) && NextReference(g.refs, payload, Some(next)) != h.view.viewed))
  {
  }

  /** A fetch in flight keeps what it was started with. */
  lemma {:induction false} FetchStays(h: Hook, es: seq<Event>, id: nat)
    requires Inv(h) && IsRun(h, es) && id in h.requests.fetches
    requires forall e :: e in es ==> !(e.Reply? && e.fetch == id)
    ensures id in After(h, es).requests.fetches && After(h, es).requests.fetches[id] == h.requests.fetches[id]
    decreases |es|
  {
    if es != [] {
      assert es[0] in es && forall e :: e in es[1..] ==> e in es;
      StepKeepsInv(h, es[0]);
      FetchKept(h, es[0], id);
      FetchStays(Step(h, es[0]), es[1..], id);
    }
  }

  lemma FetchKept(h: Hook, e: Event, id: nat)
    requires Inv(h) && Enabled(h, e) && id in h.requests.fetches && !(e.Reply? && e.fetch == id)
    ensures id in Step(h, e).requests.fetches && Step(h, e).requests.fetches[id] == h.requests.fetches[id]
  {
  }

  /** Over whole runs: whatever happens between a midnight that advances the reference date and the reply to the fetch it
      starts, the reply replaces the day then on view exactly when its payload is not stale by then and names another. */
  lemma MidnightReplyIff(h: Hook, next: Date, es: seq<Event>, payload: Payload)
    requires Inv(h) && Advances(h, Strikes(next)) && IsRun(Step(h, Strikes(next)), es)
    requires forall e :: e in es ==> !(e.Reply? && e.fetch == h.requests.nextId)
    ensures var g, reply := After(Step(h, Strikes(next)), es), Reply(h.requests.nextId, Some(payload));
            && Enabled(g, reply)
            && (g.view.viewed.Some? ==>
                  (Step(g, reply).view.viewed != g.view.viewed <==>
                     !Stale(g.refs, payload, Some(next)) && NextReference(g.refs, payload, Some(next)) != g.view.viewed))
  {
    var struck := Step(h, Strikes(next));
    StepKeepsInv(h, Strikes(next));
    MidnightFetches(h, next);
    FetchStays(struck, es, h.requests.nextId);
    if After(struck, es).view.viewed.Some? {
      ReplyReplacesIff(After(struck, es), h.requests.nextId, next, payload);
    }
  }

  lemma MidnightFetches(h: Hook, next: Date)
    requires Inv(h) && Advances(h, Strikes(next))
    ensures var g := Step(h, Strikes(next));
            h.requests.nextId in g.requests.fetches && g.requests.fetches[h.requests.nextId] == Fetch(Some(next), false)
  {
  }

  lemma ReplyReplacesIff(g: Hook, id: nat, next: Date, payload: Payload)
    requires id in g.requests.fetches && g.requests.fetches[id] == Fetch(Some(next), false) && g.view.viewed.Some?
    ensures Step(g, Reply(id, Some(payload))).view.viewed != g.view.viewed <==>
              !Stale(g.refs, payload, Some(next)) && NextReference(g.refs, payload, Some(next)) != g.view.viewed
  {
  }

  /** In particular a payload for the new day itself always takes the view to that day. */
  lemma FreshPayloadTakesView(h: Hook, next: Date, payload: Payload)
    requires Inv(h) && Advances(h, Strikes(next)) && payload.date == Some(next)
    ensures var g := Step(h, Strikes(next));
            && Enabled(g, Reply(h.requests.nextId, Some(payload)))
            && Step(g, Reply(h.requests.nextId, Some(payload))).view.viewed == Some(next)
  {
  }

  /** What replies and midnights do to the calendar is what ClientPages studies: a chunk asked for from the edge,
      a default page, a prune. */
  lemma PagesFollow(h: Hook, id: nat, source: Source, today: Date, next: Date)
    requires Mirrored(h)
    ensures id in h.requests.chunks ==>
              var fetch := h.requests.chunks[id];
              Settled(h, id, Some(Chunk(source, fetch.cursor, fetch.direction))).pages
                == ClientPages.Step(h.pages, ChunkReply(source, fetch.cursor, fetch.direction))
    ensures id in h.requests.fetches ==>
              Replied(h, id, Some(Payload(Some(today), Week(source, today)))).pages
                == ClientPages.Step(h.pages, WindowReply(source, today))
    ensures MidnightStruck(h, next).pages == ClientPages.Step(h.pages, Midnight(next))
    ensures h.view.viewed.Some? && h.pages.calendar != {} && id in Navigated(h, next).requests.chunks && id !in h.requests.chunks ==>
              var fetch := Navigated(h, next).requests.chunks[id];
              IsEdge(h.pages.calendar, fetch.direction, fetch.cursor)
  {
  }

  // ---------------------------------------------------------------- the hook itself

  class PrayerTimesHook {
    var pages: Pages
    var calendarRef: set<Date>
    var refs: References
    var view: View
    var transitions: Transitions
    var requests: Requests

    constructor (today: Date)
      ensures Snapshot() == Mounted(today)
    {
      pages, calendarRef := Pages({}, {}), {};
      refs, view := References(None, None, None, today), View(None, None, None);
      transitions := Transitions(false, None, false, None, map[], 0);
      requests := Requests(1, true, 0, None, map[0 := Fetch(None, false)], map[], 1);
    }

    function Snapshot(): Hook
      reads this
    {
      Hook(pages, calendarRef, refs, view, transitions, requests)
    }

    method StartFetching()
      modifies `requests
      ensures requests == Begun(old(requests))
    {
      requests := requests.(pending := requests.pending + 1);
      requests := requests.(isFetching := true);
    }

    method FinishFetching()
      modifies `requests
      ensures requests == Finished(old(requests))
    {
      if requests.pending > 0 {
        requests := requests.(pending := requests.pending - 1);
      }
      if requests.pending == 0 {
        requests := requests.(isFetching := false);
      }
    }

    method ClearTransitionTimer()
      modifies `transitions
      ensures transitions == old(transitions).(timers := Cancelled(old(transitions)).timers)
    {
      if transitions.timerRef.Some? {
        transitions := transitions.(timers := transitions.timers - {transitions.timerRef.value});
      }
    }

    method StartDayTransition(target: Date)
      modifies `transitions
      ensures transitions == Transition(old(transitions), target)
    {
      if transitions.guard {
        return;
      }
      transitions := transitions.(guard := true, date := Some(target), shown := true);
      ClearTransitionTimer();
      var id := transitions.nextTimer;
      transitions := transitions.(timers := transitions.timers[id := target], timerRef := Some(id), nextTimer := id + 1);
    }

    method ApplyPayload(payload: Payload, closure: Option<Date>, preserveViewed: bool)
      modifies this
      ensures Snapshot() == PayloadApplied(old(Snapshot()), payload, closure, preserveViewed)
    {
      var current := if refs.current.Some? then refs.current else closure;
      var next := Later(payload.date, current);
      var merged := calendarRef + payload.days;
      var stale := payload.date.Some? && current.Some? && payload.date.value < current.value;
      calendarRef := merged;
      pages := pages.(calendar := merged);
      refs := refs.(initial := Later(refs.initial, next));
      refs := refs.(current := next);
      if preserveViewed || stale {
        if view.viewed == None {
          view := view.(viewed := next);
        }
      } else {
        view := view.(viewed := next);
      }
    }

    method HandleMidnight(next: Date)
      modifies this
      ensures Snapshot() == MidnightStruck(old(Snapshot()), next)
    {
      var current := if refs.current.Some? then refs.current else if refs.initial.Some? then refs.initial else Some(next);
      var viewed := view.ref;
      if viewed == None || viewed == current {
        viewed := Some(next);
      }
      pages := pages.(calendar := Pruned(pages.calendar, next));
      refs := refs.(observed := Some(next), initial := Later(refs.initial, Some(next)));
      view := view.(viewed := viewed);
      refs := refs.(current := Some(next));
      view := view.(ref := viewed);
    }

    method AbortChunk()
      modifies `requests
      ensures requests == Abort(old(requests))
    {
      if requests.controller.Some? && requests.controller.value in requests.chunks {
        var id := requests.controller.value;
        requests := requests.(chunks := requests.chunks[id := requests.chunks[id].(aborted := true)]);
      }
    }

    /** fetchCalendarChunk up to its await. */
    method StartChunk(fetch: ChunkFetch)
      modifies `requests
      ensures requests == ChunkStarted(old(requests), fetch)
    {
      AbortChunk();
      var id := requests.nextId;
      requests := requests.(controller := Some(id), chunks := requests.chunks[id := fetch], nextId := id + 1);
      StartFetching();
    }

    /** The rest of fetchCalendarChunk and of the navigation that awaits it. */
    method SettleChunk(id: nat, data: Option<set<Date>>)
      requires id in requests.chunks
      modifies this
      ensures Snapshot() == Settled(old(Snapshot()), id, data)
    {
      var fetch := requests.chunks[id];
      if data.Some? {
        var chunk := data.value;
        var reachedBoundary := |chunk| < CHUNK;
        if chunk == {} {
          pages := pages.(ended := pages.ended + {fetch.direction});
        } else {
          pages := pages.(calendar := pages.calendar + chunk);
          if reachedBoundary {
            pages := pages.(ended := pages.ended + {fetch.direction});
          } else {
            pages := pages.(ended := pages.ended - {fetch.direction});
          }
        }
      }
      requests := requests.(chunks := requests.chunks - {id});
      if requests.controller == Some(id) {
        requests := requests.(controller := None);
      }
      FinishFetching();
      if data.Some? && fetch.target in data.value && requests.navigation == fetch.request && view.ref == Some(fetch.origin) {
        StartDayTransition(fetch.target);
      }
    }

    method NavigateDay(delta: int)
      modifies this
      ensures Snapshot() == Navigated(old(Snapshot()), delta)
    {
      if view.viewed == None || delta == 0 || transitions.guard {
        return;
      }
      var direction := if delta > 0 then Future else Past;
      var request := requests.navigation + 1;
      requests := requests.(navigation := request);
      var origin := view.viewed.value;
      var target := origin + delta;
      if target in pages.calendar {
        StartDayTransition(target);
        return;
      }
      if direction in pages.ended {
        return;
      }
      if pages.calendar == {} {
        return;
      }
      EdgeExists(pages.calendar, direction);
      var cursor :| cursor in pages.calendar && IsEdge(pages.calendar, direction, cursor);
      StartChunk(ChunkFetch(request, origin, target, direction, cursor, false));
    }

    method ResetViewedDate()
      modifies this
      ensures Snapshot() == ViewReset(old(Snapshot()))
    {
      var active := Active(refs);
      if view.viewed == Some(active) || transitions.guard {
        return;
      }
      requests := requests.(navigation := requests.navigation + 1);
      StartDayTransition(active);
    }

    method SyncViewedDateToReference()
      modifies this
      ensures Snapshot() == Synced(old(Snapshot()))
    {
      var active := Some(Active(refs));
      requests := requests.(navigation := requests.navigation + 1);
      ClearTransitionTimer();
      view := view.(idle := None);
      transitions := transitions.(guard := false);
      view := view.(ref := active);
      transitions := transitions.(date := None, shown := false);
      view := view.(viewed := active);
    }
  }
}
