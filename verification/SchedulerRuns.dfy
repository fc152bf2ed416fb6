/** Every run of the scheduler: initScheduler cut at its await, stopAll, timers and configuration changes interleaved. */
module SchedulerRuns {
  import opened Outcomes
  import opened Calculations
  import opened IqamahRule
  import opened StaggeredLaunch
  import opened Scheduler

  /** A scheduling pass that got past its await: when, under which configuration, and what it wanted scheduled. */
  datatype Pass = Pass(at: int, config: Config, plan: seq<Planned>)

  /** `waiting` holds the configuration each run in flight read before its await, `resumed` counts the passes
      since the last clear, `passes` keeps all of them, `active` says whether the last clear was a run's own. */
  datatype State = State(core: Core, now: int, config: Config, waiting: map<nat, Config>, nextRun: nat,
                         active: bool, resumed: nat, passes: seq<Pass>)

  datatype Event =
    | Tick(to: int)
    | Reconfigure(config: Config)
    | Start
    | Resume(run: nat, data: Option<Day>)
    | StopAll
    | Fire(job: Job)

  function Initial(now: int, config: Config): State {
    State(Core([], {}, 0, []), now, config, map[], 0, false, 0, [])
  }

  predicate IsArmed(c: Core, j: Job) {
    j in c.jobs && j.id in c.live && j.kind.Automated?
  }

  /** Time does not pass an armed timer, and a timer goes off at its time. */
  predicate Enabled(s: State, e: Event) {
    match e
    case Tick(to) => s.now <= to && forall j :: j in s.core.jobs && IsArmed(s.core, j) ==> to <= j.fireAt
    case Resume(run, _) => run in s.waiting
    case Fire(job) => IsArmed(s.core, job) && job.fireAt == s.now
    case _ => true
  }

  function PlanOf(config: Config, data: Option<Day>): seq<Planned> {
    if data.Some? then Plan(config, data.value, PRAYERS) else []
  }

  function Fired(c: Core, job: Job, now: int): Core
    requires job.kind.Automated?
  {
    c.(live := c.live - {job.id}, firings := c.firings + [Firing(job.kind.slot, now)])
  }

  /** A resumed run plans with the configuration it read, while scheduleEvent reads the current one. */
  function Resumed(s: State, run: nat, plan: seq<Planned>): State {
    s.(core := ScheduledAll(s.core, s.config, s.now, plan),
       waiting := s.waiting - {run},
       resumed := s.resumed + 1,
       passes := s.passes + [Pass(s.now, s.config, plan)])
  }

  function Step(s: State, e: Event): State
    requires Enabled(s, e)
  {
    match e
    case Tick(to) => s.(now := to)
    case Reconfigure(config) => s.(config := config)
    case Start =>
      s.(core := WithMaintenance(Cleared(s.core), MAINTENANCE), waiting := s.waiting[s.nextRun := s.config],
         nextRun := s.nextRun + 1, active := true, resumed := 0)
    case Resume(run, data) => Resumed(s, run, PlanOf(s.waiting[run], data))
    case StopAll => s.(core := Cleared(s.core), active := false, resumed := 0)
    case Fire(job) => s.(core := Fired(s.core, job, s.now))
  }

  ghost predicate IsRun(s: State, es: seq<Event>)
    decreases |es|
  {
    es == [] || (Enabled(s, es[0]) && IsRun(Step(s, es[0]), es[1..]))
  }

  function After(s: State, es: seq<Event>): State
    requires IsRun(s, es)
    decreases |es|
  {
    if es == [] then s else After(Step(s, es[0]), es[1..])
  }

  /** The last moment the clock came to. */
  function ClockAfter(now: int, es: seq<Event>): int
    decreases |es|
  {
    if es == [] then now else ClockAfter(if es[0].Tick? then es[0].to else now, es[1..])
  }

  /** The configuration last saved. */
  function ConfigAfter(config: Config, es: seq<Event>): Config
    decreases |es|
  {
    if es == [] then config else ConfigAfter(if es[0].Reconfigure? then es[0].config else config, es[1..])
  }

  /** Whatever else happens, jobs are armed and fired by the clock and under the configuration last saved, and a run that
      resumes plans with the one that held when it started. */
  lemma {:induction false} RunSees(s: State, es: seq<Event>)
    requires IsRun(s, es)
    ensures After(s, es).now == ClockAfter(s.now, es) && After(s, es).config == ConfigAfter(s.config, es)
    ensures forall run :: run in After(s, es).waiting && run < s.nextRun ==>
              run in s.waiting && After(s, es).waiting[run] == s.waiting[run]
    decreases |es|
  {
    if es != [] {
      RunSees(Step(s, es[0]), es[1..]);
    }
  }

  // ---------------------------------------------------------------- job list invariants

  ghost predicate Tidy(c: Core) {
    && c.live <= Ids(c.jobs)
    && (forall i :: 0 <= i < |c.jobs| ==> c.jobs[i].id < c.next)
    && (forall i, j :: 0 <= i < j < |c.jobs| ==> c.jobs[i].id != c.jobs[j].id)
  }

  function LiveJobs(c: Core, slot: Slot): set<Job> {
    set j | j in c.jobs && j.kind == Automated(slot) && j.id in c.live
  }

  /** Armed maintenance jobs of these names head the array, and there are no others. */
  ghost predicate Headed(c: Core, names: seq<string>) {
    && |names| <= |c.jobs|
    && (forall i :: 0 <= i < |names| ==> c.jobs[i].kind == Maintenance(names[i]) && c.jobs[i].id in c.live)
    && (forall i :: |names| <= i < |c.jobs| ==> c.jobs[i].kind.Automated?)
  }

  /** The maintenance jobs are those of MAINTENANCE while the scheduler is active, and none otherwise. */
  ghost predicate Upkeep(c: Core, active: bool) {
    Headed(c, if active then MAINTENANCE else [])
  }

  lemma ClearLeavesNone(c: Core)
    requires Tidy(c)
    ensures Cleared(c).live == {} && Tidy(Cleared(c))
  {
  }

  lemma PushedTidy(c: Core, kind: JobKind, fireAt: int)
    requires Tidy(c)
    ensures Tidy(Pushed(c, kind, fireAt))
    ensures forall slot :: LiveJobs(Pushed(c, kind, fireAt), slot) ==
                           LiveJobs(c, slot) + (if kind == Automated(slot) then {Job(c.next, kind, fireAt)} else {})
    ensures forall slot :: Job(c.next, kind, fireAt) !in LiveJobs(c, slot)
  {
    IdsAppend(c.jobs, Job(c.next, kind, fireAt));
  }

  lemma {:induction false} MaintenancePushed(c: Core, names: seq<string>)
    requires Tidy(c)
    ensures var d := WithMaintenance(c, names);
            && Tidy(d)
            && |d.jobs| == |c.jobs| + |names| && d.firings == c.firings
            && (forall i :: 0 <= i < |c.jobs| ==> d.jobs[i] == c.jobs[i])
            && c.live <= d.live
            && (forall i :: 0 <= i < |names| ==>
                  d.jobs[|c.jobs| + i].kind == Maintenance(names[i]) && d.jobs[|c.jobs| + i].id in d.live)
    decreases |names|
  {
    if names != [] {
      var e := Pushed(c, Maintenance(names[0]), 0);
      PushedTidy(c, Maintenance(names[0]), 0);
      MaintenancePushed(e, names[1..]);
      var d := WithMaintenance(c, names);
      forall i | 0 <= i < |names|
        ensures d.jobs[|c.jobs| + i].kind == Maintenance(names[i]) && d.jobs[|c.jobs| + i].id in d.live
      {
        if i == 0 {
          assert d.jobs[|c.jobs|] == e.jobs[|c.jobs|] == Job(c.next, Maintenance(names[0]), 0);
          assert c.next in e.live;
        } else {
          assert names[i] == names[1..][i - 1];
          assert |c.jobs| + i == |e.jobs| + (i - 1);
        }
      }
    }
  }

  // ---------------------------------------------------------------- one pass

  /** The pass wants the slot fired, and its largest lead makes that due at `due`. */
  predicate Wants(p: Pass, slot: Slot, due: int) {
    !SwitchedOff(p.config, slot.kind) && Planned(slot, At(due + MaxLead(p.config.automation, slot))) in p.plan
  }

  /** What became of an event wanted at `at`: still armed or fired at its due time, or caught up at once when at
      most a minute late. */
  ghost predicate Met(c: Core, slot: Slot, at: int, due: int) {
    if due >= at then
      (exists j :: j in c.jobs && j.id in c.live && j.kind == Automated(slot) && j.fireAt == due)
      || Firing(slot, due) in c.firings
    else at - due <= CATCH_UP ==> Firing(slot, at) in c.firings
  }

  /** Whatever d has beyond c was wanted by the pass. */
  ghost predicate Grown(c: Core, d: Core, p: Pass) {
    && |c.jobs| <= |d.jobs| && c.live <= d.live
    && (forall i :: 0 <= i < |c.jobs| ==> d.jobs[i] == c.jobs[i])
    && (forall i :: 0 <= i < |c.jobs| ==> d.jobs[i].id in d.live ==> d.jobs[i].id in c.live)
    && (forall i :: |c.jobs| <= i < |d.jobs| ==>
          var j := d.jobs[i];
          j.kind.Automated? && j.id in d.live && p.at <= j.fireAt && Wants(p, j.kind.slot, j.fireAt))
    && (forall f :: f in c.firings ==> f in d.firings)
    && (forall f :: f in d.firings ==> f in c.firings || CaughtUpBy(p, f))
  }

  ghost predicate CaughtUpBy(p: Pass, f: Firing) {
    f.at == p.at && exists due :: Wants(p, f.slot, due) && due < p.at <= due + CATCH_UP
  }

  lemma MetGrows(c: Core, d: Core, p: Pass, slot: Slot, at: int, due: int)
    requires Grown(c, d, p) && Met(c, slot, at, due)
    ensures Met(d, slot, at, due)
  {
    if j :| j in c.jobs && j.id in c.live && j.kind == Automated(slot) && j.fireAt == due {
      var i :| 0 <= i < |c.jobs| && c.jobs[i] == j;
      assert d.jobs[i] == j;
    }
  }

  lemma PushedGrows(c: Core, p: Pass, slot: Slot, due: int)
    requires Tidy(c) && Wants(p, slot, due) && p.at <= due
    ensures var d := Pushed(c, Automated(slot), due);
            Tidy(d) && Grown(c, d, p) && Met(d, slot, p.at, due)
  {
    PushedTidy(c, Automated(slot), due);
    assert Pushed(c, Automated(slot), due).jobs[|c.jobs|] == Job(c.next, Automated(slot), due);
  }

  lemma CaughtUpGrows(c: Core, p: Pass, slot: Slot, due: int)
    requires Tidy(c) && Wants(p, slot, due) && due < p.at
    ensures var d := c.(firings := c.firings + [Firing(slot, p.at)]);
            p.at <= due + CATCH_UP ==> Tidy(d) && Grown(c, d, p) && Met(d, slot, p.at, due)
  {
    var d := c.(firings := c.firings + [Firing(slot, p.at)]);
    assert d.firings[|c.firings|] == Firing(slot, p.at);
    assert p.at <= due + CATCH_UP ==> CaughtUpBy(p, Firing(slot, p.at));
  }

  lemma ScheduledGrows(c: Core, config: Config, now: int, slot: Slot, time: Iso)
    requires Tidy(c)
    ensures var d := Scheduled(c, config, now, slot, time);
            var p := Pass(now, config, [Planned(slot, time)]);
            && Tidy(d) && Grown(c, d, p)
            && (forall due :: Wants(p, slot, due) ==> Met(d, slot, now, due))
  {
    var p := Pass(now, config, [Planned(slot, time)]);
    if !SwitchedOff(config, slot.kind) && time.At? {
      var due := Due(config, slot, time.ms);
      assert p.plan[0] == Planned(slot, At(due + MaxLead(config.automation, slot)));
      assert Wants(p, slot, due);
      if due >= now {
        PushedGrows(c, p, slot, due);
      } else {
        CaughtUpGrows(c, p, slot, due);
      }
    }
  }

  lemma GrownTwice(c: Core, d: Core, e: Core, p: Pass, first: seq<Planned>, rest: seq<Planned>)
    requires p.plan == first + rest
    requires Grown(c, d, p.(plan := first)) && Grown(d, e, p.(plan := rest))
    ensures Grown(c, e, p)
  {
    var p0, p1 := p.(plan := first), p.(plan := rest);
    assert forall slot, due :: Wants(p0, slot, due) || Wants(p1, slot, due) ==> Wants(p, slot, due);
    assert forall f :: CaughtUpBy(p0, f) || CaughtUpBy(p1, f) ==> CaughtUpBy(p, f);
    forall i | |c.jobs| <= i < |e.jobs|
      ensures var j := e.jobs[i]; j.kind.Automated? && j.id in e.live && p.at <= j.fireAt && Wants(p, j.kind.slot, j.fireAt)
    {
      if i < |d.jobs| {
        assert e.jobs[i] == d.jobs[i];
      }
    }
  }

  ghost predicate MeetsAll(c: Core, p: Pass) {
    forall slot, due :: Wants(p, slot, due) ==> Met(c, slot, p.at, due)
  }

  lemma {:induction false} PassGrows(c: Core, config: Config, now: int, plan: seq<Planned>)
    requires Tidy(c)
    ensures var d := ScheduledAll(c, config, now, plan);
            Tidy(d) && Grown(c, d, Pass(now, config, plan)) && MeetsAll(d, Pass(now, config, plan))
    decreases |plan|
  {
    if plan != [] {
      var first, rest := plan[0], plan[1..];
      var d := Scheduled(c, config, now, first.slot, first.time);
      ScheduledGrows(c, config, now, first.slot, first.time);
      PassGrows(d, config, now, rest);
      PassJoins(c, d, ScheduledAll(d, config, now, rest), now, config, first, rest, plan);
    }
  }

  lemma PassJoins(c: Core, d: Core, e: Core, now: int, config: Config, first: Planned, rest: seq<Planned>, plan: seq<Planned>)
    requires plan == [first] + rest
    requires Grown(c, d, Pass(now, config, [first])) && Grown(d, e, Pass(now, config, rest))
    requires MeetsAll(d, Pass(now, config, [first])) && MeetsAll(e, Pass(now, config, rest))
    ensures Grown(c, e, Pass(now, config, plan)) && MeetsAll(e, Pass(now, config, plan))
  {
    GrownTwice(c, d, e, Pass(now, config, plan), [first], rest);
    forall slot, due | Wants(Pass(now, config, plan), slot, due)
      ensures Met(e, slot, now, due)
    {
      MetByHalves(d, e, Pass(now, config, plan), first, rest, slot, due);
    }
  }

  lemma MetByHalves(d: Core, e: Core, p: Pass, first: Planned, rest: seq<Planned>, slot: Slot, due: int)
    requires p.plan == [first] + rest && Wants(p, slot, due) && Grown(d, e, p.(plan := rest))
    requires Wants(p.(plan := [first]), slot, due) ==> Met(d, slot, p.at, due)
    requires Wants(p.(plan := rest), slot, due) ==> Met(e, slot, p.at, due)
    ensures Met(e, slot, p.at, due)
  {
    if Wants(p.(plan := [first]), slot, due) {
      MetGrows(d, e, p.(plan := rest), slot, p.at, due);
    } else {
      assert Wants(p.(plan := rest), slot, due);
    }
  }

  // ---------------------------------------------------------------- each wanted event has one fate

  datatype Fate = Unplanned | Pending(due: int) | CaughtUp | Skipped

  function FateOf(now: int, due: int): Fate {
    if due >= now then Pending(due) else if now - due <= CATCH_UP then CaughtUp else Skipped
  }

  predicate SlotsDistinct(plan: seq<Planned>) {
    forall i, j :: 0 <= i < j < |plan| ==> plan[i].slot != plan[j].slot
  }

  function SlotFate(p: Pass, slot: Slot): Fate
    decreases |p.plan|
  {
    if p.plan == [] then Unplanned
    else if p.plan[0].slot == slot then
      if SwitchedOff(p.config, slot.kind) || !p.plan[0].time.At? then Unplanned
      else FateOf(p.at, Due(p.config, slot, p.plan[0].time.ms))
    else SlotFate(p.(plan := p.plan[1..]), slot)
  }

  lemma {:induction false} FateMeans(p: Pass, slot: Slot)
    requires SlotsDistinct(p.plan)
    ensures forall due :: Wants(p, slot, due) ==> SlotFate(p, slot) == FateOf(p.at, due)
    ensures (forall due :: !Wants(p, slot, due)) ==> SlotFate(p, slot) == Unplanned
    decreases |p.plan|
  {
    if p.plan != [] {
      var first, rest := p.plan[0], p.(plan := p.plan[1..]);
      assert p.plan == [first] + rest.plan;
      if first.slot == slot {
        assert forall q :: q in rest.plan ==> q.slot != slot;
        assert first.time.At? && !SwitchedOff(p.config, slot.kind) ==>
                 Wants(p, slot, Due(p.config, slot, first.time.ms));
      } else {
        FateMeans(rest, slot);
        assert forall due :: Wants(p, slot, due) <==> Wants(rest, slot, due);
      }
    }
  }

  function Fires(firings: seq<Firing>, slot: Slot): nat {
    if firings == [] then 0
    else Fires(firings[..|firings| - 1], slot) + (if firings[|firings| - 1].slot == slot then 1 else 0)
  }

  lemma FiresAppend(firings: seq<Firing>, f: Firing, slot: Slot)
    ensures Fires(firings + [f], slot) == Fires(firings, slot) + (if f.slot == slot then 1 else 0)
  {
    assert (firings + [f])[..|firings|] == firings;
  }

  lemma PushedCounts(c: Core, pushed: Slot, due: int, slot: Slot)
    requires Tidy(c)
    ensures |LiveJobs(Pushed(c, Automated(pushed), due), slot)| == |LiveJobs(c, slot)| + (if pushed == slot then 1 else 0)
  {
    PushedTidy(c, Automated(pushed), due);
    var job := Job(c.next, Automated(pushed), due);
    assert LiveJobs(Pushed(c, Automated(pushed), due), slot) == LiveJobs(c, slot) + (if pushed == slot then {job} else {});
    assert job !in LiveJobs(c, slot);
  }

  lemma SingletonFate(config: Config, now: int, planned: Planned, slot: Slot)
    ensures SlotFate(Pass(now, config, [planned]), slot) ==
              if planned.slot != slot || SwitchedOff(config, slot.kind) || !planned.time.At? then Unplanned
              else FateOf(now, Due(config, slot, planned.time.ms))
  {
    assert [planned][1..] == [];
  }

  lemma ScheduledCounts(c: Core, config: Config, now: int, planned: Planned, slot: Slot)
    requires Tidy(c)
    ensures var d := Scheduled(c, config, now, planned.slot, planned.time);
            var fate := SlotFate(Pass(now, config, [planned]), slot);
            && |LiveJobs(d, slot)| == |LiveJobs(c, slot)| + (if fate.Pending? then 1 else 0)
            && Fires(d.firings, slot) == Fires(c.firings, slot) + (if fate.CaughtUp? then 1 else 0)
  {
    SingletonFate(config, now, planned, slot);
    if !SwitchedOff(config, planned.slot.kind) && planned.time.At? {
      var due := Due(config, planned.slot, planned.time.ms);
      PushedCounts(c, planned.slot, due, slot);
      FiresAppend(c.firings, Firing(planned.slot, now), slot);
      if due < now {
        assert LiveJobs(c.(firings := c.firings + [Firing(planned.slot, now)]), slot) == LiveJobs(c, slot);
      }
    }
  }

  /** A pass gives each slot exactly one fate, and it adds one armed job for a pending event, one firing for an
      event caught up and neither otherwise. */
  lemma {:induction false} PassCounts(c: Core, config: Config, now: int, plan: seq<Planned>, slot: Slot)
    requires Tidy(c) && SlotsDistinct(plan)
    ensures var d := ScheduledAll(c, config, now, plan);
            var fate := SlotFate(Pass(now, config, plan), slot);
            && |LiveJobs(d, slot)| == |LiveJobs(c, slot)| + (if fate.Pending? then 1 else 0)
            && Fires(d.firings, slot) == Fires(c.firings, slot) + (if fate.CaughtUp? then 1 else 0)
    decreases |plan|
  {
    if plan != [] {
      var d := Scheduled(c, config, now, plan[0].slot, plan[0].time);
      ScheduledGrows(c, config, now, plan[0].slot, plan[0].time);
      ScheduledCounts(c, config, now, plan[0], slot);
      PassCounts(d, config, now, plan[1..], slot);
      var rest := Pass(now, config, plan[1..]);
      if plan[0].slot == slot {
        assert forall q :: q in rest.plan ==> q.slot != slot;
        FateMeans(rest, slot);
      }
    }
  }

  // ---------------------------------------------------------------- a pass plans no slot twice

  lemma DistinctConcat(a: seq<Planned>, b: seq<Planned>)
    requires SlotsDistinct(a) && SlotsDistinct(b) && forall x, y :: x in a && y in b ==> x.slot != y.slot
    ensures SlotsDistinct(a + b)
  {
    var all := a + b;
    forall i, j | 0 <= i < j < |all|
      ensures all[i].slot != all[j].slot
    {
      if i < |a| <= j {
        assert a[i] in a && b[j - |a|] in b;
      }
    }
  }

  lemma EventsDistinct(config: Config, p: Prayer, start: Iso, iqamah: Iso)
    ensures SlotsDistinct(EventsOf(config, p, start, iqamah))
    ensures forall e :: e in EventsOf(config, p, start, iqamah) ==> e.slot.prayer == p
  {
    var a, b := EventIf(config, Slot(p, AdhanEvent), start, false), EventIf(config, Slot(p, PreAdhan), start, true);
    var c, d := EventIf(config, Slot(p, IqamahEvent), iqamah, false), EventIf(config, Slot(p, PreIqamah), iqamah, true);
    DistinctConcat(a, b);
    DistinctConcat(c, d);
    DistinctConcat(a + b, c + d);
    assert a + b + [] == a + b;
  }

  lemma {:induction false} PlanDistinct(config: Config, day: Day, prayers: seq<Prayer>)
    requires forall i, j :: 0 <= i < j < |prayers| ==> prayers[i] != prayers[j]
    ensures SlotsDistinct(Plan(config, day, prayers))
    ensures forall e :: e in Plan(config, day, prayers) ==> e.slot.prayer in prayers
    decreases |prayers|
  {
    if prayers != [] {
      PlanDistinct(config, day, prayers[1..]);
      var p, start := prayers[0], Entry(day.starts, prayers[0]);
      var iqamah := SchedulerIqamah(day, config.prayers, p);
      if HasTriggers(config, p) && start != Absent && iqamah.Ok? {
        EventsDistinct(config, p, start, iqamah.value);
        assert p !in prayers[1..];
        var events, rest := EventsOf(config, p, start, iqamah.value), Plan(config, day, prayers[1..]);
        var all := events + rest;
        assert Plan(config, day, prayers) == all;
        forall i, j | 0 <= i < j < |all|
          ensures all[i].slot != all[j].slot
        {
          if i < |events| <= j {
            assert rest[j - |events|] in rest && events[i] in events;
          }
        }
      }
    }
  }

  lemma PlanOfDistinct(config: Config, data: Option<Day>)
    ensures SlotsDistinct(PlanOf(config, data))
  {
    if data.Some? {
      PlanDistinct(config, data.value, PRAYERS);
    }
  }

  // ---------------------------------------------------------------- every run

  /** The firing is what the pass wanted: at the due time, or in the catch-up minute at the moment of the pass. */
  ghost predicate InTime(p: Pass, f: Firing) {
    exists due :: Wants(p, f.slot, due) &&
                  ((p.at <= due && f.at == due) || (due < p.at <= due + CATCH_UP && f.at == p.at))
  }

  ghost predicate ArmedWanted(c: Core, passes: seq<Pass>, now: int) {
    forall j :: j in c.jobs && IsArmed(c, j) ==>
      now <= j.fireAt && exists p :: p in passes && p.at <= j.fireAt && Wants(p, j.kind.slot, j.fireAt)
  }

  ghost predicate FiringsWanted(firings: seq<Firing>, passes: seq<Pass>, now: int) {
    forall f :: f in firings ==> f.at <= now && exists p :: p in passes && InTime(p, f)
  }

  /** Nothing is armed and nothing has fired that no pass wanted at that time. */
  ghost predicate Accounted(s: State) {
    && (forall p :: p in s.passes ==> p.at <= s.now)
    && ArmedWanted(s.core, s.passes, s.now) && FiringsWanted(s.core.firings, s.passes, s.now)
  }

  /** Nothing wanted since the last clear is lost. */
  ghost predicate Honoured(s: State) {
    && s.resumed <= |s.passes|
    && forall i :: |s.passes| - s.resumed <= i < |s.passes| ==>
         forall slot, due :: Wants(s.passes[i], slot, due) ==> Met(s.core, slot, s.passes[i].at, due)
  }

  ghost predicate Bounded(s: State) {
    && s.resumed <= |s.passes|
    && (forall i :: 0 <= i < |s.passes| ==> SlotsDistinct(s.passes[i].plan))
    && (forall slot :: |LiveJobs(s.core, slot)| <= s.resumed)
    && (forall run :: run in s.waiting ==> run < s.nextRun)
  }

  ghost predicate Inv(s: State) {
    Tidy(s.core) && Upkeep(s.core, s.active) && Accounted(s) && Honoured(s) && Bounded(s)
  }

  lemma RestartedWith(c: Core, names: seq<string>)
    requires Tidy(c)
    ensures var d := WithMaintenance(Cleared(c), names);
            && Tidy(d) && Headed(d, names) && d.firings == c.firings
            && forall j :: j in d.jobs ==> j.kind.Maintenance?
  {
    var cleared := Cleared(c);
    ClearLeavesNone(c);
    MaintenancePushed(cleared, names);
    var d := WithMaintenance(cleared, names);
    assert forall i :: 0 <= i < |d.jobs| ==> d.jobs[|cleared.jobs| + i] == d.jobs[i];
  }

  lemma Restarted(c: Core)
    requires Tidy(c)
    ensures var d := WithMaintenance(Cleared(c), MAINTENANCE);
            && Tidy(d) && Upkeep(d, true) && d.firings == c.firings
            && forall j :: j in d.jobs ==> j.kind.Maintenance?
  {
    RestartedWith(c, MAINTENANCE);
  }

  lemma StartKeepsInv(s: State)
    requires Inv(s)
    ensures Inv(Step(s, Start))
  {
    Restarted(s.core);
    var t := Step(s, Start);
    assert forall slot :: LiveJobs(t.core, slot) == {};
    assert forall j :: j in t.core.jobs ==> !IsArmed(t.core, j);
  }

  lemma StopKeepsInv(s: State)
    requires Inv(s)
    ensures Inv(Step(s, StopAll))
    ensures Step(s, StopAll).core.live == {}
  {
    ClearLeavesNone(s.core);
    assert forall slot :: LiveJobs(Cleared(s.core), slot) == {};
  }

  lemma FiredCore(c: Core, active: bool, job: Job, now: int)
    requires Tidy(c) && Upkeep(c, active) && IsArmed(c, job)
    ensures var d := Fired(c, job, now);
            && Tidy(d) && Upkeep(d, active)
            && (forall j :: j in c.jobs ==> (j.id in d.live <==> j.id in c.live && j != job))
            && (forall slot :: LiveJobs(d, slot) == LiveJobs(c, slot) - {job})
  {
    forall j | j in c.jobs && j.id == job.id
      ensures j == job
    {
    }
  }

  lemma FiredMeets(c: Core, active: bool, job: Job, slot: Slot, at: int, due: int)
    requires Tidy(c) && Upkeep(c, active) && IsArmed(c, job) && Met(c, slot, at, due)
    ensures Met(Fired(c, job, job.fireAt), slot, at, due)
  {
    var d := Fired(c, job, job.fireAt);
    FiredCore(c, active, job, job.fireAt);
    assert d.firings[|c.firings|] == Firing(job.kind.slot, job.fireAt);
    assert forall f :: f in c.firings ==> f in d.firings;
    if j :| j in c.jobs && j.id in c.live && j.kind == Automated(slot) && j.fireAt == due {
      assert j != job ==> j in d.jobs && j.id in d.live;
    }
  }

  /** The wish a job was armed for is the wish its firing answers. */
  lemma FiringIsWanted(c: Core, passes: seq<Pass>, job: Job)
    requires IsArmed(c, job) && ArmedWanted(c, passes, job.fireAt) && FiringsWanted(c.firings, passes, job.fireAt)
    ensures FiringsWanted(Fired(c, job, job.fireAt).firings, passes, job.fireAt)
  {
    var p :| p in passes && p.at <= job.fireAt && Wants(p, job.kind.slot, job.fireAt);
    assert InTime(p, Firing(job.kind.slot, job.fireAt));
  }

  lemma FewerArmed(c: Core, d: Core, passes: seq<Pass>, now: int)
    requires ArmedWanted(c, passes, now) && d.jobs == c.jobs && d.live <= c.live
    ensures ArmedWanted(d, passes, now)
  {
    assert forall j :: IsArmed(d, j) ==> IsArmed(c, j);
  }

  lemma FireAccounts(s: State, job: Job)
    requires Inv(s) && Enabled(s, Fire(job))
    ensures Accounted(Step(s, Fire(job)))
  {
    FiringIsWanted(s.core, s.passes, job);
    FewerArmed(s.core, Fired(s.core, job, s.now), s.passes, s.now);
  }

  lemma FireKeepsInv(s: State, job: Job)
    requires Inv(s) && Enabled(s, Fire(job))
    ensures Inv(Step(s, Fire(job)))
  {
    FiredCore(s.core, s.active, job, s.now);
    FireAccounts(s, job);
    var t := Step(s, Fire(job));
    forall i, slot, due | |s.passes| - s.resumed <= i < |s.passes| && Wants(s.passes[i], slot, due)
      ensures Met(t.core, slot, s.passes[i].at, due)
    {
      FiredMeets(s.core, s.active, job, slot, s.passes[i].at, due);
    }
    assert Honoured(t);
    forall slot
      ensures |LiveJobs(t.core, slot)| <= t.resumed
    {
      Smaller(LiveJobs(s.core, slot), job);
    }
  }

  lemma Smaller(jobs: set<Job>, job: Job)
    ensures |jobs - {job}| == |jobs| - (if job in jobs then 1 else 0)
  {
    if job !in jobs {
      assert jobs - {job} == jobs;
    }
  }

  lemma GrownArmed(c: Core, d: Core, passes: seq<Pass>, p: Pass)
    requires Grown(c, d, p) && ArmedWanted(c, passes, p.at)
    ensures ArmedWanted(d, passes + [p], p.at)
  {
    forall j | j in d.jobs && IsArmed(d, j)
      ensures p.at <= j.fireAt && exists q :: q in passes + [p] && q.at <= j.fireAt && Wants(q, j.kind.slot, j.fireAt)
    {
      var i :| 0 <= i < |d.jobs| && d.jobs[i] == j;
      if i < |c.jobs| {
        assert c.jobs[i] == j && IsArmed(c, j);
        var q :| q in passes && q.at <= j.fireAt && Wants(q, j.kind.slot, j.fireAt);
        assert q in passes + [p];
      } else {
        assert p in passes + [p] && Wants(p, j.kind.slot, j.fireAt);
      }
    }
  }

  lemma GrownFirings(c: Core, d: Core, passes: seq<Pass>, p: Pass)
    requires Grown(c, d, p) && FiringsWanted(c.firings, passes, p.at)
    ensures FiringsWanted(d.firings, passes + [p], p.at)
  {
    forall f | f in d.firings
      ensures f.at <= p.at && exists q :: q in passes + [p] && InTime(q, f)
    {
      if f in c.firings {
        var q :| q in passes && InTime(q, f);
        assert q in passes + [p];
      } else {
        assert CaughtUpBy(p, f) && InTime(p, f) && p in passes + [p];
      }
    }
  }

  lemma ResumeAccounts(s: State, run: nat, plan: seq<Planned>)
    requires Inv(s)
    ensures Accounted(Resumed(s, run, plan))
  {
    var d, p := ScheduledAll(s.core, s.config, s.now, plan), Pass(s.now, s.config, plan);
    PassGrows(s.core, s.config, s.now, plan);
    GrownArmed(s.core, d, s.passes, p);
    GrownFirings(s.core, d, s.passes, p);
  }

  lemma ResumeHonours(s: State, run: nat, plan: seq<Planned>)
    requires Inv(s)
    ensures Honoured(Resumed(s, run, plan))
  {
    var t := Resumed(s, run, plan);
    var p := Pass(s.now, s.config, plan);
    PassGrows(s.core, s.config, s.now, plan);
    forall i, slot, due | |t.passes| - t.resumed <= i < |t.passes| && Wants(t.passes[i], slot, due)
      ensures Met(t.core, slot, t.passes[i].at, due)
    {
      if i < |s.passes| {
        MetGrows(s.core, t.core, p, slot, t.passes[i].at, due);
      }
    }
  }

  lemma ResumeBounds(s: State, run: nat, plan: seq<Planned>)
    requires Tidy(s.core) && Bounded(s) && SlotsDistinct(plan)
    ensures Bounded(Resumed(s, run, plan))
  {
    var t := Resumed(s, run, plan);
    forall slot
      ensures |LiveJobs(t.core, slot)| <= t.resumed
    {
      PassCounts(s.core, s.config, s.now, plan, slot);
    }
  }

  lemma GrownHeaded(c: Core, d: Core, p: Pass, names: seq<string>)
    requires Grown(c, d, p) && Headed(c, names)
    ensures Headed(d, names)
  {
  }

  lemma ResumeKeepsInv(s: State, run: nat, plan: seq<Planned>)
    requires Inv(s) && SlotsDistinct(plan)
    ensures Inv(Resumed(s, run, plan))
  {
    ResumeAccounts(s, run, plan);
    ResumeHonours(s, run, plan);
    ResumeBounds(s, run, plan);
    PassGrows(s.core, s.config, s.now, plan);
    GrownHeaded(s.core, Resumed(s, run, plan).core, Pass(s.now, s.config, plan), if s.active then MAINTENANCE else []);
  }

  lemma StepKeepsInv(s: State, e: Event)
    requires Inv(s) && Enabled(s, e)
    ensures Inv(Step(s, e))
  {
    match e
    case Tick(to) =>
    case Reconfigure(config) =>
    case Start => StartKeepsInv(s);
    case Resume(run, data) =>
      PlanOfDistinct(s.waiting[run], data);
      ResumeKeepsInv(s, run, PlanOf(s.waiting[run], data));
    case StopAll => StopKeepsInv(s);
    case Fire(job) => FireKeepsInv(s, job);
  }

  lemma {:induction false} RunKeepsInv(s: State, es: seq<Event>)
    requires Inv(s) && IsRun(s, es)
    ensures var t := After(s, es);
            Tidy(t.core) && Upkeep(t.core, t.active) && Accounted(t) && Honoured(t) && Bounded(t)
    decreases |es|
  {
    if es != [] {
      StepKeepsInv(s, es[0]);
      RunKeepsInv(Step(s, es[0]), es[1..]);
    }
  }

  // ---------------------------------------------------------------- main results: the job list

  function LiveMaintenance(c: Core): set<Job> {
    set j | j in c.jobs && j.kind.Maintenance? && j.id in c.live
  }

  lemma FiveHeads(c: Core)
    requires Tidy(c) && 5 <= |c.jobs|
    requires forall i :: 0 <= i < 5 ==> c.jobs[i].kind.Maintenance? && c.jobs[i].id in c.live
    requires forall i :: 5 <= i < |c.jobs| ==> c.jobs[i].kind.Automated?
    ensures |LiveMaintenance(c)| == 5
  {
    assert LiveMaintenance(c) == {c.jobs[0], c.jobs[1], c.jobs[2], c.jobs[3], c.jobs[4]};
  }

  predicate Runs(c: Core, name: string) {
    exists j :: j in LiveMaintenance(c) && j.kind == Maintenance(name)
  }

  lemma UpkeepCounts(c: Core, active: bool)
    requires Tidy(c) && Upkeep(c, active)
    ensures |LiveMaintenance(c)| == if active then 5 else 0
    ensures active ==> forall i :: 0 <= i < |MAINTENANCE| ==> Runs(c, MAINTENANCE[i])
  {
    if active {
      FiveHeads(c);
      forall i | 0 <= i < |MAINTENANCE|
        ensures Runs(c, MAINTENANCE[i])
      {
        assert c.jobs[i] in LiveMaintenance(c);
      }
    } else {
      assert LiveMaintenance(c) == {};
    }
  }

  lemma Starts(now: int, config: Config)
    ensures Inv(Initial(now, config))
  {
    assert forall slot :: LiveJobs(Initial(now, config).core, slot) == {};
  }

  /** In every interleaving clearing disarms everything, five maintenance jobs are armed from any start until the
      next stopAll and none after it, and a slot has no more armed jobs than passes resumed since the last clear. */
  lemma JobListSafe(now: int, config: Config, es: seq<Event>, slot: Slot)
    requires IsRun(Initial(now, config), es)
    ensures var s := After(Initial(now, config), es);
            && Cleared(s.core).live == {}
            && |LiveMaintenance(s.core)| == (if s.active then 5 else 0)
            && (s.active ==> forall i :: 0 <= i < |MAINTENANCE| ==> Runs(s.core, MAINTENANCE[i]))
            && |LiveJobs(s.core, slot)| <= s.resumed
  {
    Starts(now, config);
    RunKeepsInv(Initial(now, config), es);
    var s := After(Initial(now, config), es);
    ClearLeavesNone(s.core);
    UpkeepCounts(s.core, s.active);
  }

  /** No run starts while another waits at its await. */
  ghost predicate Serial(s: State, es: seq<Event>)
    requires IsRun(s, es)
    decreases |es|
  {
    es == [] || ((es[0].Start? ==> s.waiting == map[]) && Serial(Step(s, es[0]), es[1..]))
  }

  lemma SerialStep(s: State, e: Event)
    requires Enabled(s, e) && (e.Start? ==> s.waiting == map[]) && s.resumed + |s.waiting| <= 1
    ensures Step(s, e).resumed + |Step(s, e).waiting| <= 1
  {
    match e
    case Start =>
      assert s.waiting[s.nextRun := s.config] == map[s.nextRun := s.config];
    case Resume(run, _) =>
      assert |s.waiting.Keys| <= 1 && run in s.waiting.Keys;
      assert s.waiting.Keys - {run} == {} by {
        if other :| other in s.waiting.Keys - {run} {
          assert {run, other} <= s.waiting.Keys;
          Larger({run, other}, s.waiting.Keys);
        }
      }
      assert (s.waiting - {run}).Keys == {};
    case _ =>
  }

  lemma Larger(a: set<nat>, b: set<nat>)
    requires a <= b
    ensures |a| <= |b|
  {
    assert b == a + (b - a);
  }

  lemma {:induction false} SerialBounded(s: State, es: seq<Event>)
    requires IsRun(s, es) && Serial(s, es) && s.resumed + |s.waiting| <= 1
    ensures After(s, es).resumed + |After(s, es).waiting| <= 1
    decreases |es|
  {
    if es != [] {
      SerialStep(s, es[0]);
      SerialBounded(Step(s, es[0]), es[1..]);
    }
  }

  /** Runs that do not overlap never arm a slot twice. */
  lemma OneJobPerSlot(now: int, config: Config, es: seq<Event>, slot: Slot)
    requires IsRun(Initial(now, config), es) && Serial(Initial(now, config), es)
    ensures |LiveJobs(After(Initial(now, config), es).core, slot)| <= 1
  {
    JobListSafe(now, config, es, slot);
    SerialBounded(Initial(now, config), es);
  }

  // ---------------------------------------------------------------- main results: how often a slot is armed

  /** The event resumes a pass that finds the slot still to come. */
  predicate ArmsSlot(s: State, e: Event, slot: Slot)
    requires Enabled(s, e)
  {
    e.Resume? && SlotFate(Pass(s.now, s.config, PlanOf(s.waiting[e.run], e.data)), slot).Pending?
  }

  predicate FiresSlot(s: State, e: Event, slot: Slot)
    requires Enabled(s, e)
  {
    e.Fire? && e.job.kind.slot == slot
  }

  ghost function Arms(s: State, es: seq<Event>, slot: Slot): nat
    requires IsRun(s, es)
    decreases |es|
  {
    if es == [] then 0 else (if ArmsSlot(s, es[0], slot) then 1 else 0) + Arms(Step(s, es[0]), es[1..], slot)
  }

  ghost function TimersSpent(s: State, es: seq<Event>, slot: Slot): nat
    requires IsRun(s, es)
    decreases |es|
  {
    if es == [] then 0 else (if FiresSlot(s, es[0], slot) then 1 else 0) + TimersSpent(Step(s, es[0]), es[1..], slot)
  }

  predicate Clears(e: Event) {
    e.Start? || e.StopAll?
  }

  lemma ResumeArms(s: State, run: nat, data: Option<Day>, slot: Slot)
    requires Inv(s) && run in s.waiting
    ensures |LiveJobs(Step(s, Resume(run, data)).core, slot)| ==
              |LiveJobs(s.core, slot)| + if ArmsSlot(s, Resume(run, data), slot) then 1 else 0
  {
    var plan := PlanOf(s.waiting[run], data);
    PlanOfDistinct(s.waiting[run], data);
    PassCounts(s.core, s.config, s.now, plan, slot);
  }

  lemma ArmedStep(s: State, e: Event, slot: Slot)
    requires Inv(s) && Enabled(s, e) && !Clears(e)
    ensures |LiveJobs(Step(s, e).core, slot)| + (if FiresSlot(s, e, slot) then 1 else 0) ==
              |LiveJobs(s.core, slot)| + if ArmsSlot(s, e, slot) then 1 else 0
  {
    match e
    case Resume(run, data) => ResumeArms(s, run, data, slot);
    case Fire(job) =>
      FiredCore(s.core, s.active, job, s.now);
      Smaller(LiveJobs(s.core, slot), job);
    case _ =>
  }

  /** Conservation between clears, from any state and over any interleaving: armed jobs of a slot plus timers spent
      equal the armed jobs before plus the passes that found the slot still to come. */
  lemma {:induction false} ArmedConserved(s: State, es: seq<Event>, slot: Slot)
    requires Inv(s) && IsRun(s, es) && forall e :: e in es ==> !Clears(e)
    ensures |LiveJobs(After(s, es).core, slot)| + TimersSpent(s, es, slot) == |LiveJobs(s.core, slot)| + Arms(s, es, slot)
    decreases |es|
  {
    if es != [] {
      assert es[0] in es && forall e :: e in es[1..] ==> e in es;
      StepKeepsInv(s, es[0]);
      ArmedStep(s, es[0], slot);
      ArmedConserved(Step(s, es[0]), es[1..], slot);
    }
  }

  lemma ClearedSlots(s: State, clear: Event, slot: Slot)
    requires Inv(s) && Clears(clear)
    ensures LiveJobs(Step(s, clear).core, slot) == {}
  {
    if clear.Start? {
      Restarted(s.core);
    } else {
      ClearLeavesNone(s.core);
    }
  }

  /** After a clear in any state a slot is armed at most once if and only if at most one more pass found it still
      to come than timers of it have been spent. */
  lemma ArmedOnceIff(s: State, clear: Event, es: seq<Event>, slot: Slot)
    requires Inv(s) && Clears(clear) && IsRun(Step(s, clear), es) && forall e :: e in es ==> !Clears(e)
    ensures var t := Step(s, clear);
            && |LiveJobs(After(t, es).core, slot)| == Arms(t, es, slot) - TimersSpent(t, es, slot)
            && (|LiveJobs(After(t, es).core, slot)| <= 1 <==> Arms(t, es, slot) <= 1 + TimersSpent(t, es, slot))
  {
    StepKeepsInv(s, clear);
    ClearedSlots(s, clear, slot);
    ArmedConserved(Step(s, clear), es, slot);
  }

  /** In any state in which a run waits at its await when another starts: once both have resumed, a slot has one
      armed job for each of the two plans that finds it still to come, so one at most if and only if not both do. */
  lemma OverlapDuplicatesIff(s: State, run: nat, first: Option<Day>, second: Option<Day>, p: seq<Planned>, q: seq<Planned>, slot: Slot)
    requires Inv(s) && run in s.waiting && p == PlanOf(s.waiting[run], first) && q == PlanOf(s.config, second)
    ensures var both := Resumed(Resumed(Step(s, Start), run, p), s.nextRun, q);
            var (arms, armsToo) := (SlotFate(Pass(s.now, s.config, p), slot).Pending?, SlotFate(Pass(s.now, s.config, q), slot).Pending?);
            && |LiveJobs(both.core, slot)| == (if arms then 1 else 0) + (if armsToo then 1 else 0)
            && (|LiveJobs(both.core, slot)| <= 1 <==> !(arms && armsToo))
  {
    PlanOfDistinct(s.waiting[run], first);
    PlanOfDistinct(s.config, second);
    OverlapCounts(s, run, p, q, slot);
  }

  /** Those two resumptions are steps of the machine, in that order and in the other. */
  lemma OverlapIsARun(s: State, run: nat, first: Option<Day>, second: Option<Day>)
    requires Inv(s) && run in s.waiting
    ensures var t := Step(s, Start);
            && Enabled(t, Resume(run, first)) && Enabled(t, Resume(s.nextRun, second))
            && Step(t, Resume(run, first)) == Resumed(t, run, PlanOf(s.waiting[run], first))
            && Step(t, Resume(s.nextRun, second)) == Resumed(t, s.nextRun, PlanOf(s.config, second))
            && Enabled(Step(t, Resume(run, first)), Resume(s.nextRun, second))
            && Enabled(Step(t, Resume(s.nextRun, second)), Resume(run, first))
  {
  }

  lemma OverlapCounts(s: State, run: nat, p: seq<Planned>, q: seq<Planned>, slot: Slot)
    requires Inv(s) && run in s.waiting && SlotsDistinct(p) && SlotsDistinct(q)
    ensures var both := Resumed(Resumed(Step(s, Start), run, p), s.nextRun, q);
            |LiveJobs(both.core, slot)| == (if SlotFate(Pass(s.now, s.config, p), slot).Pending? then 1 else 0)
                                           + (if SlotFate(Pass(s.now, s.config, q), slot).Pending? then 1 else 0)
  {
    var t := Step(s, Start);
    StartKeepsInv(s);
    ClearedSlots(s, Start, slot);
    PassCounts(t.core, t.config, t.now, p, slot);
    ResumeKeepsInv(t, run, p);
    PassCounts(Resumed(t, run, p).core, t.config, t.now, q, slot);
  }

  /** A stopAll in any state: a run that was waiting then arms exactly the slots it finds still to come when it
      resumes, beside no maintenance. */
  lemma StopForgottenIff(s: State, run: nat, data: Option<Day>, slot: Slot)
    requires Inv(s) && run in s.waiting
    ensures var t := Step(s, StopAll);
            && t.core.live == {} && Enabled(t, Resume(run, data))
            && var u := Step(t, Resume(run, data));
               && |LiveJobs(u.core, slot)| == (if ArmsSlot(t, Resume(run, data), slot) then 1 else 0)
               && LiveMaintenance(u.core) == {}
  {
    var t := Step(s, StopAll);
    StopKeepsInv(s);
    ClearedSlots(s, StopAll, slot);
    ResumeArms(t, run, data, slot);
    StepKeepsInv(t, Resume(run, data));
    UpkeepCounts(Step(t, Resume(run, data)).core, false);
  }

  ghost predicate AlwaysQuiet(s: State, es: seq<Event>)
    requires IsRun(s, es)
    decreases |es|
  {
    s.core.live == {} && (es == [] || AlwaysQuiet(Step(s, es[0]), es[1..]))
  }

  /** Some resumed pass of the run finds some slot still to come. */
  ghost predicate EverArms(s: State, es: seq<Event>)
    requires IsRun(s, es)
    decreases |es|
  {
    es != [] && ((exists slot :: ArmsSlot(s, es[0], slot)) || EverArms(Step(s, es[0]), es[1..]))
  }

  lemma ArmedHasSlot(c: Core, id: nat)
    requires Tidy(c) && Upkeep(c, false) && id in c.live
    ensures exists slot :: LiveJobs(c, slot) != {}
  {
    assert id in Ids(c.jobs);
    var i :| 0 <= i < |c.jobs| && c.jobs[i].id == id;
    assert c.jobs[i] in LiveJobs(c, c.jobs[i].kind.slot);
  }

  lemma NothingArmed(c: Core)
    requires Tidy(c) && Upkeep(c, false) && forall slot :: LiveJobs(c, slot) == {}
    ensures c.live == {}
  {
    if id :| id in c.live {
      ArmedHasSlot(c, id);
    }
  }

  lemma QuietStep(s: State, e: Event)
    requires Inv(s) && !s.active && s.core.live == {} && Enabled(s, e) && !e.Start?
    ensures Step(s, e).core.live == {} <==> forall slot :: !ArmsSlot(s, e, slot)
    ensures !Step(s, e).active
  {
    assert forall slot :: LiveJobs(s.core, slot) == {};
    if e.Resume? {
      StepKeepsInv(s, e);
      var t := Step(s, e);
      forall slot
        ensures |LiveJobs(t.core, slot)| == if ArmsSlot(s, e, slot) then 1 else 0
      {
        ResumeArms(s, e.run, e.data, slot);
      }
      if forall slot :: !ArmsSlot(s, e, slot) {
        assert forall slot :: |LiveJobs(t.core, slot)| == 0;
        NothingArmed(t.core);
      } else {
        var slot :| ArmsSlot(s, e, slot);
        var j :| j in LiveJobs(t.core, slot);
        assert j.id in t.core.live;
      }
    }
  }

  lemma {:induction false} StoppedQuiet(s: State, es: seq<Event>)
    requires Inv(s) && !s.active && s.core.live == {} && IsRun(s, es) && forall e :: e in es ==> !e.Start?
    ensures AlwaysQuiet(s, es) <==> !EverArms(s, es)
    ensures s.waiting == map[] ==> !EverArms(s, es)
    decreases |es|
  {
    if es != [] {
      var t := Step(s, es[0]);
      assert es[0] in es && forall e :: e in es[1..] ==> e in es;
      QuietStep(s, es[0]);
      StepKeepsInv(s, es[0]);
      if t.core.live == {} {
        StoppedQuiet(t, es[1..]);
      } else {
        assert !AlwaysQuiet(t, es[1..]);
      }
    }
  }

  /** After a stopAll in any state nothing is armed until the next start if and only if no run that was waiting
      resumes to find a slot still to come; so always when no run was waiting. */
  lemma StopAllQuietIff(s: State, es: seq<Event>)
    requires Inv(s) && IsRun(Step(s, StopAll), es) && forall e :: e in es ==> !e.Start?
    ensures AlwaysQuiet(Step(s, StopAll), es) <==> !EverArms(Step(s, StopAll), es)
    ensures s.waiting == map[] ==> AlwaysQuiet(Step(s, StopAll), es)
  {
    StopKeepsInv(s);
    StoppedQuiet(Step(s, StopAll), es);
  }

  // ---------------------------------------------------------------- main results: timing

  /** Every firing, in any run, answers a wish of a pass, between the due time and a minute later. */
  lemma FiringsInTime(now: int, config: Config, es: seq<Event>, f: Firing)
    requires IsRun(Initial(now, config), es) && f in After(Initial(now, config), es).core.firings
    ensures exists p, due :: p in After(Initial(now, config), es).passes && Wants(p, f.slot, due)
                             && due <= f.at <= due + CATCH_UP && (f.at == due || f.at == p.at)
  {
    Starts(now, config);
    RunKeepsInv(Initial(now, config), es);
    var s := After(Initial(now, config), es);
    var p :| p in s.passes && InTime(p, f);
    var due :| Wants(p, f.slot, due) && ((p.at <= due && f.at == due) || (due < p.at <= due + CATCH_UP && f.at == p.at));
  }

  /** What a pass wanted is never lost unless a clear comes between: once its due time is over it has fired, on
      time when the pass came before it and at once when the pass came within the minute after. */
  lemma NothingLost(now: int, config: Config, es: seq<Event>, i: nat, slot: Slot, due: int)
    requires IsRun(Initial(now, config), es)
    requires var s := After(Initial(now, config), es);
             i < |s.passes| <= i + s.resumed && Wants(s.passes[i], slot, due) && due < s.now
    ensures var s := After(Initial(now, config), es);
            var p := s.passes[i];
            && (p.at <= due ==> Firing(slot, due) in s.core.firings)
            && (due < p.at <= due + CATCH_UP ==> Firing(slot, p.at) in s.core.firings)
  {
    Starts(now, config);
    RunKeepsInv(Initial(now, config), es);
    var s := After(Initial(now, config), es);
    assert Met(s.core, slot, s.passes[i].at, due);
    assert forall j :: j in s.core.jobs && IsArmed(s.core, j) ==> due < j.fireAt;
  }

  /** Every pass that wants the slot wants it at d. */
  ghost predicate SameWish(passes: seq<Pass>, slot: Slot, d: int) {
    forall p, due :: p in passes && Wants(p, slot, due) ==> due == d
  }

  /** Passes resumed in the minute that begins at d. */
  function Window(passes: seq<Pass>, d: int): nat {
    if passes == [] then 0
    else Window(passes[..|passes| - 1], d) + (if d <= passes[|passes| - 1].at <= d + CATCH_UP then 1 else 0)
  }

  ghost predicate Budget(s: State, slot: Slot, d: int) {
    SameWish(s.passes, slot, d) ==>
      && Fires(s.core.firings, slot) + |LiveJobs(s.core, slot)| <= 1 + Window(s.passes, d)
      && (s.now < d ==> Fires(s.core.firings, slot) == 0)
  }

  lemma SameWishFate(s: State, p: Pass, slot: Slot, d: int)
    requires SameWish([p], slot, d) && SlotsDistinct(p.plan)
    ensures SlotFate(p, slot) == Unplanned || SlotFate(p, slot) == FateOf(p.at, d)
  {
    FateMeans(p, slot);
    assert p in [p];
    if due :| Wants(p, slot, due) {
      assert due == d;
    }
  }

  lemma ResumeBudget(s: State, run: nat, plan: seq<Planned>, slot: Slot, d: int)
    requires Inv(s) && Budget(s, slot, d) && SlotsDistinct(plan) && s.resumed == 0
    ensures Budget(Resumed(s, run, plan), slot, d)
  {
    var t := Resumed(s, run, plan);
    var p := Pass(s.now, s.config, plan);
    assert t.passes == s.passes + [p] && t.passes[..|s.passes|] == s.passes;
    if SameWish(t.passes, slot, d) {
      assert forall q :: q in s.passes ==> q in t.passes;
      assert t.passes[|s.passes|] == p;
      assert SameWish(s.passes, slot, d) && SameWish([p], slot, d);
      SameWishFate(s, p, slot, d);
      PassCounts(s.core, s.config, s.now, plan, slot);
    }
  }

  lemma FireBudget(s: State, job: Job, slot: Slot, d: int)
    requires Inv(s) && Budget(s, slot, d) && Enabled(s, Fire(job))
    ensures Budget(Step(s, Fire(job)), slot, d)
  {
    FiredCore(s.core, s.active, job, s.now);
    FiresAppend(s.core.firings, Firing(job.kind.slot, s.now), slot);
    Smaller(LiveJobs(s.core, slot), job);
    if SameWish(s.passes, slot, d) && job.kind.slot == slot {
      assert job in LiveJobs(s.core, slot);
      var p :| p in s.passes && p.at <= job.fireAt && Wants(p, slot, job.fireAt);
      assert job.fireAt == d;
    }
  }

  lemma StepBudget(s: State, e: Event, slot: Slot, d: int)
    requires Inv(s) && Enabled(s, e) && Budget(s, slot, d) && s.resumed + |s.waiting| <= 1
    ensures Budget(Step(s, e), slot, d)
  {
    match e
    case Tick(to) =>
    case Reconfigure(config) =>
    case Start =>
      Restarted(s.core);
      assert LiveJobs(Step(s, Start).core, slot) == {};
    case Resume(run, data) =>
      assert s.waiting != map[];
      PlanOfDistinct(s.waiting[run], data);
      ResumeBudget(s, run, PlanOf(s.waiting[run], data), slot, d);
    case StopAll =>
      assert LiveJobs(Step(s, StopAll).core, slot) == {};
    case Fire(job) => FireBudget(s, job, slot, d);
  }

  lemma {:induction false} RunBudget(s: State, es: seq<Event>, slot: Slot, d: int)
    requires Inv(s) && Budget(s, slot, d) && s.resumed + |s.waiting| <= 1
    requires IsRun(s, es) && Serial(s, es)
    ensures Budget(After(s, es), slot, d)
    decreases |es|
  {
    if es != [] {
      StepKeepsInv(s, es[0]);
      StepBudget(s, es[0], slot, d);
      SerialStep(s, es[0]);
      RunBudget(Step(s, es[0]), es[1..], slot, d);
    }
  }

  /** One configuration and one day throughout; a fetch may still fail. */
  predicate Fixed(es: seq<Event>, day: Day) {
    forall e :: e in es ==> !e.Reconfigure? && (e.Resume? ==> e.data == None || e.data == Some(day))
  }

  ghost predicate OnePlan(s: State, config: Config, plan: seq<Planned>) {
    && s.config == config
    && (forall run :: run in s.waiting ==> s.waiting[run] == config)
    && forall p :: p in s.passes ==> p.config == config && (p.plan == [] || p.plan == plan)
  }

  lemma {:induction false} FixedRun(s: State, es: seq<Event>, config: Config, day: Day, plan: seq<Planned>)
    requires IsRun(s, es) && Fixed(es, day) && OnePlan(s, config, plan) && plan == Plan(config, day, PRAYERS)
    ensures OnePlan(After(s, es), config, plan)
    decreases |es|
  {
    if es != [] {
      assert es[0] in es && forall e :: e in es[1..] ==> e in es;
      FixedStep(s, es[0], config, day, plan);
      FixedRun(Step(s, es[0]), es[1..], config, day, plan);
    }
  }

  lemma FixedStep(s: State, e: Event, config: Config, day: Day, plan: seq<Planned>)
    requires Enabled(s, e) && Fixed([e], day) && OnePlan(s, config, plan) && plan == Plan(config, day, PRAYERS)
    ensures OnePlan(Step(s, e), config, plan)
  {
    assert e in [e];
  }

  /** Under one configuration and one day, runs that do not overlap fire an event due at d at most once more
      than there are passes in the minute from d, and never before d. */
  lemma FiringBudget(now: int, config: Config, day: Day, es: seq<Event>, slot: Slot, d: int)
    requires IsRun(Initial(now, config), es) && Serial(Initial(now, config), es) && Fixed(es, day)
    ensures var s := After(Initial(now, config), es);
            Wants(Pass(now, config, Plan(config, day, PRAYERS)), slot, d) ==>
              && Fires(s.core.firings, slot) <= 1 + Window(s.passes, d)
              && (s.now < d ==> Fires(s.core.firings, slot) == 0)
  {
    if Wants(Pass(now, config, Plan(config, day, PRAYERS)), slot, d) {
      BudgetOfPlan(now, config, day, es, slot, d, Plan(config, day, PRAYERS));
    }
  }

  lemma BudgetOfPlan(now: int, config: Config, day: Day, es: seq<Event>, slot: Slot, d: int, plan: seq<Planned>)
    requires IsRun(Initial(now, config), es) && Serial(Initial(now, config), es) && Fixed(es, day)
    requires plan == Plan(config, day, PRAYERS) && Wants(Pass(now, config, plan), slot, d)
    ensures var s := After(Initial(now, config), es);
            && Fires(s.core.firings, slot) <= 1 + Window(s.passes, d)
            && (s.now < d ==> Fires(s.core.firings, slot) == 0)
  {
    var s0, s := Initial(now, config), After(Initial(now, config), es);
    Starts(now, config);
    assert LiveJobs(s0.core, slot) == {};
    RunBudget(s0, es, slot, d);
    FixedRun(s0, es, config, day, plan);
    PlanOfDistinct(config, Some(day));
    forall p, due | p in s.passes && Wants(p, slot, due)
      ensures due == d
    {
      OneWish(p, Pass(now, config, plan), slot, due, d);
    }
  }

  lemma OneWish(p: Pass, q: Pass, slot: Slot, due: int, d: int)
    requires Wants(p, slot, due) && Wants(q, slot, d) && SlotsDistinct(q.plan)
    requires p.config == q.config && (p.plan == [] || p.plan == q.plan)
    ensures due == d
  {
    var lead := MaxLead(p.config.automation, slot);
    var i :| 0 <= i < |q.plan| && q.plan[i] == Planned(slot, At(due + lead));
    var j :| 0 <= j < |q.plan| && q.plan[j] == Planned(slot, At(d + lead));
    assert i == j;
  }
}
