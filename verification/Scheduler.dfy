/** schedulerService: the job list, its clearing, one scheduling pass and its timing. */
module Scheduler {
  import opened Outcomes
  import opened Calculations
  import opened IqamahRule
  import opened StaggeredLaunch

  const CATCH_UP := 60000

  datatype JobKind = Maintenance(name: string) | Automated(slot: Slot)

  /** A node-schedule job; fireAt only matters for the one-shot automation jobs. */
  datatype Job = Job(id: nat, kind: JobKind, fireAt: int)

  /** A call of automationService.triggerEvent. */
  datatype Firing = Firing(slot: Slot, at: int)

  /** Global switches that are off. */
  datatype Switches = Switches(allOff: bool, kindsOff: set<EventKind>)

  datatype Config = Config(automation: Automation, switches: Switches, prayers: PrayerConfig)

  /** The module array `jobs`, the jobs whose timer is armed, and what has been fired. */
  datatype Core = Core(jobs: seq<Job>, live: set<nat>, next: nat, firings: seq<Firing>)

  const MAINTENANCE: seq<string> :=
    ["Maintenance: Stale Check", "Maintenance: Year Boundary", "Maintenance: Health Check",
     "Maintenance: Audio Assets", "System: Midnight Refresh"]

  function Ids(jobs: seq<Job>): set<nat> {
    set i | 0 <= i < |jobs| :: jobs[i].id
  }

  function Cleared(c: Core): Core {
    c.(jobs := [], live := c.live - Ids(c.jobs))
  }

  function Pushed(c: Core, kind: JobKind, fireAt: int): Core {
    c.(jobs := c.jobs + [Job(c.next, kind, fireAt)], live := c.live + {c.next}, next := c.next + 1)
  }

  function WithMaintenance(c: Core, names: seq<string>): Core
    decreases |names|
  {
    if names == [] then c else WithMaintenance(Pushed(c, Maintenance(names[0]), 0), names[1..])
  }

  predicate SwitchedOff(config: Config, kind: EventKind) {
    config.switches.allOff || kind in config.switches.kindsOff
  }

  /** The moment an event for time t is due: early by the largest lead. */
  function Due(config: Config, slot: Slot, t: int): int {
    t - MaxLead(config.automation, slot)
  }

  /** scheduleEvent for a valid date; an invalid one compares false and node-schedule declines it. */
  function Scheduled(c: Core, config: Config, now: int, slot: Slot, time: Iso): Core {
    if SwitchedOff(config, slot.kind) || !time.At? then c
    else
      var due := Due(config, slot, time.ms);
      if due >= now then Pushed(c, Automated(slot), due)
      else if now - due <= CATCH_UP then c.(firings := c.firings + [Firing(slot, now)])
      else c
  }

  /** One event a pass wants scheduled. */
  datatype Planned = Planned(slot: Slot, time: Iso)

  function ScheduledAll(c: Core, config: Config, now: int, plan: seq<Planned>): Core
    decreases |plan|
  {
    if plan == [] then c
    else ScheduledAll(Scheduled(c, config, now, plan[0].slot, plan[0].time), config, now, plan[1..])
  }

  function Shifted(time: Iso, minutes: int): Iso {
    if time.At? then At(time.ms - minutes * MINUTE) else time
  }

  function EventIf(config: Config, slot: Slot, base: Iso, shift: bool): seq<Planned> {
    if slot in config.automation.triggers && config.automation.triggers[slot].enabled
    then [Planned(slot, if shift then Shifted(base, config.automation.triggers[slot].offsetMinutes) else base)]
    else []
  }

  predicate HasTriggers(config: Config, p: Prayer) {
    exists kind :: Slot(p, kind) in config.automation.triggers
  }

  function EventsOf(config: Config, p: Prayer, start: Iso, iqamah: Iso): seq<Planned> {
    EventIf(config, Slot(p, AdhanEvent), start, false)
    + EventIf(config, Slot(p, PreAdhan), start, true)
    + (if iqamah != Absent && p != Sunrise
       then EventIf(config, Slot(p, IqamahEvent), iqamah, false) + EventIf(config, Slot(p, PreIqamah), iqamah, true)
       else [])
  }

  /** What a pass schedules, in order; a calculation that throws ends the pass. */
  function Plan(config: Config, day: Day, prayers: seq<Prayer>): seq<Planned>
    decreases |prayers|
  {
    if prayers == [] then []
    else
      var p := prayers[0];
      var start := Entry(day.starts, p);
      if !HasTriggers(config, p) || start == Absent then Plan(config, day, prayers[1..])
      else match SchedulerIqamah(day, config.prayers, p)
        case Err(_) => []
        case Ok(iqamah) => EventsOf(config, p, start, iqamah) + Plan(config, day, prayers[1..])
  }

  class SchedulerService {
    var jobs: seq<Job>
    var live: set<nat>
    var next: nat
    var firings: seq<Firing>

    constructor ()
      ensures State() == Core([], {}, 0, [])
    {
      jobs, live, next, firings := [], {}, 0, [];
    }

    function State(): Core
      reads this
    {
      Core(jobs, live, next, firings)
    }

    method ClearJobs()
      modifies this
      ensures State() == Cleared(old(State()))
    {
      for i := 0 to |jobs|
        invariant jobs == old(jobs) && next == old(next) && firings == old(firings)
        invariant live == old(live) - Ids(jobs[..i])
      {
        assert Ids(jobs[..i + 1]) == Ids(jobs[..i]) + {jobs[i].id} by {
          assert jobs[..i + 1] == jobs[..i] + [jobs[i]];
          IdsAppend(jobs[..i], jobs[i]);
        }
        live := live - {jobs[i].id};
      }
      assert jobs[..|jobs|] == jobs;
      jobs := [];
    }

    method ScheduleJob(kind: JobKind, fireAt: int)
      modifies this
      ensures State() == Pushed(old(State()), kind, fireAt)
    {
      live := live + {next};
      jobs := jobs + [Job(next, kind, fireAt)];
      next := next + 1;
    }

    method ScheduleMaintenanceJobs()
      modifies this
      ensures State() == WithMaintenance(old(State()), MAINTENANCE)
    {
      for i := 0 to |MAINTENANCE|
        invariant WithMaintenance(State(), MAINTENANCE[i..]) == WithMaintenance(old(State()), MAINTENANCE)
      {
        assert MAINTENANCE[i..][1..] == MAINTENANCE[i + 1..];
        ScheduleJob(Maintenance(MAINTENANCE[i]), 0);
      }
    }

    method ScheduleEvent(config: Config, now: int, slot: Slot, date: Iso)
      modifies this
      ensures State() == Scheduled(old(State()), config, now, slot, date)
    {
      if config.switches.allOff {
        return;
      }
      if slot.kind in config.switches.kindsOff {
        return;
      }
      if !date.At? {
        return;
      }
      var maxLeadTime := GetMaxLeadTime(config.automation, slot);
      var adjusted := date.ms - maxLeadTime;
      if adjusted < now {
        if now - adjusted <= CATCH_UP {
          firings := firings + [Firing(slot, now)];
        }
        return;
      }
      ScheduleJob(Automated(slot), adjusted);
    }

    /** initScheduler up to its await. */
    method InitStart()
      modifies this
      ensures State() == WithMaintenance(Cleared(old(State())), MAINTENANCE)
    {
      ClearJobs();
      ScheduleMaintenanceJobs();
    }

    method ScheduleIfEnabled(mine: Config, current: Config, now: int, slot: Slot, base: Iso, shift: bool)
      modifies this
      ensures State() == ScheduledAll(old(State()), current, now, EventIf(mine, slot, base, shift))
    {
      if slot in mine.automation.triggers && mine.automation.triggers[slot].enabled {
        var date := base;
        if shift {
          date := Shifted(base, mine.automation.triggers[slot].offsetMinutes);
        }
        ScheduleEvent(current, now, slot, date);
      }
    }

    /** One turn of initScheduler's loop: the four events of a prayer that has times. */
    method SchedulePrayer(mine: Config, current: Config, now: int, prayer: Prayer, start: Iso, iqamah: Iso)
      modifies this
      ensures State() == ScheduledAll(old(State()), current, now, EventsOf(mine, prayer, start, iqamah))
    {
      ghost var here := State();
      var a, b := EventIf(mine, Slot(prayer, AdhanEvent), start, false), EventIf(mine, Slot(prayer, PreAdhan), start, true);
      ScheduleIfEnabled(mine, current, now, Slot(prayer, AdhanEvent), start, false);
      ScheduleIfEnabled(mine, current, now, Slot(prayer, PreAdhan), start, true);
      ScheduledAllAppend(here, current, now, a, b);
      if iqamah != Absent && prayer != Sunrise {
        var c := EventIf(mine, Slot(prayer, IqamahEvent), iqamah, false);
        var d := EventIf(mine, Slot(prayer, PreIqamah), iqamah, true);
        ScheduleIfEnabled(mine, current, now, Slot(prayer, IqamahEvent), iqamah, false);
        ScheduleIfEnabled(mine, current, now, Slot(prayer, PreIqamah), iqamah, true);
        ScheduledAllAppend(here, current, now, a + b, c);
        ScheduledAllAppend(here, current, now, a + b + c, d);
        assert a + b + (c + d) == a + b + c + d;
      } else {
        assert a + b + [] == a + b;
      }
    }

    /** initScheduler from its await on. `mine` is the configuration read before it, `current` the one
        scheduleEvent reads now; no data ends the pass. */
    method InitResume(mine: Config, current: Config, now: int, data: Option<Day>)
      modifies this
      ensures State() == if data.Some? then ScheduledAll(old(State()), current, now, Plan(mine, data.value, PRAYERS))
                         else old(State())
    {
      if data == None {
        return;
      }
      var day := data.value;
      ghost var before := State();
      for i := 0 to |PRAYERS|
        invariant ScheduledAll(State(), current, now, Plan(mine, day, PRAYERS[i..])) ==
                  ScheduledAll(before, current, now, Plan(mine, day, PRAYERS))
      {
        var prayer := PRAYERS[i];
        assert PRAYERS[i..][1..] == PRAYERS[i + 1..];
        if !HasTriggers(mine, prayer) {
          continue;
        }
        var start := Entry(day.starts, prayer);
        if start == Absent {
          continue;
        }
        var iqamah := SchedulerIqamah(day, mine.prayers, prayer);
        if iqamah.Err? {
          return;
        }
        ScheduledAllAppend(State(), current, now, EventsOf(mine, prayer, start, iqamah.value), Plan(mine, day, PRAYERS[i + 1..]));
        SchedulePrayer(mine, current, now, prayer, start, iqamah.value);
      }
    }

    /** A one-shot timer goes off: the job stays in the array but its timer is spent. */
    method FireTimer(job: Job, now: int)
      requires job.kind.Automated?
      modifies this
      ensures State() == old(State()).(live := old(live) - {job.id}, firings := old(firings) + [Firing(job.kind.slot, now)])
    {
      live := live - {job.id};
      firings := firings + [Firing(job.kind.slot, now)];
    }
  }

  lemma IdsAppend(jobs: seq<Job>, j: Job)
    ensures Ids(jobs + [j]) == Ids(jobs) + {j.id}
  {
    var all := jobs + [j];
    forall id
      ensures id in Ids(all) <==> id in Ids(jobs) || id == j.id
    {
      if id in Ids(jobs) {
        var i :| 0 <= i < |jobs| && jobs[i].id == id;
        assert all[i].id == id;
      }
      if id == j.id {
        assert all[|jobs|].id == id;
      }
    }
  }

  lemma {:induction false} ScheduledAllAppend(c: Core, config: Config, now: int, a: seq<Planned>, b: seq<Planned>)
    ensures ScheduledAll(c, config, now, a + b) == ScheduledAll(ScheduledAll(c, config, now, a), config, now, b)
    decreases |a|
  {
    if a == [] {
      assert a + b == b;
    } else {
      assert (a + b)[0] == a[0] && (a + b)[1..] == a[1..] + b;
      ScheduledAllAppend(Scheduled(c, config, now, a[0].slot, a[0].time), config, now, a[1..], b);
    }
  }
}
