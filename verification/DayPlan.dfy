/** What one pass of initScheduler plans for a day, slot by slot, and what its runs therefore fire. */
module DayPlan {
  import opened Outcomes
  import opened Calculations
  import opened IqamahRule
  import opened StaggeredLaunch
  import opened Scheduler
  import opened SchedulerRuns

  // ---------------------------------------------------------------- the day's own times

  predicate HasStart(day: Day, p: Prayer) {
    p in day.starts && day.starts[p] != Absent
  }

  predicate HasTrigger(config: Config, slot: Slot) {
    slot in config.automation.triggers && config.automation.triggers[slot].enabled
  }

  /** `time` is `minutes` before `base`; an unreadable time stays unreadable. */
  predicate Earlier(base: Iso, minutes: int, time: Iso) {
    if base.At? then time.At? && base.ms - time.ms == minutes * 60000 else time == base
  }

  /** The time an enabled trigger is for: the prayer's start, the iqamah the rule picks, or so many minutes before it. */
  predicate TimeFor(config: Config, day: Day, slot: Slot, time: Iso)
    requires HasStart(day, slot.prayer) && HasTrigger(config, slot)
  {
    var minutes := config.automation.triggers[slot].offsetMinutes;
    var picked := SchedulerIqamah(day, config.prayers, slot.prayer);
    match slot.kind
    case AdhanEvent => time == day.starts[slot.prayer]
    case PreAdhan => Earlier(day.starts[slot.prayer], minutes, time)
    case IqamahEvent => slot.prayer != Sunrise && picked.Ok? && picked.value != Absent && time == picked.value
    case PreIqamah => slot.prayer != Sunrise && picked.Ok? && picked.value != Absent && Earlier(picked.value, minutes, time)
  }

  /** The pass comes to the prayer and its iqamah calculation throws. */
  ghost predicate Throws(config: Config, day: Day, p: Prayer) {
    && HasStart(day, p) && (exists kind :: Slot(p, kind) in config.automation.triggers)
    && SchedulerIqamah(day, config.prayers, p).Err?
  }

  /** No calculation throws up to and including this prayer's. */
  ghost predicate Reached(config: Config, day: Day, prayers: seq<Prayer>, p: Prayer) {
    exists i :: 0 <= i < |prayers| && prayers[i] == p && forall j :: 0 <= j <= i ==> !Throws(config, day, prayers[j])
  }

  ghost predicate WantedIn(config: Config, day: Day, prayers: seq<Prayer>, slot: Slot, time: Iso) {
    Reached(config, day, prayers, slot.prayer) && HasStart(day, slot.prayer) && HasTrigger(config, slot) && TimeFor(config, day, slot, time)
  }

  // ---------------------------------------------------------------- the plan has exactly these

  lemma EventIfSays(config: Config, at: Slot, base: Iso, shift: bool, slot: Slot, time: Iso)
    ensures Planned(slot, time) in EventIf(config, at, base, shift) <==>
              && slot == at && HasTrigger(config, slot)
              && if shift then Earlier(base, config.automation.triggers[slot].offsetMinutes, time) else time == base
  {
  }

  lemma EventsSay(config: Config, p: Prayer, start: Iso, iqamah: Iso, slot: Slot, time: Iso)
    ensures Planned(slot, time) in EventsOf(config, p, start, iqamah) <==>
              && slot.prayer == p && HasTrigger(config, slot)
              && var minutes := config.automation.triggers[slot].offsetMinutes;
                 match slot.kind
                 case AdhanEvent => time == start
                 case PreAdhan => Earlier(start, minutes, time)
                 case IqamahEvent => iqamah != Absent && p != Sunrise && time == iqamah
                 case PreIqamah => iqamah != Absent && p != Sunrise && Earlier(iqamah, minutes, time)
  {
    EventIfSays(config, Slot(p, AdhanEvent), start, false, slot, time);
    EventIfSays(config, Slot(p, PreAdhan), start, true, slot, time);
    EventIfSays(config, Slot(p, IqamahEvent), iqamah, false, slot, time);
    EventIfSays(config, Slot(p, PreIqamah), iqamah, true, slot, time);
  }

  lemma ReachedTail(config: Config, day: Day, prayers: seq<Prayer>, p: Prayer)
    requires prayers != [] && prayers[0] != p
    ensures Reached(config, day, prayers, p) <==> !Throws(config, day, prayers[0]) && Reached(config, day, prayers[1..], p)
  {
    if i :| 0 <= i < |prayers| && prayers[i] == p && forall j :: 0 <= j <= i ==> !Throws(config, day, prayers[j]) {
      assert prayers[1..][i - 1] == p;
      assert forall j :: 0 <= j <= i - 1 ==> prayers[1..][j] == prayers[j + 1];
    }
    if Reached(config, day, prayers[1..], p) && !Throws(config, day, prayers[0]) {
      var i :| 0 <= i < |prayers[1..]| && prayers[1..][i] == p && forall j :: 0 <= j <= i ==> !Throws(config, day, prayers[1..][j]);
      assert prayers[i + 1] == p;
      assert forall j :: 1 <= j <= i + 1 ==> prayers[j] == prayers[1..][j - 1];
    }
  }

  lemma ReachedHead(config: Config, day: Day, prayers: seq<Prayer>)
    requires prayers != []
    ensures Throws(config, day, prayers[0]) ==> forall p :: !Reached(config, day, prayers, p)
    ensures !Throws(config, day, prayers[0]) ==> Reached(config, day, prayers, prayers[0])
  {
  }

  /** The head of the list, taken by itself. */
  lemma HeadSays(config: Config, day: Day, prayers: seq<Prayer>, iqamah: Iso, slot: Slot, time: Iso)
    requires prayers != [] && HasStart(day, prayers[0]) && HasTriggers(config, prayers[0])
    requires SchedulerIqamah(day, config.prayers, prayers[0]) == Ok(iqamah) && slot.prayer == prayers[0]
    ensures Planned(slot, time) in EventsOf(config, prayers[0], day.starts[prayers[0]], iqamah) <==>
              WantedIn(config, day, prayers, slot, time)
  {
    EventsSay(config, prayers[0], day.starts[prayers[0]], iqamah, slot, time);
    ReachedHead(config, day, prayers);
  }

  lemma {:induction false} PlanSaysIn(config: Config, day: Day, prayers: seq<Prayer>, slot: Slot, time: Iso)
    requires forall i, j :: 0 <= i < j < |prayers| ==> prayers[i] != prayers[j]
    ensures Planned(slot, time) in Plan(config, day, prayers) <==> WantedIn(config, day, prayers, slot, time)
    decreases |prayers|
  {
    if prayers != [] {
      var p, rest := prayers[0], prayers[1..];
      PlanSaysIn(config, day, rest, slot, time);
      PlanDistinct(config, day, rest);
      ReachedHead(config, day, prayers);
      assert p !in rest;
      if slot.prayer != p {
        ReachedTail(config, day, prayers, slot.prayer);
      }
      if HasTriggers(config, p) && HasStart(day, p) {
        match SchedulerIqamah(day, config.prayers, p)
        case Err(_) =>
        case Ok(iqamah) =>
          EventsDistinct(config, p, day.starts[p], iqamah);
          if slot.prayer == p {
            HeadSays(config, day, prayers, iqamah, slot, time);
          }
      }
    }
  }

  /** A pass plans, for each prayer that has a start and for which no calculation throws up to and including its own,
      exactly its enabled triggers, each at its own time: adhan at the start, iqamah at the instant the rule picks, the
      other two so many minutes before; sunrise has no iqamah, and nothing else is planned. */
  lemma PlanSays(config: Config, day: Day, slot: Slot, time: Iso)
    ensures Planned(slot, time) in Plan(config, day, PRAYERS) <==> WantedIn(config, day, PRAYERS, slot, time)
  {
    PrayersDiffer();
    PlanSaysIn(config, day, PRAYERS, slot, time);
  }

  lemma PrayersDiffer()
    ensures forall i, j :: 0 <= i < j < |PRAYERS| ==> PRAYERS[i] != PRAYERS[j]
  {
  }

  /** What a pass over this plan wants from the slot. */
  lemma WantsPlanned(p: Pass, slot: Slot, due: int)
    ensures Wants(p, slot, due) <==>
              && !(p.config.switches.allOff || slot.kind in p.config.switches.kindsOff)
              && Planned(slot, At(due + MaxLead(p.config.automation, slot))) in p.plan
  {
  }

  lemma PlanOfSome(config: Config, day: Day) returns (plan: seq<Planned>)
    ensures plan == PlanOf(config, Some(day)) && plan == Plan(config, day, PRAYERS)
  {
    plan := PlanOf(config, Some(day));
  }

  /** So what a resumed run wants are the day's own times, early by the largest lead, unless the kind is switched off. */
  lemma WantsTheDaysTimes(p: Pass, mine: Config, day: Day, slot: Slot, due: int)
    requires p.plan == PlanOf(mine, Some(day))
    ensures Wants(p, slot, due) <==>
              && !(p.config.switches.allOff || slot.kind in p.config.switches.kindsOff)
              && WantedIn(mine, day, PRAYERS, slot, At(due + MaxLead(p.config.automation, slot)))
  {
    var plan := PlanOfSome(mine, day);
    PlanSays(mine, day, slot, At(due + MaxLead(p.config.automation, slot)));
    WantsPlanned(p, slot, due);
  }

  // ---------------------------------------------------------------- over every run

  /** Somewhere in the run a pass, at this moment, wants the slot due then by its day's own times. */
  ghost predicate EverWanted(s: State, es: seq<Event>, slot: Slot, due: int, at: int)
    requires IsRun(s, es)
    decreases |es|
  {
    es != []
    && ((at == s.now && es[0].Resume? && es[0].data.Some?
         && !(s.config.switches.allOff || slot.kind in s.config.switches.kindsOff)
         && WantedIn(s.waiting[es[0].run], es[0].data.value, PRAYERS, slot, At(due + MaxLead(s.config.automation, slot))))
        || EverWanted(Step(s, es[0]), es[1..], slot, due, at))
  }

  /** A pass this event adds is a resumption's, and what it wants are its day's own times. */
  lemma NewPassWants(s: State, e: Event, p: Pass, slot: Slot, due: int)
    requires Enabled(s, e) && p in Step(s, e).passes && p !in s.passes && Wants(p, slot, due)
    ensures p.at == s.now && e.Resume? && e.data.Some?
    ensures !(s.config.switches.allOff || slot.kind in s.config.switches.kindsOff)
    ensures WantedIn(s.waiting[e.run], e.data.value, PRAYERS, slot, At(due + MaxLead(s.config.automation, slot)))
  {
    NewPassIs(s, e, p);
    WantsPlanned(p, slot, due);
    WantsTheDaysTimes(p, s.waiting[e.run], e.data.value, slot, due);
  }

  lemma NewPassIs(s: State, e: Event, p: Pass)
    requires Enabled(s, e) && p in Step(s, e).passes && p !in s.passes
    ensures e.Resume? && p.at == s.now && p.config == s.config && p.plan == PlanOf(s.waiting[e.run], e.data)
    ensures e.data == None ==> p.plan == []
  {
  }

  /** Every pass was made by a resumption in the run, or before it. */
  lemma {:induction false} PassesWere(s: State, es: seq<Event>, p: Pass, slot: Slot, due: int)
    requires IsRun(s, es) && p in After(s, es).passes && Wants(p, slot, due)
    ensures p in s.passes || EverWanted(s, es, slot, due, p.at)
    decreases |es|
  {
    if es != [] {
      PassesWere(Step(s, es[0]), es[1..], p, slot, due);
      if p in Step(s, es[0]).passes && p !in s.passes {
        NewPassWants(s, es[0], p, slot, due);
      }
    }
  }

  /** In every interleaving each firing answers a pass for the very time of its day: at that time less the largest lead,
      or, when the pass came in the minute after, at the moment of the pass. */
  lemma FiringsAnswerTheDay(now: int, config: Config, es: seq<Event>, f: Firing)
    requires IsRun(Initial(now, config), es) && f in After(Initial(now, config), es).core.firings
    ensures exists due, at :: EverWanted(Initial(now, config), es, f.slot, due, at)
                              && due <= f.at <= due + 60000 && (f.at == due || f.at == at)
  {
    FiringsInTime(now, config, es, f);
    var s := After(Initial(now, config), es);
    var p, due :| p in s.passes && Wants(p, f.slot, due) && due <= f.at <= due + CATCH_UP && (f.at == due || f.at == p.at);
    PassesWere(Initial(now, config), es, p, f.slot, due);
    assert EverWanted(Initial(now, config), es, f.slot, due, p.at);
  }
}
