/** Where an iqamah time comes from: the override applied to served days and the three places that
    pick one, for the dashboard, for the scheduler and for diagnostics. */
module IqamahRule {
  import opened Outcomes
  import opened Calculations

  datatype Prayer = Fajr | Sunrise | Dhuhr | Asr | Maghrib | Isha

  const PRAYERS: seq<Prayer> := [Fajr, Sunrise, Dhuhr, Asr, Maghrib, Isha]
  const PRAYERS_WITH_IQAMAH: seq<Prayer> := [Fajr, Dhuhr, Asr, Maghrib, Isha]

  /** One day as a provider delivers it; a missing entry is Absent. */
  datatype Day = Day(starts: map<Prayer, Iso>, iqamah: map<Prayer, Iso>)

  datatype PrayerConfig = PrayerConfig(prayers: map<Prayer, Settings>, zone: Option<int>)

  datatype Row = Row(start: Iso, iqamah: Iso)

  function Entry(m: map<Prayer, Iso>, p: Prayer): Iso {
    if p in m then m[p] else Absent
  }

  predicate Overridden(c: PrayerConfig, p: Prayer) {
    p in c.prayers && c.prayers[p].iqamahOverride
  }

  function Calculated(day: Day, c: PrayerConfig, p: Prayer): Result<int, ()>
    requires p in c.prayers
  {
    Iqamah(Entry(day.starts, p), c.prayers[p], c.zone)
  }

  /** The entry an override writes, if the calculation does not throw. */
  function Forced(day: Day, c: PrayerConfig, p: Prayer): Option<Iso> {
    if p in PRAYERS_WITH_IQAMAH && Overridden(c, p) && Calculated(day, c, p).Ok?
    then Some(At(Calculated(day, c, p).value))
    else None
  }

  function Applied(day: Day, c: PrayerConfig): Day {
    day.(iqamah := map p | p in day.iqamah.Keys + (set q | q in PRAYERS_WITH_IQAMAH && Forced(day, c, q).Some?) ::
                     Forced(day, c, p).GetOr(Entry(day.iqamah, p)))
  }

  method ApplyOverrides(day: Day, c: PrayerConfig) returns (processed: Day)
    ensures processed == Applied(day, c)
  {
    processed := day;
    for i := 0 to |PRAYERS_WITH_IQAMAH|
      invariant processed.starts == day.starts
      invariant forall p :: p in processed.iqamah <==>
                  p in day.iqamah || (p in PRAYERS_WITH_IQAMAH[..i] && Forced(day, c, p).Some?)
      invariant forall p :: p in processed.iqamah ==>
                  processed.iqamah[p] == if p in PRAYERS_WITH_IQAMAH[..i] && Forced(day, c, p).Some?
                                         then Forced(day, c, p).value else Entry(day.iqamah, p)
    {
      var prayer := PRAYERS_WITH_IQAMAH[i];
      assert PRAYERS_WITH_IQAMAH[..i + 1] == PRAYERS_WITH_IQAMAH[..i] + [prayer];
      if prayer in c.prayers && c.prayers[prayer].iqamahOverride && Entry(day.starts, prayer) != Absent {
        var iqamah := CalculateIqamah(Entry(day.starts, prayer), c.prayers[prayer], c.zone);
        if iqamah.Ok? {
          processed := processed.(iqamah := processed.iqamah[prayer := At(iqamah.value)]);
        }
      }
    }
    assert PRAYERS_WITH_IQAMAH[..|PRAYERS_WITH_IQAMAH|] == PRAYERS_WITH_IQAMAH;
    assert forall p :: p in Applied(day, c).iqamah && p !in PRAYERS_WITH_IQAMAH ==> Forced(day, c, p) == None;
    assert processed.iqamah == Applied(day, c).iqamah;
  }

  // ---------------------------------------------------------------- the three copies

  /** Dashboard row; Absent stands for null and Err for a thrown error. */
  function RowIqamah(day: Day, c: PrayerConfig, p: Prayer): Result<Iso, ()> {
    if p == Sunrise then Ok(Absent)
    else if Entry(day.iqamah, p) != Absent then Ok(Entry(day.iqamah, p))
    else if p in c.prayers then Lift(Calculated(day, c, p))
    else Ok(Absent)
  }

  function SchedulerIqamah(day: Day, c: PrayerConfig, p: Prayer): Result<Iso, ()> {
    if p == Sunrise then Ok(Absent)
    else if !Overridden(c, p) && Entry(day.iqamah, p) != Absent then Ok(Entry(day.iqamah, p))
    else if p in c.prayers then Lift(Calculated(day, c, p))
    else Ok(Absent)
  }

  function DiagnosticsIqamah(day: Day, c: PrayerConfig, p: Prayer): Result<Iso, ()> {
    if !Overridden(c, p) && Entry(day.iqamah, p) != Absent then Ok(Entry(day.iqamah, p))
    else if p in c.prayers then Lift(Calculated(day, c, p))
    else Ok(Absent)
  }

  function Lift(r: Result<int, ()>): Result<Iso, ()> {
    match r
    case Ok(v) => Ok(At(v))
    case Err(e) => Err(e)
  }

  method BuildPrayerRows(day: Day, c: PrayerConfig) returns (rows: Result<map<Prayer, Row>, ()>)
    ensures rows.Err? <==> exists p :: p in PRAYERS && Entry(day.starts, p) != Absent && RowIqamah(day, c, p).Err?
    ensures rows.Ok? ==>
              && rows.value.Keys == (set p | p in PRAYERS && Entry(day.starts, p) != Absent)
              && forall p :: p in rows.value ==>
                   rows.value[p].start == Entry(day.starts, p) && Ok(rows.value[p].iqamah) == RowIqamah(day, c, p)
  {
    var prayers: map<Prayer, Row> := map[];
    for i := 0 to |PRAYERS|
      invariant forall p :: p in prayers <==> p in PRAYERS[..i] && Entry(day.starts, p) != Absent
      invariant forall p :: p in prayers ==>
                  prayers[p].start == Entry(day.starts, p) && Ok(prayers[p].iqamah) == RowIqamah(day, c, p)
    {
      var name := PRAYERS[i];
      assert PRAYERS[..i + 1] == PRAYERS[..i] + [name];
      var start := Entry(day.starts, name);
      if start != Absent {
        var iqamah := Absent;
        if name != Sunrise {
          if Entry(day.iqamah, name) != Absent {
            iqamah := Entry(day.iqamah, name);
          } else if name in c.prayers {
            var calculated := CalculateIqamah(start, c.prayers[name], c.zone);
            if calculated.Err? {
              assert name in PRAYERS && RowIqamah(day, c, name).Err?;
              return Err(());
            }
            iqamah := At(calculated.value);
          }
        }
        prayers := prayers[name := Row(start, iqamah)];
      }
    }
    assert PRAYERS[..|PRAYERS|] == PRAYERS;
    return Ok(prayers);
  }

  // ---------------------------------------------------------------- properties

  lemma AppliedEntry(day: Day, c: PrayerConfig, p: Prayer)
    ensures Entry(Applied(day, c).iqamah, p) == Forced(day, c, p).GetOr(Entry(day.iqamah, p))
    ensures Applied(day, c).starts == day.starts
  {
  }

  /** Applying the overrides to a day that has them changes nothing. */
  lemma ApplyTwice(day: Day, c: PrayerConfig)
    ensures Applied(Applied(day, c), c) == Applied(day, c)
  {
    var once := Applied(day, c);
    var twice := Applied(once, c);
    forall p
      ensures Forced(once, c, p) == Forced(day, c, p)
    {
    }
    assert twice.iqamah.Keys == once.iqamah.Keys;
    forall p | p in once.iqamah
      ensures twice.iqamah[p] == once.iqamah[p]
    {
    }
    assert twice.iqamah == once.iqamah;
  }

  /** For every prayer but sunrise the scheduler and diagnostics pick the same iqamah from a served day, and
      the dashboard shows it too unless an override cannot be calculated while the source gave a time:
      then the dashboard shows the source's time and the other two throw. */
  lemma ThreeCopiesAgree(raw: Day, c: PrayerConfig, p: Prayer)
    requires p != Sunrise
    ensures var day := Applied(raw, c);
            && SchedulerIqamah(day, c, p) == DiagnosticsIqamah(day, c, p)
            && (RowIqamah(day, c, p) == SchedulerIqamah(day, c, p) <==>
                !(Overridden(c, p) && Calculated(raw, c, p).Err? && Entry(raw.iqamah, p) != Absent))
  {
    AppliedEntry(raw, c, p);
    assert p in PRAYERS_WITH_IQAMAH by {
      assert PRAYERS_WITH_IQAMAH[0] == Fajr && PRAYERS_WITH_IQAMAH[1] == Dhuhr && PRAYERS_WITH_IQAMAH[2] == Asr;
      assert PRAYERS_WITH_IQAMAH[3] == Maghrib && PRAYERS_WITH_IQAMAH[4] == Isha;
    }
  }

  /** A calculation that succeeds makes all three show one instant: the rule's when the override is on or
      the source gave nothing, the source's otherwise. */
  lemma AgreedInstant(raw: Day, c: PrayerConfig, p: Prayer)
    requires p != Sunrise && p in c.prayers && Calculated(raw, c, p).Ok?
    ensures var day := Applied(raw, c);
            var agreed := if Overridden(c, p) || Entry(raw.iqamah, p) == Absent
                          then At(Calculated(raw, c, p).value) else Entry(raw.iqamah, p);
            RowIqamah(day, c, p) == SchedulerIqamah(day, c, p) == DiagnosticsIqamah(day, c, p) == Ok(agreed)
  {
    AppliedEntry(raw, c, p);
    ThreeCopiesAgree(raw, c, p);
  }

  /** The same from the raw day, whether or not the calculation succeeds: what the scheduler and diagnostics pick from a
      served day is the source's time when there is one and no override, the calculation on the day's own start and the
      prayer's own settings otherwise, and the source's time or nothing for a prayer without settings. */
  lemma PickedFromRaw(raw: Day, c: PrayerConfig, p: Prayer)
    requires p != Sunrise
    ensures var source := if p in raw.iqamah then raw.iqamah[p] else Absent;
            var start := if p in raw.starts then raw.starts[p] else Absent;
            var picked := SchedulerIqamah(Applied(raw, c), c, p);
            && picked == DiagnosticsIqamah(Applied(raw, c), c, p)
            && (p !in c.prayers ==> picked == Ok(source))
            && (p in c.prayers ==>
                  if source != Absent && !c.prayers[p].iqamahOverride then picked == Ok(source)
                  else match Iqamah(start, c.prayers[p], c.zone)
                    case Ok(instant) => picked == Ok(At(instant))
                    case Err(_) => picked.Err?)
  {
    AppliedEntry(raw, c, p);
    ThreeCopiesAgree(raw, c, p);
  }

  /** What a served day holds: the source's starts, and for each prayer the calculated iqamah if its override is on and the
      calculation succeeds, else what the source gave. Sunrise keeps what the source gave. */
  lemma ServedDay(raw: Day, c: PrayerConfig, p: Prayer)
    ensures var served, source := Applied(raw, c), if p in raw.iqamah then raw.iqamah[p] else Absent;
            var start := if p in raw.starts then raw.starts[p] else Absent;
            var forced := p != Sunrise && p in c.prayers && c.prayers[p].iqamahOverride && Iqamah(start, c.prayers[p], c.zone).Ok?;
            && served.starts == raw.starts
            && (p in served.iqamah <==> forced || p in raw.iqamah)
            && (if p in served.iqamah then served.iqamah[p] else Absent) ==
               if forced then At(Iqamah(start, c.prayers[p], c.zone).value) else source
  {
    AppliedEntry(raw, c, p);
    assert p in PRAYERS_WITH_IQAMAH <==> p != Sunrise by {
      assert PRAYERS_WITH_IQAMAH[0] == Fajr && PRAYERS_WITH_IQAMAH[1] == Dhuhr && PRAYERS_WITH_IQAMAH[2] == Asr;
      assert PRAYERS_WITH_IQAMAH[3] == Maghrib && PRAYERS_WITH_IQAMAH[4] == Isha;
    }
  }

  /** The dashboard's row for a served day: nothing for sunrise, else the served iqamah if there is one, else the
      calculation. */
  lemma RowFromRaw(raw: Day, c: PrayerConfig, p: Prayer)
    ensures var start := if p in raw.starts then raw.starts[p] else Absent;
            var source := if p in raw.iqamah then raw.iqamah[p] else Absent;
            var row := RowIqamah(Applied(raw, c), c, p);
            && (p == Sunrise ==> row == Ok(Absent))
            && (p != Sunrise && p !in c.prayers ==> row == Ok(source))
            && (p != Sunrise && p in c.prayers ==>
                  match Iqamah(start, c.prayers[p], c.zone)
                  case Ok(instant) => row == Ok(if c.prayers[p].iqamahOverride || source == Absent then At(instant) else source)
                  case Err(_) => if source != Absent then row == Ok(source) else row.Err?)
  {
    AppliedEntry(raw, c, p);
    if p != Sunrise {
      ThreeCopiesAgree(raw, c, p);
    }
  }
}
