/** calculateIqamah and calculateNextPrayer, on instants in milliseconds and one fixed zone offset in minutes. */
module Calculations {
  import opened Outcomes

  const MINUTE := 60000
  const DAY := 1440 * MINUTE

  /** An ISO time string: empty, unparsable, or standing for an instant. */
  datatype Iso = Absent | Malformed | At(ms: int)

  /** settings.fixedTime: empty, not two numbers, or "hour:minute" (out-of-range parts overflow). */
  datatype Fixed = NoFixed | BadFixed | FixedAt(hour: int, minute: int)

  datatype Settings = Settings(iqamahOffset: int, roundTo: int, fixed: Fixed, iqamahOverride: bool)

  /** Minutes since the epoch on the local clock. */
  function LocalMinutes(t: int, zone: int): int {
    t / MINUTE + zone
  }

  /** Minute of the hour rounded up to a multiple of `step`; any other part of the time is carried over. */
  function RoundUp(u: int, step: int): int {
    if step <= 0 || (u % 60) % step == 0 then u else u + step - (u % 60) % step
  }

  function DynamicIqamah(start: int, offset: int, step: int, zone: int): int {
    (RoundUp(LocalMinutes(start + offset * MINUTE, zone), step) - zone) * MINUTE
  }

  function FixedIqamah(start: int, hour: int, minute: int, zone: int): int {
    var local := start + zone * MINUTE;
    local - local % DAY + hour * 60 * MINUTE + minute * MINUTE - zone * MINUTE
  }

  /** Err stands for a thrown error. */
  function Iqamah(start: Iso, s: Settings, zone: Option<int>): Result<int, ()> {
    if !start.At? || zone == None then Err(())
    else match s.fixed
      case BadFixed => Err(())
      case FixedAt(h, m) => Ok(FixedIqamah(start.ms, h, m, zone.value))
      case NoFixed => Ok(DynamicIqamah(start.ms, s.iqamahOffset, s.roundTo, zone.value))
  }

  method CalculateIqamah(start: Iso, s: Settings, zone: Option<int>) returns (r: Result<int, ()>)
    ensures r == Iqamah(start, s, zone)
  {
    if !start.At? || zone == None {
      return Err(());
    }
    var offset := zone.value;
    match s.fixed {
      case BadFixed =>
        return Err(());
      case FixedAt(h, m) =>
        var midnight := start.ms + offset * MINUTE;
        midnight := midnight - midnight % DAY;
        return Ok(midnight + h * 60 * MINUTE + m * MINUTE - offset * MINUTE);
      case NoFixed =>
    }
    var time := start.ms + s.iqamahOffset * MINUTE;
    time := time - time % MINUTE;
    var minute := (time / MINUTE + offset) % 60;
    if s.roundTo > 0 {
      var remainder := minute % s.roundTo;
      if remainder != 0 {
        var minutesToAdd := s.roundTo - remainder;
        time := time + minutesToAdd * MINUTE;
      }
    }
    r := Ok(time);
  }

  // ---------------------------------------------------------------- arithmetic

  lemma MultiplesAreApart(a: int, b: int, step: int)
    requires step > 0 && a % step == 0 && b % step == 0 && a < b
    ensures a + step <= b
  {
    var i, j := a / step, b / step;
    assert a == step * i && b == step * j;
    assert j <= i ==> step * j <= step * i;
    assert step * j >= step * (i + 1) == step * i + step;
  }

  lemma SmallMod(m: nat, step: int)
    requires m < step
    ensures m % step == m
  {
    var q := m / step;
    assert m == step * q + m % step;
    assert q >= 1 ==> step * q >= step;
    assert q <= -1 ==> step * q <= -step;
  }

  /** The least multiple of step at or above m. */
  function Ceiling(m: nat, step: int): int
    requires step > 0
  {
    if m % step == 0 then m else m + step - m % step
  }

  lemma CeilingIsLeast(m: nat, step: int)
    requires step > 0
    ensures Ceiling(m, step) % step == 0 && m <= Ceiling(m, step) < m + step
    ensures forall c :: m <= c && c % step == 0 ==> Ceiling(m, step) <= c
  {
    var q := m / step;
    assert m == step * q + m % step;
    if m % step != 0 {
      assert Ceiling(m, step) == step * (q + 1);
      assert (step * (q + 1)) % step == 0 by { MultipleMod(q + 1, step); }
    }
    forall c | m <= c && c % step == 0
      ensures Ceiling(m, step) <= c
    {
      if c < Ceiling(m, step) {
        MultiplesAreApart(c, Ceiling(m, step), step);
      }
    }
  }

  lemma NoRemainder(step: int, q: int, d: int, m: int)
    requires 0 <= m < step && step * q == step * d + m
    ensures m == 0
  {
    var k := q - d;
    assert k >= 1 ==> step * k >= step;
    assert k <= -1 ==> step * k <= -step;
    assert step * k == m;
  }

  lemma MultipleMod(q: int, step: int)
    requires step > 0
    ensures (step * q) % step == 0
  {
    var p := step * q;
    NoRemainder(step, q, p / step, p % step);
  }

  lemma RoundUpIsCeiling(u: int, step: int)
    requires step > 0
    ensures RoundUp(u, step) == u - u % 60 + Ceiling(u % 60, step)
  {
  }

  /** The steps that never round past the full hour. */
  predicate FitsHour(step: int) {
    step > 0 && (59 % step == 0 || 60 % step == 0)
  }

  lemma FitsHourCeiling(step: int, m: nat)
    requires step > 0 && m < 60
    ensures FitsHour(step) ==> Ceiling(m, step) <= 60
    ensures !FitsHour(step) ==> Ceiling(59, step) > 60
  {
    CeilingIsLeast(m, step);
    CeilingIsLeast(59, step);
  }

  predicate Aligned(u: int, step: int)
    requires step > 0
  {
    (u % 60) % step == 0
  }

  // ---------------------------------------------------------------- properties of the rounding, in minutes

  lemma RoundUpBounds(u: int, step: int)
    requires step > 0
    ensures u <= RoundUp(u, step) < u + step
  {
  }

  lemma RoundUpMonotoneIn(u: int, v: int, step: int)
    requires FitsHour(step) && u <= v
    ensures RoundUp(u, step) <= RoundUp(v, step)
  {
    var m, n := u % 60, v % 60;
    RoundUpIsCeiling(u, step);
    RoundUpIsCeiling(v, step);
    CeilingOrder(m, n, step);
    if u - m != v - n {
      LaterHour(u, v);
    }
  }

  lemma LaterHour(u: int, v: int)
    requires u <= v && u - u % 60 != v - v % 60
    ensures u - u % 60 + 60 <= v - v % 60
  {
  }

  lemma CeilingOrder(m: nat, n: nat, step: int)
    requires FitsHour(step) && m < 60 && n < 60
    ensures m <= n ==> Ceiling(m, step) <= Ceiling(n, step)
    ensures Ceiling(m, step) <= 60 && 0 <= Ceiling(n, step)
  {
    FitsHourCeiling(step, m);
    CeilingIsLeast(m, step);
    CeilingIsLeast(n, step);
  }

  lemma RoundUpAligned(u: int, step: int)
    requires FitsHour(step)
    ensures Aligned(RoundUp(u, step), step)
  {
    var m := u % 60;
    RoundUpIsCeiling(u, step);
    FitsHourCeiling(step, m);
    CeilingIsLeast(m, step);
    if Ceiling(m, step) == 60 {
      assert RoundUp(u, step) % 60 == 0;
    } else {
      assert RoundUp(u, step) % 60 == Ceiling(m, step);
    }
  }

  // ---------------------------------------------------------------- the same on instants

  lemma DynamicInMinutes(start: int, offset: int, step: int, zone: int)
    ensures LocalMinutes(DynamicIqamah(start, offset, step, zone), zone) ==
            RoundUp(LocalMinutes(start, zone) + offset, step)
    ensures LocalMinutes(start + offset * MINUTE, zone) == LocalMinutes(start, zone) + offset
  {
    assert (start + offset * MINUTE) / MINUTE == start / MINUTE + offset;
  }

  /** The result lies at or after the floored minute of start plus offset, by less than one step. */
  lemma IqamahBounds(start: int, offset: int, step: int, zone: int)
    requires step > 0
    ensures var floored := (start + offset * MINUTE) / MINUTE * MINUTE;
            floored <= DynamicIqamah(start, offset, step, zone) < floored + step * MINUTE
  {
    RoundUpBounds(LocalMinutes(start + offset * MINUTE, zone), step);
  }

  /** The rule never lets a later start give an earlier iqamah exactly when the step fits the hour, or is not positive. */
  lemma IqamahMonotoneIff(offset: int, step: int, zone: int)
    ensures (forall t, t' :: t <= t' ==> DynamicIqamah(t, offset, step, zone) <= DynamicIqamah(t', offset, step, zone))
            <==> step <= 0 || FitsHour(step)
  {
    if step <= 0 || FitsHour(step) {
      forall t, t' | t <= t'
        ensures DynamicIqamah(t, offset, step, zone) <= DynamicIqamah(t', offset, step, zone)
      {
        var u, v := LocalMinutes(t + offset * MINUTE, zone), LocalMinutes(t' + offset * MINUTE, zone);
        assert u <= v;
        if step > 0 {
          RoundUpMonotoneIn(u, v, step);
        }
      }
    } else {
      var t := (59 - zone - offset) * MINUTE;
      var t' := t + MINUTE;
      assert LocalMinutes(t + offset * MINUTE, zone) == 59 && LocalMinutes(t' + offset * MINUTE, zone) == 60;
      FitsHourCeiling(step, 0);
      RoundUpIsCeiling(59, step);
      assert DynamicIqamah(t, offset, step, zone) > DynamicIqamah(t', offset, step, zone);
    }
  }

  /** The result is the least minute at or after start plus offset whose minute of the hour is a multiple
      of the step, for every start, exactly when the step fits the hour. */
  lemma IqamahLeastIff(offset: int, step: int, zone: int)
    requires step > 0
    ensures (forall t :: IsLeastAligned(LocalMinutes(t + offset * MINUTE, zone),
                                        LocalMinutes(DynamicIqamah(t, offset, step, zone), zone), step))
            <==> FitsHour(step)
  {
    if FitsHour(step) {
      forall t
        ensures IsLeastAligned(LocalMinutes(t + offset * MINUTE, zone),
                               LocalMinutes(DynamicIqamah(t, offset, step, zone), zone), step)
      {
        DynamicInMinutes(t, offset, step, zone);
        LeastAlignedIn(LocalMinutes(t + offset * MINUTE, zone), step);
      }
    } else {
      var t := (59 - zone - offset) * MINUTE;
      DynamicInMinutes(t, offset, step, zone);
      FitsHourCeiling(step, 0);
      RoundUpIsCeiling(59, step);
      assert Aligned(60, step);
      assert !IsLeastAligned(59, RoundUp(59, step), step);
      assert LocalMinutes(t + offset * MINUTE, zone) == 59;
    }
  }

  ghost predicate IsLeastAligned(from: int, u: int, step: int)
    requires step > 0
  {
    from <= u && Aligned(u, step) && forall v :: from <= v && Aligned(v, step) ==> u <= v
  }

  lemma LeastAlignedIn(u: int, step: int)
    requires FitsHour(step)
    ensures IsLeastAligned(u, RoundUp(u, step), step)
  {
    RoundUpAligned(u, step);
    forall v | u <= v && Aligned(v, step)
      ensures RoundUp(u, step) <= v
    {
      RoundUpMonotoneIn(u, v, step);
      assert RoundUp(v, step) == v;
    }
  }

  /** Rounding a rounded time changes nothing, for every start, exactly when the step fits the hour,
      is a whole number of hours, or is not positive. */
  lemma RoundTwiceIff(step: int)
    ensures (forall u :: RoundUp(RoundUp(u, step), step) == RoundUp(u, step))
            <==> step <= 0 || FitsHour(step) || step % 60 == 0
  {
    if step <= 0 {
    } else if FitsHour(step) {
      forall u
        ensures RoundUp(RoundUp(u, step), step) == RoundUp(u, step)
      {
        RoundUpAligned(u, step);
      }
    } else if step % 60 == 0 {
      forall u
        ensures RoundUp(RoundUp(u, step), step) == RoundUp(u, step)
      {
        RoundUpIsCeiling(u, step);
        WholeHours(u % 60, step);
      }
    } else {
      NotIdempotent(step);
    }
  }

  lemma WholeHours(m: nat, step: int)
    requires step > 0 && step % 60 == 0 && m < 60
    ensures Ceiling(m, step) == if m == 0 then 0 else step
  {
    SmallMod(m, step);
  }

  lemma NotIdempotent(step: int)
    requires step > 0 && !FitsHour(step) && step % 60 != 0
    ensures RoundUp(RoundUp(59, step), step) != RoundUp(59, step)
  {
    FitsHourCeiling(step, 0);
    CeilingIsLeast(59, step);
    RoundUpIsCeiling(59, step);
    var c := Ceiling(59, step);
    assert RoundUp(59, step) == c;
    if step < 60 {
      assert c % 60 == c - 60;
      if (c - 60) % step == 0 {
        DifferenceOfMultiples(c, c - 60, step);
      }
    } else {
      SmallMod(59, step);
      assert c == step;
      SmallMod(step % 60, step);
    }
  }

  lemma DifferenceOfMultiples(a: int, b: int, step: int)
    requires step > 0 && a % step == 0 && b % step == 0
    ensures (a - b) % step == 0
  {
    var i, j := a / step, b / step;
    assert a == step * i && b == step * j;
    assert a - b == step * (i - j);
    MultipleMod(i - j, step);
  }

  // ---------------------------------------------------------------- the whole rule, on the local clock

  lemma FixedInMinutes(t: int, hour: int, minute: int, zone: int)
    ensures var r, local := FixedIqamah(t, hour, minute, zone), t / 60000 + zone;
            r % 60000 == 0 && r / 60000 + zone == local - local % 1440 + 60 * hour + minute
  {
    var moved := t + zone * 60000;
    var local := t / 60000 + zone;
    assert moved / 60000 == local;
    assert moved % 86400000 == 60000 * (local % 1440) + moved % 60000;
    assert FixedIqamah(t, hour, minute, zone) == 60000 * (local - local % 1440 + 60 * hour + minute - zone);
  }

  lemma DynamicRounds(u: int, step: int)
    ensures var k := RoundUp(u, step) - u;
            if step <= 0 then k == 0 else 0 <= k < step && (u % 60 + k) % step == 0
  {
    if step > 0 {
      RoundUpIsCeiling(u, step);
      CeilingIsLeast(u % 60, step);
    }
  }

  /** calculateIqamah for a readable start: an unusable fixed time throws; a fixed time is that time of the start's own
      local day, whatever offset and step are, an hour or minute out of range carrying over; without one the result is
      the floored minute of start plus offset, moved on by the least number of minutes that takes its minute of the hour
      to a multiple of a positive step. */
  lemma IqamahSays(t: int, s: Settings, zone: int)
    ensures var r, local := Iqamah(At(t), s, Some(zone)), t / 60000 + zone;
            match s.fixed
            case BadFixed => r == Err(())
            case FixedAt(h, m) =>
              r.Ok? && r.value % 60000 == 0 && r.value / 60000 + zone == local - local % 1440 + 60 * h + m
            case NoFixed =>
              && r.Ok? && r.value % 60000 == 0
              && var k := r.value / 60000 + zone - (local + s.iqamahOffset);
                 if s.roundTo <= 0 then k == 0
                 else 0 <= k < s.roundTo && ((local + s.iqamahOffset) % 60 + k) % s.roundTo == 0
  {
    match s.fixed
    case BadFixed =>
    case FixedAt(h, m) => FixedInMinutes(t, h, m, zone);
    case NoFixed =>
      DynamicInMinutes(t, s.iqamahOffset, s.roundTo, zone);
      DynamicRounds(t / 60000 + zone + s.iqamahOffset, s.roundTo);
  }

  /** It throws without a readable start or a zone and on an unusable fixed time, and only then. */
  lemma IqamahThrowsIff(start: Iso, s: Settings, zone: Option<int>)
    ensures Iqamah(start, s, zone).Err? <==> !start.At? || zone == None || s.fixed == BadFixed
  {
  }

  /** A fixed time of day is met to the minute, on the local day of the start. */
  lemma FixedTimeHolds(t: int, s: Settings, zone: int, h: nat, m: nat)
    requires s.fixed == FixedAt(h, m) && h < 24 && m < 60
    ensures var r := Iqamah(At(t), s, Some(zone));
            && r.Ok? && r.value % 60000 == 0
            && (r.value / 60000 + zone) % 1440 == 60 * h + m
            && (r.value / 60000 + zone) / 1440 == (t / 60000 + zone) / 1440
  {
    IqamahSays(t, s, zone);
  }

  // ---------------------------------------------------------------- the next prayer

  /** The first entry in the sequence that has a start later than now. An unparsable start never is. */
  method CalculateNextPrayer(starts: seq<Iso>, now: int) returns (next: Option<nat>)
    ensures next.Some? ==> && next.value < |starts|
                           && starts[next.value].At? && starts[next.value].ms > now
                           && forall j :: 0 <= j < next.value ==> !(starts[j].At? && starts[j].ms > now)
    ensures next == None ==> forall j :: 0 <= j < |starts| ==> !(starts[j].At? && starts[j].ms > now)
  {
    for i := 0 to |starts|
      invariant forall j :: 0 <= j < i ==> !(starts[j].At? && starts[j].ms > now)
    {
      if starts[i].At? && starts[i].ms > now {
        return Some(i);
      }
    }
    next := None;
  }
}
