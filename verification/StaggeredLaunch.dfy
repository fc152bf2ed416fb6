/** Lead times: the scheduler fires an event early by the largest lead, automation holds each target back by its share. */
module StaggeredLaunch {
  import opened Outcomes
  import opened IqamahRule

  datatype EventKind = PreAdhan | AdhanEvent | PreIqamah | IqamahEvent

  /** automation.outputs[id]; None stands for undefined. */
  datatype Output = Output(enabled: Option<bool>, leadTimeMs: Option<int>)

  datatype Trigger = Trigger(enabled: bool, targets: seq<string>, offsetMinutes: int)

  /** automation.triggers[prayer][event] */
  datatype Slot = Slot(prayer: Prayer, kind: EventKind)

  datatype Automation = Automation(outputs: map<string, Output>, triggers: map<Slot, Trigger>)

  const BROWSER := "browser"

  /** new Set([...ids]) in iteration order: first occurrences only. */
  function FirstOccurrences(ids: seq<string>): (r: seq<string>)
    ensures forall id :: id in r <==> id in ids
    ensures forall i, j :: 0 <= i < j < |r| ==> r[i] != r[j]
  {
    if ids == [] then []
    else
      var rest := FirstOccurrences(ids[..|ids| - 1]);
      assert ids == ids[..|ids| - 1] + [ids[|ids| - 1]];
      if ids[|ids| - 1] in rest then rest else rest + [ids[|ids| - 1]]
  }

  function Targets(t: Trigger): seq<string> {
    FirstOccurrences(t.targets + [BROWSER])
  }

  /** The browser counts as enabled unless disabled outright, any other target only when enabled. */
  predicate Active(outputs: map<string, Output>, id: string) {
    if id == BROWSER then !(id in outputs && outputs[id].enabled == Some(false))
    else id in outputs && outputs[id].enabled == Some(true)
  }

  function Lead(outputs: map<string, Output>, id: string): int {
    if id in outputs then outputs[id].leadTimeMs.GetOr(0) else 0
  }

  /** The largest lead of an active target, or zero when none is positive. */
  ghost predicate IsMaxLead(outputs: map<string, Output>, ids: seq<string>, m: int) {
    && 0 <= m
    && (forall id :: id in ids && Active(outputs, id) ==> Lead(outputs, id) <= m)
    && (m == 0 || exists id :: id in ids && Active(outputs, id) && Lead(outputs, id) == m)
  }

  function LargestLead(outputs: map<string, Output>, ids: seq<string>): (m: int)
    ensures IsMaxLead(outputs, ids, m)
  {
    if ids == [] then 0
    else
      var rest := LargestLead(outputs, ids[1..]);
      assert ids == [ids[0]] + ids[1..];
      if Active(outputs, ids[0]) && Lead(outputs, ids[0]) > rest then Lead(outputs, ids[0]) else rest
  }

  /** getMaxLeadTime as the scheduler sees it: zero for a missing or disabled trigger. */
  function MaxLead(a: Automation, slot: Slot): int {
    if slot in a.triggers && a.triggers[slot].enabled then LargestLead(a.outputs, Targets(a.triggers[slot])) else 0
  }

  lemma MaxLeadUnique(outputs: map<string, Output>, ids: seq<string>, m: int, n: int)
    requires IsMaxLead(outputs, ids, m) && IsMaxLead(outputs, ids, n)
    ensures m == n
  {
  }

  lemma MaxLeadAppend(outputs: map<string, Output>, ids: seq<string>, m: int, id: string)
    requires IsMaxLead(outputs, ids, m)
    ensures IsMaxLead(outputs, ids + [id], if Active(outputs, id) && Lead(outputs, id) > m then Lead(outputs, id) else m)
  {
    if m != 0 {
      var top :| top in ids && Active(outputs, top) && Lead(outputs, top) == m;
      assert top in ids + [id];
    }
    assert id in ids + [id];
  }

  /** The target runs for this trigger: it is named by it or is the browser, and its output is switched on, the browser's
      unless switched off. */
  predicate Runs(a: Automation, t: Trigger, id: string) {
    && (id in t.targets || id == "browser")
    && (id == "browser" ==> id !in a.outputs || a.outputs[id].enabled == None || a.outputs[id].enabled.value)
    && (id != "browser" ==> id in a.outputs && a.outputs[id].enabled == Some(true))
  }

  /** Its own lead, zero when none is set. */
  predicate HasLead(a: Automation, id: string, lead: int) {
    if id in a.outputs && a.outputs[id].leadTimeMs.Some? then lead == a.outputs[id].leadTimeMs.value else lead == 0
  }

  lemma RunsIff(a: Automation, t: Trigger, id: string)
    ensures Runs(a, t, id) <==> id in Targets(t) && Active(a.outputs, id)
    ensures HasLead(a, id, Lead(a.outputs, id))
  {
  }

  /** The lead by which an event is fired early: that of a target that runs for it, at least as large as every other's, or
      zero when none is positive or the trigger is off. */
  lemma MaxLeadSays(a: Automation, slot: Slot)
    ensures slot !in a.triggers || !a.triggers[slot].enabled ==> MaxLead(a, slot) == 0
    ensures slot in a.triggers && a.triggers[slot].enabled ==>
              var (m, t) := (MaxLead(a, slot), a.triggers[slot]);
              && 0 <= m && (forall id, lead :: Runs(a, t, id) && HasLead(a, id, lead) ==> lead <= m)
              && (m == 0 || exists id :: Runs(a, t, id) && HasLead(a, id, m))
  {
    if slot in a.triggers && a.triggers[slot].enabled {
      var t := a.triggers[slot];
      forall id
        ensures Runs(a, t, id) <==> id in Targets(t) && Active(a.outputs, id)
        ensures HasLead(a, id, Lead(a.outputs, id))
      {
        RunsIff(a, t, id);
      }
      assert IsMaxLead(a.outputs, Targets(t), MaxLead(a, slot));
      if MaxLead(a, slot) != 0 {
        var id :| id in Targets(t) && Active(a.outputs, id) && Lead(a.outputs, id) == MaxLead(a, slot);
        assert Runs(a, t, id) && HasLead(a, id, MaxLead(a, slot));
      }
    }
  }

  /** schedulerService.getMaxLeadTime */
  method GetMaxLeadTime(a: Automation, slot: Slot) returns (maxLead: int)
    ensures maxLead == MaxLead(a, slot)
  {
    if slot !in a.triggers || !a.triggers[slot].enabled {
      return 0;
    }
    var targets := Targets(a.triggers[slot]);
    maxLead := 0;
    for i := 0 to |targets|
      invariant IsMaxLead(a.outputs, targets[..i], maxLead)
    {
      var id := targets[i];
      assert targets[..i + 1] == targets[..i] + [id];
      MaxLeadAppend(a.outputs, targets[..i], maxLead, id);
      if Active(a.outputs, id) {
        var leadTime := Lead(a.outputs, id);
        if leadTime > maxLead {
          maxLead := leadTime;
        }
      }
    }
    assert targets[..|targets|] == targets;
    MaxLeadUnique(a.outputs, targets, maxLead, LargestLead(a.outputs, targets));
  }

  datatype Target = Target(id: string, lead: int)

  function TargetIds(active: seq<Target>): seq<string> {
    seq(|active|, i requires 0 <= i < |active| => active[i].id)
  }

  /** Exactly the active ids, each once. */
  ghost predicate Covers(outputs: map<string, Output>, ids: seq<string>, found: seq<string>) {
    && (forall id :: id in found <==> id in ids && Active(outputs, id))
    && (forall i, j :: 0 <= i < j < |found| ==> found[i] != found[j])
  }

  lemma CoversAppend(outputs: map<string, Output>, ids: seq<string>, found: seq<string>, id: string)
    requires Covers(outputs, ids, found) && id !in ids
    ensures Covers(outputs, ids + [id], if Active(outputs, id) then found + [id] else found)
  {
  }

  /** Every active id as a target with its lead, and the largest of the leads. */
  ghost predicate Picked(outputs: map<string, Output>, ids: seq<string>, active: seq<Target>, master: int) {
    && IsMaxLead(outputs, ids, master)
    && Covers(outputs, ids, TargetIds(active))
    && forall i :: 0 <= i < |active| ==> active[i].lead == Lead(outputs, active[i].id)
  }

  lemma PickedAppend(outputs: map<string, Output>, ids: seq<string>, active: seq<Target>, master: int, id: string)
    requires Picked(outputs, ids, active, master) && id !in ids
    ensures var lead := Lead(outputs, id);
            if Active(outputs, id) then Picked(outputs, ids + [id], active + [Target(id, lead)], if lead > master then lead else master)
            else Picked(outputs, ids + [id], active, master)
  {
    MaxLeadAppend(outputs, ids, master, id);
    CoversAppend(outputs, ids, TargetIds(active), id);
    assert TargetIds(active + [Target(id, Lead(outputs, id))]) == TargetIds(active) + [id];
  }

  /** automationService._getActiveTargets: every active target once, with its lead, and the largest lead. */
  method GetActiveTargets(a: Automation, t: Trigger) returns (active: seq<Target>, master: int)
    ensures Picked(a.outputs, Targets(t), active, master)
  {
    var targets := Targets(t);
    active, master := [], 0;
    for i := 0 to |targets|
      invariant Picked(a.outputs, targets[..i], active, master)
    {
      var id := targets[i];
      assert targets[..i + 1] == targets[..i] + [id];
      PickedAppend(a.outputs, targets[..i], active, master, id);
      if Active(a.outputs, id) {
        var leadTime := Lead(a.outputs, id);
        if leadTime > master {
          master := leadTime;
        }
        active := active + [Target(id, leadTime)];
      }
    }
    assert targets[..|targets|] == targets;
  }

  // ---------------------------------------------------------------- launching

  /** metadata.timeoutMs || 5000 */
  function Timeout(declared: Option<nat>): (ms: nat)
    ensures declared == Some(ms) || (ms == 5000 && declared in {None, Some(0)})
    ensures ms > 0
  {
    if declared.Some? && declared.value != 0 then declared.value else 5000
  }

  datatype Launch = Launch(id: string, at: int, abortAt: int)

  /** _executeTarget from the moment `now`: the abort timer starts at once and covers the wait too. */
  method ExecuteTarget(target: Target, master: int, timeout: Option<nat>, now: int) returns (launch: Launch)
    requires target.lead <= master
    ensures launch == Launch(target.id, now + master - target.lead, now + master - target.lead + Timeout(timeout))
  {
    var waitDelay := master - target.lead;
    var timeoutMs := if timeout.Some? && timeout.value != 0 then timeout.value else 5000;
    var abortAt := now + (timeoutMs + waitDelay);
    var at := now;
    if waitDelay > 0 {
      at := at + waitDelay;
    }
    launch := Launch(target.id, at, abortAt);
  }

  function LaunchIds(launches: seq<Launch>): seq<string> {
    seq(|launches|, i requires 0 <= i < |launches| => launches[i].id)
  }

  /** triggerEvent at the moment `firedAt`; `preparation` is the time validating the audio takes, None if that fails. */
  method TriggerEvent(a: Automation, slot: Slot, timeouts: map<string, nat>, firedAt: int, preparation: Option<nat>)
    returns (launches: seq<Launch>)
    ensures !(slot in a.triggers && a.triggers[slot].enabled && preparation.Some?) ==> launches == []
    ensures slot in a.triggers && a.triggers[slot].enabled && preparation.Some? ==>
              && Covers(a.outputs, Targets(a.triggers[slot]), LaunchIds(launches))
              && forall i :: 0 <= i < |launches| ==> LaunchedRight(a, slot, timeouts, firedAt, preparation.value, launches[i])
    ensures slot in a.triggers && a.triggers[slot].enabled && preparation.Some? ==>
              && (forall id :: Runs(a, a.triggers[slot], id) <==> exists i :: 0 <= i < |launches| && launches[i].id == id)
              && (forall i, j :: 0 <= i < j < |launches| ==> launches[i].id != launches[j].id)
              && (forall i, lead :: 0 <= i < |launches| && HasLead(a, launches[i].id, lead) ==>
                    launches[i].at == firedAt + preparation.value + MaxLead(a, slot) - lead)
              && forall i :: 0 <= i < |launches| ==>
                   var id := launches[i].id;
                   launches[i].abortAt - launches[i].at == if id in timeouts && timeouts[id] != 0 then timeouts[id] else 5000
  {
    if slot !in a.triggers || !a.triggers[slot].enabled {
      return [];
    }
    var settings := a.triggers[slot];
    if preparation == None {
      return [];
    }
    var active, master := GetActiveTargets(a, settings);
    MaxLeadUnique(a.outputs, Targets(settings), master, LargestLead(a.outputs, Targets(settings)));
    launches := [];
    for i := 0 to |active|
      invariant |launches| == i
      invariant forall k :: 0 <= k < i ==>
                  launches[k].id == active[k].id
                  && LaunchedRight(a, slot, timeouts, firedAt, preparation.value, launches[k])
    {
      assert TargetIds(active)[i] in TargetIds(active);
      var timeout := if active[i].id in timeouts then Some(timeouts[active[i].id]) else None;
      var launch := ExecuteTarget(active[i], master, timeout, firedAt + preparation.value);
      launches := launches + [launch];
    }
    assert LaunchIds(launches) == TargetIds(active);
    LaunchesRun(a, settings, launches);
  }

  /** Launching the active targets is launching those that run. */
  lemma LaunchesRun(a: Automation, t: Trigger, launches: seq<Launch>)
    requires Covers(a.outputs, Targets(t), LaunchIds(launches))
    ensures forall id :: Runs(a, t, id) <==> exists i :: 0 <= i < |launches| && launches[i].id == id
    ensures forall id, lead :: HasLead(a, id, lead) ==> lead == Lead(a.outputs, id)
    ensures forall i, j :: 0 <= i < j < |launches| ==> launches[i].id != launches[j].id
  {
    var ids := LaunchIds(launches);
    assert forall i :: 0 <= i < |launches| ==> ids[i] == launches[i].id;
    forall id
      ensures Runs(a, t, id) <==> exists i :: 0 <= i < |launches| && launches[i].id == id
    {
      RunsIff(a, t, id);
      if i :| 0 <= i < |launches| && launches[i].id == id {
        assert ids[i] == id;
      }
      if id in ids {
        var i :| 0 <= i < |ids| && ids[i] == id;
        assert launches[i].id == id;
      }
    }
  }

  /** Held back by the difference to the scheduler's own maximum, and aborted one full timeout after its launch. */
  predicate LaunchedRight(a: Automation, slot: Slot, timeouts: map<string, nat>, firedAt: int, preparation: nat, l: Launch) {
    && l.at == firedAt + preparation + (MaxLead(a, slot) - Lead(a.outputs, l.id))
    && firedAt + preparation <= l.at < l.abortAt
    && l.abortAt == l.at + Timeout(if l.id in timeouts then Some(timeouts[l.id]) else None)
  }

  /** The stagger is exact: an event for time T that the scheduler fires early by its maximum lead launches each
      active target its own lead before T, plus a preparation delay common to all of them. */
  lemma StaggerExact(a: Automation, slot: Slot, timeouts: map<string, nat>, t: int, preparation: nat, l: Launch, l': Launch)
    requires LaunchedRight(a, slot, timeouts, t - MaxLead(a, slot), preparation, l)
    requires LaunchedRight(a, slot, timeouts, t - MaxLead(a, slot), preparation, l')
    ensures l.at == t - Lead(a.outputs, l.id) + preparation
    ensures l.at - l'.at == Lead(a.outputs, l'.id) - Lead(a.outputs, l.id)
    ensures l.abortAt - l.at == if l.id in timeouts && timeouts[l.id] != 0 then timeouts[l.id] else 5000
  {
  }
}
