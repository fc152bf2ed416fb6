/** What an update leaves once it has renamed, whatever order the loads under way go on in. */
module ConfigCommits {
  import opened Outcomes
  import opened JsonTree
  import opened ConfigLoad
  import opened ConfigStore

  /** Nothing fails and no new update begins; loads may. */
  predicate Smooth(es: seq<Event>) {
    forall e :: e in es ==> e.Reload? || (e.Proceed? && e.ok)
  }

  /** What a load that took this layer from the file will hold, if anything. */
  function Outcome(m: Parts, layer: Option<Json>): Option<Json> {
    var raw := m.raw(layer);
    if raw.Some? && m.finish(raw).Ok? then Some(m.finish(raw).value) else None
  }

  /** local.json needs no migration. */
  predicate Settled(m: Parts, file: LocalFile) {
    Read(m, file).Loaded?
  }

  /** The layer an undisturbed load goes on with, and the file it leaves. */
  function Lands(m: Parts, file: LocalFile): Option<Json> {
    match Read(m, file)
    case Loaded(layer) => layer
    case Saving(_, Upgrade(tree)) => Some(tree)
    case _ => None
  }

  function Upgraded(m: Parts, file: LocalFile): LocalFile {
    if Read(m, file).Saving? then Saved(Read(m, file).tree) else file
  }

  /** The file loads to v, before and after the migration it may need. */
  ghost predicate LoadsTo(m: Parts, file: LocalFile, v: Json) {
    && Outcome(m, Lands(m, file)) == Some(v)
    && Settled(m, Upgraded(m, file)) && Outcome(m, Lands(m, Upgraded(m, file))) == Some(v)
  }

  /** The environment holds no secret to be moved into the file. */
  ghost predicate NothingToMove(m: Parts) {
    forall raw :: m.moved(raw) == None
  }

  predicate Loading(phase: Phase) {
    phase.Opening? || phase.Opened? || phase.Loaded?
  }

  /** A load in flight will hold v or nothing. */
  predicate Harmless(m: Parts, phase: Phase, v: Json) {
    phase.Loaded? ==> Outcome(m, phase.layer) == None || Outcome(m, phase.layer) == Some(v)
  }

  ghost predicate HoldsOnceDone(m: Parts, s: State, es: seq<Event>, u: nat, v: Json) {
    IsRun(m, s, es) && Smooth(es) && u !in Run(m, s, es).tasks ==> Run(m, s, es).config == Some(v)
  }

  /** Falling back on the defaults alone does no harm: they load to v, or not at all while v is held already. */
  predicate FallbackFine(m: Parts, config: Option<Json>, v: Json) {
    Outcome(m, None) == Some(v) || (Outcome(m, None) == None && config == Some(v))
  }

  // ---------------------------------------------------------------- nothing but v is ever held

  /** A load on its way, or one that is upgrading this file. */
  ghost predicate OnTrack(m: Parts, file: LocalFile, phase: Phase, v: Json) {
    || (Loading(phase) && Harmless(m, phase, v))
    || (Read(m, file).Saving? && (phase == Read(m, file) || phase == Written(Read(m, file).purpose) || phase == Failing(Read(m, file).purpose)))
  }

  ghost predicate Fresh(m: Parts, s: State, file: LocalFile, u: nat, v: Json) {
    && (s.file == file || s.file == Upgraded(m, file)) && u < s.next
    && (forall id :: id in s.tasks ==> OnTrack(m, file, s.tasks[id].phase, v))
    && (forall id :: id in s.tasks && s.tasks[id].phase.Written? && s.temp.Some? ==> Saved(s.temp.value) == Upgraded(m, file))
    && (Read(m, file).Saving? ==> FallbackFine(m, s.config, v))
    && (u in s.tasks && s.tasks[u].phase.Loaded? && Outcome(m, s.tasks[u].phase.layer) != Some(v) ==> s.config == Some(v))
    && (u !in s.tasks ==> s.config == Some(v))
  }

  /** A load takes its layer from the file, or has to upgrade it. */
  lemma ReadOnTrack(m: Parts, file: LocalFile, now: LocalFile, v: Json)
    requires LoadsTo(m, file, v) && (now == file || now == Upgraded(m, file))
    ensures OnTrack(m, file, Read(m, now), v)
    ensures Read(m, now).Loaded? ==> Outcome(m, Read(m, now).layer) == Some(v)
    ensures !Read(m, now).Written?
  {
  }

  lemma MovedOn(m: Parts, s: State, file: LocalFile, u: nat, v: Json, id: nat, phase: Phase)
    requires Fresh(m, s, file, u, v) && id in s.tasks && OnTrack(m, file, phase, v) && !phase.Written?
    requires phase.Loaded? ==> Outcome(m, phase.layer) == Some(v)
    ensures Fresh(m, At(s, id, phase), file, u, v)
  {
  }

  lemma LoadConcludes(m: Parts, s: State, file: LocalFile, u: nat, v: Json, id: nat)
    requires Fresh(m, s, file, u, v) && id in s.tasks && s.tasks[id].phase.Loaded? && NothingToMove(m)
    ensures Fresh(m, Step(m, s, Proceed(id, true)).0, file, u, v)
  {
    var t := Step(m, s, Proceed(id, true)).0;
    assert OnTrack(m, file, s.tasks[id].phase, v);
    assert t.tasks == s.tasks - {id} && t.file == s.file && t.temp == s.temp && t.next == s.next;
    assert t.config == s.config || t.config == Some(v);
  }

  lemma LoadingStays(m: Parts, s: State, file: LocalFile, u: nat, v: Json, id: nat)
    requires Fresh(m, s, file, u, v) && id in s.tasks && Loading(s.tasks[id].phase) && NothingToMove(m) && LoadsTo(m, file, v)
    ensures Fresh(m, Step(m, s, Proceed(id, true)).0, file, u, v)
  {
    match s.tasks[id].phase
    case Opening => MovedOn(m, s, file, u, v, id, Opened);
    case Opened =>
      ReadOnTrack(m, file, s.file, v);
      MovedOn(m, s, file, u, v, id, Read(m, s.file));
    case Loaded(_) => LoadConcludes(m, s, file, u, v, id);
  }

  lemma UpgradingStays(m: Parts, s: State, file: LocalFile, u: nat, v: Json, id: nat)
    requires Fresh(m, s, file, u, v) && id in s.tasks && !Loading(s.tasks[id].phase) && LoadsTo(m, file, v)
    ensures Fresh(m, Step(m, s, Proceed(id, true)).0, file, u, v)
  {
    var t := Step(m, s, Proceed(id, true)).0;
    var r := Read(m, file);
    assert OnTrack(m, file, s.tasks[id].phase, v);
    if s.tasks[id].phase.Saving? {
      assert t == At(s.(temp := Some(r.tree)), id, Written(r.purpose));
    } else if s.tasks[id].phase.Written? && s.temp.Some? {
      assert t == At(s.(file := Upgraded(m, file), temp := None), id, Loaded(Lands(m, file)));
    } else if s.tasks[id].phase.Failing? {
      assert t == At(s.(temp := None), id, Loaded(None));
    }
  }

  lemma FreshStays(m: Parts, s: State, file: LocalFile, u: nat, v: Json, e: Event)
    requires Fresh(m, s, file, u, v) && Enabled(s, e) && (e.Reload? || (e.Proceed? && e.ok))
    requires NothingToMove(m) && LoadsTo(m, file, v)
    ensures Fresh(m, Step(m, s, e).0, file, u, v)
  {
    if e.Proceed? {
      if Loading(s.tasks[e.id].phase) {
        LoadingStays(m, s, file, u, v, e.id);
      } else {
        UpgradingStays(m, s, file, u, v, e.id);
      }
    }
  }

  lemma {:induction false} FreshThroughout(m: Parts, s: State, file: LocalFile, u: nat, v: Json, es: seq<Event>)
    requires Fresh(m, s, file, u, v) && IsRun(m, s, es) && Smooth(es) && NothingToMove(m) && LoadsTo(m, file, v)
    ensures Fresh(m, Run(m, s, es), file, u, v)
    decreases |es|
  {
    if es != [] {
      assert es[0] in es;
      FreshStays(m, s, file, u, v, es[0]);
      FreshThroughout(m, Step(m, s, es[0]).0, file, u, v, es[1..]);
    }
  }

  // ---------------------------------------------------------------- what can go wrong

  /** Task u alone, from its first await after the rename to its end. */
  lemma UpdateFinishes(m: Parts, s: State, u: nat) returns (es: seq<Event>)
    requires u in s.tasks && s.tasks[u].phase == Opening && NothingToMove(m)
    requires Outcome(m, Lands(m, s.file)).Some? && (Read(m, s.file).Loaded? || Read(m, s.file).Saving?)
    ensures IsRun(m, s, es) && Smooth(es) && Run(m, s, es).tasks == s.tasks - {u}
  {
    var p := Proceed(u, true);
    TwoSteps(m, s, p, p);
    var t := Run(m, s, [p, p]);
    assert t.tasks[u].phase == Read(m, s.file) && t.tasks - {u} == s.tasks - {u};
    if Read(m, s.file).Loaded? {
      RunHead(m, t, p, []);
      assert [p] + [] == [p];
      RunConcat(m, s, [p, p], [p]);
      es := [p, p] + [p];
    } else {
      var t1 := Step(m, t, p).0;
      var t2 := Step(m, t1, p).0;
      assert t2.tasks[u].phase == Loaded(Lands(m, s.file)) && t2.tasks - {u} == s.tasks - {u};
      RunHead(m, t2, p, []);
      assert [p] + [] == [p];
      TwoSteps(m, t, p, p);
      RunConcat(m, t, [p, p], [p]);
      RunConcat(m, s, [p, p], [p, p] + [p]);
      es := [p, p] + ([p, p] + [p]);
    }
  }

  /** A load that took another layer can finish last. */
  lemma StaleLoadWins(m: Parts, s: State, u: nat, id: nat, v: Json)
    requires u in s.tasks && s.tasks[u].phase == Opening && id in s.tasks && !Harmless(m, s.tasks[id].phase, v)
    requires NothingToMove(m) && LoadsTo(m, s.file, v) && (Read(m, s.file).Loaded? || Read(m, s.file).Saving?)
    ensures exists es :: !HoldsOnceDone(m, s, es, u, v)
  {
    var es := UpdateFinishes(m, s, u);
    var t, q := Run(m, s, es), Proceed(id, true);
    assert t.tasks[id] == s.tasks[id];
    RunHead(m, t, q, []);
    assert [q] + [] == [q];
    RunConcat(m, s, es, [q]);
    assert Smooth(es + [q]);
    assert !HoldsOnceDone(m, s, es + [q], u, v);
  }

  ghost predicate Both(s: State, u: nat, n: nat, a: Phase, b: Phase) {
    u != n && u in s.tasks && n in s.tasks && s.tasks[u].phase == a && s.tasks[n].phase == b
  }

  /** Two loads read a file that needs migration before either saves. */
  lemma RaceReads(m: Parts, s: State, u: nat, n: nat)
    requires Both(s, u, n, Opening, Opening) && Read(m, s.file).Saving?
    ensures var es := [Proceed(u, true), Proceed(u, true), Proceed(n, true), Proceed(n, true)];
            IsRun(m, s, es) && Both(Run(m, s, es), u, n, Read(m, s.file), Read(m, s.file)) && Run(m, s, es).config == s.config
  {
    var p, q := Proceed(u, true), Proceed(n, true);
    FourSteps(m, s, p, p, q, q);
  }

  /** Both write the temporary file, one renames it, the other has nothing left to rename. */
  lemma RaceSaves(m: Parts, s: State, u: nat, n: nat, tree: Json, upgraded: Json)
    requires Both(s, u, n, Saving(tree, Upgrade(upgraded)), Saving(tree, Upgrade(upgraded)))
    ensures var es := [Proceed(u, true), Proceed(n, true), Proceed(u, true), Proceed(n, true)];
            IsRun(m, s, es) && Both(Run(m, s, es), u, n, Loaded(Some(upgraded)), Failing(Upgrade(upgraded)))
            && Run(m, s, es).config == s.config
  {
    var p, q := Proceed(u, true), Proceed(n, true);
    FourSteps(m, s, p, q, p, q);
  }

  /** The loser goes on with the defaults alone. */
  lemma LoserEnds(m: Parts, s: State, u: nat, n: nat, upgraded: Json)
    requires Both(s, n, u, Loaded(Some(upgraded)), Failing(Upgrade(upgraded))) && NothingToMove(m)
    requires Outcome(m, None) == None
    ensures var es := [Proceed(u, true), Proceed(u, true)];
            IsRun(m, s, es) && u !in Run(m, s, es).tasks && Run(m, s, es).config == s.config
  {
    var p := Proceed(u, true);
    assert Both(Step(m, s, p).0, n, u, Loaded(Some(upgraded)), Loaded(None));
    TwoSteps(m, s, p, p);
  }

  /** It can finish last. */
  lemma RaceEnds(m: Parts, s: State, u: nat, n: nat, upgraded: Json)
    requires Both(s, u, n, Loaded(Some(upgraded)), Failing(Upgrade(upgraded))) && NothingToMove(m)
    requires Outcome(m, Some(upgraded)).Some? && Outcome(m, None).Some?
    ensures var es := [Proceed(n, true), Proceed(u, true), Proceed(n, true)];
            IsRun(m, s, es) && u !in Run(m, s, es).tasks && Run(m, s, es).config == Outcome(m, None)
  {
    var p, q := Proceed(u, true), Proceed(n, true);
    var s1 := Step(m, s, q).0;
    assert Both(s1, u, n, Loaded(Some(upgraded)), Loaded(None));
    TwoSteps(m, s1, p, q);
    RunHead(m, s, q, [p, q]);
  }

  lemma Race(m: Parts, s: State, u: nat, n: nat, tree: Json, upgraded: Json) returns (es: seq<Event>)
    requires Both(s, u, n, Opening, Opening) && Read(m, s.file) == Saving(tree, Upgrade(upgraded)) && NothingToMove(m)
    requires Outcome(m, Some(upgraded)).Some? && Outcome(m, None).Some?
    ensures IsRun(m, s, es) && Smooth(es) && u !in Run(m, s, es).tasks && Run(m, s, es).config == Outcome(m, None)
  {
    var p, q := Proceed(u, true), Proceed(n, true);
    RaceReads(m, s, u, n);
    var s1 := Run(m, s, [p, p, q, q]);
    RaceSaves(m, s1, u, n, tree, upgraded);
    RaceEnds(m, Run(m, s1, [p, q, p, q]), u, n, upgraded);
    RunConcat(m, s1, [p, q, p, q], [q, p, q]);
    RunConcat(m, s, [p, p, q, q], [p, q, p, q] + [q, p, q]);
    es := [p, p, q, q] + ([p, q, p, q] + [q, p, q]);
  }

  /** The update itself can be the loser, and throw. */
  lemma LosingRace(m: Parts, s: State, u: nat, n: nat, tree: Json, upgraded: Json) returns (es: seq<Event>)
    requires Both(s, n, u, Opening, Opening) && Read(m, s.file) == Saving(tree, Upgrade(upgraded)) && NothingToMove(m)
    requires Outcome(m, None) == None
    ensures IsRun(m, s, es) && Smooth(es) && u !in Run(m, s, es).tasks && Run(m, s, es).config == s.config
  {
    var p, q := Proceed(n, true), Proceed(u, true);
    RaceReads(m, s, n, u);
    var s1 := Run(m, s, [p, p, q, q]);
    RaceSaves(m, s1, n, u, tree, upgraded);
    LoserEnds(m, Run(m, s1, [p, q, p, q]), u, n, upgraded);
    RunConcat(m, s1, [p, q, p, q], [q, q]);
    RunConcat(m, s, [p, p, q, q], [p, q, p, q] + [q, q]);
    es := [p, p, q, q] + ([p, q, p, q] + [q, q]);
  }

  /** A reload that begins right after the update's rename races it for the upgrade: unless the defaults alone do no harm,
      one of the two can leave something else held, although no file operation meets an error but the lost rename. */
  lemma UpgradeRace(m: Parts, s: State, u: nat, v: Json)
    requires u in s.tasks && s.tasks[u].phase == Opening && u < s.next && NothingToMove(m) && LoadsTo(m, s.file, v)
    requires Read(m, s.file).Saving? && !FallbackFine(m, s.config, v)
    ensures exists es :: !HoldsOnceDone(m, s, es, u, v)
  {
    var Saving(tree, Upgrade(upgraded)) := Read(m, s.file);
    var t := Step(m, s, Reload).0;
    var rest: seq<Event>;
    if Outcome(m, None).Some? {
      rest := Race(m, t, u, s.next, tree, upgraded);
    } else {
      rest := LosingRace(m, t, u, s.next, tree, upgraded);
    }
    RunHead(m, s, Reload, rest);
    assert Smooth([Reload] + rest);
    assert !HoldsOnceDone(m, s, [Reload] + rest, u, v);
  }

  lemma ReadLoadsOrUpgrades(m: Parts, file: LocalFile)
    ensures Read(m, file).Loaded? || (Read(m, file).Saving? && Read(m, file).purpose.Upgrade?)
  {
  }

  /** Once an update has renamed, with only loads under way: whatever the order in which loads go on and begin, the
      configuration held when the update has returned is the load of the new file, exactly when no load that already has
      its layer would hold another, as one that read the old file would, and the new file needs no migration or falling
      back on the defaults alone does no harm. */
  lemma HeldIsLoadIff(m: Parts, s: State, u: nat, v: Json)
    requires Inv(s) && u in s.tasks && s.tasks[u].phase == Opening
    requires forall id :: id in s.tasks ==> Loading(s.tasks[id].phase)
    requires NothingToMove(m) && LoadsTo(m, s.file, v)
    ensures (forall es :: HoldsOnceDone(m, s, es, u, v)) <==>
              && (forall id :: id in s.tasks ==> Harmless(m, s.tasks[id].phase, v))
              && (Settled(m, s.file) || FallbackFine(m, s.config, v))
  {
    ReadLoadsOrUpgrades(m, s.file);
    if id :| id in s.tasks && !Harmless(m, s.tasks[id].phase, v) {
      StaleLoadWins(m, s, u, id, v);
    } else if !Settled(m, s.file) && !FallbackFine(m, s.config, v) {
      UpgradeRace(m, s, u, v);
    } else {
      forall es
        ensures HoldsOnceDone(m, s, es, u, v)
      {
        if IsRun(m, s, es) && Smooth(es) {
          FreshThroughout(m, s, s.file, u, v, es);
        }
      }
    }
  }

  // ---------------------------------------------------------------- what is stored stays stored

  /** This file, or what the migration it needs makes of it. */
  predicate Same(m: Parts, file: LocalFile, now: LocalFile) {
    now == file || now == Upgraded(m, file)
  }

  ghost predicate KeepsFile(m: Parts, s: State, es: seq<Event>) {
    IsRun(m, s, es) && Smooth(es) ==> Same(m, s.file, Run(m, s, es).file)
  }

  /** Nobody is about to write anything but what the file holds. */
  ghost predicate Quiet(m: Parts, s: State, file: LocalFile) {
    && Same(m, file, s.file) && (s.temp.Some? ==> Same(m, file, Saved(s.temp.value)))
    && forall id :: id in s.tasks ==>
         !UpdatePhase(s.tasks[id].phase) && (s.tasks[id].phase.Saving? ==> Same(m, file, Saved(s.tasks[id].phase.tree)))
  }

  lemma QuietStays(m: Parts, s: State, file: LocalFile, e: Event)
    requires Quiet(m, s, file) && Enabled(s, e) && (e.Reload? || (e.Proceed? && e.ok))
    requires NothingToMove(m) && Settled(m, Upgraded(m, file))
    ensures Quiet(m, Step(m, s, e).0, file)
  {
    StepMoves(m, s, e);
    TouchSays(m, s, e);
  }

  lemma {:induction false} QuietThroughout(m: Parts, s: State, file: LocalFile, es: seq<Event>)
    requires Quiet(m, s, file) && IsRun(m, s, es) && Smooth(es) && NothingToMove(m) && Settled(m, Upgraded(m, file))
    ensures Same(m, file, Run(m, s, es).file)
    decreases |es|
  {
    if es != [] {
      assert es[0] in es;
      QuietStays(m, s, file, es[0]);
      QuietThroughout(m, Step(m, s, es[0]).0, file, es[1..]);
    }
  }

  /** What an update stored stays stored, whatever order the tasks under way go on in, exactly when none of them is
      about to save anything else: a load that is upgrading the file it read before overwrites the update. */
  lemma CommitKeptIff(m: Parts, s: State, u: nat)
    requires Inv(s) && u in s.tasks && s.tasks[u] == Task(true, Opening) && s.temp == None
    requires NothingToMove(m) && Settled(m, Upgraded(m, s.file))
    ensures (forall es :: KeepsFile(m, s, es)) <==>
            forall id :: id in s.tasks && s.tasks[id].phase.Saving? ==> Same(m, s.file, Saved(s.tasks[id].phase.tree))
  {
    if forall id :: id in s.tasks && s.tasks[id].phase.Saving? ==> Same(m, s.file, Saved(s.tasks[id].phase.tree)) {
      assert Quiet(m, s, s.file);
      forall es
        ensures KeepsFile(m, s, es)
      {
        if IsRun(m, s, es) && Smooth(es) {
          QuietThroughout(m, s, s.file, es);
        }
      }
    }
    if id :| id in s.tasks && s.tasks[id].phase.Saving? && !Same(m, s.file, Saved(s.tasks[id].phase.tree)) {
      var p := Proceed(id, true);
      TwoSteps(m, s, p, p);
      assert !KeepsFile(m, s, [p, p]);
    }
  }
}
