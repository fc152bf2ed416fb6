/** ConfigService.update and reload, await by await, over local.json, its temporary file and the held configuration. */
module ConfigStore {
  import opened Outcomes
  import opened JsonTree
  import opened ConfigLoad
  import opened ConfigUpdates
  import opened ConfigPositions
  import opened ConfigReload
  import opened ConfigSecrets
  import ConfigMerge
  import Migration

  // ---------------------------------------------------------------- tasks and their segments

  /** The parts of the service its tasks are assembled from; Wired supplies the real ones. `migrated` is the tree to
      save when a migration is due, `moved` the one to save when secrets leave the environment. */
  datatype Parts = Parts(
    candidate: (LocalFile, Json) -> Option<Json>,
    verdict: Json -> Option<Error>,
    encrypted: Json -> Json,
    migrated: Json -> Option<Json>,
    raw: Option<Json> -> Option<Json>,
    moved: Json -> Option<Json>,
    finish: Option<Json> -> Result<Json, Error>)

  function Wired(r: Rules): Parts {
    Parts((local, partial) => Candidate(r, local, partial),
          candidate => Verdict(r, candidate),
          tree => Encrypted(r, tree),
          tree => if MigrationDue(tree) then Migration.Migrate(Some(tree)) else None,
          layer => Layered(r, layer),
          raw => r.envMigrate(raw),
          raw => Finish(r, raw))
  }

  /** Why a task saves, with the tree it goes on with. */
  datatype Purpose = Commit | Upgrade(tree: Json) | Move(tree: Json)

  /** What a task awaits. A save writes the temporary file, renames it, and on a failure removes it; verifying the
      written file is part of the rename here, since it fails in the same cases. */
  datatype Phase =
    | Reading(partial: Json)
    | Validating(candidate: Json)
    | Saving(tree: Json, purpose: Purpose)
    | Written(purpose: Purpose)
    | Failing(purpose: Purpose)
    | Opening
    | Opened
    | Loaded(layer: Option<Json>)

  datatype Task = Task(updating: bool, phase: Phase)

  /** local.json and local.json.tmp, _config and _isSaving, and the calls of update and reload under way. */
  datatype State = State(config: Option<Json>, isSaving: bool, file: LocalFile, temp: Option<Json>, tasks: map<nat, Task>, next: nat)

  /** A call of update or reload runs to its first await; Proceed runs a task from its await to the next, with the
      success or failure of what it awaited. */
  datatype Event = Call(partial: Json) | Reload | Proceed(id: nat, ok: bool)

  function Initial(file: LocalFile): (s: State)
    ensures Inv(s) && LeadsAreHeld(s)
  {
    State(None, false, file, None, map[], 0)
  }

  function Begun(s: State, task: Task): State {
    s.(tasks := s.tasks[s.next := task], next := s.next + 1)
  }

  function At(s: State, id: nat, phase: Phase): State
    requires id in s.tasks
  {
    s.(tasks := s.tasks[id := s.tasks[id].(phase := phase)])
  }

  /** The end of a task; update's finally lowers the flag. */
  function Ended(s: State, id: nat): State
    requires id in s.tasks
  {
    s.(tasks := s.tasks - {id}, isSaving := s.isSaving && !s.tasks[id].updating)
  }

  function Concluded(m: Parts, s: State, id: nat, raw: Option<Json>): (State, Option<Error>)
    requires id in s.tasks
  {
    match m.finish(raw)
    case Ok(c) => (Ended(s.(config := Some(c)), id), None)
    case Err(error) => (Ended(s, id), Some(error))
  }

  function AfterSave(m: Parts, s: State, id: nat, purpose: Purpose): (State, Option<Error>)
    requires id in s.tasks
  {
    match purpose
    case Commit => (At(s, id, Opening), None)
    case Upgrade(tree) => (At(s, id, Loaded(Some(tree))), None)
    case Move(tree) => Concluded(m, s, id, Some(tree))
  }

  /** A migration that cannot be saved drops the saved layer; the other saves throw. */
  function AfterFailure(s: State, id: nat, purpose: Purpose): (State, Option<Error>)
    requires id in s.tasks
  {
    match purpose
    case Upgrade(_) => (At(s, id, Loaded(None)), None)
    case _ => (Ended(s, id), Some(SaveFailed))
  }

  /** The layer a reload takes from the file, or the save that has to come first. */
  function Read(m: Parts, file: LocalFile): Phase {
    if !file.Saved? then Loaded(None)
    else match m.migrated(file.tree)
      case Some(tree) => Saving(m.encrypted(tree), Upgrade(tree))
      case None => Loaded(Some(file.tree))
  }

  function Proceeded(m: Parts, s: State, id: nat, ok: bool): (State, Option<Error>)
    requires id in s.tasks
  {
    match s.tasks[id].phase
    case Reading(partial) =>
      if !ok || m.candidate(s.file, partial) == None then (Ended(s, id), Some(ReadFailed))
      else (At(s, id, Validating(m.candidate(s.file, partial).value)), None)
    case Validating(candidate) =>
      if !ok then (Ended(s, id), Some(ReadFailed))
      else if m.verdict(candidate).Some? then (Ended(s, id), m.verdict(candidate))
      else (At(s, id, Saving(m.encrypted(candidate), Commit)), None)
    case Saving(tree, purpose) =>
      if ok then (At(s.(temp := Some(tree)), id, Written(purpose)), None) else (At(s, id, Failing(purpose)), None)
    case Written(purpose) =>
      if ok && s.temp.Some? then AfterSave(m, s.(file := Saved(s.temp.value), temp := None), id, purpose)
      else (At(s, id, Failing(purpose)), None)
    case Failing(purpose) => AfterFailure(s.(temp := None), id, purpose)
    case Opening => if ok then (At(s, id, Opened), None) else (Ended(s, id), Some(ReadFailed))
    case Opened => (At(s, id, if ok then Read(m, s.file) else Loaded(None)), None)
    case Loaded(layer) =>
      var raw := m.raw(layer);
      if raw == None then (Ended(s, id), Some(ValidationFailed))
      else match m.moved(raw.value)
        case Some(tree) => (At(s, id, Saving(m.encrypted(tree), Move(tree))), None)
        case None => Concluded(m, s, id, raw)
  }

  predicate Enabled(s: State, e: Event) {
    e.Proceed? ==> e.id in s.tasks
  }

  /** The next state and what the task of this segment throws, if anything. */
  function Step(m: Parts, s: State, e: Event): (State, Option<Error>)
    requires Enabled(s, e)
  {
    match e
    case Call(partial) =>
      if s.isSaving then (s, Some(SaveInProgress)) else (Begun(s.(isSaving := true), Task(true, Reading(partial))), None)
    case Reload => (Begun(s, Task(false, Opening)), None)
    case Proceed(id, ok) => Proceeded(m, s, id, ok)
  }

  ghost predicate IsRun(m: Parts, s: State, es: seq<Event>)
    decreases |es|
  {
    es == [] || (Enabled(s, es[0]) && IsRun(m, Step(m, s, es[0]).0, es[1..]))
  }

  function Run(m: Parts, s: State, es: seq<Event>): State
    requires IsRun(m, s, es)
    decreases |es|
  {
    if es == [] then s else Run(m, Step(m, s, es[0]).0, es[1..])
  }

  // ---------------------------------------------------------------- a call nobody interleaves with

  /** The file after a load's first save, if one is due, and the layer it goes on with. */
  function LayerAlone(m: Parts, file: LocalFile, luck: LoadLuck): (LocalFile, Option<Json>) {
    match Read(m, file)
    case Saving(tree, Upgrade(migrated)) => if luck.migrationSaved then (Saved(tree), Some(migrated)) else (file, None)
    case Loaded(layer) => (file, layer)
    case _ => (file, None)
  }

  function RestAlone(m: Parts, file: LocalFile, raw: Option<Json>, luck: LoadLuck): (LocalFile, Result<Json, Error>) {
    if raw == None then (file, Err(ValidationFailed))
    else match m.moved(raw.value)
      case None => (file, m.finish(raw))
      case Some(tree) => if luck.secretsSaved then (Saved(m.encrypted(tree)), m.finish(Some(tree))) else (file, Err(SaveFailed))
  }

  /** A load in one piece. */
  function LoadAlone(m: Parts, file: LocalFile, luck: LoadLuck): (LocalFile, Result<Json, Error>) {
    var (file1, layer) := LayerAlone(m, file, luck);
    RestAlone(m, file1, m.raw(layer), luck)
  }

  lemma ReadIs(r: Rules, tree: Json)
    ensures Read(Wired(r), Saved(tree)) ==
            if MigrationDue(tree) then Saving(Encrypted(r, MergedLayer(tree)), Upgrade(MergedLayer(tree))) else Loaded(Some(tree))
  {
    assert Wired(r).migrated(tree) == if MigrationDue(tree) then Some(MergedLayer(tree)) else None;
  }

  lemma SavedLayerAlone(r: Rules, tree: Json, luck: LoadLuck)
    ensures LayerAlone(Wired(r), Saved(tree), luck) ==
            if !MigrationDue(tree) then (Saved(tree), Some(tree))
            else if luck.migrationSaved then (Saved(Encrypted(r, MergedLayer(tree))), Some(MergedLayer(tree)))
            else (Saved(tree), None)
  {
    ReadIs(r, tree);
  }

  lemma SavedLocalLayer(r: Rules, tree: Json, luck: LoadLuck)
    ensures LocalLayer(r, Saved(tree), luck) ==
            if !MigrationDue(tree) then (Saved(tree), Some(tree))
            else if luck.migrationSaved then (Saved(Encrypted(r, MergedLayer(tree))), Some(MergedLayer(tree)))
            else (Saved(tree), None)
  {
  }

  lemma LayerAloneIsLocalLayer(r: Rules, file: LocalFile, luck: LoadLuck)
    ensures LayerAlone(Wired(r), file, luck) == LocalLayer(r, file, luck)
  {
    if file.Saved? {
      SavedLayerAlone(r, file.tree, luck);
      SavedLocalLayer(r, file.tree, luck);
    }
  }

  lemma RestAloneIsComplete(r: Rules, file: LocalFile, raw: Option<Json>, luck: LoadLuck)
    ensures RestAlone(Wired(r), file, raw, luck) == Complete(r, file, raw, luck)
  {
  }

  /** The segments of a reload that nobody interleaves with make up the load. */
  lemma LoadAloneIsLoad(r: Rules, file: LocalFile, luck: LoadLuck)
    ensures LoadAlone(Wired(r), file, luck) == Load(r, file, luck)
  {
    LayerAloneIsLocalLayer(r, file, luck);
    var (file1, layer) := LocalLayer(r, file, luck);
    RestAloneIsComplete(r, file1, Layered(r, layer), luck);
  }

  class ConfigService {
    var state: State
    const rules: Rules
    const parts: Parts

    constructor (rules: Rules, file: LocalFile)
      ensures state == Initial(file) && this.rules == rules && parts == Wired(rules)
    {
      this.rules, parts := rules, Wired(rules);
      state := Initial(file);
    }

    /** One segment of whichever task. */
    method Advance(e: Event) returns (error: Option<Error>)
      requires Enabled(state, e)
      modifies this
      ensures (state, error) == Step(parts, old(state), e)
    {
      var (next, thrown) := Step(parts, state, e);
      state := next;
      error := thrown;
    }

    /** The next segment of task `id`, the others being `rest`. */
    method Next(id: nat, ok: bool, ghost rest: map<nat, Task>) returns (error: Option<Error>)
      requires id !in rest && id in state.tasks && state.tasks == rest[id := state.tasks[id]]
      modifies this
      ensures (state, error) == Step(parts, old(state), Proceed(id, ok))
      ensures id in state.tasks ==> state.tasks == rest[id := state.tasks[id]] && state.tasks[id].updating == old(state).tasks[id].updating
      ensures id !in state.tasks ==> state.tasks == rest && state.isSaving == (old(state).isSaving && !old(state).tasks[id].updating)
      ensures id in state.tasks ==> state.isSaving == old(state).isSaving
    {
      error := Advance(Proceed(id, ok));
      ProceedingAdvances(parts, old(state), id, ok);
      RestAside(old(state), state, id, rest);
    }

    /** _saveLocal uninterrupted; `saved` is whether the rename succeeds. */
    method SaveLocal(id: nat, saved: bool, ghost rest: map<nat, Task>) returns (error: Option<Error>)
      requires id !in rest && id in state.tasks && state.tasks == rest[id := state.tasks[id]] && state.tasks[id].phase.Saving?
      modifies this
      ensures id in state.tasks ==> state.tasks == rest[id := state.tasks[id]] && state.tasks[id].updating == old(state).tasks[id].updating
      ensures id !in state.tasks ==> state.tasks == rest && state.isSaving == (old(state).isSaving && !old(state).tasks[id].updating)
      ensures id in state.tasks ==> state.isSaving == old(state).isSaving
      ensures state.file == if saved then Saved(old(state).tasks[id].phase.tree) else old(state).file
      ensures match old(state).tasks[id].phase.purpose
              case Commit =>
                state.config == old(state).config
                && if saved then id in state.tasks && state.tasks[id].phase == Opening && error == None
                   else id !in state.tasks && error == Some(SaveFailed)
              case Upgrade(tree) =>
                id in state.tasks && state.config == old(state).config && error == None
                && state.tasks[id].phase == Loaded(if saved then Some(tree) else None)
              case Move(tree) =>
                id !in state.tasks
                && if saved then state.config == Kept(old(state).config, parts.finish(Some(tree))) && error == Thrown(parts.finish(Some(tree)))
                   else state.config == old(state).config && error == Some(SaveFailed)
    {
      error := Next(id, true, rest);
      error := Next(id, saved, rest);
      if !saved {
        error := Next(id, true, rest);
      }
    }

    /** reload up to the secrets of the merged tree. */
    method FetchNow(id: nat, luck: LoadLuck, ghost rest: map<nat, Task>)
      requires id !in rest && id in state.tasks && state.tasks == rest[id := state.tasks[id]] && state.tasks[id].phase == Opening
      modifies this
      ensures var (file, layer) := LayerAlone(parts, old(state).file, luck);
              && id in state.tasks && state.tasks == rest[id := Task(old(state).tasks[id].updating, Loaded(layer))]
              && state.file == file && state.config == old(state).config && state.isSaving == old(state).isSaving
    {
      var error := Next(id, true, rest);
      error := Next(id, true, rest);
      if state.tasks[id].phase.Saving? {
        error := SaveLocal(id, luck.migrationSaved, rest);
      }
    }

    /** The rest of reload. */
    method FinishNow(id: nat, luck: LoadLuck, ghost rest: map<nat, Task>) returns (error: Option<Error>)
      requires id !in rest && id in state.tasks && state.tasks == rest[id := state.tasks[id]] && state.tasks[id].phase.Loaded?
      modifies this
      ensures state.tasks == rest && state.isSaving == (old(state).isSaving && !old(state).tasks[id].updating)
      ensures var (file, result) := RestAlone(parts, old(state).file, parts.raw(old(state).tasks[id].phase.layer), luck);
              && state.file == file && state.config == Kept(old(state).config, result) && error == Thrown(result)
    {
      error := Next(id, true, rest);
      if id in state.tasks {
        error := SaveLocal(id, luck.secretsSaved, rest);
      }
    }

    /** reload from its first await on, uninterrupted and with readable files. */
    method LoadNow(id: nat, luck: LoadLuck, ghost rest: map<nat, Task>) returns (error: Option<Error>)
      requires id !in rest && id in state.tasks && state.tasks == rest[id := state.tasks[id]] && state.tasks[id].phase == Opening
      modifies this
      ensures state.tasks == rest && state.isSaving == (old(state).isSaving && !old(state).tasks[id].updating)
      ensures var (file, result) := LoadAlone(parts, old(state).file, luck);
              && state.file == file && state.config == Kept(old(state).config, result) && error == Thrown(result)
    {
      FetchNow(id, luck, rest);
      error := FinishNow(id, luck, rest);
    }

    /** update, uninterrupted, whatever other tasks wait at their awaits. */
    method Update(partial: Json, localReadable: bool, defaultReadable: bool, renamed: bool, luck: LoadLuck)
      returns (error: Option<Error>)
      requires state.next !in state.tasks
      modifies this
      ensures old(state).isSaving ==> error == Some(SaveInProgress) && state == old(state)
      ensures !old(state).isSaving ==> !state.isSaving && state.tasks == old(state).tasks
      ensures !old(state).isSaving ==>
                var c := parts.candidate(old(state).file, partial);
                if !localReadable || c == None || !defaultReadable then
                  error == Some(ReadFailed) && state.file == old(state).file && state.config == old(state).config
                else if parts.verdict(c.value).Some? then
                  error == parts.verdict(c.value) && state.file == old(state).file && state.config == old(state).config
                else if !renamed then
                  error == Some(SaveFailed) && state.file == old(state).file && state.config == old(state).config
                else
                  var (file, result) := LoadAlone(parts, Saved(parts.encrypted(c.value)), luck);
                  state.file == file && state.config == Kept(old(state).config, result) && error == Thrown(result)
      ensures !old(state).isSaving && localReadable && defaultReadable && renamed && parts == Wired(rules)
              && Validated(parts, parts.candidate(old(state).file, partial))
              && WellDeclared(rules.reg) && NothingMoves(rules) && Fitting(old(state).file, partial) ==>
                AllSentHeld(rules, partial, state.file)
                && (error == None && FittingDefaults(rules, old(state).file, partial, luck) ==>
                      AllSentInForce(rules, partial, state.config))
    {
      var id := state.next;
      ghost var rest := state.tasks;
      error := Advance(Call(partial));
      if error.Some? {
        return;
      }
      error := Next(id, localReadable, rest);
      if error.Some? {
        return;
      }
      error := Next(id, defaultReadable, rest);
      if error.Some? {
        return;
      }
      error := SaveLocal(id, renamed, rest);
      if error.Some? {
        return;
      }
      error := LoadNow(id, luck, rest);
      CommitHoldsSent(rules, old(state).file, partial, luck);
      CommitPutsInForce(rules, old(state).file, partial, luck);
    }
  }

  /** The stored tree and the partial one can be merged key by key. */
  predicate Fitting(file: LocalFile, partial: Json) {
    Current(file).Obj? && partial.Obj? && ConfigMerge.Mergeable(Current(file), partial)
  }

  /** What was sent is in the file that an update's load leaves. */
  lemma CommitHoldsSent(r: Rules, file: LocalFile, partial: Json, luck: LoadLuck)
    ensures WellDeclared(r.reg) && NothingMoves(r) && Fitting(file, partial) && Wired(r).candidate(file, partial).Some? ==>
              AllSentHeld(r, partial, LoadAlone(Wired(r), Saved(Wired(r).encrypted(Wired(r).candidate(file, partial).value)), luck).0)
  {
    if WellDeclared(r.reg) && NothingMoves(r) && Fitting(file, partial) && Wired(r).candidate(file, partial).Some? {
      var c := Candidate(r, file, partial).value;
      LoadAloneIsLoad(r, Saved(Encrypted(r, c)), luck);
      SentHeldAfterLoad(r, file, partial, luck);
    }
  }

  /** So can the defaults and the tree an update stores, whose upgrade, if one is due, can be saved. */
  ghost predicate FittingDefaults(r: Rules, file: LocalFile, partial: Json, luck: LoadLuck) {
    Wired(r).candidate(file, partial).Some? && r.defaults.Obj? &&
    var stored := Wired(r).encrypted(Wired(r).candidate(file, partial).value);
    Usable(Saved(stored), luck) && MergedLayer(stored).Obj? && ConfigMerge.Mergeable(r.defaults, MergedLayer(stored))
  }

  /** And it is in force when the load succeeds. */
  lemma CommitPutsInForce(r: Rules, file: LocalFile, partial: Json, luck: LoadLuck)
    ensures WellDeclared(r.reg) && NothingMoves(r) && Fitting(file, partial) && FittingDefaults(r, file, partial, luck) ==>
              var result := LoadAlone(Wired(r), Saved(Wired(r).encrypted(Wired(r).candidate(file, partial).value)), luck).1;
              result.Ok? ==> AllSentInForce(r, partial, Some(result.value))
  {
    if WellDeclared(r.reg) && NothingMoves(r) && Fitting(file, partial) && FittingDefaults(r, file, partial, luck) {
      var stored := Encrypted(r, Candidate(r, file, partial).value);
      LoadAloneIsLoad(r, Saved(stored), luck);
      if Load(r, Saved(stored), luck).1.Ok? {
        SentInForceAfterLoad(r, file, partial, luck);
      }
    }
  }

  lemma RestAside(s: State, s': State, id: nat, rest: map<nat, Task>)
    requires Advances(s, s', id) && id !in rest && s.tasks == rest[id := s.tasks[id]]
    ensures if id in s'.tasks then s'.tasks == rest[id := s'.tasks[id]] else s'.tasks == rest
  {
    assert rest[id := s.tasks[id]] - {id} == rest;
  }

  function Kept(config: Option<Json>, result: Result<Json, Error>): Option<Json> {
    if result.Ok? then Some(result.value) else config
  }

  function Thrown(result: Result<Json, Error>): Option<Error> {
    if result.Err? then Some(result.error) else None
  }

  /** The candidate is there and passes. */
  predicate Validated(m: Parts, candidate: Option<Json>) {
    candidate.Some? && m.verdict(candidate.value) == None
  }

  // ---------------------------------------------------------------- every interleaving

  /** Phases only an update goes through. */
  predicate UpdatePhase(phase: Phase) {
    phase.Reading? || phase.Validating? || ((phase.Saving? || phase.Written? || phase.Failing?) && phase.purpose.Commit?)
  }

  /** The flag is up exactly while one update is under way, and only that one goes through an update's phases. */
  ghost predicate Inv(s: State) {
    && (forall id :: id in s.tasks ==> id < s.next && (UpdatePhase(s.tasks[id].phase) ==> s.tasks[id].updating))
    && (forall id :: id in s.tasks && s.tasks[id].updating ==> s.isSaving)
    && (s.isSaving ==> exists id :: id in s.tasks && s.tasks[id].updating)
    && (forall i, j :: i in s.tasks && j in s.tasks && s.tasks[i].updating && s.tasks[j].updating ==> i == j)
  }

  /** Task id goes on or ends, and nothing happens to the others. */
  ghost predicate Advances(s: State, s': State, id: nat) {
    && id in s.tasks && s'.next == s.next
    && if id in s'.tasks
       then && s'.tasks == s.tasks[id := s'.tasks[id]] && s'.isSaving == s.isSaving
            && s'.tasks[id].updating == s.tasks[id].updating
            && (UpdatePhase(s'.tasks[id].phase) ==> UpdatePhase(s.tasks[id].phase))
       else s'.tasks == s.tasks - {id} && s'.isSaving == (s.isSaving && !s.tasks[id].updating)
  }

  /** What one segment does to the tasks and the flag. */
  ghost predicate Moves(s: State, s': State, e: Event) {
    match e
    case Call(partial) =>
      s' == s || (!s.isSaving && s'.isSaving && s'.tasks == s.tasks[s.next := Task(true, Reading(partial))] && s'.next == s.next + 1)
    case Reload => s'.isSaving == s.isSaving && s'.tasks == s.tasks[s.next := Task(false, Opening)] && s'.next == s.next + 1
    case Proceed(id, ok) => Advances(s, s', id)
  }

  lemma SteppingAdvances(s: State, s': State, id: nat, phase: Phase)
    requires id in s.tasks && s'.tasks == s.tasks[id := s.tasks[id].(phase := phase)]
    requires s'.next == s.next && s'.isSaving == s.isSaving && (UpdatePhase(phase) ==> UpdatePhase(s.tasks[id].phase))
    ensures Advances(s, s', id)
  {
  }

  lemma UpdatingAdvances(m: Parts, s: State, id: nat, ok: bool)
    requires id in s.tasks && (s.tasks[id].phase.Reading? || s.tasks[id].phase.Validating?)
    ensures Advances(s, Proceeded(m, s, id, ok).0, id)
  {
    var s' := Proceeded(m, s, id, ok).0;
    if id in s'.tasks {
      SteppingAdvances(s, s', id, s'.tasks[id].phase);
    }
  }

  lemma SavingAdvances(m: Parts, s: State, id: nat, ok: bool)
    requires id in s.tasks && (s.tasks[id].phase.Saving? || s.tasks[id].phase.Written? || s.tasks[id].phase.Failing?)
    ensures Advances(s, Proceeded(m, s, id, ok).0, id)
  {
    var s' := Proceeded(m, s, id, ok).0;
    if id in s'.tasks {
      SteppingAdvances(s, s', id, s'.tasks[id].phase);
    }
  }

  lemma LoadingAdvances(m: Parts, s: State, id: nat, ok: bool)
    requires id in s.tasks && (s.tasks[id].phase.Opening? || s.tasks[id].phase.Opened? || s.tasks[id].phase.Loaded?)
    ensures Advances(s, Proceeded(m, s, id, ok).0, id)
  {
    var s' := Proceeded(m, s, id, ok).0;
    if id in s'.tasks {
      SteppingAdvances(s, s', id, s'.tasks[id].phase);
    }
  }

  lemma ProceedingAdvances(m: Parts, s: State, id: nat, ok: bool)
    requires id in s.tasks
    ensures Advances(s, Proceeded(m, s, id, ok).0, id)
  {
    match s.tasks[id].phase
    case Reading(_) => UpdatingAdvances(m, s, id, ok);
    case Validating(_) => UpdatingAdvances(m, s, id, ok);
    case Saving(_, _) => SavingAdvances(m, s, id, ok);
    case Written(_) => SavingAdvances(m, s, id, ok);
    case Failing(_) => SavingAdvances(m, s, id, ok);
    case _ => LoadingAdvances(m, s, id, ok);
  }

  lemma StepMoves(m: Parts, s: State, e: Event)
    requires Enabled(s, e)
    ensures Moves(s, Step(m, s, e).0, e)
  {
    if e.Proceed? {
      ProceedingAdvances(m, s, e.id, e.ok);
    }
  }

  lemma MovesKeepInv(s: State, s': State, e: Event)
    requires Inv(s) && Moves(s, s', e)
    ensures Inv(s')
  {
    if e.Call? && s' != s {
      assert s'.tasks[s.next].updating;
    } else if s.isSaving {
      var u :| u in s.tasks && s.tasks[u].updating;
      assert u in s'.tasks ==> s'.tasks[u].updating;
    }
  }

  /** The task is about to save, for an update, the encrypted form of a candidate that passed. */
  ghost predicate SavesValidated(m: Parts, task: Task) {
    task.phase.Saving? && task.phase.purpose.Commit? ==>
      exists c :: Validated(m, Some(c)) && task.phase.tree == m.encrypted(c)
  }

  ghost predicate AllValidated(m: Parts, s: State) {
    forall id :: id in s.tasks ==> SavesValidated(m, s.tasks[id])
  }

  lemma ProceedingValidates(m: Parts, s: State, id: nat, ok: bool)
    requires id in s.tasks
    ensures var t := Proceeded(m, s, id, ok).0; id in t.tasks ==> SavesValidated(m, t.tasks[id])
  {
    if s.tasks[id].phase.Validating? && ok && m.verdict(s.tasks[id].phase.candidate) == None {
      assert Validated(m, Some(s.tasks[id].phase.candidate));
    }
  }

  /** In every interleaving an update saves nothing but candidates that passed. */
  lemma {:induction false} OnlyValidatedSaved(m: Parts, s: State, es: seq<Event>)
    requires AllValidated(m, s) && IsRun(m, s, es)
    ensures AllValidated(m, Run(m, s, es))
    decreases |es|
  {
    if es != [] {
      var t := Step(m, s, es[0]).0;
      StepMoves(m, s, es[0]);
      if es[0].Proceed? {
        ProceedingValidates(m, s, es[0].id, es[0].ok);
      }
      OnlyValidatedSaved(m, t, es[1..]);
    }
  }

  ghost predicate IsEncrypted(m: Parts, tree: Json) {
    exists c :: tree == m.encrypted(c)
  }

  /** The file is as it was or holds a tree the service encrypted, and so does what is on its way into it. */
  ghost predicate OnlyEncrypted(m: Parts, before: LocalFile, s: State) {
    && (s.file == before || (s.file.Saved? && IsEncrypted(m, s.file.tree)))
    && (s.temp.Some? ==> IsEncrypted(m, s.temp.value))
    && forall id :: id in s.tasks && s.tasks[id].phase.Saving? ==> IsEncrypted(m, s.tasks[id].phase.tree)
  }

  lemma ProceedingEncrypts(m: Parts, s: State, id: nat, ok: bool)
    requires id in s.tasks
    ensures var t := Proceeded(m, s, id, ok).0;
            id in t.tasks && t.tasks[id].phase.Saving? ==> IsEncrypted(m, t.tasks[id].phase.tree)
  {
  }

  lemma ProceedingFiles(m: Parts, s: State, id: nat, ok: bool)
    requires id in s.tasks
    ensures var t := Proceeded(m, s, id, ok).0;
            && (t.file == s.file || (s.temp.Some? && t.file == Saved(s.temp.value)))
            && (t.temp.Some? ==> t.temp == s.temp || (s.tasks[id].phase.Saving? && t.temp.value == s.tasks[id].phase.tree))
  {
  }

  lemma StepKeepsEncrypted(m: Parts, before: LocalFile, s: State, e: Event)
    requires OnlyEncrypted(m, before, s) && Enabled(s, e)
    ensures OnlyEncrypted(m, before, Step(m, s, e).0)
  {
    StepMoves(m, s, e);
    if e.Proceed? {
      ProceedingEncrypts(m, s, e.id, e.ok);
      ProceedingFiles(m, s, e.id, e.ok);
    }
  }

  lemma {:induction false} OnlyEncryptedStored(m: Parts, before: LocalFile, s: State, es: seq<Event>)
    requires OnlyEncrypted(m, before, s) && IsRun(m, s, es)
    ensures OnlyEncrypted(m, before, Run(m, s, es))
    decreases |es|
  {
    if es != [] {
      StepKeepsEncrypted(m, before, s, es[0]);
      OnlyEncryptedStored(m, before, Step(m, s, es[0]).0, es[1..]);
    }
  }

  lemma WiredEncrypts(r: Rules, tree: Json) returns (c: Json)
    requires IsEncrypted(Wired(r), tree)
    ensures tree == Encrypted(r, c)
  {
    c :| tree == Wired(r).encrypted(c);
  }

  /** In every interleaving of updates and loads from the start of the service on, no save leaves a readable secret in the
      file: each secret position holds no text, a mask or a ciphertext. */
  lemma SecretsNeverStored(r: Rules, m: Parts, file: LocalFile, es: seq<Event>, p: Path)
    requires WellDeclared(r.reg) && Authenticated(r.cipher) && m == Wired(r) && IsRun(m, Initial(file), es)
    ensures var t := Run(m, Initial(file), es).file;
            t != file ==> t.Saved? && (p in SecretPaths(r.reg, Some(t.tree)) ==> Unreadable(Get(Some(t.tree), p)))
  {
    OnlyEncryptedStored(m, file, Initial(file), es);
    var t := Run(m, Initial(file), es).file;
    if t != file {
      var c := WiredEncrypts(r, t.tree);
      if p in SecretPaths(r.reg, Some(t.tree)) {
        StoredUnreadable(r, c, p);
      }
    }
  }

  /** In every run at most one update is under way, the flag tells whether one is, and a call is refused exactly then. */
  lemma {:induction false} OneUpdateAtATime(m: Parts, s: State, es: seq<Event>, partial: Json)
    requires Inv(s) && IsRun(m, s, es)
    ensures var t := Run(m, s, es);
            && Inv(t)
            && (Step(m, t, Call(partial)).1 == Some(SaveInProgress) <==> exists id :: id in t.tasks && t.tasks[id].updating)
            && (Step(m, t, Call(partial)).1 == Some(SaveInProgress) ==> Step(m, t, Call(partial)).0 == t)
    decreases |es|
  {
    if es != [] {
      StepMoves(m, s, es[0]);
      MovesKeepInv(s, Step(m, s, es[0]).0, es[0]);
      OneUpdateAtATime(m, Step(m, s, es[0]).0, es[1..], partial);
    }
  }

  ghost predicate LeadsAreHeld(s: State) {
    s.config.Some? ==> LeadsHeld(s.config.value)
  }

  /** In every interleaving of updates and reloads, whatever fails, the held configuration has every lead in range. */
  lemma {:induction false} HeldConfigIsValid(r: Rules, s: State, es: seq<Event>)
    requires Distinct(r.strategies) && LeadsAreHeld(s) && IsRun(Wired(r), s, es)
    ensures LeadsAreHeld(Run(Wired(r), s, es))
    decreases |es|
  {
    if es != [] {
      StepHoldsLeads(r, s, es[0]);
      HeldConfigIsValid(r, Step(Wired(r), s, es[0]).0, es[1..]);
    }
  }

  lemma StepHoldsLeads(r: Rules, s: State, e: Event)
    requires Distinct(r.strategies) && LeadsAreHeld(s) && Enabled(s, e)
    ensures LeadsAreHeld(Step(Wired(r), s, e).0)
  {
    var concluded := LoadedBy(Wired(r), s, e);
    if concluded.Some? && concluded.value.Ok? {
      var raw := RawOf(Wired(r), s, e);
      LoadHoldsLeads(r, raw);
    }
    ConfigAfter(Wired(r), s, e);
  }

  /** The tree with which this segment ends a load. */
  function RawOf(m: Parts, s: State, e: Event): Option<Json> {
    if !e.Proceed? || e.id !in s.tasks then None
    else match s.tasks[e.id].phase
      case Loaded(layer) => m.raw(layer)
      case Written(Move(tree)) => Some(tree)
      case _ => None
  }

  /** The outcome of the load this segment ends, if it ends one. */
  function LoadedBy(m: Parts, s: State, e: Event): Option<Result<Json, Error>> {
    var raw := RawOf(m, s, e);
    if raw == None then None
    else if s.tasks[e.id].phase.Loaded? then (if m.moved(raw.value) == None then Some(m.finish(raw)) else None)
    else if RenamedBy(s, e).Some? then Some(m.finish(raw)) else None
  }

  /** What this segment renames to local.json, if it does. */
  function RenamedBy(s: State, e: Event): Option<Json> {
    if e.Proceed? && e.id in s.tasks && s.tasks[e.id].phase.Written? && e.ok then s.temp else None
  }

  lemma ConfigAfter(m: Parts, s: State, e: Event)
    requires Enabled(s, e)
    ensures Step(m, s, e).0.config ==
            if LoadedBy(m, s, e).Some? && LoadedBy(m, s, e).value.Ok? then Some(LoadedBy(m, s, e).value.value) else s.config
  {
  }

  // ---------------------------------------------------------------- what a run leaves behind

  predicate By(e: Event, others: set<nat>) {
    e.Proceed? && e.id in others
  }

  /** What was renamed last, segments of the tasks in `but` aside. */
  function LastRenamed(m: Parts, s: State, es: seq<Event>, but: set<nat>): Option<Json>
    requires IsRun(m, s, es)
    decreases |es|
  {
    if es == [] then None
    else
      var later := LastRenamed(m, Step(m, s, es[0]).0, es[1..], but);
      if later.Some? || By(es[0], but) then later else RenamedBy(s, es[0])
  }

  function LastLoaded(m: Parts, s: State, es: seq<Event>, but: set<nat>): Option<Json>
    requires IsRun(m, s, es)
    decreases |es|
  {
    if es == [] then None
    else
      var later := LastLoaded(m, Step(m, s, es[0]).0, es[1..], but);
      var loaded := LoadedBy(m, s, es[0]);
      if later.Some? || By(es[0], but) then later
      else if loaded.Some? && loaded.value.Ok? then Some(loaded.value.value) else None
  }

  ghost predicate Leaves(s: State, t: State, renamed: Option<Json>, loaded: Option<Json>) {
    && t.file == (if renamed.Some? then Saved(renamed.value) else s.file)
    && t.config == (if loaded.Some? then loaded else s.config)
  }

  /** In every run the file is what was renamed last and the configuration what was loaded last, whatever failed in
      between. */
  lemma {:induction false} LastRenameAndLoad(m: Parts, s: State, es: seq<Event>)
    requires IsRun(m, s, es)
    ensures Leaves(s, Run(m, s, es), LastRenamed(m, s, es, {}), LastLoaded(m, s, es, {}))
    decreases |es|
  {
    if es != [] {
      ConfigAfter(m, s, es[0]);
      LastRenameAndLoad(m, Step(m, s, es[0]).0, es[1..]);
    }
  }

  /** Task u renames nothing in the run. */
  ghost predicate NeverRenames(m: Parts, s: State, es: seq<Event>, u: nat)
    requires IsRun(m, s, es)
    decreases |es|
  {
    es == [] || ((By(es[0], {u}) ==> RenamedBy(s, es[0]) == None) && NeverRenames(m, Step(m, s, es[0]).0, es[1..], u))
  }

  /** An update that never renames changes neither file nor configuration by a segment of its own: they end as what the
      other tasks renamed and loaded last. That can be the very tree it wrote to the temporary file, see
      StoredThoughThrownIff. */
  lemma {:induction false} NothingBeforeRename(m: Parts, s: State, es: seq<Event>, u: nat)
    requires Inv(s) && IsRun(m, s, es) && NeverRenames(m, s, es, u)
    requires u < s.next && (u in s.tasks ==> UpdatePhase(s.tasks[u].phase))
    ensures Leaves(s, Run(m, s, es), LastRenamed(m, s, es, {u}), LastLoaded(m, s, es, {u}))
    decreases |es|
  {
    if es != [] {
      var s' := Step(m, s, es[0]).0;
      ConfigAfter(m, s, es[0]);
      StepMoves(m, s, es[0]);
      MovesKeepInv(s, s', es[0]);
      StaysUpdating(m, s, es[0], u);
      NothingBeforeRename(m, s', es[1..], u);
    }
  }

  lemma StaysUpdating(m: Parts, s: State, e: Event, u: nat)
    requires Enabled(s, e) && u < s.next && (u in s.tasks ==> UpdatePhase(s.tasks[u].phase))
    requires By(e, {u}) ==> RenamedBy(s, e) == None
    ensures var s' := Step(m, s, e).0; u < s'.next && (u in s'.tasks ==> UpdatePhase(s'.tasks[u].phase))
    ensures By(e, {u}) ==> LoadedBy(m, s, e) == None
  {
  }

  // ---------------------------------------------------------------- runs step by step

  lemma FourSteps(m: Parts, s: State, a: Event, b: Event, c: Event, d: Event)
    requires Enabled(s, a)
    requires var s1 := Step(m, s, a).0; Enabled(s1, b)
    requires var s2 := Step(m, Step(m, s, a).0, b).0; Enabled(s2, c)
    requires var s3 := Step(m, Step(m, Step(m, s, a).0, b).0, c).0; Enabled(s3, d)
    ensures IsRun(m, s, [a, b, c, d])
    ensures Run(m, s, [a, b, c, d]) == Step(m, Step(m, Step(m, Step(m, s, a).0, b).0, c).0, d).0
  {
    RunHead(m, s, a, [b, c, d]);
    TwoSteps(m, Step(m, Step(m, s, a).0, b).0, c, d);
    RunHead(m, Step(m, s, a).0, b, [c, d]);
  }

  lemma RunHead(m: Parts, s: State, e: Event, es: seq<Event>)
    requires Enabled(s, e)
    ensures IsRun(m, s, [e] + es) <==> IsRun(m, Step(m, s, e).0, es)
    ensures IsRun(m, Step(m, s, e).0, es) ==> Run(m, s, [e] + es) == Run(m, Step(m, s, e).0, es)
  {
    assert ([e] + es)[1..] == es;
  }

  lemma TwoSteps(m: Parts, s: State, a: Event, b: Event)
    requires Enabled(s, a) && Enabled(Step(m, s, a).0, b)
    ensures IsRun(m, s, [a, b]) && Run(m, s, [a, b]) == Step(m, Step(m, s, a).0, b).0
  {
    RunHead(m, s, a, [b]);
    RunHead(m, Step(m, s, a).0, b, []);
  }

  lemma {:induction false} RunConcat(m: Parts, s: State, a: seq<Event>, b: seq<Event>)
    requires IsRun(m, s, a) && IsRun(m, Run(m, s, a), b)
    ensures IsRun(m, s, a + b) && Run(m, s, a + b) == Run(m, Run(m, s, a), b)
    decreases |a|
  {
    if a == [] {
      assert a + b == b;
    } else {
      RunConcat(m, Step(m, s, a[0]).0, a[1..], b);
      RunHead(m, s, a[0], a[1..] + b);
      assert [a[0]] + (a[1..] + b) == a + b;
    }
  }

  // ---------------------------------------------------------------- the temporary file all saves share

  /** What this segment leaves in place of the temporary file, None when it does not touch it. */
  function Touch(s: State, e: Event): Option<Option<Json>> {
    if !e.Proceed? || e.id !in s.tasks then None
    else match s.tasks[e.id].phase
      case Saving(tree, _) => if e.ok then Some(Some(tree)) else None
      case Written(_) => if e.ok && s.temp.Some? then Some(None) else None
      case Failing(_) => Some(None)
      case _ => None
  }

  function LastTouch(m: Parts, s: State, es: seq<Event>): Option<Option<Json>>
    requires IsRun(m, s, es)
    decreases |es|
  {
    if es == [] then None
    else
      var later := LastTouch(m, Step(m, s, es[0]).0, es[1..]);
      if later.Some? then later else Touch(s, es[0])
  }

  predicate Spare(es: seq<Event>, u: nat) {
    forall e :: e in es ==> !By(e, {u})
  }

  lemma TouchSays(m: Parts, s: State, e: Event)
    requires Enabled(s, e)
    ensures Step(m, s, e).0.temp == if Touch(s, e).Some? then Touch(s, e).value else s.temp
  {
  }

  lemma {:induction false} LastTouchSays(m: Parts, s: State, es: seq<Event>, u: nat)
    requires IsRun(m, s, es) && Spare(es, u) && u in s.tasks && u < s.next
    ensures var t := Run(m, s, es);
            && t.temp == (if LastTouch(m, s, es).Some? then LastTouch(m, s, es).value else s.temp)
            && u in t.tasks && t.tasks[u] == s.tasks[u]
    decreases |es|
  {
    if es != [] {
      TouchSays(m, s, es[0]);
      StepMoves(m, s, es[0]);
      assert es[0] in es && !By(es[0], {u});
      LastTouchSays(m, Step(m, s, es[0]).0, es[1..], u);
    }
  }

  /** All saves write the same temporary file. Between a save's write and its rename others may do anything; its
      rename succeeds exactly when the last of them to touch the file did not remove it, and stores its own tree
      exactly when none touched it or the last one wrote the same. Otherwise the other's tree is stored for it. */
  lemma SaveStoresOwnIff(m: Parts, s: State, u: nat, es: seq<Event>)
    requires u in s.tasks && s.tasks[u].phase.Saving? && u < s.next
    requires IsRun(m, Step(m, s, Proceed(u, true)).0, es) && Spare(es, u)
    ensures var w := Step(m, s, Proceed(u, true)).0;
            var t, touch, tree := Run(m, w, es), LastTouch(m, w, es), s.tasks[u].phase.tree;
            && u in t.tasks
            && var renamed := RenamedBy(t, Proceed(u, true));
               && (renamed.Some? <==> touch != Some(None))
               && (renamed == Some(tree) <==> touch == None || touch == Some(Some(tree)))
               && (touch.Some? && touch.value.Some? ==> Step(m, t, Proceed(u, true)).0.file == Saved(touch.value.value))
  {
    LastTouchSays(m, Step(m, s, Proceed(u, true)).0, es, u);
  }

  /** So a load that upgrades the file goes on with the defaults alone exactly when another save took the temporary
      file away last, as when two loads upgrade at once. */
  lemma UpgradeFallsBackIff(m: Parts, s: State, u: nat, es: seq<Event>)
    requires u in s.tasks && s.tasks[u].phase.Saving? && s.tasks[u].phase.purpose.Upgrade? && u < s.next
    requires IsRun(m, Step(m, s, Proceed(u, true)).0, es) && Spare(es, u)
    ensures var w := Step(m, s, Proceed(u, true)).0;
            var t := Run(m, w, es);
            && u in t.tasks
            && var after := Step(m, t, Proceed(u, true)).0;
               && u in after.tasks
               && if LastTouch(m, w, es) == Some(None)
                  then after.tasks[u].phase.Failing? && At(after.(temp := None), u, Loaded(None)) == Step(m, after, Proceed(u, true)).0
                  else after.tasks[u].phase == Loaded(Some(s.tasks[u].phase.purpose.tree))
  {
    LastTouchSays(m, Step(m, s, Proceed(u, true)).0, es, u);
  }

  /** The first segment to touch the temporary file renames it. */
  ghost predicate FirstTouchRenames(m: Parts, s: State, es: seq<Event>)
    requires IsRun(m, s, es)
    decreases |es|
  {
    es != []
    && if Touch(s, es[0]).Some? then RenamedBy(s, es[0]).Some? else FirstTouchRenames(m, Step(m, s, es[0]).0, es[1..])
  }

  /** Some segment of the run writes this tree too, and the next to touch the temporary file renames it. */
  ghost predicate WrittenAgainAndRenamed(m: Parts, s: State, es: seq<Event>, tree: Json)
    requires IsRun(m, s, es)
    decreases |es|
  {
    es != []
    && var s' := Step(m, s, es[0]).0;
       || (Touch(s, es[0]) == Some(Some(tree)) && FirstTouchRenames(m, s', es[1..]))
       || WrittenAgainAndRenamed(m, s', es[1..], tree)
  }

  /** Some segment of the run stores this tree. */
  ghost predicate EverStored(m: Parts, s: State, es: seq<Event>, tree: Json)
    requires IsRun(m, s, es)
    decreases |es|
  {
    es != [] && (RenamedBy(s, es[0]) == Some(tree) || EverStored(m, Step(m, s, es[0]).0, es[1..], tree))
  }

  lemma {:induction false} EverStoredIff(m: Parts, s: State, es: seq<Event>, tree: Json)
    requires IsRun(m, s, es)
    ensures EverStored(m, s, es, tree) <==>
              (s.temp == Some(tree) && FirstTouchRenames(m, s, es)) || WrittenAgainAndRenamed(m, s, es, tree)
    decreases |es|
  {
    if es != [] {
      TouchSays(m, s, es[0]);
      EverStoredIff(m, Step(m, s, es[0]).0, es[1..], tree);
    }
  }

  /** Task u still has to rename or to clean up. */
  predicate AtItsSave(s: State, u: nat) {
    u in s.tasks && (s.tasks[u].phase.Written? || s.tasks[u].phase.Failing?)
  }

  /** An update may throw at its save and be stored all the same. Whatever happens between its write and the end of its
      save, itself renaming nothing, its tree is stored exactly when the first segment to touch the temporary file after
      its write, or after another's write of an equal tree, is a rename; the throw itself changes nothing but that file. */
  lemma StoredThoughThrownIff(m: Parts, s: State, u: nat, es: seq<Event>, ok: bool)
    requires u in s.tasks && s.tasks[u].phase.Saving? && s.tasks[u].phase.purpose == Commit
    requires IsRun(m, Step(m, s, Proceed(u, true)).0, es) && NeverRenames(m, Step(m, s, Proceed(u, true)).0, es, u)
    requires AtItsSave(Run(m, Step(m, s, Proceed(u, true)).0, es), u)
    ensures var w, tree := Step(m, s, Proceed(u, true)).0, s.tasks[u].phase.tree;
            var t := Run(m, w, es);
            && (EverStored(m, w, es, tree) <==> FirstTouchRenames(m, w, es) || WrittenAgainAndRenamed(m, w, es, tree))
            && (t.tasks[u].phase == Failing(Commit) ==>
                  var (after, error) := Step(m, t, Proceed(u, ok));
                  error == Some(SaveFailed) && u !in after.tasks && after.file == t.file && after.config == t.config)
  {
    EverStoredIff(m, Step(m, s, Proceed(u, true)).0, es, s.tasks[u].phase.tree);
  }

  /** The shortest such run: a load that has written its upgrade renames the update's temporary file in its place, and the
      update throws with its tree in local.json. */
  lemma ThrownYetStored(m: Parts, s: State, u: nat, w: nat, tree: Json, upgraded: Json)
    requires u in s.tasks && s.tasks[u].phase == Saving(tree, Commit)
    requires w in s.tasks && w != u && s.tasks[w].phase == Written(Upgrade(upgraded))
    ensures var es := [Proceed(u, true), Proceed(w, true), Proceed(u, true)];
            && IsRun(m, s, es)
            && var t := Run(m, s, es);
               && u in t.tasks && t.file == Saved(tree)
               && Step(m, t, Proceed(u, true)).1 == Some(SaveFailed)
               && Step(m, t, Proceed(u, true)).0.file == Saved(tree)
  {
    var p, q := Proceed(u, true), Proceed(w, true);
    var s1 := Step(m, s, p).0;
    TwoSteps(m, s1, q, p);
    RunHead(m, s, p, [q, p]);
  }
}
