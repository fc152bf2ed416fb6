/** audioAssetService, await by await: speech tasks, sidecar rewrites and deletions that overlap on one cache. */
module AudioRuns {
  import opened Outcomes
  import opened AudioAssets

  // ---------------------------------------------------------------- tasks and their segments

  /** What a task awaits. Recording lasts from the moment the service has written the audio to the write of the
      sidecar, through response, analysis and enrichment; Rewriting from the read of a sidecar to its write. */
  datatype Phase =
    | Checking(w: Speech)
    | Touching(w: Speech)
    | Asking(w: Speech)
    | Generating(w: Speech)
    | Recording(w: Speech)
    | Rewriting(content: Sidecar)

  datatype Task = Task(name: string, phase: Phase)

  datatype State = State(store: Store, tasks: map<nat, Task>, next: nat)

  /** Begin is a call of ensureTTSFile, Reread the point at which an analysis has read a sidecar; the deletions are those
      of cleanups, of a forced clean and of users, file by file. */
  datatype Event =
    | Begin(name: string, w: Speech)
    | Reread(name: string)
    | Proceed(id: nat, luck: Luck)
    | DropAudio(name: string)
    | DropSidecar(name: string)

  /** How a task ends. */
  datatype Ending = Fine | Warned(warning: Warning)

  function Begun(s: State, task: Task): State {
    s.(tasks := s.tasks[s.next := task], next := s.next + 1)
  }

  function At(s: State, id: nat, phase: Phase): State
    requires id in s.tasks
  {
    s.(tasks := s.tasks[id := s.tasks[id].(phase := phase)])
  }

  function Ended(s: State, id: nat): State {
    s.(tasks := s.tasks - {id})
  }

  function WithAudio(s: State, name: string, audio: Audio): State {
    s.(store := s.store.(audio := s.store.audio[name := audio]))
  }

  function WithSidecar(s: State, name: string, sidecar: Sidecar): State {
    s.(store := s.store.(meta := s.store.meta[name := sidecar]))
  }

  /** What a rewrite keeps of the sidecar it reads: text and voice, if it can be read. */
  function Retained(s: Store, name: string): Sidecar {
    if name in s.meta && s.meta[name].Sidecar? then s.meta[name] else Sidecar(None, None)
  }

  function Proceeded(s: State, id: nat, luck: Luck): (State, Option<Ending>)
    requires id in s.tasks
  {
    var name := s.tasks[id].name;
    match s.tasks[id].phase
    case Checking(w) => (At(s, id, if Keeps(s.store, name, w) then Touching(w) else Asking(w)), None)
    case Touching(w) =>
      if name !in s.store.audio then (At(s, id, Asking(w)), None)
      else
        var touched := WithAudio(s, name, s.store.audio[name].(mtime := luck.now));
        if name in s.store.meta then (Ended(touched, id), Some(Fine)) else (At(touched, id, Asking(w)), None)
    case Asking(w) =>
      if !luck.healthy then (Ended(s, id), Some(Warned(Offline)))
      else if !luck.quota then (Ended(s, id), Some(Warned(OverQuota)))
      else (At(s, id, Generating(w)), None)
    case Generating(w) =>
      if luck.generation == Failed(false) then (Ended(s, id), Some(Warned(GenerationFailed)))
      else (At(WithAudio(s, name, Audio(luck.now, w)), id, Recording(w)), None)
    case Recording(w) =>
      if luck.generation.Failed? then (Ended(s, id), Some(Warned(GenerationFailed)))
      else (Ended(WithSidecar(s, name, Records(w)), id), Some(Fine))
    case Rewriting(content) =>
      if luck.generation.Failed? then (Ended(s, id), None) else (Ended(WithSidecar(s, name, content), id), None)
  }

  predicate Enabled(s: State, e: Event) {
    e.Proceed? ==> e.id in s.tasks
  }

  function Step(s: State, e: Event): State
    requires Enabled(s, e)
  {
    match e
    case Begin(name, w) => Begun(s, Task(name, Checking(w)))
    case Reread(name) => Begun(s, Task(name, Rewriting(Retained(s.store, name))))
    case Proceed(id, luck) => Proceeded(s, id, luck).0
    case DropAudio(name) => s.(store := s.store.(audio := s.store.audio - {name}))
    case DropSidecar(name) => s.(store := s.store.(meta := s.store.meta - {name}))
  }

  ghost predicate IsRun(s: State, es: seq<Event>)
    decreases |es|
  {
    es == [] || (Enabled(s, es[0]) && IsRun(Step(s, es[0]), es[1..]))
  }

  function After(s: State, es: seq<Event>): State
    requires IsRun(s, es)
    decreases |es|
  {
    if es == [] then s else After(Step(s, es[0]), es[1..])
  }

  // ---------------------------------------------------------------- a call nothing interleaves with

  /** A task's segments in a row. */
  function Alone(s: State, id: nat, luck: Luck, segments: nat): (State, Option<Ending>)
    requires id in s.tasks
    decreases segments
  {
    var (t, ending) := Proceeded(s, id, luck);
    if ending.Some? || segments == 0 || id !in t.tasks then (t, ending) else Alone(t, id, luck, segments - 1)
  }

  /** The cleanup's two deletions for a file make up its sweep. */
  lemma SweptAlone(s: State, name: string)
    ensures var t := Step(Step(s, DropAudio(name)), DropSidecar(name));
            t.store == Swept(s.store, {name}) && t.tasks == s.tasks
  {
  }

  lemma GeneratedAlone(s: State, id: nat, luck: Luck)
    requires id in s.tasks && s.tasks[id].phase.Generating?
    ensures var name, w := s.tasks[id].name, s.tasks[id].phase.w;
            var (t, ending) := Alone(s, id, luck, 1);
            && t.tasks == s.tasks - {id} && ending == Some(if luck.generation == Done then Fine else Warned(GenerationFailed))
            && t.store == (match luck.generation
                           case Done => Store(s.store.audio[name := Audio(luck.now, w)], s.store.meta[name := Records(w)])
                           case Failed(touched) => if touched then s.store.(audio := s.store.audio[name := Audio(luck.now, w)]) else s.store)
  {
    if luck.generation != Failed(false) {
      var t := Proceeded(s, id, luck).0;
      assert t.tasks - {id} == s.tasks - {id};
      assert Alone(s, id, luck, 1) == Alone(t, id, luck, 0);
    }
  }

  /** The segments of ensureTTSFile that nothing interleaves with make up the whole call. */
  lemma EnsuredAlone(s: State, name: string, w: Speech, luck: Luck)
    ensures var (t, ending) := Alone(Step(s, Begin(name, w)), s.next, luck, 3);
            var (store, warning) := Ensured(s.store, name, w, luck);
            && t.store == store && t.tasks == s.tasks - {s.next}
            && ending == Some(if warning.Some? then Warned(warning.value) else Fine)
  {
    var id := s.next;
    var s1 := Step(s, Begin(name, w));
    var s2 := Proceeded(s1, id, luck).0;
    assert Alone(s1, id, luck, 3) == Alone(s2, id, luck, 2);
    if !Keeps(s.store, name, w) && luck.healthy && luck.quota {
      var s3 := Proceeded(s2, id, luck).0;
      assert Alone(s2, id, luck, 2) == Alone(s3, id, luck, 1);
      GeneratedAlone(s3, id, luck);
      assert s3.tasks - {id} == s.tasks - {id};
    } else {
      assert Proceeded(s2, id, luck).1.Some?;
      assert s2.tasks - {id} == s.tasks - {id};
    }
  }

  // ---------------------------------------------------------------- who still owes a file its sidecar

  /** Another task than `but` is on its way to record what the file says now. */
  ghost predicate Owed(s: State, name: string, but: set<nat>) {
    name in s.store.audio
    && exists id :: id in s.tasks && id !in but
         && s.tasks[id].name == name && s.tasks[id].phase == Recording(s.store.audio[name].spoken)
  }

  /** The file says what its sidecar records, or a task is on its way to make it so. */
  ghost predicate Sound(s: State, name: string) {
    Truthful(s.store, name) || Owed(s, name, {})
  }

  ghost predicate AllSound(s: State) {
    forall name :: Sound(s, name)
  }

  /** The sidecar, written now, records a speech the file does not say. */
  predicate Denies(sidecar: Sidecar, s: Store, name: string) {
    && name in s.audio && sidecar.Sidecar? && sidecar.text.Some? && sidecar.voice.Some?
    && Speech(sidecar.text.value, sidecar.voice.value) != s.audio[name].spoken
  }

  /** A sidecar written over a file that says something else, or a generation that fails after writing beside a sidecar
      of another speech, and no other task on its way to record what the file says. */
  ghost predicate Spoils(s: State, e: Event)
    requires Enabled(s, e)
  {
    e.Proceed?
    && var name := s.tasks[e.id].name;
       && !Owed(s, name, {e.id})
       && match s.tasks[e.id].phase
          case Recording(w) => if e.luck.generation.Failed? then !Truthful(s.store, name) else Denies(Records(w), s.store, name)
          case Rewriting(content) => e.luck.generation == Done && Denies(content, s.store, name)
          case _ => false
  }

  ghost predicate AlwaysSound(s: State, es: seq<Event>)
    requires IsRun(s, es)
    decreases |es|
  {
    AllSound(s) && (es == [] || AlwaysSound(Step(s, es[0]), es[1..]))
  }

  ghost predicate EverSpoilt(s: State, es: seq<Event>)
    requires IsRun(s, es)
    decreases |es|
  {
    es != [] && (Spoils(s, es[0]) || EverSpoilt(Step(s, es[0]), es[1..]))
  }

  ghost predicate Inv(s: State) {
    forall id :: id in s.tasks ==> id < s.next
  }

  /** The task that acts in this segment, if one does. */
  function Actor(e: Event): set<nat> {
    if e.Proceed? then {e.id} else {}
  }

  /** The other tasks are where they were. */
  lemma OthersStay(s: State, e: Event)
    requires Inv(s) && Enabled(s, e)
    ensures forall id :: id in s.tasks && id !in Actor(e) ==> id in Step(s, e).tasks && Step(s, e).tasks[id] == s.tasks[id]
    ensures forall id :: id in Step(s, e).tasks && id !in s.tasks ==> id == s.next && !Step(s, e).tasks[id].phase.Recording?
    ensures Inv(Step(s, e))
  {
  }

  /** While the audio of a file says the same, others owe what they owed. */
  lemma OthersOwe(s: State, e: Event, name: string)
    requires Inv(s) && Enabled(s, e)
    requires name in s.store.audio && name in Step(s, e).store.audio
    requires Step(s, e).store.audio[name].spoken == s.store.audio[name].spoken
    ensures Owed(s, name, Actor(e)) ==> Owed(Step(s, e), name, {})
    ensures Owed(Step(s, e), name, {}) && (forall id :: id in Actor(e) ==> !(id in Step(s, e).tasks && Step(s, e).tasks[id].phase.Recording?))
            ==> Owed(s, name, Actor(e))
  {
    OthersStay(s, e);
    var t := Step(s, e);
    if Owed(s, name, Actor(e)) {
      var id :| id in s.tasks && id !in Actor(e) && s.tasks[id].name == name && s.tasks[id].phase == Recording(s.store.audio[name].spoken);
      assert id in t.tasks && t.tasks[id] == s.tasks[id];
    }
  }

  /** A segment that writes the audio of a file owes its sidecar itself. */
  lemma WriterOwes(s: State, id: nat, luck: Luck)
    requires id in s.tasks && s.tasks[id].phase.Generating? && luck.generation != Failed(false)
    ensures Owed(Step(s, Proceed(id, luck)), s.tasks[id].name, {})
  {
    var t := Step(s, Proceed(id, luck));
    assert id in t.tasks && t.tasks[id].phase == Recording(t.store.audio[s.tasks[id].name].spoken);
  }

  /** A file that this segment does not deal with. */
  lemma ElsewhereSound(s: State, e: Event, name: string)
    requires Inv(s) && Enabled(s, e) && Sound(s, name)
    requires e.Proceed? ==> s.tasks[e.id].name != name
    ensures Sound(Step(s, e), name)
  {
    if name in s.store.audio && name in Step(s, e).store.audio {
      OthersOwe(s, e, name);
    }
  }

  /** A segment that moves a task on without ending it or writing audio. */
  lemma QuietSegmentSound(s: State, e: Event, name: string)
    requires Inv(s) && Enabled(s, e) && Sound(s, name) && e.Proceed? && s.tasks[e.id].name == name
    requires !s.tasks[e.id].phase.Recording? && !s.tasks[e.id].phase.Rewriting?
    ensures Sound(Step(s, e), name)
  {
    if s.tasks[e.id].phase.Generating? && e.luck.generation != Failed(false) {
      WriterOwes(s, e.id, e.luck);
    } else if name in s.store.audio {
      OthersOwe(s, e, name);
    }
  }

  lemma RecordSoundIff(s: State, e: Event, name: string)
    requires Inv(s) && Enabled(s, e) && Sound(s, name) && e.Proceed? && s.tasks[e.id].name == name
    requires s.tasks[e.id].phase.Recording? || s.tasks[e.id].phase.Rewriting?
    ensures Sound(Step(s, e), name) <==> !Spoils(s, e)
  {
    if name in s.store.audio {
      OthersOwe(s, e, name);
    }
  }

  /** One segment. */
  lemma StepSoundIff(s: State, e: Event, name: string)
    requires Inv(s) && Enabled(s, e) && Sound(s, name)
    ensures Sound(Step(s, e), name) <==> !(Spoils(s, e) && s.tasks[e.id].name == name)
  {
    if !e.Proceed? || s.tasks[e.id].name != name {
      ElsewhereSound(s, e, name);
    } else if s.tasks[e.id].phase.Recording? || s.tasks[e.id].phase.Rewriting? {
      RecordSoundIff(s, e, name);
    } else {
      QuietSegmentSound(s, e, name);
    }
  }

  // ---------------------------------------------------------------- over every run

  /** Over every interleaving of tasks, rewrites and deletions, from a sound cache, an empty one for instance: every file
      always says what its sidecar records, or a task is on its way to record what it says, if and only if no segment on
      the way spoils it. */
  lemma {:induction false} SoundThroughoutIff(s: State, es: seq<Event>)
    requires Inv(s) && AllSound(s) && IsRun(s, es)
    ensures AlwaysSound(s, es) <==> !EverSpoilt(s, es)
    ensures !EverSpoilt(s, es) ==> AllSound(After(s, es))
    decreases |es|
  {
    if es != [] {
      var t := Step(s, es[0]);
      OthersStay(s, es[0]);
      forall name
        ensures Sound(t, name) <==> !(Spoils(s, es[0]) && s.tasks[es[0].id].name == name)
      {
        StepSoundIff(s, es[0], name);
      }
      if Spoils(s, es[0]) {
        assert !Sound(t, s.tasks[es[0].id].name);
        assert !AllSound(t);
      } else {
        SoundThroughoutIff(t, es[1..]);
      }
    }
  }

  /** No task is between the audio and the sidecar of this file. */
  ghost predicate Quiet(s: State, name: string) {
    forall id :: id in s.tasks && s.tasks[id].name == name ==> !s.tasks[id].phase.Recording?
  }

  /** So once nobody is at work on a file, what its sidecar records is what it says: a sync that keeps it or has just
      made it leaves the wanted text in the wanted voice. */
  lemma QuietFilesSpeak(s: State, es: seq<Event>, name: string, w: Speech)
    requires Inv(s) && AllSound(s) && IsRun(s, es) && !EverSpoilt(s, es)
    requires Quiet(After(s, es), name) && Keeps(After(s, es).store, name, w)
    ensures After(s, es).store.audio[name].spoken == w
  {
    SoundThroughoutIff(s, es);
    assert Sound(After(s, es), name);
  }

  /** Two tasks with different speeches for one file, neither of which fails, with one's audio and sidecar inside the
      other's: the file is left saying the one and recording the other. */
  lemma NestedTasksMislead(s: State, a: nat, b: nat, name: string, v: Speech, w: Speech, luck: Luck)
    requires a in s.tasks && b in s.tasks && a != b && v != w && luck.generation == Done
    requires s.tasks[a] == Task(name, Generating(v)) && s.tasks[b] == Task(name, Generating(w))
    ensures var es := [Proceed(a, luck), Proceed(b, luck), Proceed(b, luck), Proceed(a, luck)];
            && IsRun(s, es)
            && var t := After(s, es);
               Keeps(t.store, name, v) && t.store.audio[name].spoken == w && !Truthful(t.store, name)
  {
    var (p, q) := (Proceed(a, luck), Proceed(b, luck));
    assert [p, q, q, p][1..] == [q, q, p] && [q, q, p][1..] == [q, p] && [q, p][1..] == [p] && [p][1..] == [];
    var s1 := Step(s, p);
    var s2 := Step(s1, q);
    var s3 := Step(s2, q);
    var s4 := Step(s3, p);
    assert IsRun(s4, []) && IsRun(s3, [p]) && IsRun(s2, [q, p]) && IsRun(s1, [q, q, p]);
    assert After(s3, [p]) == After(s4, []) && After(s2, [q, p]) == After(s3, [p]) && After(s1, [q, q, p]) == After(s2, [q, p]);
  }

  // ---------------------------------------------------------------- work that keeps out of its own way

  /** No other task for the file writes another speech between a task's audio and its sidecar, no generation fails after
      writing, and no rewrite puts back a sidecar that has changed since it was read. */
  ghost predicate Orderly(s: State, e: Event)
    requires Enabled(s, e)
  {
    e.Proceed? ==>
      var name := s.tasks[e.id].name;
      match s.tasks[e.id].phase
      case Generating(w) =>
        e.luck.generation == Failed(false)
        || forall id :: id in s.tasks && s.tasks[id].name == name && s.tasks[id].phase.Recording? ==> s.tasks[id].phase.w == w
      case Recording(w) => e.luck.generation == Done
      case Rewriting(content) => e.luck.generation == Done ==> Retained(s.store, name) == content
      case _ => true
  }

  ghost predicate AllOrderly(s: State, es: seq<Event>)
    requires IsRun(s, es)
    decreases |es|
  {
    es == [] || (Orderly(s, es[0]) && AllOrderly(Step(s, es[0]), es[1..]))
  }

  /** Every file says what the tasks between its audio and its sidecar want it to say. */
  ghost predicate InOrder(s: State) {
    forall id :: id in s.tasks && s.tasks[id].phase.Recording? && s.tasks[id].name in s.store.audio ==>
      s.store.audio[s.tasks[id].name].spoken == s.tasks[id].phase.w
  }

  lemma OrderStays(s: State, e: Event)
    requires Inv(s) && InOrder(s) && Enabled(s, e) && Orderly(s, e)
    ensures InOrder(Step(s, e))
  {
    OthersStay(s, e);
  }

  lemma OrderSpoilsNothing(s: State, e: Event)
    requires InOrder(s) && AllSound(s) && Enabled(s, e) && Orderly(s, e)
    ensures !Spoils(s, e)
  {
    if e.Proceed? {
      assert Sound(s, s.tasks[e.id].name);
    }
  }

  /** Work in that order never spoils anything. */
  lemma {:induction false} OrderlyIsSound(s: State, es: seq<Event>)
    requires Inv(s) && InOrder(s) && AllSound(s) && IsRun(s, es) && AllOrderly(s, es)
    ensures !EverSpoilt(s, es) && AlwaysSound(s, es)
    decreases |es|
  {
    SoundThroughoutIff(s, es);
    if es != [] {
      OrderSpoilsNothing(s, es[0]);
      OthersStay(s, es[0]);
      OrderStays(s, es[0]);
      forall name
        ensures Sound(Step(s, es[0]), name)
      {
        StepSoundIff(s, es[0], name);
      }
      OrderlyIsSound(Step(s, es[0]), es[1..]);
    }
  }
}
