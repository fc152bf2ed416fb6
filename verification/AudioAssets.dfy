/** audioAssetService: the TTS cache, its sidecars and their upkeep, and the status diagnostics gives them. */
module AudioAssets {
  import opened Outcomes
  import opened IqamahRule
  import opened StaggeredLaunch

  const DAYS_30 := 30 * 24 * 60 * 60 * 1000

  // ---------------------------------------------------------------- names

  function PrayerName(p: Prayer): string {
    match p
    case Fajr => "fajr"
    case Sunrise => "sunrise"
    case Dhuhr => "dhuhr"
    case Asr => "asr"
    case Maghrib => "maghrib"
    case Isha => "isha"
  }

  function EventName(kind: EventKind): string {
    match kind
    case PreAdhan => "preAdhan"
    case AdhanEvent => "adhan"
    case PreIqamah => "preIqamah"
    case IqamahEvent => "iqamah"
  }

  function Pattern(prayer: string, event: string): string {
    "tts_" + prayer + "_" + event + ".mp3"
  }

  function Name(slot: Slot): string {
    Pattern(PrayerName(slot.prayer), EventName(slot.kind))
  }

  lemma UnderscoreTells(p: string, e: string, q: string, f: string)
    requires '_' !in q && |p| < |q|
    ensures Pattern(p, e) != Pattern(q, f)
  {
    assert Pattern(p, e)[4 + |p|] == '_' && Pattern(q, f)[4 + |p|] == q[|p|];
  }

  /** Names without an underscore keep their files apart. */
  lemma PatternInjective(p: string, e: string, q: string, f: string)
    requires '_' !in p && '_' !in q && Pattern(p, e) == Pattern(q, f)
    ensures p == q && e == f
  {
    if |p| < |q| {
      UnderscoreTells(p, e, q, f);
    } else if |q| < |p| {
      UnderscoreTells(q, f, p, e);
    } else {
      var a, b := Pattern(p, e), Pattern(q, f);
      assert a[4..4 + |p|] == p && b[4..4 + |q|] == q;
      assert a[5 + |p|..|a| - 4] == e && b[5 + |q|..|b| - 4] == f;
    }
  }

  lemma PrayerNames(p: Prayer, q: Prayer)
    ensures '_' !in PrayerName(p)
    ensures PrayerName(p) == PrayerName(q) ==> p == q
  {
    assert |"fajr"| == 4 && |"sunrise"| == 7 && |"dhuhr"| == 5 && |"asr"| == 3 && |"maghrib"| == 7 && |"isha"| == 4;
    assert "sunrise"[0] == 's' && "maghrib"[0] == 'm' && "fajr"[0] == 'f' && "isha"[0] == 'i';
  }

  lemma EventNames(e: EventKind, f: EventKind)
    ensures EventName(e) == EventName(f) ==> e == f
  {
    assert |"preAdhan"| == 8 && |"adhan"| == 5 && |"preIqamah"| == 9 && |"iqamah"| == 6;
  }

  /** Distinct triggers never share a file. */
  lemma NamesDistinct(a: Slot, b: Slot)
    requires Name(a) == Name(b)
    ensures a == b
  {
    PrayerNames(a.prayer, b.prayer);
    PrayerNames(b.prayer, a.prayer);
    PatternInjective(PrayerName(a.prayer), EventName(a.kind), PrayerName(b.prayer), EventName(b.kind));
    EventNames(a.kind, b.kind);
  }

  // ---------------------------------------------------------------- the cache and one task

  /** What the current configuration asks to have spoken. */
  datatype Speech = Speech(text: string, voice: string)

  /** An audio file: when it was last touched and what the service was asked to speak into it. */
  datatype Audio = Audio(mtime: int, spoken: Speech)

  /** A sidecar: not JSON, or an object with the text and voice it records. */
  datatype Sidecar = Corrupt | Sidecar(text: Option<string>, voice: Option<string>)

  datatype Store = Store(audio: map<string, Audio>, meta: map<string, Sidecar>)

  datatype Generation = Done | Failed(touched: bool)

  /** What the task meets: the time, the service's health, the quota, and how generation ends. */
  datatype Luck = Luck(now: int, healthy: bool, quota: bool, generation: Generation)

  datatype Warning = Offline | OverQuota | GenerationFailed

  function Records(w: Speech): Sidecar {
    Sidecar(Some(w.text), Some(w.voice))
  }

  /** The file and its sidecar are there, and the sidecar records exactly this speech. */
  predicate Keeps(s: Store, name: string, w: Speech) {
    name in s.audio && name in s.meta && s.meta[name] == Records(w)
  }

  function Ensured(s: Store, name: string, w: Speech, luck: Luck): (Store, Option<Warning>) {
    var spoken := s.audio[name := Audio(luck.now, w)];
    if Keeps(s, name, w) then (s.(audio := s.audio[name := s.audio[name].(mtime := luck.now)]), None)
    else if !luck.healthy then (s, Some(Offline))
    else if !luck.quota then (s, Some(OverQuota))
    else match luck.generation
      case Done => (Store(spoken, s.meta[name := Records(w)]), None)
      case Failed(touched) => (if touched then s.(audio := spoken) else s, Some(GenerationFailed))
  }

  // ---------------------------------------------------------------- configuration

  datatype AudioKind = TtsAudio | FileAudio | UrlAudio | OtherAudio

  /** "" stands for a missing template or voice. */
  datatype AudioTrigger = AudioTrigger(enabled: bool, kind: AudioKind, template: string, offset: Option<int>, voice: string)

  /** `resolve` stands for resolveTemplate. */
  datatype AudioConfig = AudioConfig(triggers: map<Slot, AudioTrigger>, defaultVoice: string,
                                     resolve: (string, Prayer, Option<int>) -> string)

  const FALLBACK_VOICE := "ar-SA-HamedNeural"

  /** The text and voice the trigger resolves to. */
  function Wanted(c: AudioConfig, slot: Slot): Speech {
    if slot !in c.triggers then Speech("", "")
    else
      var t := c.triggers[slot];
      Speech(c.resolve(t.template, slot.prayer, t.offset),
             if t.voice != "" then t.voice else if c.defaultVoice != "" then c.defaultVoice else FALLBACK_VOICE)
  }

  /** An enabled TTS trigger with a template. */
  predicate Eligible(c: AudioConfig, slot: Slot) {
    slot in c.triggers && c.triggers[slot].enabled && c.triggers[slot].kind == TtsAudio && c.triggers[slot].template != ""
  }

  /** The file for the trigger is there and its sidecar records the wanted speech; what the file says is another
      matter, see Truthful. */
  predicate Current(s: Store, c: AudioConfig, slot: Slot) {
    Keeps(s, Name(slot), Wanted(c, slot))
  }

  predicate Succeeds(s: Store, c: AudioConfig, slot: Slot, luck: Luck) {
    Current(s, c, slot) || (luck.healthy && luck.quota && luck.generation == Done)
  }

  /** A generation that fails late beside a sidecar that already records the speech. */
  predicate Heals(s: Store, c: AudioConfig, slot: Slot, luck: Luck) {
    luck.healthy && luck.quota && luck.generation == Failed(true)
    && Name(slot) in s.meta && s.meta[Name(slot)] == Records(Wanted(c, slot))
  }

  // ---------------------------------------------------------------- a whole sync

  function Synced(s: Store, c: AudioConfig, tasks: seq<Slot>, luck: Slot -> Luck): Store {
    if tasks == [] then s
    else
      var last := tasks[|tasks| - 1];
      Ensured(Synced(s, c, tasks[..|tasks| - 1], luck), Name(last), Wanted(c, last), luck(last)).0
  }

  /** Files untouched for more than thirty days. */
  function Aged(s: Store, now: int): set<string> {
    set name | name in s.audio && now - s.audio[name].mtime > DAYS_30
  }

  function Swept(s: Store, names: set<string>): Store {
    Store(s.audio - names, s.meta - names)
  }

  function Cleaned(s: Store, now: int): Store {
    Swept(s, Aged(s, now))
  }

  lemma SweepStep(s: Store, now: int, files: set<string>, file: string)
    requires file in files && files <= s.audio.Keys
    ensures var t := Swept(s, Aged(s, now) - files);
            && file in t.audio && t.audio[file] == s.audio[file]
            && Swept(s, Aged(s, now) - (files - {file})) == if file in Aged(s, now) then Swept(t, {file}) else t
  {
    var before, after := Aged(s, now) - files, Aged(s, now) - (files - {file});
    assert after == if file in Aged(s, now) then before + {file} else before;
    assert s.audio - before - {file} == s.audio - (before + {file});
    assert s.meta - before - {file} == s.meta - (before + {file});
  }

  /** A file's audio and sidecar are the same in both. */
  predicate SameFile(s: Store, t: Store, name: string) {
    && (name in s.audio <==> name in t.audio) && (name in s.audio ==> s.audio[name] == t.audio[name])
    && (name in s.meta <==> name in t.meta) && (name in s.meta ==> s.meta[name] == t.meta[name])
  }

  lemma EnsuredElsewhere(s: Store, name: string, w: Speech, luck: Luck, other: string)
    requires other != name
    ensures SameFile(Ensured(s, name, w, luck).0, s, other)
  {
  }

  lemma EnsuredSame(s: Store, t: Store, name: string, w: Speech, luck: Luck)
    requires SameFile(s, t, name)
    ensures SameFile(Ensured(s, name, w, luck).0, Ensured(t, name, w, luck).0, name)
    ensures Ensured(s, name, w, luck).1 == Ensured(t, name, w, luck).1
  {
  }

  predicate AllDifferent(tasks: seq<Slot>) {
    forall i, j :: 0 <= i < j < |tasks| ==> tasks[i] != tasks[j]
  }

  /** Each task settles its own file as if it ran alone, in whatever order they run, and no task touches another file. */
  lemma {:induction false} TasksIndependent(s: Store, c: AudioConfig, tasks: seq<Slot>, luck: Slot -> Luck, slot: Slot)
    requires AllDifferent(tasks)
    ensures slot in tasks ==>
              SameFile(Synced(s, c, tasks, luck), Ensured(s, Name(slot), Wanted(c, slot), luck(slot)).0, Name(slot))
    ensures slot !in tasks ==> SameFile(Synced(s, c, tasks, luck), s, Name(slot))
    decreases |tasks|
  {
    if tasks != [] {
      var init, last := tasks[..|tasks| - 1], tasks[|tasks| - 1];
      var before := Synced(s, c, init, luck);
      TasksIndependent(s, c, init, luck, slot);
      if slot == last {
        assert slot !in init;
        EnsuredSame(before, s, Name(slot), Wanted(c, slot), luck(slot));
      } else {
        assert slot in tasks <==> slot in init;
        if Name(slot) == Name(last) {
          NamesDistinct(slot, last);
        }
        EnsuredElsewhere(before, Name(last), Wanted(c, last), luck(last), Name(slot));
      }
    }
  }

  // ---------------------------------------------------------------- the service

  const EVENTS: seq<EventKind> := [PreAdhan, AdhanEvent, PreIqamah, IqamahEvent]

  class AudioAssetService {
    var audio: map<string, Audio>
    var meta: map<string, Sidecar>

    constructor (s: Store)
      ensures Files() == s
    {
      audio, meta := s.audio, s.meta;
    }

    function Files(): Store
      reads this
    {
      Store(audio, meta)
    }

    method EnsureTTSFile(c: AudioConfig, slot: Slot, luck: Luck) returns (warning: Option<Warning>)
      requires slot in c.triggers
      modifies this
      ensures (Files(), warning) == Ensured(old(Files()), Name(slot), Wanted(c, slot), luck)
    {
      var settings := c.triggers[slot];
      var text := c.resolve(settings.template, slot.prayer, settings.offset);
      var filename := Name(slot);
      var voice := settings.voice;
      if voice == "" {
        voice := if c.defaultVoice != "" then c.defaultVoice else FALLBACK_VOICE;
      }
      if filename in audio && filename in meta && meta[filename].Sidecar?
         && meta[filename].text == Some(text) && meta[filename].voice == Some(voice) {
        audio := audio[filename := audio[filename].(mtime := luck.now)];
        return None;
      }
      if !luck.healthy {
        return Some(Offline);
      }
      if !luck.quota {
        return Some(OverQuota);
      }
      if luck.generation == Failed(false) {
        return Some(GenerationFailed);
      }
      audio := audio[filename := Audio(luck.now, Speech(text, voice))];
      if luck.generation.Failed? {
        return Some(GenerationFailed);
      }
      meta := meta[filename := Sidecar(Some(text), Some(voice))];
      return None;
    }

    method CollectTasks(c: AudioConfig) returns (tasks: seq<Slot>)
      ensures forall slot :: slot in tasks <==> Eligible(c, slot)
      ensures forall slot :: slot in tasks ==>
                slot in c.triggers && c.triggers[slot].enabled && c.triggers[slot].kind.TtsAudio? && c.triggers[slot].template != ""
      ensures forall slot ::
                (slot in c.triggers && c.triggers[slot].enabled && c.triggers[slot].kind.TtsAudio? && c.triggers[slot].template != "")
                ==> slot in tasks
      ensures forall i, j :: 0 <= i < j < |tasks| ==> tasks[i] != tasks[j]
    {
      tasks := [];
      for i := 0 to |PRAYERS|
        invariant AllDifferent(tasks)
        invariant forall slot :: slot in tasks <==> Eligible(c, slot) && slot.prayer in PRAYERS[..i]
      {
        var prayer := PRAYERS[i];
        assert PRAYERS[..i + 1] == PRAYERS[..i] + [prayer];
        assert prayer !in PRAYERS[..i];
        for j := 0 to |EVENTS|
          invariant AllDifferent(tasks)
          invariant forall slot :: slot in tasks <==>
                      Eligible(c, slot) && (slot.prayer in PRAYERS[..i] || (slot.prayer == prayer && slot.kind in EVENTS[..j]))
        {
          var slot := Slot(prayer, EVENTS[j]);
          assert EVENTS[..j + 1] == EVENTS[..j] + [EVENTS[j]];
          assert EVENTS[j] !in EVENTS[..j];
          if slot !in c.triggers || !c.triggers[slot].enabled || c.triggers[slot].kind != TtsAudio || c.triggers[slot].template == "" {
            continue;
          }
          tasks := tasks + [slot];
        }
        assert EVENTS[..|EVENTS|] == EVENTS;
        AllEvents();
      }
      assert PRAYERS[..|PRAYERS|] == PRAYERS;
      AllPrayers();
    }

    method CleanupCache(now: int)
      modifies this
      ensures Files() == Cleaned(old(Files()), now)
    {
      var files := audio.Keys;
      ghost var was := Files();
      while files != {}
        invariant files <= was.audio.Keys
        invariant Files() == Swept(was, Aged(was, now) - files)
        decreases |files|
      {
        var file :| file in files;
        SweepStep(was, now, files, file);
        if now - audio[file].mtime > DAYS_30 {
          audio := audio - {file};
          meta := meta - {file};
        }
        files := files - {file};
      }
      assert Aged(was, now) - {} == Aged(was, now);
    }

    /** The tasks run one by one here; TasksIndependent says their order does not matter. */
    method RunTasks(c: AudioConfig, tasks: seq<Slot>, luck: Slot -> Luck) returns (warned: set<Slot>)
      requires AllDifferent(tasks) && forall slot :: slot in tasks ==> slot in c.triggers
      modifies this
      ensures Files() == Synced(old(Files()), c, tasks, luck)
      ensures warned == Unlucky(old(Files()), c, tasks, luck)
    {
      ghost var start := Files();
      warned := {};
      for i := 0 to |tasks|
        invariant Files() == Synced(start, c, tasks[..i], luck)
        invariant warned == Unlucky(start, c, tasks[..i], luck)
      {
        var slot := tasks[i];
        SyncStep(start, c, tasks, luck, i);
        var warning := EnsureTTSFile(c, slot, luck(slot));
        if warning.Some? {
          warned := warned + {slot};
        }
      }
      assert tasks[..|tasks|] == tasks;
    }

    method SyncAudioAssets(c: AudioConfig, forceClean: bool, luck: Slot -> Luck, cleanAt: int)
      returns (tasks: seq<Slot>, warned: set<Slot>)
      modifies this
      ensures forall slot :: slot in tasks <==> Eligible(c, slot)
      ensures AllDifferent(tasks)
      ensures var start := if forceClean then Store(map[], map[]) else old(Files());
              && Files() == Cleaned(Synced(start, c, tasks, luck), cleanAt)
              && warned == Unlucky(start, c, tasks, luck)
    {
      if forceClean {
        audio, meta := map[], map[];
      }
      tasks := CollectTasks(c);
      warned := RunTasks(c, tasks, luck);
      CleanupCache(cleanAt);
    }
  }

  /** The tasks that end in a warning. */
  function Unlucky(start: Store, c: AudioConfig, tasks: seq<Slot>, luck: Slot -> Luck): set<Slot> {
    set slot | slot in tasks && !Succeeds(start, c, slot, luck(slot))
  }

  lemma SyncStep(start: Store, c: AudioConfig, tasks: seq<Slot>, luck: Slot -> Luck, i: nat)
    requires AllDifferent(tasks) && i < |tasks|
    ensures var slot := tasks[i];
            var (t, warning) := Ensured(Synced(start, c, tasks[..i], luck), Name(slot), Wanted(c, slot), luck(slot));
            && Synced(start, c, tasks[..i + 1], luck) == t
            && Unlucky(start, c, tasks[..i + 1], luck) ==
                 Unlucky(start, c, tasks[..i], luck) + if warning.Some? then {slot} else {}
  {
    var init, slot := tasks[..i], tasks[i];
    assert tasks[..i + 1] == init + [slot] && tasks[..i + 1][..i] == init;
    assert slot !in init;
    TasksIndependent(start, c, init, luck, slot);
    EnsuredSame(Synced(start, c, init, luck), start, Name(slot), Wanted(c, slot), luck(slot));
    EnsuredSucceeds(start, c, slot, luck(slot));
  }

  lemma AllEvents()
    ensures forall kind: EventKind :: kind in EVENTS
  {
    assert EVENTS[0] == PreAdhan && EVENTS[1] == AdhanEvent && EVENTS[2] == PreIqamah && EVENTS[3] == IqamahEvent;
    forall kind: EventKind
      ensures kind in EVENTS
    {
      match kind case PreAdhan => case AdhanEvent => case PreIqamah => case IqamahEvent =>
    }
  }

  lemma AllPrayers()
    ensures forall p: Prayer :: p in PRAYERS
  {
    assert PRAYERS[0] == Fajr && PRAYERS[1] == Sunrise && PRAYERS[2] == Dhuhr;
    assert PRAYERS[3] == Asr && PRAYERS[4] == Maghrib && PRAYERS[5] == Isha;
    forall p: Prayer
      ensures p in PRAYERS
    {
      match p case Fajr => case Sunrise => case Dhuhr => case Asr => case Maghrib => case Isha =>
    }
  }

  // ---------------------------------------------------------------- diagnostics

  datatype Status = Disabled | UrlStatus | CustomFile | Generated | Mismatch | Missing | Errored | Unknown

  /** The status of a TTS trigger; without a template resolving it throws. */
  function FileStatus(s: Store, c: AudioConfig, slot: Slot): Status
    requires slot in c.triggers
  {
    var name := Name(slot);
    if name !in s.audio || name !in s.meta then Missing
    else if s.meta[name].Corrupt? || c.triggers[slot].template == "" then Errored
    else if s.meta[name].text == Some(Wanted(c, slot).text) then Generated
    else Mismatch
  }

  function StatusOf(s: Store, c: AudioConfig, slot: Slot): Status {
    if slot !in c.triggers || !c.triggers[slot].enabled then Disabled
    else match c.triggers[slot].kind
      case UrlAudio => UrlStatus
      case FileAudio => CustomFile
      case TtsAudio => FileStatus(s, c, slot)
      case OtherAudio => Unknown
  }

  /** Sunrise has no iqamah to report on. */
  predicate Reported(slot: Slot) {
    !(slot.prayer == Sunrise && slot.kind in {PreIqamah, IqamahEvent})
  }

  lemma SunriseEvents()
    ensures forall kind: EventKind :: kind in EVENTS[..2] <==> kind !in {PreIqamah, IqamahEvent}
  {
    assert EVENTS[..2] == [PreAdhan, AdhanEvent];
    forall kind: EventKind
      ensures kind in EVENTS[..2] <==> kind !in {PreIqamah, IqamahEvent}
    {
      match kind case PreAdhan => case AdhanEvent => case PreIqamah => case IqamahEvent =>
    }
  }

  method GetTTSStatus(s: Store, c: AudioConfig) returns (result: map<Slot, Status>)
    ensures forall slot :: slot in result <==> slot.prayer != Sunrise || slot.kind == PreAdhan || slot.kind == AdhanEvent
    ensures forall slot :: slot in result ==> result[slot] == StatusOf(s, c, slot)
  {
    result := map[];
    for i := 0 to |PRAYERS|
      invariant forall slot :: slot in result <==> slot.prayer in PRAYERS[..i] && Reported(slot)
      invariant forall slot :: slot in result ==> result[slot] == StatusOf(s, c, slot)
    {
      var prayer := PRAYERS[i];
      assert PRAYERS[..i + 1] == PRAYERS[..i] + [prayer];
      var events := if prayer == Sunrise then EVENTS[..2] else EVENTS;
      AllEvents();
      for j := 0 to |events|
        invariant forall slot :: slot in result <==>
                    (slot.prayer in PRAYERS[..i] && Reported(slot))
                    || (slot.prayer == prayer && slot.kind in events[..j])
        invariant forall slot :: slot in result ==> result[slot] == StatusOf(s, c, slot)
      {
        assert events[..j + 1] == events[..j] + [events[j]];
        result := result[Slot(prayer, events[j]) := StatusOf(s, c, Slot(prayer, events[j]))];
      }
      assert events[..|events|] == events;
      SunriseEvents();
    }
    assert PRAYERS[..|PRAYERS|] == PRAYERS;
    AllPrayers();
  }

  // ---------------------------------------------------------------- what is wanted, kept and reported

  /** What diagnostics says of a trigger: a file without one of its two parts is missing, an unreadable sidecar an error,
      one with the present text generated, any other a mismatch. */
  lemma StatusSays(s: Store, c: AudioConfig, slot: Slot)
    requires slot in c.triggers && c.triggers[slot].enabled && c.triggers[slot].kind.TtsAudio? && c.triggers[slot].template != ""
    ensures var (status, t, name) := (StatusOf(s, c, slot), c.triggers[slot], Name(slot));
            && (status == Missing <==> name !in s.audio || name !in s.meta)
            && (status == Errored <==> name in s.audio && name in s.meta && s.meta[name].Corrupt?)
            && (status == Generated <==> name in s.audio && name in s.meta && s.meta[name].Sidecar?
                                         && s.meta[name].text == Some(c.resolve(t.template, slot.prayer, t.offset)))
            && status in {Missing, Errored, Generated, Mismatch}
  {
  }

  /** Of a trigger without speech it tells what kind it is, and of one that is off or not there that it is disabled. */
  lemma OtherStatusSays(s: Store, c: AudioConfig, slot: Slot)
    ensures StatusOf(s, c, slot) == Disabled <==> slot !in c.triggers || !c.triggers[slot].enabled
    ensures slot in c.triggers && c.triggers[slot].enabled ==>
              var kind := c.triggers[slot].kind;
              && (kind.UrlAudio? ==> StatusOf(s, c, slot) == UrlStatus)
              && (kind.FileAudio? ==> StatusOf(s, c, slot) == CustomFile)
              && (kind.OtherAudio? ==> StatusOf(s, c, slot) == Unknown)
              && (kind.TtsAudio? && c.triggers[slot].template == "" ==> StatusOf(s, c, slot) in {Missing, Errored})
  {
  }

  // ---------------------------------------------------------------- main results

  lemma EnsuredSucceeds(s: Store, c: AudioConfig, slot: Slot, luck: Luck)
    ensures Ensured(s, Name(slot), Wanted(c, slot), luck).1 == None <==> Succeeds(s, c, slot, luck)
    ensures var t := Ensured(s, Name(slot), Wanted(c, slot), luck).0;
            && (Current(t, c, slot) <==> Succeeds(s, c, slot, luck) || Heals(s, c, slot, luck))
            && (Current(t, c, slot) ==> t.audio[Name(slot)].mtime == luck.now)
  {
  }

  /** The warning of a task: none when the file is kept or made, and else the first of the three obstacles it met. */
  lemma WarningSays(s: Store, name: string, w: Speech, luck: Luck)
    ensures var warning := Ensured(s, name, w, luck).1;
            var kept := name in s.audio && name in s.meta && s.meta[name] == Sidecar(Some(w.text), Some(w.voice));
            && (warning == Some(Offline) <==> !kept && !luck.healthy)
            && (warning == Some(OverQuota) <==> !kept && luck.healthy && !luck.quota)
            && (warning == Some(GenerationFailed) <==> !kept && luck.healthy && luck.quota && luck.generation != Done)
  {
  }

  /** After a sync whose tasks ran within a month before its cleanup, an eligible trigger without a warning has its
      file and a sidecar with the current text and voice, is spared by the cleanup and reported generated; one with
      a warning has them only if its sidecar was right already and the service still wrote the file. */
  lemma SyncMeets(s: Store, c: AudioConfig, tasks: seq<Slot>, luck: Slot -> Luck, cleanAt: int, slot: Slot)
    requires AllDifferent(tasks) && slot in tasks && Eligible(c, slot) && cleanAt - luck(slot).now <= DAYS_30
    ensures var t := Cleaned(Synced(s, c, tasks, luck), cleanAt);
            && (Current(t, c, slot) <==> Succeeds(s, c, slot, luck(slot)) || Heals(s, c, slot, luck(slot)))
            && (Succeeds(s, c, slot, luck(slot)) ==> StatusOf(t, c, slot) == Generated)
  {
    TasksIndependent(s, c, tasks, luck, slot);
    EnsuredSucceeds(s, c, slot, luck(slot));
    var one := Ensured(s, Name(slot), Wanted(c, slot), luck(slot)).0;
    assert SameFile(Synced(s, c, tasks, luck), one, Name(slot));
  }

  /** The order the tasks are taken in makes no difference to any trigger's file. */
  lemma OrderIrrelevant(s: Store, c: AudioConfig, tasks: seq<Slot>, others: seq<Slot>, luck: Slot -> Luck, slot: Slot)
    requires AllDifferent(tasks) && AllDifferent(others)
    requires forall q :: q in tasks <==> q in others
    ensures SameFile(Synced(s, c, tasks, luck), Synced(s, c, others, luck), Name(slot))
  {
    TasksIndependent(s, c, tasks, luck, slot);
    TasksIndependent(s, c, others, luck, slot);
  }

  /** A file a task would keep is reported generated, and one reported generated would be kept exactly when the
      voice is the current one too. */
  lemma KeptIsGenerated(s: Store, c: AudioConfig, slot: Slot)
    requires Eligible(c, slot)
    ensures Current(s, c, slot) <==>
              StatusOf(s, c, slot) == Generated && s.meta[Name(slot)].voice == Some(Wanted(c, slot).voice)
  {
  }

  // ---------------------------------------------------------------- what a kept file says

  /** Where file and sidecar are both there and the sidecar records a speech, the file says it. */
  predicate Truthful(s: Store, name: string) {
    name in s.audio && name in s.meta && s.meta[name].Sidecar? && s.meta[name].text.Some? && s.meta[name].voice.Some? ==>
      s.audio[name].spoken == Speech(s.meta[name].text.value, s.meta[name].voice.value)
  }

  /** The task generates, the service writes the file, and the failure after that leaves a sidecar that records
      another speech. */
  predicate Misleads(s: Store, name: string, w: Speech, luck: Luck) {
    && !Keeps(s, name, w) && luck.healthy && luck.quota && luck.generation == Failed(true)
    && name in s.meta && s.meta[name].Sidecar? && s.meta[name].text.Some? && s.meta[name].voice.Some?
    && s.meta[name] != Records(w)
  }

  /** One task that nothing overlaps leaves a truthful file truthful if and only if it does not fail in that way. */
  lemma EnsuredTruthfulIff(s: Store, name: string, w: Speech, luck: Luck)
    requires Truthful(s, name)
    ensures Truthful(Ensured(s, name, w, luck).0, name) <==> !Misleads(s, name, w, luck)
    ensures Truthful(s, name) && Keeps(s, name, w) ==> s.audio[name].spoken == w
  {
  }

  lemma SameFileTruthful(s: Store, t: Store, name: string)
    requires SameFile(s, t, name)
    ensures Truthful(s, name) <==> Truthful(t, name)
  {
  }

  ghost predicate AllTruthful(s: Store) {
    forall name :: Truthful(s, name)
  }

  function Started(s: Store, forceClean: bool): Store {
    if forceClean then Store(map[], map[]) else s
  }

  /** A whole sync, as SyncAudioAssets performs it while nothing else works on the cache; AudioRuns has the overlaps. */
  function AfterSync(s: Store, c: AudioConfig, forceClean: bool, tasks: seq<Slot>, luck: Slot -> Luck, cleanAt: int): Store {
    Cleaned(Synced(Started(s, forceClean), c, tasks, luck), cleanAt)
  }

  /** The cleanup follows the tasks within a month. */
  predicate Prompt(tasks: seq<Slot>, luck: Slot -> Luck, cleanAt: int) {
    forall slot :: slot in tasks ==> cleanAt - luck(slot).now <= DAYS_30
  }

  predicate NoneMisleads(s: Store, c: AudioConfig, tasks: seq<Slot>, luck: Slot -> Luck) {
    forall slot :: slot in tasks ==> !Misleads(s, Name(slot), Wanted(c, slot), luck(slot))
  }

  lemma {:induction false} UnnamedUntouched(s: Store, c: AudioConfig, tasks: seq<Slot>, luck: Slot -> Luck, name: string)
    requires forall slot :: slot in tasks ==> Name(slot) != name
    ensures SameFile(Synced(s, c, tasks, luck), s, name)
    decreases |tasks|
  {
    if tasks != [] {
      var init, last := tasks[..|tasks| - 1], tasks[|tasks| - 1];
      UnnamedUntouched(s, c, init, luck, name);
      EnsuredElsewhere(Synced(s, c, init, luck), Name(last), Wanted(c, last), luck(last), name);
    }
  }

  lemma CleanedTruthful(s: Store, now: int, name: string)
    ensures Truthful(s, name) ==> Truthful(Cleaned(s, now), name)
    ensures name in s.audio && now - s.audio[name].mtime <= DAYS_30 ==> SameFile(Cleaned(s, now), s, name)
  {
  }

  lemma SyncedSlotTruthful(s: Store, c: AudioConfig, tasks: seq<Slot>, luck: Slot -> Luck, cleanAt: int, slot: Slot)
    requires AllDifferent(tasks) && slot in tasks && Truthful(s, Name(slot)) && cleanAt - luck(slot).now <= DAYS_30
    ensures Truthful(Cleaned(Synced(s, c, tasks, luck), cleanAt), Name(slot)) <==>
              !Misleads(s, Name(slot), Wanted(c, slot), luck(slot))
  {
    var name, w := Name(slot), Wanted(c, slot);
    var one := Ensured(s, name, w, luck(slot)).0;
    TasksIndependent(s, c, tasks, luck, slot);
    EnsuredTruthfulIff(s, name, w, luck(slot));
    SameFileTruthful(Synced(s, c, tasks, luck), one, name);
    CleanedTruthful(Synced(s, c, tasks, luck), cleanAt, name);
    if Misleads(s, name, w, luck(slot)) {
      assert one.audio[name].mtime == luck(slot).now;
      SameFileTruthful(Cleaned(Synced(s, c, tasks, luck), cleanAt), Synced(s, c, tasks, luck), name);
    }
  }

  /** A sync that nothing overlaps leaves a truthful cache truthful if and only if none of its tasks misleads. */
  lemma SyncTruthfulIff(s: Store, c: AudioConfig, forceClean: bool, tasks: seq<Slot>, luck: Slot -> Luck, cleanAt: int)
    requires AllTruthful(s) && AllDifferent(tasks) && Prompt(tasks, luck, cleanAt)
    ensures AllTruthful(AfterSync(s, c, forceClean, tasks, luck, cleanAt)) <==>
              NoneMisleads(Started(s, forceClean), c, tasks, luck)
  {
    var start := Started(s, forceClean);
    var t := AfterSync(s, c, forceClean, tasks, luck, cleanAt);
    forall name
      ensures Truthful(t, name) || exists slot :: slot in tasks && Name(slot) == name
    {
      if forall slot :: slot in tasks ==> Name(slot) != name {
        UnnamedUntouched(start, c, tasks, luck, name);
        SameFileTruthful(Synced(start, c, tasks, luck), start, name);
        CleanedTruthful(Synced(start, c, tasks, luck), cleanAt, name);
      }
    }
    forall slot | slot in tasks
      ensures Truthful(t, Name(slot)) <==> !Misleads(start, Name(slot), Wanted(c, slot), luck(slot))
    {
      SyncedSlotTruthful(start, c, tasks, luck, cleanAt, slot);
    }
  }

  /** What a sync that nothing overlaps leaves of a task's file, from the trigger's template and voices: a file whose
      sidecar records them is touched and kept, any other is spoken anew and recorded if the service is healthy, in quota
      and succeeds, spoken and not recorded if it fails late, and else left to the cleanup as it was. */
  lemma SyncSays(s: Store, c: AudioConfig, forceClean: bool, tasks: seq<Slot>, luck: Slot -> Luck, cleanAt: int, slot: Slot)
    requires AllDifferent(tasks) && Prompt(tasks, luck, cleanAt) && slot in tasks && slot in c.triggers
    ensures var (t, l, name) := (AfterSync(s, c, forceClean, tasks, luck, cleanAt), luck(slot), Name(slot));
            var start := if forceClean then Store(map[], map[]) else s;
            var text := c.resolve(c.triggers[slot].template, slot.prayer, c.triggers[slot].offset);
            var voices := [c.triggers[slot].voice, c.defaultVoice, "ar-SA-HamedNeural"];
            var voice := if voices[0] != "" then voices[0] else if voices[1] != "" then voices[1] else voices[2];
            var record := Sidecar(Some(text), Some(voice));
            if name in start.audio && name in start.meta && start.meta[name] == record then
              name in t.audio && t.audio[name] == Audio(l.now, start.audio[name].spoken) && name in t.meta && t.meta[name] == record
            else if l.healthy && l.quota && l.generation != Failed(false) then
              && name in t.audio && t.audio[name] == Audio(l.now, Speech(text, voice))
              && (l.generation == Done ==> name in t.meta && t.meta[name] == record)
              && (l.generation != Done ==>
                    (name in t.meta <==> name in start.meta) && (name in t.meta ==> t.meta[name] == start.meta[name]))
            else SweptOrKept(start, t, cleanAt, name)
    ensures slot in Unlucky(if forceClean then Store(map[], map[]) else s, c, tasks, luck) <==>
              && !Keeps(if forceClean then Store(map[], map[]) else s, Name(slot), Wanted(c, slot))
              && !(luck(slot).healthy && luck(slot).quota && luck(slot).generation == Done)
  {
    var start := Started(s, forceClean);
    TasksIndependent(start, c, tasks, luck, slot);
  }

  /** Gone with its sidecar if untouched for thirty days, and else as it was. */
  predicate SweptOrKept(s: Store, t: Store, now: int, name: string) {
    if name in s.audio && now - s.audio[name].mtime > 30 * 24 * 60 * 60 * 1000 then name !in t.audio && name !in t.meta
    else SameFile(t, s, name)
  }

  /** And of every other file. */
  lemma SyncLeaves(s: Store, c: AudioConfig, forceClean: bool, tasks: seq<Slot>, luck: Slot -> Luck, cleanAt: int, name: string)
    requires forall slot :: slot in tasks ==> Name(slot) != name
    ensures SweptOrKept(if forceClean then Store(map[], map[]) else s,
                        AfterSync(s, c, forceClean, tasks, luck, cleanAt), cleanAt, name)
  {
    UnnamedUntouched(Started(s, forceClean), c, tasks, luck, name);
  }

  /** The other way: once a file misleads, going back to what its sidecar records keeps it without a warning and it is
      reported as that, although it says something else. */
  lemma InterruptedGenerationMisleads(s: Store, name: string, first: Speech, second: Speech, luck: Luck, later: Luck)
    requires Keeps(s, name, first) && Misleads(s, name, second, luck)
    ensures var t := Ensured(s, name, second, luck).0;
            var (u, warning) := Ensured(t, name, first, later);
            warning == None && u.audio[name].spoken == second != first && !Truthful(u, name)
  {
  }
}
