/** getPrayerTimes and forceRefresh as they run: under the lock, cut at every await, over the cache they share. */
module LockedCache {
  import opened Outcomes
  import opened IqamahRule
  import opened PrayerCache
  import L = AsyncLock

  // ---------------------------------------------------------------- executions and their segments

  /** What an execution awaits: the file to be read, its turn after the read, the providers, the file to be written, its
      turn after the write, the lock's own turn. */
  datatype Phase =
    | Reading
    | Loaded(content: Cache)
    | Fetching(snapshot: Cache)
    | Writing(updated: Cache, answer: Result<Served, Error>)
    | Wrote(updated: Cache, written: bool, answer: Result<Served, Error>)
    | Settling(answer: Result<Served, Error>)

  datatype Exec = Exec(config: Config, date: Date, phase: Phase)

  datatype Service = Service(lock: L.State, cache: State, execs: map<nat, Exec>, answers: map<nat, Result<Served, Error>>)

  /** A refresh is a Clear, later an Unlink and later an Ask; any other call is an Ask. Proceed takes an execution from
      what it awaits to the next await. */
  datatype Move =
    | Clear
    | Unlink(ok: bool)
    | Ask(caller: nat, key: L.Key, config: Config, date: Date)
    | Proceed(run: nat, w: World)

  /** Up to the first await: the memory decides, or the file will be read. */
  function Entered(memory: Option<Cache>, config: Config, date: Date): Phase {
    if memory.Some? && date in DataOf(memory.value) then Settling(Ok(Hit(memory.value, date, config))) else Reading
  }

  function AnswerFrom(updated: Cache, config: Config, source: string, date: Date, now: int): Result<Served, Error> {
    if date in DataOf(updated)
    then Ok(Served(date, source, now, false, Applied(DataOf(updated)[date], config.prayers)))
    else Err(NotInResponse)
  }

  /** Cache and phase after the next segment of an execution that does not end with it. */
  function Advanced(cache: State, exec: Exec, w: World): (State, Phase)
    requires !exec.phase.Settling?
  {
    match exec.phase
    case Reading => (cache, Loaded(Content(cache.disk)))
    case Loaded(content) =>
      (cache.(memory := Some(content)),
       if exec.date in DataOf(content) then Settling(Ok(Hit(content, exec.date, exec.config))) else Fetching(content))
    case Fetching(snapshot) =>
      (match Fetched(exec.config, w).result
       case Err(e) => (cache, Settling(Err(e)))
       case Ok((source, data)) =>
         var updated := Filled(Meta(source, w.now), DataOf(snapshot) + data);
         (cache, Writing(updated, AnswerFrom(updated, exec.config, source, exec.date, w.now))))
    case Writing(updated, answer) =>
      (if w.written then cache.(disk := File(updated)) else cache, Wrote(updated, w.written, answer))
    case Wrote(updated, written, answer) =>
      (if written then cache.(memory := Some(updated)) else cache, Settling(answer))
  }

  /** The day a result is for, as the lock sees it. */
  function Outcome(answer: Result<Served, Error>): Result<L.Value, ()> {
    match answer
    case Ok(served) => Ok(served.date)
    case Err(_) => Err(())
  }

  predicate Enabled(s: Service, e: Move) {
    match e
    case Ask(caller, _, _, _) => caller !in s.lock.tickets
    case Proceed(run, _) => run in s.execs && (s.execs[run].phase.Settling? ==> run in s.lock.inFlight)
    case _ => true
  }

  function Step(s: Service, e: Move): Service
    requires Enabled(s, e)
  {
    match e
    case Clear => s.(cache := s.cache.(memory := None))
    case Unlink(ok) => if ok then s.(cache := s.cache.(disk := NoFile)) else s
    case Ask(caller, key, config, date) =>
      var lock := L.Step(s.lock, L.Call(caller, key, date, false));
      if key in s.lock.pending then s.(lock := lock)
      else s.(lock := lock, execs := s.execs[s.lock.next := Exec(config, date, Entered(s.cache.memory, config, date))])
    case Proceed(run, w) =>
      var exec := s.execs[run];
      if exec.phase.Settling? then
        s.(lock := L.Step(s.lock, L.Settle(run, Outcome(exec.phase.answer))),
           execs := s.execs - {run}, answers := s.answers[run := exec.phase.answer])
      else
        var (cache, phase) := Advanced(s.cache, exec, w);
        s.(cache := cache, execs := s.execs[run := exec.(phase := phase)])
  }

  function Initial(disk: Disk): (s: Service)
    ensures Inv(s) && AllMarked(s)
  {
    Service(L.Initial(), State(None, disk), map[], map[])
  }

  ghost predicate IsRun(s: Service, es: seq<Move>)
    decreases |es|
  {
    es == [] || (Enabled(s, es[0]) && IsRun(Step(s, es[0]), es[1..]))
  }

  ghost function After(s: Service, es: seq<Move>): Service
    requires IsRun(s, es)
    decreases |es|
  {
    if es == [] then s else After(Step(s, es[0]), es[1..])
  }

  // ---------------------------------------------------------------- an execution nothing interleaves with

  /** Segments still to come. */
  function Ahead(phase: Phase): nat {
    match phase
    case Reading => 5
    case Loaded(_) => 4
    case Fetching(_) => 3
    case Writing(_, _) => 2
    case Wrote(_, _, _) => 1
    case Settling(_) => 0
  }

  function Finished(cache: State, exec: Exec, w: World): (State, Result<Served, Error>)
    decreases Ahead(exec.phase)
  {
    if exec.phase.Settling? then (cache, exec.phase.answer)
    else
      var (next, phase) := Advanced(cache, exec, w);
      Finished(next, exec.(phase := phase), w)
  }

  lemma FetchedAlone(cache: State, config: Config, date: Date, snapshot: Cache, w: World)
    ensures Finished(cache, Exec(config, date, Fetching(snapshot)), w) == Landed(cache, snapshot, config, date, w)
  {
    var exec := Exec(config, date, Fetching(snapshot));
    var (next, phase) := Advanced(cache, exec, w);
    assert Finished(cache, exec, w) == Finished(next, exec.(phase := phase), w);
    if phase.Writing? {
      var (written, wrote) := Advanced(next, exec.(phase := phase), w);
      assert Finished(next, exec.(phase := phase), w) == Finished(written, exec.(phase := wrote), w);
      var (kept, settling) := Advanced(written, exec.(phase := wrote), w);
      assert Finished(written, exec.(phase := wrote), w) == Finished(kept, exec.(phase := settling), w);
    }
  }

  /** The segments of an execution that nothing interleaves with make up the call. */
  lemma CalledAlone(cache: State, config: Config, date: Date, w: World)
    ensures Finished(cache, Exec(config, date, Entered(cache.memory, config, date)), w) == Called(cache, config, date, w)
  {
    var exec := Exec(config, date, Entered(cache.memory, config, date));
    if exec.phase.Reading? {
      var loaded := exec.(phase := Loaded(Content(cache.disk)));
      assert Finished(cache, exec, w) == Finished(cache, loaded, w);
      if date !in DataOf(Content(cache.disk)) {
        FetchedAlone(cache.(memory := Some(Content(cache.disk))), config, date, Content(cache.disk), w);
      }
    }
  }

  // ---------------------------------------------------------------- the lock under it

  /** An execution answers for its own date. */
  predicate OwnDate(exec: Exec) {
    match exec.phase
    case Writing(_, answer) => answer.Ok? ==> answer.value.date == exec.date
    case Wrote(_, _, answer) => answer.Ok? ==> answer.value.date == exec.date
    case Settling(answer) => answer.Ok? ==> answer.value.date == exec.date
    case _ => true
  }

  ghost predicate GoodLock(lock: L.State) {
    L.Inv(lock) && L.SingleFlight(lock) && L.ServesItsDate(lock)
  }

  /** The lock's executions are the service's, and each serves its date. */
  ghost predicate Fits(lock: L.State, execs: map<nat, Exec>, answers: map<nat, Result<Served, Error>>) {
    && execs.Keys == lock.inFlight.Keys
    && (forall run :: run in execs ==> run in lock.started && lock.started[run] == execs[run].date && OwnDate(execs[run]))
    && answers.Keys == lock.settled.Keys
    && forall run :: run in answers ==> lock.settled[run] == Outcome(answers[run])
  }

  ghost predicate Inv(s: Service) {
    GoodLock(s.lock) && Fits(s.lock, s.execs, s.answers)
  }

  /** What a move is to the lock. */
  function LockEvent(s: Service, e: Move): Option<L.Event>
    requires Enabled(s, e)
  {
    match e
    case Ask(caller, key, _, date) => Some(L.Call(caller, key, date, false))
    case Proceed(run, _) =>
      if s.execs[run].phase.Settling? then Some(L.Settle(run, Outcome(s.execs[run].phase.answer))) else None
    case _ => None
  }

  /** Every move is a step of the lock or leaves it alone, so that runs of the service are runs of the lock. */
  lemma StepIsLockStep(s: Service, e: Move)
    requires Enabled(s, e)
    ensures LockEvent(s, e).Some? ==> L.Enabled(s.lock, LockEvent(s, e).value)
    ensures Step(s, e).lock == if LockEvent(s, e).Some? then L.Step(s.lock, LockEvent(s, e).value) else s.lock
  {
  }

  /** One step of the lock with a function that does not throw at once. */
  lemma LockStaysGood(lock: L.State, e: L.Event)
    requires L.Inv(lock) && L.SingleFlight(lock) && L.Enabled(lock, e) && (e.Call? ==> !e.throws)
    ensures L.Inv(L.Step(lock, e)) && L.SingleFlight(L.Step(lock, e))
  {
    L.StepKeepsInv(lock, e);
    assert [e][1..] == [];
    assert L.IsRun(L.Step(lock, e), []);
    assert L.IsRun(lock, [e]) && L.After(lock, [e]) == L.After(L.Step(lock, e), []) == L.Step(lock, e);
    L.SingleFlightExactly(lock, [e]);
    assert !L.EverPoisoned(L.Step(lock, e), []);
  }

  lemma LockCall(lock: L.State, caller: nat, key: L.Key, date: Date)
    requires GoodLock(lock) && caller !in lock.tickets
    ensures var t := L.Step(lock, L.Call(caller, key, date, false));
            && L.ServesItsDate(t) && t.settled == lock.settled
            && (if key in lock.pending then t.inFlight == lock.inFlight && t.started == lock.started
                else lock.next !in lock.started && lock.next !in lock.inFlight
                     && t.inFlight == lock.inFlight[lock.next := key] && t.started == lock.started[lock.next := date])
  {
  }

  lemma LockSettle(lock: L.State, run: nat, outcome: Result<L.Value, ()>)
    requires GoodLock(lock) && run in lock.inFlight && run in lock.started
    requires outcome.Ok? ==> outcome.value == lock.started[run]
    ensures var t := L.Step(lock, L.Settle(run, outcome));
            && L.ServesItsDate(t) && t.settled == lock.settled[run := outcome]
            && t.inFlight == lock.inFlight - {run} && t.started == lock.started
  {
  }

  lemma FitsStarted(lock: L.State, t: L.State, execs: map<nat, Exec>, answers: map<nat, Result<Served, Error>>, run: nat, key: L.Key, exec: Exec)
    requires Fits(lock, execs, answers) && OwnDate(exec) && run !in lock.started
    requires t.settled == lock.settled && t.inFlight == lock.inFlight[run := key] && t.started == lock.started[run := exec.date]
    ensures Fits(t, execs[run := exec], answers)
  {
  }

  lemma FitsSettled(lock: L.State, t: L.State, execs: map<nat, Exec>, answers: map<nat, Result<Served, Error>>, run: nat, answer: Result<Served, Error>)
    requires Fits(lock, execs, answers)
    requires t.settled == lock.settled[run := Outcome(answer)] && t.inFlight == lock.inFlight - {run} && t.started == lock.started
    ensures Fits(t, execs - {run}, answers[run := answer])
  {
  }

  lemma AskFits(s: Service, e: Move)
    requires Inv(s) && Enabled(s, e) && e.Ask?
    ensures Fits(Step(s, e).lock, Step(s, e).execs, Step(s, e).answers) && L.ServesItsDate(Step(s, e).lock)
  {
    LockCall(s.lock, e.caller, e.key, e.date);
    if e.key !in s.lock.pending {
      FitsStarted(s.lock, Step(s, e).lock, s.execs, s.answers, s.lock.next, e.key,
                  Exec(e.config, e.date, Entered(s.cache.memory, e.config, e.date)));
    }
  }

  lemma SettleFits(s: Service, e: Move)
    requires Inv(s) && Enabled(s, e) && e.Proceed? && s.execs[e.run].phase.Settling?
    ensures Fits(Step(s, e).lock, Step(s, e).execs, Step(s, e).answers) && L.ServesItsDate(Step(s, e).lock)
  {
    var answer := s.execs[e.run].phase.answer;
    LockSettle(s.lock, e.run, Outcome(answer));
    FitsSettled(s.lock, Step(s, e).lock, s.execs, s.answers, e.run, answer);
  }

  lemma FitsAdvanced(lock: L.State, execs: map<nat, Exec>, answers: map<nat, Result<Served, Error>>, run: nat, exec: Exec)
    requires Fits(lock, execs, answers) && run in execs && exec.date == execs[run].date && OwnDate(exec)
    ensures Fits(lock, execs[run := exec], answers)
  {
  }

  lemma AdvanceFits(s: Service, run: nat, w: World)
    requires run in s.execs && !s.execs[run].phase.Settling? && Fits(s.lock, s.execs, s.answers)
    ensures Fits(s.lock, Step(s, Proceed(run, w)).execs, Step(s, Proceed(run, w)).answers)
  {
    AdvancedOwnDate(s.cache, s.execs[run], w);
    FitsAdvanced(s.lock, s.execs, s.answers, run, s.execs[run].(phase := Advanced(s.cache, s.execs[run], w).1));
  }

  lemma AdvancedOwnDate(cache: State, exec: Exec, w: World)
    requires OwnDate(exec) && !exec.phase.Settling?
    ensures OwnDate(exec.(phase := Advanced(cache, exec, w).1))
  {
  }

  /** Lock and cache composed: every interleaving of calls and refreshes keeps what the lock alone keeps. */
  lemma StepKeepsInv(s: Service, e: Move)
    requires Inv(s) && Enabled(s, e)
    ensures Inv(Step(s, e))
  {
    StepIsLockStep(s, e);
    if LockEvent(s, e).Some? {
      LockStaysGood(s.lock, LockEvent(s, e).value);
    }
    if e.Ask? {
      AskFits(s, e);
    } else if e.Proceed? && s.execs[e.run].phase.Settling? {
      SettleFits(s, e);
    } else if e.Proceed? {
      AdvanceFits(s, e.run, e.w);
    }
  }

  // ---------------------------------------------------------------- what a caller is answered

  /** The run a caller waits for. */
  function RunOf(s: Service, caller: nat): nat
    requires caller in s.lock.tickets
  {
    s.lock.tickets[caller].run
  }

  /** Reading finds the day: the file has it at the moment this run reads it. */
  ghost predicate Finds(s: Service, es: seq<Move>, run: nat, date: Date)
    requires IsRun(s, es)
    decreases |es|
  {
    es != []
    && if es[0].Proceed? && es[0].run == run then date in DataOf(Content(s.cache.disk))
       else Finds(Step(s, es[0]), es[1..], run, date)
  }

  /** Whether a run is going to answer from the cache, as far as that is decided. */
  ghost predicate FromCache(s: Service, es: seq<Move>, run: nat)
    requires IsRun(s, es) && run in s.execs
  {
    match s.execs[run].phase
    case Reading => Finds(s, es, run, s.execs[run].date)
    case Loaded(content) => s.execs[run].date in DataOf(content)
    case Settling(answer) => answer.Ok? && answer.value.cached
    case _ => false
  }

  /** Only hits are marked as cached. */
  ghost predicate Marked(exec: Exec) {
    match exec.phase
    case Writing(_, answer) => answer.Ok? ==> !answer.value.cached
    case Wrote(_, _, answer) => answer.Ok? ==> !answer.value.cached
    case _ => true
  }

  lemma AdvancedMarked(cache: State, exec: Exec, w: World)
    requires Marked(exec) && !exec.phase.Settling?
    ensures Marked(exec.(phase := Advanced(cache, exec, w).1))
  {
  }

  ghost predicate AllMarked(s: Service) {
    forall run :: run in s.execs ==> Marked(s.execs[run])
  }

  lemma StepMarked(s: Service, e: Move)
    requires AllMarked(s) && Enabled(s, e)
    ensures AllMarked(Step(s, e))
  {
    if e.Proceed? && !s.execs[e.run].phase.Settling? {
      AdvancedMarked(s.cache, s.execs[e.run], e.w);
    }
  }

  /** A run already settled keeps its answer. */
  lemma {:induction false} AnswerStays(s: Service, es: seq<Move>, run: nat)
    requires Inv(s) && IsRun(s, es) && run in s.answers
    ensures run in After(s, es).answers && After(s, es).answers[run] == s.answers[run]
    decreases |es|
  {
    if es != [] {
      StepKeepsInv(s, es[0]);
      AnswerStays(Step(s, es[0]), es[1..], run);
    }
  }

  /** A run ends with the answer it settles. */
  lemma EndsWith(s: Service, e: Move, run: nat)
    requires Enabled(s, e) && run in s.execs && run != s.lock.next && run !in Step(s, e).execs
    ensures s.execs[run].phase.Settling? && run in Step(s, e).answers && Step(s, e).answers[run] == s.execs[run].phase.answer
  {
  }

  /** Over every interleaving: an execution in flight answers from the cache exactly when its phase says so or, if it has
      yet to read, when the file has its day as it reads. */
  lemma {:induction false} CachedExactly(s: Service, es: seq<Move>, run: nat)
    requires Inv(s) && AllMarked(s) && IsRun(s, es) && run in s.execs
    requires run in After(s, es).answers && After(s, es).answers[run].Ok?
    ensures After(s, es).answers[run].value.cached <==> FromCache(s, es, run)
    decreases |es|
  {
    RunIsOld(s, run);
    if es != [] {
      var t := Step(s, es[0]);
      StepKeepsInv(s, es[0]);
      StepMarked(s, es[0]);
      if run in t.execs {
        FromCacheStep(s, es, run);
        CachedExactly(t, es[1..], run);
      } else {
        EndsWith(s, es[0], run);
        AnswerStays(t, es[1..], run);
      }
    }
  }

  lemma RunIsOld(s: Service, run: nat)
    requires Inv(s) && run in s.execs
    ensures run != s.lock.next && run !in s.answers && run in s.lock.inFlight
  {
    assert run in s.lock.inFlight && run in s.lock.started;
  }

  /** A run moves on only by its own segments. */
  lemma ExecStays(s: Service, e: Move, run: nat)
    requires Enabled(s, e) && run in s.execs && run != s.lock.next && !(e.Proceed? && e.run == run)
    ensures run in Step(s, e).execs && Step(s, e).execs[run] == s.execs[run]
  {
  }

  /** Its own segment settles what was open. */
  lemma OwnStep(s: Service, es: seq<Move>, run: nat)
    requires AllMarked(s) && IsRun(s, es) && es != [] && run in s.execs
    requires es[0].Proceed? && es[0].run == run && !s.execs[run].phase.Settling?
    ensures run in Step(s, es[0]).execs
    ensures FromCache(s, es, run) <==> FromCache(Step(s, es[0]), es[1..], run)
  {
  }

  lemma FromCacheStep(s: Service, es: seq<Move>, run: nat)
    requires Inv(s) && AllMarked(s) && IsRun(s, es) && es != [] && run in s.execs && run in Step(s, es[0]).execs
    ensures FromCache(s, es, run) <==> FromCache(Step(s, es[0]), es[1..], run)
  {
    if es[0].Proceed? && es[0].run == run {
      OwnStep(s, es, run);
    } else {
      RunIsOld(s, run);
      ExecStays(s, es[0], run);
    }
  }

  /** What a call, and so the call at the end of a refresh, is answered in every continuation: the day of the run it joins
      or starts; and from the cache exactly when the run it joins is going to, or, if its key is free, when the memory has
      the day at the call or the file has it when the run reads it. So a removed file does not keep a refresh from being
      answered from the cache: it may join a run that has looked before. */
  lemma AskedExactly(s: Service, caller: nat, key: L.Key, config: Config, date: Date, es: seq<Move>)
    requires Inv(s) && AllMarked(s) && caller !in s.lock.tickets
    requires IsRun(Step(s, Ask(caller, key, config, date)), es)
    ensures var t := Step(s, Ask(caller, key, config, date));
            var run := RunOf(t, caller);
            && run in t.execs
            && (if key in s.lock.pending then s.lock.pending[key] == run && run in s.execs && t.execs == s.execs
                else t.execs[run] == Exec(config, date, Entered(s.cache.memory, config, date)))
            && (run in After(t, es).answers && After(t, es).answers[run].Ok? ==>
                  var served := After(t, es).answers[run].value;
                  && served.date == t.execs[run].date
                  && (served.cached <==> FromCache(t, es, run)))
  {
    var e := Ask(caller, key, config, date);
    var t := Step(s, e);
    L.CallJoinsOrStarts(s.lock, caller, key, date);
    StepKeepsInv(s, e);
    StepMarked(s, e);
    var run := RunOf(t, caller);
    if run in After(t, es).answers && After(t, es).answers[run].Ok? {
      CachedExactly(t, es, run);
      AnsweredForItsDate(t, es, run);
    }
  }

  /** The answer of an execution is for its date. */
  lemma {:induction false} AnsweredForItsDate(s: Service, es: seq<Move>, run: nat)
    requires Inv(s) && IsRun(s, es) && run in s.lock.started && run in After(s, es).answers && After(s, es).answers[run].Ok?
    ensures After(s, es).answers[run].value.date == s.lock.started[run]
    decreases |es|
  {
    if es != [] {
      StepKeepsInv(s, es[0]);
      StartedStays(s, es[0], run);
      AnsweredForItsDate(Step(s, es[0]), es[1..], run);
    }
  }

  lemma StartedStays(s: Service, e: Move, run: nat)
    requires Inv(s) && Enabled(s, e) && run in s.lock.started
    ensures run in Step(s, e).lock.started && Step(s, e).lock.started[run] == s.lock.started[run]
  {
    StepIsLockStep(s, e);
    if LockEvent(s, e).Some? {
      LockKeepsStarted(s.lock, LockEvent(s, e).value, run);
    }
  }

  lemma LockKeepsStarted(lock: L.State, e: L.Event, run: nat)
    requires L.Inv(lock) && L.Enabled(lock, e) && run in lock.started
    ensures run in L.Step(lock, e).started && L.Step(lock, e).started[run] == lock.started[run]
  {
    assert run < lock.next;
  }

  lemma Head(s: Service, e: Move, es: seq<Move>)
    requires Enabled(s, e) && IsRun(Step(s, e), es)
    ensures IsRun(s, [e] + es) && After(s, [e] + es) == After(Step(s, e), es)
  {
    assert ([e] + es)[1..] == es;
  }

  lemma Turn(s: Service, run: nat, w: World)
    requires run in s.execs && s.execs[run].phase.Loaded? && s.execs[run].date in DataOf(s.execs[run].phase.content)
    ensures var t := Step(s, Proceed(run, w));
            && t.lock == s.lock && t.cache == s.cache.(memory := Some(s.execs[run].phase.content)) && run in t.execs
            && t.execs[run].phase == Settling(Ok(Hit(s.execs[run].phase.content, s.execs[run].date, s.execs[run].config)))
  {
  }

  lemma Settled(s: Service, run: nat, w: World)
    requires run in s.execs && s.execs[run].phase.Settling? && run in s.lock.inFlight
    ensures var t := Step(s, Proceed(run, w));
            && run in t.answers && t.answers[run] == s.execs[run].phase.answer
            && t.cache == s.cache && t.lock.tickets == s.lock.tickets
  {
  }

  /** A run that has read its day answers from it in its next two segments, and puts what it read into the memory. */
  lemma OldLookAnswers(s: Service, run: nat, w: World)
    requires run in s.execs && s.execs[run].phase.Loaded? && run in s.lock.inFlight
    requires s.execs[run].date in DataOf(s.execs[run].phase.content)
    ensures var es := [Proceed(run, w)] + [Proceed(run, w)];
            && IsRun(s, es)
            && var t := After(s, es);
               && run in t.answers && t.answers[run].Ok? && t.answers[run].value.cached
               && t.cache == s.cache.(memory := Some(s.execs[run].phase.content)) && t.lock.tickets == s.lock.tickets
  {
    var e := Proceed(run, w);
    var t := Step(s, e);
    Turn(s, run, w);
    Settled(t, run, w);
    Head(t, e, []);
    assert [e] + [] == [e];
    Head(s, e, [e]);
  }

  /** The shortest such run: an execution has read the file and waits for its turn, a refresh clears the memory, removes
      the file and joins it. The refresh is answered from the cache, and the memory has the old content again. */
  lemma RefreshJoinsOldLook(s: Service, run: nat, caller: nat, key: L.Key, config: Config, today: Date, w: World)
    requires Inv(s) && caller !in s.lock.tickets && key in s.lock.pending && s.lock.pending[key] == run && run in s.execs
    requires s.execs[run].phase.Loaded? && s.execs[run].date == today && today in DataOf(s.execs[run].phase.content)
    ensures var es := [Clear] + ([Unlink(true)] + ([Ask(caller, key, config, today)] + ([Proceed(run, w)] + [Proceed(run, w)])));
            && IsRun(s, es)
            && var t := After(s, es);
               && caller in t.lock.tickets && RunOf(t, caller) == run && run in t.answers
               && t.answers[run].Ok? && t.answers[run].value.cached
               && t.cache == State(Some(s.execs[run].phase.content), NoFile)
  {
    var ask, tail := Ask(caller, key, config, today), [Proceed(run, w)] + [Proceed(run, w)];
    var cleared := Step(s, Clear);
    var removed := Step(cleared, Unlink(true));
    var asked := Step(removed, ask);
    StepKeepsInv(s, Clear);
    StepKeepsInv(cleared, Unlink(true));
    StepKeepsInv(removed, ask);
    RunIsOld(asked, run);
    OldLookAnswers(asked, run, w);
    Head(removed, ask, tail);
    Head(cleared, Unlink(true), [ask] + tail);
    Head(s, Clear, [Unlink(true)] + ([ask] + tail));
  }

  // ---------------------------------------------------------------- what a refresh forgets

  predicate Has(cache: Option<Cache>, d: Date) {
    cache.Some? && d in DataOf(cache.value)
  }

  /** An execution that may still put the day into memory or file. */
  predicate Carries(exec: Exec, d: Date) {
    match exec.phase
    case Loaded(content) => d in DataOf(content)
    case Fetching(snapshot) => d in DataOf(snapshot)
    case Writing(updated, _) => d in DataOf(updated)
    case Wrote(updated, written, _) => written && d in DataOf(updated)
    case _ => false
  }

  ghost predicate Gone(s: Service, d: Date) {
    !Has(s.cache.memory, d) && d !in DataOf(Content(s.cache.disk))
  }

  /** No provider answers with the day. */
  predicate BringsNot(e: Move, d: Date) {
    e.Proceed? ==>
      (e.w.primary.Yields? ==> d !in e.w.primary.data) && (e.w.backup.Yields? ==> d !in e.w.backup.data)
  }

  ghost predicate StaysGone(s: Service, es: seq<Move>, d: Date) {
    IsRun(s, es) && (forall e :: e in es ==> BringsNot(e, d)) ==> Gone(After(s, es), d)
  }

  ghost predicate Forgotten(s: Service, d: Date) {
    Gone(s, d) && forall run :: run in s.execs ==> !Carries(s.execs[run], d)
  }

  lemma AdvancedForgets(cache: State, exec: Exec, w: World, d: Date)
    requires !exec.phase.Settling? && !Carries(exec, d) && !Has(cache.memory, d) && d !in DataOf(Content(cache.disk))
    requires (w.primary.Yields? ==> d !in w.primary.data) && (w.backup.Yields? ==> d !in w.backup.data)
    ensures var (next, phase) := Advanced(cache, exec, w);
            !Has(next.memory, d) && d !in DataOf(Content(next.disk)) && !Carries(exec.(phase := phase), d)
  {
  }

  lemma {:induction false} ForgottenStays(s: Service, es: seq<Move>, d: Date)
    requires Forgotten(s, d) && IsRun(s, es) && forall e :: e in es ==> BringsNot(e, d)
    ensures Forgotten(After(s, es), d)
    decreases |es|
  {
    if es != [] {
      assert es[0] in es && forall e :: e in es[1..] ==> e in es;
      if es[0].Proceed? && !s.execs[es[0].run].phase.Settling? {
        AdvancedForgets(s.cache, s.execs[es[0].run], es[0].w, d);
      }
      ForgottenStays(Step(s, es[0]), es[1..], d);
    }
  }

  /** After a refresh has cleared the memory and removed the file, or at any other time: a day comes back in no
      continuation in which the providers do not bring it, exactly when neither memory nor file has it and no execution
      in flight carries it. A run that read the file before it was removed writes its old days back. */
  lemma ForgottenIff(s: Service, d: Date)
    ensures (forall es :: StaysGone(s, es, d)) <==> Forgotten(s, d)
  {
    if Forgotten(s, d) {
      forall es
        ensures StaysGone(s, es, d)
      {
        if IsRun(s, es) && forall e :: e in es ==> BringsNot(e, d) {
          ForgottenStays(s, es, d);
        }
      }
    } else if !Gone(s, d) {
      assert !StaysGone(s, [], d);
    } else {
      var run :| run in s.execs && Carries(s.execs[run], d);
      CarriedReturns(s, run, d);
    }
  }

  /** So a refresh that removes the file forgets a day, whatever follows without it, exactly when no execution in flight
      at that moment carries it. */
  lemma RefreshForgetsIff(s: Service, d: Date)
    ensures var t := Step(Step(s, Clear), Unlink(true));
            (forall es :: StaysGone(t, es, d)) <==> forall run :: run in s.execs ==> !Carries(s.execs[run], d)
  {
    ForgottenIff(Step(Step(s, Clear), Unlink(true)), d);
  }

  /** Providers that yield something, but not this day. */
  function Elsewhere(d: Date): World {
    World(Yields(map[d + 1 := Day(map[], map[])]), Fails, 0, true)
  }

  lemma CarriedReturns(s: Service, run: nat, d: Date)
    requires run in s.execs && Carries(s.execs[run], d)
    ensures exists es :: !StaysGone(s, es, d)
  {
    var e := Proceed(run, Elsewhere(d));
    assert d !in map[d + 1 := Day(map[], map[])] && d + 1 in map[d + 1 := Day(map[], map[])];
    assert BringsNot(e, d);
    assert [e][1..] == [] && [e, e][1..] == [e];
    var t := Step(s, e);
    assert IsRun(t, []) && IsRun(s, [e]) && After(s, [e]) == t;
    if s.execs[run].phase.Fetching? {
      var u := Step(t, e);
      assert IsRun(u, []) && IsRun(t, [e]) && IsRun(s, [e, e]) && After(t, [e]) == u && After(s, [e, e]) == u;
      assert !StaysGone(s, [e, e], d);
    } else {
      assert !StaysGone(s, [e], d);
    }
  }
}
