/** AsyncLock.run: calls under one key share the execution that is in flight. */
module AsyncLock {
  import opened Outcomes

  type Key = string

  /** What an execution works on and what it yields, each named by a number; for getPrayerTimes both are days. */
  type Arg = int
  type Value = int

  /** A call as its maker sees it: the key, the argument its own function would have worked on, and the
      promise it was handed, named by the number of the execution behind it. */
  datatype Ticket = Ticket(key: Key, arg: Arg, run: nat)

  datatype State = State(
    pending: map<Key, nat>,
    inFlight: map<nat, Key>,
    started: map<nat, Arg>,
    settled: map<nat, Result<Value, ()>>,
    tickets: map<nat, Ticket>,
    next: nat)

  /** The steps between which the event loop may switch: a call, which runs up to the first await of its
      function, and the end of an execution. `throws` is for a plain function that throws before it returns a
      promise; an async function never does, its rejection is an end like any other. */
  datatype Event =
    | Call(caller: nat, key: Key, arg: Arg, throws: bool)
    | Settle(run: nat, outcome: Result<Value, ()>)

  predicate Enabled(s: State, e: Event) {
    match e
    case Call(caller, _, _, _) => caller !in s.tickets
    case Settle(run, _) => run in s.inFlight
  }

  function Step(s: State, e: Event): State
    requires Enabled(s, e)
  {
    match e
    case Call(caller, key, arg, throws) =>
      if key in s.pending then
        s.(tickets := s.tickets[caller := Ticket(key, arg, s.pending[key])])
      else
        var t := s.(started := s.started[s.next := arg],
                    tickets := s.tickets[caller := Ticket(key, arg, s.next)],
                    next := s.next + 1);
        // A function that throws at once runs the `finally` before the promise enters the map.
        if throws then t.(settled := s.settled[s.next := Err(())], pending := (s.pending - {key})[key := s.next])
        else t.(inFlight := s.inFlight[s.next := key], pending := s.pending[key := s.next])
    case Settle(run, outcome) =>
      s.(settled := s.settled[run := outcome],
         pending := s.pending - {s.inFlight[run]},
         inFlight := s.inFlight - {run})
  }

  function Initial(): State {
    State(map[], map[], map[], map[], map[], 0)
  }

  ghost predicate IsRun(s: State, es: seq<Event>)
    decreases |es|
  {
    es == [] || (Enabled(s, es[0]) && IsRun(Step(s, es[0]), es[1..]))
  }

  ghost function After(s: State, es: seq<Event>): State
    requires IsRun(s, es)
    decreases |es|
  {
    if es == [] then s else After(Step(s, es[0]), es[1..])
  }

  class Lock {
    var state: State

    constructor ()
      ensures state == Initial()
    {
      state := Initial();
    }

    method Run(caller: nat, key: Key, arg: Arg, throws: bool) returns (run: nat)
      requires caller !in state.tickets
      modifies this
      ensures state == Step(old(state), Call(caller, key, arg, throws))
      ensures state.tickets[caller].run == run
    {
      if key in state.pending {
        run := state.pending[key];
        state := state.(tickets := state.tickets[caller := Ticket(key, arg, run)]);
        return;
      }
      run := state.next;
      state := state.(next := run + 1, started := state.started[run := arg]);
      if throws {
        Finish(run, key, Err(()));
      } else {
        state := state.(inFlight := state.inFlight[run := key]);
      }
      state := state.(pending := state.pending[key := run], tickets := state.tickets[caller := Ticket(key, arg, run)]);
    }

    /** The `finally` of an execution and the settling of its promise. */
    method Finish(run: nat, key: Key, outcome: Result<Value, ()>)
      modifies this
      ensures state == old(state).(pending := old(state).pending - {key}, settled := old(state).settled[run := outcome])
    {
      state := state.(pending := state.pending - {key});
      state := state.(settled := state.settled[run := outcome]);
    }

    method Settled(run: nat, outcome: Result<Value, ()>)
      requires run in state.inFlight
      modifies this
      ensures state == Step(old(state), Settle(run, outcome))
    {
      Finish(run, state.inFlight[run], outcome);
      state := state.(inFlight := state.inFlight - {run});
    }
  }

  // ---------------------------------------------------------------- every interleaving

  /** Holds in every reachable state, synchronous throws included. */
  ghost predicate Inv(s: State) {
    && (forall r :: r in s.inFlight ==> s.inFlight[r] in s.pending && s.pending[s.inFlight[r]] == r)
    && (forall k :: k in s.pending ==>
          (s.pending[k] in s.inFlight && s.inFlight[s.pending[k]] == k)
          || (s.pending[k] in s.settled && s.settled[s.pending[k]].Err?))
    && (forall r :: r in s.inFlight ==> r !in s.settled)
    && (forall r :: r in s.started <==> r in s.inFlight || r in s.settled)
    && (forall r :: r in s.started ==> r < s.next)
    && (forall c :: c in s.tickets ==> s.tickets[c].run in s.started)
  }

  /** A key is in the map exactly while one execution for it is in flight. */
  ghost predicate SingleFlight(s: State) {
    && (forall k :: k in s.pending <==> exists r :: r in s.inFlight && s.inFlight[r] == k)
    && (forall r, r' :: r in s.inFlight && r' in s.inFlight && s.inFlight[r] == s.inFlight[r'] ==> r == r')
  }

  lemma StepKeepsInv(s: State, e: Event)
    requires Inv(s) && Enabled(s, e)
    ensures Inv(Step(s, e))
  {
    var t := Step(s, e);
    if e.Call? && e.key !in s.pending {
      CallKeepsInv(s, e, t);
    } else if e.Settle? {
      SettleKeepsInv(s, e, t);
    }
  }

  lemma CallKeepsInv(s: State, e: Event, t: State)
    requires Inv(s) && Enabled(s, e) && e.Call? && e.key !in s.pending && t == Step(s, e)
    ensures Inv(t)
  {
    assert s.next !in s.started && s.next !in s.inFlight && s.next !in s.settled;
    if e.throws {
      assert t.inFlight == s.inFlight && t.settled == s.settled[s.next := Err(())];
      assert t.pending == s.pending[e.key := s.next] by {
        assert s.pending - {e.key} == s.pending;
      }
    } else {
      assert t.settled == s.settled && t.inFlight == s.inFlight[s.next := e.key];
      assert t.pending == s.pending[e.key := s.next];
    }
    CallMapsFit(s, e.key, e.throws, t);
  }

  lemma CallMapsFit(s: State, key: Key, throws: bool, t: State)
    requires Inv(s) && key !in s.pending && s.next !in s.started
    requires t.pending == s.pending[key := s.next] && t.next == s.next + 1
    requires t.inFlight == if throws then s.inFlight else s.inFlight[s.next := key]
    requires t.settled == if throws then s.settled[s.next := Err(())] else s.settled
    requires t.started.Keys == s.started.Keys + {s.next}
    requires forall c :: c in t.tickets ==> (c in s.tickets && t.tickets[c] == s.tickets[c]) || t.tickets[c].run == s.next
    ensures Inv(t)
  {
    forall k | k in t.pending && k != key
      ensures (t.pending[k] in t.inFlight && t.inFlight[t.pending[k]] == k)
              || (t.pending[k] in t.settled && t.settled[t.pending[k]].Err?)
    {
      assert k in s.pending && s.pending[k] in s.started;
    }
  }

  lemma SettleKeepsInv(s: State, e: Event, t: State)
    requires Inv(s) && Enabled(s, e) && e.Settle? && t == Step(s, e)
    ensures Inv(t)
  {
    forall k | k in t.pending
      ensures (t.pending[k] in t.inFlight && t.inFlight[t.pending[k]] == k)
              || (t.pending[k] in t.settled && t.settled[t.pending[k]].Err?)
    {
      assert k in s.pending && k != s.inFlight[e.run];
    }
  }

  /** The call starts a plain function that throws instead of returning a promise. Both callers in the program
      pass async functions, so their runs are free of it. */
  predicate Poisons(s: State, e: Event) {
    e.Call? && e.throws && e.key !in s.pending
  }

  ghost predicate EverPoisoned(s: State, es: seq<Event>)
    requires IsRun(s, es)
    decreases |es|
  {
    es != [] && (Poisons(s, es[0]) || EverPoisoned(Step(s, es[0]), es[1..]))
  }

  ghost predicate Stuck(s: State, key: Key) {
    key in s.pending && s.pending[key] in s.settled
  }

  lemma SingleFlightIff(s: State)
    requires Inv(s)
    ensures SingleFlight(s) <==> forall k :: !Stuck(s, k)
  {
    if forall k :: !Stuck(s, k) {
      forall k | k in s.pending
        ensures exists r :: r in s.inFlight && s.inFlight[r] == k
      {
        assert !Stuck(s, k);
        assert s.pending[k] in s.inFlight;
      }
    }
  }

  /** The key's failed promise is still the one in the map, and whoever called under it since holds its failure. */
  ghost predicate StillStuck(s: State, t: State, key: Key)
    requires Stuck(s, key)
  {
    && Stuck(t, key) && t.pending[key] == s.pending[key]
    && (forall c :: c in t.tickets && c !in s.tickets && t.tickets[c].key == key ==> t.tickets[c].run == s.pending[key])
    && t.settled[s.pending[key]] == s.settled[s.pending[key]] && s.settled[s.pending[key]].Err?
    && (forall c :: c in s.tickets ==> c in t.tickets && t.tickets[c] == s.tickets[c])
  }

  lemma StuckStep(s: State, key: Key, e: Event)
    requires Inv(s) && Stuck(s, key) && Enabled(s, e)
    ensures StillStuck(s, Step(s, e), key)
  {
  }

  /** A stuck key stays stuck: no later call under it runs anything, and each is handed the old failure. */
  lemma {:induction false} StuckForever(s: State, key: Key, es: seq<Event>)
    requires Inv(s) && Stuck(s, key) && IsRun(s, es)
    ensures StillStuck(s, After(s, es), key)
    decreases |es|
  {
    if es != [] {
      StepKeepsInv(s, es[0]);
      StuckStep(s, key, es[0]);
      StuckForever(Step(s, es[0]), key, es[1..]);
    }
  }

  /** Over every interleaving: single flight holds afterwards exactly when no execution threw synchronously. */
  lemma {:induction false} SingleFlightExactly(s: State, es: seq<Event>)
    requires Inv(s) && SingleFlight(s) && IsRun(s, es)
    ensures Inv(After(s, es))
    ensures SingleFlight(After(s, es)) <==> !EverPoisoned(s, es)
    decreases |es|
  {
    if es != [] {
      var t := Step(s, es[0]);
      StepKeepsInv(s, es[0]);
      SingleFlightIff(s);
      SingleFlightIff(t);
      if Poisons(s, es[0]) {
        assert Stuck(t, es[0].key);
        StuckForever(t, es[0].key, es[1..]);
        AfterKeepsInv(t, es[1..]);
        SingleFlightIff(After(t, es[1..]));
      } else {
        forall k
          ensures !Stuck(t, k)
        {
          assert !Stuck(s, k);
        }
        SingleFlightExactly(t, es[1..]);
      }
    }
  }

  lemma {:induction false} AfterKeepsInv(s: State, es: seq<Event>)
    requires Inv(s) && IsRun(s, es)
    ensures Inv(After(s, es))
    decreases |es|
  {
    if es != [] {
      StepKeepsInv(s, es[0]);
      AfterKeepsInv(Step(s, es[0]), es[1..]);
    }
  }

  /** A call joins the execution in flight under its key, if there is one, and starts its own otherwise. */
  lemma CallJoinsOrStarts(s: State, caller: nat, key: Key, arg: Arg)
    requires Inv(s) && SingleFlight(s) && caller !in s.tickets
    ensures var t := Step(s, Call(caller, key, arg, false));
            var run := t.tickets[caller].run;
            && run in t.inFlight && t.inFlight[run] == key
            && (if key in s.pending then run in s.inFlight && t.started == s.started
                else run !in s.started && t.started == s.started[run := arg])
  {
    SingleFlightIff(s);
    assert !Stuck(s, key);
  }

  /** From then on the ticket, the argument the execution works on and, once there, its outcome never change:
      every caller receives the outcome of the execution it started or joined. */
  lemma {:induction false} TicketsHonoured(s: State, es: seq<Event>, c: nat)
    requires Inv(s) && IsRun(s, es) && c in s.tickets
    ensures var t := After(s, es);
            var run := s.tickets[c].run;
            && Inv(t)
            && c in t.tickets && t.tickets[c] == s.tickets[c]
            && run in t.started && t.started[run] == s.started[run]
            && (run in s.settled ==> run in t.settled && t.settled[run] == s.settled[run])
            && (run in t.settled <==> run !in t.inFlight)
    decreases |es|
  {
    if es != [] {
      var t := Step(s, es[0]);
      StepKeepsInv(s, es[0]);
      TicketKept(s, es[0], c);
      TicketsHonoured(t, es[1..], c);
    }
  }

  lemma TicketKept(s: State, e: Event, c: nat)
    requires Inv(s) && Enabled(s, e) && c in s.tickets
    ensures var t := Step(s, e);
            var run := s.tickets[c].run;
            && c in t.tickets && t.tickets[c] == s.tickets[c]
            && run in t.started && t.started[run] == s.started[run]
            && (run in s.settled ==> run in t.settled && t.settled[run] == s.settled[run])
  {
    assert s.tickets[c].run < s.next;
  }

  // ---------------------------------------------------------------- getPrayerTimes under the lock

  /** `fetch-${type}-${year}`: the date itself is not part of the key. */
  function LockKey(source: string, year: string): Key {
    "fetch-" + source + "-" + year
  }

  /** Each execution serves the date it was started for. */
  ghost predicate ServesItsDate(s: State) {
    forall r :: r in s.settled && s.settled[r].Ok? ==> r in s.started && s.settled[r].value == s.started[r]
  }

  ghost predicate HonestRun(s: State, es: seq<Event>)
    requires IsRun(s, es)
    decreases |es|
  {
    es != [] ==>
      && (es[0].Settle? && es[0].outcome.Ok? && es[0].run in s.started ==> es[0].outcome.value == s.started[es[0].run])
      && HonestRun(Step(s, es[0]), es[1..])
  }

  lemma {:induction false} ServedDates(s: State, es: seq<Event>)
    requires Inv(s) && IsRun(s, es) && HonestRun(s, es) && ServesItsDate(s)
    ensures ServesItsDate(After(s, es)) && Inv(After(s, es))
    decreases |es|
  {
    if es != [] {
      StepKeepsInv(s, es[0]);
      ServedDates(Step(s, es[0]), es[1..]);
    }
  }

  /** Known when the call is made: once answered, the caller gets its own date exactly when no execution is in
      flight under its key or the one in flight was started for that date, whatever happens in between. */
  lemma OwnDateExactly(s: State, caller: nat, key: Key, day: Arg, es: seq<Event>)
    requires Inv(s) && SingleFlight(s) && ServesItsDate(s) && caller !in s.tickets
    requires var t := Step(s, Call(caller, key, day, false)); IsRun(t, es) && HonestRun(t, es)
    ensures var t := Step(s, Call(caller, key, day, false));
            var u := After(t, es);
            var run := t.tickets[caller].run;
            && (key in s.pending ==> s.pending[key] in s.started)
            && (run in u.settled && u.settled[run].Ok? ==>
                  (u.settled[run].value == day <==> (key in s.pending ==> s.started[s.pending[key]] == day)))
  {
    var e := Call(caller, key, day, false);
    var t := Step(s, e);
    StepKeepsInv(s, e);
    CallJoinsOrStarts(s, caller, key, day);
    TicketsHonoured(t, es, caller);
    ServedDates(t, es);
  }

  /** So on a free key every caller gets its own date. */
  lemma FreeKeyOwnDate(s: State, caller: nat, key: Key, day: Arg, es: seq<Event>)
    requires Inv(s) && SingleFlight(s) && ServesItsDate(s) && caller !in s.tickets && key !in s.pending
    requires var t := Step(s, Call(caller, key, day, false)); IsRun(t, es) && HonestRun(t, es)
    ensures var t := Step(s, Call(caller, key, day, false));
            var u := After(t, es);
            var run := t.tickets[caller].run;
            run in u.settled && u.settled[run].Ok? ==> u.settled[run].value == day
  {
    OwnDateExactly(s, caller, key, day, es);
  }

  /** Two overlapping calls for different days of one year: the second caller is served the first one's day. */
  lemma WrongDay(source: string, year: string, day: int, other: int)
    requires day != other
    ensures var key := LockKey(source, year);
            var es: seq<Event> :=
              [Call(0, key, day, false), Call(1, key, other, false), Settle(0, Ok(day))];
            && IsRun(Initial(), es) && HonestRun(Initial(), es)
            && var t := After(Initial(), es);
               && 1 in t.tickets && t.tickets[1].arg == other
               && t.tickets[1].run in t.settled && t.settled[t.tickets[1].run] == Ok(day)
  {
    var key := LockKey(source, year);
    var e0: Event := Call(0, key, day, false);
    var e1: Event := Call(1, key, other, false);
    var e2: Event := Settle(0, Ok(day));
    var es := [e0, e1, e2];
    var s0: State := Initial();
    var s1 := Step(s0, e0);
    var s2 := Step(s1, e1);
    var s3 := Step(s2, e2);
    assert es[1..] == [e1, e2] && [e1, e2][1..] == [e2] && [e2][1..] == [];
    assert IsRun(s3, []) && IsRun(s2, [e2]) && IsRun(s1, [e1, e2]) && IsRun(s0, es);
    assert After(s2, [e2]) == s3;
    assert After(s1, [e1, e2]) == s3;
    assert After(s0, es) == s3;
    assert HonestRun(s2, [e2]) && HonestRun(s1, [e1, e2]);
  }
}
