/** getPrayerTimes and forceRefresh: a memory map and a file in front of two providers. */
module PrayerCache {
  import opened Outcomes
  import opened IqamahRule

  /** A calendar day, standing for its ISO date key. */
  type Date = int

  datatype Meta = Meta(source: string, lastFetched: int)

  /** The cache object: {} or one written by the service. */
  datatype Cache = Empty | Filled(meta: Meta, data: map<Date, Day>)

  datatype Disk = NoFile | CorruptFile | File(cache: Cache)

  datatype State = State(memory: Option<Cache>, disk: Disk)

  datatype Config = Config(primary: string, backup: Option<Backup>, prayers: PrayerConfig)
  datatype Backup = Backup(source: string, enabled: bool)

  /** What asking a provider comes to; a source without a type yields an empty map. */
  datatype Answer = Fails | FailsValidation | Yields(data: map<Date, Day>)

  datatype Error = ValidationError | FetchError | NotInResponse

  datatype Served = Served(date: Date, source: string, lastFetched: int, cached: bool, prayers: Day)

  /** What the world does during one call. */
  datatype World = World(primary: Answer, backup: Answer, now: int, written: bool)

  function DataOf(c: Cache): map<Date, Day> {
    if c.Filled? then c.data else map[]
  }

  function Content(d: Disk): Cache {
    if d.File? then d.cache else Empty
  }

  function Hit(c: Cache, date: Date, config: Config): Served
    requires date in DataOf(c)
  {
    Served(date, c.meta.source, c.meta.lastFetched, true, Applied(c.data[date], config.prayers))
  }

  /** Which sources are asked, and the source and map that come of it. */
  datatype Fetch = Fetch(asked: seq<string>, result: Result<(string, map<Date, Day>), Error>)

  function Fetched(config: Config, w: World): Fetch {
    if w.primary.Yields? && w.primary.data != map[] then Fetch([config.primary], Ok((config.primary, w.primary.data)))
    else if w.primary.FailsValidation? then Fetch([config.primary], Err(ValidationError))
    else if config.backup == None || !config.backup.value.enabled then Fetch([config.primary], Err(FetchError))
    else
      var asked := [config.primary, config.backup.value.source];
      if w.backup.Yields? && w.backup.data != map[] then Fetch(asked, Ok((config.backup.value.source, w.backup.data)))
      else Fetch(asked, Err(FetchError))
  }

  // ---------------------------------------------------------------- the two segments of a call

  datatype Look = Look(state: State, snapshot: Cache, hit: Option<Served>)

  /** Up to the remote fetch: memory, then the file, which also replaces the memory. */
  function Looked(s: State, config: Config, date: Date): Look {
    if s.memory.Some? && date in DataOf(s.memory.value) then
      Look(s, s.memory.value, Some(Hit(s.memory.value, date, config)))
    else
      var cache := Content(s.disk);
      Look(s.(memory := Some(cache)), cache, if date in DataOf(cache) then Some(Hit(cache, date, config)) else None)
  }

  /** From the providers' answers on; `snapshot` is the cache as read before the fetch. */
  function Landed(s: State, snapshot: Cache, config: Config, date: Date, w: World): (State, Result<Served, Error>) {
    match Fetched(config, w).result
    case Err(e) => (s, Err(e))
    case Ok((source, data)) =>
      var updated := Filled(Meta(source, w.now), DataOf(snapshot) + data);
      (if w.written then State(Some(updated), File(updated)) else s,
       if date in updated.data
       then Ok(Served(date, source, w.now, false, Applied(updated.data[date], config.prayers)))
       else Err(NotInResponse))
  }

  /** A call nobody interleaves with. */
  function Called(s: State, config: Config, date: Date, w: World): (State, Result<Served, Error>) {
    var look := Looked(s, config, date);
    if look.hit.Some? then (look.state, Ok(look.hit.value)) else Landed(look.state, look.snapshot, config, date, w)
  }

  function Refreshed(s: State, config: Config, today: Date, unlinked: bool, w: World): (State, Result<Served, Error>) {
    Called(State(None, if unlinked then NoFile else s.disk), config, today, w)
  }

  class PrayerTimeService {
    var memory: Option<Cache>
    var disk: Disk

    constructor (disk: Disk)
      ensures Snapshot() == State(None, disk)
    {
      memory := None;
      this.disk := disk;
    }

    function Snapshot(): State
      reads this
    {
      State(memory, disk)
    }

    method ReadCache() returns (cache: Cache)
      modifies this`memory
      ensures cache == Content(disk) && memory == Some(cache)
    {
      match disk {
        case File(content) => cache := content;
        case _ => cache := Empty;
      }
      memory := Some(cache);
    }

    method WriteCache(cache: Cache, written: bool)
      modifies this
      ensures Snapshot() == if written then State(Some(cache), File(cache)) else old(Snapshot())
    {
      if written {
        disk := File(cache);
        memory := Some(cache);
      }
    }

    method GetPrayerTimes(config: Config, date: Date, w: World) returns (r: Result<Served, Error>, asked: seq<string>)
      modifies this
      ensures (Snapshot(), r) == Called(old(Snapshot()), config, date, w)
      ensures asked == Asked(old(Snapshot()), config, date, w)
    {
      asked := [];
      if memory.Some? && memory.value.Filled? && date in memory.value.data {
        r := Ok(Served(date, memory.value.meta.source, memory.value.meta.lastFetched, true,
                       Applied(memory.value.data[date], config.prayers)));
        return;
      }
      var cache := ReadCache();
      if cache.Filled? && date in cache.data {
        r := Ok(Served(date, cache.meta.source, cache.meta.lastFetched, true, Applied(cache.data[date], config.prayers)));
        return;
      }
      var data: map<Date, Day> := map[];
      var sourceUsed := config.primary;
      asked := [config.primary];
      if w.primary.Yields? {
        data := w.primary.data;
      }
      if data == map[] {
        if w.primary.FailsValidation? {
          r := Err(ValidationError);
          return;
        }
        if config.backup.Some? && config.backup.value.enabled {
          asked := asked + [config.backup.value.source];
          if w.backup.Yields? {
            data := w.backup.data;
            sourceUsed := config.backup.value.source;
          }
        }
        if data == map[] {
          r := Err(FetchError);
          return;
        }
      }
      var updated := Filled(Meta(sourceUsed, w.now), DataOf(cache) + data);
      WriteCache(updated, w.written);
      if date !in updated.data {
        r := Err(NotInResponse);
        return;
      }
      r := Ok(Served(date, sourceUsed, w.now, false, Applied(updated.data[date], config.prayers)));
    }

    method ForceRefresh(config: Config, today: Date, unlinked: bool, w: World) returns (r: Result<Served, Error>)
      modifies this
      ensures (Snapshot(), r) == Refreshed(old(Snapshot()), config, today, unlinked, w)
    {
      memory := None;
      if unlinked {
        disk := NoFile;
      }
      var asked;
      r, asked := GetPrayerTimes(config, today, w);
    }
  }

  // ---------------------------------------------------------------- runs without overlap

  datatype Event =
    | Get(config: Config, date: Date, w: World)
    | Refresh(config: Config, date: Date, unlinked: bool, w: World)

  function Step(s: State, e: Event): (State, Result<Served, Error>) {
    match e
    case Get(config, date, w) => Called(s, config, date, w)
    case Refresh(config, date, unlinked, w) => Refreshed(s, config, date, unlinked, w)
  }

  function Run(s: State, es: seq<Event>): State
    decreases |es|
  {
    if es == [] then s else Run(Step(s, es[0]).0, es[1..])
  }

  // ---------------------------------------------------------------- what a call is to answer and to keep

  /** What the providers give a call that asks them: the primary's map if there is anything in it, else the enabled
      backup's unless the primary raised a validation error, with the source's name. */
  function Delivered(config: Config, w: World): Option<(string, map<Date, Day>)> {
    if w.primary.Yields? && w.primary.data != map[] then Some((config.primary, w.primary.data))
    else if !w.primary.FailsValidation? && config.backup.Some? && config.backup.value.enabled
            && w.backup.Yields? && w.backup.data != map[] then Some((config.backup.value.source, w.backup.data))
    else None
  }

  /** The file's days. */
  function Stored(d: Disk): map<Date, Day> {
    if d.File? && d.cache.Filled? then d.cache.data else map[]
  }

  predicate InMemory(s: State, date: Date) {
    s.memory.Some? && s.memory.value.Filled? && date in s.memory.value.data
  }

  /** A fresh answer: the delivered day, else the stored one, with its overrides applied and marked as just fetched. */
  ghost predicate FreshAnswer(r: Result<Served, Error>, config: Config, date: Date, source: string, now: int,
                              stored: map<Date, Day>, data: map<Date, Day>) {
    if date in data then r == Ok(Served(date, source, now, false, Applied(data[date], config.prayers)))
    else if date in stored then r == Ok(Served(date, source, now, false, Applied(stored[date], config.prayers)))
    else r == Err(NotInResponse)
  }

  /** A cached answer: the cache's own day with the present overrides, marked with its source and time. */
  ghost predicate CachedAnswer(r: Result<Served, Error>, config: Config, date: Date, c: Cache)
    requires c.Filled? && date in c.data
  {
    r == Ok(Served(date, c.meta.source, c.meta.lastFetched, true, Applied(c.data[date], config.prayers)))
  }

  /** A call nobody interleaves with, from what it finds and what the providers give. The memory answers first, then the
      file, which becomes the memory. Else a delivery answers, laid over the stored days, and a successful write leaves
      just these days under the new source and time in file and memory; without one the call fails and only the memory
      has become the file's content. */
  lemma CallSays(s: State, config: Config, date: Date, w: World)
    ensures var (t, r) := Called(s, config, date, w);
            if InMemory(s, date) then t == s && CachedAnswer(r, config, date, s.memory.value)
            else if date in Stored(s.disk) then
              t == State(Some(s.disk.cache), s.disk) && CachedAnswer(r, config, date, s.disk.cache)
            else match Delivered(config, w)
              case Some((source, data)) =>
                && FreshAnswer(r, config, date, source, w.now, Stored(s.disk), data)
                && var days := Filled(Meta(source, w.now), Stored(s.disk) + data);
                   t == if w.written then State(Some(days), File(days))
                        else State(Some(if s.disk.File? then s.disk.cache else Empty), s.disk)
              case None =>
                && r == Err(if w.primary.FailsValidation? then ValidationError else FetchError)
                && t == State(Some(if s.disk.File? then s.disk.cache else Empty), s.disk)
  {
  }

  lemma FetchedIsDelivered(config: Config, w: World)
    ensures Fetched(config, w).result.Ok? <==> Delivered(config, w).Some?
    ensures Fetched(config, w).result.Ok? ==> Fetched(config, w).result.value == Delivered(config, w).value
  {
  }

  // ---------------------------------------------------------------- histories

  /** The state in which the call behind an event starts, and the maps that count by then. */
  function Before(s: State, e: Event): State {
    if e.Refresh? then State(None, if e.unlinked then NoFile else s.disk) else s
  }

  function Base(kept: seq<map<Date, Day>>, e: Event): seq<map<Date, Day>> {
    if e.Refresh? && e.unlinked then [] else kept
  }

  /** The map a call fetches and writes, if any. */
  function Written(s: State, config: Config, date: Date, w: World): seq<map<Date, Day>> {
    if !InMemory(s, date) && date !in Stored(s.disk) && Delivered(config, w).Some? && w.written
    then [Delivered(config, w).value.1] else []
  }

  /** The provider maps written since the file was last removed, oldest first; `kept` is what came before. */
  function History(s: State, kept: seq<map<Date, Day>>, es: seq<Event>): seq<map<Date, Day>>
    decreases |es|
  {
    if es == [] then kept
    else
      var e := es[0];
      History(Step(s, e).0, Base(kept, e) + Written(Before(s, e), e.config, e.date, e.w), es[1..])
  }

  /** The newest of the maps that has an entry for the day decides. */
  function Latest(maps: seq<map<Date, Day>>, date: Date): Option<Day>
    decreases |maps|
  {
    if maps == [] then None
    else if date in maps[|maps| - 1] then Some(maps[|maps| - 1][date])
    else Latest(maps[..|maps| - 1], date)
  }

  function Lookup(m: map<Date, Day>, date: Date): Option<Day> {
    if date in m then Some(m[date]) else None
  }

  ghost predicate Inv(s: State, history: seq<map<Date, Day>>) {
    && (forall d :: Lookup(DataOf(Content(s.disk)), d) == Latest(history, d))
    && (s.memory.Some? ==> s.memory.value == Empty || s.disk == File(s.memory.value))
  }

  /** What one call answers, in terms of the maps written before it. */
  ghost predicate AnsweredRight(s: State, history: seq<map<Date, Day>>, config: Config, date: Date, w: World) {
    var r := Called(s, config, date, w).1;
    r.Ok? ==>
      && r.value.date == date
      && (r.value.cached ==> Latest(history, date).Some?
                             && r.value.prayers == Applied(Latest(history, date).value, config.prayers))
      && (!r.value.cached ==>
            && Delivered(config, w).Some?
            && r.value.source == Delivered(config, w).value.0
            && var all := history + [Delivered(config, w).value.1];
               Latest(all, date).Some? && r.value.prayers == Applied(Latest(all, date).value, config.prayers))
  }

  lemma LatestAppend(maps: seq<map<Date, Day>>, m: map<Date, Day>, d: Date)
    ensures Latest(maps + [m], d) == if d in m then Some(m[d]) else Latest(maps, d)
  {
    assert (maps + [m])[..|maps|] == maps;
  }

  lemma LookMeetsHistory(s: State, history: seq<map<Date, Day>>, config: Config, date: Date)
    requires Inv(s, history)
    ensures var look := Looked(s, config, date);
            && Inv(look.state, history)
            && (look.hit.Some? ==> Latest(history, date).Some? && look.hit.value.cached && look.hit.value.date == date
                                   && look.hit.value.prayers == Applied(Latest(history, date).value, config.prayers))
            && (look.hit == None ==> look.snapshot == Content(s.disk))
  {
    assert Lookup(DataOf(Content(s.disk)), date) == Latest(history, date);
  }

  lemma LandMeetsHistory(s: State, history: seq<map<Date, Day>>, config: Config, date: Date, w: World)
    requires Inv(s, history) && Fetched(config, w).result.Ok?
    ensures var (t, r) := Landed(s, Content(s.disk), config, date, w);
            var all := history + [Fetched(config, w).result.value.1];
            && Inv(t, if w.written then all else history)
            && (r.Ok? ==> !r.value.cached && r.value.date == date && r.value.source == Fetched(config, w).result.value.0
                          && Latest(all, date).Some?
                          && r.value.prayers == Applied(Latest(all, date).value, config.prayers))
  {
    var m := Fetched(config, w).result.value.1;
    var merged := DataOf(Content(s.disk)) + m;
    forall d
      ensures Lookup(merged, d) == Latest(history + [m], d)
    {
      LatestAppend(history, m, d);
      assert Lookup(DataOf(Content(s.disk)), d) == Latest(history, d);
    }
    assert Lookup(merged, date) == Latest(history + [m], date);
  }

  lemma CallMeetsHistory(s: State, history: seq<map<Date, Day>>, config: Config, date: Date, w: World)
    requires Inv(s, history)
    ensures AnsweredRight(s, history, config, date, w)
    ensures Inv(Called(s, config, date, w).0, history + Written(s, config, date, w))
  {
    LookMeetsHistory(s, history, config, date);
    FetchedIsDelivered(config, w);
    var look := Looked(s, config, date);
    assert look.hit == None <==> !InMemory(s, date) && date !in Stored(s.disk);
    assert history + [] == history;
    if look.hit == None && Fetched(config, w).result.Ok? {
      LandMeetsHistory(look.state, history, config, date, w);
    }
  }

  /** Over every run of calls that do not overlap, whatever providers, writes and unlinks do: the file holds
      the left-to-right override of the maps written since it was last removed, memory is null, empty or
      equal to the file, and each answer is the override of the latest value fetched for that day. */
  lemma {:induction false} CacheMeetsHistory(s: State, history: seq<map<Date, Day>>, es: seq<Event>, e: Event)
    requires Inv(s, history)
    ensures var (t, h) := (Run(s, es), History(s, history, es));
            Inv(t, h) && AnsweredRight(Before(t, e), Base(h, e), e.config, e.date, e.w)
    decreases |es|
  {
    if es == [] {
      CallMeetsHistory(Before(s, e), Base(history, e), e.config, e.date, e.w);
    } else {
      var first := es[0];
      CallMeetsHistory(Before(s, first), Base(history, first), first.config, first.date, first.w);
      CacheMeetsHistory(Step(s, first).0,
                        Base(history, first) + Written(Before(s, first), first.config, first.date, first.w),
                        es[1..], e);
    }
  }

  /** A service that starts over an existing file counts its content as the only map so far, over none as none. */
  lemma ServiceStarts(disk: Disk)
    ensures Inv(State(None, disk), [DataOf(Content(disk))])
    ensures Content(disk) == Empty ==> Inv(State(None, disk), [])
  {
    forall d
      ensures Latest([DataOf(Content(disk))], d) == Lookup(DataOf(Content(disk)), d)
    {
      LatestAppend([], DataOf(Content(disk)), d);
      assert [] + [DataOf(Content(disk))] == [DataOf(Content(disk))];
    }
  }

  // ---------------------------------------------------------------- failover and refresh

  /** The sources a call asks, in order. */
  function Asked(s: State, config: Config, date: Date, w: World): seq<string> {
    if Looked(s, config, date).hit.Some? then [] else Fetched(config, w).asked
  }

  /** What the backup would say matters to a call exactly when the caches miss, the primary fails other than by
      validation or has nothing, and the backup is enabled; and that is when it is asked. */
  lemma BackupHeardIff(s: State, config: Config, date: Date, w: World)
    ensures (forall any :: Called(s, config, date, w.(backup := any)) == Called(s, config, date, w))
            <==> |Asked(s, config, date, w)| < 2
    ensures |Asked(s, config, date, w)| == 2 <==>
              && Looked(s, config, date).hit == None
              && !w.primary.FailsValidation? && !(w.primary.Yields? && w.primary.data != map[])
              && config.backup.Some? && config.backup.value.enabled
  {
    if |Asked(s, config, date, w)| == 2 {
      var silent, speaks := Fails, Yields(map[date := Day(map[], map[])]);
      assert date in map[date := Day(map[], map[])];
      assert Called(s, config, date, w.(backup := silent)).1 == Err(FetchError);
      assert Called(s, config, date, w.(backup := speaks)).1.Ok?;
    }
  }

  /** A fresh answer names a source that yielded a map with something in it: the primary, or the backup only after
      a primary that did not; and a validation error reaches the caller exactly when the primary raised it. */
  lemma FailoverRules(s: State, config: Config, date: Date, w: World)
    ensures var r := Called(s, config, date, w).1;
            && (r.Ok? && !r.value.cached ==>
                  if w.primary.Yields? && w.primary.data != map[] then r.value.source == config.primary
                  else config.backup.Some? && r.value.source == config.backup.value.source
                       && w.backup.Yields? && w.backup.data != map[] && !w.primary.FailsValidation?)
            && (r == Err(ValidationError) <==> Looked(s, config, date).hit == None && w.primary.FailsValidation?)
  {
  }

  /** A forceRefresh that no other call overlaps answers from the cache exactly when the file could not be removed and has
      the day; in particular never after a successful unlink or without a file. LockedCache has the overlaps. */
  lemma RefreshIsUncachedExactly(s: State, config: Config, today: Date, unlinked: bool, w: World)
    ensures var r := Refreshed(s, config, today, unlinked, w).1;
            r.Ok? ==> (r.value.cached <==> !unlinked && today in DataOf(Content(s.disk)))
    ensures !unlinked && today in DataOf(Content(s.disk)) ==> Refreshed(s, config, today, unlinked, w).1.Ok?
  {
  }

  // ---------------------------------------------------------------- overlap

  /** Two fetches under different lock keys, the second reading the cache before the first has written: of the days
      the first brought, exactly those remain that the second brought too or the shared snapshot already had. */
  lemma OverlapKeepsExactly(s: State, config: Config, a: Date, wa: World, b: Date, wb: World, d: Date)
    requires Looked(s, config, a).hit == None && Looked(Looked(s, config, a).state, config, b).hit == None
    requires wa.written && wb.written && Delivered(config, wa).Some? && Delivered(config, wb).Some?
    requires d in Delivered(config, wa).value.1
    ensures var first := Looked(s, config, a);
            var second := Looked(first.state, config, b);
            var afterFirst := Landed(second.state, first.snapshot, config, a, wa).0;
            var afterBoth := Landed(afterFirst, second.snapshot, config, b, wb).0;
            && d in DataOf(Content(afterFirst.disk))
            && (d in DataOf(Content(afterBoth.disk)) <==>
                  d in Delivered(config, wb).value.1 || d in DataOf(Content(s.disk)))
            && afterBoth.memory == Some(Content(afterBoth.disk))
  {
  }

  /** The overlap leaves what the second fetch would have left had it read the cache after the first write, exactly
      when each day the first brought is in the second's map or unchanged from the shared snapshot. */
  lemma OverlapHarmlessIff(s: State, config: Config, a: Date, wa: World, b: Date, wb: World)
    requires Looked(s, config, a).hit == None && Looked(Looked(s, config, a).state, config, b).hit == None
    requires wa.written && wb.written && Delivered(config, wa).Some? && Delivered(config, wb).Some?
    ensures var first := Looked(s, config, a);
            var second := Looked(first.state, config, b);
            var afterFirst := Landed(second.state, first.snapshot, config, a, wa).0;
            var overlapped := Landed(afterFirst, second.snapshot, config, b, wb).0;
            var inTurn := Landed(afterFirst, Content(afterFirst.disk), config, b, wb).0;
            var (da, db) := (Delivered(config, wa).value.1, Delivered(config, wb).value.1);
            DataOf(Content(overlapped.disk)) == DataOf(Content(inTurn.disk)) <==>
              forall d :: d in da ==> d in db || Lookup(DataOf(Content(s.disk)), d) == Some(da[d])
  {
    var da, db := Delivered(config, wa).value.1, Delivered(config, wb).value.1;
    OverrideIff(DataOf(Content(s.disk)), da, db);
  }

  lemma OverrideIff(base: map<Date, Day>, da: map<Date, Day>, db: map<Date, Day>)
    ensures base + db == base + da + db <==> forall d :: d in da ==> d in db || Lookup(base, d) == Some(da[d])
  {
    var x, y := base + db, base + da + db;
    if x == y {
      forall d | d in da && d !in db
        ensures Lookup(base, d) == Some(da[d])
      {
        assert y[d] == da[d] && d in x && x[d] == base[d];
      }
    }
    if forall d :: d in da ==> d in db || Lookup(base, d) == Some(da[d]) {
      forall d
        ensures d in y ==> d in x && x[d] == y[d]
      {
        if d in da && d !in db {
          assert Lookup(base, d) == Some(da[d]);
        }
      }
      assert x == y;
    }
  }
}
