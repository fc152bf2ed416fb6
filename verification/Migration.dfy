/** MigrationService.migrateConfig: four chained schema migrations. */
module Migration {
  import opened Outcomes
  import opened JsonTree
  import opened ConfigMerge

  const VERSION: Path := ["version"]
  const AUTOMATION: Path := ["automation"]
  const OUTPUTS: Path := ["automation", "outputs"]
  const VOICEMONKEY: Path := ["automation", "outputs", "voicemonkey"]
  const LEGACY: Path := ["automation", "voiceMonkey"]
  const SOURCES: Path := ["sources"]
  const PRIMARY: Path := ["sources", "primary"]
  const CALCULATION: Path := ["calculation"]
  const SYSTEM: Path := ["system"]
  const HEALTH: Path := ["system", "healthChecks"]
  const SECURITY: Path := ["security"]
  const TOKEN_VERSION: Path := ["security", "tokenVersion"]

  const CALCULATION_FIELDS: seq<string> := ["method", "madhab", "latitudeAdjustmentMethod", "midnightMode"]

  function Version(c: Option<Json>): Option<Json> {
    Get(c, VERSION)
  }

  function SetVersion(c: Option<Json>, n: real): Option<Json> {
    SetAt(c, VERSION, Some(Num(n)))
  }

  /** if (!section) section = {} */
  function Ensure(c: Option<Json>, p: Path): Option<Json> {
    if Truthy(Get(c, p)) then c else SetAt(c, p, Some(Obj(map[])))
  }

  /** The output block built from the legacy one; undefined parameters leave no trace in JSON. */
  function VoiceOutput(legacy: Option<Json>): Json {
    var token, device := Child(legacy, "token"), Child(legacy, "device");
    Obj(map[
          "enabled" := Bool(Truthy(Child(legacy, "enabled"))),
          "leadTimeMs" := Num(0.0),
          "params" := Obj((if token.Some? then map["token" := token.value] else map[])
                          + (if device.Some? then map["device" := device.value] else map[]))
        ])
  }

  function V1toV2(c: Option<Json>): Option<Json> {
    var c1 := Ensure(Ensure(SetVersion(c, 2.0), AUTOMATION), OUTPUTS);
    var legacy := Get(c1, LEGACY);
    if Truthy(legacy)
    then SetAt(SetAt(c1, VOICEMONKEY, Some(VoiceOutput(legacy))), LEGACY, None)
    else c1
  }

  function CopyFields(c: Option<Json>, from: Path, to: Path, keys: seq<string>): Option<Json>
    decreases |keys|
  {
    if keys == [] then c
    else CopyFields(SetAt(c, to + [keys[0]], Get(c, from + [keys[0]])), from, to, keys[1..])
  }

  function V2toV3(c: Option<Json>): Option<Json> {
    var c1 := SetVersion(c, 3.0);
    if Truthy(Get(c1, CALCULATION)) && Truthy(Get(c1, SOURCES)) && Truthy(Get(c1, PRIMARY)) then
      var c2 := if Get(c1, PRIMARY + ["type"]) == Some(Str("aladhan"))
                then CopyFields(c1, CALCULATION, PRIMARY, CALCULATION_FIELDS)
                else c1;
      SetAt(c2, CALCULATION, None)
    else c1
  }

  function V3toV4(c: Option<Json>): Option<Json> {
    var c1 := Ensure(SetVersion(c, 4.0), SYSTEM);
    if Truthy(Get(c1, HEALTH)) then c1
    else SetAt(c1, HEALTH, Some(Obj(map["api" := Bool(true), "tts" := Bool(true)])))
  }

  function V4toV5(c: Option<Json>): Option<Json> {
    var c1 := Ensure(SetVersion(c, 5.0), SECURITY);
    if Get(c1, TOKEN_VERSION).Some? then c1 else SetAt(c1, TOKEN_VERSION, Some(Num(1.0)))
  }

  function MigrateFrom2(c: Option<Json>): Option<Json> {
    var c3 := if Version(c) == Some(Num(2.0)) then V2toV3(c) else c;
    var c4 := if Version(c3) == Some(Num(3.0)) then V3toV4(c3) else c3;
    if Version(c4) == Some(Num(4.0)) then V4toV5(c4) else c4
  }

  function Migrate(c: Option<Json>): Option<Json> {
    MigrateFrom2(if !Truthy(Version(c)) || Version(c) == Some(Num(1.0)) then V1toV2(c) else c)
  }

  // ---------------------------------------------------------------- the edits in place

  class MigrationRun {
    var config: Option<Json>

    constructor (config: Option<Json>)
      ensures this.config == config
    {
      this.config := config;
    }

    method Put(p: Path, v: Option<Json>)
      modifies this
      ensures config == SetAt(old(config), p, v)
    {
      config := SetAt(config, p, v);
    }

    method MigrateV1toV2()
      modifies this
      ensures config == V1toV2(old(config))
    {
      Put(VERSION, Some(Num(2.0)));
      if !Truthy(Get(config, AUTOMATION)) {
        Put(AUTOMATION, Some(Obj(map[])));
      }
      if !Truthy(Get(config, OUTPUTS)) {
        Put(OUTPUTS, Some(Obj(map[])));
      }
      var legacy := Get(config, LEGACY);
      if Truthy(legacy) {
        Put(VOICEMONKEY, Some(VoiceOutput(legacy)));
        Put(LEGACY, None);
      }
    }

    method MigrateV2toV3()
      modifies this
      ensures config == V2toV3(old(config))
    {
      Put(VERSION, Some(Num(3.0)));
      if Truthy(Get(config, CALCULATION)) && Truthy(Get(config, SOURCES)) && Truthy(Get(config, PRIMARY)) {
        if Get(config, PRIMARY + ["type"]) == Some(Str("aladhan")) {
          ghost var start := config;
          var keys := CALCULATION_FIELDS;
          for i := 0 to |keys|
            invariant CopyFields(config, CALCULATION, PRIMARY, keys[i..])
                      == CopyFields(start, CALCULATION, PRIMARY, keys)
          {
            assert keys[i..][1..] == keys[i + 1..];
            Put(PRIMARY + [keys[i]], Get(config, CALCULATION + [keys[i]]));
          }
        }
        Put(CALCULATION, None);
      }
    }

    method MigrateV3toV4()
      modifies this
      ensures config == V3toV4(old(config))
    {
      Put(VERSION, Some(Num(4.0)));
      if !Truthy(Get(config, SYSTEM)) {
        Put(SYSTEM, Some(Obj(map[])));
      }
      if !Truthy(Get(config, HEALTH)) {
        Put(HEALTH, Some(Obj(map["api" := Bool(true), "tts" := Bool(true)])));
      }
    }

    method MigrateV4toV5()
      modifies this
      ensures config == V4toV5(old(config))
    {
      Put(VERSION, Some(Num(5.0)));
      if !Truthy(Get(config, SECURITY)) {
        Put(SECURITY, Some(Obj(map[])));
      }
      if Get(config, TOKEN_VERSION) == None {
        Put(TOKEN_VERSION, Some(Num(1.0)));
      }
    }

    method MigrateConfig()
      modifies this
      ensures config == Migrate(old(config))
    {
      if !Truthy(Version(config)) || Version(config) == Some(Num(1.0)) {
        MigrateV1toV2();
      }
      if Version(config) == Some(Num(2.0)) {
        MigrateV2toV3();
      }
      if Version(config) == Some(Num(3.0)) {
        MigrateV3toV4();
      }
      if Version(config) == Some(Num(4.0)) {
        MigrateV4toV5();
      }
    }
  }

  // ---------------------------------------------------------------- untouched positions

  /** Every position one of the four steps names. */
  function NamedPaths(): seq<Path> {
    [VERSION, VOICEMONKEY, LEGACY, CALCULATION, HEALTH, TOKEN_VERSION,
     PRIMARY + ["method"], PRIMARY + ["madhab"], PRIMARY + ["latitudeAdjustmentMethod"], PRIMARY + ["midnightMode"]]
  }

  ghost predicate Unnamed(p: Path) {
    forall q :: q in NamedPaths() ==> Apart(q, p)
  }

  lemma SetAtElsewhere(c: Option<Json>, q: Path, v: Option<Json>, p: Path)
    requires Apart(q, p)
    ensures Get(SetAt(c, q, v), p) == Get(c, p)
  {
    GetUpdateApart(c, q, q, Constantly(v), p);
  }

  lemma GetAppend(c: Option<Json>, p: Path, k: string)
    ensures Get(c, p + [k]) == Child(Get(c, p), k)
    decreases |p|
  {
    if p != [] {
      assert (p + [k])[0] == p[0] && (p + [k])[1..] == p[1..] + [k];
      GetAppend(Child(c, p[0]), p[1..], k);
    }
  }

  lemma {:induction false} GetSplit(c: Option<Json>, p: Path, q: Path)
    ensures Get(c, p + q) == Get(Get(c, p), q)
    decreases |p|
  {
    if p == [] {
      assert p + q == q;
    } else {
      assert (p + q)[0] == p[0] && (p + q)[1..] == p[1..] + q;
      GetSplit(Child(c, p[0]), p[1..], q);
    }
  }

  /** Creating an empty section changes nothing below it. */
  lemma EnsureInvisible(c: Option<Json>, q: Path, p: Path)
    requires Apart(q, p) || (q <= p && q != p)
    ensures Get(Ensure(c, q), p) == Get(c, p)
  {
    if !Truthy(Get(c, q)) {
      if Apart(q, p) {
        SetAtElsewhere(c, q, Some(Obj(map[])), p);
      } else {
        var rest := p[|q|..];
        assert p == q + rest && rest != [];
        GetSplit(c, q, rest);
        GetSplit(Ensure(c, q), q, rest);
        GetUpdateSame(c, q, q, Constantly(Some(Obj(map[]))));
        GetNone(rest[1..]);
      }
    }
  }

  lemma {:induction false} PrefixOrApart(q: Path, p: Path)
    ensures Apart(q, p) || q <= p || p <= q
    decreases |p|
  {
    if p != [] && q != [] && p[0] == q[0] {
      PrefixOrApart(q[1..], p[1..]);
      assert q == [q[0]] + q[1..] && p == [p[0]] + p[1..];
    }
  }

  lemma {:induction false} ApartIsNotPrefix(q: Path, p: Path)
    requires Apart(q, p)
    ensures !(p <= q) && !(q <= p)
    decreases |p|
  {
    if p[0] == q[0] {
      assert p <= q ==> p[1..] <= q[1..];
      assert q <= p ==> q[1..] <= p[1..];
      ApartIsNotPrefix(q[1..], p[1..]);
    }
  }

  /** A section above a named position is apart from p or strictly above it. */
  lemma SectionAbove(section: Path, named: Path, p: Path)
    requires section <= named && Apart(named, p)
    ensures Apart(section, p) || (section <= p && section != p)
  {
    ApartIsNotPrefix(named, p);
    PrefixOrApart(section, p);
  }

  lemma NamedHelp()
    ensures forall q :: q in {VERSION, VOICEMONKEY, LEGACY, CALCULATION, HEALTH, TOKEN_VERSION} ==> q in NamedPaths()
    ensures forall k :: k in CALCULATION_FIELDS ==> PRIMARY + [k] in NamedPaths()
  {
    var n := NamedPaths();
    assert n[0] == VERSION && n[1] == VOICEMONKEY && n[2] == LEGACY && n[3] == CALCULATION;
    assert n[4] == HEALTH && n[5] == TOKEN_VERSION;
    assert forall i :: 0 <= i < 4 ==> PRIMARY + [CALCULATION_FIELDS[i]] == n[6 + i];
  }

  lemma V1toV2Spares(c: Option<Json>, p: Path)
    requires Unnamed(p)
    ensures Get(V1toV2(c), p) == Get(c, p)
  {
    NamedHelp();
    var c0 := SetVersion(c, 2.0);
    var c1 := Ensure(c0, AUTOMATION);
    var c2 := Ensure(c1, OUTPUTS);
    SetAtElsewhere(c, VERSION, Some(Num(2.0)), p);
    SectionAbove(AUTOMATION, VOICEMONKEY, p);
    SectionAbove(OUTPUTS, VOICEMONKEY, p);
    EnsureInvisible(c0, AUTOMATION, p);
    EnsureInvisible(c1, OUTPUTS, p);
    var legacy := Get(c2, LEGACY);
    SetAtElsewhere(c2, VOICEMONKEY, Some(VoiceOutput(legacy)), p);
    SetAtElsewhere(SetAt(c2, VOICEMONKEY, Some(VoiceOutput(legacy))), LEGACY, None, p);
  }

  lemma {:induction false} CopySpares(c: Option<Json>, from: Path, to: Path, keys: seq<string>, p: Path)
    requires forall k :: k in keys ==> Apart(to + [k], p)
    ensures Get(CopyFields(c, from, to, keys), p) == Get(c, p)
    decreases |keys|
  {
    if keys != [] {
      assert keys[0] in keys;
      SetAtElsewhere(c, to + [keys[0]], Get(c, from + [keys[0]]), p);
      CopySpares(SetAt(c, to + [keys[0]], Get(c, from + [keys[0]])), from, to, keys[1..], p);
    }
  }

  lemma V2toV3Spares(c: Option<Json>, p: Path)
    requires Unnamed(p)
    ensures Get(V2toV3(c), p) == Get(c, p)
  {
    NamedHelp();
    var c1 := SetVersion(c, 3.0);
    SetAtElsewhere(c, VERSION, Some(Num(3.0)), p);
    CopySpares(c1, CALCULATION, PRIMARY, CALCULATION_FIELDS, p);
    SetAtElsewhere(c1, CALCULATION, None, p);
    SetAtElsewhere(CopyFields(c1, CALCULATION, PRIMARY, CALCULATION_FIELDS), CALCULATION, None, p);
  }

  lemma V3toV4Spares(c: Option<Json>, p: Path)
    requires Unnamed(p)
    ensures Get(V3toV4(c), p) == Get(c, p)
  {
    NamedHelp();
    var c0 := SetVersion(c, 4.0);
    SetAtElsewhere(c, VERSION, Some(Num(4.0)), p);
    SectionAbove(SYSTEM, HEALTH, p);
    EnsureInvisible(c0, SYSTEM, p);
    SetAtElsewhere(Ensure(c0, SYSTEM), HEALTH, Some(Obj(map["api" := Bool(true), "tts" := Bool(true)])), p);
  }

  lemma V4toV5Spares(c: Option<Json>, p: Path)
    requires Unnamed(p)
    ensures Get(V4toV5(c), p) == Get(c, p)
  {
    NamedHelp();
    var c0 := SetVersion(c, 5.0);
    SetAtElsewhere(c, VERSION, Some(Num(5.0)), p);
    SectionAbove(SECURITY, TOKEN_VERSION, p);
    EnsureInvisible(c0, SECURITY, p);
    SetAtElsewhere(Ensure(c0, SECURITY), TOKEN_VERSION, Some(Num(1.0)), p);
  }

  /** Whatever the version, a value at a position apart from the named ones is what it was. */
  lemma MigrateSpares(c: Option<Json>, p: Path)
    requires Unnamed(p)
    ensures Get(Migrate(c), p) == Get(c, p)
  {
    V1toV2Spares(c, p);
    var c2 := if !Truthy(Version(c)) || Version(c) == Some(Num(1.0)) then V1toV2(c) else c;
    V2toV3Spares(c2, p);
    var c3 := if Version(c2) == Some(Num(2.0)) then V2toV3(c2) else c2;
    V3toV4Spares(c3, p);
    var c4 := if Version(c3) == Some(Num(3.0)) then V3toV4(c3) else c3;
    V4toV5Spares(c4, p);
  }

  // ---------------------------------------------------------------- versions

  lemma KeysDiffer()
    ensures "version" !in {"automation", "calculation", "system", "security", "sources"}
    ensures "automation" !in {"calculation", "system", "security", "sources"}
    ensures "calculation" !in {"system", "security", "sources"}
    ensures "system" !in {"security", "sources"} && "security" != "sources"
    ensures "outputs" != "voiceMonkey"
  {
    assert |"version"| == 7 && |"automation"| == 10 && |"calculation"| == 11 && |"system"| == 6;
    assert |"security"| == 8 && |"sources"| == 7 && "version"[0] != "sources"[0] && |"outputs"| == 7;
    assert |"voiceMonkey"| == 11;
  }

  lemma V1toV2Version(c: Option<Json>)
    ensures Version(V1toV2(c)) == Some(Num(2.0))
  {
    KeysDiffer();
    var c0 := SetVersion(c, 2.0);
    var c1 := Ensure(c0, AUTOMATION);
    var c2 := Ensure(c1, OUTPUTS);
    GetUpdateSame(c, VERSION, VERSION, Constantly(Some(Num(2.0))));
    EnsureInvisible(c0, AUTOMATION, VERSION);
    EnsureInvisible(c1, OUTPUTS, VERSION);
    var legacy := Get(c2, LEGACY);
    SetAtElsewhere(c2, VOICEMONKEY, Some(VoiceOutput(legacy)), VERSION);
    SetAtElsewhere(SetAt(c2, VOICEMONKEY, Some(VoiceOutput(legacy))), LEGACY, None, VERSION);
  }

  lemma V2toV3Version(c: Option<Json>)
    ensures Version(V2toV3(c)) == Some(Num(3.0))
  {
    KeysDiffer();
    var c1 := SetVersion(c, 3.0);
    GetUpdateSame(c, VERSION, VERSION, Constantly(Some(Num(3.0))));
    CopySpares(c1, CALCULATION, PRIMARY, CALCULATION_FIELDS, VERSION);
    SetAtElsewhere(c1, CALCULATION, None, VERSION);
    SetAtElsewhere(CopyFields(c1, CALCULATION, PRIMARY, CALCULATION_FIELDS), CALCULATION, None, VERSION);
  }

  lemma V3toV4Version(c: Option<Json>)
    ensures Version(V3toV4(c)) == Some(Num(4.0))
  {
    KeysDiffer();
    var c0 := SetVersion(c, 4.0);
    GetUpdateSame(c, VERSION, VERSION, Constantly(Some(Num(4.0))));
    EnsureInvisible(c0, SYSTEM, VERSION);
    SetAtElsewhere(Ensure(c0, SYSTEM), HEALTH, Some(Obj(map["api" := Bool(true), "tts" := Bool(true)])), VERSION);
  }

  lemma V4toV5Version(c: Option<Json>)
    ensures Version(V4toV5(c)) == Some(Num(5.0))
  {
    KeysDiffer();
    var c0 := SetVersion(c, 5.0);
    GetUpdateSame(c, VERSION, VERSION, Constantly(Some(Num(5.0))));
    EnsureInvisible(c0, SECURITY, VERSION);
    SetAtElsewhere(Ensure(c0, SECURITY), TOKEN_VERSION, Some(Num(1.0)), VERSION);
  }

  predicate Migratable(v: Option<Json>) {
    !Truthy(v) || (v.value.Num? && v.value.n in {1.0, 2.0, 3.0, 4.0, 5.0})
  }

  /** Every configuration without a version, or with one from 0 to 5, reaches version 5; any other is left alone. */
  lemma MigrateReachesFive(c: Option<Json>)
    ensures Migratable(Version(c)) ==> Version(Migrate(c)) == Some(Num(5.0))
    ensures !Migratable(Version(c)) || Version(c) == Some(Num(5.0)) ==> Migrate(c) == c
  {
    V1toV2Version(c);
    var c2 := if !Truthy(Version(c)) || Version(c) == Some(Num(1.0)) then V1toV2(c) else c;
    V2toV3Version(c2);
    var c3 := if Version(c2) == Some(Num(2.0)) then V2toV3(c2) else c2;
    V3toV4Version(c3);
    var c4 := if Version(c3) == Some(Num(3.0)) then V3toV4(c3) else c3;
    V4toV5Version(c4);
  }

  lemma MigrateTwice(c: Option<Json>)
    ensures Migrate(Migrate(c)) == Migrate(c)
  {
    MigrateReachesFive(c);
    MigrateReachesFive(Migrate(c));
  }

  lemma MergedVersion(d: Json, c: Json)
    requires d.Obj? && c.Obj? && Version(Some(c)) == Some(Num(5.0))
    ensures Version(Some(MergeDeep(d, c))) == Some(Num(5.0))
  {
    VersionIsChild(Some(c));
    VersionIsChild(Some(MergeDeep(d, c)));
    assert |"version"| == 7 && |"__proto__"| == 9 && |"constructor"| == 11 && |"prototype"| == 9;
    MergeAtKey(d, c, "version");
  }

  lemma VersionIsChild(c: Option<Json>)
    ensures Version(c) == Child(c, "version")
  {
    assert Get(c, VERSION) == Get(Child(c, "version"), VERSION[1..]);
  }

  lemma MigrateStaysObject(c: Json)
    requires c.Obj?
    ensures Migrate(Some(c)).Some? && Migrate(Some(c)).value.Obj?
  {
    if !Migratable(Version(Some(c))) {
      MigrateReachesFive(Some(c));
    } else {
      MigrateReachesFive(Some(c));
      VersionIsChild(Migrate(Some(c)));
    }
  }

  // ---------------------------------------------------------------- conservation

  lemma V1toV2Keeps(c: Option<Json>, p: Path)
    requires p != [] && p[0] !in {"version", "automation"}
    ensures Get(V1toV2(c), p) == Get(c, p)
  {
    var c0 := SetVersion(c, 2.0);
    var c1 := Ensure(Ensure(c0, AUTOMATION), OUTPUTS);
    SetAtElsewhere(c, VERSION, Some(Num(2.0)), p);
    EnsureInvisible(c0, AUTOMATION, p);
    EnsureInvisible(Ensure(c0, AUTOMATION), OUTPUTS, p);
    var block := Some(VoiceOutput(Get(c1, LEGACY)));
    SetAtElsewhere(c1, VOICEMONKEY, block, p);
    SetAtElsewhere(SetAt(c1, VOICEMONKEY, block), LEGACY, None, p);
  }

  lemma V2toV3Keeps(c: Option<Json>, p: Path)
    requires p != [] && p[0] !in {"version", "calculation", "sources"}
    ensures Get(V2toV3(c), p) == Get(c, p)
  {
    var c1 := SetVersion(c, 3.0);
    SetAtElsewhere(c, VERSION, Some(Num(3.0)), p);
    CopySpares(c1, CALCULATION, PRIMARY, CALCULATION_FIELDS, p);
    SetAtElsewhere(c1, CALCULATION, None, p);
    SetAtElsewhere(CopyFields(c1, CALCULATION, PRIMARY, CALCULATION_FIELDS), CALCULATION, None, p);
  }

  lemma V3toV4Keeps(c: Option<Json>, p: Path)
    requires p != [] && p[0] !in {"version", "system"}
    ensures Get(V3toV4(c), p) == Get(c, p)
  {
    var c1 := SetVersion(c, 4.0);
    SetAtElsewhere(c, VERSION, Some(Num(4.0)), p);
    EnsureInvisible(c1, SYSTEM, p);
    SetAtElsewhere(Ensure(c1, SYSTEM), HEALTH, Some(Obj(map["api" := Bool(true), "tts" := Bool(true)])), p);
  }

  lemma V4toV5Keeps(c: Option<Json>, p: Path)
    requires p != [] && p[0] !in {"version", "security"}
    ensures Get(V4toV5(c), p) == Get(c, p)
  {
    var c1 := SetVersion(c, 5.0);
    SetAtElsewhere(c, VERSION, Some(Num(5.0)), p);
    EnsureInvisible(c1, SECURITY, p);
    SetAtElsewhere(Ensure(c1, SECURITY), TOKEN_VERSION, Some(Num(1.0)), p);
  }

  lemma LaterStepsKeepAutomation(c: Option<Json>, p: Path)
    requires p != [] && p[0] == "automation"
    ensures Get(MigrateFrom2(c), p) == Get(c, p)
  {
    KeysDiffer();
    var c3 := if Version(c) == Some(Num(2.0)) then V2toV3(c) else c;
    var c4 := if Version(c3) == Some(Num(3.0)) then V3toV4(c3) else c3;
    V2toV3Keeps(c, p);
    V3toV4Keeps(c3, p);
    V4toV5Keeps(c4, p);
  }

  lemma V1toV2MovesVoice(c: Option<Json>)
    requires Truthy(Get(c, LEGACY))
    ensures Get(V1toV2(c), LEGACY) == None
    ensures Get(V1toV2(c), VOICEMONKEY) == Some(VoiceOutput(Get(c, LEGACY)))
  {
    KeysDiffer();
    var c0 := SetVersion(c, 2.0);
    var c1 := Ensure(c0, AUTOMATION);
    var c2 := Ensure(c1, OUTPUTS);
    SetAtElsewhere(c, VERSION, Some(Num(2.0)), LEGACY);
    EnsureInvisible(c0, AUTOMATION, LEGACY);
    OutputsApartFromLegacy();
    EnsureInvisible(c1, OUTPUTS, LEGACY);
    var block := VoiceOutput(Get(c, LEGACY));
    var c3 := SetAt(c2, VOICEMONKEY, Some(block));
    GetUpdateSame(c2, VOICEMONKEY, VOICEMONKEY, Constantly(Some(block)));
    SetAtElsewhere(c3, LEGACY, None, VOICEMONKEY);
    GetUpdateSame(c3, LEGACY, LEGACY, Constantly(None));
  }

  lemma OutputsApartFromLegacy()
    ensures Apart(OUTPUTS, LEGACY) && Apart(LEGACY, VOICEMONKEY)
  {
    KeysDiffer();
    assert OUTPUTS[1..] == ["outputs"] && LEGACY[1..] == ["voiceMonkey"];
    assert VOICEMONKEY[1..] == ["outputs", "voicemonkey"];
    assert Apart(OUTPUTS[1..], LEGACY[1..]) && Apart(LEGACY[1..], VOICEMONKEY[1..]);
  }

  lemma VoiceOutputKeeps(legacy: Option<Json>)
    ensures var params := Child(Some(VoiceOutput(legacy)), "params");
            && Child(params, "token") == Child(legacy, "token")
            && Child(params, "device") == Child(legacy, "device")
    ensures Child(Some(VoiceOutput(legacy)), "enabled") == Some(Bool(Truthy(Child(legacy, "enabled"))))
    ensures Child(Some(VoiceOutput(legacy)), "leadTimeMs") == Some(Num(0.0))
  {
    assert |"params"| == 6 && |"enabled"| == 7 && |"leadTimeMs"| == 10 && |"token"| == 5;
  }

  /** The legacy VoiceMonkey token and device arrive in the new output block, which is on exactly when the legacy
      block was and has no lead, and the legacy block goes. */
  lemma LegacyVoiceConserved(c: Option<Json>)
    requires !Truthy(Get(c, ["version"])) || Get(c, ["version"]) == Some(Num(1.0))
    requires Truthy(Get(c, ["automation", "voiceMonkey"]))
    ensures Get(Migrate(c), ["automation", "voiceMonkey"]) == None
    ensures var legacy := Get(c, ["automation", "voiceMonkey"]);
            var block := Get(Migrate(c), ["automation", "outputs", "voicemonkey"]);
            && Child(Child(block, "params"), "token") == Child(legacy, "token")
            && Child(Child(block, "params"), "device") == Child(legacy, "device")
            && Child(block, "enabled") == Some(Bool(Truthy(Child(legacy, "enabled"))))
            && Child(block, "leadTimeMs") == Some(Num(0.0))
  {
    V1toV2MovesVoice(c);
    LaterStepsKeepAutomation(V1toV2(c), LEGACY);
    LaterStepsKeepAutomation(V1toV2(c), VOICEMONKEY);
    VoiceOutputKeeps(Get(c, LEGACY));
  }

  lemma V1toV2LeavesVoice(c: Option<Json>)
    requires !Truthy(Get(c, LEGACY))
    ensures !Truthy(Get(V1toV2(c), LEGACY))
    ensures Get(V1toV2(c), VOICEMONKEY) == Get(c, VOICEMONKEY)
  {
    KeysDiffer();
    var c0 := SetVersion(c, 2.0);
    var c1 := Ensure(c0, AUTOMATION);
    SetAtElsewhere(c, VERSION, Some(Num(2.0)), LEGACY);
    SetAtElsewhere(c, VERSION, Some(Num(2.0)), VOICEMONKEY);
    EnsureInvisible(c0, AUTOMATION, LEGACY);
    EnsureInvisible(c0, AUTOMATION, VOICEMONKEY);
    OutputsApartFromLegacy();
    EnsureInvisible(c1, OUTPUTS, LEGACY);
    EnsureInvisible(c1, OUTPUTS, VOICEMONKEY);
  }

  /** Without a legacy block, or from version 2 on, an output block that is there stays as it is. */
  lemma VoiceStays(c: Option<Json>)
    requires (Truthy(Get(c, ["version"])) && Get(c, ["version"]) != Some(Num(1.0)))
             || !Truthy(Get(c, ["automation", "voiceMonkey"]))
    ensures Get(Migrate(c), ["automation", "outputs", "voicemonkey"])
            == Get(c, ["automation", "outputs", "voicemonkey"])
  {
    if !Truthy(Get(c, LEGACY)) {
      V1toV2LeavesVoice(c);
    }
    LaterStepsKeepAutomation(c, VOICEMONKEY);
    LaterStepsKeepAutomation(V1toV2(c), VOICEMONKEY);
  }

  /** Below version 2 a missing section of outputs is made, empty but for what the legacy block brings. */
  lemma OutputsSay(c: Option<Json>)
    requires !Truthy(Get(c, ["version"])) || Get(c, ["version"]) == Some(Num(1.0))
    requires !Truthy(Get(c, ["automation", "voiceMonkey"]))
    ensures Get(Migrate(c), ["automation", "outputs"])
            == if Truthy(Get(c, ["automation", "outputs"])) then Get(c, ["automation", "outputs"]) else Some(Obj(map[]))
  {
    V1toV2LeavesVoice(c);
    V1toV2Outputs(c);
    LaterStepsKeepAutomation(V1toV2(c), OUTPUTS);
  }

  lemma V1toV2Outputs(c: Option<Json>)
    requires !Truthy(Get(c, LEGACY))
    ensures Get(V1toV2(c), OUTPUTS) == if Truthy(Get(c, OUTPUTS)) then Get(c, OUTPUTS) else Some(Obj(map[]))
  {
    KeysDiffer();
    var c0 := SetVersion(c, 2.0);
    var c1 := Ensure(c0, AUTOMATION);
    var c2 := Ensure(c1, OUTPUTS);
    SetAtElsewhere(c, VERSION, Some(Num(2.0)), LEGACY);
    SetAtElsewhere(c, VERSION, Some(Num(2.0)), OUTPUTS);
    EnsureInvisible(c0, AUTOMATION, LEGACY);
    EnsureInvisible(c0, AUTOMATION, OUTPUTS);
    OutputsApartFromLegacy();
    EnsureInvisible(c1, OUTPUTS, LEGACY);
    GetUpdateSame(c1, OUTPUTS, OUTPUTS, Constantly(Some(Obj(map[]))));
  }

  lemma {:induction false} CopyCopies(c: Option<Json>, from: Path, to: Path, keys: seq<string>, k: string)
    requires k in keys && (forall i, j :: 0 <= i < j < |keys| ==> keys[i] != keys[j])
    requires from != [] && to != [] && from[0] != to[0]
    ensures Get(CopyFields(c, from, to, keys), to + [k]) == Get(c, from + [k])
    decreases |keys|
  {
    var v := Get(c, from + [keys[0]]);
    var c1 := SetAt(c, to + [keys[0]], v);
    if k == keys[0] {
      GetUpdateSame(c, to + [k], to + [k], Constantly(v));
      forall l | l in keys[1..]
        ensures Apart(to + [l], to + [k])
      {
        SiblingsApart(to, l, k);
      }
      CopySpares(c1, from, to, keys[1..], to + [k]);
    } else {
      SetAtElsewhere(c, to + [keys[0]], v, from + [k]);
      CopyCopies(c1, from, to, keys[1..], k);
    }
  }

  lemma {:induction false} SiblingsApart(p: Path, k: string, l: string)
    requires k != l
    ensures Apart(p + [k], p + [l])
    decreases |p|
  {
    if p != [] {
      assert (p + [k])[1..] == p[1..] + [k] && (p + [l])[1..] == p[1..] + [l];
      SiblingsApart(p[1..], k, l);
    }
  }

  lemma V2toV3MovesCalculation(c: Option<Json>, key: string)
    requires Truthy(Get(c, CALCULATION)) && Truthy(Get(c, SOURCES)) && Truthy(Get(c, PRIMARY))
    requires Get(c, PRIMARY + ["type"]) == Some(Str("aladhan")) && key in CALCULATION_FIELDS
    ensures Get(V2toV3(c), PRIMARY + [key]) == Get(c, CALCULATION + [key])
    ensures Get(V2toV3(c), CALCULATION) == None
  {
    KeysDiffer();
    var c1 := SetVersion(c, 3.0);
    forall p | p != [] && p[0] != "version"
      ensures Get(c1, p) == Get(c, p)
    {
      SetAtElsewhere(c, VERSION, Some(Num(3.0)), p);
    }
    assert |"method"| == 6 && |"madhab"| == 6 && "method"[1] != "madhab"[1];
    assert |"latitudeAdjustmentMethod"| == 24 && |"midnightMode"| == 12;
    CopyCopies(c1, CALCULATION, PRIMARY, CALCULATION_FIELDS, key);
    var c2 := CopyFields(c1, CALCULATION, PRIMARY, CALCULATION_FIELDS);
    SetAtElsewhere(c2, CALCULATION, None, PRIMARY + [key]);
    GetUpdateSame(c2, CALCULATION, CALCULATION, Constantly(None));
  }

  /** The version after the first step, when that applies. */
  function AfterFirst(c: Option<Json>): Option<Json> {
    if !Truthy(Version(c)) || Version(c) == Some(Num(1.0)) then V1toV2(c) else c
  }

  /** For an aladhan primary the global calculation fields end up in the source, and the global block goes. */
  lemma CalculationConserved(c: Option<Json>, key: string)
    requires !Truthy(Get(c, ["version"])) || Get(c, ["version"]) in {Some(Num(1.0)), Some(Num(2.0))}
    requires Truthy(Get(c, ["calculation"])) && Truthy(Get(c, ["sources"])) && Truthy(Get(c, ["sources", "primary"]))
    requires Get(c, ["sources", "primary", "type"]) == Some(Str("aladhan"))
    requires key in {"method", "madhab", "latitudeAdjustmentMethod", "midnightMode"}
    ensures Get(Migrate(c), ["sources", "primary", key]) == Get(c, ["calculation", key])
    ensures Get(Migrate(c), ["calculation"]) == None
  {
    KeysDiffer();
    FieldNamed(key);
    assert PRIMARY + [key] == ["sources", "primary", key] && PRIMARY + ["type"] == ["sources", "primary", "type"];
    assert CALCULATION + [key] == ["calculation", key];
    var c2 := AfterFirst(c);
    V1toV2Version(c);
    V1toV2Keeps(c, CALCULATION);
    V1toV2Keeps(c, SOURCES);
    V1toV2Keeps(c, PRIMARY);
    V1toV2Keeps(c, PRIMARY + ["type"]);
    V1toV2Keeps(c, CALCULATION + [key]);
    V2toV3MovesCalculation(c2, key);
    var c3 := V2toV3(c2);
    V2toV3Version(c2);
    LastStepsKeep(c3, PRIMARY + [key]);
    LastStepsKeep(c3, CALCULATION);
  }

  lemma FieldNamed(key: string)
    requires key in {"method", "madhab", "latitudeAdjustmentMethod", "midnightMode"}
    ensures key in CALCULATION_FIELDS
  {
    var f := CALCULATION_FIELDS;
    assert f[0] == "method" && f[1] == "madhab" && f[2] == "latitudeAdjustmentMethod" && f[3] == "midnightMode";
  }

  lemma LastStepsKeep(c: Option<Json>, p: Path)
    requires p != [] && p[0] in {"calculation", "sources"} && Version(c) == Some(Num(3.0))
    ensures Get(MigrateFrom2(c), p) == Get(c, p)
    ensures MigrateFrom2(c) == V4toV5(V3toV4(c))
  {
    KeysDiffer();
    V3toV4Version(c);
    V3toV4Keeps(c, p);
    V4toV5Keeps(V3toV4(c), p);
  }

  lemma V2toV3Leaves(c: Option<Json>, p: Path)
    requires p != [] && (p[0] == "sources" || p == ["calculation"])
    requires Get(c, PRIMARY + ["type"]) != Some(Str("aladhan")) || !Truthy(Get(c, CALCULATION))
    ensures p[0] == "sources" ==> Get(V2toV3(c), p) == Get(c, p)
    ensures p == ["calculation"] ==>
              Get(V2toV3(c), p) == if Truthy(Get(c, PRIMARY)) && Truthy(Get(c, SOURCES)) && Truthy(Get(c, p)) then None else Get(c, p)
  {
    KeysDiffer();
    var c1 := SetVersion(c, 3.0);
    SetAtElsewhere(c, VERSION, Some(Num(3.0)), p);
    SetAtElsewhere(c, VERSION, Some(Num(3.0)), CALCULATION);
    SetAtElsewhere(c, VERSION, Some(Num(3.0)), SOURCES);
    SetAtElsewhere(c, VERSION, Some(Num(3.0)), PRIMARY);
    SetAtElsewhere(c, VERSION, Some(Num(3.0)), PRIMARY + ["type"]);
    if p[0] == "sources" {
      SetAtElsewhere(c1, CALCULATION, None, p);
    } else {
      GetUpdateSame(c1, CALCULATION, CALCULATION, Constantly(None));
    }
  }

  ghost predicate UpToTwo(c: Option<Json>) {
    !Truthy(Get(c, ["version"])) || Get(c, ["version"]) in {Some(Num(1.0)), Some(Num(2.0))}
  }

  lemma LaterVersionsKeep(c: Option<Json>, p: Path)
    requires p != [] && p[0] in {"calculation", "sources"} && !UpToTwo(c)
    ensures Get(Migrate(c), p) == Get(c, p)
  {
    KeysDiffer();
    var c4 := if Version(c) == Some(Num(3.0)) then V3toV4(c) else c;
    V3toV4Keeps(c, p);
    V4toV5Keeps(c4, p);
  }

  /** With any other primary, without a global block or from version 3 on, nothing in the sources changes. The global
      block then goes exactly when the version is below 3 and there is a primary. */
  lemma CalculationOfOthers(c: Option<Json>, p: Path)
    requires UpToTwo(c) && Truthy(Get(c, ["calculation"])) ==>
               Get(c, ["sources", "primary", "type"]) != Some(Str("aladhan"))
    ensures p != [] && p[0] == "sources" ==> Get(Migrate(c), p) == Get(c, p)
    ensures Get(Migrate(c), ["calculation"])
            == if UpToTwo(c) && Truthy(Get(c, ["calculation"]))
                  && Truthy(Get(c, ["sources"])) && Truthy(Get(c, ["sources", "primary"]))
               then None else Get(c, ["calculation"])
  {
    KeysDiffer();
    assert PRIMARY + ["type"] == ["sources", "primary", "type"];
    if UpToTwo(c) {
      CalculationOfEarly(c, CALCULATION);
      if p != [] && p[0] == "sources" {
        CalculationOfEarly(c, p);
      }
    } else {
      LaterVersionsKeep(c, CALCULATION);
      if p != [] && p[0] == "sources" {
        LaterVersionsKeep(c, p);
      }
    }
  }

  /** What the second step is given of the first. */
  lemma AfterFirstKeeps(c: Option<Json>, p: Path)
    requires UpToTwo(c) && p != [] && p[0] in {"calculation", "sources"}
    ensures Version(AfterFirst(c)) == Some(Num(2.0)) && Get(AfterFirst(c), p) == Get(c, p)
  {
    KeysDiffer();
    V1toV2Version(c);
    V1toV2Keeps(c, p);
  }

  lemma CalculationOfEarly(c: Option<Json>, p: Path)
    requires UpToTwo(c) && p != [] && (p[0] == "sources" || p == CALCULATION)
    requires Truthy(Get(c, CALCULATION)) ==> Get(c, PRIMARY + ["type"]) != Some(Str("aladhan"))
    ensures p[0] == "sources" ==> Get(Migrate(c), p) == Get(c, p)
    ensures p == CALCULATION ==>
              Get(Migrate(c), p) == if Truthy(Get(c, p)) && Truthy(Get(c, SOURCES)) && Truthy(Get(c, PRIMARY)) then None else Get(c, p)
  {
    KeysDiffer();
    var c2 := AfterFirst(c);
    AfterFirstKeeps(c, CALCULATION);
    AfterFirstKeeps(c, SOURCES);
    AfterFirstKeeps(c, PRIMARY);
    AfterFirstKeeps(c, PRIMARY + ["type"]);
    AfterFirstKeeps(c, p);
    V2toV3Version(c2);
    V2toV3Leaves(c2, p);
    LastStepsKeep(V2toV3(c2), p);
  }

  lemma FirstStepsKeepSection(c: Option<Json>, p: Path)
    requires p != [] && p[0] in {"system", "security"}
    ensures var c2 := AfterFirst(c);
            var c3 := if Version(c2) == Some(Num(2.0)) then V2toV3(c2) else c2;
            Get(c3, p) == Get(c, p)
  {
    KeysDiffer();
    V1toV2Keeps(c, p);
    V2toV3Keeps(AfterFirst(c), p);
  }

  lemma V3toV4Health(c: Option<Json>)
    ensures Get(V3toV4(c), HEALTH)
            == if Truthy(Get(c, HEALTH)) then Get(c, HEALTH) else Some(Obj(map["api" := Bool(true), "tts" := Bool(true)]))
  {
    KeysDiffer();
    var c0 := SetVersion(c, 4.0);
    SetAtElsewhere(c, VERSION, Some(Num(4.0)), HEALTH);
    EnsureInvisible(c0, SYSTEM, HEALTH);
    GetUpdateSame(Ensure(c0, SYSTEM), HEALTH, HEALTH, Constantly(Some(Obj(map["api" := Bool(true), "tts" := Bool(true)]))));
  }

  /** Up to version 3, health checks that are set stay, and missing ones come on for both the API and speech. */
  lemma HealthSays(c: Option<Json>)
    requires !Truthy(Get(c, ["version"])) || Get(c, ["version"]) in {Some(Num(1.0)), Some(Num(2.0)), Some(Num(3.0))}
    ensures Get(Migrate(c), ["system", "healthChecks"])
            == if Truthy(Get(c, ["system", "healthChecks"])) then Get(c, ["system", "healthChecks"])
               else Some(Obj(map["api" := Bool(true), "tts" := Bool(true)]))
  {
    KeysDiffer();
    var c2 := AfterFirst(c);
    var c3 := if Version(c2) == Some(Num(2.0)) then V2toV3(c2) else c2;
    FirstStepsKeepSection(c, HEALTH);
    V1toV2Version(c);
    V2toV3Version(c2);
    V3toV4Version(c3);
    V3toV4Health(c3);
    V4toV5Keeps(V3toV4(c3), HEALTH);
  }

  lemma V4toV5Token(c: Option<Json>)
    ensures Get(V4toV5(c), TOKEN_VERSION) == if Get(c, TOKEN_VERSION).Some? then Get(c, TOKEN_VERSION) else Some(Num(1.0))
  {
    KeysDiffer();
    var c0 := SetVersion(c, 5.0);
    SetAtElsewhere(c, VERSION, Some(Num(5.0)), TOKEN_VERSION);
    EnsureInvisible(c0, SECURITY, TOKEN_VERSION);
    GetUpdateSame(Ensure(c0, SECURITY), TOKEN_VERSION, TOKEN_VERSION, Constantly(Some(Num(1.0))));
  }

  /** Up to version 4, a token version that is there stays, whatever it is, and a missing one becomes 1. */
  lemma TokenSays(c: Option<Json>)
    requires !Truthy(Get(c, ["version"])) || Get(c, ["version"]) in {Some(Num(1.0)), Some(Num(2.0)), Some(Num(3.0)), Some(Num(4.0))}
    ensures Get(Migrate(c), ["security", "tokenVersion"])
            == if Get(c, ["security", "tokenVersion"]).Some? then Get(c, ["security", "tokenVersion"]) else Some(Num(1.0))
  {
    KeysDiffer();
    var c2 := AfterFirst(c);
    var c3 := if Version(c2) == Some(Num(2.0)) then V2toV3(c2) else c2;
    var c4 := if Version(c3) == Some(Num(3.0)) then V3toV4(c3) else c3;
    FirstStepsKeepSection(c, TOKEN_VERSION);
    V3toV4Keeps(c3, TOKEN_VERSION);
    V1toV2Version(c);
    V2toV3Version(c2);
    V3toV4Version(c3);
    V4toV5Token(c4);
  }
}
