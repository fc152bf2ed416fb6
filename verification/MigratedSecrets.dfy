/** Edits of secret fields pass through the migrations: migrating an edited tree gives the migrated tree, edited at
    those of the positions that no step overwrote. */
module MigratedSecrets {
  import opened Outcomes
  import opened JsonTree
  import opened ConfigLayers
  import opened Migration

  /** The second tree is the first with some of the positions edited. */
  ghost predicate Edited(o: Option<Json>, o': Option<Json>, ps: seq<Path>, e: Action) {
    exists qs: seq<Path> :: Among(qs, ps) && o' == UpdateAll(o, qs, e)
  }

  predicate Among(qs: seq<Path>, ps: seq<Path>) {
    forall q :: q in qs ==> q in ps
  }

  // ---------------------------------------------------------------- one assignment

  /** Setting a value forgets what was edited at or below its position. */
  lemma {:induction false} SetForgets(o: Option<Json>, p: Path, at: Path, e: Action, q: Path, at': Path, v: Option<Json>)
    requires q <= p && e(at, None) == None
    ensures Update(Update(o, p, at, e), q, at', Constantly(v)) == Update(o, q, at', Constantly(v))
    decreases |q|
  {
    if q != [] {
      var k, c := p[0], Child(o, p[0]);
      var c1 := Update(c, p[1..], at, e);
      assert q[0] == k && q[1..] <= p[1..];
      SetForgets(c, p[1..], at, e, q[1..], at', v);
      var c2 := Update(c1, q[1..], at', Constantly(v));
      if o == None || !o.value.Obj? {
        AbsentStaysAbsent(p[1..], at, e);
      }
      assert Child(SetChild(o, k, c1), k) == c1;
      SetChildTwice(o, k, c1, c2);
    }
  }

  lemma {:induction false} SetPasses(o: Option<Json>, qs: seq<Path>, e: Action, q: Path, v: Option<Json>) returns (rs: seq<Path>)
    requires KeepsAbsent(e) && forall p :: p in qs ==> Apart(p, q) || q <= p
    ensures Among(rs, qs)
    ensures SetAt(UpdateAll(o, qs, e), q, v) == UpdateAll(SetAt(o, q, v), rs, e)
    decreases |qs|
  {
    if qs == [] {
      rs := [];
    } else {
      var p, o1 := qs[0], Update(o, qs[0], qs[0], e);
      var rest := SetPasses(o1, qs[1..], e, q, v);
      if q <= p {
        SetForgets(o, p, p, e, q, q, v);
        rs := rest;
      } else {
        UpdateCommute(o, p, p, e, q, q, Constantly(v));
        rs := [p] + rest;
        assert rs[1..] == rest;
      }
    }
  }

  lemma SetEdited(o: Option<Json>, o': Option<Json>, ps: seq<Path>, e: Action, q: Path, v: Option<Json>)
    requires Edited(o, o', ps, e) && KeepsAbsent(e) && forall p :: p in ps ==> Apart(p, q) || q <= p
    ensures Edited(SetAt(o, q, v), SetAt(o', q, v), ps, e)
  {
    var qs :| Among(qs, ps) && o' == UpdateAll(o, qs, e);
    var rs := SetPasses(o, qs, e, q, v);
    assert Among(rs, ps);
  }

  // ---------------------------------------------------------------- what the steps look at

  lemma GetEdited(o: Option<Json>, o': Option<Json>, ps: seq<Path>, e: Action, q: Path)
    requires Edited(o, o', ps, e) && forall p :: p in ps ==> Apart(p, q)
    ensures Get(o', q) == Get(o, q)
  {
    var qs :| Among(qs, ps) && o' == UpdateAll(o, qs, e);
    GetUpdateAllApart(o, qs, e, q);
  }

  lemma {:induction false} GetAboveUpdate(o: Option<Json>, p: Path, at: Path, e: Action, q: Path)
    requires q <= p && e(at, None) == None
    ensures Get(Update(o, p, at, e), q) == Update(Get(o, q), p[|q|..], at, e)
    decreases |q|
  {
    if q != [] {
      var c1 := Update(Child(o, p[0]), p[1..], at, e);
      assert q[1..] <= p[1..] && p[1..][|q[1..]|..] == p[|q|..];
      GetAboveUpdate(Child(o, p[0]), p[1..], at, e, q[1..]);
      if o == None || !o.value.Obj? {
        AbsentStaysAbsent(p[1..], at, e);
      }
      assert Child(SetChild(o, p[0], c1), p[0]) == c1;
    } else {
      assert p[|q|..] == p;
    }
  }

  /** Equal, or both objects. */
  predicate SameShape(o: Option<Json>, o': Option<Json>) {
    o == o' || (o.Some? && o.value.Obj? && o'.Some? && o'.value.Obj?)
  }

  lemma UpdateKeepsShape(o: Option<Json>, p: Path, at: Path, e: Action)
    requires p != [] && e(at, None) == None
    ensures SameShape(o, Update(o, p, at, e))
  {
    if o == None || !o.value.Obj? {
      AbsentStaysAbsent(p[1..], at, e);
    }
  }

  lemma PrefixShorter(q: Path, p: Path)
    requires q <= p
    ensures q == p || |q| < |p|
  {
    if |q| == |p| {
      assert p[..|q|] == p;
    }
  }

  /** Edits below a position keep its shape. */
  lemma {:induction false} ShapeAbove(o: Option<Json>, qs: seq<Path>, e: Action, q: Path)
    requires KeepsAbsent(e) && forall p :: p in qs ==> Apart(p, q) || (q <= p && q != p)
    ensures SameShape(Get(o, q), Get(UpdateAll(o, qs, e), q))
    decreases |qs|
  {
    if qs != [] {
      var p := qs[0];
      assert p in qs;
      if Apart(p, q) {
        GetUpdateApart(o, p, p, e, q);
      } else {
        PrefixShorter(q, p);
        GetAboveUpdate(o, p, p, e, q);
        UpdateKeepsShape(Get(o, q), p[|q|..], p, e);
      }
      ShapeAbove(Update(o, p, p, e), qs[1..], e, q);
    }
  }

  lemma TruthEdited(o: Option<Json>, o': Option<Json>, ps: seq<Path>, e: Action, q: Path)
    requires Edited(o, o', ps, e) && KeepsAbsent(e) && forall p :: p in ps ==> Apart(p, q) || (q <= p && q != p)
    ensures Truthy(Get(o', q)) == Truthy(Get(o, q))
  {
    var qs :| Among(qs, ps) && o' == UpdateAll(o, qs, e);
    ShapeAbove(o, qs, e, q);
  }

  lemma EnsureEdited(o: Option<Json>, o': Option<Json>, ps: seq<Path>, e: Action, q: Path)
    requires Edited(o, o', ps, e) && KeepsAbsent(e) && forall p :: p in ps ==> Apart(p, q) || (q <= p && q != p)
    ensures Edited(Ensure(o, q), Ensure(o', q), ps, e)
  {
    TruthEdited(o, o', ps, e, q);
    SetEdited(o, o', ps, e, q, Some(Obj(map[])));
  }

  // ---------------------------------------------------------------- where secrets can be

  /** automation.outputs.<id>.params.<key>, or sources.<role>.<key> other than the type. */
  predicate SecretShape(p: Path) {
    || (|p| == 5 && p[..2] == OUTPUTS && p[3] == "params")
    || (|p| == 3 && p[0] == "sources" && (p[1] == "primary" || p[1] == "backup") && p[2] != "type")
  }

  predicate SecretShapes(ps: seq<Path>) {
    forall p :: p in ps ==> SecretShape(p)
  }

  lemma {:induction false} FirstDiffers(p: Path, q: Path, n: nat)
    requires n < |p| && n < |q| && p[..n] == q[..n] && p[n] != q[n]
    ensures Apart(p, q)
    decreases n
  {
    if n > 0 {
      assert p[0] == p[..n][0] && q[0] == q[..n][0];
      assert p[1..][..n - 1] == p[..n][1..] && q[1..][..n - 1] == q[..n][1..];
      FirstDiffers(p[1..], q[1..], n - 1);
    }
  }

  lemma KeysApart()
    ensures "automation" != "sources" && "primary" != "backup" && "outputs" != "voiceMonkey"
    ensures "version" !in ["automation", "sources"] && "calculation" !in ["automation", "sources"]
    ensures "system" !in ["automation", "sources"] && "security" !in ["automation", "sources"]
  {
    assert |"automation"| == 10 && |"sources"| == 7 && |"primary"| == 7 && |"backup"| == 6 && |"outputs"| == 7;
    assert |"voiceMonkey"| == 11 && |"calculation"| == 11 && |"system"| == 6 && |"security"| == 8;
    assert "version"[0] == 'v' && "sources"[0] == 's';
  }

  /** A section outside automation and sources is apart from every secret. */
  lemma ElsewhereApart(p: Path, q: Path)
    requires SecretShape(p) && q != [] && q[0] != "automation" && q[0] != "sources"
    ensures Apart(p, q)
  {
    assert p[0] == "automation" || p[0] == "sources" by {
      if |p| == 5 {
        assert p[..2][0] == p[0];
      }
    }
  }

  lemma LegacyApart(p: Path)
    requires SecretShape(p)
    ensures Apart(p, LEGACY)
  {
    KeysApart();
    if |p| == 5 {
      assert p[0] == p[..2][0] && p[1] == p[..2][1];
      FirstDiffers(p, LEGACY, 1);
    } else {
      FirstDiffers(p, LEGACY, 0);
    }
  }

  /** The output sections lie above the output secrets and apart from the others. */
  lemma OutputSections(p: Path, q: Path)
    requires SecretShape(p) && (q == AUTOMATION || q == OUTPUTS || q == VOICEMONKEY)
    ensures Apart(p, q) || (q <= p && q != p)
  {
    KeysApart();
    if |p| == 5 {
      assert p[0] == p[..2][0] && p[1] == p[..2][1];
      if q == VOICEMONKEY && p[2] != "voicemonkey" {
        assert p[..2] == q[..2];
        FirstDiffers(p, q, 2);
      }
    } else {
      FirstDiffers(p, q, 0);
    }
  }

  /** A field of the primary source is a secret of it, or apart from every secret. */
  lemma SourceFields(p: Path, k: string)
    requires SecretShape(p)
    ensures Apart(p, PRIMARY + [k]) || p == PRIMARY + [k]
    ensures k == "type" ==> Apart(p, PRIMARY + [k])
  {
    KeysApart();
    var q := PRIMARY + [k];
    if |p| == 5 {
      assert p[0] == p[..2][0];
      FirstDiffers(p, q, 0);
    } else if p[1] == "backup" {
      assert p[..1] == q[..1];
      FirstDiffers(p, q, 1);
    } else if p[2] != k {
      assert p[..2] == q[..2];
      FirstDiffers(p, q, 2);
    } else {
      assert p == q;
    }
  }

  lemma SourceSections(p: Path, q: Path)
    requires SecretShape(p) && (q == SOURCES || q == PRIMARY)
    ensures Apart(p, q) || (q <= p && q != p)
  {
    KeysApart();
    if |p| == 5 {
      assert p[0] == p[..2][0];
      FirstDiffers(p, q, 0);
    } else if q == PRIMARY && p[1] == "backup" {
      assert p[..1] == q[..1];
      FirstDiffers(p, q, 1);
    }
  }

  // ---------------------------------------------------------------- the steps

  lemma PutElsewhere(o: Option<Json>, o': Option<Json>, ps: seq<Path>, e: Action, q: Path, v: Option<Json>)
    requires Edited(o, o', ps, e) && KeepsAbsent(e) && SecretShapes(ps) && q != [] && q[0] != "automation" && q[0] != "sources"
    ensures Edited(SetAt(o, q, v), SetAt(o', q, v), ps, e)
    ensures Get(o', q) == Get(o, q)
  {
    forall p | p in ps
      ensures Apart(p, q)
    {
      ElsewhereApart(p, q);
    }
    SetEdited(o, o', ps, e, q, v);
    GetEdited(o, o', ps, e, q);
  }

  lemma V1toV2Edited(o: Option<Json>, o': Option<Json>, ps: seq<Path>, e: Action)
    requires Edited(o, o', ps, e) && KeepsAbsent(e) && SecretShapes(ps)
    ensures Edited(V1toV2(o), V1toV2(o'), ps, e)
  {
    KeysApart();
    forall p | p in ps
      ensures Apart(p, LEGACY)
      ensures forall q :: q in [AUTOMATION, OUTPUTS, VOICEMONKEY] ==> Apart(p, q) || (q <= p && q != p)
    {
      LegacyApart(p);
      OutputSections(p, AUTOMATION);
      OutputSections(p, OUTPUTS);
      OutputSections(p, VOICEMONKEY);
    }
    assert AUTOMATION in [AUTOMATION, OUTPUTS, VOICEMONKEY] && OUTPUTS in [AUTOMATION, OUTPUTS, VOICEMONKEY];
    assert VOICEMONKEY in [AUTOMATION, OUTPUTS, VOICEMONKEY];
    PutElsewhere(o, o', ps, e, VERSION, Some(Num(2.0)));
    var a, a' := SetVersion(o, 2.0), SetVersion(o', 2.0);
    EnsureEdited(a, a', ps, e, AUTOMATION);
    var b, b' := Ensure(a, AUTOMATION), Ensure(a', AUTOMATION);
    EnsureEdited(b, b', ps, e, OUTPUTS);
    var c, c' := Ensure(b, OUTPUTS), Ensure(b', OUTPUTS);
    GetEdited(c, c', ps, e, LEGACY);
    var block := Some(VoiceOutput(Get(c, LEGACY)));
    SetEdited(c, c', ps, e, VOICEMONKEY, block);
    SetEdited(SetAt(c, VOICEMONKEY, block), SetAt(c', VOICEMONKEY, block), ps, e, LEGACY, None);
  }

  lemma {:induction false} CopyEdited(o: Option<Json>, o': Option<Json>, ps: seq<Path>, e: Action, keys: seq<string>)
    requires Edited(o, o', ps, e) && KeepsAbsent(e) && SecretShapes(ps)
    ensures Edited(CopyFields(o, CALCULATION, PRIMARY, keys), CopyFields(o', CALCULATION, PRIMARY, keys), ps, e)
    decreases |keys|
  {
    if keys != [] {
      var from, to := CALCULATION + [keys[0]], PRIMARY + [keys[0]];
      KeysApart();
      forall p | p in ps
        ensures Apart(p, from) && (Apart(p, to) || to <= p)
      {
        ElsewhereApart(p, from);
        SourceFields(p, keys[0]);
      }
      GetEdited(o, o', ps, e, from);
      SetEdited(o, o', ps, e, to, Get(o, from));
      CopyEdited(SetAt(o, to, Get(o, from)), SetAt(o', to, Get(o', from)), ps, e, keys[1..]);
    }
  }

  lemma V2toV3Edited(o: Option<Json>, o': Option<Json>, ps: seq<Path>, e: Action)
    requires Edited(o, o', ps, e) && KeepsAbsent(e) && SecretShapes(ps)
    ensures Edited(V2toV3(o), V2toV3(o'), ps, e)
  {
    KeysApart();
    PutElsewhere(o, o', ps, e, VERSION, Some(Num(3.0)));
    var a, a' := SetVersion(o, 3.0), SetVersion(o', 3.0);
    forall p | p in ps
      ensures Apart(p, PRIMARY + ["type"])
      ensures Apart(p, SOURCES) || (SOURCES <= p && SOURCES != p)
      ensures Apart(p, PRIMARY) || (PRIMARY <= p && PRIMARY != p)
    {
      SourceFields(p, "type");
      SourceSections(p, SOURCES);
      SourceSections(p, PRIMARY);
    }
    PutElsewhere(a, a', ps, e, CALCULATION, None);
    TruthEdited(a, a', ps, e, SOURCES);
    TruthEdited(a, a', ps, e, PRIMARY);
    GetEdited(a, a', ps, e, PRIMARY + ["type"]);
    CopyEdited(a, a', ps, e, CALCULATION_FIELDS);
    var b, b' := CopyFields(a, CALCULATION, PRIMARY, CALCULATION_FIELDS), CopyFields(a', CALCULATION, PRIMARY, CALCULATION_FIELDS);
    PutElsewhere(b, b', ps, e, CALCULATION, None);
  }

  lemma EnsureElsewhere(o: Option<Json>, o': Option<Json>, ps: seq<Path>, e: Action, q: Path)
    requires Edited(o, o', ps, e) && KeepsAbsent(e) && SecretShapes(ps) && q != [] && q[0] != "automation" && q[0] != "sources"
    ensures Edited(Ensure(o, q), Ensure(o', q), ps, e)
  {
    PutElsewhere(o, o', ps, e, q, Some(Obj(map[])));
  }

  lemma V3toV4Edited(o: Option<Json>, o': Option<Json>, ps: seq<Path>, e: Action)
    requires Edited(o, o', ps, e) && KeepsAbsent(e) && SecretShapes(ps)
    ensures Edited(V3toV4(o), V3toV4(o'), ps, e)
  {
    KeysApart();
    PutElsewhere(o, o', ps, e, VERSION, Some(Num(4.0)));
    EnsureElsewhere(SetVersion(o, 4.0), SetVersion(o', 4.0), ps, e, SYSTEM);
    var a, a' := Ensure(SetVersion(o, 4.0), SYSTEM), Ensure(SetVersion(o', 4.0), SYSTEM);
    PutElsewhere(a, a', ps, e, HEALTH, Some(Obj(map["api" := Bool(true), "tts" := Bool(true)])));
  }

  lemma V4toV5Edited(o: Option<Json>, o': Option<Json>, ps: seq<Path>, e: Action)
    requires Edited(o, o', ps, e) && KeepsAbsent(e) && SecretShapes(ps)
    ensures Edited(V4toV5(o), V4toV5(o'), ps, e)
  {
    KeysApart();
    PutElsewhere(o, o', ps, e, VERSION, Some(Num(5.0)));
    EnsureElsewhere(SetVersion(o, 5.0), SetVersion(o', 5.0), ps, e, SECURITY);
    var a, a' := Ensure(SetVersion(o, 5.0), SECURITY), Ensure(SetVersion(o', 5.0), SECURITY);
    PutElsewhere(a, a', ps, e, TOKEN_VERSION, Some(Num(1.0)));
  }

  lemma SameVersion(o: Option<Json>, o': Option<Json>, ps: seq<Path>, e: Action)
    requires Edited(o, o', ps, e) && KeepsAbsent(e) && SecretShapes(ps)
    ensures Version(o') == Version(o)
  {
    KeysApart();
    PutElsewhere(o, o', ps, e, VERSION, None);
  }

  /** For every tree, whatever its version: migrating it after an edit of secret fields gives the migrated tree
      after an edit of some of them. */
  lemma MigrateEdited(o: Option<Json>, o': Option<Json>, ps: seq<Path>, e: Action)
    requires Edited(o, o', ps, e) && KeepsAbsent(e) && SecretShapes(ps)
    ensures Edited(Migrate(o), Migrate(o'), ps, e)
    ensures Version(Migrate(o')) == Version(Migrate(o)) && Version(o') == Version(o)
  {
    SameVersion(o, o', ps, e);
    V1toV2Edited(o, o', ps, e);
    var first := !Truthy(Version(o)) || Version(o) == Some(Num(1.0));
    var b, b' := if first then V1toV2(o) else o, if first then V1toV2(o') else o';
    MigrateFrom2Edited(b, b', ps, e);
    SameVersion(Migrate(o), Migrate(o'), ps, e);
  }

  lemma MigrateFrom2Edited(o: Option<Json>, o': Option<Json>, ps: seq<Path>, e: Action)
    requires Edited(o, o', ps, e) && KeepsAbsent(e) && SecretShapes(ps)
    ensures Edited(MigrateFrom2(o), MigrateFrom2(o'), ps, e)
  {
    SameVersion(o, o', ps, e);
    V2toV3Edited(o, o', ps, e);
    var two := Version(o) == Some(Num(2.0));
    var a, a' := if two then V2toV3(o) else o, if two then V2toV3(o') else o';
    SameVersion(a, a', ps, e);
    V3toV4Edited(a, a', ps, e);
    var three := Version(a) == Some(Num(3.0));
    var b, b' := if three then V3toV4(a) else a, if three then V3toV4(a') else a';
    SameVersion(b, b', ps, e);
    V4toV5Edited(b, b', ps, e);
  }
}
