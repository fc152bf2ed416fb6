/** Environment variables as source of truth: overriding the loaded tree, stripping the saved one. */
module ConfigOverrides {
  import opened Outcomes
  import opened JsonTree
  import opened ConfigMerge
  import opened ConfigLayers
  import opened ConfigSecrets

  /** process.env as far as the configuration reads it; "" stands for unset. */
  datatype Env = Env(
    baseUrl: string,
    pythonServiceUrl: string,
    outputSecret: (string, string) -> string,
    providerSecret: string -> string)

  const BASE_URL: Path := ["automation", "baseUrl"]
  const PYTHON_SERVICE_URL: Path := ["automation", "pythonServiceUrl"]

  /** The value the environment dictates for a position; "" for none. */
  function Dictated(env: Env, p: Path): string {
    if p == BASE_URL then env.baseUrl
    else if p == PYTHON_SERVICE_URL then env.pythonServiceUrl
    else if |p| == 5 then env.outputSecret(p[2], p[4])
    else if |p| == 3 then env.providerSecret(p[2])
    else ""
  }

  function Removing(): Action {
    (p: Path, o: Option<Json>) => None
  }

  function Putting(env: Env): Action {
    (p: Path, o: Option<Json>) => Some(Str(Dictated(env, p)))
  }

  function DictatedOnly(env: Env, ps: seq<Path>): (r: seq<Path>)
    ensures forall p :: p in r <==> p in ps && Dictated(env, p) != ""
    ensures PairwiseApart(ps) ==> PairwiseApart(r)
  {
    if ps == [] then []
    else
      var rest := DictatedOnly(env, ps[1..]);
      assert forall p :: p in ps <==> p == ps[0] || p in ps[1..];
      assert PairwiseApart(ps) ==> PairwiseApart(rest) by {
        if PairwiseApart(ps) { PairwiseApartTail(ps); }
      }
      if Dictated(env, ps[0]) == "" then rest
      else
        assert PairwiseApart(ps) ==> PairwiseApart([ps[0]] + rest) by {
          if PairwiseApart(ps) { PairwiseApartTail(ps); }
        }
        [ps[0]] + rest
  }

  function ProviderPaths(reg: Registry, root: Option<Json>): seq<Path> {
    SourceSecretPaths(reg, SourceType(root, "primary"), "primary")
    + SourceSecretPaths(reg, SourceType(root, "backup"), "backup")
  }

  /** URLs and output secrets the environment takes over. */
  function ManagedPaths(env: Env, reg: Registry): seq<Path> {
    DictatedOnly(env, [BASE_URL, PYTHON_SERVICE_URL] + OutputSecretPaths(reg))
  }

  function StripManaged(env: Env, reg: Registry, c: Option<Json>): Option<Json> {
    if Truthy(Child(c, "automation")) then UpdateAll(c, ManagedPaths(env, reg), Removing()) else c
  }

  /** _stripSecrets. Provider secrets go whether or not a variable holds them. */
  function Strip(env: Env, reg: Registry, c: Option<Json>): Option<Json> {
    var c1 := StripManaged(env, reg, c);
    UpdateAll(c1, ProviderPaths(reg, c1), Removing())
  }

  /** _applyEnvOverrides */
  function Override(env: Env, reg: Registry, m: Option<Json>): Option<Json> {
    if !Truthy(Child(m, "automation")) then m
    else
      var m1 := UpdateAll(m, ManagedPaths(env, reg), Putting(env));
      UpdateAll(m1, DictatedOnly(env, ProviderPaths(reg, m1)), Putting(env))
  }

  /** Secret parameters have ordinary names. */
  predicate PlainKeys(reg: Registry) {
    forall id, k :: id in reg.providers && k in reg.providers[id].sensitive ==> k !in FORBIDDEN
  }

  // ---------------------------------------------------------------- positions

  lemma NamesArePlain()
    ensures "automation" !in FORBIDDEN && "sources" !in FORBIDDEN && "type" !in FORBIDDEN
    ensures "primary" !in FORBIDDEN && "backup" !in FORBIDDEN
  {
    assert |"__proto__"| == 9 && |"constructor"| == 11 && |"prototype"| == 9;
    assert |"automation"| == 10 && |"sources"| == 7 && |"type"| == 4 && |"primary"| == 7 && |"backup"| == 6;
  }

  lemma ProviderPathShape(reg: Registry, root: Option<Json>, p: Path)
    requires p in ProviderPaths(reg, root)
    ensures |p| == 3 && p == SourcePath(p[1], p[2]) && p[1] in {"primary", "backup"}
    ensures PlainKeys(reg) ==> forall k :: k in p ==> k !in FORBIDDEN
  {
    NamesArePlain();
    assert forall k :: k in p ==> k in {"sources", p[1], p[2]};
  }

  lemma ManagedPathShape(env: Env, reg: Registry, p: Path)
    requires p in ManagedPaths(env, reg)
    ensures p in [BASE_URL, PYTHON_SERVICE_URL] || (|p| == 5 && p == OutputPath(p[2], p[4]))
  {
  }

  lemma ManagedApartFromSource(env: Env, reg: Registry, q: Path, role: string, key: string)
    requires q in ManagedPaths(env, reg)
    ensures Apart(q, SourcePath(role, key))
  {
    ManagedPathShape(env, reg, q);
    if q in [BASE_URL, PYTHON_SERVICE_URL] {
      UrlApartFromSecret(q, SourcePath(role, key));
    } else {
      OutputApartFromSource(q[2], q[4], role, key);
    }
  }

  lemma AllPathsApart(reg: Registry, primary: Option<string>, backup: Option<string>)
    requires WellDeclared(reg)
    ensures PairwiseApart([BASE_URL, PYTHON_SERVICE_URL] + OutputSecretPaths(reg)
                          + SourceSecretPaths(reg, primary, "primary")
                          + SourceSecretPaths(reg, backup, "backup"))
  {
    var secrets := OutputSecretPaths(reg) + SourceSecretPaths(reg, primary, "primary")
                   + SourceSecretPaths(reg, backup, "backup");
    var urls := [BASE_URL, PYTHON_SERVICE_URL];
    SecretPathsApart(reg, primary, backup);
    var all := urls + secrets;
    forall i, j | 0 <= i < j < |all|
      ensures Apart(all[i], all[j])
    {
      if i < 2 && j >= 2 {
        UrlApartFromSecret(all[i], all[j]);
      } else if i < 2 {
        assert |"baseUrl"| != |"pythonServiceUrl"|;
        assert BASE_URL[1..] == ["baseUrl"] && PYTHON_SERVICE_URL[1..] == ["pythonServiceUrl"];
        assert Apart(BASE_URL[1..], PYTHON_SERVICE_URL[1..]);
      } else {
        assert all[i] == secrets[i - 2] && all[j] == secrets[j - 2];
      }
    }
    assert all == urls + OutputSecretPaths(reg) + SourceSecretPaths(reg, primary, "primary")
                  + SourceSecretPaths(reg, backup, "backup");
  }

  lemma UrlApartFromSecret(u: Path, p: Path)
    requires u in [BASE_URL, PYTHON_SERVICE_URL]
    requires (|p| == 5 && p[..2] == ["automation", "outputs"]) || (|p| == 3 && p[0] == "sources")
    ensures Apart(u, p)
  {
    assert |"automation"| != |"sources"|;
    assert |"outputs"| == 7 && |"baseUrl"| == 7 && "outputs"[0] != "baseUrl"[0] && |"pythonServiceUrl"| == 16;
    if |p| == 5 {
      assert p[1] == p[..2][1] == "outputs";
      assert u[1..][0] != p[1..][0];
      assert Apart(u[1..], p[1..]);
    }
  }

  lemma EffectivePathsApart(env: Env, reg: Registry, root: Option<Json>)
    requires WellDeclared(reg)
    ensures PairwiseApart(ManagedPaths(env, reg) + DictatedOnly(env, ProviderPaths(reg, root)))
    ensures PairwiseApart(ManagedPaths(env, reg))
  {
    var primary, backup := SourceType(root, "primary"), SourceType(root, "backup");
    AllPathsApart(reg, primary, backup);
    var a := [BASE_URL, PYTHON_SERVICE_URL] + OutputSecretPaths(reg);
    var b := ProviderPaths(reg, root);
    assert a + b == [BASE_URL, PYTHON_SERVICE_URL] + OutputSecretPaths(reg)
                    + SourceSecretPaths(reg, primary, "primary") + SourceSecretPaths(reg, backup, "backup");
    ApartParts(a, b);
    ApartJoin(DictatedOnly(env, a), DictatedOnly(env, b));
  }

  lemma ProviderPathsApart(reg: Registry, root: Option<Json>)
    requires WellDeclared(reg)
    ensures PairwiseApart(ProviderPaths(reg, root))
  {
    var primary, backup := SourceType(root, "primary"), SourceType(root, "backup");
    SecretPathsApart(reg, primary, backup);
    assert OutputSecretPaths(reg) + ProviderPaths(reg, root) ==
           OutputSecretPaths(reg) + SourceSecretPaths(reg, primary, "primary") + SourceSecretPaths(reg, backup, "backup");
    ApartParts(OutputSecretPaths(reg), ProviderPaths(reg, root));
  }

  lemma ApartParts(a: seq<Path>, b: seq<Path>)
    requires PairwiseApart(a + b)
    ensures PairwiseApart(a) && PairwiseApart(b)
    ensures forall p, q :: p in a && q in b ==> Apart(p, q)
  {
    var all := a + b;
    forall i, j | 0 <= i < j < |b| ensures Apart(b[i], b[j]) {
      assert Apart(all[|a| + i], all[|a| + j]);
    }
    forall i, j | 0 <= i < j < |a| ensures Apart(a[i], a[j]) {
      assert Apart(all[i], all[j]);
    }
    forall p, q | p in a && q in b ensures Apart(p, q) {
      var i :| 0 <= i < |a| && a[i] == p;
      var j :| 0 <= j < |b| && b[j] == q;
      assert Apart(all[i], all[|a| + j]);
    }
  }

  lemma ApartJoin(a: seq<Path>, b: seq<Path>)
    requires PairwiseApart(a) && PairwiseApart(b)
    requires forall p, q :: p in a && q in b ==> Apart(p, q)
    ensures PairwiseApart(a + b)
  {
  }

  lemma ManagedSparesTypes(env: Env, reg: Registry, root: Option<Json>, f: Action)
    requires WellDeclared(reg)
    ensures ProviderPaths(reg, UpdateAll(root, ManagedPaths(env, reg), f)) == ProviderPaths(reg, root)
  {
    forall q, role | q in ManagedPaths(env, reg)
      ensures Apart(q, SourcePath(role, "type"))
    {
      ManagedApartFromSource(env, reg, q, role, "type");
    }
    TypeSurvives(root, ManagedPaths(env, reg), f, "primary");
    TypeSurvives(root, ManagedPaths(env, reg), f, "backup");
  }

  /** Override as a single pass. */
  lemma OverrideIsOnePass(env: Env, reg: Registry, m: Option<Json>)
    requires WellDeclared(reg) && Truthy(Child(m, "automation"))
    ensures Override(env, reg, m) ==
            UpdateAll(m, ManagedPaths(env, reg) + DictatedOnly(env, ProviderPaths(reg, m)), Putting(env))
  {
    ManagedSparesTypes(env, reg, m, Putting(env));
    UpdateAllAppend(m, ManagedPaths(env, reg), DictatedOnly(env, ProviderPaths(reg, m)), Putting(env));
  }

  // ---------------------------------------------------------------- the automation section

  lemma {:induction false} SectionSurvives(o: Option<Json>, ps: seq<Path>, f: Action, key: string)
    requires Child(o, key).Some? && Child(o, key).value.Obj?
    requires forall p :: p in ps ==> |p| >= 2
    ensures var r := Child(UpdateAll(o, ps, f), key); r.Some? && r.value.Obj?
    decreases |ps|
  {
    if ps != [] {
      var p := ps[0];
      assert p in ps;
      var o1 := Update(o, p, p, f);
      var below := Child(o, p[0]);
      assert Update(below, p[1..], p, f) == SetChild(below, p[1..][0], Update(Child(below, p[1..][0]), p[1..][1..], p, f));
      SectionSurvives(o1, ps[1..], f, key);
    }
  }

  lemma {:induction false} NoSectionNoEffect(o: Option<Json>, ps: seq<Path>)
    requires Child(o, "automation") == None || !Child(o, "automation").value.Obj?
    requires forall p :: p in ps ==> |p| >= 2 && p[0] == "automation"
    ensures UpdateAll(o, ps, Removing()) == o
    decreases |ps|
  {
    forall p | p in ps
      ensures Get(o, p) == None
    {
      KindOfLeaf(Child(o, "automation"), p[1..]);
    }
    UpdateAllNoop(o, ps, Removing());
  }

  lemma ManagedPathsInAutomation(env: Env, reg: Registry)
    ensures forall p :: p in ManagedPaths(env, reg) ==> |p| >= 2 && p[0] == "automation"
  {
  }

  // ---------------------------------------------------------------- stripping is invisible

  lemma StripManagedShape(env: Env, reg: Registry, d: Json, c: Json)
    requires WellDeclared(reg) && d.Obj? && c.Obj? && Mergeable(d, c)
    ensures var c1 := StripManaged(env, reg, Some(c));
            && c1.Some? && c1.value.Obj? && Mergeable(d, c1.value)
            && Truthy(Child(Some(MergeDeep(d, c1.value)), "automation")) ==
               Truthy(Child(Some(MergeDeep(d, c)), "automation"))
            && UpdateAll(Some(MergeDeep(d, c1.value)), ManagedPaths(env, reg), Putting(env)) ==
               UpdateAll(Some(MergeDeep(d, c)), ManagedPaths(env, reg), Putting(env))
  {
    var ps := ManagedPaths(env, reg);
    var section := Child(Some(c), "automation");
    ManagedPathsInAutomation(env, reg);
    if section == None || !section.value.Obj? {
      NoSectionNoEffect(Some(c), ps);
    } else {
      StripSectionShape(env, reg, d, c, ps);
    }
  }

  lemma StripSectionShape(env: Env, reg: Registry, d: Json, c: Json, ps: seq<Path>)
    requires WellDeclared(reg) && d.Obj? && c.Obj? && Mergeable(d, c) && ps == ManagedPaths(env, reg)
    requires Child(Some(c), "automation").Some? && Child(Some(c), "automation").value.Obj?
    ensures var c1 := UpdateAll(Some(c), ps, Removing());
            && c1.Some? && c1.value.Obj? && Mergeable(d, c1.value)
            && Truthy(Child(Some(MergeDeep(d, c1.value)), "automation"))
            && Truthy(Child(Some(MergeDeep(d, c)), "automation"))
            && UpdateAll(Some(MergeDeep(d, c1.value)), ps, Putting(env)) == UpdateAll(Some(MergeDeep(d, c)), ps, Putting(env))
  {
    EffectivePathsApart(env, reg, Some(c));
    ManagedPathsInAutomation(env, reg);
    MergeAbsorbsEdits(d, c, ps, Removing(), ps, Putting(env));
    SectionSurvives(Some(c), ps, Removing(), "automation");
    SectionTruthy(d, c);
    SectionTruthy(d, UpdateAll(Some(c), ps, Removing()).value);
  }

  lemma SectionTruthy(d: Json, c: Json)
    requires d.Obj? && c.Obj? && Mergeable(d, c)
    requires Child(Some(c), "automation").Some? && Child(Some(c), "automation").value.Obj?
    ensures Truthy(Child(Some(MergeDeep(d, c)), "automation"))
  {
    NamesArePlain();
    MergeAtKey(d, c, "automation");
  }

  /** Removing environment-managed URLs and output secrets before saving never changes the configuration
      that results from default layer, saved layer and environment. */
  lemma StripManagedInvisible(env: Env, reg: Registry, d: Json, c: Json)
    requires WellDeclared(reg) && d.Obj? && c.Obj? && Mergeable(d, c)
    ensures var c1 := StripManaged(env, reg, Some(c));
            && c1.Some? && c1.value.Obj? && Mergeable(d, c1.value)
            && Override(env, reg, Some(MergeDeep(d, c1.value))) == Override(env, reg, Some(MergeDeep(d, c)))
  {
    StripManagedShape(env, reg, d, c);
    var c1 := StripManaged(env, reg, Some(c)).value;
    if !Truthy(Child(Some(MergeDeep(d, c)), "automation")) {
      var section := Child(Some(c), "automation");
      NoTruthySection(d, c);
      assert c1 == c;
    }
  }

  lemma NoTruthySection(d: Json, c: Json)
    requires d.Obj? && c.Obj? && Mergeable(d, c)
    requires !Truthy(Child(Some(MergeDeep(d, c)), "automation"))
    ensures !Truthy(Child(Some(c), "automation"))
  {
    NamesArePlain();
    MergeAtKey(d, c, "automation");
  }

  /** The type in force for a role when the saved layer names one. */
  lemma SavedTypeWins(d: Json, c: Json, role: string)
    requires d.Obj? && c.Obj? && Mergeable(d, c) && SourceType(Some(c), role).Some? && role !in FORBIDDEN
    ensures SourceType(Some(MergeDeep(d, c)), role) == SourceType(Some(c), role)
  {
    var p := SourcePath(role, "type");
    NamesArePlain();
    VoiceSays(Some(c), p);
    MergeMeetsSpec(d, c, p);
  }

  lemma {:induction false} VoiceSays(s: Option<Json>, p: Path)
    requires forall k :: k in p ==> k !in FORBIDDEN
    ensures Get(s, p).Some? ==> Voice(s, p) == Says(KindOf(Get(s, p)))
    ensures Get(s, p) == None ==> Voice(s, p) == Silent || Voice(s, p) == Cuts
    decreases |p|
  {
    if s == None {
      GetNone(p);
    } else if p != [] {
      if !s.value.Obj? {
        KindOfLeaf(s, p);
      } else {
        assert p[0] in p;
        VoiceSays(Child(s, p[0]), p[1..]);
      }
    }
  }

  /** All of _stripSecrets, including provider secrets, which are removed unconditionally. When the
      default layer holds none, the effective configuration survives exactly if every provider
      secret found in the saved layer is also held by a variable that the override consults. */
  lemma StripInvisibleIff(env: Env, reg: Registry, d: Json, c: Json)
    requires WellDeclared(reg) && PlainKeys(reg) && d.Obj? && c.Obj? && Mergeable(d, c)
    requires forall p :: p in ProviderPaths(reg, Some(c)) ==> Get(Some(d), p) == None
    ensures var s := Strip(env, reg, Some(c));
            && s.Some? && s.value.Obj? && Mergeable(d, s.value)
            && (Override(env, reg, Some(MergeDeep(d, s.value))) == Override(env, reg, Some(MergeDeep(d, c))) <==>
                forall p :: p in ProviderPaths(reg, Some(c)) && Get(Some(c), p).Some? ==>
                  Dictated(env, p) != "" && Truthy(Child(Some(MergeDeep(d, c)), "automation")))
  {
    StripManagedInvisible(env, reg, d, c);
    var c1 := StripManaged(env, reg, Some(c)).value;
    ManagedSparesTypes(env, reg, Some(c), Removing());
    var pp := ProviderPaths(reg, Some(c));
    assert pp == ProviderPaths(reg, Some(c1));
    ProviderValuesSurvive(env, reg, c);
    StripProvidersIff(env, reg, d, c1);
    StripManagedShape(env, reg, d, c);
  }

  /** As with the providers registered today: no parameter of theirs is sensitive. */
  predicate NoProviderSecrets(reg: Registry) {
    forall id :: id in reg.providers ==> reg.providers[id].sensitive == []
  }

  /** Then there is nothing to lose, and all of _stripSecrets is invisible whatever the environment holds. */
  lemma StripInvisibleWithoutSecrets(env: Env, reg: Registry, d: Json, c: Json)
    requires WellDeclared(reg) && NoProviderSecrets(reg) && d.Obj? && c.Obj? && Mergeable(d, c)
    ensures var s := Strip(env, reg, Some(c));
            && s.Some? && s.value.Obj? && Mergeable(d, s.value)
            && Override(env, reg, Some(MergeDeep(d, s.value))) == Override(env, reg, Some(MergeDeep(d, c)))
  {
    StripManagedInvisible(env, reg, d, c);
    assert ProviderPaths(reg, StripManaged(env, reg, Some(c))) == [];
  }

  /** A saved layer that names a provider and holds one parameter of it. */
  function SourceWith(kind: string, key: string, secret: string): Json {
    Obj(map["sources" := Obj(map["primary" := Obj(map["type" := Str(kind), key := Str(secret)])])])
  }

  /** One sensitive parameter of a future provider is enough to lose it: saving drops a value no variable holds. */
  lemma DeclaredSecretLost(env: Env, reg: Registry, d: Json, kind: string, key: string, secret: string)
    requires WellDeclared(reg) && PlainKeys(reg) && kind != "" && kind in reg.providers
    requires key in reg.providers[kind].sensitive && env.providerSecret(key) == ""
    requires d.Obj? && "sources" !in d.fields
    ensures var c := SourceWith(kind, key, secret);
            var s := Strip(env, reg, Some(c));
            && s.Some? && s.value.Obj? && Mergeable(d, s.value)
            && Override(env, reg, Some(MergeDeep(d, s.value))) != Override(env, reg, Some(MergeDeep(d, c)))
  {
    var c := SourceWith(kind, key, secret);
    var p := SourcePath("primary", key);
    SourceHolds(kind, key, secret);
    DeclaredIsProviderPath(reg, c, kind, key);
    forall q | q in ProviderPaths(reg, Some(c))
      ensures Get(Some(d), q) == None
    {
      ProviderPathShape(reg, Some(c), q);
      GetNone(q[1..]);
    }
    assert Dictated(env, p) == "" by {
      assert |p| == 3 && |BASE_URL| == 2 && |PYTHON_SERVICE_URL| == 2;
    }
    StripInvisibleIff(env, reg, d, c);
  }

  lemma SourceHolds(kind: string, key: string, secret: string)
    requires key != "type"
    ensures Get(Some(SourceWith(kind, key, secret)), SourcePath("primary", key)) == Some(Str(secret))
    ensures Get(Some(SourceWith(kind, key, secret)), SourcePath("primary", "type")) == Some(Str(kind))
  {
    var source := Obj(map["type" := Str(kind), key := Str(secret)]);
    GetTwice("sources", "primary", source, key);
    GetTwice("sources", "primary", source, "type");
  }

  lemma GetTwice(section: string, role: string, source: Json, key: string)
    ensures Get(Some(Obj(map[section := Obj(map[role := source])])), [section, role, key]) == Child(Some(source), key)
  {
    var o := Some(Obj(map[section := Obj(map[role := source])]));
    assert Get(o, [section, role, key]) == Get(Child(o, section), [role, key]) by {
      assert [section, role, key][1..] == [role, key];
    }
    assert Get(Some(Obj(map[role := source])), [role, key]) == Get(Some(source), [key]) by {
      assert [role, key][1..] == [key];
    }
    assert Get(Some(source), [key]) == Get(Child(Some(source), key), []) by {
      assert [key][1..] == [];
    }
  }

  lemma DeclaredIsProviderPath(reg: Registry, c: Json, kind: string, key: string)
    requires SourceType(Some(c), "primary") == Some(kind) && kind in reg.providers && key in reg.providers[kind].sensitive
    ensures SourcePath("primary", key) in ProviderPaths(reg, Some(c))
  {
    var keys := reg.providers[kind].sensitive;
    var i :| 0 <= i < |keys| && keys[i] == key;
    assert SourceSecretPaths(reg, Some(kind), "primary")[i] == SourcePath("primary", key);
  }

  lemma ProviderValuesSurvive(env: Env, reg: Registry, c: Json)
    requires WellDeclared(reg)
    ensures forall p :: p in ProviderPaths(reg, Some(c)) ==>
              Get(StripManaged(env, reg, Some(c)), p) == Get(Some(c), p)
  {
    EffectivePathsApart(env, reg, Some(c));
    forall p | p in ProviderPaths(reg, Some(c))
      ensures Get(StripManaged(env, reg, Some(c)), p) == Get(Some(c), p)
    {
      ProviderPathShape(reg, Some(c), p);
      forall q | q in ManagedPaths(env, reg)
        ensures Apart(q, p)
      {
        ManagedApartFromSource(env, reg, q, p[1], p[2]);
      }
      GetUpdateAllApart(Some(c), ManagedPaths(env, reg), Removing(), p);
    }
  }

  lemma StripProvidersIff(env: Env, reg: Registry, d: Json, c: Json)
    requires WellDeclared(reg) && PlainKeys(reg) && d.Obj? && c.Obj? && Mergeable(d, c)
    requires forall p :: p in ProviderPaths(reg, Some(c)) ==> Get(Some(d), p) == None
    ensures var s := UpdateAll(Some(c), ProviderPaths(reg, Some(c)), Removing());
            && s.Some? && s.value.Obj? && Mergeable(d, s.value)
            && (Override(env, reg, Some(MergeDeep(d, s.value))) == Override(env, reg, Some(MergeDeep(d, c))) <==>
                forall p :: p in ProviderPaths(reg, Some(c)) && Get(Some(c), p).Some? ==>
                  Dictated(env, p) != "" && Truthy(Child(Some(MergeDeep(d, c)), "automation")))
  {
    var pp := ProviderPaths(reg, Some(c));
    EffectivePathsApart(env, reg, Some(c));
    ProviderPathsApart(reg, Some(c));
    MergeAbsorbsEdits(d, c, pp, Removing(), pp, Putting(env));
    var s := UpdateAll(Some(c), pp, Removing()).value;
    var m, m' := MergeDeep(d, c), MergeDeep(d, s);
    StripProvidersAutomation(reg, d, c, s);
    if forall p :: p in pp && Get(Some(c), p).Some? ==> Dictated(env, p) != "" && Truthy(Child(Some(m), "automation")) {
      StripProvidersHarmless(env, reg, d, c, s);
    }
    if p :| p in pp && Get(Some(c), p).Some? && !(Dictated(env, p) != "" && Truthy(Child(Some(m), "automation"))) {
      StripProvidersHarmful(env, reg, d, c, s, p);
    }
  }

  lemma StripProvidersAutomation(reg: Registry, d: Json, c: Json, s: Json)
    requires d.Obj? && c.Obj? && s.Obj? && Mergeable(d, c) && Mergeable(d, s)
    requires Some(s) == UpdateAll(Some(c), ProviderPaths(reg, Some(c)), Removing())
    ensures Child(Some(MergeDeep(d, s)), "automation") == Child(Some(MergeDeep(d, c)), "automation")
  {
    var p := ["automation"];
    assert |"automation"| != |"sources"|;
    GetUpdateAllApart(Some(c), ProviderPaths(reg, Some(c)), Removing(), p);
    assert Get(Some(s), p) == Get(Child(Some(s), "automation"), p[1..]) == Child(Some(s), "automation");
    assert Get(Some(c), p) == Get(Child(Some(c), "automation"), p[1..]) == Child(Some(c), "automation");
    MergeAtKey(d, c, "automation");
    MergeAtKey(d, s, "automation");
  }

  /** Values that are present are re-supplied; absent ones were not removed. */
  lemma StripProvidersHarmless(env: Env, reg: Registry, d: Json, c: Json, s: Json)
    requires WellDeclared(reg) && d.Obj? && c.Obj? && s.Obj? && Mergeable(d, c) && Mergeable(d, s)
    requires Some(s) == UpdateAll(Some(c), ProviderPaths(reg, Some(c)), Removing())
    requires Child(Some(MergeDeep(d, s)), "automation") == Child(Some(MergeDeep(d, c)), "automation")
    requires forall p :: p in ProviderPaths(reg, Some(c)) && Get(Some(c), p).Some? ==>
               Dictated(env, p) != "" && Truthy(Child(Some(MergeDeep(d, c)), "automation"))
    ensures Override(env, reg, Some(MergeDeep(d, s))) == Override(env, reg, Some(MergeDeep(d, c)))
  {
    var pp := ProviderPaths(reg, Some(c));
    var m, m' := MergeDeep(d, c), MergeDeep(d, s);
    if !Truthy(Child(Some(m), "automation")) {
      UpdateAllNoop(Some(c), pp, Removing());
    } else {
      RemovalsNeeded(env, reg, c);
      OverrideIsOnePass(env, reg, Some(m));
      OverrideIsOnePass(env, reg, Some(m'));
      ProviderPathsThroughMerge(reg, d, c, s);
      EffectivePathsApart(env, reg, Some(m));
      var ps := ManagedPaths(env, reg) + DictatedOnly(env, ProviderPaths(reg, Some(m)));
      MergeAbsorbsEdits(d, c, DictatedOnly(env, pp), Removing(), ps, Putting(env));
    }
  }

  lemma RemovalsNeeded(env: Env, reg: Registry, c: Json)
    requires WellDeclared(reg)
    requires forall p :: p in ProviderPaths(reg, Some(c)) && Get(Some(c), p).Some? ==> Dictated(env, p) != ""
    ensures UpdateAll(Some(c), ProviderPaths(reg, Some(c)), Removing()) ==
            UpdateAll(Some(c), DictatedOnly(env, ProviderPaths(reg, Some(c))), Removing())
  {
    EffectivePathsApart(env, reg, Some(c));
    var pp := ProviderPaths(reg, Some(c));
    ProviderPathsApart(reg, Some(c));
    SkipAbsent(env, Some(c), pp);
  }

  lemma {:induction false} SkipAbsent(env: Env, o: Option<Json>, ps: seq<Path>)
    requires PairwiseApart(ps)
    requires forall p :: p in ps && Get(o, p).Some? ==> Dictated(env, p) != ""
    ensures UpdateAll(o, ps, Removing()) == UpdateAll(o, DictatedOnly(env, ps), Removing())
    decreases |ps|
  {
    if ps != [] {
      var p, rest := ps[0], ps[1..];
      PairwiseApartTail(ps);
      var o1 := Update(o, p, p, Removing());
      if Dictated(env, p) == "" {
        assert p in ps;
        UpdateNoop(o, p, p, Removing());
      } else {
        assert DictatedOnly(env, ps)[1..] == DictatedOnly(env, rest);
      }
      forall q | q in rest && Get(o1, q).Some?
        ensures Dictated(env, q) != ""
      {
        GetUpdateApart(o, p, p, Removing(), q);
      }
      SkipAbsent(env, o1, rest);
    }
  }

  lemma ProviderPathsThroughMerge(reg: Registry, d: Json, c: Json, s: Json)
    requires WellDeclared(reg) && d.Obj? && c.Obj? && s.Obj? && Mergeable(d, c) && Mergeable(d, s)
    requires Some(s) == UpdateAll(Some(c), ProviderPaths(reg, Some(c)), Removing())
    ensures forall p :: p in ProviderPaths(reg, Some(c)) ==> p in ProviderPaths(reg, Some(MergeDeep(d, c)))
    ensures ProviderPaths(reg, Some(MergeDeep(d, s))) == ProviderPaths(reg, Some(MergeDeep(d, c)))
  {
    var primary, backup := SourceType(Some(c), "primary"), SourceType(Some(c), "backup");
    NamesArePlain();
    if primary.Some? {
      SavedTypeWins(d, c, "primary");
    }
    if backup.Some? {
      SavedTypeWins(d, c, "backup");
    }
    SameTypeAfterRemoval(reg, d, c, s, "primary");
    SameTypeAfterRemoval(reg, d, c, s, "backup");
  }

  lemma SameTypeAfterRemoval(reg: Registry, d: Json, c: Json, s: Json, role: string)
    requires WellDeclared(reg) && d.Obj? && c.Obj? && s.Obj? && Mergeable(d, c) && Mergeable(d, s)
    requires Some(s) == UpdateAll(Some(c), ProviderPaths(reg, Some(c)), Removing())
    requires role == "primary" || role == "backup"
    ensures SourceType(Some(MergeDeep(d, s)), role) == SourceType(Some(MergeDeep(d, c)), role)
  {
    var pp := ProviderPaths(reg, Some(c));
    var p := SourcePath(role, "type");
    SecretsSpareTypes(reg, SourceType(Some(c), "primary"), SourceType(Some(c), "backup"), role);
    forall q | q in pp
      ensures Apart(q, p)
    {
      assert q in OutputSecretPaths(reg) + SourceSecretPaths(reg, SourceType(Some(c), "primary"), "primary")
                  + SourceSecretPaths(reg, SourceType(Some(c), "backup"), "backup");
    }
    VoiceUnchanged(Some(c), pp, p);
    SameKind(d, c, s, p);
    SameKindSameType(Some(MergeDeep(d, s)), Some(MergeDeep(d, c)), role);
  }

  lemma SameKind(d: Json, c: Json, s: Json, p: Path)
    requires d.Obj? && c.Obj? && s.Obj? && Mergeable(d, c) && Mergeable(d, s)
    requires Voice(Some(s), p) == Voice(Some(c), p)
    ensures KindOf(Get(Some(MergeDeep(d, s)), p)) == KindOf(Get(Some(MergeDeep(d, c)), p))
  {
    MergeMeetsSpec(d, c, p);
    MergeMeetsSpec(d, s, p);
  }

  lemma SameKindSameType(x: Option<Json>, y: Option<Json>, role: string)
    requires KindOf(Get(x, SourcePath(role, "type"))) == KindOf(Get(y, SourcePath(role, "type")))
    ensures SourceType(x, role) == SourceType(y, role)
  {
  }

  /** Removals elsewhere do not change what a layer says about a path. */
  lemma {:induction false} VoiceUnchanged(o: Option<Json>, ps: seq<Path>, p: Path)
    requires forall q :: q in ps ==> Apart(q, p)
    ensures Voice(UpdateAll(o, ps, Removing()), p) == Voice(o, p)
    decreases |ps|
  {
    if ps != [] {
      assert ps[0] in ps;
      VoiceUnchangedByOne(o, ps[0], ps[0], p);
      VoiceUnchanged(Update(o, ps[0], ps[0], Removing()), ps[1..], p);
    }
  }

  lemma {:induction false} VoiceUnchangedByOne(o: Option<Json>, q: Path, at: Path, p: Path)
    requires Apart(q, p)
    ensures Voice(Update(o, q, at, Removing()), p) == Voice(o, p)
    decreases |p|
  {
    if o == None || !o.value.Obj? {
      AbsentStaysAbsent(q[1..], at, Removing());
    } else if q[0] == p[0] {
      VoiceUnchangedByOne(Child(o, p[0]), q[1..], at, p[1..]);
      var c := Update(Child(o, q[0]), q[1..], at, Removing());
      assert Child(SetChild(o, q[0], c), p[0]) == c;
    } else {
      var c := Update(Child(o, q[0]), q[1..], at, Removing());
      assert Child(SetChild(o, q[0], c), p[0]) == Child(o, p[0]);
    }
  }

  /** A secret that no consulted variable holds is lost. */
  lemma StripProvidersHarmful(env: Env, reg: Registry, d: Json, c: Json, s: Json, p: Path)
    requires WellDeclared(reg) && PlainKeys(reg)
    requires d.Obj? && c.Obj? && s.Obj? && Mergeable(d, c) && Mergeable(d, s)
    requires Some(s) == UpdateAll(Some(c), ProviderPaths(reg, Some(c)), Removing())
    requires Child(Some(MergeDeep(d, s)), "automation") == Child(Some(MergeDeep(d, c)), "automation")
    requires p in ProviderPaths(reg, Some(c)) && Get(Some(c), p).Some? && Get(Some(d), p) == None
    requires !(Dictated(env, p) != "" && Truthy(Child(Some(MergeDeep(d, c)), "automation")))
    ensures Override(env, reg, Some(MergeDeep(d, s))) != Override(env, reg, Some(MergeDeep(d, c)))
  {
    var m, m' := MergeDeep(d, c), MergeDeep(d, s);
    var pp := ProviderPaths(reg, Some(c));
    ProviderPathShape(reg, Some(c), p);
    ProviderPathsApart(reg, Some(c));
    GetUpdateAllSame(Some(c), pp, Removing(), p);
    VoiceSays(Some(c), p);
    VoiceSays(Some(s), p);
    MergeMeetsSpec(d, c, p);
    MergeMeetsSpec(d, s, p);
    assert Get(Some(m'), p) == None && Get(Some(m), p).Some?;
    UntouchedByOverride(env, reg, Some(m), p);
    UntouchedByOverride(env, reg, Some(m'), p);
  }

  lemma UntouchedByOverride(env: Env, reg: Registry, m: Option<Json>, p: Path)
    requires WellDeclared(reg) && |p| == 3 && p == SourcePath(p[1], p[2])
    requires !(Dictated(env, p) != "" && Truthy(Child(m, "automation")))
    ensures Get(Override(env, reg, m), p) == Get(m, p)
  {
    if Truthy(Child(m, "automation")) {
      OverrideIsOnePass(env, reg, m);
      var ps := ManagedPaths(env, reg) + DictatedOnly(env, ProviderPaths(reg, m));
      forall q | q in ps
        ensures Apart(q, p)
      {
        if q in ManagedPaths(env, reg) {
          ManagedApartFromSource(env, reg, q, p[1], p[2]);
        } else {
          ProviderPathShape(reg, m, q);
          SourcePathsApart(q[1], q[2], p[1], p[2]);
        }
      }
      GetUpdateAllApart(m, ps, Putting(env), p);
    }
  }
}
