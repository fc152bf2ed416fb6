/** ConfigService.reload: default layer, saved layer, secrets, migration, environment, validation. */
module ConfigLoad {
  import opened Outcomes
  import opened JsonTree
  import opened ConfigMerge
  import opened ConfigLayers
  import opened ConfigSecrets
  import opened ConfigOverrides
  import opened ConfigLeads
  import opened MigratedSecrets
  import Migration

  datatype LocalFile = Absent | Blank | Corrupt | Saved(tree: Json)

  datatype Error = SaveInProgress | ReadFailed | ValidationFailed | SourceInvalid | SaveFailed

  /** What the service is wired to: default layer, metadata, key, environment and the validators. `rest` is all of
      the schema but what it demands of lead times, with what it parses the rest of the tree to; envMigrate yields the
      tree to persist when secrets moved out of the environment. */
  datatype Rules = Rules(
    defaults: Json,
    reg: Registry,
    strategies: seq<string>,
    cipher: Cipher,
    iv: Path -> nat,
    env: Env,
    rest: Json -> Option<Json>,
    sourcesValid: Json -> bool,
    envMigrate: Json -> Option<Json>)

  /** configSchema.parse */
  function Schema(r: Rules, c: Json): Option<Json> {
    if !LeadsAccepted(Some(c)) then None
    else match r.rest(c)
      case None => None
      case Some(parsed) => Some(WithLeads(parsed, Some(c)))
  }

  // ---------------------------------------------------------------- loading

  /** _cleanSourceData for one role: only keys the source's provider declares survive. */
  function CleanSource(reg: Registry, source: Option<Json>): Option<Json> {
    match source
    case Some(Obj(m)) =>
      (match Child(source, "type")
       case Some(Str(t)) =>
         if t != "" && t in reg.providers then
           var p := reg.providers[t];
           Some(Obj(map k | k in m && (k in ["type", "enabled"] || k in p.parameters || k in p.sensitive) :: m[k]))
         else source
       case _ => source)
    case _ => source
  }

  function Cleaning(reg: Registry): Action {
    (p: Path, o: Option<Json>) => CleanSource(reg, o)
  }

  function CleanSources(reg: Registry, c: Option<Json>): Option<Json> {
    UpdateAll(c, [["sources", "primary"], ["sources", "backup"]], Cleaning(reg))
  }

  function VersionNumber(c: Option<Json>): real {
    match Migration.Version(c)
    case Some(Num(n)) => n
    case _ => 0.0
  }

  /** Which of the two saves a load may attempt succeed. */
  datatype LoadLuck = LoadLuck(migrationSaved: bool, secretsSaved: bool)

  /** The saved layer as a load sees it: auto-migrated and rewritten when its version was old; None when
      it cannot be used, which includes a failed rewrite. */
  function LocalLayer(r: Rules, local: LocalFile, luck: LoadLuck): (LocalFile, Option<Json>) {
    if !local.Saved? then (local, None)
    else
      var migrated := Migration.Migrate(Some(local.tree));
      if migrated.Some? && VersionNumber(migrated) > VersionNumber(Some(local.tree)) then
        if luck.migrationSaved then (Saved(Encrypted(r, migrated.value)), migrated) else (local, None)
      else (local, Some(local.tree))
  }

  function Encrypted(r: Rules, c: Json): Json {
    EncryptAll(r.cipher, r.iv, r.reg, Some(c)).GetOr(c)
  }

  /** Merge, decrypt, migrate. */
  function Layered(r: Rules, layer: Option<Json>): Option<Json> {
    var merged := if layer.Some? then MergeDeep(r.defaults, layer.value) else r.defaults;
    Migration.Migrate(DecryptAll(r.cipher, r.reg, Some(merged)))
  }

  /** Environment, constraints, clean-up, validation. */
  function Finish(r: Rules, raw: Option<Json>): Result<Json, Error> {
    var c := CleanSources(r.reg, ClampLeads(r.strategies, Override(r.env, r.reg, raw)));
    if c == None || !r.sourcesValid(c.value) then Err(SourceInvalid)
    else match Schema(r, c.value)
      case Some(parsed) => Ok(parsed)
      case None => Err(ValidationFailed)
  }

  /** From the migrated tree to the outcome, with the detour through secrets moved out of the environment. */
  function Complete(r: Rules, local: LocalFile, raw: Option<Json>, luck: LoadLuck): (LocalFile, Result<Json, Error>) {
    if raw == None then (local, Err(ValidationFailed))
    else match r.envMigrate(raw.value)
      case None => (local, Finish(r, raw))
      case Some(moved) =>
        if luck.secretsSaved then (Saved(Encrypted(r, moved)), Finish(r, Some(moved)))
        else (local, Err(SaveFailed))
  }

  function Load(r: Rules, local: LocalFile, luck: LoadLuck): (LocalFile, Result<Json, Error>) {
    var (local1, layer) := LocalLayer(r, local, luck);
    Complete(r, local1, Layered(r, layer), luck)
  }

  // ---------------------------------------------------------------- the pieces of an update

  function Candidate(r: Rules, local: LocalFile, partial: Json): Option<Json> {
    var current := if local.Saved? then local.tree else Obj(map[]);
    Strip(r.env, r.reg, CleanSources(r.reg, Some(MergeDeep(current, partial))))
  }

  function FullCandidate(r: Rules, candidate: Json): Option<Json> {
    Override(r.env, r.reg, Some(MergeDeep(r.defaults, candidate)))
  }

  /** None when the candidate passes. */
  function Verdict(r: Rules, candidate: Json): Option<Error> {
    var full := FullCandidate(r, candidate);
    if full == None || Schema(r, full.value) == None then Some(ValidationFailed)
    else if !r.sourcesValid(full.value) then Some(SourceInvalid)
    else None
  }

  // ---------------------------------------------------------------- lead times of a loaded and of a saved configuration

  /** Every lead of the held configuration is a number in range. */
  ghost predicate LeadsHeld(j: Json) {
    forall id :: var lead := LeadAt(Some(j), id); lead.Some? ==> lead.value.Num? && InRange(lead.value.n)
  }

  /** What clamping leaves of an effective lead. */
  function Clamped(r: Rules, effective: Option<Json>, id: string): Option<Json> {
    if id in r.strategies then ClampLead(LeadAt(effective, id)) else LeadAt(effective, id)
  }

  lemma CleaningSparesOutputs(reg: Registry, c: Option<Json>, id: string)
    ensures Outputs(CleanSources(reg, c)) == Outputs(c) && LeadAt(CleanSources(reg, c), id) == LeadAt(c, id)
  {
    var ps: seq<Path> := [["sources", "primary"], ["sources", "backup"]];
    KeysApart();
    forall p | p in ps
      ensures Apart(p, Migration.OUTPUTS) && Apart(p, LeadPath(id))
    {
      assert p[0] == "sources";
      FirstDiffers(p, Migration.OUTPUTS, 0);
      FirstDiffers(p, LeadPath(id), 0);
    }
    GetUpdateAllApart(c, ps, Cleaning(reg), Migration.OUTPUTS);
    GetUpdateAllApart(c, ps, Cleaning(reg), LeadPath(id));
  }

  lemma CleaningSparesLeads(reg: Registry, c: Option<Json>)
    ensures LeadsAccepted(CleanSources(reg, c)) <==> LeadsAccepted(c)
    ensures OutputIds(CleanSources(reg, c)) == OutputIds(c)
  {
    CleaningSparesOutputs(reg, c, "");
    forall id
      ensures LeadAt(CleanSources(reg, c), id) == LeadAt(c, id)
    {
      CleaningSparesOutputs(reg, c, id);
    }
  }

  /** The tree a load hands to the validators. */
  function Effective(r: Rules, raw: Option<Json>): Option<Json> {
    Override(r.env, r.reg, raw)
  }

  function Prepared(r: Rules, raw: Option<Json>): Option<Json> {
    CleanSources(r.reg, ClampLeads(r.strategies, Effective(r, raw)))
  }

  lemma PreparedLeads(r: Rules, raw: Option<Json>)
    requires Distinct(r.strategies)
    ensures LeadsAccepted(Prepared(r, raw)) <==> LeadsClampable(r.strategies, Effective(r, raw))
    ensures OutputIds(Prepared(r, raw)) == OutputIds(Effective(r, raw))
    ensures forall id :: LeadAt(Prepared(r, raw), id) == Clamped(r, Effective(r, raw), id)
  {
    var effective := Effective(r, raw);
    var clamped := ClampLeads(r.strategies, effective);
    CleaningSparesLeads(r.reg, clamped);
    ClampThenAcceptedIff(r.strategies, effective);
    forall id
      ensures LeadAt(Prepared(r, raw), id) == Clamped(r, effective, id)
    {
      CleaningSparesOutputs(r.reg, clamped, id);
      LeadOfClamped(r.strategies, effective, id);
    }
  }

  /** When the other validators pass, a load succeeds exactly when every registered output has a number or nothing
      for a lead and every other output a number in range or nothing: reload never rejects a lead it can clamp. */
  lemma LoadAcceptsLeadsIff(r: Rules, raw: Option<Json>)
    requires Distinct(r.strategies)
    requires Prepared(r, raw).Some? && r.sourcesValid(Prepared(r, raw).value) && r.rest(Prepared(r, raw).value).Some?
    ensures Finish(r, raw).Ok? <==> LeadsClampable(r.strategies, Effective(r, raw))
  {
    PreparedLeads(r, raw);
  }

  /** The held lead of each output is the clamp of the effective one, zero where there was none, and in range. */
  lemma HeldLead(r: Rules, raw: Option<Json>, id: string)
    requires Distinct(r.strategies) && Finish(r, raw).Ok?
    ensures LeadAt(Some(Finish(r, raw).value), id) ==
              if id in OutputIds(Effective(r, raw)) then Some(ParsedLead(Clamped(r, Effective(r, raw), id))) else None
    ensures var lead := LeadAt(Some(Finish(r, raw).value), id);
            lead.Some? ==> lead.value.Num? && InRange(lead.value.n)
  {
    var c := Prepared(r, raw).value;
    PreparedLeads(r, raw);
    LeadOfParsed(r.rest(c).value, Some(c), id);
    assert LeadsAccepted(Some(c));
    if id in OutputIds(Some(c)) {
      assert LeadFits(LeadAt(Some(c), id));
    }
  }

  /** Whatever the file and the environment hold, a configuration that loads has every lead in range. */
  lemma LoadHoldsLeads(r: Rules, raw: Option<Json>)
    requires Distinct(r.strategies)
    ensures Finish(r, raw).Ok? ==> LeadsHeld(Finish(r, raw).value)
  {
    if Finish(r, raw).Ok? {
      forall id
        ensures var lead := LeadAt(Some(Finish(r, raw).value), id); lead.Some? ==> lead.value.Num? && InRange(lead.value.n)
      {
        HeldLead(r, raw, id);
      }
    }
  }

  lemma OverrideSparesLead(env: Env, reg: Registry, m: Option<Json>, id: string)
    requires WellDeclared(reg)
    ensures LeadAt(Override(env, reg, m), id) == LeadAt(m, id)
  {
    if Truthy(Child(m, "automation")) {
      OverrideIsOnePass(env, reg, m);
      var ps := ManagedPaths(env, reg) + DictatedOnly(env, ProviderPaths(reg, m));
      forall p | p in ps
        ensures Apart(p, LeadPath(id))
      {
        OverriddenApartFromLead(env, reg, m, p, id);
      }
      GetUpdateAllApart(m, ps, Putting(env), LeadPath(id));
    }
  }

  lemma OverriddenApartFromLead(env: Env, reg: Registry, m: Option<Json>, p: Path, id: string)
    requires p in ManagedPaths(env, reg) || p in ProviderPaths(reg, m)
    ensures Apart(p, LeadPath(id))
  {
    KeysApart();
    assert |"baseUrl"| == 7 && |"pythonServiceUrl"| == 16 && |"outputs"| == 7 && "baseUrl"[0] == 'b' && "outputs"[0] == 'o';
    assert |"params"| == 6 && |"leadTimeMs"| == 10;
    if p in ProviderPaths(reg, m) {
      ProviderPathShape(reg, m, p);
      FirstDiffers(p, LeadPath(id), 0);
    } else {
      ManagedPathShape(env, reg, p);
      if |p| == 2 {
        assert p[..1] == LeadPath(id)[..1];
        FirstDiffers(p, LeadPath(id), 1);
      } else {
        assert p[..2] == LeadPath(id)[..2];
        if p[2] != id {
          FirstDiffers(p, LeadPath(id), 2);
        } else {
          assert p[..3] == LeadPath(id)[..3];
          FirstDiffers(p, LeadPath(id), 3);
        }
      }
    }
  }

  /** A lead that clamping would change. */
  predicate Excessive(lead: Option<Json>) {
    lead.Some? && lead.value.Num? && !InRange(lead.value.n)
  }

  lemma AcceptedOrClampable(strategies: seq<string>, c: Option<Json>)
    ensures LeadsAccepted(c) <==>
              LeadsClampable(strategies, c) && forall id :: id in strategies ==> !Excessive(LeadAt(c, id))
  {
    if LeadsAccepted(c) {
      forall id
        ensures LeadFits(LeadAt(c, id))
      {
        AcceptedLeadFits(c, id);
      }
    }
  }

  /** update validates without clamping. When the other validators pass, it accepts nothing that a load of the same
      tree would reject, and it rejects what a load would accept exactly when some registered output has a number out of
      range for a lead, all other leads being numbers in range or missing. */
  lemma ValidatorsPartIff(r: Rules, candidate: Json)
    requires Distinct(r.strategies) && FullCandidate(r, candidate).Some?
    requires var full, prepared := FullCandidate(r, candidate), Prepared(r, Some(MergeDeep(r.defaults, candidate)));
             && prepared.Some?
             && r.sourcesValid(full.value) && r.rest(full.value).Some?
             && r.sourcesValid(prepared.value) && r.rest(prepared.value).Some?
    ensures var full, loads := FullCandidate(r, candidate), Finish(r, Some(MergeDeep(r.defaults, candidate))).Ok?;
            && (Verdict(r, candidate) == None ==> loads)
            && (Verdict(r, candidate).Some? && loads <==>
                  LeadsClampable(r.strategies, full) && exists id :: id in r.strategies && Excessive(LeadAt(full, id)))
  {
    LoadAcceptsLeadsIff(r, Some(MergeDeep(r.defaults, candidate)));
    AcceptedOrClampable(r.strategies, FullCandidate(r, candidate));
  }

  lemma LeadKeysPlain(id: string)
    requires id !in FORBIDDEN
    ensures forall k :: k in LeadPath(id) ==> k !in FORBIDDEN
  {
    assert |"__proto__"| == 9 && |"constructor"| == 11 && |"prototype"| == 9;
    assert |"automation"| == 10 && |"outputs"| == 7 && |"leadTimeMs"| == 10;
  }

  lemma SavedLeadWins(d: Json, c: Json, id: string)
    requires d.Obj? && c.Obj? && Mergeable(d, c) && id !in FORBIDDEN
    ensures LeadAt(Some(c), id).Some? ==> KindOf(LeadAt(Some(MergeDeep(d, c)), id)) == KindOf(LeadAt(Some(c), id))
  {
    LeadKeysPlain(id);
    SavedValueWins(d, c, LeadPath(id));
  }

  lemma SavedValueWins(d: Json, c: Json, p: Path)
    requires d.Obj? && c.Obj? && Mergeable(d, c) && forall k :: k in p ==> k !in FORBIDDEN
    ensures Get(Some(c), p).Some? ==> KindOf(Get(Some(MergeDeep(d, c)), p)) == KindOf(Get(Some(c), p))
  {
    VoiceSays(Some(c), p);
    MergeMeetsSpec(d, c, p);
  }

  lemma AcceptedLeadFits(c: Option<Json>, id: string)
    requires LeadsAccepted(c)
    ensures LeadFits(LeadAt(c, id))
  {
    LeadIsChild(c, id);
  }

  lemma SecretApartFromLead(p: Path, id: string)
    requires SecretShape(p)
    ensures Apart(p, LeadPath(id))
  {
    KeysApart();
    assert |"params"| == 6 && |"leadTimeMs"| == 10;
    if |p| == 3 {
      FirstDiffers(p, LeadPath(id), 0);
    } else {
      assert p[..2] == LeadPath(id)[..2];
      if p[2] != id {
        FirstDiffers(p, LeadPath(id), 2);
      } else {
        assert p[..3] == p[..2] + [p[2]] == LeadPath(id)[..3];
        FirstDiffers(p, LeadPath(id), 3);
      }
    }
  }

  lemma EncryptingSparesLead(r: Rules, c: Json, id: string)
    requires WellDeclared(r.reg)
    ensures LeadAt(Some(Encrypted(r, c)), id) == LeadAt(Some(c), id)
  {
    SecretsHaveShape(r.reg, Some(c));
    forall p | p in SecretPaths(r.reg, Some(c))
      ensures Apart(p, LeadPath(id))
    {
      SecretApartFromLead(p, id);
    }
    GetUpdateAllApart(Some(c), SecretPaths(r.reg, Some(c)), Encrypting(r.cipher, r.iv), LeadPath(id));
  }

  /** So an update never stores a lead out of range, under any output a merge accepts. */
  lemma StoredLeadsInRange(r: Rules, candidate: Json, id: string)
    requires WellDeclared(r.reg) && Verdict(r, candidate) == None && id !in FORBIDDEN
    requires r.defaults.Obj? && candidate.Obj? && Mergeable(r.defaults, candidate)
    ensures LeadFits(LeadAt(Some(Encrypted(r, candidate)), id))
  {
    EncryptingSparesLead(r, candidate, id);
    var merged := Some(MergeDeep(r.defaults, candidate));
    OverrideSparesLead(r.env, r.reg, merged, id);
    AcceptedLeadFits(FullCandidate(r, candidate), id);
    SavedLeadWins(r.defaults, candidate, id);
    SameKindFits(LeadAt(Some(candidate), id), LeadAt(merged, id));
  }

  lemma SameKindFits(lead: Option<Json>, other: Option<Json>)
    requires LeadFits(other) && (lead.Some? ==> KindOf(other) == KindOf(lead))
    ensures LeadFits(lead)
  {
  }

  // ---------------------------------------------------------------- what is saved is what is loaded

  lemma EncryptingIsTame(c: Cipher, iv: Path -> nat)
    requires Authenticated(c)
    ensures Tame(Encrypting(c, iv)) && Absorbs(Decrypting(c), Encrypting(c, iv))
  {
    EncryptingKeepsAbsent(c, iv);
    forall p: Path, x
      ensures Encrypting(c, iv)(p, Some(x)) == Some(x) || (x.Str? && Encrypting(c, iv)(p, Some(x)).Some? && !IsObject(Encrypting(c, iv)(p, Some(x)).value))
      ensures Decrypting(c)(p, Encrypting(c, iv)(p, Some(x))) == Decrypting(c)(p, Some(x))
      ensures Encrypting(c, iv)(p, Some(x)).Some?
    {
      assert EncryptValue(c, iv(p), Some(x)) == Encrypting(c, iv)(p, Some(x));
    }
  }

  /** It never removes a value that is there. */
  ghost predicate Total(f: Action) {
    forall p, x :: f(p, Some(x)).Some?
  }

  lemma SecretsOfMerge(reg: Registry, d: Json, c: Json, qs: seq<Path>, f: Action)
    requires WellDeclared(reg) && d.Obj? && c.Obj? && Mergeable(d, c) && Among(qs, SecretPaths(reg, Some(c)))
    requires var c' := UpdateAll(Some(c), qs, f);
             c'.Some? && c'.value.Obj? && Mergeable(d, c'.value)
    requires Tame(f) && Total(f)
    ensures var c' := UpdateAll(Some(c), qs, f).value;
            SecretPaths(reg, Some(MergeDeep(d, c'))) == SecretPaths(reg, Some(MergeDeep(d, c)))
    ensures forall p :: p in SecretPaths(reg, Some(c)) ==> p in SecretPaths(reg, Some(MergeDeep(d, c)))
  {
    NamesArePlain();
    TypeOfMerge(reg, d, c, qs, f, "primary");
    TypeOfMerge(reg, d, c, qs, f, "backup");
    if SourceType(Some(c), "primary").Some? {
      SavedTypeWins(d, c, "primary");
    }
    if SourceType(Some(c), "backup").Some? {
      SavedTypeWins(d, c, "backup");
    }
  }

  lemma TypeOfMerge(reg: Registry, d: Json, c: Json, qs: seq<Path>, f: Action, role: string)
    requires WellDeclared(reg) && d.Obj? && c.Obj? && Mergeable(d, c) && Among(qs, SecretPaths(reg, Some(c)))
    requires var c' := UpdateAll(Some(c), qs, f);
             c'.Some? && c'.value.Obj? && Mergeable(d, c'.value)
    requires Tame(f) && Total(f)
    ensures var c' := UpdateAll(Some(c), qs, f).value;
            SourceType(Some(MergeDeep(d, c')), role) == SourceType(Some(MergeDeep(d, c)), role)
  {
    var c' := UpdateAll(Some(c), qs, f).value;
    var p := SourcePath(role, "type");
    SecretsSpareTypes(reg, SourceType(Some(c), "primary"), SourceType(Some(c), "backup"), role);
    assert forall q :: q in qs ==> q in SecretPaths(reg, Some(c));
    VoiceUnchangedBy(Some(c), qs, f, p);
    MergeMeetsSpec(d, c, p);
    MergeMeetsSpec(d, c', p);
    assert KindOf(Get(Some(MergeDeep(d, c')), p)) == KindOf(Get(Some(MergeDeep(d, c)), p));
  }

  lemma {:induction false} VoiceUnchangedBy(o: Option<Json>, ps: seq<Path>, f: Action, p: Path)
    requires KeepsAbsent(f) && forall q :: q in ps ==> Apart(q, p)
    ensures Voice(UpdateAll(o, ps, f), p) == Voice(o, p)
    decreases |ps|
  {
    if ps != [] {
      assert ps[0] in ps;
      VoiceUnchangedByOneEdit(o, ps[0], ps[0], f, p);
      VoiceUnchangedBy(Update(o, ps[0], ps[0], f), ps[1..], f, p);
    }
  }

  lemma {:induction false} VoiceUnchangedByOneEdit(o: Option<Json>, q: Path, at: Path, f: Action, p: Path)
    requires Apart(q, p) && f(at, None) == None
    ensures Voice(Update(o, q, at, f), p) == Voice(o, p)
    decreases |p|
  {
    if o == None || !o.value.Obj? {
      AbsentStaysAbsent(q[1..], at, f);
    } else if q[0] == p[0] {
      VoiceUnchangedByOneEdit(Child(o, p[0]), q[1..], at, f, p[1..]);
      var c := Update(Child(o, q[0]), q[1..], at, f);
      assert Child(SetChild(o, q[0], c), p[0]) == c;
    } else {
      var c := Update(Child(o, q[0]), q[1..], at, f);
      assert Child(SetChild(o, q[0], c), p[0]) == Child(o, p[0]);
    }
  }

  /** Two layers of which one is the other with some secrets encrypted decrypt alike once merged over the defaults. */
  lemma MergedDecryptsAlike(reg: Registry, cipher: Cipher, iv: Path -> nat, d: Json, c: Json, encrypted: Json, qs: seq<Path>)
    requires WellDeclared(reg) && Authenticated(cipher)
    requires d.Obj? && c.Obj? && encrypted.Obj? && Mergeable(d, c) && Mergeable(d, encrypted)
    requires Among(qs, SecretPaths(reg, Some(c))) && UpdateAll(Some(c), qs, Encrypting(cipher, iv)) == Some(encrypted)
    ensures DecryptAll(cipher, reg, Some(MergeDeep(d, encrypted))) == DecryptAll(cipher, reg, Some(MergeDeep(d, c)))
  {
    EncryptingIsTame(cipher, iv);
    EncryptingIsTotal(cipher, iv);
    SecretEditsAbsorbed(reg, d, c, encrypted, qs, Encrypting(cipher, iv), Decrypting(cipher));
  }

  lemma EncryptingIsTotal(cipher: Cipher, iv: Path -> nat)
    ensures Total(Encrypting(cipher, iv))
  {
    forall p: Path, x
      ensures Encrypting(cipher, iv)(p, Some(x)).Some?
    {
      assert EncryptValue(cipher, iv(p), Some(x)) == Encrypting(cipher, iv)(p, Some(x));
    }
  }

  lemma SecretEditsAbsorbed(reg: Registry, d: Json, c: Json, edited: Json, qs: seq<Path>, e: Action, f: Action)
    requires WellDeclared(reg) && Tame(e) && Absorbs(f, e) && Total(e)
    requires d.Obj? && c.Obj? && edited.Obj? && Mergeable(d, c) && Mergeable(d, edited)
    requires Among(qs, SecretPaths(reg, Some(c))) && UpdateAll(Some(c), qs, e) == Some(edited)
    ensures UpdateAll(Some(MergeDeep(d, edited)), SecretPaths(reg, Some(MergeDeep(d, edited))), f) ==
            UpdateAll(Some(MergeDeep(d, c)), SecretPaths(reg, Some(MergeDeep(d, c))), f)
  {
    SecretsOfMerge(reg, d, c, qs, e);
    SecretsApart(reg, Some(MergeDeep(d, c)));
    MergeAbsorbsSecrets(d, c, edited, qs, e, SecretPaths(reg, Some(MergeDeep(d, c))), f);
  }

  lemma SecretsApart(reg: Registry, root: Option<Json>)
    requires WellDeclared(reg)
    ensures PairwiseApart(SecretPaths(reg, root))
    ensures forall q :: q in SecretPaths(reg, root) ==> q != []
  {
    SecretPathsApart(reg, SourceType(root, "primary"), SourceType(root, "backup"));
  }

  lemma MergeAbsorbsSecrets(d: Json, c: Json, encrypted: Json, qs: seq<Path>, e: Action, ps: seq<Path>, f: Action)
    requires d.Obj? && c.Obj? && Mergeable(d, c) && Tame(e) && Absorbs(f, e)
    requires PairwiseApart(ps) && (forall q :: q in qs ==> q in ps) && forall p :: p in ps ==> p != []
    requires UpdateAll(Some(c), qs, e) == Some(encrypted)
    ensures UpdateAll(Some(MergeDeep(d, encrypted)), ps, f) == UpdateAll(Some(MergeDeep(d, c)), ps, f)
  {
    MergeAbsorbsEdits(d, c, qs, e, ps, f);
  }

  // ---------------------------------------------------------------- through the migration

  lemma OutputSecretShape(reg: Registry, p: Path)
    requires p in OutputSecretPaths(reg)
    ensures SecretShape(p)
  {
    var i :| 0 <= i < |reg.outputSecrets| && OutputSecretPaths(reg)[i] == p;
    assert p[..2] == Migration.OUTPUTS;
  }

  lemma SourceSecretShape(reg: Registry, kind: Option<string>, role: string, p: Path)
    requires WellDeclared(reg) && (role == "primary" || role == "backup") && p in SourceSecretPaths(reg, kind, role)
    ensures SecretShape(p)
  {
    var i :| 0 <= i < |reg.providers[kind.value].sensitive| && SourceSecretPaths(reg, kind, role)[i] == p;
  }

  lemma SecretsHaveShape(reg: Registry, root: Option<Json>)
    requires WellDeclared(reg)
    ensures SecretShapes(SecretPaths(reg, root))
  {
    forall p | p in SecretPaths(reg, root)
      ensures SecretShape(p)
    {
      if p in OutputSecretPaths(reg) {
        OutputSecretShape(reg, p);
      } else if p in SourceSecretPaths(reg, SourceType(root, "primary"), "primary") {
        SourceSecretShape(reg, SourceType(root, "primary"), "primary", p);
      } else {
        SourceSecretShape(reg, SourceType(root, "backup"), "backup", p);
      }
    }
  }

  /** The source types are positions no migration names. */
  lemma TypesUnnamed(role: string)
    requires role == "primary" || role == "backup"
    ensures Migration.Unnamed(SourcePath(role, "type"))
  {
    KeysApart();
    var p := SourcePath(role, "type");
    assert |"type"| == 4 && |"method"| == 6 && |"madhab"| == 6 && |"latitudeAdjustmentMethod"| == 24 && |"midnightMode"| == 12;
    forall q | q in Migration.NamedPaths()
      ensures Apart(q, p)
    {
      var i :| 0 <= i < |Migration.NamedPaths()| && Migration.NamedPaths()[i] == q;
      if i < 6 {
        assert q[0] != p[0];
        FirstDiffers(q, p, 0);
      } else if role == "backup" {
        assert q[0] == p[0] && q[..1] == p[..1];
        FirstDiffers(q, p, 1);
      } else {
        assert q[..2] == p[..2];
        FirstDiffers(q, p, 2);
      }
    }
  }

  lemma MigrationKeepsSecretPaths(reg: Registry, c: Option<Json>)
    ensures SecretPaths(reg, Migration.Migrate(c)) == SecretPaths(reg, c)
  {
    TypesUnnamed("primary");
    TypesUnnamed("backup");
    Migration.MigrateSpares(c, SourcePath("primary", "type"));
    Migration.MigrateSpares(c, SourcePath("backup", "type"));
  }

  /** Migrating an encrypted layer and migrating the layer itself leave trees of one version that decrypt alike
      over the defaults. */
  lemma MigratedDecryptsAlike(reg: Registry, cipher: Cipher, iv: Path -> nat, d: Json, c: Json, encrypted: Json)
    requires WellDeclared(reg) && Authenticated(cipher) && d.Obj? && c.Obj? && encrypted.Obj?
    requires EncryptAll(cipher, iv, reg, Some(c)) == Some(encrypted)
    ensures Migration.Version(Some(encrypted)) == Migration.Version(Some(c))
    ensures var (x, y) := (Migration.Migrate(Some(c)), Migration.Migrate(Some(encrypted)));
            && x.Some? && y.Some? && Migration.Version(y) == Migration.Version(x)
            && (Mergeable(d, x.value) ==>
                  DecryptAll(cipher, reg, Some(MergeDeep(d, y.value))) == DecryptAll(cipher, reg, Some(MergeDeep(d, x.value))))
  {
    var e, ps := Encrypting(cipher, iv), SecretPaths(reg, Some(c));
    var x, y := Migration.Migrate(Some(c)), Migration.Migrate(Some(encrypted));
    EncryptingKeepsAbsent(cipher, iv);
    SecretsHaveShape(reg, Some(c));
    assert Among(ps, ps) && Edited(Some(c), Some(encrypted), ps, e);
    MigrateEdited(Some(c), Some(encrypted), ps, e);
    Migration.MigrateStaysObject(c);
    Migration.MigrateStaysObject(encrypted);
    MigrationKeepsSecretPaths(reg, Some(c));
    if Mergeable(d, x.value) {
      var qs :| Among(qs, ps) && y == UpdateAll(x, qs, e);
      SomeEncryptedMergeable(reg, cipher, iv, d, x.value, qs);
      MergedDecryptsAlike(reg, cipher, iv, d, x.value, y.value, qs);
    }
  }

  lemma SomeEncryptedMergeable(reg: Registry, cipher: Cipher, iv: Path -> nat, d: Json, c: Json, qs: seq<Path>)
    requires WellDeclared(reg) && Authenticated(cipher) && d.Obj? && c.Obj? && Mergeable(d, c)
    requires Among(qs, SecretPaths(reg, Some(c)))
    ensures var c' := UpdateAll(Some(c), qs, Encrypting(cipher, iv)); c'.Some? && c'.value.Obj? && Mergeable(d, c'.value)
  {
    EncryptingIsTame(cipher, iv);
    SecretsApart(reg, Some(c));
    EditsKeepMergeable(d, c, qs, Encrypting(cipher, iv));
  }

  predicate MigrationDue(c: Json) {
    var migrated := Migration.Migrate(Some(c));
    migrated.Some? && VersionNumber(migrated) > VersionNumber(Some(c))
  }

  /** The layer a load merges for a saved tree, migrated if that is due. */
  function MergedLayer(c: Json): Json {
    if MigrationDue(c) then Migration.Migrate(Some(c)).value else c
  }

  lemma SavedLayer(r: Rules, c: Json, luck: LoadLuck)
    ensures LocalLayer(r, Saved(c), luck).1 == if MigrationDue(c) && !luck.migrationSaved then None else Some(MergedLayer(c))
  {
  }

  lemma CompleteNeedsTreeOnly(r: Rules, file: LocalFile, other: LocalFile, raw: Option<Json>, luck: LoadLuck)
    ensures Complete(r, file, raw, luck).1 == Complete(r, other, raw, luck).1
  {
  }

  lemma MergedLayersAlike(r: Rules, c: Json, encrypted: Json)
    requires WellDeclared(r.reg) && Authenticated(r.cipher)
    requires r.defaults.Obj? && c.Obj? && Mergeable(r.defaults, c) && Mergeable(r.defaults, MergedLayer(c))
    requires encrypted.Obj? && Mergeable(r.defaults, encrypted) && EncryptAll(r.cipher, r.iv, r.reg, Some(c)) == Some(encrypted)
    ensures MigrationDue(encrypted) <==> MigrationDue(c)
    ensures Layered(r, Some(MergedLayer(encrypted))) == Layered(r, Some(MergedLayer(c)))
  {
    MigratedDecryptsAlike(r.reg, r.cipher, r.iv, r.defaults, c, encrypted);
    if !MigrationDue(c) {
      MergedDecryptsAlike(r.reg, r.cipher, r.iv, r.defaults, c, encrypted, SecretPaths(r.reg, Some(c)));
    }
  }

  /** Encryption at rest is invisible whatever the version: loading the encrypted candidate, migrated on the way or
      not, gives what loading the candidate itself would give, so a saved configuration is the one that comes back. */
  lemma LoadIgnoresEncryption(r: Rules, c: Json, luck: LoadLuck)
    requires WellDeclared(r.reg) && Authenticated(r.cipher)
    requires r.defaults.Obj? && c.Obj? && Mergeable(r.defaults, c) && Mergeable(r.defaults, MergedLayer(c))
    ensures Load(r, Saved(Encrypted(r, c)), luck).1 == Load(r, Saved(c), luck).1
  {
    var encrypted := Encrypted(r, c);
    EncryptedIsObject(r, c);
    MergedLayersAlike(r, c, encrypted);
    SavedLayer(r, c, luck);
    SavedLayer(r, encrypted, luck);
    var (file, layer) := LocalLayer(r, Saved(c), luck);
    var (other, layer') := LocalLayer(r, Saved(encrypted), luck);
    assert Layered(r, layer') == Layered(r, layer);
    CompleteNeedsTreeOnly(r, file, other, Layered(r, layer), luck);
  }

  /** Decryption comes between the merge and the second migration, and that is the identity all the same once the
      local layer was migrated. */
  lemma SecondMigrationIsIdentity(cipher: Cipher, reg: Registry, d: Json, local: Json)
    requires WellDeclared(reg) && d.Obj? && local.Obj? && Migration.Migratable(Migration.Version(Some(local)))
    ensures var migrated := Migration.Migrate(Some(local));
            && migrated.Some? && migrated.value.Obj?
            && var decrypted := DecryptAll(cipher, reg, Some(MergeDeep(d, migrated.value)));
               Migration.Migrate(decrypted) == decrypted
  {
    Migration.MigrateReachesFive(Some(local));
    Migration.MigrateStaysObject(local);
    var migrated := Migration.Migrate(Some(local)).value;
    Migration.MergedVersion(d, migrated);
    var merged := Some(MergeDeep(d, migrated));
    SecretsHaveShape(reg, merged);
    KeysApart();
    forall p | p in SecretPaths(reg, merged)
      ensures Apart(p, Migration.VERSION)
    {
      ElsewhereApart(p, Migration.VERSION);
    }
    GetUpdateAllApart(merged, SecretPaths(reg, merged), Decrypting(cipher), Migration.VERSION);
    Migration.MigrateReachesFive(DecryptAll(cipher, reg, merged));
  }

  lemma EncryptedIsObject(r: Rules, c: Json)
    requires WellDeclared(r.reg) && Authenticated(r.cipher)
    requires r.defaults.Obj? && c.Obj? && Mergeable(r.defaults, c)
    ensures EncryptAll(r.cipher, r.iv, r.reg, Some(c)) == Some(Encrypted(r, c))
    ensures Encrypted(r, c).Obj? && Mergeable(r.defaults, Encrypted(r, c))
  {
    EncryptingIsTame(r.cipher, r.iv);
    EditsKeepMergeable(r.defaults, c, SecretPaths(r.reg, Some(c)), Encrypting(r.cipher, r.iv));
  }

  lemma {:induction false} EditsKeepMergeable(d: Json, c: Json, qs: seq<Path>, e: Action)
    requires d.Obj? && c.Obj? && Mergeable(d, c) && Tame(e) && forall q :: q in qs ==> q != []
    ensures var c' := UpdateAll(Some(c), qs, e); c'.Some? && c'.value.Obj? && Mergeable(d, c'.value)
    decreases |qs|
  {
    if qs != [] {
      assert qs[0] in qs;
      assert forall q :: q in qs[1..] ==> q in qs;
      TameKeepsMergeable(d, c, qs[0], qs[0], e);
      EditsKeepMergeable(d, Update(Some(c), qs[0], qs[0], e).value, qs[1..], e);
    }
  }

  /** A consulted variable supplies each provider secret the candidate holds. */
  ghost predicate SecretsSupplied(r: Rules, c: Json) {
    forall p :: p in ProviderPaths(r.reg, Some(c)) && Get(Some(c), p).Some? ==>
      Dictated(r.env, p) != "" && Truthy(Child(Some(MergeDeep(r.defaults, c)), "automation"))
  }

  /** update validates after all of _stripSecrets. Over defaults without provider secrets the validators see the tree they
      would see without it exactly when a consulted variable supplies each secret it removed, and then the verdict is that
      on the unstripped candidate. */
  lemma ValidationIgnoresStrippingIff(r: Rules, c: Json)
    requires WellDeclared(r.reg) && PlainKeys(r.reg) && r.defaults.Obj? && c.Obj? && Mergeable(r.defaults, c)
    requires forall p :: p in ProviderPaths(r.reg, Some(c)) ==> Get(Some(r.defaults), p) == None
    ensures var stripped := Strip(r.env, r.reg, Some(c));
            && stripped.Some?
            && (FullCandidate(r, stripped.value) == FullCandidate(r, c) <==> SecretsSupplied(r, c))
            && (SecretsSupplied(r, c) ==> Verdict(r, stripped.value) == Verdict(r, c))
  {
    StripInvisibleIff(r.env, r.reg, r.defaults, c);
  }

  /** With providers that declare no secret the verdict is always that on the unstripped candidate. */
  lemma VerdictIgnoresStripping(r: Rules, c: Json)
    requires WellDeclared(r.reg) && NoProviderSecrets(r.reg) && r.defaults.Obj? && c.Obj? && Mergeable(r.defaults, c)
    ensures var stripped := Strip(r.env, r.reg, Some(c));
            stripped.Some? && Verdict(r, stripped.value) == Verdict(r, c)
  {
    StripInvisibleWithoutSecrets(r.env, r.reg, r.defaults, c);
  }
}
