/** What a load puts in force, path by path: the environment's values, else the file's, else the defaults. */
module ConfigReload {
  import opened Outcomes
  import opened JsonTree
  import opened ConfigMerge
  import opened ConfigLayers
  import opened ConfigSecrets
  import opened ConfigOverrides
  import opened ConfigLeads
  import opened ConfigLoad
  import opened ConfigUpdates
  import opened ConfigPositions
  import opened MigratedSecrets
  import Migration

  /** Outside the outputs, or within one output but apart from its lead time. */
  predicate AwayFromLeads(p: Path) {
    || Apart(["automation", "outputs"], p)
    || (|p| > 3 && p[..2] == ["automation", "outputs"] && p[3] != "leadTimeMs")
  }

  /** The schema takes the value over as it finds it. */
  ghost predicate TakenOver(r: Rules, p: Path) {
    forall c :: r.rest(c).Some? ==> Get(r.rest(c), p) == Get(Some(c), p)
  }

  lemma AwayFromLead(p: Path, id: string)
    requires AwayFromLeads(p)
    ensures Apart(LeadPath(id), p)
  {
    if Apart(["automation", "outputs"], p) {
      assert LeadPath(id)[..2] == ["automation", "outputs"];
      LongerApart(LeadPath(id), p, 2);
    } else if p[2] == id {
      assert p[..3] == LeadPath(id)[..3] && LeadPath(id)[3] == "leadTimeMs";
      FirstDiffers(LeadPath(id), p, 3);
    } else {
      FirstDiffers(LeadPath(id), p, 2);
    }
  }

  lemma GetThrough(o: Option<Json>, p: Path)
    requires |p| > 3 && p[..2] == ["automation", "outputs"]
    ensures Get(o, p) == Get(Child(Child(Outputs(o), p[2]), p[3]), p[4..])
  {
    Migration.GetSplit(o, p[..2], p[2..]);
    assert p[..2] + p[2..] == p;
    assert p[2..][0] == p[2] && p[2..][1..] == p[3..] && p[3..][0] == p[3] && p[3..][1..] == p[4..];
  }

  /** Setting the leads moves nothing else. */
  lemma LeadsSetAside(parsed: Json, c: Json, p: Path)
    requires AwayFromLeads(p) && Get(Some(parsed), p) == Get(Some(c), p)
    ensures Get(Some(WithLeads(parsed, Some(c))), p) == Get(Some(c), p)
  {
    var outputs := Obj(map id | id in OutputIds(Some(c)) ::
                         SetChild(Child(Outputs(Some(parsed)), id), "leadTimeMs", Some(ParsedLead(LeadAt(Some(c), id)))).GetOr(Null));
    UpdateKeepsSome(Some(parsed), Migration.OUTPUTS, Migration.OUTPUTS, Constantly(Some(outputs)));
    if Apart(["automation", "outputs"], p) {
      GetUpdateApart(Some(parsed), Migration.OUTPUTS, Migration.OUTPUTS, Constantly(Some(outputs)), p);
    } else {
      GetUpdateSame(Some(parsed), Migration.OUTPUTS, Migration.OUTPUTS, Constantly(Some(outputs)));
      GetThrough(Some(parsed), p);
      GetThrough(Some(c), p);
      GetThrough(Some(WithLeads(parsed, Some(c))), p);
      if p[2] !in OutputIds(Some(c)) {
        GetNone(p[4..]);
      }
    }
  }

  lemma ParsedSpares(r: Rules, c: Json, p: Path)
    requires Schema(r, c).Some? && AwayFromLeads(p) && TakenOver(r, p)
    ensures Get(Some(Schema(r, c).value), p) == Get(Some(c), p)
  {
    LeadsSetAside(r.rest(c).value, c, p);
  }

  lemma ClampingSpares(strategies: seq<string>, c: Option<Json>, p: Path)
    requires AwayFromLeads(p)
    ensures Get(ClampLeads(strategies, c), p) == Get(c, p)
  {
    forall q | q in LeadPaths(strategies)
      ensures Apart(q, p)
    {
      var i :| 0 <= i < |strategies| && LeadPaths(strategies)[i] == q;
      AwayFromLead(p, strategies[i]);
    }
    GetUpdateAllApart(c, LeadPaths(strategies), Clamping(), p);
  }

  lemma ManagedIsAway(env: Env, reg: Registry, p: Path, v: string)
    requires Manages(env, reg, p, v)
    ensures AwayFromLeads(p) && Apart(["sources", "primary"], p) && Apart(["sources", "backup"], p)
  {
    KeysApart();
    assert |"baseUrl"| == 7 && |"pythonServiceUrl"| == 16 && |"outputs"| == 7 && "baseUrl"[0] == 'b' && "outputs"[0] == 'o';
    assert |"params"| == 6 && |"leadTimeMs"| == 10;
    FirstDiffers(["sources", "primary"], p, 0);
    FirstDiffers(["sources", "backup"], p, 0);
    if |p| == 2 {
      assert ["automation", "outputs"][..1] == p[..1];
      FirstDiffers(["automation", "outputs"], p, 1);
    } else {
      assert p[..2] == ["automation", "outputs"];
    }
  }

  /** A load that succeeds holds what the environment manages where it manages anything, and elsewhere, apart from the
      sources, what migration and merge came to. */
  lemma HeldSays(r: Rules, raw: Option<Json>, p: Path, v: string)
    requires WellDeclared(r.reg) && Finish(r, raw).Ok? && TakenOver(r, p)
    ensures Truthy(Child(raw, "automation")) && v != "" && Manages(r.env, r.reg, p, v) ==>
              Get(Some(Finish(r, raw).value), p) == Some(Str(v))
    ensures Ordinary(r, p) && AwayFromLeads(p) ==> Get(Some(Finish(r, raw).value), p) == Get(raw, p)
  {
    if Manages(r.env, r.reg, p, v) {
      ManagedIsAway(r.env, r.reg, p, v);
    }
    if AwayFromLeads(p) && Apart(["sources", "primary"], p) && Apart(["sources", "backup"], p) {
      var effective := Effective(r, raw);
      ClampingSpares(r.strategies, effective, p);
      CleaningSpares(r.reg, ClampLeads(r.strategies, effective), p);
      ParsedSpares(r, Prepared(r, raw).value, p);
      if Ordinary(r, p) {
        OverridingSpares(r, raw, p);
      }
      if Truthy(Child(raw, "automation")) && v != "" {
        OverrideSays(r.env, r.reg, raw, p, v);
      }
    }
  }

  lemma SourceIsAway(role: string, k: string)
    ensures AwayFromLeads(SourcePath(role, k))
  {
    KeysApart();
    FirstDiffers(["automation", "outputs"], SourcePath(role, k), 0);
  }

  lemma OverriddenApartFromType(env: Env, reg: Registry, m: Option<Json>, q: Path, role: string)
    requires WellDeclared(reg) && (q in ManagedPaths(env, reg) || q in ProviderPaths(reg, m))
    ensures Apart(q, SourcePath(role, "type"))
  {
    if q in ManagedPaths(env, reg) {
      ManagedPathShape(env, reg, q);
      KeysApart();
      FirstDiffers(q, SourcePath(role, "type"), 0);
    } else {
      ListedIsSecret(reg, m, q);
      SourcePathsApart(q[1], q[2], role, "type");
    }
  }

  lemma OverridingKeepsType(env: Env, reg: Registry, m: Option<Json>, role: string)
    requires WellDeclared(reg)
    ensures SourceType(Override(env, reg, m), role) == SourceType(m, role)
  {
    if Truthy(Child(m, "automation")) {
      OverrideIsOnePass(env, reg, m);
      var ps := ManagedPaths(env, reg) + DictatedOnly(env, ProviderPaths(reg, m));
      forall q | q in ps
        ensures Apart(q, SourcePath(role, "type"))
      {
        OverriddenApartFromType(env, reg, m, q, role);
      }
      TypeSurvives(m, ps, Putting(env), role);
    }
  }

  /** Cleaning and parsing, for a source of a named type. */
  lemma SourceFinished(r: Rules, raw: Option<Json>, role: string, k: string)
    requires WellDeclared(r.reg) && Finish(r, raw).Ok? && TakenOver(r, ["sources", role, k])
    requires (role == "primary" || role == "backup") && SourceType(raw, role).Some?
    ensures var kind := SourceType(raw, role).value;
            Get(Some(Finish(r, raw).value), SourcePath(role, k))
            == if kind in r.reg.providers && !(k in ["type", "enabled"] || PublicField(r.reg.providers[kind], k)
                                               || k in r.reg.providers[kind].sensitive)
               then None else Get(Effective(r, raw), SourcePath(role, k))
  {
    var effective := Effective(r, raw);
    var clamped := ClampLeads(r.strategies, effective);
    SourceIsAway(role, k);
    SourceIsAway(role, "type");
    ClampingSpares(r.strategies, effective, SourcePath(role, k));
    ClampingSpares(r.strategies, effective, SourcePath(role, "type"));
    OverridingKeepsType(r.env, r.reg, raw, role);
    ParsedSpares(r, Prepared(r, raw).value, SourcePath(role, k));
    FieldOf(clamped, role, "type");
    CleanedField(r.reg, clamped, role, k);
  }

  /** In a source of a named type a load holds the environment's value of a sensitive parameter where there is one.
      Elsewhere it holds exactly the fields that a registered type knows, and all of an unregistered one. */
  lemma HeldSourceSays(r: Rules, raw: Option<Json>, role: string, k: string)
    requires WellDeclared(r.reg) && Finish(r, raw).Ok? && TakenOver(r, ["sources", role, k])
    requires (role == "primary" || role == "backup") && SourceType(raw, role).Some?
    ensures var held, kind := Get(Some(Finish(r, raw).value), ["sources", role, k]), SourceType(raw, role).value;
            var supplied := Truthy(Child(raw, "automation")) && ProviderSecret(r.reg, raw, role, k)
                            && r.env.providerSecret(k) != "";
            && (supplied ==> held == Some(Str(r.env.providerSecret(k))))
            && (!supplied && kind in r.reg.providers ==>
                  held == if k in ["type", "enabled"] || PublicField(r.reg.providers[kind], k) || k in r.reg.providers[kind].sensitive
                          then Get(raw, ["sources", role, k]) else None)
            && (!supplied && kind !in r.reg.providers ==> held == Get(raw, ["sources", role, k]))
  {
    SourceFinished(r, raw, role, k);
    SourceOverridden(r, raw, role, k);
  }

  lemma SourceOverridden(r: Rules, raw: Option<Json>, role: string, k: string)
    requires WellDeclared(r.reg) && (role == "primary" || role == "backup")
    ensures var supplied := Truthy(Child(raw, "automation")) && ProviderSecret(r.reg, raw, role, k) && r.env.providerSecret(k) != "";
            Get(Override(r.env, r.reg, raw), ["sources", role, k])
            == if supplied then Some(Str(r.env.providerSecret(k))) else Get(raw, ["sources", role, k])
  {
    var p := SourcePath(role, k);
    if Truthy(Child(raw, "automation")) && ProviderSecret(r.reg, raw, role, k) && r.env.providerSecret(k) != "" {
      assert Supplies(r.env, r.reg, raw, p, r.env.providerSecret(k));
      OverrideSays(r.env, r.reg, raw, p, r.env.providerSecret(k));
    } else if Truthy(Child(raw, "automation")) {
      forall q, v | v != "" && (Manages(r.env, r.reg, q, v) || Supplies(r.env, r.reg, raw, q, v))
        ensures Apart(q, p)
      {
        if Manages(r.env, r.reg, q, v) {
          KeysApart();
          FirstDiffers(q, p, 0);
        } else {
          SourcePathsApart(q[1], q[2], role, k);
        }
      }
      OverrideSparesRest(r.env, r.reg, raw, p);
    }
  }

  // ---------------------------------------------------------------- from the file to the configuration in force

  /** A file is upgraded exactly when its version is missing, falsy or one of the first four. */
  lemma MigrationDueIff(c: Json)
    ensures MigrationDue(c) <==>
              var version := Get(Some(c), ["version"]);
              !Truthy(version) || version in {Some(Num(1.0)), Some(Num(2.0)), Some(Num(3.0)), Some(Num(4.0))}
  {
    GetNone(["version"]);
    Migration.MigrateReachesFive(Some(c));
  }

  /** The file can be used: it is there, and needs no upgrade or the upgrade can be saved. */
  predicate Usable(local: LocalFile, luck: LoadLuck) {
    local.Saved? && (MigrationDue(local.tree) ==> luck.migrationSaved)
  }

  /** A load that succeeds holds, apart from sources, secrets, leads and what the environment or a migration decides,
      each value of the file, and the default where the file says nothing. It holds the defaults alone for a file that is
      missing, blank, not JSON, or due for an upgrade that cannot be saved. */
  lemma LoadSays(r: Rules, local: LocalFile, luck: LoadLuck, p: Path, v: Json)
    requires WellDeclared(r.reg) && KeptAsSent(r, p) && AwayFromLeads(p) && TakenOver(r, p) && NothingMoves(r)
    requires Load(r, local, luck).1.Ok? && r.defaults.Obj?
    requires Usable(local, luck) ==> MergedLayer(local.tree).Obj? && Mergeable(r.defaults, MergedLayer(local.tree))
    ensures var held := Get(Some(Load(r, local, luck).1.value), p);
            && (!Usable(local, luck) ==> held == Get(Some(r.defaults), p))
            && (Usable(local, luck) && Get(Some(local.tree), p) == Some(v) && !v.Obj? ==> held == Some(v))
            && (Usable(local, luck) && Voice(Some(MergedLayer(local.tree)), p) == Silent ==>
                  KindOf(held) == KindOf(Get(Some(r.defaults), p)))
  {
    var layer := LocalLayer(r, local, luck).1;
    var raw := Layered(r, layer);
    assert layer == if Usable(local, luck) then Some(MergedLayer(local.tree)) else None;
    HeldSays(r, raw, p, "");
    LayeringSpares(r, layer, p);
    if Usable(local, luck) {
      LayerSpares(local.tree, p);
      MergeMeetsSpec(r.defaults, MergedLayer(local.tree), p);
      if Get(Some(local.tree), p) == Some(v) && !v.Obj? {
        LayeredSpares(r, MergedLayer(local.tree), p, v);
      }
    }
  }

  /** When secrets move out of the environment, it is the tree they moved into that is in force and in the file. */
  lemma MovedSays(r: Rules, local: LocalFile, luck: LoadLuck, moved: Json, p: Path)
    requires WellDeclared(r.reg) && KeptAsSent(r, p) && AwayFromLeads(p) && TakenOver(r, p)
    requires var raw := Layered(r, LocalLayer(r, local, luck).1); raw.Some? && r.envMigrate(raw.value) == Some(moved)
    requires Load(r, local, luck).1.Ok?
    ensures var (file, held) := Load(r, local, luck);
            && luck.secretsSaved && Get(Some(held.value), p) == Get(Some(moved), p)
            && file.Saved? && Get(Some(file.tree), p) == Get(Some(moved), p)
  {
    HeldSays(r, Some(moved), p, "");
    EncryptingSpares(r, moved, p);
  }

  /** What is stored holds no readable secret. */
  lemma StoredUnreadable(r: Rules, c: Json, p: Path)
    requires WellDeclared(r.reg) && Authenticated(r.cipher) && p in SecretPaths(r.reg, Some(Encrypted(r, c)))
    ensures Unreadable(Get(Some(Encrypted(r, c)), p))
  {
    forall q | q in SecretPaths(r.reg, Some(c))
      ensures q != []
    {
      SecretPositions(r.reg, Some(c), q);
    }
    AllKeepSome(Some(c), SecretPaths(r.reg, Some(c)), Encrypting(r.cipher, r.iv));
    EncryptedUnreadable(r.cipher, r.iv, r.reg, Some(c), p);
  }

  lemma LayeringSpares(r: Rules, layer: Option<Json>, p: Path)
    requires WellDeclared(r.reg) && KeptAsSent(r, p)
    ensures Get(Layered(r, layer), p) == Get(Some(if layer.Some? then MergeDeep(r.defaults, layer.value) else r.defaults), p)
  {
    var merged := Some(if layer.Some? then MergeDeep(r.defaults, layer.value) else r.defaults);
    SecretsApartFrom(r, merged, p);
    GetUpdateAllApart(merged, SecretPaths(r.reg, merged), Decrypting(r.cipher), p);
    Migration.MigrateSpares(DecryptAll(r.cipher, r.reg, merged), p);
  }

  // ---------------------------------------------------------------- after an update

  ghost predicate InForce(r: Rules, config: Option<Json>, p: Path, v: Json) {
    AwayFromLeads(p) && TakenOver(r, p) ==> Get(config, p) == Some(v)
  }

  /** Everything sent in this way is in the configuration. */
  ghost predicate AllSentInForce(r: Rules, partial: Json, config: Option<Json>) {
    forall p, v :: Sent(r, partial, p, v) ==> InForce(r, config, p, v)
  }

  /** So when an update returns, all that was sent in this way is in force, unless the upgrade of its file could not be
      saved. */
  lemma SentInForceAfterLoad(r: Rules, local: LocalFile, partial: Json, luck: LoadLuck)
    requires WellDeclared(r.reg) && NothingMoves(r) && r.defaults.Obj?
    requires Current(local).Obj? && partial.Obj? && Mergeable(Current(local), partial) && Candidate(r, local, partial).Some?
    requires var stored := Encrypted(r, Candidate(r, local, partial).value);
             && Usable(Saved(stored), luck) && Load(r, Saved(stored), luck).1.Ok?
             && MergedLayer(stored).Obj? && Mergeable(r.defaults, MergedLayer(stored))
    ensures var loaded := Load(r, Saved(Encrypted(r, Candidate(r, local, partial).value)), luck);
            AllSentInForce(r, partial, Some(loaded.1.value))
  {
    var stored := Encrypted(r, Candidate(r, local, partial).value);
    forall p, v | Sent(r, partial, p, v)
      ensures InForce(r, Some(Load(r, Saved(stored), luck).1.value), p, v)
    {
      SentIsStoredAndLoaded(r, local, partial, p, v);
      if AwayFromLeads(p) && TakenOver(r, p) {
        LoadSays(r, Saved(stored), luck, p, v);
      }
    }
  }
}
