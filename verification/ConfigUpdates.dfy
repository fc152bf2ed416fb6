/** What a partial update puts into local.json, path by path, and that the load after it finds it there. */
module ConfigUpdates {
  import opened Outcomes
  import opened JsonTree
  import opened ConfigMerge
  import opened ConfigSecrets
  import opened ConfigOverrides
  import opened ConfigLeads
  import opened MigratedSecrets
  import opened ConfigLoad
  import Migration

  // ---------------------------------------------------------------- positions an update treats like any other

  /** No key of the path is one the merge refuses. */
  predicate PlainPath(p: Path) {
    forall k :: k in p ==> k != "__proto__" && k != "constructor" && k != "prototype"
  }

  /** Apart from both sources, and from every position of which the environment holds the value. */
  ghost predicate Ordinary(r: Rules, p: Path) {
    && PlainPath(p)
    && Apart(["sources", "primary"], p) && Apart(["sources", "backup"], p)
    && forall q :: q in [BASE_URL, PYTHON_SERVICE_URL] + OutputSecretPaths(r.reg) && Dictated(r.env, q) != "" ==> Apart(q, p)
  }

  /** The tree in the file, nothing for a file that is missing, blank or not JSON. */
  function Current(local: LocalFile): Json {
    if local.Saved? then local.tree else Obj(map[])
  }

  /** Something above the path is replaced by a value that has no keys. */
  ghost predicate CutAbove(partial: Json, p: Path) {
    exists n :: 0 <= n < |p| && Get(Some(partial), p[..n]).Some? && !Get(Some(partial), p[..n]).value.Obj?
  }

  // ---------------------------------------------------------------- what the voice of a layer means

  lemma {:induction false} VoiceMeans(s: Json, p: Path)
    requires PlainPath(p)
    ensures Get(Some(s), p).Some? ==> Voice(Some(s), p) == Says(KindOf(Get(Some(s), p)))
    ensures Get(Some(s), p) == None ==> Voice(Some(s), p) == if CutAbove(s, p) then Cuts else Silent
    decreases |p|
  {
    if p != [] {
      assert p[..0] == [] && Get(Some(s), []) == Some(s);
      if !s.Obj? {
        KindOfLeaf(Some(s), p);
        assert CutAbove(s, p);
      } else {
        assert p[0] in p && forall k :: k in p[1..] ==> k in p;
        var child := Child(Some(s), p[0]);
        CutBelow(s, p);
        if child == None {
          GetNone(p[1..]);
        } else {
          VoiceMeans(child.value, p[1..]);
        }
      }
    }
  }

  lemma CutBelow(s: Json, p: Path)
    requires p != [] && s.Obj?
    ensures CutAbove(s, p) <==> Child(Some(s), p[0]).Some? && CutAbove(Child(Some(s), p[0]).value, p[1..])
  {
    var child := Child(Some(s), p[0]);
    if n :| 0 <= n < |p| && Get(Some(s), p[..n]).Some? && !Get(Some(s), p[..n]).value.Obj? {
      assert n > 0 && p[..n][0] == p[0] && p[..n][1..] == p[1..][..n - 1];
      if child == None {
        GetNone(p[1..][..n - 1]);
      }
    }
    if child.Some? && CutAbove(child.value, p[1..]) {
      var n :| 0 <= n < |p[1..]| && Get(child, p[1..][..n]).Some? && !Get(child, p[1..][..n]).value.Obj?;
      assert p[..n + 1][0] == p[0] && p[..n + 1][1..] == p[1..][..n];
      assert Get(Some(s), p[..n + 1]) == Get(child, p[1..][..n]);
    }
  }

  // ---------------------------------------------------------------- the candidate

  lemma CleaningSpares(reg: Registry, c: Option<Json>, p: Path)
    requires Apart(["sources", "primary"], p) && Apart(["sources", "backup"], p)
    ensures Get(CleanSources(reg, c), p) == Get(c, p)
  {
    GetUpdateAllApart(c, [["sources", "primary"], ["sources", "backup"]], Cleaning(reg), p);
  }

  lemma CleaningKeepsSome(reg: Registry, c: Json)
    ensures CleanSources(reg, Some(c)).Some?
  {
    var ps: seq<Path> := [["sources", "primary"], ["sources", "backup"]];
    AllKeepSome(Some(c), ps, Cleaning(reg));
  }

  lemma {:induction false} AllKeepSome(o: Option<Json>, ps: seq<Path>, f: Action)
    requires o.Some? && forall p :: p in ps ==> p != []
    ensures UpdateAll(o, ps, f).Some?
    decreases |ps|
  {
    if ps != [] {
      assert ps[0] in ps && forall p :: p in ps[1..] ==> p in ps;
      UpdateKeepsSome(o, ps[0], ps[0], f);
      AllKeepSome(Update(o, ps[0], ps[0], f), ps[1..], f);
    }
  }

  lemma {:induction false} LongerApart(q: Path, p: Path, n: nat)
    requires n <= |q| && Apart(q[..n], p)
    ensures Apart(q, p)
    decreases n
  {
    assert q[..n] != [];
    assert q[..n][0] == q[0] && q[..n][1..] == q[1..][..n - 1];
    if q[0] == p[0] {
      LongerApart(q[1..], p[1..], n - 1);
    }
  }

  lemma StrippingSpares(r: Rules, c: Json, p: Path)
    requires WellDeclared(r.reg) && Ordinary(r, p)
    ensures Strip(r.env, r.reg, Some(c)).Some?
    ensures Get(Strip(r.env, r.reg, Some(c)), p) == Get(Some(c), p)
  {
    var managed := ManagedPaths(r.env, r.reg);
    forall q | q in managed
      ensures q != [] && Apart(q, p)
    {
      ManagedPathShape(r.env, r.reg, q);
    }
    AllKeepSome(Some(c), managed, Removing());
    GetUpdateAllApart(Some(c), managed, Removing(), p);
    var c1 := StripManaged(r.env, r.reg, Some(c));
    forall q | q in ProviderPaths(r.reg, c1)
      ensures q != [] && Apart(q, p)
    {
      ProviderPathShape(r.reg, c1, q);
      assert q[..2] == ["sources", q[1]];
      LongerApart(q, p, 2);
    }
    AllKeepSome(c1, ProviderPaths(r.reg, c1), Removing());
    GetUpdateAllApart(c1, ProviderPaths(r.reg, c1), Removing(), p);
  }

  /** Away from the sources and from what the environment manages, the candidate has at each path just what the caller sent
      where the caller sent something, nothing below a value the caller replaced whole, and what the file had elsewhere. */
  lemma CandidateSays(r: Rules, local: LocalFile, partial: Json, p: Path)
    requires WellDeclared(r.reg) && Ordinary(r, p)
    requires Current(local).Obj? && partial.Obj? && Mergeable(Current(local), partial)
    ensures var c := Candidate(r, local, partial);
            && c.Some?
            && var (sent, kept) := (Get(Some(partial), p), Get(Some(Current(local)), p));
               KindOf(Get(c, p)) == if sent.Some? then KindOf(sent) else if CutAbove(partial, p) then Missing else KindOf(kept)
  {
    var merged := MergeDeep(Current(local), partial);
    CleaningKeepsSome(r.reg, merged);
    CleaningSpares(r.reg, Some(merged), p);
    StrippingSpares(r, CleanSources(r.reg, Some(merged)).value, p);
    VoiceMeans(partial, p);
    MergeMeetsSpec(Current(local), partial, p);
  }

  /** A value without keys arrives as it was sent. */
  lemma SentArrives(r: Rules, local: LocalFile, partial: Json, p: Path, v: Json)
    requires WellDeclared(r.reg) && Ordinary(r, p)
    requires Current(local).Obj? && partial.Obj? && Mergeable(Current(local), partial)
    requires Get(Some(partial), p) == Some(v) && !v.Obj?
    ensures Candidate(r, local, partial).Some? && Get(Candidate(r, local, partial), p) == Some(v)
  {
    CandidateSays(r, local, partial, p);
    LeafIs(Get(Candidate(r, local, partial), p), v);
  }

  lemma LeafIs(o: Option<Json>, v: Json)
    requires KindOf(o) == KindOf(Some(v)) && !v.Obj?
    ensures o == Some(v)
  {
  }

  // ---------------------------------------------------------------- the two sources

  /** A field of a source that a registered provider knows and does not declare sensitive. */
  predicate PublicField(provider: Provider, k: string) {
    (k == "type" || k == "enabled" || k in provider.parameters || k in provider.sensitive) && k !in provider.sensitive
  }

  /** In a source of a registered type the candidate keeps exactly the fields that type knows, but for its secrets, each as
      the merge of file and partial has it; a source of another type is left as merged. */
  lemma SourceFieldSays(r: Rules, local: LocalFile, partial: Json, role: string, k: string)
    requires WellDeclared(r.reg) && (role == "primary" || role == "backup")
    requires var source := Get(Some(MergeDeep(Current(local), partial)), ["sources", role]); source.Some? && source.value.Obj?
    ensures var merged := Some(MergeDeep(Current(local), partial));
            var kind := SourceType(merged, role);
            Get(Candidate(r, local, partial), SourcePath(role, k)) ==
            if kind.Some? && kind.value in r.reg.providers && !PublicField(r.reg.providers[kind.value], k) then None
            else Get(merged, SourcePath(role, k))
  {
    var merged := Some(MergeDeep(Current(local), partial));
    var cleaned := CleanSources(r.reg, merged);
    CleanedField(r.reg, merged, role, k);
    CleanedField(r.reg, merged, role, "type");
    StrippedField(r, cleaned, role, k);
  }

  lemma FieldOf(c: Option<Json>, role: string, k: string)
    ensures Get(c, SourcePath(role, k)) == Child(Get(c, ["sources", role]), k)
  {
    assert SourcePath(role, k) == ["sources", role] + [k];
    Migration.GetAppend(c, ["sources", role], k);
  }

  lemma CleanedField(reg: Registry, c: Option<Json>, role: string, k: string)
    requires (role == "primary" || role == "backup") && Get(c, ["sources", role]).Some? && Get(c, ["sources", role]).value.Obj?
    ensures var kind := SourceType(c, role);
            Get(CleanSources(reg, c), SourcePath(role, k)) ==
            if kind.Some? && kind.value in reg.providers
               && !(k == "type" || k == "enabled" || k in reg.providers[kind.value].parameters || k in reg.providers[kind.value].sensitive)
            then None else Get(c, SourcePath(role, k))
  {
    var ps: seq<Path> := [["sources", "primary"], ["sources", "backup"]];
    KeysApart();
    assert Apart(ps[0], ps[1]) by {
      assert ps[0][..1] == ps[1][..1];
      FirstDiffers(ps[0], ps[1], 1);
    }
    GetUpdateAllSame(c, ps, Cleaning(reg), ["sources", role]);
    FieldOf(c, role, k);
    FieldOf(c, role, "type");
    FieldOf(CleanSources(reg, c), role, k);
  }

  lemma StrippedField(r: Rules, c: Option<Json>, role: string, k: string)
    requires WellDeclared(r.reg) && (role == "primary" || role == "backup")
    ensures var kind := SourceType(c, role);
            Get(Strip(r.env, r.reg, c), SourcePath(role, k)) ==
            if kind.Some? && kind.value in r.reg.providers && k in r.reg.providers[kind.value].sensitive then None
            else Get(c, SourcePath(role, k))
  {
    var managed := ManagedPaths(r.env, r.reg);
    forall q, key | q in managed
      ensures Apart(q, SourcePath(role, key))
    {
      ManagedApartFromSource(r.env, r.reg, q, role, key);
    }
    GetUpdateAllApart(c, managed, Removing(), SourcePath(role, k));
    GetUpdateAllApart(c, managed, Removing(), SourcePath(role, "type"));
    var c1 := StripManaged(r.env, r.reg, c);
    var kind := SourceType(c1, role);
    ProviderPathsApart(r.reg, c1);
    if kind.Some? && kind.value in r.reg.providers && k in r.reg.providers[kind.value].sensitive {
      SecretIsListed(r.reg, c1, role, kind.value, k);
      GetUpdateAllSame(c1, ProviderPaths(r.reg, c1), Removing(), SourcePath(role, k));
    } else {
      forall q | q in ProviderPaths(r.reg, c1)
        ensures Apart(q, SourcePath(role, k))
      {
        ListedIsSecret(r.reg, c1, q);
        SourcePathsApart(q[1], q[2], role, k);
      }
      GetUpdateAllApart(c1, ProviderPaths(r.reg, c1), Removing(), SourcePath(role, k));
    }
  }

  lemma SecretIsListed(reg: Registry, c: Option<Json>, role: string, kind: string, k: string)
    requires (role == "primary" || role == "backup") && SourceType(c, role) == Some(kind)
    requires kind in reg.providers && k in reg.providers[kind].sensitive
    ensures SourcePath(role, k) in ProviderPaths(reg, c)
  {
    var keys := reg.providers[kind].sensitive;
    var i :| 0 <= i < |keys| && keys[i] == k;
    assert SourceSecretPaths(reg, Some(kind), role)[i] == SourcePath(role, k);
  }

  lemma ListedIsSecret(reg: Registry, c: Option<Json>, q: Path)
    requires q in ProviderPaths(reg, c)
    ensures |q| == 3 && q == SourcePath(q[1], q[2])
    ensures var kind := SourceType(c, q[1]);
            kind.Some? && kind.value in reg.providers && q[2] in reg.providers[kind.value].sensitive
  {
  }

  // ---------------------------------------------------------------- in the file and in the load

  /** Ordinary, apart from every output secret, whose value is stored encrypted, and from what a migration moves. */
  ghost predicate KeptAsSent(r: Rules, p: Path) {
    Ordinary(r, p) && (forall q :: q in OutputSecretPaths(r.reg) ==> Apart(q, p)) && Migration.Unnamed(p)
  }

  lemma SecretsApartFrom(r: Rules, c: Option<Json>, p: Path)
    requires KeptAsSent(r, p) && WellDeclared(r.reg)
    ensures forall q :: q in SecretPaths(r.reg, c) ==> Apart(q, p)
  {
    forall q | q in SecretPaths(r.reg, c)
      ensures Apart(q, p)
    {
      if q !in OutputSecretPaths(r.reg) {
        assert q in ProviderPaths(r.reg, c);
        ListedIsSecret(r.reg, c, q);
        assert q[..2] == ["sources", q[1]];
        ProviderPathShape(r.reg, c, q);
        LongerApart(q, p, 2);
      }
    }
  }

  lemma EncryptingSpares(r: Rules, c: Json, p: Path)
    requires KeptAsSent(r, p) && WellDeclared(r.reg)
    ensures Get(Some(Encrypted(r, c)), p) == Get(Some(c), p)
  {
    var ps := SecretPaths(r.reg, Some(c));
    SecretsApartFrom(r, Some(c), p);
    forall q | q in ps
      ensures q != []
    {
      assert Apart(q, p);
    }
    AllKeepSome(Some(c), ps, Encrypting(r.cipher, r.iv));
    GetUpdateAllApart(Some(c), ps, Encrypting(r.cipher, r.iv), p);
  }

  /** What a load merges of a saved tree has at such a path what the tree has. */
  lemma LayerSpares(c: Json, p: Path)
    requires Migration.Unnamed(p)
    ensures MergedLayer(c) != c ==> Migration.Migrate(Some(c)) == Some(MergedLayer(c))
    ensures Get(Some(MergedLayer(c)), p) == Get(Some(c), p)
  {
    Migration.MigrateSpares(Some(c), p);
  }

  /** Merge, decryption and second migration leave a saved value in place. */
  lemma LayeredSpares(r: Rules, layer: Json, p: Path, v: Json)
    requires WellDeclared(r.reg) && KeptAsSent(r, p)
    requires r.defaults.Obj? && layer.Obj? && Mergeable(r.defaults, layer)
    requires Get(Some(layer), p) == Some(v) && !v.Obj?
    ensures Get(Layered(r, Some(layer)), p) == Some(v)
  {
    var merged := Some(MergeDeep(r.defaults, layer));
    VoiceMeans(layer, p);
    MergeMeetsSpec(r.defaults, layer, p);
    LeafIs(Get(merged, p), v);
    SecretsApartFrom(r, merged, p);
    GetUpdateAllApart(merged, SecretPaths(r.reg, merged), Decrypting(r.cipher), p);
    Migration.MigrateSpares(DecryptAll(r.cipher, r.reg, merged), p);
  }

  /** Apart from lead times too, what the validators of a load are handed still has it. */
  lemma PreparedSpares(r: Rules, raw: Option<Json>, p: Path)
    requires WellDeclared(r.reg) && KeptAsSent(r, p) && forall id :: id in r.strategies ==> Apart(LeadPath(id), p)
    ensures Get(Prepared(r, raw), p) == Get(raw, p)
  {
    OverridingSpares(r, raw, p);
    forall q | q in LeadPaths(r.strategies)
      ensures Apart(q, p)
    {
      var i :| 0 <= i < |r.strategies| && LeadPaths(r.strategies)[i] == q;
      assert r.strategies[i] in r.strategies;
    }
    GetUpdateAllApart(Effective(r, raw), LeadPaths(r.strategies), Clamping(), p);
    CleaningSpares(r.reg, ClampLeads(r.strategies, Effective(r, raw)), p);
  }

  lemma OverridingSpares(r: Rules, m: Option<Json>, p: Path)
    requires WellDeclared(r.reg) && Ordinary(r, p)
    ensures Get(Override(r.env, r.reg, m), p) == Get(m, p)
  {
    if Truthy(Child(m, "automation")) {
      OverrideIsOnePass(r.env, r.reg, m);
      var ps := ManagedPaths(r.env, r.reg) + DictatedOnly(r.env, ProviderPaths(r.reg, m));
      forall q | q in ps
        ensures Apart(q, p)
      {
        if q !in ManagedPaths(r.env, r.reg) {
          ProviderPathShape(r.reg, m, q);
          assert q[..2] == ["sources", q[1]];
          LongerApart(q, p, 2);
        }
      }
      GetUpdateAllApart(m, ps, Putting(r.env), p);
    }
  }

  /** The value the caller sent is the one in the file once the update has renamed, the one in the file if the load then
      upgrades it, and the one the load makes of the file for its validators. */
  lemma SentIsStoredAndLoaded(r: Rules, local: LocalFile, partial: Json, p: Path, v: Json)
    requires WellDeclared(r.reg) && KeptAsSent(r, p)
    requires Current(local).Obj? && partial.Obj? && Mergeable(Current(local), partial)
    requires Get(Some(partial), p) == Some(v) && !v.Obj?
    ensures Candidate(r, local, partial).Some?
    ensures var stored := Encrypted(r, Candidate(r, local, partial).value);
            var layer := MergedLayer(stored);
            && Get(Some(stored), p) == Some(v)
            && Get(Some(Encrypted(r, layer)), p) == Some(v)
            && (r.defaults.Obj? && layer.Obj? && Mergeable(r.defaults, layer) ==>
                  && Get(Layered(r, Some(layer)), p) == Some(v)
                  && ((forall id :: id in r.strategies ==> Apart(LeadPath(id), p)) ==>
                        Get(Prepared(r, Layered(r, Some(layer))), p) == Some(v)))
  {
    SentArrives(r, local, partial, p, v);
    var c := Candidate(r, local, partial).value;
    EncryptingSpares(r, c, p);
    LayerSpares(Encrypted(r, c), p);
    EncryptingSpares(r, MergedLayer(Encrypted(r, c)), p);
    if r.defaults.Obj? && MergedLayer(Encrypted(r, c)).Obj? && Mergeable(r.defaults, MergedLayer(Encrypted(r, c))) {
      LayeredSpares(r, MergedLayer(Encrypted(r, c)), p, v);
      if forall id :: id in r.strategies ==> Apart(LeadPath(id), p) {
        PreparedSpares(r, Layered(r, Some(MergedLayer(Encrypted(r, c)))), p);
      }
    }
  }

  // ---------------------------------------------------------------- after the whole update

  /** A value without keys that a caller sends for a position kept as sent. */
  ghost predicate Sent(r: Rules, partial: Json, p: Path, v: Json) {
    KeptAsSent(r, p) && Get(Some(partial), p) == Some(v) && !v.Obj?
  }

  ghost predicate Holds(file: LocalFile, p: Path, v: Json) {
    file.Saved? && Get(Some(file.tree), p) == Some(v)
  }

  /** Everything sent in this way is in the file. */
  ghost predicate AllSentHeld(r: Rules, partial: Json, file: LocalFile) {
    forall p, v :: Sent(r, partial, p, v) ==> Holds(file, p, v)
  }

  /** The environment holds no secret to be moved into the file. */
  ghost predicate NothingMoves(r: Rules) {
    forall raw :: r.envMigrate(raw) == None
  }

  /** So when the update has loaded the file it stored, upgraded on the way or not, all that was sent is in it. */
  lemma SentHeldAfterLoad(r: Rules, local: LocalFile, partial: Json, luck: LoadLuck)
    requires WellDeclared(r.reg) && NothingMoves(r)
    requires Current(local).Obj? && partial.Obj? && Mergeable(Current(local), partial) && Candidate(r, local, partial).Some?
    ensures AllSentHeld(r, partial, Load(r, Saved(Encrypted(r, Candidate(r, local, partial).value)), luck).0)
  {
    var stored := Encrypted(r, Candidate(r, local, partial).value);
    LoadLeaves(r, stored, luck);
    forall p, v | Sent(r, partial, p, v)
      ensures Holds(Load(r, Saved(stored), luck).0, p, v)
    {
      SentIsStoredAndLoaded(r, local, partial, p, v);
    }
  }

  lemma LoadLeaves(r: Rules, stored: Json, luck: LoadLuck)
    requires NothingMoves(r)
    ensures var file := Load(r, Saved(stored), luck).0;
            file == Saved(stored) || file == Saved(Encrypted(r, MergedLayer(stored)))
  {
    var (file, layer) := LocalLayer(r, Saved(stored), luck);
    CompleteLeaves(r, file, Layered(r, layer), luck);
  }

  lemma CompleteLeaves(r: Rules, file: LocalFile, raw: Option<Json>, luck: LoadLuck)
    requires NothingMoves(r)
    ensures Complete(r, file, raw, luck).0 == file
  {
  }
}
