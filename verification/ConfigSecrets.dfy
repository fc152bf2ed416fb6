/** Secret fields of a configuration: encrypted on disk, masked for the dashboard, restored on the way back. */
module ConfigSecrets {
  import opened Outcomes
  import opened JsonTree

  const MASK := "********"

  datatype Provider = Provider(parameters: seq<string>, sensitive: seq<string>)

  /** Strategy and provider metadata: which parameters are sensitive. */
  datatype Registry = Registry(outputSecrets: seq<(string, string)>, providers: map<string, Provider>)

  predicate Distinct<T(==)>(xs: seq<T>) {
    forall i, j :: 0 <= i < j < |xs| ==> xs[i] != xs[j]
  }

  /** Every parameter is declared once and the source type itself is no secret. */
  predicate WellDeclared(reg: Registry) {
    && Distinct(reg.outputSecrets)
    && forall id :: id in reg.providers ==>
         Distinct(reg.providers[id].sensitive) && "type" !in reg.providers[id].sensitive
  }

  function OutputPath(id: string, key: string): Path {
    ["automation", "outputs", id, "params", key]
  }

  function SourcePath(role: string, key: string): Path {
    ["sources", role, key]
  }

  function OutputSecretPaths(reg: Registry): seq<Path> {
    seq(|reg.outputSecrets|, i requires 0 <= i < |reg.outputSecrets| =>
      OutputPath(reg.outputSecrets[i].0, reg.outputSecrets[i].1))
  }

  function SourceType(root: Option<Json>, role: string): Option<string> {
    match Get(root, SourcePath(role, "type"))
    case Some(Str(s)) => if s != "" then Some(s) else None
    case _ => None
  }

  function SourceSecretPaths(reg: Registry, kind: Option<string>, role: string): seq<Path> {
    if kind.Some? && kind.value in reg.providers then
      var keys := reg.providers[kind.value].sensitive;
      seq(|keys|, i requires 0 <= i < |keys| => SourcePath(role, keys[i]))
    else []
  }

  function SecretPaths(reg: Registry, root: Option<Json>): seq<Path> {
    OutputSecretPaths(reg)
    + SourceSecretPaths(reg, SourceType(root, "primary"), "primary")
    + SourceSecretPaths(reg, SourceType(root, "backup"), "backup")
  }

  // ---------------------------------------------------------------- single fields

  /** AES-256-GCM under one key, seen from outside; the number stands for the random IV. */
  datatype Cipher = Cipher(encrypt: (string, nat) -> string, decrypt: string -> Option<string>)

  ghost predicate Authenticated(c: Cipher) {
    forall s: string, iv: nat :: s != "" ==>
      c.decrypt(c.encrypt(s, iv)) == Some(s) && ':' in c.encrypt(s, iv)
  }

  function EncryptValue(c: Cipher, iv: nat, o: Option<Json>): Option<Json> {
    match o
    case Some(Str(s)) => if s != "" && ':' !in s && s != MASK then Some(Str(c.encrypt(s, iv))) else o
    case _ => o
  }

  function DecryptValue(c: Cipher, o: Option<Json>): Option<Json> {
    match o
    case Some(Str(s)) =>
      if s != "" && ':' in s && c.decrypt(s).Some? then Some(Str(c.decrypt(s).value)) else o
    case _ => o
  }

  function MaskValue(o: Option<Json>): Option<Json> {
    if Truthy(o) then Some(Str(MASK)) else o
  }

  function UnmaskValue(current: Option<Json>, o: Option<Json>): Option<Json> {
    if o != Some(Str(MASK)) then o else if Truthy(current) then current else None
  }

  function Encrypting(c: Cipher, iv: Path -> nat): Action {
    (p: Path, o: Option<Json>) => EncryptValue(c, iv(p), o)
  }

  function Decrypting(c: Cipher): Action {
    (p: Path, o: Option<Json>) => DecryptValue(c, o)
  }

  function Masking(): Action {
    (p: Path, o: Option<Json>) => MaskValue(o)
  }

  function Unmasking(current: Option<Json>): Action {
    (p: Path, o: Option<Json>) => UnmaskValue(Get(current, p), o)
  }

  function EncryptAll(c: Cipher, iv: Path -> nat, reg: Registry, root: Option<Json>): Option<Json> {
    UpdateAll(root, SecretPaths(reg, root), Encrypting(c, iv))
  }

  function DecryptAll(c: Cipher, reg: Registry, root: Option<Json>): Option<Json> {
    UpdateAll(root, SecretPaths(reg, root), Decrypting(c))
  }

  function MaskAll(reg: Registry, root: Option<Json>): Option<Json> {
    UpdateAll(root, SecretPaths(reg, root), Masking())
  }

  function UnmaskAll(reg: Registry, root: Option<Json>, current: Option<Json>): Option<Json> {
    UpdateAll(root, SecretPaths(reg, root), Unmasking(current))
  }

  // ---------------------------------------------------------------- the object edited in place

  class ConfigObject {
    var root: Option<Json>

    constructor (root: Option<Json>)
      ensures this.root == root
    {
      this.root := root;
    }

    /** The walk shared by the four operations: outputs first, then the two sources, whose type is
        read from the object as it stands at that moment. */
    method ForEachSecret(reg: Registry, f: Action)
      requires WellDeclared(reg)
      modifies this
      ensures root == UpdateAll(old(root), SecretPaths(reg, old(root)), f)
    {
      ghost var start := root;
      var outputs := OutputSecretPaths(reg);
      for i := 0 to |outputs|
        invariant root == UpdateAll(start, outputs[..i], f)
      {
        UpdateAllAppend(start, outputs[..i], [outputs[i]], f);
        assert outputs[..i + 1] == outputs[..i] + [outputs[i]];
        root := Update(root, outputs[i], outputs[i], f);
      }
      assert outputs[..|outputs|] == outputs;
      TypeSurvives(start, outputs, f, "primary");
      ForEachSourceSecret(reg, "primary", f);
      ghost var primary := SourceSecretPaths(reg, SourceType(start, "primary"), "primary");
      UpdateAllAppend(start, outputs, primary, f);
      TypeSurvives(start, outputs + primary, f, "backup");
      ForEachSourceSecret(reg, "backup", f);
      ghost var backup := SourceSecretPaths(reg, SourceType(start, "backup"), "backup");
      UpdateAllAppend(start, outputs + primary, backup, f);
    }

    method ForEachSourceSecret(reg: Registry, role: string, f: Action)
      modifies this
      ensures root == UpdateAll(old(root), SourceSecretPaths(reg, SourceType(old(root), role), role), f)
    {
      ghost var start := root;
      var kind := SourceType(root, role);
      var paths := SourceSecretPaths(reg, kind, role);
      for i := 0 to |paths|
        invariant root == UpdateAll(start, paths[..i], f)
      {
        UpdateAllAppend(start, paths[..i], [paths[i]], f);
        assert paths[..i + 1] == paths[..i] + [paths[i]];
        root := Update(root, paths[i], paths[i], f);
      }
      assert paths[..|paths|] == paths;
    }

    method ProcessSensitiveFields(c: Cipher, iv: Path -> nat, reg: Registry, encrypt: bool)
      requires WellDeclared(reg)
      modifies this
      ensures root == if encrypt then EncryptAll(c, iv, reg, old(root)) else DecryptAll(c, reg, old(root))
    {
      if encrypt {
        ForEachSecret(reg, Encrypting(c, iv));
      } else {
        ForEachSecret(reg, Decrypting(c));
      }
    }

    method MaskSecrets(reg: Registry)
      requires WellDeclared(reg)
      modifies this
      ensures root == MaskAll(reg, old(root))
    {
      ForEachSecret(reg, Masking());
    }

    method UnmaskSecrets(reg: Registry, current: Option<Json>)
      requires WellDeclared(reg)
      modifies this
      ensures root == UnmaskAll(reg, old(root), current)
    {
      ForEachSecret(reg, Unmasking(current));
    }
  }

  // ---------------------------------------------------------------- positions

  lemma SourcePathsApart(role: string, key: string, role': string, key': string)
    requires role != role' || key != key'
    ensures Apart(SourcePath(role, key), SourcePath(role', key'))
  {
    var p, q := SourcePath(role, key), SourcePath(role', key');
    assert p[1..][0] == role && q[1..][0] == role';
    assert p[1..][1..][0] == key && q[1..][1..][0] == key';
    assert p[1..][1..] != [] && q[1..][1..] != [];
    assert Apart(p[1..], q[1..]);
  }

  lemma OutputPathsApart(id: string, key: string, id': string, key': string)
    requires id != id' || key != key'
    ensures Apart(OutputPath(id, key), OutputPath(id', key'))
  {
    var p, q := OutputPath(id, key), OutputPath(id', key');
    var p2, q2 := p[1..][1..], q[1..][1..];
    assert p2 == [id, "params", key] && q2 == [id', "params", key'];
    if id == id' {
      assert p2[1..][1..] == [key] && q2[1..][1..] == [key'];
      assert Apart(p2[1..][1..], q2[1..][1..]);
      assert Apart(p2[1..], q2[1..]);
    }
    assert Apart(p2, q2);
    assert Apart(p[1..], q[1..]);
  }

  lemma OutputApartFromSource(id: string, key: string, role: string, key': string)
    ensures Apart(OutputPath(id, key), SourcePath(role, key'))
  {
    assert |"automation"| != |"sources"|;
  }

  lemma SecretPathsApart(reg: Registry, primary: Option<string>, backup: Option<string>)
    requires WellDeclared(reg)
    ensures PairwiseApart(OutputSecretPaths(reg)
                          + SourceSecretPaths(reg, primary, "primary")
                          + SourceSecretPaths(reg, backup, "backup"))
  {
    var o, p, b := OutputSecretPaths(reg), SourceSecretPaths(reg, primary, "primary"),
                   SourceSecretPaths(reg, backup, "backup");
    var all := o + p + b;
    assert |"primary"| != |"backup"|;
    forall i, j | 0 <= i < j < |all|
      ensures Apart(all[i], all[j])
    {
      if j < |o| {
        var x, y := reg.outputSecrets[i], reg.outputSecrets[j];
        OutputPathsApart(x.0, x.1, y.0, y.1);
      } else if i < |o| {
        var x := reg.outputSecrets[i];
        OutputApartFromSource(x.0, x.1, all[j][1], all[j][2]);
      } else {
        SourcePathsApart(all[i][1], all[i][2], all[j][1], all[j][2]);
      }
    }
  }

  lemma SecretsSpareTypes(reg: Registry, primary: Option<string>, backup: Option<string>, role: string)
    requires WellDeclared(reg)
    ensures forall q :: q in OutputSecretPaths(reg) + SourceSecretPaths(reg, primary, "primary")
                             + SourceSecretPaths(reg, backup, "backup")
                        ==> Apart(q, SourcePath(role, "type"))
  {
    var all := OutputSecretPaths(reg) + SourceSecretPaths(reg, primary, "primary")
               + SourceSecretPaths(reg, backup, "backup");
    forall i | 0 <= i < |all|
      ensures Apart(all[i], SourcePath(role, "type"))
    {
      if i < |reg.outputSecrets| {
        OutputApartFromSource(reg.outputSecrets[i].0, reg.outputSecrets[i].1, role, "type");
      } else {
        SourcePathsApart(all[i][1], all[i][2], role, "type");
      }
    }
  }

  lemma TypeSurvives(root: Option<Json>, ps: seq<Path>, f: Action, role: string)
    requires forall p :: p in ps ==> Apart(p, SourcePath(role, "type"))
    ensures SourceType(UpdateAll(root, ps, f), role) == SourceType(root, role)
  {
    GetUpdateAllApart(root, ps, f, SourcePath(role, "type"));
  }

  /** Editing secrets does not change which positions are secret. */
  lemma SecretPathsStable(reg: Registry, root: Option<Json>, f: Action)
    requires WellDeclared(reg)
    ensures SecretPaths(reg, UpdateAll(root, SecretPaths(reg, root), f)) == SecretPaths(reg, root)
  {
    var primary, backup := SourceType(root, "primary"), SourceType(root, "backup");
    SecretsSpareTypes(reg, primary, backup, "primary");
    SecretsSpareTypes(reg, primary, backup, "backup");
    TypeSurvives(root, SecretPaths(reg, root), f, "primary");
    TypeSurvives(root, SecretPaths(reg, root), f, "backup");
  }

  // ---------------------------------------------------------------- round trips

  lemma EncryptingKeepsAbsent(c: Cipher, iv: Path -> nat)
    ensures KeepsAbsent(Encrypting(c, iv))
  {
    forall p: Path
      ensures Encrypting(c, iv)(p, None) == None
    {
      assert EncryptValue(c, iv(p), None) == None;
    }
  }

  /** Saving and loading gives what loading the unsaved tree gives, whatever mix of plaintext,
      ciphertext, masked and colon-bearing strings it holds and whatever IVs are drawn. */
  lemma DecryptAfterEncrypt(c: Cipher, iv: Path -> nat, reg: Registry, root: Option<Json>)
    requires WellDeclared(reg) && Authenticated(c)
    ensures DecryptAll(c, reg, EncryptAll(c, iv, reg, root)) == DecryptAll(c, reg, root)
  {
    SecretPathsApart(reg, SourceType(root, "primary"), SourceType(root, "backup"));
    SecretPathsStable(reg, root, Encrypting(c, iv));
    EncryptingKeepsAbsent(c, iv);
    UpdateAllFuse(root, SecretPaths(reg, root), Encrypting(c, iv), Decrypting(c), Decrypting(c));
  }

  lemma EncryptTwice(c: Cipher, iv: Path -> nat, iv': Path -> nat, reg: Registry, root: Option<Json>)
    requires WellDeclared(reg) && Authenticated(c)
    ensures EncryptAll(c, iv', reg, EncryptAll(c, iv, reg, root)) == EncryptAll(c, iv, reg, root)
  {
    SecretPathsApart(reg, SourceType(root, "primary"), SourceType(root, "backup"));
    SecretPathsStable(reg, root, Encrypting(c, iv));
    EncryptingKeepsAbsent(c, iv);
    UpdateAllFuse(root, SecretPaths(reg, root), Encrypting(c, iv), Encrypting(c, iv'), Encrypting(c, iv));
  }

  /** The dashboard gets masks only: every secret position holds the mask or something falsy, and
      all positions apart from the secrets are as before. */
  lemma MaskHides(reg: Registry, root: Option<Json>, p: Path)
    requires WellDeclared(reg)
    ensures p in SecretPaths(reg, root) ==>
              Get(MaskAll(reg, root), p) == Some(Str(MASK)) ||
              (!Truthy(Get(root, p)) && Get(MaskAll(reg, root), p) == Get(root, p))
    ensures (forall q :: q in SecretPaths(reg, root) ==> Apart(q, p)) ==>
              Get(MaskAll(reg, root), p) == Get(root, p)
  {
    SecretPathsApart(reg, SourceType(root, "primary"), SourceType(root, "backup"));
    if p in SecretPaths(reg, root) {
      GetUpdateAllSame(root, SecretPaths(reg, root), Masking(), p);
    }
    if forall q :: q in SecretPaths(reg, root) ==> Apart(q, p) {
      GetUpdateAllApart(root, SecretPaths(reg, root), Masking(), p);
    }
  }

  /** Posting the masked settings back unchanged restores every secret. */
  lemma UnmaskAfterMask(reg: Registry, root: Option<Json>)
    requires WellDeclared(reg)
    ensures UnmaskAll(reg, MaskAll(reg, root), root) == root
  {
    var ps := SecretPaths(reg, root);
    SecretPathsApart(reg, SourceType(root, "primary"), SourceType(root, "backup"));
    SecretPathsStable(reg, root, Masking());
    var both: Action := (p: Path, o: Option<Json>) => UnmaskValue(Get(root, p), MaskValue(o));
    UpdateAllFuse(root, ps, Masking(), Unmasking(root), both);
    UpdateAllNoop(root, ps, both);
  }

  /** Unmasking touches masked secret positions only; there it restores the current value or removes the key. */
  lemma UnmaskOnlyMasked(reg: Registry, root: Option<Json>, current: Option<Json>, p: Path)
    requires WellDeclared(reg)
    ensures p in SecretPaths(reg, root) ==>
              Get(UnmaskAll(reg, root, current), p) ==
              if Get(root, p) != Some(Str(MASK)) then Get(root, p)
              else if Truthy(Get(current, p)) then Get(current, p)
              else None
    ensures (forall q :: q in SecretPaths(reg, root) ==> Apart(q, p)) ==>
              Get(UnmaskAll(reg, root, current), p) == Get(root, p)
    ensures (forall q :: q in SecretPaths(reg, root) ==> Get(root, q) != Some(Str(MASK))) ==>
              UnmaskAll(reg, root, current) == root
  {
    var ps := SecretPaths(reg, root);
    SecretPathsApart(reg, SourceType(root, "primary"), SourceType(root, "backup"));
    if p in ps {
      GetUpdateAllSame(root, ps, Unmasking(current), p);
    }
    if forall q :: q in ps ==> Apart(q, p) {
      GetUpdateAllApart(root, ps, Unmasking(current), p);
    }
    if forall q :: q in ps ==> Get(root, q) != Some(Str(MASK)) {
      UpdateAllNoop(root, ps, Unmasking(current));
    }
  }
}
