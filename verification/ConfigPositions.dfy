/** What the passes over a configuration leave at each position: overrides, stripping, encryption and decryption. */
module ConfigPositions {
  import opened Outcomes
  import opened JsonTree
  import opened ConfigSecrets
  import opened ConfigOverrides
  import opened ConfigUpdates

  // ---------------------------------------------------------------- where secrets are

  /** The key is a sensitive parameter of the provider the tree names for the role. */
  predicate ProviderSecret(reg: Registry, root: Option<Json>, role: string, key: string) {
    && (role == "primary" || role == "backup")
    && match Get(root, ["sources", role, "type"])
       case Some(Str(kind)) => kind != "" && kind in reg.providers && key in reg.providers[kind].sensitive
       case _ => false
  }

  /** The secret positions are those of the declared output secrets and of the two sources' sensitive parameters. */
  lemma SecretPositions(reg: Registry, root: Option<Json>, p: Path)
    ensures p in SecretPaths(reg, root) <==>
              || (exists id, key :: (id, key) in reg.outputSecrets && p == ["automation", "outputs", id, "params", key])
              || (exists role, key :: ProviderSecret(reg, root, role, key) && p == ["sources", role, key])
  {
    if p in OutputSecretPaths(reg) {
      var i :| 0 <= i < |reg.outputSecrets| && OutputSecretPaths(reg)[i] == p;
      assert (reg.outputSecrets[i].0, reg.outputSecrets[i].1) in reg.outputSecrets;
    } else if p in ProviderPaths(reg, root) {
      ListedIsSecret(reg, root, p);
      ProviderPathShape(reg, root, p);
      assert ProviderSecret(reg, root, p[1], p[2]) && p == ["sources", p[1], p[2]];
    }
    if id, key :| (id, key) in reg.outputSecrets && p == ["automation", "outputs", id, "params", key] {
      var i :| 0 <= i < |reg.outputSecrets| && reg.outputSecrets[i] == (id, key);
      assert OutputSecretPaths(reg)[i] == p;
    }
    if role, key :| ProviderSecret(reg, root, role, key) && p == ["sources", role, key] {
      SecretIsListed(reg, root, role, SourceType(root, role).value, key);
    }
    assert p in SecretPaths(reg, root) <==> p in OutputSecretPaths(reg) || p in ProviderPaths(reg, root);
  }

  // ---------------------------------------------------------------- encryption

  /** Saving encrypts each secret that is a non-empty text, neither encrypted nor masked already, under its position's own
      IV, and changes nothing else. */
  lemma EncryptSays(c: Cipher, iv: Path -> nat, reg: Registry, root: Option<Json>, p: Path)
    requires WellDeclared(reg)
    ensures p in SecretPaths(reg, root) ==>
              Get(EncryptAll(c, iv, reg, root), p) ==
              match Get(root, p)
              case Some(Str(s)) => if s == "" || ':' in s || s == "********" then Some(Str(s)) else Some(Str(c.encrypt(s, iv(p))))
              case other => other
    ensures (forall q :: q in SecretPaths(reg, root) ==> Apart(q, p)) ==> Get(EncryptAll(c, iv, reg, root), p) == Get(root, p)
  {
    SecretPathsApart(reg, SourceType(root, "primary"), SourceType(root, "backup"));
    if p in SecretPaths(reg, root) {
      GetUpdateAllSame(root, SecretPaths(reg, root), Encrypting(c, iv), p);
    }
    if forall q :: q in SecretPaths(reg, root) ==> Apart(q, p) {
      GetUpdateAllApart(root, SecretPaths(reg, root), Encrypting(c, iv), p);
    }
  }

  /** So under an authenticated cipher no plain secret is left readable, and each can be read back. */
  lemma EncryptHides(c: Cipher, iv: Path -> nat, reg: Registry, root: Option<Json>, p: Path, s: string)
    requires WellDeclared(reg) && Authenticated(c) && p in SecretPaths(reg, root) && Get(root, p) == Some(Str(s))
    requires s != "" && ':' !in s && s != "********"
    ensures var stored := Get(EncryptAll(c, iv, reg, root), p);
            && stored.Some? && stored.value.Str? && stored.value.s != s && ':' in stored.value.s
            && c.decrypt(stored.value.s) == Some(s)
  {
    EncryptSays(c, iv, reg, root, p);
  }

  /** Not a readable secret: no text, a mask or what looks like a ciphertext. */
  predicate Unreadable(o: Option<Json>) {
    o.Some? && o.value.Str? ==> o.value.s == "" || ':' in o.value.s || o.value.s == "********"
  }

  lemma EncryptedUnreadable(c: Cipher, iv: Path -> nat, reg: Registry, root: Option<Json>, p: Path)
    requires WellDeclared(reg) && Authenticated(c) && p in SecretPaths(reg, EncryptAll(c, iv, reg, root))
    ensures Unreadable(Get(EncryptAll(c, iv, reg, root), p))
  {
    SecretPathsStable(reg, root, Encrypting(c, iv));
    EncryptSays(c, iv, reg, root, p);
    var plain := Get(root, p);
    if plain.Some? && plain.value.Str? && !Unreadable(plain) {
      EncryptHides(c, iv, reg, root, p, plain.value.s);
    }
  }

  /** Loading decrypts each secret that can be decrypted and changes nothing else. */
  lemma DecryptSays(c: Cipher, reg: Registry, root: Option<Json>, p: Path)
    requires WellDeclared(reg)
    ensures p in SecretPaths(reg, root) ==>
              Get(DecryptAll(c, reg, root), p) ==
              match Get(root, p)
              case Some(Str(s)) => if ':' in s && c.decrypt(s).Some? then Some(Str(c.decrypt(s).value)) else Some(Str(s))
              case other => other
    ensures (forall q :: q in SecretPaths(reg, root) ==> Apart(q, p)) ==> Get(DecryptAll(c, reg, root), p) == Get(root, p)
  {
    SecretPathsApart(reg, SourceType(root, "primary"), SourceType(root, "backup"));
    if p in SecretPaths(reg, root) {
      GetUpdateAllSame(root, SecretPaths(reg, root), Decrypting(c), p);
    }
    if forall q :: q in SecretPaths(reg, root) ==> Apart(q, p) {
      GetUpdateAllApart(root, SecretPaths(reg, root), Decrypting(c), p);
    }
  }

  // ---------------------------------------------------------------- the environment

  /** The environment's value for an address or an output secret. */
  ghost predicate Manages(env: Env, reg: Registry, p: Path, v: string) {
    || (p == ["automation", "baseUrl"] && v == env.baseUrl)
    || (p == ["automation", "pythonServiceUrl"] && v == env.pythonServiceUrl)
    || (exists id, key :: (id, key) in reg.outputSecrets && p == ["automation", "outputs", id, "params", key] && v == env.outputSecret(id, key))
  }

  /** The environment's value for a sensitive parameter of a source. */
  ghost predicate Supplies(env: Env, reg: Registry, m: Option<Json>, p: Path, v: string) {
    exists role, key :: ProviderSecret(reg, m, role, key) && p == ["sources", role, key] && v == env.providerSecret(key)
  }

  lemma ManagedIff(env: Env, reg: Registry, p: Path, v: string)
    requires v != ""
    ensures Manages(env, reg, p, v) <==> p in ManagedPaths(env, reg) && Dictated(env, p) == v
  {
    if id, key :| (id, key) in reg.outputSecrets && p == ["automation", "outputs", id, "params", key] && v == env.outputSecret(id, key) {
      var i :| 0 <= i < |reg.outputSecrets| && reg.outputSecrets[i] == (id, key);
      assert OutputSecretPaths(reg)[i] == p;
    }
    if p in ManagedPaths(env, reg) && Dictated(env, p) == v && p in OutputSecretPaths(reg) {
      var i :| 0 <= i < |reg.outputSecrets| && OutputSecretPaths(reg)[i] == p;
      assert (reg.outputSecrets[i].0, reg.outputSecrets[i].1) in reg.outputSecrets;
    }
    UrlsDiffer();
  }

  lemma UrlsDiffer()
    ensures ["automation", "baseUrl"] != ["automation", "pythonServiceUrl"]
  {
    assert |"baseUrl"| != |"pythonServiceUrl"|;
    assert ["automation", "baseUrl"][1] != ["automation", "pythonServiceUrl"][1];
  }

  lemma SuppliedIff(env: Env, reg: Registry, m: Option<Json>, p: Path, v: string)
    requires v != ""
    ensures Supplies(env, reg, m, p, v) <==> p in ProviderPaths(reg, m) && Dictated(env, p) == v
  {
    if role, key :| ProviderSecret(reg, m, role, key) && p == ["sources", role, key] && v == env.providerSecret(key) {
      SecretIsListed(reg, m, role, SourceType(m, role).value, key);
    }
    if p in ProviderPaths(reg, m) {
      ListedIsSecret(reg, m, p);
      ProviderPathShape(reg, m, p);
      assert p == ["sources", p[1], p[2]];
    }
  }

  /** Overriding puts the environment's own value at each position it manages or supplies, and changes nothing else. */
  lemma OverrideSays(env: Env, reg: Registry, m: Option<Json>, p: Path, v: string)
    requires WellDeclared(reg) && Truthy(Child(m, "automation")) && v != ""
    ensures Manages(env, reg, p, v) || Supplies(env, reg, m, p, v) ==> Get(Override(env, reg, m), p) == Some(Str(v))
  {
    ManagedIff(env, reg, p, v);
    SuppliedIff(env, reg, m, p, v);
    OverrideIsOnePass(env, reg, m);
    EffectivePathsApart(env, reg, m);
    var ps := ManagedPaths(env, reg) + DictatedOnly(env, ProviderPaths(reg, m));
    if p in ps {
      GetUpdateAllSame(m, ps, Putting(env), p);
    }
  }

  lemma OverrideSparesRest(env: Env, reg: Registry, m: Option<Json>, p: Path)
    requires WellDeclared(reg)
    requires forall q, v :: v != "" && (Manages(env, reg, q, v) || Supplies(env, reg, m, q, v)) ==> Apart(q, p)
    ensures Get(Override(env, reg, m), p) == Get(m, p)
    ensures !Truthy(Child(m, "automation")) ==> Override(env, reg, m) == m
  {
    if Truthy(Child(m, "automation")) {
      OverrideIsOnePass(env, reg, m);
      var ps := ManagedPaths(env, reg) + DictatedOnly(env, ProviderPaths(reg, m));
      forall q | q in ps
        ensures Apart(q, p)
      {
        ManagedIff(env, reg, q, Dictated(env, q));
        SuppliedIff(env, reg, m, q, Dictated(env, q));
      }
      GetUpdateAllApart(m, ps, Putting(env), p);
    }
  }

  /** Stripping leaves nothing where the environment manages a value, and nothing of the sources' secrets. */
  lemma StripSays(env: Env, reg: Registry, c: Option<Json>, p: Path, v: string)
    requires WellDeclared(reg) && Truthy(Child(c, "automation")) && v != "" && Manages(env, reg, p, v)
    ensures Get(Strip(env, reg, c), p) == None
  {
    ManagedIff(env, reg, p, v);
    EffectivePathsApart(env, reg, c);
    GetUpdateAllSame(c, ManagedPaths(env, reg), Removing(), p);
    var c1 := StripManaged(env, reg, c);
    forall q | q in ProviderPaths(reg, c1)
      ensures Apart(q, p)
    {
      ProviderPathShape(reg, c1, q);
      ManagedApartFromSource(env, reg, p, q[1], q[2]);
      ApartSymmetric(p, q);
    }
    GetUpdateAllApart(c1, ProviderPaths(reg, c1), Removing(), p);
  }
}
