/** ConfigService._mergeDeep: the layered merge of configuration trees. */
module ConfigMerge {
  import opened Outcomes
  import opened JsonTree

  /** Keys skipped to guard against prototype pollution. */
  const FORBIDDEN: set<string> := {"__proto__", "constructor", "prototype"}

  /** typeof v === "object" && v !== null */
  predicate IsObject(j: Json) {
    j.Arr? || j.Obj?
  }

  /** No object meets an array where the two would be merged key by key. */
  predicate Mergeable(target: Json, source: Json)
    decreases source
  {
    && (IsObject(target) && IsObject(source) ==> target.Obj? && source.Obj?)
    && (target.Obj? && source.Obj? ==>
          forall k :: k in target.fields && k in source.fields && source.fields[k].Obj? ==>
                        Mergeable(target.fields[k], source.fields[k]))
  }

  /** Where an object meets an array JavaScript hangs named properties on the array; JSON cannot hold
      them and they are not represented: the array stays as it is. */
  function MergeDeep(target: Json, source: Json): Json
    decreases source, 0
  {
    if !IsObject(target) then source
    else if !IsObject(source) then target
    else if target.Arr? || source.Arr? then target
    else
      Obj(map k | k in target.fields.Keys + (source.fields.Keys - FORBIDDEN) ::
            if k in source.fields && k !in FORBIDDEN
            then Assigned(Child(Some(target), k), source.fields[k])
            else target.fields[k])
  }

  /** The new value of output[key] when the source holds v under that key. */
  function Assigned(current: Option<Json>, v: Json): Json
    decreases v, 1
  {
    if !v.Obj? then v
    else if current.Some? && IsObject(current.value) then MergeDeep(current.value, v)
    else MergeDeep(Obj(map[]), v)
  }

  lemma MergeAtKey(target: Json, source: Json, k: string)
    requires target.Obj? && source.Obj?
    ensures Child(Some(MergeDeep(target, source)), k) ==
            if k in source.fields && k !in FORBIDDEN
            then Some(Assigned(Child(Some(target), k), source.fields[k]))
            else Child(Some(target), k)
  {
  }

  /** The loop of the source: one assignment per key, in whatever order the keys come. */
  method Merge(target: Json, source: Json) returns (output: Json)
    ensures output == MergeDeep(target, source)
    decreases source
  {
    if !IsObject(target) {
      return source;
    }
    if !IsObject(source) {
      return target;
    }
    if target.Arr? || source.Arr? {
      return target;
    }
    var fields := target.fields;
    var todo := source.fields.Keys;
    while todo != {}
      invariant todo <= source.fields.Keys
      invariant fields.Keys == target.fields.Keys + (source.fields.Keys - todo - FORBIDDEN)
      invariant forall k :: k in fields ==>
                  fields[k] == if k in source.fields && k !in todo && k !in FORBIDDEN
                               then Assigned(Child(Some(target), k), source.fields[k])
                               else target.fields[k]
      decreases todo
    {
      var key :| key in todo;
      if key !in FORBIDDEN {
        var v := source.fields[key];
        if !v.Obj? {
          fields := fields[key := v];
        } else if key in fields && IsObject(fields[key]) {
          var merged := Merge(fields[key], v);
          fields := fields[key := merged];
        } else {
          var merged := Merge(Obj(map[]), v);
          fields := fields[key := merged];
        }
      }
      todo := todo - {key};
    }
    output := Obj(fields);
    assert output.fields == MergeDeep(target, source).fields;
  }

  // ------------------------------------------------------- path-by-path specification

  /** What can be seen at a path: nothing, an inner object, or a value taken whole. */
  datatype Kind = Missing | Node | Leaf(value: Json)

  function KindOf(o: Option<Json>): Kind {
    match o
    case None => Missing
    case Some(Obj(_)) => Node
    case Some(v) => Leaf(v)
  }

  function KindAt(j: Json, p: Path): Kind {
    KindOf(Get(Some(j), p))
  }

  /** What a source has to say about a path: nothing, "a value above it is replaced whole", or its own kind. */
  datatype Verdict = Silent | Cuts | Says(kind: Kind)

  function Voice(source: Option<Json>, p: Path): Verdict
    decreases |p|
  {
    if source == None then Silent
    else if p == [] then Says(KindOf(source))
    else if !source.value.Obj? then Cuts
    else if p[0] in FORBIDDEN then Silent
    else Voice(Child(source, p[0]), p[1..])
  }

  function Expected(target: Kind, verdict: Verdict): Kind {
    match verdict
    case Silent => target
    case Cuts => Missing
    case Says(k) => k
  }

  lemma KindOfLeaf(o: Option<Json>, p: Path)
    requires p != [] && (o == None || !o.value.Obj?)
    ensures Get(o, p) == None
  {
    GetNone(p[1..]);
  }

  lemma {:induction false} MergeMeetsSpec(target: Json, source: Json, p: Path)
    requires target.Obj? && source.Obj? && Mergeable(target, source)
    ensures KindAt(MergeDeep(target, source), p) == Expected(KindAt(target, p), Voice(Some(source), p))
    decreases |p|
  {
    if p != [] {
      var k, rest := p[0], p[1..];
      var t, s := Child(Some(target), k), Child(Some(source), k);
      var m := Child(Some(MergeDeep(target, source)), k);
      if k in FORBIDDEN || s == None {
        assert m == t;
      } else {
        assert m == Some(Assigned(t, s.value));
        assert Get(Some(MergeDeep(target, source)), p) == Get(m, rest);
        assert Voice(Some(source), p) == Voice(s, rest);
        if s.value.Obj? {
          if t.Some? && t.value.Obj? {
            MergeMeetsSpec(t.value, s.value, rest);
          } else {
            MergeMeetsSpec(Obj(map[]), s.value, rest);
            if rest != [] {
              KindOfLeaf(t, rest);
              GetNone(rest[1..]);
            }
          }
        } else if rest != [] {
          KindOfLeaf(m, rest);
        }
      }
    }
  }

  /** The kinds seen at all paths determine the tree, so MergeMeetsSpec pins the merge down. */
  lemma {:induction false} KindsDetermine(a: Json, b: Json)
    requires forall p :: KindOf(Get(Some(a), p)) == KindOf(Get(Some(b), p))
    ensures a == b
    decreases a
  {
    assert KindOf(Get(Some(a), [])) == KindOf(Get(Some(b), []));
    if a.Obj? {
      forall k
        ensures Child(Some(a), k) == Child(Some(b), k)
      {
        ChildKindsAgree(a, b, k);
        var x, y := Child(Some(a), k), Child(Some(b), k);
        assert KindOf(Get(x, [])) == KindOf(Get(y, []));
        if x.Some? {
          KindsDetermine(x.value, y.value);
        }
      }
      SameChildren(a, b);
    }
  }

  lemma ChildKindsAgree(a: Json, b: Json, k: string)
    requires forall p :: KindOf(Get(Some(a), p)) == KindOf(Get(Some(b), p))
    ensures forall p :: KindOf(Get(Child(Some(a), k), p)) == KindOf(Get(Child(Some(b), k), p))
  {
    forall p
      ensures KindOf(Get(Child(Some(a), k), p)) == KindOf(Get(Child(Some(b), k), p))
    {
      assert KindOf(Get(Some(a), [k] + p)) == KindOf(Get(Some(b), [k] + p));
      assert ([k] + p)[1..] == p;
    }
  }

  lemma SameChildren(a: Json, b: Json)
    requires a.Obj? && b.Obj?
    requires forall k :: Child(Some(a), k) == Child(Some(b), k)
    ensures a == b
  {
    var m, n := a.fields, b.fields;
    forall k
      ensures (k in m <==> k in n) && (k in m ==> m[k] == n[k])
    {
      assert Child(Some(a), k) == Child(Some(b), k);
    }
    assert m.Keys == n.Keys;
    assert m == n;
  }

  // ---------------------------------------------------------------- idempotence

  lemma {:induction false} MergeableMerge(a: Json, b: Json, c: Json)
    requires a.Obj? && b.Obj? && c.Obj?
    requires Mergeable(a, b) && Mergeable(b, c) && Mergeable(a, c)
    ensures Mergeable(MergeDeep(a, b), c) && Mergeable(a, MergeDeep(b, c))
    decreases c, b
  {
    var empty := Obj(map[]);
    var ab, bc := MergeDeep(a, b), MergeDeep(b, c);
    forall k | k in ab.fields && k in c.fields && c.fields[k].Obj?
      ensures Mergeable(ab.fields[k], c.fields[k])
    {
      var ak, bk := Child(Some(a), k), Child(Some(b), k);
      MergeAtKey(a, b, k);
      if k in FORBIDDEN || bk == None {
        assert Mergeable(a.fields[k], c.fields[k]);
      } else {
        assert Mergeable(b.fields[k], c.fields[k]);
        if bk.value.Obj? && ak.Some? && IsObject(ak.value) {
          assert Mergeable(a.fields[k], b.fields[k]) && Mergeable(a.fields[k], c.fields[k]);
          MergeableMerge(ak.value, bk.value, c.fields[k]);
        } else if bk.value.Obj? {
          MergeableMerge(empty, bk.value, c.fields[k]);
        }
      }
    }
    forall k | k in a.fields && k in bc.fields && bc.fields[k].Obj?
      ensures Mergeable(a.fields[k], bc.fields[k])
    {
      var bk, ck := Child(Some(b), k), Child(Some(c), k);
      MergeAtKey(b, c, k);
      if k in FORBIDDEN || ck == None {
        assert Mergeable(a.fields[k], b.fields[k]);
      } else {
        assert ck.value.Obj?;
        assert Mergeable(a.fields[k], c.fields[k]);
        if a.fields[k].Obj? && bk.Some? && IsObject(bk.value) {
          assert Mergeable(b.fields[k], c.fields[k]);
          assert Mergeable(a.fields[k], b.fields[k]);
          MergeableMerge(a.fields[k], bk.value, ck.value);
        } else if a.fields[k].Obj? {
          MergeableMerge(a.fields[k], empty, ck.value);
        }
      }
    }
  }

  lemma {:induction false} MergeableSelf(s: Json)
    requires s.Obj?
    ensures Mergeable(s, s)
    decreases s
  {
    forall k | k in s.fields && s.fields[k].Obj?
      ensures Mergeable(s.fields[k], s.fields[k])
    {
      MergeableSelf(s.fields[k]);
    }
  }

  /** Saving the same partial configuration twice equals saving it once. */
  lemma MergeTwice(target: Json, source: Json)
    requires target.Obj? && source.Obj? && Mergeable(target, source)
    ensures Mergeable(MergeDeep(target, source), source)
    ensures MergeDeep(MergeDeep(target, source), source) == MergeDeep(target, source)
  {
    MergeableSelf(source);
    MergeableMerge(target, source, source);
    var once := MergeDeep(target, source);
    var twice := MergeDeep(once, source);
    forall p
      ensures KindOf(Get(Some(twice), p)) == KindOf(Get(Some(once), p))
    {
      MergeMeetsSpec(target, source, p);
      MergeMeetsSpec(once, source, p);
    }
    KindsDetermine(twice, once);
  }

  // ---------------------------------------------------------------- associativity

  /** Path p lies under a value that b replaces whole, and c opens an object there again
      without speaking about p: merged first, b and c together forget the replacement. */
  predicate Resurfaces(b: Option<Json>, c: Option<Json>, p: Path)
    decreases |p|
  {
    && b.Some? && c.Some? && c.value.Obj? && p != []
    && if b.value.Obj?
       then p[0] !in FORBIDDEN && Resurfaces(Child(b, p[0]), Child(c, p[0]), p[1..])
       else Voice(c, p) == Silent
  }

  lemma {:induction false} VoiceOfMerge(b: Json, c: Json, p: Path)
    requires b.Obj? && c.Obj? && Mergeable(b, c)
    ensures Voice(Some(MergeDeep(b, c)), p) ==
            if Voice(Some(c), p) != Silent then Voice(Some(c), p)
            else if Resurfaces(Some(b), Some(c), p) then Silent
            else Voice(Some(b), p)
    decreases |p|
  {
    if p != [] && p[0] !in FORBIDDEN {
      var k, rest := p[0], p[1..];
      var bk, ck := Child(Some(b), k), Child(Some(c), k);
      var m := Child(Some(MergeDeep(b, c)), k);
      MergeAtKey(b, c, k);
      assert Voice(Some(MergeDeep(b, c)), p) == Voice(m, rest);
      assert Voice(Some(b), p) == Voice(bk, rest) && Voice(Some(c), p) == Voice(ck, rest);
      if ck == None {
        assert m == bk;
      } else if ck.value.Obj? {
        if bk.Some? && bk.value.Obj? {
          VoiceOfMerge(bk.value, ck.value, rest);
        } else {
          var empty := Obj(map[]);
          assert m == Some(MergeDeep(empty, ck.value));
          VoiceOfMerge(empty, ck.value, rest);
          if rest != [] {
            assert Voice(Some(empty), rest) == Silent;
            assert !Resurfaces(Some(empty), Some(ck.value), rest);
          }
        }
      } else {
        assert m == ck;
      }
    }
  }

  lemma MergeAssociatesAt(a: Json, b: Json, c: Json, p: Path)
    requires a.Obj? && b.Obj? && c.Obj?
    requires Mergeable(a, b) && Mergeable(b, c)
    requires Mergeable(MergeDeep(a, b), c) && Mergeable(a, MergeDeep(b, c))
    ensures KindAt(MergeDeep(a, MergeDeep(b, c)), p) == KindAt(MergeDeep(MergeDeep(a, b), c), p) <==>
            (Resurfaces(Some(b), Some(c), p) ==> KindAt(a, p) == Missing)
  {
    MergeMeetsSpec(a, MergeDeep(b, c), p);
    MergeMeetsSpec(MergeDeep(a, b), c, p);
    MergeMeetsSpec(a, b, p);
    VoiceOfMerge(b, c, p);
    if Resurfaces(Some(b), Some(c), p) {
      ResurfacingIsCut(Some(b), Some(c), p);
    }
  }

  /** default <- (local <- partial) equals (default <- local) <- partial exactly when no value of
      the first lies on a path that resurfaces between the other two. */
  lemma MergeAssociates(a: Json, b: Json, c: Json)
    requires a.Obj? && b.Obj? && c.Obj?
    requires Mergeable(a, b) && Mergeable(b, c) && Mergeable(a, c)
    ensures Mergeable(MergeDeep(a, b), c) && Mergeable(a, MergeDeep(b, c))
    ensures MergeDeep(a, MergeDeep(b, c)) == MergeDeep(MergeDeep(a, b), c) <==>
            forall p :: Resurfaces(Some(b), Some(c), p) ==> KindAt(a, p) == Missing
  {
    MergeableMerge(a, b, c);
    var left, right := MergeDeep(a, MergeDeep(b, c)), MergeDeep(MergeDeep(a, b), c);
    forall p
      ensures KindOf(Get(Some(left), p)) == KindOf(Get(Some(right), p)) <==>
              (Resurfaces(Some(b), Some(c), p) ==> KindAt(a, p) == Missing)
    {
      MergeAssociatesAt(a, b, c, p);
    }
    if forall p :: Resurfaces(Some(b), Some(c), p) ==> KindAt(a, p) == Missing {
      KindsDetermine(left, right);
    }
  }

  lemma {:induction false} ResurfacingIsCut(b: Option<Json>, c: Option<Json>, p: Path)
    requires Resurfaces(b, c, p)
    ensures Voice(b, p) == Cuts && Voice(c, p) == Silent
    decreases |p|
  {
    if b.value.Obj? {
      ResurfacingIsCut(Child(b, p[0]), Child(c, p[0]), p[1..]);
    }
  }

  /** Where the three trees hold values of the same kind the two orders agree. */
  lemma MergeAssociatesOnAgreeingKinds(a: Json, b: Json, c: Json)
    requires a.Obj? && b.Obj? && c.Obj?
    requires Mergeable(a, b) && Mergeable(b, c) && Mergeable(a, c)
    requires forall p :: KindOf(Get(Some(b), p)).Leaf? ==> !(KindAt(a, p).Node? && KindAt(c, p).Node?)
    ensures Mergeable(MergeDeep(a, b), c) && Mergeable(a, MergeDeep(b, c))
    ensures MergeDeep(a, MergeDeep(b, c)) == MergeDeep(MergeDeep(a, b), c)
  {
    forall p | Resurfaces(Some(b), Some(c), p)
      ensures KindAt(a, p) == Missing
    {
      if KindAt(a, p) != Missing {
        var q := ReplacedAbove(Some(a), Some(b), Some(c), p);
        assert false;
      }
    }
    MergeAssociates(a, b, c);
  }

  lemma {:induction false} ReplacedAbove(a: Option<Json>, b: Option<Json>, c: Option<Json>, p: Path) returns (q: Path)
    requires Resurfaces(b, c, p) && Get(a, p).Some?
    ensures KindOf(Get(b, q)).Leaf? && KindOf(Get(a, q)).Node? && KindOf(Get(c, q)).Node?
    decreases |p|
  {
    if a == None || !a.value.Obj? {
      KindOfLeaf(a, p);
    }
    if b.value.Obj? {
      var rest := ReplacedAbove(Child(a, p[0]), Child(b, p[0]), Child(c, p[0]), p[1..]);
      q := [p[0]] + rest;
      assert q[1..] == rest;
    } else {
      q := [];
    }
  }

  /** The exception: an object, then null, then an object again under one key. */
  lemma MergeOrderMatters(key: string, x: string, v: Json, y: string, w: Json)
    requires key !in FORBIDDEN && x != y
    ensures var a := Obj(map[key := Obj(map[x := v])]);
            var b := Obj(map[key := Null]);
            var c := Obj(map[key := Obj(map[y := w])]);
            && Mergeable(a, b) && Mergeable(b, c) && Mergeable(a, c)
            && Mergeable(a, MergeDeep(b, c)) && Mergeable(MergeDeep(a, b), c)
            && MergeDeep(a, MergeDeep(b, c)) != MergeDeep(MergeDeep(a, b), c)
  {
    var a := Obj(map[key := Obj(map[x := v])]);
    var b := Obj(map[key := Null]);
    var c := Obj(map[key := Obj(map[y := w])]);
    var ak, bk, ck := a.fields[key], b.fields[key], c.fields[key];
    assert Mergeable(bk, ck) && Mergeable(ak, ck) && Mergeable(ak, bk);
    MergeableMerge(a, b, c);
    var left, right := MergeDeep(a, MergeDeep(b, c)), MergeDeep(MergeDeep(a, b), c);
    var reopened := MergeDeep(Obj(map[]), ck);
    MergeAtKey(b, c, key);
    MergeAtKey(a, MergeDeep(b, c), key);
    assert MergeDeep(b, c).fields[key] == reopened;
    assert left.fields[key] == MergeDeep(ak, reopened);
    assert x in left.fields[key].fields;
    MergeAtKey(a, b, key);
    MergeAtKey(MergeDeep(a, b), c, key);
    assert MergeDeep(a, b).fields[key] == Null;
    assert right.fields[key] == reopened;
    assert x !in reopened.fields;
  }
}
