/** How edits of the saved layer show through the merge with the default layer. */
module ConfigLayers {
  import opened Outcomes
  import opened JsonTree
  import opened ConfigMerge

  /** An edit that removes a value, leaves it, or replaces it by something that is no object. */
  ghost predicate Tame(e: Action) {
    && KeepsAbsent(e)
    && forall p, x :: e(p, Some(x)) == None || e(p, Some(x)) == Some(x) || !IsObject(e(p, Some(x)).value)
  }

  /** After f nobody can tell whether e was applied to the saved layer before the merge: either f
      ignores what it finds, or e only rewrites plain values and f undoes the rewriting. */
  ghost predicate Absorbs(f: Action, e: Action) {
    || (forall p, x, y :: f(p, x) == f(p, y))
    || (forall p, x :: && f(p, e(p, Some(x))) == f(p, Some(x))
                       && e(p, Some(x)).Some?
                       && (x.Obj? ==> e(p, Some(x)) == Some(x)))
  }

  lemma {:induction false} TameKeepsMergeable(d: Json, c: Json, p: Path, at: Path, e: Action)
    requires d.Obj? && c.Obj? && Mergeable(d, c) && Tame(e) && p != []
    ensures var c' := Update(Some(c), p, at, e);
            c'.Some? && c'.value.Obj? && Mergeable(d, c'.value)
    decreases |p|
  {
    var k := p[0];
    var ck := Child(Some(c), k);
    var ck' := Update(ck, p[1..], at, e);
    var c' := Update(Some(c), p, at, e).value;
    forall l | l in d.fields && l in c'.fields && c'.fields[l].Obj?
      ensures Mergeable(d.fields[l], c'.fields[l])
    {
      if l != k {
        assert c'.fields[l] == c.fields[l];
      } else {
        AbsentStaysAbsent(p[1..], at, e);
        assert ck.Some?;
        if p[1..] != [] && ck.value.Obj? {
          assert Mergeable(d.fields[k], ck.value);
          if d.fields[k].Obj? {
            TameKeepsMergeable(d.fields[k], ck.value, p[1..], at, e);
          }
        } else if p[1..] != [] {
          EditBelowLeaf(ck.value, p[1..], at, e);
        } else {
          assert ck' == e(at, ck);
        }
      }
    }
  }

  lemma {:induction false} AbsentStaysAbsent(p: Path, at: Path, e: Action)
    requires e(at, None) == None
    ensures Update(None, p, at, e) == None
    decreases |p|
  {
    if p != [] {
      AbsentStaysAbsent(p[1..], at, e);
    }
  }

  lemma EditBelowLeaf(v: Json, p: Path, at: Path, e: Action)
    requires !v.Obj? && p != [] && e(at, None) == None
    ensures Update(Some(v), p, at, e) == Some(v)
  {
    AbsentStaysAbsent(p[1..], at, e);
  }

  lemma {:induction false} MergeAbsorbsEdit(d: Json, c: Json, p: Path, at: Path, e: Action, f: Action)
    requires d.Obj? && c.Obj? && Mergeable(d, c) && Tame(e) && Absorbs(f, e) && p != []
    ensures var c' := Update(Some(c), p, at, e);
            && c'.Some? && c'.value.Obj? && Mergeable(d, c'.value)
            && Update(Some(MergeDeep(d, c'.value)), p, at, f) == Update(Some(MergeDeep(d, c)), p, at, f)
    decreases |p|
  {
    TameKeepsMergeable(d, c, p, at, e);
    var k, rest := p[0], p[1..];
    var ck := Child(Some(c), k);
    var ck' := Update(ck, rest, at, e);
    var c' := Update(Some(c), p, at, e).value;
    var m, m' := Some(MergeDeep(d, c)), Some(MergeDeep(d, c'));
    var mk, mk' := Child(m, k), Child(m', k);
    MergeAtKey(d, c, k);
    MergeAtKey(d, c', k);
    assert Child(Some(c'), k) == ck';
    if ck == None {
      AbsentStaysAbsent(rest, at, e);
      SetChildSame(Some(c), k);
      assert c' == c;
    } else if k in FORBIDDEN {
      assert mk == mk';
      SameOutside(d, c, c', k, ck', Update(mk, rest, at, f));
    } else {
      if rest != [] && ck.value.Obj? {
        var dk := Child(Some(d), k);
        var base := if dk.Some? && IsObject(dk.value) then dk.value else Obj(map[]);
        if dk.Some? {
          assert Mergeable(d.fields[k], c.fields[k]);
        }
        MergeAbsorbsEdit(base, ck.value, rest, at, e, f);
        assert mk == Some(MergeDeep(base, ck.value)) && mk' == Some(MergeDeep(base, ck'.value));
      } else if rest != [] {
        EditBelowLeaf(ck.value, rest, at, e);
      } else if !(forall p, x, y :: f(p, x) == f(p, y)) {
        assert ck' == e(at, ck);
        assert mk' == if ck.value.Obj? then mk else ck';
      }
      assert Update(mk', rest, at, f) == Update(mk, rest, at, f);
      SameOutside(d, c, c', k, ck', Update(mk, rest, at, f));
    }
  }

  /** Merges of two sources that differ only under k differ only under k. */
  lemma SameOutside(d: Json, c: Json, c': Json, k: string, ck': Option<Json>, v: Option<Json>)
    requires d.Obj? && c.Obj? && c'.Obj? && Mergeable(d, c) && Mergeable(d, c')
    requires Some(c') == SetChild(Some(c), k, ck')
    ensures SetChild(Some(MergeDeep(d, c')), k, v) == SetChild(Some(MergeDeep(d, c)), k, v)
  {
    var x, y := SetChild(Some(MergeDeep(d, c')), k, v).value, SetChild(Some(MergeDeep(d, c)), k, v).value;
    forall l
      ensures Child(Some(x), l) == Child(Some(y), l)
    {
      MergeAtKey(d, c, l);
      MergeAtKey(d, c', l);
      if l != k {
        assert Child(Some(c'), l) == Child(Some(c), l);
      }
    }
    SameChildren(x, y);
  }

  /** A whole pass of edits on the saved layer is invisible after a pass over at least those positions. */
  lemma {:induction false} MergeAbsorbsEdits(d: Json, c: Json, qs: seq<Path>, e: Action, ps: seq<Path>, f: Action)
    requires d.Obj? && c.Obj? && Mergeable(d, c) && Tame(e) && Absorbs(f, e)
    requires PairwiseApart(ps) && (forall q :: q in qs ==> q in ps && q != [])
    ensures var c' := UpdateAll(Some(c), qs, e);
            && c'.Some? && c'.value.Obj? && Mergeable(d, c'.value)
            && UpdateAll(Some(MergeDeep(d, c'.value)), ps, f) == UpdateAll(Some(MergeDeep(d, c)), ps, f)
    decreases |qs|
  {
    if qs != [] {
      var q := qs[0];
      assert q in qs;
      MergeAbsorbsEdit(d, c, q, q, e, f);
      var c1 := Update(Some(c), q, q, e).value;
      UpdateAllFromOne(Some(MergeDeep(d, c1)), Some(MergeDeep(d, c)), ps, f, q);
      MergeAbsorbsEdits(d, c1, qs[1..], e, ps, f);
    }
  }
}
