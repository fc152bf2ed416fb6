/** JSON values and the one operation the configuration code performs on them:
    look at the value under a chain of keys and replace, create or delete it. */
module JsonTree {
  import opened Outcomes

  datatype Json =
    | Null
    | Bool(b: bool)
    | Num(n: real)
    | Str(s: string)
    | Arr(elems: seq<Json>)
    | Obj(fields: map<string, Json>)

  type Path = seq<string>

  /** What to do with the value found at a path; None stands for undefined. */
  type Action = (Path, Option<Json>) -> Option<Json>

  /** JavaScript truthiness. */
  predicate Truthy(o: Option<Json>) {
    match o
    case None => false
    case Some(Null) => false
    case Some(Bool(b)) => b
    case Some(Num(n)) => n != 0.0
    case Some(Str(s)) => s != ""
    case Some(Arr(_)) => true
    case Some(Obj(_)) => true
  }

  function Child(o: Option<Json>, key: string): Option<Json> {
    if o.Some? && o.value.Obj? && key in o.value.fields then Some(o.value.fields[key]) else None
  }

  function SetChild(o: Option<Json>, key: string, child: Option<Json>): Option<Json> {
    if o.Some? && o.value.Obj? then
      match child
      case Some(c) => Some(Obj(o.value.fields[key := c]))
      case None => Some(Obj(o.value.fields - {key}))
    else
      match child
      case Some(c) => Some(Obj(map[key := c]))
      case None => o
  }

  /** o?.[p0]?.[p1]... */
  function Get(o: Option<Json>, p: Path): Option<Json>
    decreases |p|
  {
    if p == [] then o else Get(Child(o, p[0]), p[1..])
  }

  /** Applies f to the value under the keys p, creating parents only when f yields a value.
      `at` is the whole path from the root, so that f can tell positions apart. */
  function Update(o: Option<Json>, p: Path, at: Path, f: Action): Option<Json>
    decreases |p|
  {
    if p == [] then f(at, o) else SetChild(o, p[0], Update(Child(o, p[0]), p[1..], at, f))
  }

  function UpdateAll(o: Option<Json>, ps: seq<Path>, f: Action): Option<Json>
    decreases |ps|
  {
    if ps == [] then o else UpdateAll(Update(o, ps[0], ps[0], f), ps[1..], f)
  }

  function Constantly(v: Option<Json>): Action {
    (p: Path, o: Option<Json>) => v
  }

  /** o.p0.p1... = v, or delete o.p0.p1... */
  function SetAt(o: Option<Json>, p: Path, v: Option<Json>): Option<Json> {
    Update(o, p, p, Constantly(v))
  }

  /** Neither path is a prefix of the other. */
  predicate Apart(p: Path, q: Path)
    decreases |p|
  {
    p != [] && q != [] && (p[0] != q[0] || Apart(p[1..], q[1..]))
  }

  ghost predicate PairwiseApart(ps: seq<Path>) {
    forall i, j :: 0 <= i < j < |ps| ==> Apart(ps[i], ps[j])
  }

  /** f never turns undefined into a value. */
  ghost predicate KeepsAbsent(f: Action) {
    forall p :: f(p, None) == None
  }

  // ---------------------------------------------------------------- one key

  lemma SetChildSame(o: Option<Json>, key: string)
    ensures SetChild(o, key, Child(o, key)) == o
  {
    if o.Some? && o.value.Obj? {
      var m := o.value.fields;
      if key in m {
        assert m[key := m[key]] == m;
      } else {
        assert m - {key} == m;
      }
    }
  }

  lemma SetChildTwice(o: Option<Json>, key: string, a: Option<Json>, b: Option<Json>)
    requires b == None && a != None ==> o.Some? && o.value.Obj?
    ensures SetChild(SetChild(o, key, a), key, b) == SetChild(o, key, b)
  {
    if o.Some? && o.value.Obj? {
      var m := o.value.fields;
      if a.Some? && b.Some? {
        assert m[key := a.value][key := b.value] == m[key := b.value];
      } else if a.Some? {
        assert m[key := a.value] - {key} == m - {key};
      } else if b.Some? {
        assert (m - {key})[key := b.value] == m[key := b.value];
      } else {
        assert (m - {key}) - {key} == m - {key};
      }
    } else if a.Some? && b.Some? {
      assert map[key := a.value][key := b.value] == map[key := b.value];
    }
  }

  lemma SetChildSwap(o: Option<Json>, k: string, a: Option<Json>, l: string, b: Option<Json>)
    requires k != l
    ensures SetChild(SetChild(o, k, a), l, b) == SetChild(SetChild(o, l, b), k, a)
  {
    if o.Some? && o.value.Obj? {
      var m := o.value.fields;
      if a.Some? && b.Some? {
        assert m[k := a.value][l := b.value] == m[l := b.value][k := a.value];
      } else if a.Some? {
        assert m[k := a.value] - {l} == (m - {l})[k := a.value];
      } else if b.Some? {
        assert (m - {k})[l := b.value] == m[l := b.value] - {k};
      } else {
        assert (m - {k}) - {l} == (m - {l}) - {k};
      }
    } else if a.Some? && b.Some? {
      assert map[k := a.value][l := b.value] == map[l := b.value][k := a.value];
    } else if a.Some? {
      assert map[k := a.value] - {l} == map[k := a.value];
    } else if b.Some? {
      assert map[l := b.value] - {k} == map[l := b.value];
    }
  }

  // ---------------------------------------------------------------- one path

  lemma UpdateKeepsSome(o: Option<Json>, p: Path, at: Path, f: Action)
    requires o.Some? && p != []
    ensures Update(o, p, at, f).Some?
  {
  }

  lemma {:induction false} ApartSymmetric(p: Path, q: Path)
    ensures Apart(p, q) == Apart(q, p)
    decreases |p|
  {
    if p != [] && q != [] && p[0] == q[0] {
      ApartSymmetric(p[1..], q[1..]);
    }
  }

  lemma {:induction false} GetUpdateSame(o: Option<Json>, p: Path, at: Path, f: Action)
    ensures Get(Update(o, p, at, f), p) == f(at, Get(o, p))
    decreases |p|
  {
    if p != [] {
      GetUpdateSame(Child(o, p[0]), p[1..], at, f);
      var c := Update(Child(o, p[0]), p[1..], at, f);
      if c == None {
        GetNone(p[1..]);
        assert Child(SetChild(o, p[0], c), p[0]) == None;
      } else {
        assert Child(SetChild(o, p[0], c), p[0]) == c;
      }
    }
  }

  lemma {:induction false} GetNone(p: Path)
    ensures Get(None, p) == None
    decreases |p|
  {
    if p != [] {
      GetNone(p[1..]);
    }
  }

  lemma {:induction false} GetUpdateApart(o: Option<Json>, p: Path, at: Path, f: Action, q: Path)
    requires Apart(p, q)
    ensures Get(Update(o, p, at, f), q) == Get(o, q)
    decreases |p|
  {
    var c := Update(Child(o, p[0]), p[1..], at, f);
    if p[0] == q[0] {
      GetUpdateApart(Child(o, p[0]), p[1..], at, f, q[1..]);
      assert Child(SetChild(o, p[0], c), p[0]) == c;
    } else {
      assert Child(SetChild(o, p[0], c), q[0]) == Child(o, q[0]);
    }
  }

  lemma {:induction false} UpdateNoop(o: Option<Json>, p: Path, at: Path, f: Action)
    requires f(at, Get(o, p)) == Get(o, p)
    ensures Update(o, p, at, f) == o
    decreases |p|
  {
    if p != [] {
      UpdateNoop(Child(o, p[0]), p[1..], at, f);
      SetChildSame(o, p[0]);
    }
  }

  /** Two updates at one path are one update, unless the first creates a value for the second to remove. */
  lemma {:induction false} UpdateFuse(o: Option<Json>, p: Path, at: Path, f: Action, g: Action, h: Action)
    requires f(at, None).Some? ==> g(at, f(at, None)).Some?
    requires forall x :: h(at, x) == g(at, f(at, x))
    ensures Update(Update(o, p, at, f), p, at, g) == Update(o, p, at, h)
    decreases |p|
  {
    if p != [] {
      var c := Child(o, p[0]);
      var c1 := Update(c, p[1..], at, f);
      var c2 := Update(c1, p[1..], at, g);
      UpdateFuse(c, p[1..], at, f, g, h);
      if c1 == None {
        if c == None {
          SetChildSame(o, p[0]);
        } else {
          SetChildTwice(o, p[0], c1, c2);
        }
      } else {
        assert Child(SetChild(o, p[0], c1), p[0]) == c1;
        if c == None {
          UpdateFromNone(p[1..], at, f, g);
        }
        SetChildTwice(o, p[0], c1, c2);
      }
    }
  }

  lemma {:induction false} UpdateFromNone(p: Path, at: Path, f: Action, g: Action)
    requires f(at, None).Some? ==> g(at, f(at, None)).Some?
    ensures Update(None, p, at, f).Some? ==> Update(Update(None, p, at, f), p, at, g).Some?
    decreases |p|
  {
    if p != [] && Update(None, p, at, f).Some? {
      UpdateKeepsSome(Update(None, p, at, f), p, at, g);
    }
  }

  lemma {:induction false} UpdateCommute(o: Option<Json>, p: Path, at: Path, f: Action, q: Path, at': Path, g: Action)
    requires Apart(p, q)
    ensures Update(Update(o, p, at, f), q, at', g) == Update(Update(o, q, at', g), p, at, f)
    decreases |p|
  {
    var cp := Update(Child(o, p[0]), p[1..], at, f);
    var cq := Update(Child(o, q[0]), q[1..], at', g);
    var op, oq := SetChild(o, p[0], cp), SetChild(o, q[0], cq);
    assert Child(op, p[0]) == cp && Child(oq, q[0]) == cq;
    if p[0] == q[0] {
      UpdateCommute(Child(o, p[0]), p[1..], at, f, q[1..], at', g);
      var r := Update(cp, q[1..], at', g);
      assert r == Update(cq, p[1..], at, f);
      if cp.Some? {
        UpdateKeepsSome(cp, q[1..], at', g);
      }
      if cq.Some? {
        UpdateKeepsSome(cq, p[1..], at, f);
      }
      SetChildTwice(o, p[0], cp, r);
      SetChildTwice(o, p[0], cq, r);
    } else {
      assert Child(op, q[0]) == Child(o, q[0]) && Child(oq, p[0]) == Child(o, p[0]);
      SetChildSwap(o, p[0], cp, q[0], cq);
    }
  }

  // ---------------------------------------------------------------- many paths

  lemma {:induction false} UpdateAllPassesUpdate(o: Option<Json>, ps: seq<Path>, f: Action, q: Path, g: Action)
    requires forall p :: p in ps ==> Apart(p, q)
    ensures UpdateAll(Update(o, q, q, g), ps, f) == Update(UpdateAll(o, ps, f), q, q, g)
    decreases |ps|
  {
    if ps != [] {
      UpdateCommute(o, ps[0], ps[0], f, q, q, g);
      UpdateAllPassesUpdate(Update(o, ps[0], ps[0], f), ps[1..], f, q, g);
    }
  }

  lemma PairwiseApartTail(ps: seq<Path>)
    requires PairwiseApart(ps) && ps != []
    ensures PairwiseApart(ps[1..])
    ensures forall p :: p in ps[1..] ==> Apart(p, ps[0]) && Apart(ps[0], p)
  {
    forall p | p in ps[1..]
      ensures Apart(p, ps[0]) && Apart(ps[0], p)
    {
      var i :| 0 <= i < |ps[1..]| && ps[1..][i] == p;
      assert Apart(ps[0], ps[i + 1]);
      ApartSymmetric(ps[0], p);
    }
  }

  /** Two passes over the same positions are one pass. */
  lemma {:induction false} UpdateAllFuse(o: Option<Json>, ps: seq<Path>, f: Action, g: Action, h: Action)
    requires PairwiseApart(ps) && KeepsAbsent(f)
    requires forall p, x :: p in ps ==> h(p, x) == g(p, f(p, x))
    ensures UpdateAll(UpdateAll(o, ps, f), ps, g) == UpdateAll(o, ps, h)
    decreases |ps|
  {
    if ps != [] {
      var p, rest := ps[0], ps[1..];
      PairwiseApartTail(ps);
      var o1 := Update(o, p, p, f);
      UpdateAllPassesUpdate(o1, rest, f, p, g);
      UpdateFuse(o, p, p, f, g, h);
      UpdateAllFuse(Update(o, p, p, h), rest, f, g, h);
    }
  }

  /** A single position decides whether a whole pass can tell two trees apart. */
  lemma {:induction false} UpdateAllFromOne(o: Option<Json>, o': Option<Json>, ps: seq<Path>, f: Action, q: Path)
    requires PairwiseApart(ps) && q in ps
    requires Update(o, q, q, f) == Update(o', q, q, f)
    ensures UpdateAll(o, ps, f) == UpdateAll(o', ps, f)
    decreases |ps|
  {
    if ps[0] != q {
      PairwiseApartTail(ps);
      var p := ps[0];
      UpdateCommute(o, p, p, f, q, q, f);
      UpdateCommute(o', p, p, f, q, q, f);
      UpdateAllFromOne(Update(o, p, p, f), Update(o', p, p, f), ps[1..], f, q);
    }
  }

  lemma {:induction false} UpdateAllAppend(o: Option<Json>, ps: seq<Path>, qs: seq<Path>, f: Action)
    ensures UpdateAll(o, ps + qs, f) == UpdateAll(UpdateAll(o, ps, f), qs, f)
    decreases |ps|
  {
    if ps == [] {
      assert ps + qs == qs;
    } else {
      assert (ps + qs)[0] == ps[0] && (ps + qs)[1..] == ps[1..] + qs;
      UpdateAllAppend(Update(o, ps[0], ps[0], f), ps[1..], qs, f);
    }
  }

  /** Only the value found at a position decides what happens to it. */
  lemma {:induction false} UpdateAllAgree(o: Option<Json>, ps: seq<Path>, f: Action, g: Action)
    requires PairwiseApart(ps)
    requires forall p :: p in ps ==> f(p, Get(o, p)) == g(p, Get(o, p))
    ensures UpdateAll(o, ps, f) == UpdateAll(o, ps, g)
    decreases |ps|
  {
    if ps != [] {
      var p, rest := ps[0], ps[1..];
      PairwiseApartTail(ps);
      UpdateAgree(o, p, p, f, g);
      forall q | q in rest
        ensures f(q, Get(Update(o, p, p, f), q)) == g(q, Get(Update(o, p, p, f), q))
      {
        GetUpdateApart(o, p, p, f, q);
      }
      UpdateAllAgree(Update(o, p, p, f), rest, f, g);
    }
  }

  lemma {:induction false} UpdateAgree(o: Option<Json>, p: Path, at: Path, f: Action, g: Action)
    requires f(at, Get(o, p)) == g(at, Get(o, p))
    ensures Update(o, p, at, f) == Update(o, p, at, g)
    decreases |p|
  {
    if p != [] {
      UpdateAgree(Child(o, p[0]), p[1..], at, f, g);
    }
  }

  lemma {:induction false} UpdateAllNoop(o: Option<Json>, ps: seq<Path>, f: Action)
    requires forall p :: p in ps ==> f(p, Get(o, p)) == Get(o, p)
    ensures UpdateAll(o, ps, f) == o
    decreases |ps|
  {
    if ps != [] {
      UpdateNoop(o, ps[0], ps[0], f);
      UpdateAllNoop(o, ps[1..], f);
    }
  }

  lemma {:induction false} GetUpdateAllApart(o: Option<Json>, ps: seq<Path>, f: Action, q: Path)
    requires forall p :: p in ps ==> Apart(p, q)
    ensures Get(UpdateAll(o, ps, f), q) == Get(o, q)
    decreases |ps|
  {
    if ps != [] {
      GetUpdateApart(o, ps[0], ps[0], f, q);
      GetUpdateAllApart(Update(o, ps[0], ps[0], f), ps[1..], f, q);
    }
  }

  lemma {:induction false} GetUpdateAllSame(o: Option<Json>, ps: seq<Path>, f: Action, q: Path)
    requires PairwiseApart(ps) && q in ps
    ensures Get(UpdateAll(o, ps, f), q) == f(q, Get(o, q))
    decreases |ps|
  {
    PairwiseApartTail(ps);
    if q == ps[0] {
      GetUpdateSame(o, q, q, f);
      GetUpdateAllApart(Update(o, q, q, f), ps[1..], f, q);
    } else {
      GetUpdateApart(o, ps[0], ps[0], f, q);
      GetUpdateAllSame(Update(o, ps[0], ps[0], f), ps[1..], f, q);
    }
  }
}
