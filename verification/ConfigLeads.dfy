/** Lead times of the outputs: the bounds of the schema, the clamping before it, and what becomes of a lead. */
module ConfigLeads {
  import opened Outcomes
  import opened JsonTree
  import opened ConfigSecrets
  import opened MigratedSecrets
  import opened Migration

  const MIN_LEAD := -30000.0
  const MAX_LEAD := 30000.0

  function LeadPath(id: string): Path {
    ["automation", "outputs", id, "leadTimeMs"]
  }

  function Outputs(c: Option<Json>): Option<Json> {
    Get(c, OUTPUTS)
  }

  function LeadAt(c: Option<Json>, id: string): Option<Json> {
    Get(c, LeadPath(id))
  }

  predicate InRange(n: real) {
    MIN_LEAD <= n <= MAX_LEAD
  }

  // ---------------------------------------------------------------- the schema's part

  predicate LeadFits(lead: Option<Json>) {
    lead == None || (lead.value.Num? && InRange(lead.value.n))
  }

  /** What configSchema demands of automation.outputs: a record of objects, each with a bounded lead or none. */
  predicate LeadsAccepted(c: Option<Json>) {
    var outputs := Outputs(c);
    outputs == None
    || (outputs.value.Obj?
        && forall id :: id in outputs.value.fields ==> outputs.value.fields[id].Obj? && LeadFits(LeadAt(c, id)))
  }

  /** A lead as parsed: zero when it was left out. */
  function ParsedLead(lead: Option<Json>): Json {
    lead.GetOr(Num(0.0))
  }

  function OutputIds(c: Option<Json>): set<string> {
    var outputs := Outputs(c);
    if outputs.Some? && outputs.value.Obj? then outputs.value.fields.Keys else {}
  }

  /** The parsed tree: the outputs of c with their leads; `parsed` supplies everything else. */
  function WithLeads(parsed: Json, c: Option<Json>): Json {
    var outputs := Obj(map id | id in OutputIds(c) ::
                         SetChild(Child(Outputs(Some(parsed)), id), "leadTimeMs", Some(ParsedLead(LeadAt(c, id)))).GetOr(Null));
    SetAt(Some(parsed), OUTPUTS, Some(outputs)).GetOr(parsed)
  }

  lemma LeadIsChild(c: Option<Json>, id: string)
    ensures LeadAt(c, id) == Child(Child(Outputs(c), id), "leadTimeMs")
  {
    GetSplit(c, OUTPUTS, [id, "leadTimeMs"]);
    assert OUTPUTS + [id, "leadTimeMs"] == LeadPath(id);
    var o := Outputs(c);
    assert [id, "leadTimeMs"][1..] == ["leadTimeMs"] && ["leadTimeMs"][1..] == [];
    assert Get(o, [id, "leadTimeMs"]) == Get(Child(o, id), ["leadTimeMs"]) == Get(Child(Child(o, id), "leadTimeMs"), []);
  }

  /** The parsed tree has the leads of its input, zero where one was left out, and no other output. */
  lemma LeadOfParsed(parsed: Json, c: Option<Json>, id: string)
    ensures LeadAt(Some(WithLeads(parsed, c)), id) == if id in OutputIds(c) then Some(ParsedLead(LeadAt(c, id))) else None
  {
    var outputs := Obj(map k | k in OutputIds(c) ::
                         SetChild(Child(Outputs(Some(parsed)), k), "leadTimeMs", Some(ParsedLead(LeadAt(c, k)))).GetOr(Null));
    UpdateKeepsSome(Some(parsed), OUTPUTS, OUTPUTS, Constantly(Some(outputs)));
    GetUpdateSame(Some(parsed), OUTPUTS, OUTPUTS, Constantly(Some(outputs)));
    var t := Some(WithLeads(parsed, c));
    assert Outputs(t) == Some(outputs);
    LeadIsChild(t, id);
  }

  // ---------------------------------------------------------------- clamping

  function ClampLead(o: Option<Json>): Option<Json> {
    match o
    case Some(Num(n)) => Some(Num(if n < MIN_LEAD then MIN_LEAD else if n > MAX_LEAD then MAX_LEAD else n))
    case _ => o
  }

  function Clamping(): Action {
    (p: Path, o: Option<Json>) => ClampLead(o)
  }

  function LeadPaths(strategies: seq<string>): seq<Path> {
    seq(|strategies|, i requires 0 <= i < |strategies| => LeadPath(strategies[i]))
  }

  /** _validateConstraints, lead times: only outputs with a registered strategy are clamped. */
  function ClampLeads(strategies: seq<string>, c: Option<Json>): Option<Json> {
    UpdateAll(c, LeadPaths(strategies), Clamping())
  }

  lemma LeadPathsApart(id: string, id': string)
    requires id != id'
    ensures Apart(LeadPath(id), LeadPath(id'))
  {
    assert LeadPath(id)[..2] == LeadPath(id')[..2];
    FirstDiffers(LeadPath(id), LeadPath(id'), 2);
  }

  /** Clamping clamps the lead of every registered output and no other. */
  lemma LeadOfClamped(strategies: seq<string>, c: Option<Json>, id: string)
    requires Distinct(strategies)
    ensures LeadAt(ClampLeads(strategies, c), id) == if id in strategies then ClampLead(LeadAt(c, id)) else LeadAt(c, id)
  {
    var ps := LeadPaths(strategies);
    forall i, j | 0 <= i < j < |ps|
      ensures Apart(ps[i], ps[j])
    {
      LeadPathsApart(strategies[i], strategies[j]);
    }
    if id in strategies {
      var i :| 0 <= i < |strategies| && strategies[i] == id;
      assert ps[i] == LeadPath(id);
      GetUpdateAllSame(c, ps, Clamping(), LeadPath(id));
    } else {
      forall p | p in ps
        ensures Apart(p, LeadPath(id))
      {
        var i :| 0 <= i < |ps| && ps[i] == p;
        LeadPathsApart(strategies[i], id);
      }
      GetUpdateAllApart(c, ps, Clamping(), LeadPath(id));
    }
  }

  lemma ClampingKeepsShape(strategies: seq<string>, c: Option<Json>, q: Path)
    requires q == OUTPUTS || (|q| == 3 && q[..2] == OUTPUTS)
    ensures SameShape(Get(c, q), Get(ClampLeads(strategies, c), q))
  {
    forall p | p in LeadPaths(strategies)
      ensures Apart(p, q) || (q <= p && q != p)
    {
      if |q| == 3 {
        assert p[..2] == q[..2];
        if p[2] != q[2] {
          FirstDiffers(p, q, 2);
        } else {
          assert q == q[..2] + [q[2]] == p[..3];
        }
      }
    }
    assert KeepsAbsent(Clamping());
    ShapeAbove(c, LeadPaths(strategies), Clamping(), q);
  }

  lemma OutputIsChild(c: Option<Json>, id: string)
    ensures Get(c, OUTPUTS + [id]) == Child(Outputs(c), id)
  {
    GetAppend(c, OUTPUTS, id);
  }

  /** Whether the leads pass once clamped: numbers for registered outputs, numbers in range for the others. */
  predicate LeadsClampable(strategies: seq<string>, c: Option<Json>) {
    var outputs := Outputs(c);
    outputs == None
    || (outputs.value.Obj?
        && forall id :: id in outputs.value.fields ==>
             && outputs.value.fields[id].Obj?
             && (LeadAt(c, id) == None || (LeadAt(c, id).value.Num? && (id in strategies || InRange(LeadAt(c, id).value.n)))))
  }

  lemma ClampedOutput(strategies: seq<string>, c: Option<Json>, id: string)
    ensures SameShape(Child(Outputs(c), id), Child(Outputs(ClampLeads(strategies, c)), id))
  {
    assert (OUTPUTS + [id])[..2] == OUTPUTS;
    ClampingKeepsShape(strategies, c, OUTPUTS + [id]);
    OutputIsChild(c, id);
    OutputIsChild(ClampLeads(strategies, c), id);
  }

  /** The schema's bounds hold of a clamped tree exactly when each registered output has a number or nothing for a
      lead and each other output a number in range or nothing: a registered output's lead never fails them. */
  lemma ClampThenAcceptedIff(strategies: seq<string>, c: Option<Json>)
    requires Distinct(strategies)
    ensures LeadsAccepted(ClampLeads(strategies, c)) <==> LeadsClampable(strategies, c)
    ensures OutputIds(ClampLeads(strategies, c)) == OutputIds(c)
  {
    var d := ClampLeads(strategies, c);
    ClampingKeepsShape(strategies, c, OUTPUTS);
    forall id
      ensures SameShape(Child(Outputs(c), id), Child(Outputs(d), id))
      ensures LeadAt(d, id) == if id in strategies then ClampLead(LeadAt(c, id)) else LeadAt(c, id)
    {
      ClampedOutput(strategies, c, id);
      LeadOfClamped(strategies, c, id);
    }
    if Outputs(c).Some? && Outputs(c).value.Obj? {
      SameIds(Outputs(c), Outputs(d));
    }
  }

  lemma SameIds(o: Option<Json>, o': Option<Json>)
    requires o.Some? && o.value.Obj? && o'.Some? && o'.value.Obj?
    requires forall id :: SameShape(Child(o, id), Child(o', id))
    ensures o.value.fields.Keys == o'.value.fields.Keys
    ensures forall id :: id in o.value.fields ==> (o.value.fields[id].Obj? <==> o'.value.fields[id].Obj?)
  {
    forall id
      ensures id in o.value.fields <==> id in o'.value.fields
    {
      assert SameShape(Child(o, id), Child(o', id));
    }
    forall id | id in o.value.fields
      ensures o.value.fields[id].Obj? <==> o'.value.fields[id].Obj?
    {
      assert SameShape(Child(o, id), Child(o', id));
    }
  }
}
