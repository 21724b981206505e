/** Facts about the emitted program other than feasibility: which variables
    exist, when and how the builder fails, which variables every constraint
    and the objective use, what the objective charges, and which input fields
    it never reads. */
module Outcomes {
  import opened Records
  import opened LinearProgram
  import opened EdgeTables
  import opened Formulation

  // ---------------------------------------------------------------------
  // The variable key sets.

  /** Stage 1 has a variable for exactly the (refinery id, tank id) pairs. */
  lemma Stage1VariablesExactly(net: Network)
    ensures forall v :: v in Stage1Variables(net) <==>
      v.R2T? && v.src in RefineryIds(net.refineries) && v.dst in TankIds(net.tanks)
  {
    var rids, tids := RefineryIds(net.refineries), TankIds(net.tanks);
    Stage1KeysMembers(rids, tids);
    forall v: Var | v.R2T? && v.src in rids && v.dst in tids ensures v in Stage1Variables(net) {
      assert v == R2T(v.src, v.dst);
    }
  }

  /** Stage 2 has a variable for exactly the (tank id, customer id) pairs
      whose customer id is named by some demand record; a customer without a
      demand has none. */
  lemma Stage2VariablesExactly(net: Network)
    ensures forall v :: v in Stage2Variables(net) <==>
      v.T2C? && v.src in TankIds(net.tanks) && exists d :: d in net.demands && d.customerId == v.dst
  {
    var tids, ds := TankIds(net.tanks), net.demands;
    Stage2KeysMembers(tids, ds);
    forall v: Var | v.T2C? && v.src in tids && (exists d :: d in ds && d.customerId == v.dst)
      ensures v in Stage2Variables(net)
    {
      var d :| d in ds && d.customerId == v.dst;
      assert v == T2C(v.src, d.customerId);
    }
  }

  // ---------------------------------------------------------------------
  // The one failure modelled: the stage-2 variable lookup.

  /** A connection from a tank id to a customer id whose customer owns no
      demand record: its stage-2 variable was never created. */
  predicate Orphan(net: Network, c: Connection)
  {
    && c.fromId in TankIds(net.tanks)
    && c.toId in CustomerIds(net.customers)
    && forall d :: d in net.demands ==> d.customerId != c.toId
  }

  /** A network key is missing in the stage-2 pass exactly when it is the key
      of an orphan connection. */
  lemma MissingIffOrphan(net: Network)
    ensures forall k ::
      (k in CapacityOrder(net.connections) &&
       Stage2Missing(k, TankIds(net.tanks), CustomerIds(net.customers), Stage2Variables(net)))
      <==> exists c :: c in net.connections && Orphan(net, c) && KeyOf(c) == k
  {
    CapacityOrderKeys(net.connections);
    CapacityTableKeys(net.connections);
    Stage2VariablesExactly(net);
  }

  /** Building fails exactly when some connection is an orphan, and then with
      the lookup of the variable of an orphan connection's pair. */
  lemma {:induction false} ProblemFailsIff(net: Network)
    ensures Problem(net).Err? <==> exists c :: c in net.connections && Orphan(net, c)
    ensures Problem(net).Err? ==>
      exists c :: c in net.connections && Orphan(net, c) && Problem(net).error == KeyError(T2C(c.fromId, c.toId))
  {
    var order, tids, cids := CapacityOrder(net.connections), TankIds(net.tanks), CustomerIds(net.customers);
    CapacityOrderKeys(net.connections);
    var declared := Stage2Variables(net);
    Stage2EdgeConstraintsOutcome(order, CapacityTable(net.connections), tids, cids, declared);
    MissingIffOrphan(net);
    if Problem(net).Err? {
      var i :| 0 <= i < |order| && Stage2Missing(order[i], tids, cids, declared) &&
        Problem(net).error == KeyError(T2C(order[i].0, order[i].1));
      assert order[i] in order;
      var c :| c in net.connections && Orphan(net, c) && KeyOf(c) == order[i];
    }
    if exists c :: c in net.connections && Orphan(net, c) {
      var c :| c in net.connections && Orphan(net, c);
      assert KeyOf(c) in order && Stage2Missing(KeyOf(c), tids, cids, declared);
    }
  }

  // ---------------------------------------------------------------------
  // Every variable a constraint or the objective uses was declared.

  /** Every variable of a list lies in a set. */
  predicate AllIn(vs: seq<Var>, declared: set<Var>)
  {
    forall v :: v in vs ==> v in declared
  }

  lemma LpSumDeclared(vs: seq<Var>, declared: set<Var>)
    requires AllIn(vs, declared)
    ensures ExprVars(LpSum(vs)) <= declared
  {
    LpSumVars(vs);
  }

  /** Every constraint of a list mentions only declared variables. */
  predicate UsesDeclared(cs: seq<Constraint>, declared: set<Var>)
  {
    forall c :: c in cs ==> ConstraintVars(c) <= declared
  }

  lemma UsesDeclaredConcat(a: seq<Constraint>, b: seq<Constraint>, declared: set<Var>)
    requires UsesDeclared(a, declared) && UsesDeclared(b, declared)
    ensures UsesDeclared(a + b, declared)
  {
  }

  lemma DemandRowsDeclared(net: Network)
    ensures UsesDeclared(DemandConstraints(net.demands, TankIds(net.tanks)), Variables(net))
  {
    var ds, tids := net.demands, TankIds(net.tanks);
    var rows := DemandConstraints(ds, tids);
    DemandConstraintsLayout(ds, tids);
    Stage2VariablesExactly(net);
    forall c | c in rows ensures ConstraintVars(c) <= Variables(net) {
      var i :| 0 <= i < |rows| && rows[i] == c;
      var d := ds[i];
      assert d in ds;
      DeliveryVarsMembers(tids, d.customerId);
      LpSumDeclared(DeliveryVars(tids, d.customerId), Variables(net));
    }
  }

  /** Tank constraints over tanks whose inflow and outflow lists are declared. */
  lemma {:induction false} TankRowsUse(ts: seq<Tank>, rids: seq<Id>, ds: seq<Demand>, caps: map<Id, real>,
                                       declared: set<Var>)
    requires forall t :: t in ts ==> t.id in caps
    requires forall t :: t in ts ==> AllIn(InflowVars(rids, t.id), declared) && AllIn(OutflowVars(t.id, ds), declared)
    ensures UsesDeclared(TankConstraints(ts, rids, ds, caps), declared)
  {
    if ts != [] {
      var prefix, t := ts[..|ts| - 1], ts[|ts| - 1];
      assert forall u :: u in prefix ==> u in ts;
      TankRowsUse(prefix, rids, ds, caps, declared);
      LpSumDeclared(InflowVars(rids, t.id), declared);
      LpSumDeclared(OutflowVars(t.id, ds), declared);
      UsesDeclaredConcat(TankConstraints(prefix, rids, ds, caps),
                         [FlowBalance(t, rids, ds), TankThroughput(t, ds, caps)], declared);
    }
  }

  lemma TankRowsDeclared(net: Network)
    ensures UsesDeclared(TankConstraints(net.tanks, RefineryIds(net.refineries), net.demands,
                                         TankCapacities(net.tanks)), Variables(net))
  {
    var ts, rids, ds := net.tanks, RefineryIds(net.refineries), net.demands;
    Stage1VariablesExactly(net);
    Stage2VariablesExactly(net);
    forall t | t in ts
      ensures AllIn(InflowVars(rids, t.id), Variables(net)) && AllIn(OutflowVars(t.id, ds), Variables(net))
    {
      var i :| 0 <= i < |ts| && ts[i] == t;
      assert TankIds(ts)[i] == t.id;
      InflowVarsMembers(rids, t.id);
      OutflowVarsMembers(t.id, ds);
    }
    TankRowsUse(ts, rids, ds, TankCapacities(ts), Variables(net));
  }

  /** Refinery constraints over refineries whose shipped lists are declared. */
  lemma {:induction false} RefineryRowsUse(rs: seq<Refinery>, tids: seq<Id>, caps: map<Id, real>, declared: set<Var>)
    requires forall r :: r in rs ==> r.id in caps
    requires forall r :: r in rs ==> AllIn(ShippedVars(r.id, tids), declared)
    ensures UsesDeclared(RefineryConstraints(rs, tids, caps), declared)
  {
    if rs != [] {
      var prefix, r := rs[..|rs| - 1], rs[|rs| - 1];
      assert forall u :: u in prefix ==> u in rs;
      RefineryRowsUse(prefix, tids, caps, declared);
      LpSumDeclared(ShippedVars(r.id, tids), declared);
      UsesDeclaredConcat(RefineryConstraints(prefix, tids, caps),
                         [MaxOutputBound(r, tids), RefineryCapacityBound(r, tids, caps)], declared);
    }
  }

  lemma RefineryRowsDeclared(net: Network)
    ensures UsesDeclared(RefineryConstraints(net.refineries, TankIds(net.tanks),
                                             RefineryCapacities(net.refineries)), Variables(net))
  {
    var rs, tids := net.refineries, TankIds(net.tanks);
    Stage1VariablesExactly(net);
    forall r | r in rs ensures AllIn(ShippedVars(r.id, tids), Variables(net)) {
      var i :| 0 <= i < |rs| && rs[i] == r;
      assert RefineryIds(rs)[i] == r.id;
      ShippedVarsMembers(r.id, tids);
    }
    RefineryRowsUse(rs, tids, RefineryCapacities(rs), Variables(net));
  }

  lemma Stage1RowsDeclared(net: Network)
    ensures UsesDeclared(Stage1Rows(net), Variables(net))
  {
    var order, caps := CapacityOrder(net.connections), CapacityTable(net.connections);
    var rids, tids := RefineryIds(net.refineries), TankIds(net.tanks);
    CapacityOrderKeys(net.connections);
    Stage1EdgeConstraintsMembers(order, caps, rids, tids);
    Stage1VariablesExactly(net);
    forall c | c in Stage1Rows(net) ensures ConstraintVars(c) <= Variables(net) {
      var k :| k in order && k.0 in rids && k.1 in tids && c == Stage1EdgeBound(k, caps[k]);
      LpSumDeclared([R2T(k.0, k.1)], Variables(net));
    }
  }

  lemma Stage2RowsDeclared(net: Network)
    requires EdgeResult(net).Ok?
    ensures UsesDeclared(EdgeResult(net).value, Variables(net))
  {
    var order, caps := CapacityOrder(net.connections), CapacityTable(net.connections);
    var tids, cids := TankIds(net.tanks), CustomerIds(net.customers);
    CapacityOrderKeys(net.connections);
    Stage2EdgeConstraintsOutcome(order, caps, tids, cids, Stage2Variables(net));
    forall c | c in EdgeResult(net).value ensures ConstraintVars(c) <= Variables(net) {
      var k :| k in order && k.0 in tids && k.1 in cids && c == Stage2EdgeBound(k, caps[k]);
      assert !Stage2Missing(k, tids, cids, Stage2Variables(net));
      LpSumDeclared([T2C(k.0, k.1)], Variables(net));
    }
  }

  /** When building succeeds, every constraint and the objective use only
      declared variables: of the variable lookups, only the stage-2 one
      can fail. */
  lemma {:induction false} UsedVariablesDeclared(net: Network)
    requires Problem(net).Ok?
    ensures UsesDeclared(Problem(net).value.constraints, Problem(net).value.variables)
    ensures ExprVars(Problem(net).value.objective) <= Problem(net).value.variables
  {
    var vars := Variables(net);
    var rids, tids := RefineryIds(net.refineries), TankIds(net.tanks);
    DemandRowsDeclared(net);
    TankRowsDeclared(net);
    RefineryRowsDeclared(net);
    Stage1RowsDeclared(net);
    Stage2RowsDeclared(net);
    var d := DemandConstraints(net.demands, tids);
    var t := TankConstraints(net.tanks, rids, net.demands, TankCapacities(net.tanks));
    var r := RefineryConstraints(net.refineries, tids, RefineryCapacities(net.refineries));
    UsesDeclaredConcat(d, t, vars);
    UsesDeclaredConcat(d + t, r, vars);
    UsesDeclaredConcat(d + t + r, Stage1Rows(net), vars);
    UsesDeclaredConcat(d + t + r + Stage1Rows(net), EdgeResult(net).value, vars);
    var cost := CostTable(net.connections);
    CostTermsPriced(Stage1Keys(rids, tids), cost);
    CostTermsPriced(Stage2Keys(tids, net.demands), cost);
  }

  // ---------------------------------------------------------------------
  // The objective.

  /** The per-unit cost the objective charges on a variable: its pair's
      transport cost, or nothing when the pair has no cost entry. */
  function UnitCost(cost: map<Pair, real>, v: Var): real
  {
    if Key(v) in cost then cost[Key(v)] else 0.0
  }

  /** Reference transport cost of a list of variables under x, every
      occurrence charged at its unit cost. */
  function TransportCost(vs: seq<Var>, cost: map<Pair, real>, x: Assignment): real
  {
    if vs == [] then 0.0 else UnitCost(cost, vs[0]) * (x(vs[0]) as real) + TransportCost(vs[1..], cost, x)
  }

  lemma {:induction false} CostTermsValue(vs: seq<Var>, cost: map<Pair, real>, x: Assignment)
    ensures TermsValue(CostTerms(vs, cost), x) == TransportCost(vs, cost, x)
  {
    if vs != [] {
      var head := if Key(vs[0]) in cost then [Term(cost[Key(vs[0])], vs[0])] else [];
      TermsValueAppend(head, CostTerms(vs[1..], cost), x);
      CostTermsValue(vs[1..], cost, x);
    }
  }

  /** The objective is the transport cost of all stage-1 keys plus all
      stage-2 keys, a pair without a cost entry costing nothing. */
  lemma {:induction false} ObjectiveIsTransportCost(net: Network, x: Assignment)
    requires Problem(net).Ok?
    ensures var rids, tids, cost := RefineryIds(net.refineries), TankIds(net.tanks), CostTable(net.connections);
      ObjectiveValue(Problem(net).value, x)
      == TransportCost(Stage1Keys(rids, tids), cost, x) + TransportCost(Stage2Keys(tids, net.demands), cost, x)
  {
    var rids, tids, cost := RefineryIds(net.refineries), TankIds(net.tanks), CostTable(net.connections);
    var s1, s2 := Stage1Keys(rids, tids), Stage2Keys(tids, net.demands);
    TermsValueAppend(CostTerms(s1, cost), CostTerms(s2, cost), x);
    CostTermsValue(s1, cost, x);
    CostTermsValue(s2, cost, x);
  }

  /** Flow on pairs without a cost entry is free: two assignments that agree
      on every variable whose pair has a cost give the same objective. */
  lemma {:induction false} UncostedFlowIsFree(net: Network, x: Assignment, y: Assignment)
    requires Problem(net).Ok?
    requires forall v :: Key(v) in CostTable(net.connections) ==> x(v) == y(v)
    ensures ObjectiveValue(Problem(net).value, x) == ObjectiveValue(Problem(net).value, y)
  {
    var rids, tids, cost := RefineryIds(net.refineries), TankIds(net.tanks), CostTable(net.connections);
    var ts := CostTerms(Stage1Keys(rids, tids), cost) + CostTerms(Stage2Keys(tids, net.demands), cost);
    CostTermsPriced(Stage1Keys(rids, tids), cost);
    CostTermsPriced(Stage2Keys(tids, net.demands), cost);
    TermsValueAgree(ts, x, y);
  }

  // ---------------------------------------------------------------------
  // Multiplicities.

  /** The number of demand records naming customer c. */
  function DemandRows(ds: seq<Demand>, c: Id): nat
  {
    if ds == [] then 0 else (if ds[0].customerId == c then 1 else 0) + DemandRows(ds[1..], c)
  }

  lemma {:induction false} OutflowOccurrences(t: Id, ds: seq<Demand>, c: Id)
    ensures Occurrences(OutflowVars(t, ds), T2C(t, c)) == DemandRows(ds, c)
  {
    if ds != [] {
      OutflowOccurrences(t, ds[1..], c);
    }
  }

  /** A tank's outflow counts x[t, c] once per demand record of customer c:
      with k such records the variable has coefficient k. */
  lemma OutflowCountsDemandRows(t: Id, ds: seq<Demand>, c: Id, x: Assignment)
    requires forall u :: u != T2C(t, c) ==> x(u) == 0
    ensures Flow(OutflowVars(t, ds), x) == DemandRows(ds, c) * x(T2C(t, c))
  {
    FlowConcentrated(OutflowVars(t, ds), T2C(t, c), x);
    OutflowOccurrences(t, ds, c);
  }

  // ---------------------------------------------------------------------
  // Fields the builder never reads.

  /** Two refinery lists that differ at most in production cost and CO2. */
  predicate SameButProduction(rs: seq<Refinery>, rs': seq<Refinery>)
  {
    && |rs| == |rs'|
    && forall i :: 0 <= i < |rs| ==>
         rs[i].id == rs'[i].id && rs[i].capacity == rs'[i].capacity && rs[i].maxOutput == rs'[i].maxOutput
  }

  lemma {:induction false} RefineryConstraintsIgnoreProduction(rs: seq<Refinery>, rs': seq<Refinery>,
                                                               tids: seq<Id>, caps: map<Id, real>)
    requires SameButProduction(rs, rs')
    requires forall r :: r in rs ==> r.id in caps
    requires forall r :: r in rs' ==> r.id in caps
    ensures RefineryConstraints(rs, tids, caps) == RefineryConstraints(rs', tids, caps)
  {
    if rs != [] {
      var n := |rs|;
      assert SameButProduction(rs[..n - 1], rs'[..n - 1]);
      assert forall r :: r in rs[..n - 1] ==> r in rs;
      assert forall r :: r in rs'[..n - 1] ==> r in rs';
      RefineryConstraintsIgnoreProduction(rs[..n - 1], rs'[..n - 1], tids, caps);
    }
  }

  /** Production cost and production CO2 never reach the program: changing
      them changes nothing the builder emits. */
  lemma {:induction false} ProductionFieldsUnused(net: Network, net': Network)
    requires net'.connections == net.connections && net'.customers == net.customers
    requires net'.tanks == net.tanks && net'.demands == net.demands
    requires SameButProduction(net.refineries, net'.refineries)
    ensures Problem(net') == Problem(net)
  {
    var rs, rs' := net.refineries, net'.refineries;
    assert RefineryIds(rs) == RefineryIds(rs');
    assert RefineryCapacityEntries(rs) == RefineryCapacityEntries(rs');
    RefineryConstraintsIgnoreProduction(rs, rs', TankIds(net.tanks), RefineryCapacities(rs));
  }

  // ---------------------------------------------------------------------
  // Constraint names.

  lemma ThroughputRow(ts: seq<Tank>, rids: seq<Id>, ds: seq<Demand>, caps: map<Id, real>, a: nat)
    requires forall t :: t in ts ==> t.id in caps
    requires a < |ts|
    ensures |TankConstraints(ts, rids, ds, caps)| == 2 * |ts|
    ensures TankConstraints(ts, rids, ds, caps)[2 * a + 1].name == "Tank_Capacity_" + ts[a].id
  {
    TankConstraintsLayout(ts, rids, ds, caps);
  }

  lemma CapacityBoundRow(rs: seq<Refinery>, tids: seq<Id>, caps: map<Id, real>, b: nat)
    requires forall r :: r in rs ==> r.id in caps
    requires b < |rs|
    ensures |RefineryConstraints(rs, tids, caps)| == 2 * |rs|
    ensures RefineryConstraints(rs, tids, caps)[2 * b + 1].name == "Tank_Capacity_" + rs[b].id
  {
    RefineryConstraintsLayout(rs, tids, caps);
  }

  /** Where the p-th entry of the second part and the q-th entry of the
      third part sit in a list made of five parts. */
  lemma SecondAndThirdParts<T>(a: seq<T>, b: seq<T>, c: seq<T>, d: seq<T>, e: seq<T>, p: nat, q: nat)
    returns (i: nat, j: nat)
    requires p < |b| && q < |c|
    ensures i < j < |a + b + c + d + e|
    ensures (a + b + c + d + e)[i] == b[p] && (a + b + c + d + e)[j] == c[q]
  {
    i, j := |a| + p, |a| + |b| + q;
    assert (a + b + c + d + e)[i] == (a + b + c + d)[i] == (a + b + c)[i] == (a + b)[i];
    assert (a + b + c + d + e)[j] == (a + b + c + d)[j] == (a + b + c)[j];
  }

  /** A tank and a refinery with the same id give two constraints of the same
      name: the tank throughput bound and the refinery capacity bound are both
      named "Tank_Capacity_" followed by the id. */
  lemma {:induction false} SharedCapacityName(net: Network, t: Tank, r: Refinery) returns (i: nat, j: nat)
    requires Problem(net).Ok?
    requires t in net.tanks && r in net.refineries && t.id == r.id
    ensures var cs := Problem(net).value.constraints;
      i < j < |cs| && cs[i].name == cs[j].name == "Tank_Capacity_" + t.id
  {
    var rids, tids := RefineryIds(net.refineries), TankIds(net.tanks);
    var d := DemandConstraints(net.demands, tids);
    var tr := TankConstraints(net.tanks, rids, net.demands, TankCapacities(net.tanks));
    var rr := RefineryConstraints(net.refineries, tids, RefineryCapacities(net.refineries));
    var s1, s2 := Stage1Rows(net), EdgeResult(net).value;
    var cs := d + tr + rr + s1 + s2;
    ProblemConstraints(net);
    assert Problem(net).value.constraints == cs;
    var a :| 0 <= a < |net.tanks| && net.tanks[a] == t;
    var b :| 0 <= b < |net.refineries| && net.refineries[b] == r;
    ThroughputRow(net.tanks, rids, net.demands, TankCapacities(net.tanks), a);
    CapacityBoundRow(net.refineries, tids, RefineryCapacities(net.refineries), b);
    i, j := SecondAndThirdParts(d, tr, rr, s1, s2, 2 * a + 1, 2 * b + 1);
    assert cs[i].name == "Tank_Capacity_" + t.id;
    assert cs[j].name == "Tank_Capacity_" + r.id;
  }
}
