/** What the problem builder emits, as functions of the input records: the
    two-stage variable key space, each family of named constraints, the
    objective, and the whole program (or the lookup failure that stops it). */
module Formulation {
  import opened Records
  import opened LinearProgram
  import opened EdgeTables

  /** A variable lookup in one of the two variable dictionaries failed. */
  datatype BuildError = KeyError(missing: Var)

  datatype Result<T> = Ok(value: T) | Err(error: BuildError)

  datatype Option<T> = None | Some(value: T)

  // ---------------------------------------------------------------------
  // The lists inside the comprehensions: one variable per loop iteration.

  /** [x[rid, t] for t in tanks]: what one refinery ships out. */
  function ShippedVars(rid: Id, tids: seq<Id>): seq<Var>
  {
    if tids == [] then [] else [R2T(rid, tids[0])] + ShippedVars(rid, tids[1..])
  }

  /** [x[r, tid] for r in refineries]: what one tank receives. */
  function InflowVars(rids: seq<Id>, tid: Id): seq<Var>
  {
    if rids == [] then [] else [R2T(rids[0], tid)] + InflowVars(rids[1..], tid)
  }

  /** [x[t, cid] for t in tanks]: what one customer receives. */
  function DeliveryVars(tids: seq<Id>, cid: Id): seq<Var>
  {
    if tids == [] then [] else [T2C(tids[0], cid)] + DeliveryVars(tids[1..], cid)
  }

  /** [x[tid, d.customer_id] for d in demands]: what one tank sends out, one
      entry per demand record, so a customer with k demands appears k times. */
  function OutflowVars(tid: Id, ds: seq<Demand>): seq<Var>
  {
    if ds == [] then [] else [T2C(tid, ds[0].customerId)] + OutflowVars(tid, ds[1..])
  }

  /** The stage-1 key list: every refinery x tank pair, refinery-major. */
  function Stage1Keys(rids: seq<Id>, tids: seq<Id>): seq<Var>
  {
    if rids == [] then [] else ShippedVars(rids[0], tids) + Stage1Keys(rids[1..], tids)
  }

  /** The stage-2 key list: every tank x demand pair, as (tank, customer). */
  function Stage2Keys(tids: seq<Id>, ds: seq<Demand>): seq<Var>
  {
    if tids == [] then [] else OutflowVars(tids[0], ds) + Stage2Keys(tids[1..], ds)
  }

  lemma {:induction false} ShippedVarsMembers(rid: Id, tids: seq<Id>)
    ensures forall v :: v in ShippedVars(rid, tids) <==> exists t :: t in tids && v == R2T(rid, t)
  {
    if tids != [] {
      ShippedVarsMembers(rid, tids[1..]);
      assert forall t :: t in tids <==> t == tids[0] || t in tids[1..];
    }
  }

  lemma {:induction false} InflowVarsMembers(rids: seq<Id>, tid: Id)
    ensures forall v :: v in InflowVars(rids, tid) <==> exists r :: r in rids && v == R2T(r, tid)
  {
    if rids != [] {
      InflowVarsMembers(rids[1..], tid);
      assert forall r :: r in rids <==> r == rids[0] || r in rids[1..];
    }
  }

  lemma {:induction false} DeliveryVarsMembers(tids: seq<Id>, cid: Id)
    ensures forall v :: v in DeliveryVars(tids, cid) <==> exists t :: t in tids && v == T2C(t, cid)
  {
    if tids != [] {
      DeliveryVarsMembers(tids[1..], cid);
      assert forall t :: t in tids <==> t == tids[0] || t in tids[1..];
    }
  }

  lemma {:induction false} OutflowVarsMembers(tid: Id, ds: seq<Demand>)
    ensures forall v :: v in OutflowVars(tid, ds) <==> exists d :: d in ds && v == T2C(tid, d.customerId)
  {
    if ds != [] {
      OutflowVarsMembers(tid, ds[1..]);
      assert forall d :: d in ds <==> d == ds[0] || d in ds[1..];
    }
  }

  /** The stage-1 keys are exactly the refinery x tank pairs. */
  lemma {:induction false} Stage1KeysMembers(rids: seq<Id>, tids: seq<Id>)
    ensures forall v :: v in Stage1Keys(rids, tids) <==> exists r, t :: r in rids && t in tids && v == R2T(r, t)
  {
    if rids != [] {
      Stage1KeysMembers(rids[1..], tids);
      ShippedVarsMembers(rids[0], tids);
      assert rids[0] in rids;
      assert forall r :: r in rids <==> r == rids[0] || r in rids[1..];
    }
  }

  /** The stage-2 keys are exactly the (tank, customer of some demand) pairs. */
  lemma {:induction false} Stage2KeysMembers(tids: seq<Id>, ds: seq<Demand>)
    ensures forall v :: v in Stage2Keys(tids, ds) <==>
      exists t, d :: t in tids && d in ds && v == T2C(t, d.customerId)
  {
    if tids != [] {
      Stage2KeysMembers(tids[1..], ds);
      OutflowVarsMembers(tids[0], ds);
      assert tids[0] in tids;
      assert forall t :: t in tids <==> t == tids[0] || t in tids[1..];
    }
  }

  /** The variable dictionaries' keys: repeated keys collapse into one. */
  function Stage1Variables(net: Network): set<Var>
  {
    set v | v in Stage1Keys(RefineryIds(net.refineries), TankIds(net.tanks))
  }

  function Stage2Variables(net: Network): set<Var>
  {
    set v | v in Stage2Keys(TankIds(net.tanks), net.demands)
  }

  function Variables(net: Network): set<Var>
  {
    Stage1Variables(net) + Stage2Variables(net)
  }

  // ---------------------------------------------------------------------
  // Demand fulfilment: one constraint per demand record.

  function DemandFulfilment(d: Demand, tids: seq<Id>): Constraint
  {
    Constraint("Demand_Fulfillment_" + d.customerId + "_" + d.id,
               LpSum(DeliveryVars(tids, d.customerId)), Ge, Constant(d.quantity))
  }

  function DemandConstraints(ds: seq<Demand>, tids: seq<Id>): seq<Constraint>
  {
    if ds == [] then []
    else DemandConstraints(ds[..|ds| - 1], tids) + [DemandFulfilment(ds[|ds| - 1], tids)]
  }

  /** Exactly one fulfilment constraint per demand record, in record order: a
      customer with k demand records gets k separate constraints. */
  lemma {:induction false} DemandConstraintsLayout(ds: seq<Demand>, tids: seq<Id>)
    ensures |DemandConstraints(ds, tids)| == |ds|
    ensures forall i :: 0 <= i < |ds| ==> DemandConstraints(ds, tids)[i] == DemandFulfilment(ds[i], tids)
  {
    if ds != [] {
      DemandConstraintsLayout(ds[..|ds| - 1], tids);
    }
  }

  // ---------------------------------------------------------------------
  // Per tank: flow balance, then throughput against the capacity dictionary.

  function FlowBalance(t: Tank, rids: seq<Id>, ds: seq<Demand>): Constraint
  {
    Constraint("Flow_Balance_" + t.id,
               LpSum(InflowVars(rids, t.id)), Eq, LpSum(OutflowVars(t.id, ds)))
  }

  function TankThroughput(t: Tank, ds: seq<Demand>, caps: map<Id, real>): Constraint
    requires t.id in caps
  {
    Constraint("Tank_Capacity_" + t.id,
               LpSum(OutflowVars(t.id, ds)), Le, Constant(caps[t.id]))
  }

  function TankConstraints(ts: seq<Tank>, rids: seq<Id>, ds: seq<Demand>, caps: map<Id, real>)
    : seq<Constraint>
    requires forall t :: t in ts ==> t.id in caps
  {
    if ts == [] then []
    else
      var prefix, t := ts[..|ts| - 1], ts[|ts| - 1];
      assert forall u :: u in prefix ==> u in ts;
      TankConstraints(prefix, rids, ds, caps)
        + [FlowBalance(t, rids, ds), TankThroughput(t, ds, caps)]
  }

  /** Two constraints per tank record, flow balance then throughput. */
  lemma {:induction false} TankConstraintsLayout(ts: seq<Tank>, rids: seq<Id>, ds: seq<Demand>, caps: map<Id, real>)
    requires forall t :: t in ts ==> t.id in caps
    ensures |TankConstraints(ts, rids, ds, caps)| == 2 * |ts|
    ensures forall i :: 0 <= i < |ts| ==>
      && TankConstraints(ts, rids, ds, caps)[2 * i] == FlowBalance(ts[i], rids, ds)
      && TankConstraints(ts, rids, ds, caps)[2 * i + 1] == TankThroughput(ts[i], ds, caps)
  {
    if ts != [] {
      var n := |ts| - 1;
      var prefix, t := ts[..n], ts[n];
      assert forall u :: u in prefix ==> u in ts;
      TankConstraintsLayout(prefix, rids, ds, caps);
      var front, rows := TankConstraints(prefix, rids, ds, caps), TankConstraints(ts, rids, ds, caps);
      assert rows == front + [FlowBalance(t, rids, ds), TankThroughput(t, ds, caps)];
      forall i | 0 <= i < |ts|
        ensures rows[2 * i] == FlowBalance(ts[i], rids, ds)
        ensures rows[2 * i + 1] == TankThroughput(ts[i], ds, caps)
      {
        if i < n {
          assert prefix[i] == ts[i];
          assert rows[2 * i] == front[2 * i] && rows[2 * i + 1] == front[2 * i + 1];
        } else {
          assert 2 * i == |front|;
        }
      }
    }
  }

  /** Extending the tank list by its next record appends that tank's two constraints. */
  lemma TankConstraintsStep(ts: seq<Tank>, i: nat, rids: seq<Id>, ds: seq<Demand>, caps: map<Id, real>)
    requires i < |ts|
    requires forall t :: t in ts ==> t.id in caps
    ensures forall t :: t in ts[..i + 1] ==> t.id in caps
    ensures TankConstraints(ts[..i + 1], rids, ds, caps)
         == TankConstraints(ts[..i], rids, ds, caps) + [FlowBalance(ts[i], rids, ds), TankThroughput(ts[i], ds, caps)]
  {
    assert forall t :: t in ts[..i + 1] ==> t in ts;
    assert ts[..i + 1][..i] == ts[..i];
  }

  // ---------------------------------------------------------------------
  // Per refinery: max output, then capacity, both always emitted.

  function MaxOutputBound(r: Refinery, tids: seq<Id>): Constraint
  {
    Constraint("Max_Output_Refinires_" + r.id,
               LpSum(ShippedVars(r.id, tids)), Le, Constant(r.maxOutput))
  }

  function RefineryCapacityBound(r: Refinery, tids: seq<Id>, caps: map<Id, real>): Constraint
    requires r.id in caps
  {
    Constraint("Tank_Capacity_" + r.id,
               LpSum(ShippedVars(r.id, tids)), Le, Constant(caps[r.id]))
  }

  function RefineryConstraints(rs: seq<Refinery>, tids: seq<Id>, caps: map<Id, real>): seq<Constraint>
    requires forall r :: r in rs ==> r.id in caps
  {
    if rs == [] then []
    else
      var prefix, r := rs[..|rs| - 1], rs[|rs| - 1];
      assert forall u :: u in prefix ==> u in rs;
      RefineryConstraints(prefix, tids, caps)
        + [MaxOutputBound(r, tids), RefineryCapacityBound(r, tids, caps)]
  }

  /** Two constraints per refinery record, both emitted even when one of the
      two bounds makes the other redundant. */
  lemma {:induction false} RefineryConstraintsLayout(rs: seq<Refinery>, tids: seq<Id>, caps: map<Id, real>)
    requires forall r :: r in rs ==> r.id in caps
    ensures |RefineryConstraints(rs, tids, caps)| == 2 * |rs|
    ensures forall i :: 0 <= i < |rs| ==>
      && RefineryConstraints(rs, tids, caps)[2 * i] == MaxOutputBound(rs[i], tids)
      && RefineryConstraints(rs, tids, caps)[2 * i + 1] == RefineryCapacityBound(rs[i], tids, caps)
  {
    if rs != [] {
      var n := |rs| - 1;
      var prefix, r := rs[..n], rs[n];
      assert forall u :: u in prefix ==> u in rs;
      RefineryConstraintsLayout(prefix, tids, caps);
      var front, rows := RefineryConstraints(prefix, tids, caps), RefineryConstraints(rs, tids, caps);
      assert rows == front + [MaxOutputBound(r, tids), RefineryCapacityBound(r, tids, caps)];
      forall i | 0 <= i < |rs|
        ensures rows[2 * i] == MaxOutputBound(rs[i], tids)
        ensures rows[2 * i + 1] == RefineryCapacityBound(rs[i], tids, caps)
      {
        if i < n {
          assert prefix[i] == rs[i];
          assert rows[2 * i] == front[2 * i] && rows[2 * i + 1] == front[2 * i + 1];
        } else {
          assert 2 * i == |front|;
        }
      }
    }
  }

  /** Extending the refinery list by its next record appends that refinery's two constraints. */
  lemma RefineryConstraintsStep(rs: seq<Refinery>, i: nat, tids: seq<Id>, caps: map<Id, real>)
    requires i < |rs|
    requires forall r :: r in rs ==> r.id in caps
    ensures forall r :: r in rs[..i + 1] ==> r.id in caps
    ensures RefineryConstraints(rs[..i + 1], tids, caps)
         == RefineryConstraints(rs[..i], tids, caps) + [MaxOutputBound(rs[i], tids), RefineryCapacityBound(rs[i], tids, caps)]
  {
    assert forall r :: r in rs[..i + 1] ==> r in rs;
    assert rs[..i + 1][..i] == rs[..i];
  }

  // ---------------------------------------------------------------------
  // Per-edge capacity bounds, in the max-capacity dictionary's key order.

  function Stage1EdgeBound(k: Pair, cap: real): Constraint
  {
    Constraint("Capacity_Refinery_to_Tank_" + k.0 + "_" + k.1,
               LpSum([R2T(k.0, k.1)]), Le, Constant(cap))
  }

  function Stage2EdgeBound(k: Pair, cap: real): Constraint
  {
    Constraint("Capacity_Tank_to_Customer_" + k.0 + "_" + k.1,
               LpSum([T2C(k.0, k.1)]), Le, Constant(cap))
  }

  function Stage1EdgeConstraints(ks: seq<Pair>, caps: map<Pair, real>, rids: seq<Id>, tids: seq<Id>)
    : seq<Constraint>
    requires forall k :: k in ks ==> k in caps
  {
    if ks == [] then []
    else
      var prefix, k := ks[..|ks| - 1], ks[|ks| - 1];
      assert ks == prefix + [k];
      var rest := Stage1EdgeConstraints(prefix, caps, rids, tids);
      if k.0 in rids && k.1 in tids then rest + [Stage1EdgeBound(k, caps[k])] else rest
  }

  /** A stage-1 bound is emitted exactly for the keys that go from a refinery
      id to a tank id; no other key yields one. */
  lemma {:induction false} Stage1EdgeConstraintsMembers(ks: seq<Pair>, caps: map<Pair, real>, rids: seq<Id>, tids: seq<Id>)
    requires forall k :: k in ks ==> k in caps
    ensures forall c :: c in Stage1EdgeConstraints(ks, caps, rids, tids) <==>
      exists k :: k in ks && k.0 in rids && k.1 in tids && c == Stage1EdgeBound(k, caps[k])
  {
    if ks != [] {
      var prefix, k := ks[..|ks| - 1], ks[|ks| - 1];
      assert ks == prefix + [k];
      Stage1EdgeConstraintsMembers(prefix, caps, rids, tids);
    }
  }

  /** A tank -> customer key whose variable is not in the stage-2 dictionary. */
  predicate Stage2Missing(k: Pair, tids: seq<Id>, cids: seq<Id>, declared: set<Var>)
  {
    k.0 in tids && k.1 in cids && T2C(k.0, k.1) !in declared
  }

  /** The stage-2 pass: a bound for every key from a tank id to a customer id,
      or the lookup error at the first such key without a stage-2 variable. */
  function Stage2EdgeConstraints(ks: seq<Pair>, caps: map<Pair, real>, tids: seq<Id>, cids: seq<Id>,
                                 declared: set<Var>): Result<seq<Constraint>>
    requires forall k :: k in ks ==> k in caps
  {
    if ks == [] then Ok([])
    else
      var prefix, k := ks[..|ks| - 1], ks[|ks| - 1];
      assert ks == prefix + [k];
      match Stage2EdgeConstraints(prefix, caps, tids, cids, declared)
      case Err(e) => Err(e)
      case Ok(rest) =>
        if k.0 in tids && k.1 in cids then
          if T2C(k.0, k.1) in declared then Ok(rest + [Stage2EdgeBound(k, caps[k])])
          else Err(KeyError(T2C(k.0, k.1)))
        else Ok(rest)
  }

  /** The stage-2 pass fails exactly when some tank -> customer key has no
      stage-2 variable, and then with the first such key; otherwise it emits
      a bound for exactly the tank -> customer keys. */
  lemma {:induction false} Stage2EdgeConstraintsOutcome(ks: seq<Pair>, caps: map<Pair, real>, tids: seq<Id>,
                                                        cids: seq<Id>, declared: set<Var>)
    requires forall k :: k in ks ==> k in caps
    ensures var r := Stage2EdgeConstraints(ks, caps, tids, cids, declared);
      && (r.Err? <==> exists k :: k in ks && Stage2Missing(k, tids, cids, declared))
      && (r.Err? ==>
            exists i :: 0 <= i < |ks| && Stage2Missing(ks[i], tids, cids, declared) &&
              (forall j :: 0 <= j < i ==> !Stage2Missing(ks[j], tids, cids, declared)) &&
              r.error == KeyError(T2C(ks[i].0, ks[i].1)))
      && (r.Ok? ==> forall c :: c in r.value <==>
            exists k :: k in ks && k.0 in tids && k.1 in cids && c == Stage2EdgeBound(k, caps[k]))
  {
    if ks != [] {
      var prefix, k := ks[..|ks| - 1], ks[|ks| - 1];
      assert ks == prefix + [k];
      assert forall j :: 0 <= j < |prefix| ==> prefix[j] == ks[j];
      Stage2EdgeConstraintsOutcome(prefix, caps, tids, cids, declared);
      if Stage2EdgeConstraints(prefix, caps, tids, cids, declared).Ok? && Stage2Missing(k, tids, cids, declared) {
        assert ks[|ks| - 1] == k;
      }
    }
  }

  // ---------------------------------------------------------------------
  // The objective: transport cost on the pairs that have a cost entry.

  /** [cost[k] * x[k] for k in keys if k in cost]. */
  function CostTerms(vs: seq<Var>, cost: map<Pair, real>): seq<Term>
  {
    if vs == [] then []
    else
      var head := if Key(vs[0]) in cost then [Term(cost[Key(vs[0])], vs[0])] else [];
      head + CostTerms(vs[1..], cost)
  }

  /** Every objective term is a key of the list whose pair has a cost entry,
      with that cost as its coefficient. */
  lemma {:induction false} CostTermsPriced(vs: seq<Var>, cost: map<Pair, real>)
    ensures forall t :: t in CostTerms(vs, cost) ==> t.v in vs && Key(t.v) in cost && t.coef == cost[Key(t.v)]
  {
    if vs != [] {
      CostTermsPriced(vs[1..], cost);
      assert forall v :: v in vs[1..] ==> v in vs;
    }
  }

  function Objective(rids: seq<Id>, tids: seq<Id>, ds: seq<Demand>, cost: map<Pair, real>): LinExpr
  {
    LinExpr(CostTerms(Stage1Keys(rids, tids), cost) + CostTerms(Stage2Keys(tids, ds), cost), 0.0)
  }

  // ---------------------------------------------------------------------
  // The whole program.

  function EdgeResult(net: Network): Result<seq<Constraint>>
  {
    CapacityOrderKeys(net.connections);
    Stage2EdgeConstraints(CapacityOrder(net.connections), CapacityTable(net.connections),
                          TankIds(net.tanks), CustomerIds(net.customers), Stage2Variables(net))
  }

  /** The first pass over the max-capacity dictionary of the network. */
  function Stage1Rows(net: Network): seq<Constraint>
  {
    CapacityOrderKeys(net.connections);
    Stage1EdgeConstraints(CapacityOrder(net.connections), CapacityTable(net.connections),
                          RefineryIds(net.refineries), TankIds(net.tanks))
  }

  /** The constraints emitted before the stage-2 edge bounds. */
  function LeadingConstraints(net: Network): seq<Constraint>
  {
    var rids, tids := RefineryIds(net.refineries), TankIds(net.tanks);
    DemandConstraints(net.demands, tids)
      + TankConstraints(net.tanks, rids, net.demands, TankCapacities(net.tanks))
      + RefineryConstraints(net.refineries, tids, RefineryCapacities(net.refineries))
      + Stage1Rows(net)
  }

  function Problem(net: Network): Result<Lp>
  {
    match EdgeResult(net)
    case Err(e) => Err(e)
    case Ok(edges2) =>
      Ok(Lp(Variables(net), LeadingConstraints(net) + edges2,
            Objective(RefineryIds(net.refineries), TankIds(net.tanks), net.demands,
                      CostTable(net.connections))))
  }

  /** The emitted constraint list, family by family, in emission order. */
  lemma ProblemConstraints(net: Network)
    requires Problem(net).Ok?
    ensures Problem(net).value.constraints
         == DemandConstraints(net.demands, TankIds(net.tanks))
          + TankConstraints(net.tanks, RefineryIds(net.refineries), net.demands, TankCapacities(net.tanks))
          + RefineryConstraints(net.refineries, TankIds(net.tanks), RefineryCapacities(net.refineries))
          + Stage1Rows(net)
          + EdgeResult(net).value
  {
  }
}
