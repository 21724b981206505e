/** What the emitted linear program means. The central result is that an
    assignment satisfies every constraint the builder emits exactly when it
    meets the planner's rules stated record by record: every demand met,
    every tank balanced and within capacity, every refinery within its two
    bounds, and every refinery -> tank and tank -> customer pair of the
    max-capacity dictionary within the capacity of the last connection
    record for that pair. */
module Feasibility {
  import opened Records
  import opened LinearProgram
  import opened EdgeTables
  import opened Formulation

  // ---------------------------------------------------------------------
  // The rules, record by record.

  /** The tanks together deliver at least the quantity of demand record d. */
  predicate DemandMet(tids: seq<Id>, d: Demand, x: Assignment)
  {
    Flow(DeliveryVars(tids, d.customerId), x) as real >= d.quantity
  }

  /** What the refineries put into tank t equals what it sends out, once per
      demand record. */
  predicate FlowConserved(rids: seq<Id>, ds: seq<Demand>, t: Tank, x: Assignment)
  {
    Flow(InflowVars(rids, t.id), x) == Flow(OutflowVars(t.id, ds), x)
  }

  predicate WithinTankCapacity(ds: seq<Demand>, caps: map<Id, real>, t: Tank, x: Assignment)
    requires t.id in caps
  {
    Flow(OutflowVars(t.id, ds), x) as real <= caps[t.id]
  }

  predicate WithinMaxOutput(tids: seq<Id>, r: Refinery, x: Assignment)
  {
    Flow(ShippedVars(r.id, tids), x) as real <= r.maxOutput
  }

  predicate WithinRefineryCapacity(tids: seq<Id>, caps: map<Id, real>, r: Refinery, x: Assignment)
    requires r.id in caps
  {
    Flow(ShippedVars(r.id, tids), x) as real <= caps[r.id]
  }

  /** Every refinery id -> tank id pair of the max-capacity dictionary is
      within the capacity of the last connection record for that pair. */
  predicate Stage1EdgesRespected(net: Network, x: Assignment)
  {
    var caps, rids, tids := CapacityTable(net.connections), RefineryIds(net.refineries), TankIds(net.tanks);
    forall k :: k in caps && k.0 in rids && k.1 in tids ==> x(R2T(k.0, k.1)) as real <= caps[k]
  }

  /** Every tank id -> customer id pair of the max-capacity dictionary is
      within the capacity of the last connection record for that pair. */
  predicate Stage2EdgesRespected(net: Network, x: Assignment)
  {
    var caps, tids, cids := CapacityTable(net.connections), TankIds(net.tanks), CustomerIds(net.customers);
    forall k :: k in caps && k.0 in tids && k.1 in cids ==> x(T2C(k.0, k.1)) as real <= caps[k]
  }

  predicate DemandsMet(net: Network, x: Assignment)
  {
    forall d :: d in net.demands ==> DemandMet(TankIds(net.tanks), d, x)
  }

  predicate TanksRespected(net: Network, x: Assignment)
  {
    var rids, ds, caps := RefineryIds(net.refineries), net.demands, TankCapacities(net.tanks);
    forall t :: t in net.tanks ==> FlowConserved(rids, ds, t, x) && WithinTankCapacity(ds, caps, t, x)
  }

  predicate RefineriesRespected(net: Network, x: Assignment)
  {
    var tids, caps := TankIds(net.tanks), RefineryCapacities(net.refineries);
    forall r :: r in net.refineries ==> WithinMaxOutput(tids, r, x) && WithinRefineryCapacity(tids, caps, r, x)
  }

  /** All the planner's rules at once. */
  predicate MeetsRules(net: Network, x: Assignment)
  {
    && DemandsMet(net, x)
    && TanksRespected(net, x)
    && RefineriesRespected(net, x)
    && Stage1EdgesRespected(net, x)
    && Stage2EdgesRespected(net, x)
  }

  /** Every constraint of a list holds. */
  predicate AllHold(cs: seq<Constraint>, x: Assignment)
  {
    forall c :: c in cs ==> Holds(c, x)
  }

  // ---------------------------------------------------------------------
  // One constraint at a time.

  lemma DemandRowHolds(d: Demand, tids: seq<Id>, x: Assignment)
    ensures Holds(DemandFulfilment(d, tids), x) <==> DemandMet(tids, d, x)
  {
    LpSumValue(DeliveryVars(tids, d.customerId), x);
  }

  lemma FlowBalanceHolds(t: Tank, rids: seq<Id>, ds: seq<Demand>, x: Assignment)
    ensures Holds(FlowBalance(t, rids, ds), x) <==> FlowConserved(rids, ds, t, x)
  {
    LpSumValue(InflowVars(rids, t.id), x);
    LpSumValue(OutflowVars(t.id, ds), x);
  }

  lemma TankThroughputHolds(t: Tank, ds: seq<Demand>, caps: map<Id, real>, x: Assignment)
    requires t.id in caps
    ensures Holds(TankThroughput(t, ds, caps), x) <==> WithinTankCapacity(ds, caps, t, x)
  {
    LpSumValue(OutflowVars(t.id, ds), x);
  }

  lemma MaxOutputHolds(r: Refinery, tids: seq<Id>, x: Assignment)
    ensures Holds(MaxOutputBound(r, tids), x) <==> WithinMaxOutput(tids, r, x)
  {
    LpSumValue(ShippedVars(r.id, tids), x);
  }

  lemma RefineryCapacityHolds(r: Refinery, tids: seq<Id>, caps: map<Id, real>, x: Assignment)
    requires r.id in caps
    ensures Holds(RefineryCapacityBound(r, tids, caps), x) <==> WithinRefineryCapacity(tids, caps, r, x)
  {
    LpSumValue(ShippedVars(r.id, tids), x);
  }

  lemma Stage1BoundHolds(k: Pair, cap: real, x: Assignment)
    ensures Holds(Stage1EdgeBound(k, cap), x) <==> x(R2T(k.0, k.1)) as real <= cap
  {
    LpSumValue([R2T(k.0, k.1)], x);
    assert Flow([R2T(k.0, k.1)], x) == x(R2T(k.0, k.1)) + Flow([], x);
  }

  lemma Stage2BoundHolds(k: Pair, cap: real, x: Assignment)
    ensures Holds(Stage2EdgeBound(k, cap), x) <==> x(T2C(k.0, k.1)) as real <= cap
  {
    LpSumValue([T2C(k.0, k.1)], x);
    assert Flow([T2C(k.0, k.1)], x) == x(T2C(k.0, k.1)) + Flow([], x);
  }

  // ---------------------------------------------------------------------
  // One constraint family at a time.

  lemma AllHoldConcat(a: seq<Constraint>, b: seq<Constraint>, x: Assignment)
    ensures AllHold(a + b, x) <==> AllHold(a, x) && AllHold(b, x)
  {
    assert forall c :: c in a + b <==> c in a || c in b;
  }

  /** The fulfilment constraints hold exactly when every demand is met. */
  lemma DemandRowsHold(ds: seq<Demand>, tids: seq<Id>, x: Assignment)
    ensures AllHold(DemandConstraints(ds, tids), x) <==> forall d :: d in ds ==> DemandMet(tids, d, x)
  {
    var rows := DemandConstraints(ds, tids);
    DemandConstraintsLayout(ds, tids);
    if AllHold(rows, x) {
      forall d | d in ds ensures DemandMet(tids, d, x) {
        var i :| 0 <= i < |ds| && ds[i] == d;
        assert rows[i] in rows;
        DemandRowHolds(d, tids, x);
      }
    }
    if forall d :: d in ds ==> DemandMet(tids, d, x) {
      forall c | c in rows ensures Holds(c, x) {
        var i :| 0 <= i < |rows| && rows[i] == c;
        assert ds[i] in ds;
        DemandRowHolds(ds[i], tids, x);
      }
    }
  }

  /** The tank constraints hold exactly when every tank is balanced and
      within its capacity. */
  lemma {:induction false} TankRowsHold(ts: seq<Tank>, rids: seq<Id>, ds: seq<Demand>, caps: map<Id, real>, x: Assignment)
    requires forall t :: t in ts ==> t.id in caps
    ensures AllHold(TankConstraints(ts, rids, ds, caps), x) <==>
      forall t :: t in ts ==> FlowConserved(rids, ds, t, x) && WithinTankCapacity(ds, caps, t, x)
  {
    if ts != [] {
      var prefix, t := ts[..|ts| - 1], ts[|ts| - 1];
      assert ts == prefix + [t];
      assert forall u :: u in ts <==> u in prefix || u == t;
      TankRowsHold(prefix, rids, ds, caps, x);
      AllHoldConcat(TankConstraints(prefix, rids, ds, caps),
                    [FlowBalance(t, rids, ds), TankThroughput(t, ds, caps)], x);
      FlowBalanceHolds(t, rids, ds, x);
      TankThroughputHolds(t, ds, caps, x);
    }
  }

  /** The max-output and capacity constraints hold exactly when every refinery
      respects both bounds. */
  lemma {:induction false} RefineryRowsHold(rs: seq<Refinery>, tids: seq<Id>, caps: map<Id, real>, x: Assignment)
    requires forall r :: r in rs ==> r.id in caps
    ensures AllHold(RefineryConstraints(rs, tids, caps), x) <==>
      forall r :: r in rs ==> WithinMaxOutput(tids, r, x) && WithinRefineryCapacity(tids, caps, r, x)
  {
    if rs != [] {
      var prefix, r := rs[..|rs| - 1], rs[|rs| - 1];
      assert rs == prefix + [r];
      assert forall u :: u in rs <==> u in prefix || u == r;
      RefineryRowsHold(prefix, tids, caps, x);
      AllHoldConcat(RefineryConstraints(prefix, tids, caps),
                    [MaxOutputBound(r, tids), RefineryCapacityBound(r, tids, caps)], x);
      MaxOutputHolds(r, tids, x);
      RefineryCapacityHolds(r, tids, caps, x);
    }
  }

  /** The stage-1 edge bounds hold exactly when every refinery -> tank key of
      the capacity dictionary bounds its flow. */
  lemma Stage1RowsHold(net: Network, x: Assignment)
    ensures AllHold(Stage1Rows(net), x) <==> Stage1EdgesRespected(net, x)
  {
    var order, caps, rids, tids := CapacityOrder(net.connections), CapacityTable(net.connections),
                                   RefineryIds(net.refineries), TankIds(net.tanks);
    CapacityOrderKeys(net.connections);
    var rows := Stage1EdgeConstraints(order, caps, rids, tids);
    Stage1EdgeConstraintsMembers(order, caps, rids, tids);
    if AllHold(rows, x) {
      forall k | k in caps && k.0 in rids && k.1 in tids ensures x(R2T(k.0, k.1)) as real <= caps[k] {
        assert Stage1EdgeBound(k, caps[k]) in rows;
        Stage1BoundHolds(k, caps[k], x);
      }
    }
    if Stage1EdgesRespected(net, x) {
      forall c | c in rows ensures Holds(c, x) {
        var k :| k in order && k.0 in rids && k.1 in tids && c == Stage1EdgeBound(k, caps[k]);
        Stage1BoundHolds(k, caps[k], x);
      }
    }
  }

  /** When the stage-2 pass succeeds, its bounds hold exactly when every
      tank -> customer key of the capacity dictionary bounds its flow. */
  lemma Stage2RowsHold(net: Network, x: Assignment)
    requires EdgeResult(net).Ok?
    ensures AllHold(EdgeResult(net).value, x) <==> Stage2EdgesRespected(net, x)
  {
    var order, caps, tids, cids := CapacityOrder(net.connections), CapacityTable(net.connections),
                                   TankIds(net.tanks), CustomerIds(net.customers);
    CapacityOrderKeys(net.connections);
    var rows := EdgeResult(net).value;
    Stage2EdgeConstraintsOutcome(order, caps, tids, cids, Stage2Variables(net));
    if AllHold(rows, x) {
      forall k | k in caps && k.0 in tids && k.1 in cids ensures x(T2C(k.0, k.1)) as real <= caps[k] {
        assert Stage2EdgeBound(k, caps[k]) in rows;
        Stage2BoundHolds(k, caps[k], x);
      }
    }
    if Stage2EdgesRespected(net, x) {
      forall c | c in rows ensures Holds(c, x) {
        var k :| k in order && k.0 in tids && k.1 in cids && c == Stage2EdgeBound(k, caps[k]);
        Stage2BoundHolds(k, caps[k], x);
      }
    }
  }

  // ---------------------------------------------------------------------
  // The whole program.

  /** An assignment satisfies the emitted program exactly when it meets the
      planner's rules. */
  lemma {:induction false} FeasibleIffMeetsRules(net: Network, x: Assignment)
    requires Problem(net).Ok?
    ensures Feasible(Problem(net).value, x) <==> MeetsRules(net, x)
  {
    var rids, tids := RefineryIds(net.refineries), TankIds(net.tanks);
    CapacityOrderKeys(net.connections);
    var d := DemandConstraints(net.demands, tids);
    var t := TankConstraints(net.tanks, rids, net.demands, TankCapacities(net.tanks));
    var r := RefineryConstraints(net.refineries, tids, RefineryCapacities(net.refineries));
    var s1 := Stage1Rows(net);
    var s2 := EdgeResult(net).value;
    ProblemConstraints(net);
    AllHoldConcat(d + t + r + s1, s2, x);
    AllHoldConcat(d + t + r, s1, x);
    AllHoldConcat(d + t, r, x);
    AllHoldConcat(d, t, x);
    DemandRowsHold(net.demands, tids, x);
    TankRowsHold(net.tanks, rids, net.demands, TankCapacities(net.tanks), x);
    RefineryRowsHold(net.refineries, tids, RefineryCapacities(net.refineries), x);
    Stage1RowsHold(net, x);
    Stage2RowsHold(net, x);
  }
}
