/** Small networks worked through the model: a single refinery -> tank ->
    customer chain that is optimal at cost 78, the same chain with a tank too
    small for the demand, with a tank -> customer connection of capacity 0,
    with that connection removed, and with a truck to a customer that has no
    demand; and a two-tank network where a zero-capacity truck from one tank
    does not stop the other, unconnected tank from serving the customer. */
module Scenarios {
  import opened Records
  import opened LinearProgram
  import opened EdgeTables
  import opened Formulation
  import opened Feasibility
  import opened Outcomes

  /** One refinery R, one tank T of the given capacity, one customer C with
      one demand of 30, a pipeline R -> T of distance 10 and max capacity 100
      and, when truck is Some(m), a truck T -> C of distance 5 and max
      capacity m. */
  function Chain(tankCapacity: real, truck: Option<real>): Network
  {
    var pipeline := Connection("R", "T", 10.0, "PIPELINE", 100.0);
    Network(
      [pipeline] + (if truck.Some? then [Connection("T", "C", 5.0, "TRUCK", truck.value)] else []),
      [Customer("C")],
      [Tank("T", tankCapacity)],
      [Refinery("R", 100.0, 100.0, 1.0, 1.0)],
      [Demand("D", "C", 30.0)])
  }

  /** 30 units along R -> T and along T -> C, nothing elsewhere. */
  function ChainFlow(v: Var): nat
  {
    if v == R2T("R", "T") || v == T2C("T", "C") then 30 else 0
  }

  lemma ChainBuilds(tankCapacity: real, truck: Option<real>)
    ensures Problem(Chain(tankCapacity, truck)).Ok?
  {
    var net := Chain(tankCapacity, truck);
    ProblemFailsIff(net);
    forall c | c in net.connections ensures !Orphan(net, c) {
      if c.fromId in TankIds(net.tanks) {
        assert net.demands[0].customerId == c.toId;
      }
    }
  }

  lemma ChainTables(tankCapacity: real, truck: Option<real>)
    ensures var net := Chain(tankCapacity, truck);
      && TankCapacities(net.tanks)["T"] == tankCapacity
      && RefineryCapacities(net.refineries)["R"] == 100.0
  {
    var net := Chain(tankCapacity, truck);
    TankCapacityOfLastRecord(net.tanks, 0);
    RefineryCapacityOfLastRecord(net.refineries, 0);
  }

  lemma ChainIds(tankCapacity: real, truck: Option<real>)
    ensures var net := Chain(tankCapacity, truck);
      && RefineryIds(net.refineries) == ["R"]
      && TankIds(net.tanks) == ["T"]
      && CustomerIds(net.customers) == ["C"]
  {
  }

  /** The variable lists of the chain's rows: one variable each. */
  lemma ChainLists(tankCapacity: real, truck: Option<real>)
    ensures var net := Chain(tankCapacity, truck);
      && DeliveryVars(["T"], "C") == [T2C("T", "C")]
      && InflowVars(["R"], "T") == [R2T("R", "T")]
      && OutflowVars("T", net.demands) == [T2C("T", "C")]
      && ShippedVars("R", ["T"]) == [R2T("R", "T")]
  {
  }

  lemma UnitFlow(v: Var, x: Assignment)
    ensures Flow([v], x) == x(v)
  {
    assert [v][1..] == [];
  }

  lemma ChainDemandsMet(tankCapacity: real, truck: Option<real>)
    ensures DemandsMet(Chain(tankCapacity, truck), ChainFlow)
  {
    ChainIds(tankCapacity, truck);
    ChainLists(tankCapacity, truck);
    UnitFlow(T2C("T", "C"), ChainFlow);
  }

  lemma ChainTanks(tankCapacity: real, truck: Option<real>)
    requires tankCapacity >= 30.0
    ensures TanksRespected(Chain(tankCapacity, truck), ChainFlow)
  {
    var net := Chain(tankCapacity, truck);
    ChainIds(tankCapacity, truck);
    ChainTables(tankCapacity, truck);
    ChainLists(tankCapacity, truck);
    UnitFlow(R2T("R", "T"), ChainFlow);
    UnitFlow(T2C("T", "C"), ChainFlow);
    forall t | t in net.tanks
      ensures FlowConserved(["R"], net.demands, t, ChainFlow)
      ensures WithinTankCapacity(net.demands, TankCapacities(net.tanks), t, ChainFlow)
    {
      assert t == Tank("T", tankCapacity);
    }
  }

  lemma ChainRefineries(tankCapacity: real, truck: Option<real>)
    ensures RefineriesRespected(Chain(tankCapacity, truck), ChainFlow)
  {
    ChainIds(tankCapacity, truck);
    ChainTables(tankCapacity, truck);
    ChainLists(tankCapacity, truck);
    UnitFlow(R2T("R", "T"), ChainFlow);
  }

  lemma ChainCapacities(tankCapacity: real, truck: Option<real>)
    ensures CapacityTable(Chain(tankCapacity, truck).connections)
         == if truck.Some? then map[("R", "T") := 100.0, ("T", "C") := truck.value] else map[("R", "T") := 100.0]
  {
    var cs := Chain(tankCapacity, truck).connections;
    assert [] + [cs[0]] == [cs[0]];
    PassStep([], cs[0]);
    if truck.Some? {
      assert [cs[0]] + [cs[1]] == cs;
      PassStep([cs[0]], cs[1]);
    }
  }

  lemma ChainEdges(tankCapacity: real, truck: Option<real>)
    requires truck.Some? ==> truck.value >= 30.0
    ensures Stage1EdgesRespected(Chain(tankCapacity, truck), ChainFlow)
    ensures Stage2EdgesRespected(Chain(tankCapacity, truck), ChainFlow)
  {
    ChainIds(tankCapacity, truck);
    ChainCapacities(tankCapacity, truck);
  }

  lemma ChainFeasible(tankCapacity: real, truck: Option<real>)
    requires tankCapacity >= 30.0
    requires truck.Some? ==> truck.value >= 30.0
    ensures Problem(Chain(tankCapacity, truck)).Ok?
    ensures Feasible(Problem(Chain(tankCapacity, truck)).value, ChainFlow)
  {
    ChainBuilds(tankCapacity, truck);
    ChainDemandsMet(tankCapacity, truck);
    ChainTanks(tankCapacity, truck);
    ChainRefineries(tankCapacity, truck);
    ChainEdges(tankCapacity, truck);
    FeasibleIffMeetsRules(Chain(tankCapacity, truck), ChainFlow);
  }

  lemma ChainCostTable(tankCapacity: real, truckCapacity: real)
    ensures CostTable(Chain(tankCapacity, Some(truckCapacity)).connections)
         == map[("R", "T") := 0.5, ("T", "C") := 2.1]
  {
    var cs := Chain(tankCapacity, Some(truckCapacity)).connections;
    assert [] + [cs[0]] == [cs[0]] && [cs[0]] + [cs[1]] == cs;
    PassStep([], cs[0]);
    PassStep([cs[0]], cs[1]);
  }

  /** With the truck in place, the objective charges 10 x 0.05 per unit on
      R -> T and 5 x 0.42 per unit on T -> C. */
  lemma ChainObjective(tankCapacity: real, truckCapacity: real, x: Assignment)
    ensures Problem(Chain(tankCapacity, Some(truckCapacity))).Ok?
    ensures ObjectiveValue(Problem(Chain(tankCapacity, Some(truckCapacity))).value, x)
         == 0.5 * (x(R2T("R", "T")) as real) + 2.1 * (x(T2C("T", "C")) as real)
  {
    var net := Chain(tankCapacity, Some(truckCapacity));
    ChainBuilds(tankCapacity, Some(truckCapacity));
    ChainIds(tankCapacity, Some(truckCapacity));
    ChainCostTable(tankCapacity, truckCapacity);
    ObjectiveIsTransportCost(net, x);
    var cost := CostTable(net.connections);
    assert Stage1Keys(["R"], ["T"]) == [R2T("R", "T")];
    assert Stage2Keys(["T"], net.demands) == [T2C("T", "C")];
    assert TransportCost([R2T("R", "T")], cost, x) == 0.5 * (x(R2T("R", "T")) as real) + TransportCost([], cost, x);
    assert TransportCost([T2C("T", "C")], cost, x) == 2.1 * (x(T2C("T", "C")) as real) + TransportCost([], cost, x);
  }

  lemma ChainCost(tankCapacity: real, truckCapacity: real)
    ensures Problem(Chain(tankCapacity, Some(truckCapacity))).Ok?
    ensures ObjectiveValue(Problem(Chain(tankCapacity, Some(truckCapacity))).value, ChainFlow) == 78.0
  {
    ChainObjective(tankCapacity, truckCapacity, ChainFlow);
  }

  /** Every feasible assignment of the chain delivers at least 30 to C and,
      by the tank's balance, receives as much from R. */
  lemma ChainFeasibleFlows(tankCapacity: real, truck: Option<real>, x: Assignment)
    requires Problem(Chain(tankCapacity, truck)).Ok?
    requires Feasible(Problem(Chain(tankCapacity, truck)).value, x)
    ensures x(T2C("T", "C")) as real >= 30.0
    ensures x(R2T("R", "T")) == x(T2C("T", "C"))
    ensures x(T2C("T", "C")) as real <= tankCapacity
  {
    var net := Chain(tankCapacity, truck);
    ChainIds(tankCapacity, truck);
    ChainTables(tankCapacity, truck);
    ChainLists(tankCapacity, truck);
    FeasibleIffMeetsRules(net, x);
    UnitFlow(R2T("R", "T"), x);
    UnitFlow(T2C("T", "C"), x);
    var d, t := net.demands[0], net.tanks[0];
    assert DemandMet(["T"], d, x);
    assert FlowConserved(["R"], net.demands, t, x);
    assert WithinTankCapacity(net.demands, TankCapacities(net.tanks), t, x);
  }

  /** Scenario A: the chain with a tank of capacity 50 is feasible at the
      flow of 30 units, which costs 30 x 0.5 + 30 x 2.1 = 78. */
  lemma ScenarioA()
    ensures Problem(Chain(50.0, Some(100.0))).Ok?
    ensures Feasible(Problem(Chain(50.0, Some(100.0))).value, ChainFlow)
    ensures ObjectiveValue(Problem(Chain(50.0, Some(100.0))).value, ChainFlow) == 78.0
  {
    ChainFeasible(50.0, Some(100.0));
    ChainCost(50.0, 100.0);
  }

  /** Scenario A, optimality: no feasible assignment costs less than 78, so
      the flow of ScenarioA is optimal. */
  lemma ScenarioAOptimal(x: Assignment)
    requires Problem(Chain(50.0, Some(100.0))).Ok?
    requires Feasible(Problem(Chain(50.0, Some(100.0))).value, x)
    ensures ObjectiveValue(Problem(Chain(50.0, Some(100.0))).value, x) >= 78.0
  {
    ChainFeasibleFlows(50.0, Some(100.0), x);
    ChainObjective(50.0, 100.0, x);
  }

  /** Scenario A, the optimum: an assignment that is feasible and costs 78
      ships exactly 30 on both R -> T and T -> C. */
  lemma ScenarioAOptimumFlows(x: Assignment)
    requires Problem(Chain(50.0, Some(100.0))).Ok?
    requires Feasible(Problem(Chain(50.0, Some(100.0))).value, x)
    requires ObjectiveValue(Problem(Chain(50.0, Some(100.0))).value, x) == 78.0
    ensures x(R2T("R", "T")) == 30 && x(T2C("T", "C")) == 30
  {
    ChainFeasibleFlows(50.0, Some(100.0), x);
    ChainObjective(50.0, 100.0, x);
  }

  /** Scenario B: with a tank of capacity 10 the demand of 30 cannot be met,
      so no assignment satisfies the program. */
  lemma ScenarioB(x: Assignment)
    ensures Problem(Chain(10.0, Some(100.0))).Ok?
    ensures !Feasible(Problem(Chain(10.0, Some(100.0))).value, x)
  {
    ChainBuilds(10.0, Some(100.0));
    if Feasible(Problem(Chain(10.0, Some(100.0))).value, x) {
      ChainFeasibleFlows(10.0, Some(100.0), x);
    }
  }

  /** Scenario C, in the one-tank chain: the only tank -> customer
      connection has capacity 0, so the demand of 30 cannot be met and no
      assignment satisfies the program. UnconnectedTankServes shows that
      this needs the single tank. */
  lemma ScenarioC(x: Assignment)
    ensures Problem(Chain(50.0, Some(0.0))).Ok?
    ensures !Feasible(Problem(Chain(50.0, Some(0.0))).value, x)
  {
    var net := Chain(50.0, Some(0.0));
    ChainBuilds(50.0, Some(0.0));
    ChainIds(50.0, Some(0.0));
    ChainCapacities(50.0, Some(0.0));
    FeasibleIffMeetsRules(net, x);
    assert Stage2EdgesRespected(net, x) ==> x(T2C("T", "C")) as real <= 0.0 by {
      assert ("T", "C") in CapacityTable(net.connections);
    }
    if Feasible(Problem(net).value, x) {
      ChainFeasibleFlows(50.0, Some(0.0), x);
    }
  }

  /** Two tanks T1 and T2 of capacity 50: the truck T1 -> C has capacity 0
      and the pipeline R -> T2 has no onward connection to C. */
  function TwoTanks(): Network
  {
    Network(
      [Connection("R", "T2", 10.0, "PIPELINE", 100.0), Connection("T1", "C", 5.0, "TRUCK", 0.0)],
      [Customer("C")],
      [Tank("T1", 50.0), Tank("T2", 50.0)],
      [Refinery("R", 100.0, 100.0, 1.0, 1.0)],
      [Demand("D", "C", 30.0)])
  }

  /** 30 units along R -> T2 and along T2 -> C, nothing elsewhere. */
  function TwoTanksFlow(v: Var): nat
  {
    if v == R2T("R", "T2") || v == T2C("T2", "C") then 30 else 0
  }

  lemma TwoTanksIds()
    ensures var net := TwoTanks();
      && RefineryIds(net.refineries) == ["R"]
      && TankIds(net.tanks) == ["T1", "T2"]
      && CustomerIds(net.customers) == ["C"]
  {
  }

  lemma TwoTanksBuilds()
    ensures Problem(TwoTanks()).Ok?
  {
    var net := TwoTanks();
    TwoTanksIds();
    ProblemFailsIff(net);
    forall c | c in net.connections ensures !Orphan(net, c) {
      if c.fromId in TankIds(net.tanks) {
        assert net.demands[0].customerId == c.toId;
      }
    }
  }

  lemma TwoTanksDemandMet()
    ensures DemandsMet(TwoTanks(), TwoTanksFlow)
  {
    var x := TwoTanksFlow;
    TwoTanksIds();
    assert DeliveryVars(["T1", "T2"], "C") == [T2C("T1", "C"), T2C("T2", "C")];
    assert [T2C("T1", "C"), T2C("T2", "C")][1..] == [T2C("T2", "C")];
    UnitFlow(T2C("T2", "C"), x);
  }

  lemma TwoTanksTanks()
    ensures TanksRespected(TwoTanks(), TwoTanksFlow)
  {
    var net, x := TwoTanks(), TwoTanksFlow;
    TwoTanksIds();
    TankCapacityOfLastRecord(net.tanks, 0);
    TankCapacityOfLastRecord(net.tanks, 1);
    forall t | t in net.tanks
      ensures FlowConserved(["R"], net.demands, t, x)
      ensures WithinTankCapacity(net.demands, TankCapacities(net.tanks), t, x)
    {
      assert t == net.tanks[0] || t == net.tanks[1];
      assert InflowVars(["R"], t.id) == [R2T("R", t.id)];
      assert OutflowVars(t.id, net.demands) == [T2C(t.id, "C")];
      UnitFlow(R2T("R", t.id), x);
      UnitFlow(T2C(t.id, "C"), x);
    }
  }

  lemma TwoTanksRefinery()
    ensures RefineriesRespected(TwoTanks(), TwoTanksFlow)
  {
    var net, x := TwoTanks(), TwoTanksFlow;
    TwoTanksIds();
    RefineryCapacityOfLastRecord(net.refineries, 0);
    assert ShippedVars("R", ["T1", "T2"]) == [R2T("R", "T1"), R2T("R", "T2")];
    assert [R2T("R", "T1"), R2T("R", "T2")][1..] == [R2T("R", "T2")];
    UnitFlow(R2T("R", "T2"), x);
  }

  lemma TwoTanksEdges()
    ensures Stage1EdgesRespected(TwoTanks(), TwoTanksFlow)
    ensures Stage2EdgesRespected(TwoTanks(), TwoTanksFlow)
  {
    var cs := TwoTanks().connections;
    TwoTanksIds();
    assert [] + [cs[0]] == [cs[0]] && [cs[0]] + [cs[1]] == cs;
    PassStep([], cs[0]);
    PassStep([cs[0]], cs[1]);
    assert CapacityTable(cs) == map[("R", "T2") := 100.0, ("T1", "C") := 0.0];
  }

  /** Scenario C does not carry over to several tanks: the zero-capacity
      truck bounds only (T1, C), while (T2, C) has no connection record and
      so no edge bound, and T2 serves the demand. */
  lemma UnconnectedTankServes()
    ensures Problem(TwoTanks()).Ok?
    ensures Feasible(Problem(TwoTanks()).value, TwoTanksFlow)
  {
    TwoTanksBuilds();
    TwoTanksDemandMet();
    TwoTanksTanks();
    TwoTanksRefinery();
    TwoTanksEdges();
    FeasibleIffMeetsRules(TwoTanks(), TwoTanksFlow);
  }

  /** Without any T -> C connection the pair (T, C) still has a variable but
      no edge bound: the program stays feasible at the same flow, bounded
      only by the tank's throughput and balance. */
  lemma ScenarioWithoutTruck()
    ensures Problem(Chain(50.0, None)).Ok?
    ensures Feasible(Problem(Chain(50.0, None)).value, ChainFlow)
  {
    ChainFeasible(50.0, None);
  }

  /** The chain plus a second customer E with no demand and a truck T -> E:
      building fails with the lookup of the variable for (T, E). */
  function ChainWithIdleCustomer(): Network
  {
    var net := Chain(50.0, Some(100.0));
    net.(connections := net.connections + [Connection("T", "E", 1.0, "TRUCK", 5.0)],
         customers := net.customers + [Customer("E")])
  }

  lemma IdleCustomerFails()
    ensures Problem(ChainWithIdleCustomer()) == Err(KeyError(T2C("T", "E")))
  {
    var net := ChainWithIdleCustomer();
    var idle := net.connections[2];
    assert TankIds(net.tanks) == ["T"];
    assert CustomerIds(net.customers) == ["C", "E"];
    assert Orphan(net, idle);
    ProblemFailsIff(net);
    forall c | c in net.connections && Orphan(net, c) ensures c == idle {
      assert c == net.connections[0] || c == net.connections[1] || c == idle;
    }
  }
}
