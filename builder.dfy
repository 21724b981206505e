/** The problem builder as it runs: one object holding the two edge
    dictionaries and the model under construction, whose methods are the
    loops that fill the dictionaries and append constraints one at a time.
    Each method is proved to leave exactly what the functions of Formulation
    describe. */
module Builder {
  import opened Records
  import opened LinearProgram
  import opened EdgeTables
  import opened Formulation

  class ProblemBuilder {
    /** The five record sequences, read once and never changed. */
    const net: Network

    /** The max-capacity dictionary: its entries, and its key order. */
    var maxCapacity: map<Pair, real>
    var capacityOrder: seq<Pair>

    /** The transport-cost dictionary. */
    var transportCost: map<Pair, real>

    /** The model being built: constraints in the order added, and the objective. */
    var constraints: seq<Constraint>
    var objective: LinExpr

    /** The key order lists every key of the max-capacity dictionary once. */
    ghost predicate Valid()
      reads this
    {
      && (forall k :: k in capacityOrder <==> k in maxCapacity)
      && Distinct(capacityOrder)
    }

    constructor (net: Network)
      ensures this.net == net
      ensures maxCapacity == map[] && capacityOrder == [] && transportCost == map[]
      ensures constraints == [] && objective == LinExpr([], 0.0)
      ensures Valid()
    {
      this.net := net;
      maxCapacity, capacityOrder, transportCost := map[], [], map[];
      constraints, objective := [], LinExpr([], 0.0);
    }

    /** One iteration of the pass: record c in both dictionaries, which then
        describe the records seen so far followed by c. */
    method ReadConnection(ghost seen: seq<Connection>, c: Connection)
      requires maxCapacity == CapacityTable(seen)
      requires capacityOrder == CapacityOrder(seen)
      requires transportCost == CostTable(seen)
      modifies this`maxCapacity, this`capacityOrder, this`transportCost
      ensures maxCapacity == CapacityTable(seen + [c])
      ensures capacityOrder == CapacityOrder(seen + [c])
      ensures transportCost == CostTable(seen + [c])
    {
      PassStep(seen, c);
      var key := (c.fromId, c.toId);
      if key !in maxCapacity {
        capacityOrder := capacityOrder + [key];
      }
      maxCapacity := maxCapacity[key := c.maxCapacity];
      if c.connectionType == "PIPELINE" {
        transportCost := transportCost[key := c.distance * PipelineCostPerUnitDistance];
      } else if c.connectionType == "TRUCK" {
        transportCost := transportCost[key := c.distance * TruckCostPerUnitDistance];
      }
    }

    /** The pass over the connection records that fills both dictionaries. */
    method ReadConnections()
      requires maxCapacity == map[] && capacityOrder == [] && transportCost == map[]
      modifies this`maxCapacity, this`capacityOrder, this`transportCost
      ensures Valid()
      ensures maxCapacity == CapacityTable(net.connections)
      ensures capacityOrder == CapacityOrder(net.connections)
      ensures transportCost == CostTable(net.connections)
    {
      var cs := net.connections;
      for i := 0 to |cs|
        invariant maxCapacity == CapacityTable(cs[..i])
        invariant capacityOrder == CapacityOrder(cs[..i])
        invariant transportCost == CostTable(cs[..i])
      {
        ReadConnection(cs[..i], cs[i]);
        assert cs[..i] + [cs[i]] == cs[..i + 1];
      }
      assert cs[..|cs|] == cs;
      CapacityOrderKeys(cs);
    }

    /** One fulfilment constraint per demand record, in record order. */
    method AddDemandConstraints()
      requires Valid()
      modifies this`constraints
      ensures Valid()
      ensures constraints == old(constraints) + DemandConstraints(net.demands, TankIds(net.tanks))
    {
      var ds, tids := net.demands, TankIds(net.tanks);
      for i := 0 to |ds|
        invariant constraints == old(constraints) + DemandConstraints(ds[..i], tids)
      {
        assert ds[..i + 1][..i] == ds[..i];
        constraints := constraints + [DemandFulfilment(ds[i], tids)];
      }
      assert ds[..|ds|] == ds;
    }

    /** Flow balance and throughput for each tank record, in record order. */
    method AddTankConstraints()
      requires Valid()
      modifies this`constraints
      ensures Valid()
      ensures constraints == old(constraints) +
        TankConstraints(net.tanks, RefineryIds(net.refineries), net.demands, TankCapacities(net.tanks))
    {
      var ts, rids, ds, caps := net.tanks, RefineryIds(net.refineries), net.demands, TankCapacities(net.tanks);
      ghost var start := constraints;
      for i := 0 to |ts|
        invariant forall t :: t in ts[..i] ==> t.id in caps
        invariant constraints == start + TankConstraints(ts[..i], rids, ds, caps)
      {
        TankConstraintsStep(ts, i, rids, ds, caps);
        ghost var before := constraints;
        var t := ts[i];
        constraints := constraints + [FlowBalance(t, rids, ds)];
        constraints := constraints + [TankThroughput(t, ds, caps)];
        assert constraints == before + [FlowBalance(t, rids, ds), TankThroughput(t, ds, caps)];
      }
      assert ts[..|ts|] == ts;
    }

    /** Max output and capacity for each refinery record, in record order. */
    method AddRefineryConstraints()
      requires Valid()
      modifies this`constraints
      ensures Valid()
      ensures constraints == old(constraints) +
        RefineryConstraints(net.refineries, TankIds(net.tanks), RefineryCapacities(net.refineries))
    {
      var rs, tids, caps := net.refineries, TankIds(net.tanks), RefineryCapacities(net.refineries);
      ghost var start := constraints;
      for i := 0 to |rs|
        invariant forall r :: r in rs[..i] ==> r.id in caps
        invariant constraints == start + RefineryConstraints(rs[..i], tids, caps)
      {
        RefineryConstraintsStep(rs, i, tids, caps);
        ghost var before := constraints;
        var r := rs[i];
        constraints := constraints + [MaxOutputBound(r, tids)];
        constraints := constraints + [RefineryCapacityBound(r, tids, caps)];
        assert constraints == before + [MaxOutputBound(r, tids), RefineryCapacityBound(r, tids, caps)];
      }
      assert rs[..|rs|] == rs;
    }

    /** The objective over the transport-cost dictionary as it stands. */
    method SetObjective()
      requires Valid()
      modifies this`objective
      ensures Valid()
      ensures objective == Objective(RefineryIds(net.refineries), TankIds(net.tanks), net.demands, transportCost)
    {
      objective := Objective(RefineryIds(net.refineries), TankIds(net.tanks), net.demands, transportCost);
    }

    /** The first pass over the max-capacity dictionary: a bound for every
        key from a refinery id to a tank id, in key order. */
    method AddStage1EdgeConstraints()
      requires Valid()
      modifies this`constraints
      ensures Valid()
      ensures constraints == old(constraints) +
        Stage1EdgeConstraints(capacityOrder, maxCapacity, RefineryIds(net.refineries), TankIds(net.tanks))
    {
      var rids, tids := RefineryIds(net.refineries), TankIds(net.tanks);
      var order := capacityOrder;
      for i := 0 to |order|
        invariant constraints == old(constraints) + Stage1EdgeConstraints(order[..i], maxCapacity, rids, tids)
      {
        assert order[..i + 1][..i] == order[..i];
        var k := order[i];
        assert k in order;
        if k.0 in rids && k.1 in tids {
          constraints := constraints + [Stage1EdgeBound(k, maxCapacity[k])];
        }
      }
      assert order[..|order|] == order;
    }

    /** The second pass: a bound for every key from a tank id to a customer
        id, stopping with the lookup error at the first such key that has no
        stage-2 variable. */
    method AddStage2EdgeConstraints() returns (err: Option<BuildError>)
      requires Valid()
      modifies this`constraints
      ensures Valid()
      ensures
        match Stage2EdgeConstraints(capacityOrder, maxCapacity, TankIds(net.tanks), CustomerIds(net.customers),
                                    Stage2Variables(net))
        case Err(e) => err == Some(e)
        case Ok(edges2) => err == None && constraints == old(constraints) + edges2
    {
      var tids, cids := TankIds(net.tanks), CustomerIds(net.customers);
      var declared := Stage2Variables(net);
      var order, caps := capacityOrder, maxCapacity;
      assert forall k :: k in order ==> k in caps;
      ghost var outcome := Stage2EdgeConstraints(order, caps, tids, cids, declared);
      ghost var start, rows := constraints, [];
      var i := 0;
      while i < |order|
        invariant 0 <= i <= |order|
        invariant Stage2EdgeConstraints(order[..i], caps, tids, cids, declared) == Ok(rows)
        invariant constraints == start + rows
      {
        var k := order[i];
        if k.0 in tids && k.1 in cids {
          if T2C(k.0, k.1) !in declared {
            FirstMissingKey(order, caps, tids, cids, declared, i);
            assert outcome == Err(KeyError(T2C(k.0, k.1)));
            return Some(KeyError(T2C(k.0, k.1)));
          }
          FoundKey(order, caps, tids, cids, declared, i, rows);
          rows := rows + [Stage2EdgeBound(k, caps[k])];
          constraints := constraints + [Stage2EdgeBound(k, caps[k])];
          assert Stage2EdgeConstraints(order[..i + 1], caps, tids, cids, declared) == Ok(rows);
        } else {
          FoundKey(order, caps, tids, cids, declared, i, rows);
          assert Stage2EdgeConstraints(order[..i + 1], caps, tids, cids, declared) == Ok(rows);
        }
        i := i + 1;
      }
      assert order[..|order|] == order;
      assert outcome == Ok(rows);
      err := None;
    }
  }

  /** If the keys up to i are all found, the stage-2 pass over them extends
      the pass over the keys before i by key i's bound, if it has one. */
  lemma FoundKey(ks: seq<Pair>, caps: map<Pair, real>, tids: seq<Id>, cids: seq<Id>,
                 declared: set<Var>, i: nat, rows: seq<Constraint>)
    requires forall k :: k in ks ==> k in caps
    requires i < |ks| && !Stage2Missing(ks[i], tids, cids, declared)
    requires forall k :: k in ks[..i] ==> k in caps
    requires Stage2EdgeConstraints(ks[..i], caps, tids, cids, declared) == Ok(rows)
    ensures forall k :: k in ks[..i + 1] ==> k in caps
    ensures Stage2EdgeConstraints(ks[..i + 1], caps, tids, cids, declared) ==
      if ks[i].0 in tids && ks[i].1 in cids then Ok(rows + [Stage2EdgeBound(ks[i], caps[ks[i]])]) else Ok(rows)
  {
    assert forall k :: k in ks[..i + 1] ==> k in ks;
    assert ks[..i + 1][..i] == ks[..i];
  }

  /** If the keys before i are all found and key i is missing, the stage-2
      pass fails with the lookup of key i. */
  lemma FirstMissingKey(ks: seq<Pair>, caps: map<Pair, real>, tids: seq<Id>, cids: seq<Id>,
                        declared: set<Var>, i: nat)
    requires forall k :: k in ks ==> k in caps
    requires i < |ks| && Stage2Missing(ks[i], tids, cids, declared)
    requires forall k :: k in ks[..i] ==> k in caps
    requires Stage2EdgeConstraints(ks[..i], caps, tids, cids, declared).Ok?
    ensures Stage2EdgeConstraints(ks, caps, tids, cids, declared) == Err(KeyError(T2C(ks[i].0, ks[i].1)))
  {
    Stage2EdgeConstraintsOutcome(ks[..i], caps, tids, cids, declared);
    Stage2EdgeConstraintsOutcome(ks, caps, tids, cids, declared);
    assert ks[i] in ks;
    var r := Stage2EdgeConstraints(ks, caps, tids, cids, declared);
    var i' :| 0 <= i' < |ks| && Stage2Missing(ks[i'], tids, cids, declared) &&
      (forall j :: 0 <= j < i' ==> !Stage2Missing(ks[j], tids, cids, declared)) &&
      r.error == KeyError(T2C(ks[i'].0, ks[i'].1));
  }

  /** Runs the builder end to end: the edge pass, the demand, tank and
      refinery constraints, the objective and the edge bounds. */
  method BuildProblem(net: Network) returns (r: Result<Lp>)
    ensures r == Problem(net)
  {
    ghost var rids, tids := RefineryIds(net.refineries), TankIds(net.tanks);
    ghost var demandRows := DemandConstraints(net.demands, tids);
    ghost var tankRows := TankConstraints(net.tanks, rids, net.demands, TankCapacities(net.tanks));
    ghost var refineryRows := RefineryConstraints(net.refineries, tids, RefineryCapacities(net.refineries));
    var b := new ProblemBuilder(net);
    b.ReadConnections();
    b.AddDemandConstraints();
    assert b.constraints == demandRows;
    b.AddTankConstraints();
    assert b.constraints == demandRows + tankRows;
    b.AddRefineryConstraints();
    assert b.constraints == demandRows + tankRows + refineryRows;
    b.SetObjective();
    b.AddStage1EdgeConstraints();
    var err := b.AddStage2EdgeConstraints();
    ghost var edgeRows := Stage1EdgeConstraints(b.capacityOrder, b.maxCapacity, rids, tids);
    assert LeadingConstraints(net) == demandRows + tankRows + refineryRows + edgeRows;
    match err
    case Some(e) =>
      r := Err(e);
    case None =>
      r := Ok(Lp(Variables(net), b.constraints, b.objective));
  }
}
