/** The edge tables filled by the single pass over the connection records:
    the max-capacity dictionary (written for every connection, iterated later
    in insertion order) and the transport-cost dictionary (written only for
    pipeline and truck connections). These functions state what the pass
    leaves behind after a prefix of the records; the class in builder.dfy
    runs the pass itself. */
module EdgeTables {
  import opened Records

  const PipelineCostPerUnitDistance: real := 0.05
  const TruckCostPerUnitDistance: real := 0.42

  function KeyOf(c: Connection): Pair
  {
    (c.fromId, c.toId)
  }

  /** The connection types that have a cost rate. */
  predicate Priced(c: Connection)
  {
    c.connectionType == "PIPELINE" || c.connectionType == "TRUCK"
  }

  /** The max-capacity dictionary after the pass over cs. */
  function CapacityTable(cs: seq<Connection>): map<Pair, real>
  {
    if cs == [] then map[]
    else
      var prefix, last := cs[..|cs| - 1], cs[|cs| - 1];
      CapacityTable(prefix)[KeyOf(last) := last.maxCapacity]
  }

  /** The key order of the max-capacity dictionary: a key takes its place when
      it is first written, and overwriting it later does not move it. */
  function CapacityOrder(cs: seq<Connection>): seq<Pair>
  {
    if cs == [] then []
    else
      var prefix, last := cs[..|cs| - 1], cs[|cs| - 1];
      var order := CapacityOrder(prefix);
      if KeyOf(last) in order then order else order + [KeyOf(last)]
  }

  /** No key occurs twice. */
  predicate Distinct(ks: seq<Pair>)
  {
    forall i, j :: 0 <= i < j < |ks| ==> ks[i] != ks[j]
  }

  /** The key order lists each key of the max-capacity dictionary once. */
  lemma {:induction false} CapacityOrderKeys(cs: seq<Connection>)
    ensures forall k :: k in CapacityOrder(cs) <==> k in CapacityTable(cs)
    ensures Distinct(CapacityOrder(cs))
  {
    if cs != [] {
      var prefix, last := cs[..|cs| - 1], cs[|cs| - 1];
      CapacityOrderKeys(prefix);
      var order := CapacityOrder(prefix);
      if KeyOf(last) !in order {
        var order' := order + [KeyOf(last)];
        assert CapacityOrder(cs) == order';
        forall i, j | 0 <= i < j < |order'| ensures order'[i] != order'[j] {
          assert order'[i] == order[i] && order[i] in order;
          if j < |order| {
            assert order'[j] == order[j] && order[i] != order[j];
          } else {
            assert order'[j] == KeyOf(last);
          }
        }
      }
    }
  }

  /** The transport-cost dictionary after the pass over cs. */
  function CostTable(cs: seq<Connection>): map<Pair, real>
  {
    if cs == [] then map[]
    else
      var prefix, last := cs[..|cs| - 1], cs[|cs| - 1];
      var m := CostTable(prefix);
      if last.connectionType == "PIPELINE" then
        m[KeyOf(last) := last.distance * PipelineCostPerUnitDistance]
      else if last.connectionType == "TRUCK" then
        m[KeyOf(last) := last.distance * TruckCostPerUnitDistance]
      else
        m
  }

  /** Every connection writes its pair's capacity entry, whatever its type. */
  lemma {:induction false} CapacityTableKeys(cs: seq<Connection>)
    ensures CapacityTable(cs).Keys == set c | c in cs :: KeyOf(c)
  {
    if cs != [] {
      var prefix, last := cs[..|cs| - 1], cs[|cs| - 1];
      assert cs == prefix + [last];
      CapacityTableKeys(prefix);
    }
  }

  /** A pair has a cost entry exactly when some PIPELINE or TRUCK connection
      joins it; connections of any other type write none. */
  lemma {:induction false} CostTableKeys(cs: seq<Connection>)
    ensures CostTable(cs).Keys == set c | c in cs && Priced(c) :: KeyOf(c)
  {
    if cs != [] {
      var prefix, last := cs[..|cs| - 1], cs[|cs| - 1];
      assert cs == prefix + [last];
      CostTableKeys(prefix);
    }
  }

  /** With repeated (from, to) pairs the last record's capacity is kept,
      whatever the records' types. */
  lemma {:induction false} CapacityLastWins(cs: seq<Connection>, i: nat)
    requires i < |cs|
    requires forall j :: i < j < |cs| ==> KeyOf(cs[j]) != KeyOf(cs[i])
    ensures KeyOf(cs[i]) in CapacityTable(cs)
    ensures CapacityTable(cs)[KeyOf(cs[i])] == cs[i].maxCapacity
  {
    var n := |cs|;
    if i < n - 1 {
      var prefix := cs[..n - 1];
      assert prefix[i] == cs[i];
      CapacityLastWins(prefix, i);
    }
  }

  /** The cost of a pair is distance x 0.05 or distance x 0.42 from the last
      PIPELINE or TRUCK record for it; later records of any other type leave
      it as it was. */
  lemma {:induction false} CostLastPricedWins(cs: seq<Connection>, i: nat)
    requires i < |cs| && Priced(cs[i])
    requires forall j :: i < j < |cs| && Priced(cs[j]) ==> KeyOf(cs[j]) != KeyOf(cs[i])
    ensures KeyOf(cs[i]) in CostTable(cs)
    ensures CostTable(cs)[KeyOf(cs[i])]
         == cs[i].distance * (if cs[i].connectionType == "PIPELINE" then 0.05 else 0.42)
  {
    var n := |cs|;
    if i < n - 1 {
      var prefix := cs[..n - 1];
      assert prefix[i] == cs[i];
      assert cs[i] in prefix;
      CostLastPricedWins(prefix, i);
    }
  }

  /** One more record of the pass: how the three tables change. */
  lemma PassStep(seen: seq<Connection>, c: Connection)
    ensures CapacityTable(seen + [c]) == CapacityTable(seen)[KeyOf(c) := c.maxCapacity]
    ensures CapacityOrder(seen + [c])
         == if KeyOf(c) in CapacityTable(seen) then CapacityOrder(seen) else CapacityOrder(seen) + [KeyOf(c)]
    ensures CostTable(seen + [c])
         == if c.connectionType == "PIPELINE" then CostTable(seen)[KeyOf(c) := c.distance * PipelineCostPerUnitDistance]
            else if c.connectionType == "TRUCK" then CostTable(seen)[KeyOf(c) := c.distance * TruckCostPerUnitDistance]
            else CostTable(seen)
  {
    var cs := seen + [c];
    assert cs[..|cs| - 1] == seen;
    CapacityOrderKeys(seen);
  }
}
