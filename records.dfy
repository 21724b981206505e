/** The five input record kinds of the fuel-delivery planner, and the id lists
    and id-keyed dictionaries that the problem builder derives from them by
    comprehension before it starts emitting the linear program. */
module Records {

  /** Node identifiers; the three id spaces may overlap, roles keep them apart. */
  type Id = string

  /** A directed (from, to) node pair, the key of every edge table. */
  type Pair = (Id, Id)

  datatype Connection = Connection(
    fromId: Id,
    toId: Id,
    distance: real,
    connectionType: string,
    maxCapacity: real)

  datatype Customer = Customer(id: Id)

  datatype Tank = Tank(id: Id, capacity: real)

  datatype Refinery = Refinery(
    id: Id,
    capacity: real,
    maxOutput: real,
    productionCost: real,
    productionCo2: real)

  datatype Demand = Demand(id: Id, customerId: Id, quantity: real)

  /** The five record sequences, in the order they were read. */
  datatype Network = Network(
    connections: seq<Connection>,
    customers: seq<Customer>,
    tanks: seq<Tank>,
    refineries: seq<Refinery>,
    demands: seq<Demand>)

  function RefineryIds(rs: seq<Refinery>): seq<Id>
  {
    seq(|rs|, i requires 0 <= i < |rs| => rs[i].id)
  }

  function TankIds(ts: seq<Tank>): seq<Id>
  {
    seq(|ts|, i requires 0 <= i < |ts| => ts[i].id)
  }

  function CustomerIds(cs: seq<Customer>): seq<Id>
  {
    seq(|cs|, i requires 0 <= i < |cs| => cs[i].id)
  }

  /** A Python dictionary built from a list of (key, value) entries: it holds
      every key that occurs, and a later entry overwrites an earlier one. */
  function Dict<K, V>(entries: seq<(K, V)>): map<K, V>
  {
    if entries == [] then map[]
    else
      var prefix, last := entries[..|entries| - 1], entries[|entries| - 1];
      Dict(prefix)[last.0 := last.1]
  }

  lemma {:induction false} DictKeys<K, V>(entries: seq<(K, V)>)
    ensures Dict(entries).Keys == set e | e in entries :: e.0
  {
    if entries != [] {
      var prefix, last := entries[..|entries| - 1], entries[|entries| - 1];
      assert entries == prefix + [last];
      DictKeys(prefix);
    }
  }

  /** The entry with key k that no later entry overrides is the one kept. */
  lemma {:induction false} DictLastWins<K, V>(entries: seq<(K, V)>, i: nat)
    requires i < |entries|
    requires forall j :: i < j < |entries| ==> entries[j].0 != entries[i].0
    ensures entries[i].0 in Dict(entries)
    ensures Dict(entries)[entries[i].0] == entries[i].1
  {
    var n := |entries|;
    if i < n - 1 {
      var prefix := entries[..n - 1];
      assert prefix[i] == entries[i];
      DictLastWins(prefix, i);
    }
  }

  function TankCapacityEntries(ts: seq<Tank>): seq<(Id, real)>
  {
    seq(|ts|, i requires 0 <= i < |ts| => (ts[i].id, ts[i].capacity))
  }

  /** tank id -> capacity, as the dict comprehension over the tank records. */
  function TankCapacities(ts: seq<Tank>): (m: map<Id, real>)
    ensures forall t :: t in ts ==> t.id in m
  {
    var entries := TankCapacityEntries(ts);
    DictKeys(entries);
    assert forall t :: t in ts ==> (t.id, t.capacity) in entries by {
      forall t | t in ts ensures (t.id, t.capacity) in entries {
        var i :| 0 <= i < |ts| && ts[i] == t;
        assert entries[i] == (t.id, t.capacity);
      }
    }
    Dict(entries)
  }

  function RefineryCapacityEntries(rs: seq<Refinery>): seq<(Id, real)>
  {
    seq(|rs|, i requires 0 <= i < |rs| => (rs[i].id, rs[i].capacity))
  }

  /** refinery id -> capacity, as the dict comprehension over the refinery records. */
  function RefineryCapacities(rs: seq<Refinery>): (m: map<Id, real>)
    ensures forall r :: r in rs ==> r.id in m
  {
    var entries := RefineryCapacityEntries(rs);
    DictKeys(entries);
    assert forall r :: r in rs ==> (r.id, r.capacity) in entries by {
      forall r | r in rs ensures (r.id, r.capacity) in entries {
        var i :| 0 <= i < |rs| && rs[i] == r;
        assert entries[i] == (r.id, r.capacity);
      }
    }
    Dict(entries)
  }

  /** Every tank record's id has a capacity entry, and no other id has one. */
  lemma TankCapacitiesKeys(ts: seq<Tank>)
    ensures TankCapacities(ts).Keys == set t | t in ts :: t.id
  {
    DictKeys(TankCapacityEntries(ts));
  }

  /** Every refinery record's id has a capacity entry, and no other id has one. */
  lemma RefineryCapacitiesKeys(rs: seq<Refinery>)
    ensures RefineryCapacities(rs).Keys == set r | r in rs :: r.id
  {
    DictKeys(RefineryCapacityEntries(rs));
  }

  /** With repeated tank ids the capacity is that of the last such tank record. */
  lemma TankCapacityOfLastRecord(ts: seq<Tank>, i: nat)
    requires i < |ts|
    requires forall j :: i < j < |ts| ==> ts[j].id != ts[i].id
    ensures ts[i].id in TankCapacities(ts) && TankCapacities(ts)[ts[i].id] == ts[i].capacity
  {
    DictLastWins(TankCapacityEntries(ts), i);
  }

  /** With repeated refinery ids the capacity is that of the last such record. */
  lemma RefineryCapacityOfLastRecord(rs: seq<Refinery>, i: nat)
    requires i < |rs|
    requires forall j :: i < j < |rs| ==> rs[j].id != rs[i].id
    ensures rs[i].id in RefineryCapacities(rs) && RefineryCapacities(rs)[rs[i].id] == rs[i].capacity
  {
    DictLastWins(RefineryCapacityEntries(rs), i);
  }
}
