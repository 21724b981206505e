# Fuel-delivery LP builder, modelled in Dafny

The fuel-delivery planner reads five kinds of records:
- connections: a directed edge with a distance, a type (`PIPELINE` or `TRUCK`) and a maximum capacity;
- customers;
- tanks, each with a capacity;
- refineries, each with a capacity and a maximum output;
- demands: a customer id and a quantity.

From these it builds a two-stage integer linear program. Stage 1 ships refinery → tank and stage 2 ships tank → customer, at minimum transport cost. This project models the builder, `solver/linalg/problem_definition.py`, as Dafny functions over the input records and as an imperative builder object. It then proves what the emitted program means.

Modules and files:

- `records.dfy` (`Records`): the records, the id lists, and the id-keyed dictionaries. A dict comprehension is modelled as `Dict`: every key that occurs is present, and the last entry with a key wins.
- `lp.dfy` (`LinearProgram`): a linear program as data.
  - Variables are `R2T`/`T2C`. An expression is a list of terms, so a repeated `lpSum` term keeps its multiplicity.
  - Named constraints are `<=`, `>=` or `==` between two expressions.
  - There is an evaluator for a non-negative integer assignment.
- `edge_tables.dfy` (`EdgeTables`): the pass over the connections that fills the max-capacity and transport-cost dictionaries.
  - It tracks the max-capacity dictionary's key order, because lines 116 and 121 iterate it in insertion order.
  - A repeated pair keeps its first position and its last value.
- `formulation.dfy` (`Formulation`): the emitted program as a function `Problem(net): Result<Lp>`.
  - It covers the variable dictionaries, the constraint families in emission order, and the objective.
  - The one failure modelled is the `KeyError` of line 123. pulp's error on a repeated constraint name and a missing connection field are left out (see below).
- `builder.dfy` (`Builder`): the script as a `ProblemBuilder` class.
  - The class's fields are the two edge dictionaries, the max-capacity key order, the constraint list and the objective.
  - Each method does one pass of the script or, for `ReadConnection`, one iteration of the connection pass, and is proved against the functions of `EdgeTables` and `Formulation`.
  - `BuildProblem` runs the passes in the script's order and returns exactly `Problem(net)`.
- `feasibility.dfy` (`Feasibility`): the central result. When building succeeds, an assignment satisfies the emitted program exactly when it meets the planner's rules (`MeetsRules`):
  - every demand is met;
  - every tank is balanced and within its capacity;
  - every refinery is within its maximum output and its capacity;
  - every refinery → tank and tank → customer pair of the max-capacity dictionary is within the capacity of the last connection record for that pair.
- `outcomes.dfy` (`Outcomes`):
  - exactly when building fails;
  - which variables exist;
  - that only declared variables are used;
  - what the objective charges;
  - term multiplicity;
  - that the production fields are unused;
  - the constraint-name collision between a tank and a refinery that share an id.
- `scenarios.dfy` (`Scenarios`): small networks worked through the model.

Points of the behaviour that need care, with the model following the code:

- Pairs with no connection. A pair without a connection record still has a variable but no edge bound. Its flow is limited only by the other constraints, such as the tank's throughput and balance (`Scenarios.ScenarioWithoutTruck`). So a connection of capacity 0 blocks only its own pair. In the one-tank chain, where the zero-capacity truck is the only way to the customer, no assignment is feasible (`Scenarios.ScenarioC`). With a second tank that has no connection record to the customer, that tank still serves the customer and the program is feasible (`Scenarios.UnconnectedTankServes`).
- Repeated connections. One might expect every connection record to bound its flow. The code does not for repeated (from, to) pairs: only the last record's capacity is emitted (`EdgeTables.CapacityLastWins`).
- Stage-2 variables exist for (tank, customer of some demand) pairs, not for all (tank, customer) pairs. Building fails when a tank → customer connection names a customer that has no demand (`Outcomes.ProblemFailsIff`).
- A customer with several demand records gets the same variable once per record:
  - in its tank's outflow sum (`Outcomes.OutflowCountsDemandRows`);
  - in the objective's stage-2 terms.

## Model

| member | source | states |
|---|---|---|
| Records.RefineryIds | solver/linalg/problem_definition.py:13 | the refinery ids in record order, repeats kept |
| Records.TankIds | solver/linalg/problem_definition.py:14 | the tank ids in record order, repeats kept |
| Records.CustomerIds | solver/linalg/problem_definition.py:15 | the customer ids in record order, repeats kept |
| Records.Dict | solver/linalg/problem_definition.py:20-21 | the dictionary a comprehension builds from (key, value) entries: later entries overwrite earlier ones |
| Records.TankCapacityEntries | solver/linalg/problem_definition.py:20 | the (id, capacity) pairs the tank-capacity comprehension iterates, one per tank record in record order, repeats kept |
| Records.RefineryCapacityEntries | solver/linalg/problem_definition.py:21 | the (id, capacity) pairs the refinery-capacity comprehension iterates, one per refinery record in record order, repeats kept |
| Records.TankCapacitiesKeys | solver/linalg/problem_definition.py:20 | the tank-capacity dictionary has exactly the tank record ids as keys |
| Records.RefineryCapacitiesKeys | solver/linalg/problem_definition.py:21 | the refinery-capacity dictionary has exactly the refinery record ids as keys |
| Records.TankCapacityOfLastRecord | solver/linalg/problem_definition.py:20 | a tank record that no later record with the same id follows supplies that id's capacity |
| Records.RefineryCapacityOfLastRecord | solver/linalg/problem_definition.py:21 | a refinery record that no later record with the same id follows supplies that id's capacity |
| Records.DictKeys | solver/linalg/problem_definition.py:20-21 | a dictionary built from entries holds exactly the keys that occur in them |
| Records.DictLastWins | solver/linalg/problem_definition.py:20-21 | an entry that no later entry with the same key overrides is the value kept |
| Records.TankCapacities | solver/linalg/problem_definition.py:20 | every tank record's id has a capacity entry, so the lookup at line 78 never fails |
| Records.RefineryCapacities | solver/linalg/problem_definition.py:21 | every refinery record's id has a capacity entry, so the lookup at line 89 never fails |
| EdgeTables.CapacityTable | solver/linalg/problem_definition.py:22-31 | the max-capacity dictionary after the pass over a prefix of the connection records |
| EdgeTables.CapacityOrder | solver/linalg/problem_definition.py:22-31 | the insertion order of that dictionary's keys: a pair takes its place when first written |
| EdgeTables.CostTable | solver/linalg/problem_definition.py:23-36 | the transport-cost dictionary after the pass: distance × 0.05 for PIPELINE, × 0.42 for TRUCK, no entry otherwise |
| Builder.ProblemBuilder.constructor | solver/linalg/problem_definition.py:22-23 | a builder with both dictionaries empty, no constraints and an empty objective; its key order is valid |
| EdgeTables.CapacityTableKeys | solver/linalg/problem_definition.py:25-31 | the max-capacity dictionary has exactly the (from, to) pairs of the connection records as keys |
| EdgeTables.CostTableKeys | solver/linalg/problem_definition.py:25-36 | the transport-cost dictionary has exactly the pairs of the PIPELINE and TRUCK records as keys; records of any other type add no cost |
| EdgeTables.CapacityLastWins | solver/linalg/problem_definition.py:31 | for a repeated pair, the last record's max capacity is kept |
| EdgeTables.CostLastPricedWins | solver/linalg/problem_definition.py:33-36 | for a repeated pair, the cost is the last PIPELINE or TRUCK record's distance × 0.05 or × 0.42 |
| EdgeTables.CapacityOrderKeys | solver/linalg/problem_definition.py:31 | the key order lists each key of the max-capacity dictionary exactly once, and nothing else |
| EdgeTables.PassStep | solver/linalg/problem_definition.py:25-36 | one more connection updates the capacity entry, appends the key only when it is new, and sets the cost only for PIPELINE or TRUCK |
| Builder.ProblemBuilder.ReadConnection | solver/linalg/problem_definition.py:26-36 | one loop iteration leaves the two dictionaries and the key order equal to those of the records seen so far plus this one |
| Builder.ProblemBuilder.ReadConnections | solver/linalg/problem_definition.py:22-36 | the loop fills the dictionaries and the key order as the functions of all connection records say, and the key order then lists the dictionary's keys exactly once |
| Formulation.Stage1Keys | solver/linalg/problem_definition.py:45 | the stage-1 key list, refinery-major over refinery ids × tank ids |
| Formulation.Stage2Keys | solver/linalg/problem_definition.py:53 | the stage-2 key list, tank-major over tank ids × the customer id of each demand record |
| Formulation.Stage1Variables | solver/linalg/problem_definition.py:43-48 | the set of stage-1 variables, the keys of the first variable dictionary |
| Formulation.Stage2Variables | solver/linalg/problem_definition.py:51-56 | the set of stage-2 variables, the keys of the second variable dictionary |
| Formulation.Variables | solver/linalg/problem_definition.py:43-56 | all declared variables: the stage-1 and stage-2 ones |
| Formulation.ShippedVars | solver/linalg/problem_definition.py:84-89 | `[x[rid, t] for t in tanks]`: one refinery → tank variable per tank record, in record order, repeats kept |
| Formulation.InflowVars | solver/linalg/problem_definition.py:72 | `[x[r, tid] for r in refineries]`: one refinery → tank variable per refinery record, in record order, repeats kept |
| Formulation.DeliveryVars | solver/linalg/problem_definition.py:65 | `[x[t, cid] for t in tanks]`: one tank → customer variable per tank record, in record order, repeats kept |
| Formulation.OutflowVars | solver/linalg/problem_definition.py:73-78 | `[x[tid, d.customer_id] for d in demands]`: one tank → customer variable per demand record, so a customer with k demands appears k times |
| Formulation.ShippedVarsMembers | solver/linalg/problem_definition.py:84 | a refinery's shipped-volume sum ranges over exactly its (refinery, tank id) variables |
| Formulation.InflowVarsMembers | solver/linalg/problem_definition.py:72 | a tank's inflow sum ranges over exactly the (refinery id, tank) variables |
| Formulation.DeliveryVarsMembers | solver/linalg/problem_definition.py:65 | a customer's delivery sum ranges over exactly its (tank id, customer) variables |
| Formulation.OutflowVarsMembers | solver/linalg/problem_definition.py:73 | a tank's outflow sum ranges over exactly the (tank, customer of some demand) variables |
| Formulation.Stage1KeysMembers | solver/linalg/problem_definition.py:43-48 | the stage-1 key list is made of exactly the refinery id × tank id pairs |
| Formulation.Stage2KeysMembers | solver/linalg/problem_definition.py:51-56 | the stage-2 key list is made of exactly the tank id × (customer id of some demand) pairs |
| Outcomes.Stage1VariablesExactly | solver/linalg/problem_definition.py:43-48 | a stage-1 variable exists exactly for each (refinery id, tank id) pair |
| Outcomes.Stage2VariablesExactly | solver/linalg/problem_definition.py:51-56 | a stage-2 variable exists exactly for each (tank id, customer id) pair whose customer has at least one demand |
| Formulation.DemandFulfilment | solver/linalg/problem_definition.py:64-67 | the constraint Demand_Fulfillment_<customer>_<demand>: the delivery sum over tanks is at least the quantity |
| Formulation.DemandConstraints | solver/linalg/problem_definition.py:58-67 | the fulfilment constraints of a list of demand records, in record order |
| Formulation.FlowBalance | solver/linalg/problem_definition.py:71-75 | the constraint Flow_Balance_<tank>: the inflow sum equals the outflow sum |
| Formulation.TankThroughput | solver/linalg/problem_definition.py:77-80 | the constraint Tank_Capacity_<tank>: the outflow sum is at most the dictionary capacity |
| Formulation.TankConstraints | solver/linalg/problem_definition.py:69-80 | the balance and throughput constraints of a list of tank records, in record order |
| Formulation.MaxOutputBound | solver/linalg/problem_definition.py:83-86 | the constraint Max_Output_Refinires_<refinery>: the shipped sum is at most the record's max output |
| Formulation.RefineryCapacityBound | solver/linalg/problem_definition.py:88-91 | the constraint Tank_Capacity_<refinery>: the shipped sum is at most the dictionary capacity |
| Formulation.RefineryConstraints | solver/linalg/problem_definition.py:82-91 | the two constraints of each refinery record, in record order |
| Formulation.DemandConstraintsLayout | solver/linalg/problem_definition.py:58-67 | one fulfilment constraint per demand record, in record order |
| Formulation.TankConstraintsLayout | solver/linalg/problem_definition.py:69-80 | two constraints per tank record, in record order: flow balance, then throughput |
| Formulation.RefineryConstraintsLayout | solver/linalg/problem_definition.py:82-91 | two constraints per refinery record, in record order: max output, then capacity |
| Formulation.Stage1EdgeBound | solver/linalg/problem_definition.py:118 | the constraint Capacity_Refinery_to_Tank_<from>_<to>: that stage-1 variable is at most the capacity |
| Formulation.Stage2EdgeBound | solver/linalg/problem_definition.py:123 | the constraint Capacity_Tank_to_Customer_<from>_<to>: that stage-2 variable is at most the capacity |
| Formulation.Stage1EdgeConstraints | solver/linalg/problem_definition.py:116-118 | the stage-1 bounds for a list of keys, in key order, skipping keys not from a refinery id to a tank id |
| Formulation.Stage2EdgeConstraints | solver/linalg/problem_definition.py:121-123 | the stage-2 bounds for a list of keys in key order, or the KeyError of the first tank id → customer id key without a variable |
| Formulation.Stage1EdgeConstraintsMembers | solver/linalg/problem_definition.py:115-118 | the first pass bounds exactly the keys that go from a refinery id to a tank id, each by its dictionary capacity |
| Formulation.Stage2EdgeConstraintsOutcome | solver/linalg/problem_definition.py:120-123 | the second pass fails exactly when some tank → customer key has no variable, then with the KeyError of the first such key; otherwise it bounds exactly the tank id → customer id keys |
| Formulation.CostTerms | solver/linalg/problem_definition.py:95-110 | the cost × variable terms of a key list, one per key whose pair has a cost entry |
| Formulation.Objective | solver/linalg/problem_definition.py:93-113 | the objective: the stage-1 cost terms followed by the stage-2 cost terms |
| Formulation.Stage1Rows | solver/linalg/problem_definition.py:115-118 | the stage-1 edge pass over the network's own max-capacity dictionary, in its key order |
| Formulation.EdgeResult | solver/linalg/problem_definition.py:120-123 | the stage-2 edge pass over the network's own max-capacity dictionary, in its key order: the bounds, or the KeyError of the first tank → customer key without a variable |
| Formulation.Problem | solver/linalg/problem_definition.py:13-123 | the whole emitted program (variables, constraints in emission order, objective), or the stage-2 KeyError |
| Formulation.CostTermsPriced | solver/linalg/problem_definition.py:95-110 | every objective term belongs to a listed key whose pair has a cost, and carries that cost as its coefficient |
| Builder.ProblemBuilder.AddDemandConstraints | solver/linalg/problem_definition.py:58-67 | the loop appends the demand fulfilment constraints and nothing else |
| Builder.ProblemBuilder.AddTankConstraints | solver/linalg/problem_definition.py:69-80 | the loop appends the tank constraints and nothing else |
| Builder.ProblemBuilder.AddRefineryConstraints | solver/linalg/problem_definition.py:82-91 | the loop appends the refinery constraints and nothing else |
| Builder.ProblemBuilder.SetObjective | solver/linalg/problem_definition.py:93-113 | the objective is set from the transport-cost dictionary as it stands |
| Builder.ProblemBuilder.AddStage1EdgeConstraints | solver/linalg/problem_definition.py:115-118 | the loop over the dictionary in key order appends exactly the stage-1 bounds |
| Builder.ProblemBuilder.AddStage2EdgeConstraints | solver/linalg/problem_definition.py:120-123 | the loop returns the KeyError of the pass when there is one; otherwise it appends exactly the stage-2 bounds |
| Builder.FirstMissingKey | solver/linalg/problem_definition.py:121-123 | a key lookup that fails after all earlier ones succeeded makes the whole pass fail with that key's variable |
| Builder.BuildProblem | solver/linalg/problem_definition.py:13-123 | running the script's passes in order returns exactly the specified program or the specified lookup failure |
| LinearProgram.LpSum | solver/linalg/problem_definition.py:65 | an lpSum: coefficient 1 on each listed variable, a repeated variable once per occurrence |
| LinearProgram.Flow | solver/linalg/problem_definition.py:65 | the total an assignment puts on a list of variables, once per occurrence |
| LinearProgram.Value | solver/linalg/problem_definition.py:64-123 | the value of an affine expression under an assignment |
| LinearProgram.Holds | solver/linalg/problem_definition.py:64-123 | whether a constraint's <=, >= or == holds between the values of its two sides |
| LinearProgram.Feasible | solver/linalg/problem_definition.py:64-123 | whether an assignment satisfies every constraint of the program |
| LinearProgram.ObjectiveValue | solver/linalg/problem_definition.py:93-113 | the value of the objective under an assignment |
| LinearProgram.LpSumValue | solver/linalg/problem_definition.py:65 | an lpSum of variables evaluates to the total flow on them, counted once per occurrence |
| LinearProgram.LpSumVars | solver/linalg/problem_definition.py:65 | an lpSum mentions exactly the variables of its list |
| LinearProgram.TermsValueAppend | solver/linalg/problem_definition.py:95-110 | the value of the sum of two term lists is the sum of their values |
| LinearProgram.TermsValueAgree | solver/linalg/problem_definition.py:95-110 | two assignments that agree on the variables of a term list give it the same value |
| LinearProgram.FlowConcentrated | solver/linalg/problem_definition.py:73 | when only one variable is non-zero, a sum counts it as many times as it occurs |
| Feasibility.DemandRowHolds | solver/linalg/problem_definition.py:64-67 | a fulfilment constraint holds exactly when the tanks deliver at least the demanded quantity |
| Feasibility.FlowBalanceHolds | solver/linalg/problem_definition.py:71-75 | a flow-balance constraint holds exactly when a tank's inflow equals its outflow |
| Feasibility.TankThroughputHolds | solver/linalg/problem_definition.py:77-80 | a throughput constraint holds exactly when a tank's outflow is within its dictionary capacity |
| Feasibility.MaxOutputHolds | solver/linalg/problem_definition.py:83-86 | a max-output constraint holds exactly when a refinery ships at most its record's max output |
| Feasibility.RefineryCapacityHolds | solver/linalg/problem_definition.py:88-91 | a refinery capacity constraint holds exactly when it ships at most its dictionary capacity |
| Feasibility.Stage1BoundHolds | solver/linalg/problem_definition.py:118 | a stage-1 bound holds exactly when that refinery → tank flow is within the capacity |
| Feasibility.Stage2BoundHolds | solver/linalg/problem_definition.py:123 | a stage-2 bound holds exactly when that tank → customer flow is within the capacity |
| Feasibility.DemandRowsHold | solver/linalg/problem_definition.py:58-67 | the demand constraints all hold exactly when every demand is met |
| Feasibility.TankRowsHold | solver/linalg/problem_definition.py:69-80 | the tank constraints all hold exactly when every tank is balanced and within capacity |
| Feasibility.RefineryRowsHold | solver/linalg/problem_definition.py:82-91 | the refinery constraints all hold exactly when every refinery is within its max output and its capacity |
| Feasibility.Stage1RowsHold | solver/linalg/problem_definition.py:115-118 | the stage-1 bounds hold exactly when every refinery → tank pair of the max-capacity dictionary is within the capacity of the last connection record for that pair |
| Feasibility.Stage2RowsHold | solver/linalg/problem_definition.py:120-123 | the stage-2 bounds hold exactly when every tank → customer pair of the max-capacity dictionary is within the capacity of the last connection record for that pair |
| Feasibility.AllHoldConcat | solver/linalg/problem_definition.py:64-123 | the constraints of two lists appended hold exactly when those of each list hold |
| Feasibility.FeasibleIffMeetsRules | solver/linalg/problem_definition.py:58-123 | when building succeeds, an assignment is feasible exactly when it meets every demand and every tank and refinery bound, and every refinery → tank and tank → customer pair of the max-capacity dictionary is within the capacity of the last connection record for that pair |
| Outcomes.MissingIffOrphan | solver/linalg/problem_definition.py:121-123 | a key's lookup fails exactly when the key comes from a tank → customer connection whose customer has no demand |
| Outcomes.ProblemFailsIff | solver/linalg/problem_definition.py:51-123 | building fails exactly when such a connection exists, and then with the KeyError for one of them |
| Outcomes.LpSumDeclared | solver/linalg/problem_definition.py:65 | an lpSum over declared variables uses only declared variables |
| Outcomes.DemandRowsDeclared | solver/linalg/problem_definition.py:58-67 | the demand constraints use only declared variables |
| Outcomes.TankRowsDeclared | solver/linalg/problem_definition.py:69-80 | the tank constraints use only declared variables |
| Outcomes.RefineryRowsDeclared | solver/linalg/problem_definition.py:82-91 | the refinery constraints use only declared variables |
| Outcomes.Stage1RowsDeclared | solver/linalg/problem_definition.py:115-118 | the stage-1 edge bounds use only declared variables |
| Outcomes.Stage2RowsDeclared | solver/linalg/problem_definition.py:120-123 | when the stage-2 pass succeeds, its bounds use only declared variables |
| Outcomes.UsedVariablesDeclared | solver/linalg/problem_definition.py:43-123 | when building succeeds, every constraint and the objective use only declared variables |
| Outcomes.CostTermsValue | solver/linalg/problem_definition.py:95-110 | the objective terms of a key list evaluate to the reference transport cost: the cost of the priced keys times their flow |
| Outcomes.ObjectiveIsTransportCost | solver/linalg/problem_definition.py:93-113 | the objective evaluates to the transport cost of all stage-1 keys plus all stage-2 keys |
| Outcomes.UncostedFlowIsFree | solver/linalg/problem_definition.py:93-113 | flow on a pair without a cost entry does not change the objective |
| Outcomes.OutflowOccurrences | solver/linalg/problem_definition.py:73 | in a tank's outflow sum, the (tank, c) variable occurs once per demand record of customer c |
| Outcomes.OutflowCountsDemandRows | solver/linalg/problem_definition.py:73-78 | a tank's outflow counts the flow to a customer once per demand record of that customer |
| Outcomes.RefineryConstraintsIgnoreProduction | solver/linalg/problem_definition.py:82-91 | the refinery constraints do not depend on production cost or CO2 |
| Outcomes.ProductionFieldsUnused | solver/linalg/problem_definition.py:17-18 | changing only refineries' production cost and CO2 leaves the emitted program unchanged |
| Outcomes.ThroughputRow | solver/linalg/problem_definition.py:77-80 | tank i's throughput constraint sits at index 2i+1 and is named Tank_Capacity_ plus the tank id |
| Outcomes.CapacityBoundRow | solver/linalg/problem_definition.py:88-91 | refinery i's capacity constraint sits at index 2i+1 and is also named Tank_Capacity_ plus the refinery id |
| Outcomes.SharedCapacityName | solver/linalg/problem_definition.py:77-91 | a tank and a refinery with the same id give two constraints at different positions with the same name |
| Scenarios.ChainBuilds | solver/linalg/problem_definition.py:116-123 | the refinery → tank → customer chain builds without a lookup failure |
| Scenarios.ChainCapacities | solver/linalg/problem_definition.py:25-31 | the chain's max-capacity dictionary is the two connections' capacities |
| Scenarios.ChainCostTable | solver/linalg/problem_definition.py:33-36 | the chain's costs are 10 × 0.05 for the pipeline and 5 × 0.42 for the truck |
| Scenarios.ChainFeasible | solver/linalg/problem_definition.py:58-123 | with a tank of capacity at least 30 and, if there is a truck, a truck of capacity at least 30, shipping the demand of 30 along the chain is feasible |
| Scenarios.ChainObjective | solver/linalg/problem_definition.py:93-113 | the chain's objective charges 0.5 per unit on R → T and 2.1 per unit on T → C, for any assignment |
| Scenarios.ChainCost | solver/linalg/problem_definition.py:93-113 | shipping 30 along the chain costs 78 |
| Scenarios.ChainFeasibleFlows | solver/linalg/problem_definition.py:64-80 | every feasible assignment of the chain delivers at least 30 to C, within the tank capacity, and takes as much from R |
| Scenarios.ScenarioA | solver/linalg/problem_definition.py:58-123 | the chain with a tank of capacity 50 is feasible at cost 78 |
| Scenarios.ScenarioAOptimal | solver/linalg/problem_definition.py:58-123 | no feasible assignment of the capacity-50 chain costs less than 78, so the flow of ScenarioA is optimal |
| Scenarios.ScenarioAOptimumFlows | solver/linalg/problem_definition.py:58-123 | an assignment of the capacity-50 chain that is feasible and costs 78 ships exactly 30 on R → T and on T → C |
| Scenarios.ScenarioB | solver/linalg/problem_definition.py:64-80 | with a tank of capacity 10, no assignment can meet the demand of 30 |
| Scenarios.ScenarioC | solver/linalg/problem_definition.py:64-123 | in the one-tank chain whose only tank → customer connection has capacity 0, no assignment can meet the demand of 30 |
| Scenarios.TwoTanksEdges | solver/linalg/problem_definition.py:115-123 | shipping 30 through T2 respects every edge pair of the two-tank network's max-capacity dictionary: (R, T2) up to 100 and (T1, C), which carries nothing, up to 0; (T2, C) has no connection record and so no bound |
| Scenarios.UnconnectedTankServes | solver/linalg/problem_definition.py:51-123 | with two tanks, a zero-capacity truck from T1 does not make the program infeasible: it builds, and shipping 30 through the unconnected tank T2 is feasible |
| Scenarios.ScenarioWithoutTruck | solver/linalg/problem_definition.py:51-123 | without any tank → customer connection the program still builds and is feasible at the same flow: no edge bound applies to that pair, only the tank's throughput and balance |
| Scenarios.IdleCustomerFails | solver/linalg/problem_definition.py:121-123 | a truck to a customer with no demand makes building fail with the KeyError for that pair |

## Left out

- Reading the CSV files (lines 7–11) is left out. The five record sequences are inputs of the model.
- Solving the program and printing the status, the non-zero variables and the cost (lines 125–132) are left out. The model describes the program that is handed to the solver, and what its feasible assignments are.
- Integrality and the lower bound 0 of the variables (lines 46–47, 54–55) hold only through the assignment type `Var -> nat`. Variable names and pulp's own name mangling are not modelled.
- pulp rejects a second constraint with a name already in use. That rejection is left out. `Outcomes.SharedCapacityName` proves that a tank and a refinery with the same id produce two constraints with the same name.
- Floating-point arithmetic is left out. Distances, costs, capacities, max outputs, demand quantities and the objective are exact reals, so a fractional bound such as a demand of 30.5 is expressible.
- The fields read from a connection record by key (lines 26–29 use `connection["..."]`) are modelled as record fields. A missing field is not modelled.
- The production-cost and production-CO2 dictionaries (lines 17–18) are built but never used. The model does not build them and proves they are unused (`Outcomes.ProductionFieldsUnused`).
- The script's module-level statements are grouped into builder methods, one per pass. Each loop iteration of the connection pass is the method `ReadConnection`. The order of the passes is the script's order.
