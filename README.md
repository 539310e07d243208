# Pipe network model

This project models the pipe network of `Ex2_3_1.py` and its undocumented twin
`Ex2_3.py`. The network has ten nodes `a`..`j` and thirteen pipes, each pipe
registered at its start node and then at its end node. The pipes get random
flow rates. There are three read-outs:

- the net flow at every node, computed from the flow rates;
- the pressure differences along a list of node pairs, computed from the node
  pressures alone;
- the Darcy-Weisbach head loss of every pipe, computed from its flow rate and
  size.

The two files differ in what they compute only in the node pairs: four open pairs against five
closing pairs. Both are modelled, as `FourPairLoop` and `ClosedLoop`.

There are three modules:

- `Hydraulics` (`hydraulics.dfy`) covers the per-pipe formula as pure functions over
  `real`: velocity, Reynolds number, friction factor (laminar `64/Re` below 2000,
  otherwise a fixed 0.02) and head loss. Lemmas about their signs and closed forms
  sit beside them.
- `Topology` (`topology.dfy`) covers the fixed tables as values: node names, the
  connection table and the property table. It also holds the specification
  functions over them:
  - `IncidentOf` gives the incidence list of a node, in table order;
  - `Degree` and `NetFlow` are the other specification functions;
  - `LoopDeltas` gives the pressure differences along node pairs.

  Lemmas about these cover the handshake count, the degrees and conservation of
  net flow. They also cover the telescoping of pressure differences.
- `Network` (`network.dfy`) covers the object graph as classes: `Node`, `Pipe`
  and `PipeNetwork`, with the source's fields.
  - Construction appends each new pipe in place to the `connectedPipes` lists
    of its two nodes.
  - `CalculateFlowRates` assigns the flow-rate fields in a loop.
  - The read-outs are functions of the current state. Their contracts tie them
    to the `Topology` specification functions.

The structural invariant `PipeNetwork.Valid` says that each node's list holds
exactly the pipes it is an endpoint of, in table order. Construction
establishes it, and `CalculateFlowRates` preserves it.

The dictionaries `nodes` and `pipes` are `map`s. Python iterates a dict in
insertion order, and the model makes that order explicit:

- the connection table is a sequence (`PipeConnections`);
- the pipes are visited in the order of that sequence (`PipeList`);
- the nodes are visited in the order of `NodeNames`.

Sign convention: the net flow adds `+flow_rate` for a pipe whose start node is
the node, and `-flow_rate` for any other pipe. The code does this at
Ex2_3_1.py:180-181. Its docstring calls the result the flow "into" the node,
but under the start-to-end direction a positive value is flow out of it. The
model follows the code.

## Model

| member | source | states |
|---|---|---|
| Hydraulics.CrossSection | Ex2_3_1.py:36 | the flow area pi (d/2)^2 is positive for every nonzero diameter |
| Hydraulics.Velocity | Ex2_3_1.py:36 | the velocity is positive exactly for positive flow and negative exactly for negative flow |
| Hydraulics.Reynolds | Ex2_3_1.py:37 | Re is zero exactly when the flow is zero. For a positive diameter it has the sign of the flow |
| Hydraulics.FrictionFactor | Ex2_3_1.py:40-45 | f is the fixed 0.02 exactly when Re >= 2000. It is positive exactly for positive Re and never below 0.02 then |
| Hydraulics.HeadLoss | Ex2_3_1.py:47-48 | the Darcy-Weisbach head loss f (L/d) rho v^2 / (2 g), with L and d in feet, defined only for a nonzero diameter and flow. It has no ensures of its own: HeadLossFollowsFlow, TurbulentHeadLossNonNegative and LaminarHeadLossIsPoiseuille state its properties |
| Hydraulics.ReynoldsClosedForm | Ex2_3_1.py:36-37 | Re equals 4 Q / (pi d mu), with d in feet |
| Hydraulics.ReverseFlowIsLaminar | Ex2_3_1.py:36-41 | reverse flow always takes the laminar branch f = 64/Re, and that f is negative |
| Hydraulics.TurbulentHeadLossNonNegative | Ex2_3_1.py:40-48 | in the turbulent branch the head loss is never negative |
| Hydraulics.HeadLossFollowsFlow | Ex2_3_1.py:36-48 | for a pipe of positive size the head loss is positive exactly for forward flow and negative exactly for reverse flow |
| Hydraulics.LaminarHeadLossIsPoiseuille | Ex2_3_1.py:40-48 | in the laminar branch the Darcy-Weisbach loss equals the Hagen-Poiseuille loss 32 mu L rho v / (g d^2) |
| Network.Pipe.constructor | Ex2_3_1.py:12-27 | a new pipe has the given size and endpoints and a flow rate of 0 |
| Network.Pipe.CalculateFlowRate | Ex2_3_1.py:29-49 | the head loss of the pipe, defined only for nonzero flow. For a pipe of positive size it has the sign of the flow |
| Network.Node.constructor | Ex2_3_1.py:54-63 | a new node has the given name and pressure (default 80) and an empty pipe list |
| Network.Node.AddPipe | Ex2_3_1.py:65-71 | appends exactly the one pipe at the end of the list; the name and pressure do not change |
| Network.PipesInOrder | Ex2_3_1.py:99-107 | the pipes of the `pipes` dict, one per table entry, in insertion order |
| Network.FlowRates | Ex2_3_1.py:138-141 | the flow rates of a list of pipes, entry by entry |
| Network.SignedSum | Ex2_3_1.py:180-181 | the generator sum over a node's pipe list: +flow rate where the node is the pipe's start node, -flow rate otherwise. SignedSumIsNetFlow ties it to the specification net flow |
| Network.SignedSumIsNetFlow | Ex2_3_1.py:179-181 | the signed sum over a node's pipe list equals the specification net flow of that node |
| Network.PipeNetwork.Valid | Ex2_3_1.py:79-107 | the structural invariant: the ten nodes named by their keys; a well-formed table; the `pipes` keys exactly the table's names; distinct pipes, each joining its entry's nodes with a positive size; each node's list exactly its incidence list in table order |
| Network.PipeNetwork.PipeList | Ex2_3_1.py:138 | the pipes in the order `self.pipes.items()` visits them: one per table entry, each a value of `pipes` |
| Network.PipeNetwork.Flows | Ex2_3_1.py:160 | the current flow rates in the same visiting order, one per table entry |
| Network.PipeNetwork.constructor | Ex2_3_1.py:76-107 | from agreeing tables: the network is Valid (ten nodes named by their keys, one pipe per entry with that entry's endpoints, each node listing exactly its pipes in table order). It holds the given connection table; its new nodes have pressure 80; every flow is 0; each pipe has its name's properties |
| Network.PipeNetwork.Established | Ex2_3_1.py:99-107 | fields holding what the construction loop built make the network Valid, and that loop's pipe sequence is the table-order pipe list |
| Network.PipeNetwork.AtRest | Ex2_3_1.py:27 | right after construction every flow is 0 and each pipe has the properties of its name |
| Network.PipeNetwork.ListedInOrder | Ex2_3_1.py:99-107 | pipes keyed by the table's names, as the loop stores them, list in table order |
| Network.PipeNetwork.CalculateFlowRates | Ex2_3_1.py:136-141 | gives pipe i, in table order, draw i as its flow rate. It changes nothing but flow rates, every pipe ends within [-5, 5) and the network stays Valid |
| Network.PipeNetwork.FlowsBounded | Ex2_3_1.py:138-141 | bounds on the flows in table order bound every pipe of the `pipes` dict |
| Network.PipeNetwork.ListedAtEnds | Ex2_3_1.py:100-107 | every pipe occurs in a node's list once per end at that node: exactly once at each of its two endpoints, nowhere else |
| Network.PipeNetwork.ListSizes | Ex2_3_1.py:100-107 | each node's list has as many entries as the node has pipe ends, and the degrees add up to twice the number of pipes |
| Network.PipeNetwork.SourceListSizes | Ex2_3_1.py:100-107 | in a network whose table gives the ten nodes the program's degrees, each node lists exactly that many pipes |
| Network.ProgramListSizes | Ex2_3_1.py:82-107 | in the program's own network nodes a, d, h and j list two pipes and the other six three |
| Network.PipeNetwork.CheckNodeFlows | Ex2_3_1.py:170-182 | the net flow of each node in node order equals the specification net flow over the current flows, and the ten net flows sum to 0 |
| Network.PipeNetwork.NodeFlowsOf | Ex2_3_1.py:179-181 | the loop over the nodes: one signed sum over each requested node's list, in order. NodeFlowsAgree ties it to the specification net flows |
| Network.PipeNetwork.NodeFlowsAgree | Ex2_3_1.py:179-181 | the signed sums over the nodes' lists are the specification net flows |
| Network.PipeNetwork.CheckLoopHeadLoss | Ex2_3_1.py:149-156 | each pair gives its start node's pressure minus its end node's. The five closing pairs of Ex2_3.py sum to 0, and the four pairs of Ex2_3_1.py to p(a) - p(h) |
| Network.PipeNetwork.PositiveSizes | Ex2_3_1.py:160-161 | every pipe of a valid network, in the order the head-loss loop visits them, has a positive diameter and length and carries its table-order flow |
| Network.PipeNetwork.CalculateHeadLoss | Ex2_3_1.py:158-163 | entry i is the i-th table pipe's own head loss (its CalculateFlowRate), each with the sign of its pipe's flow, defined only when no flow is 0 |
| Network.NewNetwork | Ex2_3_1.py:76-134 | the program's own network: a new object with new nodes, Valid, built from the program's connection table, with pressure 80 everywhere, no flow and the looked-up properties |
| Network.MakeNodes | Ex2_3_1.py:79 | exactly the ten nodes `a`..`j`, new, each named by its key, at pressure 80 and with no pipes |
| Network.NewPipe | Ex2_3_1.py:101-106 | a new pipe between the named nodes with its name's properties and no flow, appended to the lists of its start node and its end node and to no other list |
| Network.AddConnection | Ex2_3_1.py:100-107 | one iteration of the construction loop: one more pipe, new, appended to the pipes so far, keeps the building invariant for one more table entry |
| Network.MakePipes | Ex2_3_1.py:98-107 | the construction loop: one distinct pipe per table entry, stored under its name, joining the entry's nodes with its name's properties and no flow; each node's list equals its incidence list in table order |
| Network.Build | Ex2_3_1.py:76-107 | new nodes and distinct pipes of a well-formed table in the shape `Valid` describes, with zero flows and pressure 80 |
| Network.AssignFlows | Ex2_3_1.py:138-141 | the in-place loop over distinct pipes leaves their flow rates equal to the draws |
| Network.HeadLossesOf | Ex2_3_1.py:160-161 | entry i is pipe i's own head loss (its CalculateFlowRate), with the sign of its flow |
| Topology.Names | Ex2_3_1.py:82-96 | the pipe names of the connection table, entry by entry |
| Topology.GetPipeProperties | Ex2_3_1.py:109-134 | defined only for the thirteen pipe names, and every row has a positive diameter, length and roughness |
| Topology.PropertyTablePositive | Ex2_3_1.py:119-133 | every row of the property table has a positive size |
| Topology.PropertyTableKeys | Ex2_3_1.py:82-96 | the property table has exactly the pipe names of the connection table as keys |
| Topology.NamesSpellEnds | Ex2_3_1.py:82-96 | each pipe name is three characters: its start node, a dash and its end node |
| Topology.TableAscends | Ex2_3_1.py:82-96 | proof step for ConnectionTableWellFormed: the connection table lists its entries in strictly ascending (start, end) order |
| Topology.AscendingPrecedes | Ex2_3_1.py:82-96 | proof step for ConnectionTableWellFormed: in such a table every earlier entry precedes every later one, so no two entries share a name |
| Topology.EndpointsAreNodes | Ex2_3_1.py:82-96 | every pipe joins two different nodes of `a`..`j` |
| Topology.ConnectionTableWellFormed | Ex2_3_1.py:79-96 | the pipe names are distinct, every pipe joins two different existing nodes, and the node names are distinct |
| Topology.PipeConnectionsWellFormed | Ex2_3_1.py:82-134 | the connection table is well formed and every pipe name has a property row |
| Topology.SourceTablesAgree | Ex2_3_1.py:82-134 | the program's two tables meet what construction needs |
| Topology.IncidentOf | Ex2_3_1.py:100-107 | a node's incidence list has one entry per pipe end at that node, all of them pipes of the table |
| Topology.IncidentOfAppend | Ex2_3_1.py:105-106 | registering one more pipe appends it to the incidence lists of its endpoints, start first |
| Topology.RegisteredStep | Ex2_3_1.py:105-106 | appending a pipe to the lists of its endpoints keeps every list equal to its incidence list |
| Topology.NameSet | Ex2_3_1.py:99-107 | every pipe name of the table is a key of the pipe dict |
| Topology.NameSetMember | Ex2_3_1.py:99-107 | every key of the pipe dict is the name of some table entry |
| Topology.ByNameKeys | Ex2_3_1.py:99-107 | the pipes stored by name have exactly the table's names as keys |
| Topology.ByNameLookup | Ex2_3_1.py:99-107 | with distinct names each name finds the pipe of its own entry |
| Topology.ByNameAppend | Ex2_3_1.py:107 | storing one more pipe updates exactly its name |
| Topology.IncidentMultiplicity | Ex2_3_1.py:100-107 | a pipe occurs in a node's incidence list once for each of its ends at that node |
| Topology.Handshake | Ex2_3_1.py:100-107 | over distinct nodes holding every endpoint, the degrees add up to twice the number of pipes |
| Topology.NetworkDegrees | Ex2_3_1.py:82-107 | in the program's table a, d, h and j have degree 2 and the other nodes degree 3, 26 in total |
| Topology.SourceDegreesAt | Ex2_3_1.py:82-96 | under a table with the program's degrees each node has degree 2 (a, d, h, j) or 3 (the rest) |
| Topology.ProgramTableDegrees | Ex2_3_1.py:82-96 | the program's own table has those degrees |
| Topology.DegreeA | Ex2_3_1.py:83-84 | proof step for NetworkDegrees: node a has two pipe ends |
| Topology.DegreeB | Ex2_3_1.py:83-86 | proof step for NetworkDegrees: node b has three pipe ends |
| Topology.DegreeC | Ex2_3_1.py:85-88 | proof step for NetworkDegrees: node c has three pipe ends |
| Topology.DegreeD | Ex2_3_1.py:87-89 | proof step for NetworkDegrees: node d has two pipe ends |
| Topology.DegreeE | Ex2_3_1.py:86-91 | proof step for NetworkDegrees: node e has three pipe ends |
| Topology.DegreeF | Ex2_3_1.py:88-92 | proof step for NetworkDegrees: node f has three pipe ends |
| Topology.DegreeG | Ex2_3_1.py:89-93 | proof step for NetworkDegrees: node g has three pipe ends |
| Topology.DegreeH | Ex2_3_1.py:84-94 | proof step for NetworkDegrees: node h has two pipe ends |
| Topology.DegreeI | Ex2_3_1.py:91-95 | proof step for NetworkDegrees: node i has three pipe ends |
| Topology.DegreeJ | Ex2_3_1.py:93-95 | proof step for NetworkDegrees: node j has two pipe ends |
| Topology.NetFlows | Ex2_3_1.py:179-181 | one specification net flow per requested node |
| Topology.NetFlowAppend | Ex2_3_1.py:180-181 | one more pipe adds its signed contribution to every node's net flow |
| Topology.SumAppendFlow | Ex2_3_1.py:179-181 | over distinct nodes one pipe adds +q at its start and -q at its end to the total |
| Topology.ZeroFlowSum | Ex2_3_1.py:179-181 | without pipes every net flow total is 0 |
| Topology.NetFlowsCancel | Ex2_3_1.py:179-181 | for any flows, when no pipe is a self-loop and the distinct nodes hold every endpoint, the net flows sum to 0 |
| Topology.NetworkFlowsCancel | Ex2_3_1.py:179-181 | over a well-formed table the net flows of the ten nodes sum to 0 for any flows |
| Topology.LoopDeltas | Ex2_3.py:112-117 | one pressure difference per node pair: start pressure minus end pressure |
| Topology.DeltasTelescope | Ex2_3.py:113-117 | along a chain of pairs the differences add up to first start minus last end |
| Topology.ClosedLoopCancels | Ex2_3.py:113-117 | the five pairs a-b, b-e, e-i, i-h, h-a close the loop, so their differences sum to 0 for any pressures |
| Topology.FourPairLoopSum | Ex2_3_1.py:151-155 | the four pairs a-b, b-e, e-i, i-h stop at h, so their differences sum to p(a) - p(h) |
| Topology.UniformPressureDeltas | Ex2_3.py:113-117 | when every node has the same pressure (the default 80), every difference is 0 |

Ex2_3.py repeats the same classes at different lines, and the rows citing
Ex2_3_1.py model that copy as well:

- Ex2_3_1.py 12-27, Ex2_3.py 10-16;
- Ex2_3_1.py 29-49, Ex2_3.py 18-33;
- Ex2_3_1.py 54-71, Ex2_3.py 36-42;
- Ex2_3_1.py 76-107, Ex2_3.py 45-75;
- Ex2_3_1.py 109-134, Ex2_3.py 77-94;
- Ex2_3_1.py 136-141, Ex2_3.py 96-100;
- Ex2_3_1.py 170-182, Ex2_3.py 107-110;
- Ex2_3_1.py 158-163, Ex2_3.py 120-123.

## Left out

- Printing, string formatting and `main`. This covers `print_flow_rates`, `calculate_pressures` and the print calls inside the read-outs. The read-outs return the values they print instead.
- Randomness: `np.random.uniform(-5, 5)` is replaced by a parameter `draws`, one value per pipe in table order. Each value lies in [-5, 5), the half-open range numpy draws from.
- `np.pi` is not fixed. Every member that computes an area, a velocity, a Reynolds number or a head loss takes `pi` as a parameter and only asks that it be positive.
- Floating point: all quantities are exact `real`s, so rounding, overflow and `inf`/`nan` are not modelled.
- Network.PipeNetwork.CalculateHeadLoss: requires every flow rate to be nonzero. In the source, a zero flow rate (as right after construction) makes Re zero and `64 / Re` divide by zero, a case the model does not represent.
- Roughness is stored and carried through construction but never used in a computation, as in the source.
- The Colebrook iteration and any real hydraulic solve are not modelled; the source uses a fixed turbulent friction factor instead.
- Network.PipeNetwork.constructor: takes the connection table and the property table as parameters and asks that they agree. `NewNetwork` builds the program's own network from the source's two tables.
- Network.PipeNetwork.constructor: promises that the nodes are newly allocated, but not that the pipe objects are. The pipes are distinct from one another and from the nodes, which is what the rest of the model relies on.
- Network.MakePipes: promises distinct pipes, one per table entry, but not that they are newly allocated; the source creates a new `Pipe` per entry. Distinctness is what the invariant uses. Each single step, NewPipe and AddConnection, does promise a new pipe.
- Network.Build: like MakePipes, promises new nodes but only distinct pipes.
- Network.NewNetwork: promises a new network object with new nodes, but only distinct pipes.
- The pipe-property lookup is modelled as a lookup in a constant table. It does not rebuild a dict on every call.
- Dict iteration order is modelled as the order of `PipeConnections` and `NodeNames`, which is the insertion order of the source's dicts.
- `Ex2_1.py` and `Ex2_2.py` (ODE solving, quadrature and plotting through scipy and matplotlib) are not part of this model.
