/**
 * The pipe network as an object graph: nodes that keep a list of their
 * incident pipes, pipes that point at their two end nodes, and the network
 * that builds the fixed layout, assigns flow rates in place and reports net
 * flows, pressure differences and head losses.
 */
module Network {
  import opened Topology
  import Hydraulics

  /** A junction of the network: a name, a pressure (psi) and its incident pipes. */
  class Node {
    const name: char
    var pressure: real
    var connectedPipes: seq<Pipe>

    constructor (name: char, pressure: real := 80.0)
      ensures this.name == name && this.pressure == pressure
      ensures connectedPipes == []
    {
      this.name := name;
      this.pressure := pressure;
      connectedPipes := [];
    }

    /** Registers a pipe at this node, after the ones already registered. */
    method AddPipe(pipe: Pipe)
      modifies this`connectedPipes
      ensures connectedPipes == old(connectedPipes) + [pipe]
      ensures pressure == old(pressure)
    {
      connectedPipes := connectedPipes + [pipe];
    }
  }

  /** A pipe between two nodes with its size and its current flow rate (cfs). */
  class Pipe {
    const diameter: real
    const length: real
    const roughness: real
    const startNode: Node
    const endNode: Node
    var flowRate: real

    constructor (diameter: real, length: real, roughness: real, startNode: Node, endNode: Node)
      ensures this.diameter == diameter && this.length == length && this.roughness == roughness
      ensures this.startNode == startNode && this.endNode == endNode
      ensures flowRate == 0.0
    {
      this.diameter := diameter;
      this.length := length;
      this.roughness := roughness;
      this.startNode := startNode;
      this.endNode := endNode;
      flowRate := 0.0;
    }

    /**
     * The Darcy-Weisbach head loss of this pipe at its current flow rate
     * (despite the name, it returns a head loss). A zero flow rate is a
     * division by zero. For a pipe of positive size the loss has the sign of
     * the flow.
     */
    function CalculateFlowRate(pi: real): (h: real)
      reads this
      requires pi > 0.0 && diameter != 0.0 && flowRate != 0.0
      ensures diameter > 0.0 && length > 0.0 ==> (h > 0.0 <==> flowRate > 0.0) && (h < 0.0 <==> flowRate < 0.0)
    {
      if diameter > 0.0 && length > 0.0 then
        Hydraulics.HeadLossFollowsFlow(pi, diameter, length, flowRate);
        Hydraulics.HeadLoss(pi, diameter, length, flowRate)
      else
        Hydraulics.HeadLoss(pi, diameter, length, flowRate)
    }
  }

  /** The pipes named by a connection table, looked up by name, in table order. */
  function PipesInOrder(m: map<string, Pipe>, t: seq<Connection>): (r: seq<Pipe>)
    requires forall i :: 0 <= i < |t| ==> t[i].name in m
    ensures |r| == |t|
    ensures forall i :: 0 <= i < |t| ==> r[i] == m[t[i].name]
    ensures forall p :: p in r ==> p in m.Values
  {
    if t == [] then [] else [m[t[0].name]] + PipesInOrder(m, t[1..])
  }

  /** The flow rates of a list of pipes, in order. */
  function FlowRates(ps: seq<Pipe>): (r: seq<real>)
    reads ps
    ensures |r| == |ps|
    ensures forall i :: 0 <= i < |ps| ==> r[i] == ps[i].flowRate
  {
    if ps == [] then [] else [ps[0].flowRate] + FlowRates(ps[1..])
  }

  /**
   * The net flow at a node over a list of its pipes: +flow rate for a pipe
   * whose start node is that node, -flow rate for any other pipe.
   */
  function SignedSum(node: Node, ps: seq<Pipe>): real
    reads ps
  {
    if ps == [] then 0.0
    else (if ps[0].startNode == node then ps[0].flowRate else -ps[0].flowRate) + SignedSum(node, ps[1..])
  }

  lemma {:induction false} SignedSumConcat(node: Node, a: seq<Pipe>, b: seq<Pipe>)
    ensures SignedSum(node, a + b) == SignedSum(node, a) + SignedSum(node, b)
  {
    if a != [] {
      assert (a + b)[0] == a[0];
      assert (a + b)[1..] == a[1..] + b;
      SignedSumConcat(node, a[1..], b);
    } else {
      assert a + b == b;
    }
  }

  /**
   * Summing over the incidence list of a node that stands for v gives the
   * specification's net flow at v, as long as a pipe starts at the node
   * exactly when its connection starts at v.
   */
  lemma {:induction false} SignedSumIsNetFlow(node: Node, xs: seq<Pipe>, t: seq<Connection>, v: char)
    requires |xs| == |t|
    requires forall i :: 0 <= i < |t| ==> (xs[i].startNode == node <==> t[i].start == v)
    ensures SignedSum(node, IncidentOf(xs, t, v)) == NetFlow(t, FlowRates(xs), v)
  {
    if t != [] {
      var head := Listed(xs[0], t[0], v);
      var rest := IncidentOf(xs[1..], t[1..], v);
      SignedSumConcat(node, head, rest);
      SignedSumConcat(node, if t[0].start == v then [xs[0]] else [], if t[0].end == v then [xs[0]] else []);
      SignedSumIsNetFlow(node, xs[1..], t[1..], v);
      assert FlowRates(xs)[1..] == FlowRates(xs[1..]);
    }
  }

  class PipeNetwork {
    /** The nodes, keyed by name. */
    var nodes: map<char, Node>
    /** The connection table the network was built from. */
    var pipeConnections: seq<Connection>
    /** The pipes, keyed by pipe name; iteration follows the connection table. */
    var pipes: map<string, Pipe>

    /** The set of pipe names of the connection table. */
    function PipeNames(): set<string>
      reads this
    {
      NameSet(pipeConnections)
    }

    /** The pipes in connection-table order (the order in which the network iterates them). */
    function PipeList(): (r: seq<Pipe>)
      reads this
      requires pipes.Keys == PipeNames()
      ensures |r| == |pipeConnections|
      ensures forall p :: p in r ==> p in pipes.Values
    {
      PipesInOrder(pipes, pipeConnections)
    }

    /**
     * The structural invariant: ten nodes each named by its key; a
     * well-formed connection table; one pipe per table entry whose
     * endpoints and properties come from the tables; no pipe object shared
     * by two entries; and each node's list holds exactly the pipes it is an
     * endpoint of, in table order.
     */
    ghost predicate Valid()
      reads this, nodes.Values
    {
      (forall v :: v in nodes <==> v in NodeNames)
      && (forall v :: v in nodes ==> nodes[v].name == v)
      && WellFormed(pipeConnections)
      && pipes.Keys == PipeNames()
      && Distinct(PipeList())
      && (forall i :: 0 <= i < |pipeConnections| ==> PipeAgrees(PipeList()[i], pipeConnections[i]))
      && (forall v :: v in nodes ==> nodes[v].connectedPipes == IncidentOf(PipeList(), pipeConnections, v))
    }

    /** The pipe p joins the nodes of connection c and has a positive size. */
    ghost predicate PipeAgrees(p: Pipe, c: Connection)
      reads this
    {
      c.start in nodes && c.end in nodes
      && p.startNode == nodes[c.start] && p.endNode == nodes[c.end]
      && p.diameter > 0.0 && p.length > 0.0 && p.roughness > 0.0
    }

    /** The current flow rates, in connection-table order. */
    function Flows(): (r: seq<real>)
      reads this, pipes.Values
      requires pipes.Keys == PipeNames()
      ensures |r| == |pipeConnections|
    {
      FlowRates(PipeList())
    }

    /** The pressure of every node, by name. */
    function Pressures(): map<char, real>
      reads this, nodes.Values
    {
      map v | v in nodes :: nodes[v].pressure
    }

    /**
     * Builds the ten nodes a..j at the default pressure and one pipe per
     * entry of the connection table, in table order, with the properties
     * the property table gives its name, registering each pipe at its start
     * node and then at its end node. The two tables are parameters here;
     * NewNetwork supplies the program's own.
     */
    constructor (connections: seq<Connection>, properties: map<string, Properties>)
      requires TablesAgree(connections, properties)
      ensures Valid()
      ensures pipeConnections == connections
      ensures fresh(nodes.Values)
      ensures forall v :: v in nodes ==> nodes[v].pressure == 80.0
      ensures Flows() == seq(|pipeConnections|, _ => 0.0)
      ensures forall i :: 0 <= i < |pipeConnections| ==>
        pipeConnections[i].name in properties
        && Properties(PipeList()[i].diameter, PipeList()[i].length, PipeList()[i].roughness)
           == properties[pipeConnections[i].name]
    {
      var ns, ps, made := Build(connections, properties);
      nodes := ns;
      pipeConnections := connections;
      pipes := ps;
      new;
      Established(properties, made);
      AtRest(properties, made);
    }

    /**
     * A network whose fields hold what building from a well-formed table
     * produces is valid and lists exactly the built pipes.
     */
    lemma Established(table: map<string, Properties>, made: seq<Pipe>)
      requires Shaped(nodes, pipeConnections, table, pipes, made)
      requires forall v :: v in nodes ==> nodes[v].connectedPipes == IncidentOf(made, pipeConnections, v)
      ensures PipeList() == made
      ensures (forall v :: v in nodes <==> v in NodeNames) && (forall v :: v in nodes ==> nodes[v].name == v)
      ensures WellFormed(pipeConnections) && pipes.Keys == PipeNames() && Distinct(PipeList())
      ensures forall i :: 0 <= i < |pipeConnections| ==> PipeAgrees(PipeList()[i], pipeConnections[i])
      ensures forall v :: v in nodes ==> nodes[v].connectedPipes == IncidentOf(PipeList(), pipeConnections, v)
      ensures Valid()
    {
      ListedInOrder(made);
    }

    /**
     * Built pipes that carry no flow and have the properties of the table
     * give a network at rest with those properties.
     */
    lemma AtRest(table: map<string, Properties>, made: seq<Pipe>)
      requires pipes.Keys == PipeNames() && PipeList() == made
      requires forall i :: 0 <= i < |made| ==> made[i].flowRate == 0.0
      requires forall i :: 0 <= i < |pipeConnections| ==>
        pipeConnections[i].name in table
        && Properties(made[i].diameter, made[i].length, made[i].roughness) == table[pipeConnections[i].name]
      ensures Flows() == seq(|pipeConnections|, _ => 0.0)
      ensures forall i :: 0 <= i < |pipeConnections| ==>
        pipeConnections[i].name in table
        && Properties(PipeList()[i].diameter, PipeList()[i].length, PipeList()[i].roughness)
           == table[pipeConnections[i].name]
    {
      ZeroFlowRates(made);
    }

    /** Pipes keyed by the table's names, listed by the table, are the pipes in table order. */
    lemma ListedInOrder(made: seq<Pipe>)
      requires pipes.Keys == PipeNames() && |made| == |pipeConnections|
      requires forall i :: 0 <= i < |pipeConnections| ==> pipes[pipeConnections[i].name] == made[i]
      ensures PipeList() == made
    {
    }

    /**
     * Gives every pipe, in table order, the next draw as its flow rate.
     * The draws stand for the uniform random values in [-5, 5) of the
     * original; nothing but the flow rates changes.
     */
    method CalculateFlowRates(draws: seq<real>)
      requires Valid()
      requires |draws| == |pipeConnections|
      requires forall i :: 0 <= i < |draws| ==> -5.0 <= draws[i] < 5.0
      modifies pipes.Values`flowRate
      ensures Valid()
      ensures Flows() == draws
      ensures forall n :: n in pipes ==> -5.0 <= pipes[n].flowRate < 5.0
      ensures forall v :: v in nodes ==> nodes[v].pressure == old(nodes[v].pressure)
    {
      var ps := PipeList();
      assert Distinct(ps);
      AssignFlows(ps, draws);
      assert PipeList() == ps;
      FlowsBounded(draws);
    }

    /** Bounds on the flows in table order are bounds on every pipe's flow. */
    lemma FlowsBounded(draws: seq<real>)
      requires pipes.Keys == PipeNames()
      requires Flows() == draws
      requires forall i :: 0 <= i < |draws| ==> -5.0 <= draws[i] < 5.0
      ensures forall n :: n in pipes ==> -5.0 <= pipes[n].flowRate < 5.0
    {
      forall n | n in pipes ensures -5.0 <= pipes[n].flowRate < 5.0 {
        NameSetMember(pipeConnections, n);
        var i :| 0 <= i < |pipeConnections| && pipeConnections[i].name == n;
        assert PipeList()[i] == pipes[n];
        assert Flows()[i] == pipes[n].flowRate;
      }
    }

    /** Every pipe of a valid network has a positive diameter and length, and its flow in table order. */
    lemma PositiveSizes()
      requires Valid()
      ensures forall i :: 0 <= i < |pipeConnections| ==>
        PipeList()[i].diameter > 0.0 && PipeList()[i].length > 0.0 && PipeList()[i].flowRate == Flows()[i]
    {
      forall i | 0 <= i < |pipeConnections|
        ensures PipeList()[i].diameter > 0.0 && PipeList()[i].length > 0.0 && PipeList()[i].flowRate == Flows()[i]
      {
        assert PipeAgrees(PipeList()[i], pipeConnections[i]);
      }
    }

    /**
     * Every pipe is listed once at its start node, once at its end node and
     * nowhere else.
     */
    lemma ListedAtEnds(i: int, v: char)
      requires Valid() && 0 <= i < |pipeConnections| && v in nodes
      ensures multiset(nodes[v].connectedPipes)[PipeList()[i]] == EndsAt(pipeConnections[i], v)
      ensures v == pipeConnections[i].start || v == pipeConnections[i].end
              <==> multiset(nodes[v].connectedPipes)[PipeList()[i]] == 1
    {
      IncidentMultiplicity(PipeList(), pipeConnections, v, i);
    }

    /**
     * Each node lists as many pipes as it has pipe ends, and the lists of
     * the ten nodes hold two entries per pipe.
     */
    lemma ListSizes()
      requires Valid()
      ensures forall v :: v in nodes ==> |nodes[v].connectedPipes| == Degree(pipeConnections, v)
      ensures DegreeSum(pipeConnections, NodeNames) == 2 * |pipeConnections|
    {
      PipeConnectionsWellFormed();
      Handshake(pipeConnections, NodeNames);
    }

    /** Over a table with the program's degrees, each node lists that many pipes. */
    lemma SourceListSizes()
      requires Valid() && HasSourceDegrees(pipeConnections)
      ensures forall v :: v in nodes ==> |nodes[v].connectedPipes| == SourceDegree(v)
    {
      ListSizes();
      SourceDegreesAt(pipeConnections);
    }

    /**
     * The net flow at each node, in node order: the flows of the node's
     * pipes, counted positive where the node is the pipe's start node. For
     * every choice of flow rates these equal the specification's net flows
     * and add up to zero.
     */
    function CheckNodeFlows(): (r: seq<real>)
      reads this, nodes.Values, pipes.Values
      requires Valid()
      ensures |r| == |NodeNames|
      ensures forall k :: 0 <= k < |NodeNames| ==> r[k] == NetFlow(pipeConnections, Flows(), NodeNames[k])
      ensures Sum(r) == 0.0
    {
      NodeFlowsAgree(NodeNames);
      NetworkFlowsCancel(pipeConnections, Flows());
      NodeFlowsOf(NodeNames)
    }

    function NodeFlowsOf(ns: seq<char>): (r: seq<real>)
      reads this, nodes.Values, pipes.Values
      requires Valid()
      requires forall k :: 0 <= k < |ns| ==> ns[k] in nodes
      ensures |r| == |ns|
    {
      if ns == [] then []
      else
        [SignedSum(nodes[ns[0]], nodes[ns[0]].connectedPipes)] + NodeFlowsOf(ns[1..])
    }

    lemma {:induction false} NodeFlowsAgree(ns: seq<char>)
      requires Valid()
      requires forall k :: 0 <= k < |ns| ==> ns[k] in nodes
      ensures NodeFlowsOf(ns) == NetFlows(pipeConnections, Flows(), ns)
    {
      if ns != [] {
        var v := ns[0];
        forall i | 0 <= i < |pipeConnections|
          ensures (PipeList()[i].startNode == nodes[v] <==> pipeConnections[i].start == v)
        {
          assert PipeAgrees(PipeList()[i], pipeConnections[i]);
          assert nodes[pipeConnections[i].start].name == pipeConnections[i].start;
        }
        SignedSumIsNetFlow(nodes[v], PipeList(), pipeConnections, v);
        NodeFlowsAgree(ns[1..]);
      }
    }

    /**
     * For each node pair, the start node's pressure minus the end node's.
     * Around the closed five-pair loop they add up to zero; the four-pair
     * list leaves p(a) - p(h).
     */
    function CheckLoopHeadLoss(loops: seq<(char, char)>): (r: seq<real>)
      reads this, nodes.Values
      requires forall v :: v in NodeNames ==> v in nodes
      requires forall k :: 0 <= k < |loops| ==> loops[k].0 in nodes && loops[k].1 in nodes
      ensures |r| == |loops|
      ensures forall k :: 0 <= k < |loops| ==> r[k] == nodes[loops[k].0].pressure - nodes[loops[k].1].pressure
      ensures loops == ClosedLoop ==> Sum(r) == 0.0
      ensures loops == FourPairLoop ==> Sum(r) == nodes['a'].pressure - nodes['h'].pressure
    {
      ClosedLoopCancels(Pressures());
      FourPairLoopSum(Pressures());
      LoopDeltas(Pressures(), loops)
    }

    /**
     * The head loss of every pipe, in table order. Every flow rate must be
     * nonzero (right after construction they all are zero, which divides
     * by zero). Entry i is the head loss of the i-th pipe of the table, and
     * it has the sign of that pipe's flow.
     */
    function CalculateHeadLoss(pi: real): (r: seq<real>)
      reads this, nodes.Values, pipes.Values
      requires Valid() && pi > 0.0
      requires forall i :: 0 <= i < |pipeConnections| ==> Flows()[i] != 0.0
      ensures |r| == |pipeConnections|
      ensures forall i :: 0 <= i < |pipeConnections| ==> (r[i] > 0.0 <==> Flows()[i] > 0.0) && (r[i] < 0.0 <==> Flows()[i] < 0.0)
      ensures forall i :: 0 <= i < |pipeConnections| ==>
        PipeList()[i].diameter > 0.0 && PipeList()[i].length > 0.0 && PipeList()[i].flowRate == Flows()[i] &&
        r[i] == PipeList()[i].CalculateFlowRate(pi)
    {
      var ps := PipeList();
      PositiveSizes();
      HeadLossesOf(pi, ps)
    }
  }

  /** In the program's own network a, d, h and j list two pipes and the other nodes three. */
  lemma ProgramListSizes(net: PipeNetwork)
    requires net.Valid() && net.pipeConnections == PipeConnections
    ensures forall v :: v in net.nodes ==> |net.nodes[v].connectedPipes| == SourceDegree(v)
  {
    ProgramTableDegrees();
    net.SourceListSizes();
  }

  /**
   * The network the program builds: its own connection table, with the
   * properties its pipe-property lookup gives each pipe name.
   */
  method NewNetwork() returns (net: PipeNetwork)
    ensures fresh(net) && fresh(net.nodes.Values)
    ensures net.Valid() && net.pipeConnections == PipeConnections
    ensures forall v :: v in net.nodes ==> net.nodes[v].pressure == 80.0
    ensures net.Flows() == seq(|PipeConnections|, _ => 0.0)
    ensures forall i :: 0 <= i < |PipeConnections| ==>
      PipeConnections[i].name in PropertyTable
      && GetPipeProperties(PipeConnections[i].name)
         == Properties(net.PipeList()[i].diameter, net.PipeList()[i].length, net.PipeList()[i].roughness)
  {
    SourceTablesAgree();
    net := new PipeNetwork(PipeConnections, PropertyTable);
  }

  /** The ten nodes a..j at the default pressure, keyed by name, each with no pipes yet. */
  method MakeNodes() returns (ns: map<char, Node>)
    ensures forall v :: v in ns <==> v in NodeNames
    ensures forall v :: v in ns ==> fresh(ns[v]) && ns[v].name == v && ns[v].pressure == 80.0
    ensures forall v :: v in ns ==> ns[v].connectedPipes == []
  {
    ns := map[];
    for k := 0 to |NodeNames|
      invariant forall v :: v in ns <==> v in NodeNames[..k]
      invariant forall v :: v in ns ==> fresh(ns[v]) && ns[v].name == v && ns[v].pressure == 80.0
      invariant forall v :: v in ns ==> ns[v].connectedPipes == []
    {
      var node := new Node(NodeNames[k]);
      ns := ns[NodeNames[k] := node];
    }
    assert NodeNames[..|NodeNames|] == NodeNames;
  }

  /**
   * The pipes made for the first entries of a connection table join the
   * nodes named by their entries and have the properties the table gives
   * their names.
   */
  ghost predicate Agree(ns: map<char, Node>, t: seq<Connection>, table: map<string, Properties>, made: seq<Pipe>)
  {
    |made| == |t|
    && forall j :: 0 <= j < |t| ==>
         t[j].start in ns && t[j].end in ns && t[j].name in table
         && made[j].startNode == ns[t[j].start] && made[j].endNode == ns[t[j].end]
         && Properties(made[j].diameter, made[j].length, made[j].roughness) == table[t[j].name]
  }

  lemma AgreeStep(ns: map<char, Node>, t: seq<Connection>, table: map<string, Properties>, made: seq<Pipe>,
                  c: Connection, pipe: Pipe)
    requires Agree(ns, t, table, made)
    requires c.start in ns && c.end in ns && c.name in table
    requires pipe.startNode == ns[c.start] && pipe.endNode == ns[c.end]
    requires Properties(pipe.diameter, pipe.length, pipe.roughness) == table[c.name]
    ensures Agree(ns, t + [c], table, made + [pipe])
  {
  }

  /**
   * The state-independent part of what building the pipes has established
   * after the first i entries: the pipes so far, all distinct, keyed by name.
   */
  ghost predicate Laid(ns: map<char, Node>, t: seq<Connection>, table: map<string, Properties>,
                       i: int, ps: map<string, Pipe>, made: seq<Pipe>)
  {
    0 <= i <= |t| && |made| == i
    && ps == ByName(t[..i], made)
    && Distinct(made)
    && Agree(ns, t[..i], table, made)
  }

  lemma LaidStep(ns: map<char, Node>, t: seq<Connection>, table: map<string, Properties>,
                 i: int, ps: map<string, Pipe>, made: seq<Pipe>, pipe: Pipe)
    requires Laid(ns, t, table, i, ps, made) && i < |t| && pipe !in made
    requires t[i].start in ns && t[i].end in ns && t[i].name in table
    requires pipe.startNode == ns[t[i].start] && pipe.endNode == ns[t[i].end]
    requires Properties(pipe.diameter, pipe.length, pipe.roughness) == table[t[i].name]
    ensures Laid(ns, t, table, i + 1, ps[t[i].name := pipe], made + [pipe])
  {
    TakeNext(t, i);
    ByNameAppend(t[..i], made, t[i], pipe);
    AgreeStep(ns, t[..i], table, made, t[i], pipe);
    DistinctSnoc(made, pipe);
  }

  /** The pipe list of every node, by name. */
  function Lists(ns: map<char, Node>): (r: map<char, seq<Pipe>>)
    reads ns.Values
    ensures r.Keys == ns.Keys
    ensures forall v :: v in ns ==> r[v] == ns[v].connectedPipes
  {
    map v | v in ns :: ns[v].connectedPipes
  }

  /**
   * What building the pipes has established after the first i entries: the
   * pipes so far, and every node's list holding exactly its pipes among
   * them, in table order.
   */
  ghost predicate Building(ns: map<char, Node>, t: seq<Connection>, table: map<string, Properties>,
                           i: int, ps: map<string, Pipe>, made: seq<Pipe>)
    reads ns.Values
  {
    Laid(ns, t, table, i, ps, made) && Registered(Lists(ns), made, t[..i])
  }

  /**
   * A new pipe for connection c, with its properties looked up by name and
   * no flow, registered at its start node and then at its end node.
   */
  method NewPipe(ns: map<char, Node>, c: Connection, table: map<string, Properties>, made: seq<Pipe>)
    returns (pipe: Pipe)
    requires c.start in ns && c.end in ns && c.name in table
    requires forall v :: v in ns ==> ns[v].name == v
    modifies {ns[c.start], ns[c.end]}`connectedPipes
    ensures fresh(pipe) && pipe.flowRate == 0.0
    ensures pipe.startNode == ns[c.start] && pipe.endNode == ns[c.end]
    ensures Properties(pipe.diameter, pipe.length, pipe.roughness) == table[c.name]
    ensures forall v :: v in ns ==> Lists(ns)[v] == old(Lists(ns))[v] + Listed(pipe, c, v)
    ensures forall j :: 0 <= j < |made| ==> made[j].flowRate == old(made[j].flowRate)
  {
    var props := table[c.name];
    pipe := new Pipe(props.diameter, props.length, props.roughness, ns[c.start], ns[c.end]);
    ns[c.start].AddPipe(pipe);
    ns[c.end].AddPipe(pipe);
  }

  /** One step of building the pipes: the pipe for entry i of t. */
  method AddConnection(ns: map<char, Node>, t: seq<Connection>, table: map<string, Properties>,
                       i: int, ps: map<string, Pipe>, made: seq<Pipe>, ghost nodeSet: set<Node>)
    returns (ps': map<string, Pipe>, made': seq<Pipe>, pipe: Pipe)
    requires forall v :: v in ns ==> ns[v] in nodeSet && ns[v].name == v
    requires Building(ns, t, table, i, ps, made) && i < |t|
    requires t[i].start in ns && t[i].end in ns && t[i].name in table
    requires forall j :: 0 <= j < i ==> made[j].flowRate == 0.0
    modifies nodeSet`connectedPipes
    ensures Building(ns, t, table, i + 1, ps', made')
    ensures forall j :: 0 <= j < i + 1 ==> made'[j].flowRate == 0.0
    ensures made' == made + [pipe] && fresh(pipe)
  {
    var c := t[i];
    ghost var before := Lists(ns);
    pipe := NewPipe(ns, c, table, made);
    RegisteredStep(before, Lists(ns), made, t[..i], pipe, c);
    ps' := ps[c.name := pipe];
    LaidStep(ns, t, table, i, ps, made, pipe);
    TakeNext(t, i);
    made' := made + [pipe];
    assert Laid(ns, t, table, i + 1, ps', made');
  }

  /**
   * One new pipe per table entry, in table order; also returns the pipes in
   * that order.
   */
  method MakePipes(ns: map<char, Node>, t: seq<Connection>, table: map<string, Properties>, ghost nodeSet: set<Node>)
    returns (ps: map<string, Pipe>, made: seq<Pipe>)
    requires forall v :: v in ns ==> ns[v] in nodeSet && ns[v].name == v && ns[v].connectedPipes == []
    requires forall i, j :: 0 <= i < j < |t| ==> t[i].name != t[j].name
    requires forall i :: 0 <= i < |t| ==> t[i].start in ns && t[i].end in ns && t[i].name in table
    modifies nodeSet`connectedPipes
    ensures Building(ns, t, table, |t|, ps, made)
    ensures forall j :: 0 <= j < |t| ==> made[j].flowRate == 0.0
  {
    ps := map[];
    made := [];
    for i := 0 to |t|
      invariant Building(ns, t, table, i, ps, made)
      invariant forall j :: 0 <= j < i ==> made[j].flowRate == 0.0
    {
      var pipe;
      ps, made, pipe := AddConnection(ns, t, table, i, ps, made, nodeSet);
    }
  }

  /**
   * The conditions of PipeNetwork.Valid restated over plain values, before
   * the fields are assigned: the construction proves this heap-free form,
   * and Established turns it into Valid once the fields hold the values.
   *
   * The shape of a network built from a well-formed connection table t and
   * a property table: the nodes of NodeNames, each named by its key; one
   * pipe per entry, keyed by its name and listed in table order, no two
   * entries sharing a pipe; each pipe joining the nodes of its entry, with
   * the properties the table gives its name.
   */
  ghost predicate Shaped(ns: map<char, Node>, t: seq<Connection>, table: map<string, Properties>,
                         ps: map<string, Pipe>, made: seq<Pipe>)
  {
    (forall v :: v in ns <==> v in NodeNames)
    && (forall v :: v in ns ==> ns[v].name == v)
    && WellFormed(t)
    && ps.Keys == NameSet(t) && |made| == |t|
    && (forall i :: 0 <= i < |t| ==> ps[t[i].name] == made[i])
    && Distinct(made)
    && (forall i :: 0 <= i < |t| ==>
          made[i].startNode == ns[t[i].start] && made[i].endNode == ns[t[i].end]
          && t[i].name in table
          && Properties(made[i].diameter, made[i].length, made[i].roughness) == table[t[i].name]
          && made[i].diameter > 0.0 && made[i].length > 0.0 && made[i].roughness > 0.0)
  }

  /** With every flow rate zero, the flow rates in order are all zero. */
  lemma ZeroFlowRates(made: seq<Pipe>)
    requires forall i :: 0 <= i < |made| ==> made[i].flowRate == 0.0
    ensures FlowRates(made) == seq(|made|, _ => 0.0)
  {
  }

  /**
   * Builds the nodes of NodeNames at the default pressure and one pipe per
   * entry of a well-formed connection table t; also returns the pipes in
   * table order.
   */
  method Build(t: seq<Connection>, table: map<string, Properties>)
    returns (ns: map<char, Node>, ps: map<string, Pipe>, made: seq<Pipe>)
    requires TablesAgree(t, table)
    ensures Shaped(ns, t, table, ps, made)
    ensures forall v :: v in ns ==> ns[v].connectedPipes == IncidentOf(made, t, v)
    ensures forall i :: 0 <= i < |made| ==> made[i].flowRate == 0.0
    ensures forall v :: v in ns ==> ns[v].pressure == 80.0
    ensures fresh(ns.Values)
  {
    ns := MakeNodes();
    ps, made := MakePipes(ns, t, table, ns.Values);
    assert t[..|t|] == t;
    ByNameKeys(t, made);
    ByNameLookup(t, made);
    forall p | p in ns.Values ensures fresh(p) {
      var v :| v in ns && ns[v] == p;
    }
  }

  /** Gives the pipes of a list of distinct pipes, in order, the given flow rates. */
  method AssignFlows(ps: seq<Pipe>, draws: seq<real>)
    requires Distinct(ps) && |draws| == |ps|
    modifies (set p | p in ps)`flowRate
    ensures FlowRates(ps) == draws
  {
    for i := 0 to |ps|
      invariant forall j :: 0 <= j < i ==> ps[j].flowRate == draws[j]
    {
      ps[i].flowRate := draws[i];
    }
  }

  /** The head losses of a list of pipes of positive size with nonzero flows. */
  function HeadLossesOf(pi: real, ps: seq<Pipe>): (r: seq<real>)
    reads ps
    requires pi > 0.0
    requires forall i :: 0 <= i < |ps| ==> ps[i].diameter > 0.0 && ps[i].length > 0.0 && ps[i].flowRate != 0.0
    ensures |r| == |ps|
    ensures forall i :: 0 <= i < |ps| ==> (r[i] > 0.0 <==> ps[i].flowRate > 0.0) && (r[i] < 0.0 <==> ps[i].flowRate < 0.0)
    ensures forall i :: 0 <= i < |ps| ==> r[i] == ps[i].CalculateFlowRate(pi)
  {
    if ps == [] then [] else [ps[0].CalculateFlowRate(pi)] + HeadLossesOf(pi, ps[1..])
  }
}
