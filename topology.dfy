/**
 * The fixed layout of the pipe network as values: the ten node names, the
 * connection table of the thirteen pipes, the table of pipe properties, and
 * specification functions over them (incidence lists, degrees, signed net
 * flows, pressure differences along a list of node pairs).
 */
module Topology {

  /** One entry of the connection table: a pipe name and its start and end node. */
  datatype Connection = Connection(name: string, start: char, end: char)

  /** Diameter (inches), length (inches) and roughness (ft) of a pipe. */
  datatype Properties = Properties(diameter: real, length: real, roughness: real)

  /** The node names, in the order the network creates its nodes. */
  const NodeNames: seq<char> := ['a', 'b', 'c', 'd', 'e', 'f', 'g', 'h', 'i', 'j']

  /** The connection table, in insertion order. */
  const PipeConnections: seq<Connection> := [
    Connection("a-b", 'a', 'b'),
    Connection("a-h", 'a', 'h'),
    Connection("b-c", 'b', 'c'),
    Connection("b-e", 'b', 'e'),
    Connection("c-d", 'c', 'd'),
    Connection("c-f", 'c', 'f'),
    Connection("d-g", 'd', 'g'),
    Connection("e-f", 'e', 'f'),
    Connection("e-i", 'e', 'i'),
    Connection("f-g", 'f', 'g'),
    Connection("g-j", 'g', 'j'),
    Connection("h-i", 'h', 'i'),
    Connection("i-j", 'i', 'j')
  ]

  /** The property table that the pipe-property lookup consults. */
  const PropertyTable: map<string, Properties> := map[
    "a-b" := Properties(18.0, 1000.0, 0.00085),
    "a-h" := Properties(24.0, 1600.0, 0.00085),
    "b-c" := Properties(18.0, 500.0, 0.00085),
    "b-e" := Properties(16.0, 800.0, 0.00085),
    "c-d" := Properties(18.0, 500.0, 0.00085),
    "c-f" := Properties(16.0, 800.0, 0.00085),
    "d-g" := Properties(16.0, 800.0, 0.00085),
    "e-f" := Properties(12.0, 500.0, 0.00085),
    "e-i" := Properties(18.0, 800.0, 0.003),
    "f-g" := Properties(12.0, 500.0, 0.00085),
    "g-j" := Properties(18.0, 800.0, 0.003),
    "h-i" := Properties(24.0, 1000.0, 0.003),
    "i-j" := Properties(24.0, 1000.0, 0.003)
  ]

  /** The pipe names of a connection table, in order. */
  function Names(t: seq<Connection>): (r: seq<string>)
    ensures |r| == |t|
    ensures forall i :: 0 <= i < |t| ==> r[i] == t[i].name
  {
    if t == [] then [] else Names(t[..|t| - 1]) + [t[|t| - 1].name]
  }

  /**
   * Looks a pipe up in the property table. Only the thirteen pipe names have
   * an entry (any other name is a missing key), and every entry is a pipe of
   * positive diameter, length and roughness.
   */
  function GetPipeProperties(name: string): (p: Properties)
    requires name in PropertyTable
    ensures p.diameter > 0.0 && p.length > 0.0 && p.roughness > 0.0
  {
    PropertyTable[name]
  }

  /** Every pipe of the property table has a positive size. */
  lemma PropertyTablePositive()
    ensures forall n :: n in PropertyTable ==>
      PropertyTable[n].diameter > 0.0 && PropertyTable[n].length > 0.0 && PropertyTable[n].roughness > 0.0
  {
    forall n | n in PropertyTable
      ensures PropertyTable[n].diameter > 0.0 && PropertyTable[n].length > 0.0 && PropertyTable[n].roughness > 0.0
    {
      var p := GetPipeProperties(n);
    }
  }

  /** The property table is keyed by exactly the pipe names of the connection table. */
  lemma PropertyTableKeys()
    ensures forall n :: n in PropertyTable <==> n in Names(PipeConnections)
  {
    assert Names(PipeConnections) == ["a-b", "a-h", "b-c", "b-e", "c-d", "c-f", "d-g", "e-f", "e-i", "f-g", "g-j", "h-i", "i-j"];
  }

  /** Each pipe name is its start node, a dash and its end node. */
  lemma NamesSpellEnds()
    ensures forall i :: 0 <= i < |PipeConnections| ==>
      |PipeConnections[i].name| == 3
      && PipeConnections[i].name[0] == PipeConnections[i].start
      && PipeConnections[i].name[1] == '-'
      && PipeConnections[i].name[2] == PipeConnections[i].end
  {
  }

  /** Connection c comes before d when its (start, end) pair is lexicographically smaller. */
  predicate Precedes(c: Connection, d: Connection)
  {
    c.start < d.start || (c.start == d.start && c.end < d.end)
  }

  /** The connection table lists its entries in strictly ascending (start, end) order. */
  lemma TableAscends()
    ensures forall k :: 0 <= k < |PipeConnections| - 1 ==> Precedes(PipeConnections[k], PipeConnections[k + 1])
  {
  }

  /** In a table whose neighbours ascend, every earlier entry precedes every later one. */
  lemma {:induction false} AscendingPrecedes(t: seq<Connection>, i: int, j: int)
    requires forall k :: 0 <= k < |t| - 1 ==> Precedes(t[k], t[k + 1])
    requires 0 <= i < j < |t|
    ensures Precedes(t[i], t[j])
    decreases j - i
  {
    if i + 1 < j {
      AscendingPrecedes(t, i + 1, j);
    }
  }

  /** Every pipe has two distinct endpoints, both of them nodes. */
  lemma EndpointsAreNodes()
    ensures forall i :: 0 <= i < |PipeConnections| ==>
      PipeConnections[i].start in NodeNames && PipeConnections[i].end in NodeNames
      && PipeConnections[i].start != PipeConnections[i].end
  {
  }

  /** Every pipe has its own name, two distinct endpoints, both of them nodes. */
  lemma ConnectionTableWellFormed()
    ensures forall i, j :: 0 <= i < j < |PipeConnections| ==> PipeConnections[i].name != PipeConnections[j].name
    ensures forall i :: 0 <= i < |PipeConnections| ==>
      PipeConnections[i].start in NodeNames && PipeConnections[i].end in NodeNames
      && PipeConnections[i].start != PipeConnections[i].end
    ensures forall k, l :: 0 <= k < l < |NodeNames| ==> NodeNames[k] != NodeNames[l]
  {
    NamesSpellEnds();
    TableAscends();
    EndpointsAreNodes();
    forall i, j | 0 <= i < j < |PipeConnections|
      ensures PipeConnections[i].name != PipeConnections[j].name
    {
      AscendingPrecedes(PipeConnections, i, j);
    }
  }

  /**
   * What the network relies on in a connection table: distinct pipe names
   * and two distinct endpoints that are both nodes.
   */
  ghost predicate WellFormed(t: seq<Connection>)
  {
    (forall i, j :: 0 <= i < j < |t| ==> t[i].name != t[j].name)
    && (forall i :: 0 <= i < |t| ==> t[i].start in NodeNames && t[i].end in NodeNames && t[i].start != t[i].end)
  }

  /**
   * The network's own connection table is well formed, every one of its
   * pipes has an entry in the property table, and its node names are distinct.
   */
  lemma PipeConnectionsWellFormed()
    ensures WellFormed(PipeConnections)
    ensures forall i :: 0 <= i < |PipeConnections| ==> PipeConnections[i].name in PropertyTable
    ensures Distinct(NodeNames)
  {
    ConnectionTableWellFormed();
    PropertyTableKeys();
    forall i | 0 <= i < |PipeConnections| ensures PipeConnections[i].name in PropertyTable {
      assert Names(PipeConnections)[i] == PipeConnections[i].name;
    }
  }

  /**
   * What building a network asks of its tables: a well-formed connection
   * table whose every pipe name has an entry in the property table, and
   * entries of positive size only.
   */
  ghost predicate TablesAgree(t: seq<Connection>, table: map<string, Properties>)
  {
    WellFormed(t)
    && (forall i :: 0 <= i < |t| ==> t[i].name in table)
    && (forall n :: n in table ==> table[n].diameter > 0.0 && table[n].length > 0.0 && table[n].roughness > 0.0)
  }

  /** The network's own two tables agree. */
  lemma SourceTablesAgree()
    ensures TablesAgree(PipeConnections, PropertyTable)
  {
    PipeConnectionsWellFormed();
    PropertyTablePositive();
  }

  // ---------------------------------------------------------------------
  // Incidence lists and degrees
  // ---------------------------------------------------------------------

  /**
   * How a node's incidence list records one pipe x of connection c: once if
   * v is its start node, once more if v is its end node.
   */
  function Listed<T>(x: T, c: Connection, v: char): seq<T>
  {
    (if c.start == v then [x] else []) + (if c.end == v then [x] else [])
  }

  /** The number of ends of connection c at node v. */
  function EndsAt(c: Connection, v: char): nat
  {
    (if c.start == v then 1 else 0) + (if c.end == v then 1 else 0)
  }

  /**
   * The entries of xs (one per connection of t) that node v's incidence list
   * holds, in table order.
   */
  function IncidentOf<T>(xs: seq<T>, t: seq<Connection>, v: char): (r: seq<T>)
    requires |xs| == |t|
    ensures |r| == Degree(t, v)
    ensures forall x :: x in r ==> x in xs
  {
    if t == [] then [] else Listed(xs[0], t[0], v) + IncidentOf(xs[1..], t[1..], v)
  }

  /** The number of pipe ends of t at node v. */
  function Degree(t: seq<Connection>, v: char): nat
  {
    if t == [] then 0 else EndsAt(t[0], v) + Degree(t[1..], v)
  }

  /** Registering one more pipe appends it to the lists of its endpoints. */
  lemma {:induction false} IncidentOfAppend<T>(xs: seq<T>, t: seq<Connection>, x: T, c: Connection, v: char)
    requires |xs| == |t|
    ensures IncidentOf(xs + [x], t + [c], v) == IncidentOf(xs, t, v) + Listed(x, c, v)
  {
    if t == [] {
      assert xs + [x] == [x] && t + [c] == [c];
    } else {
      assert (xs + [x])[1..] == xs[1..] + [x];
      assert (t + [c])[1..] == t[1..] + [c];
      IncidentOfAppend(xs[1..], t[1..], x, c, v);
      var head, rest := Listed(xs[0], t[0], v), IncidentOf(xs[1..], t[1..], v);
      assert head + (rest + Listed(x, c, v)) == (head + rest) + Listed(x, c, v);
    }
  }

  /** The values xs keyed by the pipe names of t, entry by entry (a later entry wins). */
  function ByName<T>(t: seq<Connection>, xs: seq<T>): map<string, T>
    requires |xs| == |t|
  {
    if t == [] then map[] else ByName(t[..|t| - 1], xs[..|xs| - 1])[t[|t| - 1].name := xs[|xs| - 1]]
  }

  /** Keying one more value by its pipe name. */
  lemma ByNameAppend<T>(t: seq<Connection>, xs: seq<T>, c: Connection, x: T)
    requires |xs| == |t|
    ensures ByName(t + [c], xs + [x]) == ByName(t, xs)[c.name := x]
  {
    assert (t + [c])[..|t|] == t;
    assert (xs + [x])[..|xs|] == xs;
  }

  /** The set of pipe names of a connection table. */
  function NameSet(t: seq<Connection>): (r: set<string>)
    ensures forall i :: 0 <= i < |t| ==> t[i].name in r
  {
    if t == [] then {} else NameSet(t[..|t| - 1]) + {t[|t| - 1].name}
  }

  /** Every name of the set is the name of some entry. */
  lemma {:induction false} NameSetMember(t: seq<Connection>, n: string)
    requires n in NameSet(t)
    ensures exists i :: 0 <= i < |t| && t[i].name == n
  {
    var k := |t| - 1;
    if n != t[k].name {
      NameSetMember(t[..k], n);
      var i :| 0 <= i < k && t[..k][i].name == n;
      assert t[i].name == n;
    }
  }

  /** The values keyed by name have exactly the table's names as keys. */
  lemma {:induction false} ByNameKeys<T>(t: seq<Connection>, xs: seq<T>)
    requires |xs| == |t|
    ensures ByName(t, xs).Keys == NameSet(t)
  {
    if t != [] {
      ByNameKeys(t[..|t| - 1], xs[..|xs| - 1]);
    }
  }

  /** With distinct pipe names, each name finds the value of its own entry. */
  lemma {:induction false} ByNameLookup<T>(t: seq<Connection>, xs: seq<T>)
    requires |xs| == |t|
    requires forall i, j :: 0 <= i < j < |t| ==> t[i].name != t[j].name
    ensures forall i :: 0 <= i < |t| ==> t[i].name in ByName(t, xs) && ByName(t, xs)[t[i].name] == xs[i]
  {
    if t != [] {
      var n := |t| - 1;
      ByNameLookup(t[..n], xs[..n]);
      forall i | 0 <= i < |t| ensures t[i].name in ByName(t, xs) && ByName(t, xs)[t[i].name] == xs[i] {
        if i < n {
          assert t[..n][i] == t[i] && xs[..n][i] == xs[i];
        }
      }
    }
  }

  /** The entries of t that node v's list holds, for every node of a map of lists. */
  ghost predicate Registered<T>(lists: map<char, seq<T>>, xs: seq<T>, t: seq<Connection>)
  {
    |xs| == |t| && forall v :: v in lists ==> lists[v] == IncidentOf(xs, t, v)
  }

  /** Appending x to the lists of the endpoints of c registers one more entry. */
  lemma RegisteredStep<T>(before: map<char, seq<T>>, after: map<char, seq<T>>, xs: seq<T>, t: seq<Connection>,
                          x: T, c: Connection)
    requires Registered(before, xs, t)
    requires after.Keys == before.Keys
    requires forall v :: v in after ==> after[v] == before[v] + Listed(x, c, v)
    ensures Registered(after, xs + [x], t + [c])
  {
    forall v | v in after ensures after[v] == IncidentOf(xs + [x], t + [c], v) {
      IncidentOfAppend(xs, t, x, c, v);
    }
  }

  /** The sum of the degrees of the nodes ns. */
  function DegreeSum(t: seq<Connection>, ns: seq<char>): nat
  {
    if ns == [] then 0 else Degree(t, ns[0]) + DegreeSum(t, ns[1..])
  }

  /** How many times x occurs in ns. */
  function Occurrences(ns: seq<char>, x: char): nat
  {
    if ns == [] then 0 else (if ns[0] == x then 1 else 0) + Occurrences(ns[1..], x)
  }

  ghost predicate Distinct<T>(s: seq<T>)
  {
    forall k, l :: 0 <= k < l < |s| ==> s[k] != s[l]
  }

  lemma DistinctSnoc<T>(s: seq<T>, x: T)
    requires Distinct(s) && x !in s
    ensures Distinct(s + [x])
  {
  }

  lemma TakeNext<T>(s: seq<T>, i: int)
    requires 0 <= i < |s|
    ensures s[..i + 1] == s[..i] + [s[i]]
  {
  }

  lemma SplitLast<T>(s: seq<T>)
    requires s != []
    ensures s == s[..|s| - 1] + [s[|s| - 1]]
  {
  }

  /** A value of a list whose entries are distinct occurs once. */
  lemma {:induction false} OccursOnce(ns: seq<char>, x: char)
    requires Distinct(ns) && x in ns
    ensures Occurrences(ns, x) == 1
  {
    if ns[0] == x {
      NotOccurring(ns[1..], x);
    } else {
      OccursOnce(ns[1..], x);
    }
  }

  lemma {:induction false} NotOccurring(ns: seq<char>, x: char)
    requires x !in ns
    ensures Occurrences(ns, x) == 0
  {
    if ns != [] {
      NotOccurring(ns[1..], x);
    }
  }

  lemma {:induction false} DegreeAppend(t: seq<Connection>, c: Connection, v: char)
    ensures Degree(t + [c], v) == Degree(t, v) + EndsAt(c, v)
  {
    if t != [] {
      assert (t + [c])[1..] == t[1..] + [c];
      DegreeAppend(t[1..], c, v);
    }
  }

  /** Appending one connection adds its two ends to the degree sum. */
  lemma {:induction false} DegreeSumAppend(t: seq<Connection>, c: Connection, ns: seq<char>)
    ensures DegreeSum(t + [c], ns) == DegreeSum(t, ns) + Occurrences(ns, c.start) + Occurrences(ns, c.end)
  {
    if ns != [] {
      DegreeAppend(t, c, ns[0]);
      DegreeSumAppend(t, c, ns[1..]);
    }
  }

  /**
   * Handshake: when the nodes are distinct and hold every endpoint, the
   * degrees add up to twice the number of pipes.
   */
  lemma {:induction false} Handshake(t: seq<Connection>, ns: seq<char>)
    requires Distinct(ns)
    requires forall i :: 0 <= i < |t| ==> t[i].start in ns && t[i].end in ns
    ensures DegreeSum(t, ns) == 2 * |t|
  {
    if t == [] {
      ZeroDegreeSum(ns);
    } else {
      var k := |t| - 1;
      Handshake(t[..k], ns);
      assert t == t[..k] + [t[k]];
      DegreeSumAppend(t[..k], t[k], ns);
      OccursOnce(ns, t[k].start);
      OccursOnce(ns, t[k].end);
    }
  }

  lemma {:induction false} ZeroDegreeSum(ns: seq<char>)
    ensures DegreeSum([], ns) == 0
  {
    if ns != [] {
      ZeroDegreeSum(ns[1..]);
    }
  }

  /**
   * An entry of a list of distinct entries is listed at node v once for each
   * of its ends at v: exactly once at each endpoint of a pipe with two
   * distinct endpoints, nowhere else.
   */
  lemma {:induction false} IncidentMultiplicity<T>(xs: seq<T>, t: seq<Connection>, v: char, i: nat)
    requires |xs| == |t| && Distinct(xs) && i < |t|
    ensures multiset(IncidentOf(xs, t, v))[xs[i]] == EndsAt(t[i], v)
  {
    var rest := IncidentOf(xs[1..], t[1..], v);
    assert IncidentOf(xs, t, v) == Listed(xs[0], t[0], v) + rest;
    assert multiset(Listed(xs[0], t[0], v) + rest) == multiset(Listed(xs[0], t[0], v)) + multiset(rest);
    if i == 0 {
      assert xs[0] !in xs[1..];
      NotIncident(xs[1..], t[1..], v, xs[0]);
      assert multiset(Listed(xs[0], t[0], v))[xs[0]] == EndsAt(t[0], v);
    } else {
      assert Distinct(xs[1..]);
      IncidentMultiplicity(xs[1..], t[1..], v, i - 1);
      assert xs[1..][i - 1] == xs[i] && xs[i] != xs[0];
      assert multiset(Listed(xs[0], t[0], v))[xs[i]] == 0;
    }
  }

  lemma NotIncident<T>(xs: seq<T>, t: seq<Connection>, v: char, x: T)
    requires |xs| == |t| && x !in xs
    ensures multiset(IncidentOf(xs, t, v))[x] == 0
  {
    assert x !in IncidentOf(xs, t, v);
  }

  /** The degrees of the ten nodes of the network and their total (2 x 13). */
  lemma NetworkDegrees()
    ensures Degree(PipeConnections, 'a') == 2 && Degree(PipeConnections, 'b') == 3
    ensures Degree(PipeConnections, 'c') == 3 && Degree(PipeConnections, 'd') == 2
    ensures Degree(PipeConnections, 'e') == 3 && Degree(PipeConnections, 'f') == 3
    ensures Degree(PipeConnections, 'g') == 3 && Degree(PipeConnections, 'h') == 2
    ensures Degree(PipeConnections, 'i') == 3 && Degree(PipeConnections, 'j') == 2
    ensures DegreeSum(PipeConnections, NodeNames) == 26
  {
    DegreeA(); DegreeB(); DegreeC(); DegreeD(); DegreeE();
    DegreeF(); DegreeG(); DegreeH(); DegreeI(); DegreeJ();
    ConnectionTableWellFormed();
    Handshake(PipeConnections, NodeNames);
  }

  /** The degree of node v in the program's table: 2 for a, d, h and j, 3 for the other nodes. */
  function SourceDegree(v: char): nat
  {
    if v in ['a', 'd', 'h', 'j'] then 2 else 3
  }

  /** A table under which the ten nodes have the degrees of the program's own table. */
  ghost predicate HasSourceDegrees(t: seq<Connection>)
  {
    Degree(t, 'a') == 2 && Degree(t, 'b') == 3 && Degree(t, 'c') == 3 && Degree(t, 'd') == 2
    && Degree(t, 'e') == 3 && Degree(t, 'f') == 3 && Degree(t, 'g') == 3 && Degree(t, 'h') == 2
    && Degree(t, 'i') == 3 && Degree(t, 'j') == 2
  }

  /** Under such a table each of the ten nodes has its degree in the program's table. */
  lemma SourceDegreesAt(t: seq<Connection>)
    requires HasSourceDegrees(t)
    ensures forall v :: v in NodeNames ==> Degree(t, v) == SourceDegree(v)
  {
  }

  /** The program's own table has those degrees. */
  lemma ProgramTableDegrees()
    ensures HasSourceDegrees(PipeConnections)
  {
    NetworkDegrees();
  }

  lemma DegreeA() ensures Degree(PipeConnections, 'a') == 2 {}
  lemma DegreeB() ensures Degree(PipeConnections, 'b') == 3 {}
  lemma DegreeC() ensures Degree(PipeConnections, 'c') == 3 {}
  lemma DegreeD() ensures Degree(PipeConnections, 'd') == 2 {}
  lemma DegreeE() ensures Degree(PipeConnections, 'e') == 3 {}
  lemma DegreeF() ensures Degree(PipeConnections, 'f') == 3 {}
  lemma DegreeG() ensures Degree(PipeConnections, 'g') == 3 {}
  lemma DegreeH() ensures Degree(PipeConnections, 'h') == 2 {}
  lemma DegreeI() ensures Degree(PipeConnections, 'i') == 3 {}
  lemma DegreeJ() ensures Degree(PipeConnections, 'j') == 2 {}

  // ---------------------------------------------------------------------
  // Net flow at a node
  // ---------------------------------------------------------------------

  /**
   * What a pipe of connection c carrying q adds to the net flow of node v,
   * over its appearances in v's list: +q for each appearance when v is its
   * start node, -q when v is only its end node.
   */
  function Contribution(c: Connection, q: real, v: char): real
  {
    (if c.start == v then q else 0.0)
    + (if c.end == v then (if c.start == v then q else -q) else 0.0)
  }

  /** The net flow at node v for pipe flows given in table order. */
  function NetFlow(t: seq<Connection>, flows: seq<real>, v: char): real
    requires |flows| == |t|
  {
    if t == [] then 0.0 else Contribution(t[0], flows[0], v) + NetFlow(t[1..], flows[1..], v)
  }

  /** The net flows at the nodes ns, in order. */
  function NetFlows(t: seq<Connection>, flows: seq<real>, ns: seq<char>): (r: seq<real>)
    requires |flows| == |t|
    ensures |r| == |ns|
    ensures forall k :: 0 <= k < |ns| ==> r[k] == NetFlow(t, flows, ns[k])
  {
    if ns == [] then [] else [NetFlow(t, flows, ns[0])] + NetFlows(t, flows, ns[1..])
  }

  function Sum(xs: seq<real>): real
  {
    if xs == [] then 0.0 else xs[0] + Sum(xs[1..])
  }

  /** Appending one pipe adds its contribution to every node's net flow. */
  lemma {:induction false} NetFlowAppend(t: seq<Connection>, flows: seq<real>, c: Connection, q: real, v: char)
    requires |flows| == |t|
    ensures NetFlow(t + [c], flows + [q], v) == NetFlow(t, flows, v) + Contribution(c, q, v)
  {
    if t != [] {
      assert (t + [c])[1..] == t[1..] + [c];
      assert (flows + [q])[1..] == flows[1..] + [q];
      NetFlowAppend(t[1..], flows[1..], c, q, v);
    }
  }

  /** Over distinct nodes one pipe adds +q at its start and -q at its end. */
  lemma {:induction false} SumAppendFlow(t: seq<Connection>, flows: seq<real>, c: Connection, q: real, ns: seq<char>)
    requires |flows| == |t| && c.start != c.end && Distinct(ns)
    ensures Sum(NetFlows(t + [c], flows + [q], ns))
            == Sum(NetFlows(t, flows, ns)) + (if c.start in ns then q else 0.0) - (if c.end in ns then q else 0.0)
  {
    if ns != [] {
      NetFlowAppend(t, flows, c, q, ns[0]);
      assert Distinct(ns[1..]);
      assert ns[0] !in ns[1..];
      SumAppendFlow(t, flows, c, q, ns[1..]);
      assert c.start in ns <==> c.start == ns[0] || c.start in ns[1..];
      assert c.end in ns <==> c.end == ns[0] || c.end in ns[1..];
    }
  }

  lemma {:induction false} ZeroFlowSum(ns: seq<char>)
    ensures Sum(NetFlows([], [], ns)) == 0.0
  {
    if ns != [] {
      ZeroFlowSum(ns[1..]);
    }
  }

  /**
   * Conservation: whatever the flows, when no pipe starts and ends at the
   * same node and the distinct nodes ns hold every endpoint, the net flows
   * of the nodes cancel.
   */
  lemma {:induction false} NetFlowsCancel(t: seq<Connection>, flows: seq<real>, ns: seq<char>)
    requires |flows| == |t| && Distinct(ns)
    requires forall i :: 0 <= i < |t| ==> t[i].start in ns && t[i].end in ns && t[i].start != t[i].end
    ensures Sum(NetFlows(t, flows, ns)) == 0.0
  {
    if t == [] {
      ZeroFlowSum(ns);
    } else {
      var k := |t| - 1;
      var front, first := t[..k], flows[..k];
      assert forall i :: 0 <= i < k ==> front[i] == t[i];
      NetFlowsCancel(front, first, ns);
      SplitLast(t);
      SplitLast(flows);
      SumAppendFlow(front, first, t[k], flows[k], ns);
    }
  }

  /** Over a well-formed table the net flows at the ten nodes always sum to zero. */
  lemma NetworkFlowsCancel(t: seq<Connection>, flows: seq<real>)
    requires WellFormed(t) && |flows| == |t|
    ensures Sum(NetFlows(t, flows, NodeNames)) == 0.0
  {
    PipeConnectionsWellFormed();
    NetFlowsCancel(t, flows, NodeNames);
  }

  // ---------------------------------------------------------------------
  // Pressure differences along node pairs
  // ---------------------------------------------------------------------

  /** The node pairs whose pressure differences the four-pair variant reports. */
  const FourPairLoop: seq<(char, char)> := [('a', 'b'), ('b', 'e'), ('e', 'i'), ('i', 'h')]

  /** The node pairs whose pressure differences the five-pair variant reports. */
  const ClosedLoop: seq<(char, char)> := [('a', 'b'), ('b', 'e'), ('e', 'i'), ('i', 'h'), ('h', 'a')]

  ghost predicate PairsIn(loops: seq<(char, char)>, pressure: map<char, real>)
  {
    forall k :: 0 <= k < |loops| ==> loops[k].0 in pressure && loops[k].1 in pressure
  }

  /** For each pair, the start node's pressure minus the end node's pressure. */
  function LoopDeltas(pressure: map<char, real>, loops: seq<(char, char)>): (r: seq<real>)
    requires PairsIn(loops, pressure)
    ensures |r| == |loops|
    ensures forall k :: 0 <= k < |loops| ==> r[k] == pressure[loops[k].0] - pressure[loops[k].1]
  {
    if loops == [] then []
    else [pressure[loops[0].0] - pressure[loops[0].1]] + LoopDeltas(pressure, loops[1..])
  }

  /** Each pair ends where the next one starts. */
  ghost predicate Chained(loops: seq<(char, char)>)
  {
    forall k :: 0 <= k < |loops| - 1 ==> loops[k].1 == loops[k + 1].0
  }

  /** Along a chain the differences telescope to first start minus last end. */
  lemma {:induction false} DeltasTelescope(pressure: map<char, real>, loops: seq<(char, char)>)
    requires PairsIn(loops, pressure) && Chained(loops) && loops != []
    ensures Sum(LoopDeltas(pressure, loops)) == pressure[loops[0].0] - pressure[loops[|loops| - 1].1]
  {
    if |loops| > 1 {
      DeltasTelescope(pressure, loops[1..]);
      assert loops[1..][0].0 == loops[0].1;
    }
  }

  /** Around the closed five-pair loop the differences cancel for any pressures. */
  lemma ClosedLoopCancels(pressure: map<char, real>)
    requires forall v :: v in NodeNames ==> v in pressure
    ensures PairsIn(ClosedLoop, pressure)
    ensures Sum(LoopDeltas(pressure, ClosedLoop)) == 0.0
  {
    DeltasTelescope(pressure, ClosedLoop);
  }

  /** The four-pair list stops at h, so its differences add up to p(a) - p(h). */
  lemma FourPairLoopSum(pressure: map<char, real>)
    requires forall v :: v in NodeNames ==> v in pressure
    ensures PairsIn(FourPairLoop, pressure)
    ensures Sum(LoopDeltas(pressure, FourPairLoop)) == pressure['a'] - pressure['h']
  {
    DeltasTelescope(pressure, FourPairLoop);
  }

  /** When all nodes have the same pressure every difference is zero. */
  lemma UniformPressureDeltas(pressure: map<char, real>, loops: seq<(char, char)>, p: real)
    requires PairsIn(loops, pressure)
    requires forall v :: v in pressure ==> pressure[v] == p
    ensures forall k :: 0 <= k < |loops| ==> LoopDeltas(pressure, loops)[k] == 0.0
  {
  }
}
