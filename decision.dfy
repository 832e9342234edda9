/**
 * The decision mode: the defined centers are the nodes of a graph whose
 * edges are the defined channels joining two defined centers; a depth-first
 * search counts its connected components, and the count names the mode.
 */
module Decision {
  import opened Wrappers
  import opened Centers
  import opened Channels

  /** Adjacency lists, `graph` in the code. */
  type Graph = map<Center, seq<Center>>

  /** `graph.get(node, [])`. */
  function Neighbours(g: Graph, c: Center): seq<Center>
  {
    if c in g then g[c] else []
  }

  predicate Adjacent(g: Graph, a: Center, b: Center)
  {
    b in Neighbours(g, a)
  }

  // ---------------------------------------------------------------------------
  // Building the graph

  /** The two guarded appends that join `a` and `b` in both directions. */
  function Link(g: Graph, a: Center, b: Center): (r: Graph)
    requires a in g && b in g
    ensures r.Keys == g.Keys
  {
    var g1 := if b in g[a] then g else g[a := g[a] + [b]];
    if a in g1[b] then g1 else g1[b := g1[b] + [a]]
  }

  /** Linking adds exactly the edge between `a` and `b`, both ways. */
  lemma LinkEdges(g: Graph, a: Center, b: Center)
    requires a in g && b in g
    ensures forall x, y :: Adjacent(Link(g, a, b), x, y) <==> Adjacent(g, x, y) || (x == a && y == b) || (x == b && y == a)
  {
  }

  /** One defined channel: its centers, looked up by normalised key in `table`, are joined when both are defined. */
  function AddChannel(table: map<Key, (Center, Center)>, state: CenterState, g: Graph, channel: Key): (r: Graph)
    requires g.Keys == set c | c in DefinedList(state)
    ensures r.Keys == g.Keys
  {
    var key := Normalize(channel.0, channel.1);
    if key in table then
      var (c1, c2) := table[key];
      if c1 in DefinedList(state) && c2 in DefinedList(state) then Link(g, c1, c2) else g
    else g
  }

  /** The graph after the first `n` defined channels. */
  function GraphPrefix(table: map<Key, (Center, Center)>, state: CenterState, channels: seq<Key>, n: nat): (g: Graph)
    requires n <= |channels|
    ensures g.Keys == set c | c in DefinedList(state)
  {
    if n == 0 then map c | c in DefinedList(state) :: []
    else AddChannel(table, state, GraphPrefix(table, state, channels, n - 1), channels[n - 1])
  }

  /** The graph of a chart: its defined centers, joined by its defined channels. */
  function BuildGraph(state: CenterState, channels: seq<Key>): Graph
  {
    GraphPrefix(ChannelToCenters(), state, channels, |channels|)
  }

  /** Whether `channel` is a table channel between `a` and `b`, either way round. */
  predicate JoinsBy(table: map<Key, (Center, Center)>, channel: Key, a: Center, b: Center)
  {
    var key := Normalize(channel.0, channel.1);
    key in table && (table[key] == (a, b) || table[key] == (b, a))
  }

  /** Whether one of the first `n` channels joins `a` and `b`. */
  predicate Joins(table: map<Key, (Center, Center)>, channels: seq<Key>, n: nat, a: Center, b: Center)
    requires n <= |channels|
  {
    n > 0 && (Joins(table, channels, n - 1, a, b) || JoinsBy(table, channels[n - 1], a, b))
  }

  /** Adding one channel adds exactly the edge between its two centers, when both are defined. */
  lemma AddChannelEdges(table: map<Key, (Center, Center)>, state: CenterState, g: Graph, channel: Key)
    requires g.Keys == set c | c in DefinedList(state)
    ensures forall a, b :: Adjacent(AddChannel(table, state, g, channel), a, b) <==>
        Adjacent(g, a, b) || (IsDefined(state, a) && IsDefined(state, b) && JoinsBy(table, channel, a, b))
  {
    DefinedListFacts(state);
    var key := Normalize(channel.0, channel.1);
    if key in table && table[key].0 in DefinedList(state) && table[key].1 in DefinedList(state) {
      LinkEdges(g, table[key].0, table[key].1);
    }
  }

  /**
   * Two centers are adjacent exactly when both are defined and one of the
   * channels joins them in the table; adjacency is therefore symmetric.
   */
  lemma {:induction false} GraphEdges(table: map<Key, (Center, Center)>, state: CenterState, channels: seq<Key>, n: nat)
    requires n <= |channels|
    ensures forall a, b :: Adjacent(GraphPrefix(table, state, channels, n), a, b) <==>
      IsDefined(state, a) && IsDefined(state, b) && Joins(table, channels, n, a, b)
  {
    if n > 0 {
      GraphEdges(table, state, channels, n - 1);
      var g := GraphPrefix(table, state, channels, n - 1);
      AddChannelEdges(table, state, g, channels[n - 1]);
    }
  }

  // ---------------------------------------------------------------------------
  // Connectivity

  predicate IsPath(g: Graph, p: seq<Center>)
  {
    |p| > 0 && forall i | 0 <= i < |p| - 1 :: Adjacent(g, p[i], p[i + 1])
  }

  /** Some path leads from `a` to `b`. */
  ghost predicate Connected(g: Graph, a: Center, b: Center)
  {
    exists p :: IsPath(g, p) && p[0] == a && p[|p| - 1] == b
  }

  lemma ConnectedSelf(g: Graph, a: Center)
    ensures Connected(g, a, a)
  {
    assert IsPath(g, [a]);
  }

  lemma ConnectedStep(g: Graph, a: Center, b: Center, c: Center)
    requires Connected(g, a, b) && Adjacent(g, b, c)
    ensures Connected(g, a, c)
  {
    var p :| IsPath(g, p) && p[0] == a && p[|p| - 1] == b;
    assert IsPath(g, p + [c]);
  }

  lemma ConnectedPrepend(g: Graph, a: Center, b: Center, c: Center)
    requires Adjacent(g, a, b) && Connected(g, b, c)
    ensures Connected(g, a, c)
  {
    var p :| IsPath(g, p) && p[0] == b && p[|p| - 1] == c;
    assert IsPath(g, [a] + p);
  }

  /** No neighbour of a member lies outside. */
  predicate Closed(g: Graph, s: set<Center>)
  {
    forall n | n in s :: forall m | m in Neighbours(g, n) :: m in s
  }

  /** A path that starts in a closed set stays in it. */
  lemma {:induction false} PathStaysIn(g: Graph, s: set<Center>, p: seq<Center>)
    requires IsPath(g, p) && p[0] in s && Closed(g, s)
    ensures p[|p| - 1] in s
    decreases |p|
  {
    if |p| > 1 {
      var q := p[..|p| - 1];
      assert IsPath(g, q);
      PathStaysIn(g, s, q);
      assert Adjacent(g, p[|p| - 2], p[|p| - 1]);
    }
  }

  /** A closed set holds everything connected to its members. */
  lemma ClosedReach(g: Graph, s: set<Center>, a: Center, b: Center)
    requires a in s && Closed(g, s) && Connected(g, a, b)
    ensures b in s
  {
    var p :| IsPath(g, p) && p[0] == a && p[|p| - 1] == b;
    PathStaysIn(g, s, p);
  }

  /** Every center, as a set; the search never leaves it. */
  function AllCenters(): set<Center>
  {
    set c | c in CENTERS
  }

  lemma InAllCenters(c: Center)
    ensures c in AllCenters()
  {
    assert CENTERS[CenterIndex(c)] == c;
  }

  // ---------------------------------------------------------------------------
  // The depth-first search

  /**
   * What a search from `node` leaves behind: `node` and everything the
   * search added are visited, every added center has all its neighbours
   * visited, and every added center is connected to `node`.
   */
  ghost predicate Searched(g: Graph, node: Center, visited: set<Center>, visitedOut: set<Center>)
  {
    && visited <= visitedOut && node in visitedOut
    && (forall n | n in visitedOut - visited :: forall m | m in Neighbours(g, n) :: m in visitedOut)
    && (forall n | n in visitedOut - visited :: Connected(g, node, n))
  }

  /** The search from `node` after its first `k` neighbours. */
  ghost predicate SearchedUpTo(g: Graph, node: Center, visited: set<Center>, visitedOut: set<Center>, k: nat)
    requires k <= |Neighbours(g, node)|
  {
    && visited <= visitedOut && node in visitedOut
    && (forall m | m in Neighbours(g, node)[..k] :: m in visitedOut)
    && (forall n | n in visitedOut - visited - {node} :: forall m | m in Neighbours(g, n) :: m in visitedOut)
    && (forall n | n in visitedOut - visited :: Connected(g, node, n))
  }

  /** Marking `node` starts the search. */
  lemma SearchStart(g: Graph, node: Center, visited: set<Center>)
    requires node !in visited
    ensures SearchedUpTo(g, node, visited, visited + {node}, 0)
  {
    ConnectedSelf(g, node);
  }

  /** A neighbour already visited, or searched from, keeps the search on track. */
  lemma SearchNext(g: Graph, node: Center, visited: set<Center>, before: set<Center>, after: set<Center>, k: nat)
    requires k < |Neighbours(g, node)| && SearchedUpTo(g, node, visited, before, k)
    requires var neighbour := Neighbours(g, node)[k];
      (neighbour in before && after == before) || (neighbour !in before && Searched(g, neighbour, before, after))
    ensures SearchedUpTo(g, node, visited, after, k + 1)
  {
    var neighbours := Neighbours(g, node);
    var neighbour := neighbours[k];
    assert neighbours[..k + 1] == neighbours[..k] + [neighbour];
    if neighbour !in before {
      forall n | n in after - before ensures Connected(g, node, n) {
        ConnectedPrepend(g, node, neighbour, n);
      }
    }
  }

  /** Once every neighbour is handled, the search from `node` is complete. */
  lemma SearchDone(g: Graph, node: Center, visited: set<Center>, visitedOut: set<Center>)
    requires SearchedUpTo(g, node, visited, visitedOut, |Neighbours(g, node)|)
    ensures Searched(g, node, visited, visitedOut)
  {
    assert Neighbours(g, node)[..|Neighbours(g, node)|] == Neighbours(g, node);
  }

  /**
   * `dfs(node, component)`: marks `node` and, recursively, every unvisited
   * neighbour, adding the same centers to the component.
   */
  method Dfs(g: Graph, node: Center, visited: set<Center>, component: set<Center>)
    returns (visitedOut: set<Center>, componentOut: set<Center>)
    requires node !in visited
    ensures Searched(g, node, visited, visitedOut)
    ensures componentOut == component + (visitedOut - visited)
    decreases AllCenters() - visited
  {
    InAllCenters(node);
    visitedOut := visited + {node};
    componentOut := component + {node};
    SearchStart(g, node, visited);
    var neighbours := Neighbours(g, node);
    for k := 0 to |neighbours|
      invariant SearchedUpTo(g, node, visited, visitedOut, k)
      invariant componentOut == component + (visitedOut - visited)
    {
      var neighbour := neighbours[k];
      ghost var before := visitedOut;
      if neighbour !in visitedOut {
        visitedOut, componentOut := Dfs(g, neighbour, visitedOut, componentOut);
      }
      SearchNext(g, node, visited, before, visitedOut, k);
    }
    SearchDone(g, node, visited, visitedOut);
  }

  // ---------------------------------------------------------------------------
  // Counting components

  /** `names[k]` starts a new component: no earlier name is connected to it. */
  ghost predicate IsRoot(g: Graph, names: seq<Center>, k: nat)
    requires k < |names|
  {
    forall j | 0 <= j < k :: !Connected(g, names[j], names[k])
  }

  /** The number of components met among the first `n` names. */
  ghost function RootCount(g: Graph, names: seq<Center>, n: nat): (count: nat)
    requires n <= |names|
    ensures count <= n
  {
    if n == 0 then 0 else RootCount(g, names, n - 1) + (if IsRoot(g, names, n - 1) then 1 else 0)
  }

  /** The visited set is exactly what the first `k` names reach. */
  ghost predicate VisitedBy(g: Graph, names: seq<Center>, k: nat, visited: set<Center>)
    requires k <= |names|
  {
    forall c :: c in visited <==> exists j | 0 <= j < k :: Connected(g, names[j], c)
  }

  /** What the first `k` names reach is closed. */
  lemma VisitedClosed(g: Graph, names: seq<Center>, k: nat, visited: set<Center>)
    requires k <= |names| && VisitedBy(g, names, k, visited)
    ensures Closed(g, visited)
  {
    forall n, m | n in visited && m in Neighbours(g, n) ensures m in visited {
      var j :| 0 <= j < k && Connected(g, names[j], n);
      ConnectedStep(g, names[j], n, m);
    }
  }

  /** A name already visited adds nothing new. */
  lemma VisitedSkip(g: Graph, names: seq<Center>, k: nat, visited: set<Center>)
    requires k < |names| && VisitedBy(g, names, k, visited) && names[k] in visited
    ensures VisitedBy(g, names, k + 1, visited) && !IsRoot(g, names, k)
  {
    VisitedClosed(g, names, k, visited);
    forall c | Connected(g, names[k], c) ensures c in visited {
      ClosedReach(g, visited, names[k], c);
    }
  }

  /** A search from an unvisited name adds exactly what that name reaches. */
  lemma VisitedSearch(g: Graph, names: seq<Center>, k: nat, visited: set<Center>, visitedOut: set<Center>)
    requires k < |names| && VisitedBy(g, names, k, visited) && names[k] !in visited
    requires Searched(g, names[k], visited, visitedOut)
    ensures VisitedBy(g, names, k + 1, visitedOut) && IsRoot(g, names, k)
  {
    VisitedClosed(g, names, k, visited);
    assert Closed(g, visitedOut);
    forall c | Connected(g, names[k], c) ensures c in visitedOut {
      ClosedReach(g, visitedOut, names[k], c);
    }
  }

  /**
   * The component loop: a search from each name not yet visited, counting
   * the non-empty components found.
   */
  method CountComponents(g: Graph, names: seq<Center>) returns (count: nat)
    ensures count == RootCount(g, names, |names|)
  {
    var visited: set<Center> := {};
    var components: seq<set<Center>> := [];
    for k := 0 to |names|
      invariant VisitedBy(g, names, k, visited)
      invariant |components| == RootCount(g, names, k)
    {
      var center := names[k];
      if center !in visited {
        var component;
        ghost var before := visited;
        visited, component := Dfs(g, center, visited, {});
        VisitedSearch(g, names, k, before, visited);
        assert center in component;
        if component != {} {
          components := components + [component];
        }
      } else {
        VisitedSkip(g, names, k, visited);
      }
    }
    count := |components|;
  }

  // ---------------------------------------------------------------------------
  // Properties of the count

  /** Following a path from `a` to `b` and one from `b` to `c` leads from `a` to `c`. */
  lemma ConnectedTrans(g: Graph, a: Center, b: Center, c: Center)
    requires Connected(g, a, b) && Connected(g, b, c)
    ensures Connected(g, a, c)
  {
    var p :| IsPath(g, p) && p[0] == a && p[|p| - 1] == b;
    var q :| IsPath(g, q) && q[0] == b && q[|q| - 1] == c;
    var r := p + q[1..];
    forall i | 0 <= i < |r| - 1 ensures Adjacent(g, r[i], r[i + 1]) {
      if i < |p| - 1 {
        assert r[i] == p[i] && r[i + 1] == p[i + 1];
      } else {
        assert r[i] == q[i - |p| + 1] && r[i + 1] == q[i - |p| + 2];
      }
    }
    assert IsPath(g, r) && r[0] == a && r[|r| - 1] == c;
  }

  /** The first name always starts a component, so a non-empty list has at least one. */
  lemma {:induction false} RootCountPositive(g: Graph, names: seq<Center>, n: nat)
    requires 0 < n <= |names|
    ensures RootCount(g, names, n) >= 1
  {
    if n > 1 {
      RootCountPositive(g, names, n - 1);
    }
  }

  /**
   * Exactly one component among the first `n` names exactly when every one of
   * them is reachable from the first.
   */
  lemma {:induction false} SingleComponent(g: Graph, names: seq<Center>, n: nat)
    requires 0 < n <= |names|
    ensures RootCount(g, names, n) == 1 <==> forall k | 0 <= k < n :: Connected(g, names[0], names[k])
  {
    if n == 1 {
      ConnectedSelf(g, names[0]);
    } else {
      SingleComponent(g, names, n - 1);
      RootCountPositive(g, names, n - 1);
      if RootCount(g, names, n) == 1 {
        var j :| 0 <= j < n - 1 && Connected(g, names[j], names[n - 1]);
        ConnectedTrans(g, names[0], names[j], names[n - 1]);
      }
    }
  }

  /** Without edges, only a center is connected to itself. */
  lemma NoEdgesConnected(g: Graph, a: Center, b: Center)
    requires forall x :: Neighbours(g, x) == []
    requires Connected(g, a, b)
    ensures a == b
  {
    var p :| IsPath(g, p) && p[0] == a && p[|p| - 1] == b;
    if |p| > 1 {
      assert Adjacent(g, p[0], p[1]);
    }
  }

  /** Without edges, every one of distinct names is its own component. */
  lemma {:induction false} NoEdgesCount(g: Graph, names: seq<Center>, n: nat)
    requires n <= |names|
    requires forall x :: Neighbours(g, x) == []
    requires forall i, j | 0 <= i < j < |names| :: names[i] != names[j]
    ensures RootCount(g, names, n) == n
  {
    if n > 0 {
      NoEdgesCount(g, names, n - 1);
      forall j | 0 <= j < n - 1 ensures !Connected(g, names[j], names[n - 1]) {
        if Connected(g, names[j], names[n - 1]) {
          NoEdgesConnected(g, names[j], names[n - 1]);
        }
      }
    }
  }

  // ---------------------------------------------------------------------------
  // calculate_decision_mode

  /** The label for a number of components. */
  function ModeLabel(count: nat): string
  {
    if count == 0 then "無定義"
    else if count == 1 then "單一定義"
    else if count == 2 then "二分定義"
    else if count == 3 then "三分定義"
    else "四分定義"
  }

  /** The five labels are distinct, so the label gives back the count, capped at four. */
  lemma ModeLabelDistinct(m: nat, n: nat)
    ensures ModeLabel(m) == ModeLabel(n) <==> (if m < 4 then m else 4) == (if n < 4 then n else 4)
  {
  }

  /** The channels the mode is computed from: the given list, or those of the two readings when both are non-empty. */
  function ResolveChannels(definedChannels: Option<seq<Key>>, personality: seq<int>, design: seq<int>): seq<Key>
  {
    match definedChannels
    case Some(channels) => channels
    case None =>
      if |personality| > 0 && |design| > 0 then DefinedChannels(ActivatedGates(personality + design)) else []
  }

  /** The number of connected components among the defined centers. */
  ghost function ComponentCount(state: CenterState, channels: seq<Key>): nat
  {
    RootCount(BuildGraph(state, channels), DefinedList(state), |DefinedList(state)|)
  }

  /** There are no more components than defined centers, and none exactly when no center is defined. */
  lemma ComponentCountBounds(state: CenterState, channels: seq<Key>)
    ensures ComponentCount(state, channels) <= DefinedCount(state)
    ensures ComponentCount(state, channels) == 0 <==> DefinedCount(state) == 0
  {
    DefinedListFacts(state);
    if |DefinedList(state)| > 0 {
      RootCountPositive(BuildGraph(state, channels), DefinedList(state), |DefinedList(state)|);
    }
  }

  /**
   * Single definition: at least one center is defined and every defined
   * center is connected, through defined channels, to the first one.
   */
  lemma SingleDefinition(state: CenterState, channels: seq<Key>)
    ensures ModeLabel(ComponentCount(state, channels)) == "單一定義" <==>
      |DefinedList(state)| > 0 &&
      forall c | IsDefined(state, c) :: Connected(BuildGraph(state, channels), DefinedList(state)[0], c)
  {
    var names := DefinedList(state);
    var g := BuildGraph(state, channels);
    DefinedListFacts(state);
    ModeLabelDistinct(ComponentCount(state, channels), 1);
    if |names| > 0 {
      SingleComponent(g, names, |names|);
      if forall c | IsDefined(state, c) :: Connected(g, names[0], c) {
        assert forall k | 0 <= k < |names| :: Connected(g, names[0], names[k]) by {
          forall k | 0 <= k < |names| ensures Connected(g, names[0], names[k]) {
            assert names[k] in names;
          }
        }
      }
      if RootCount(g, names, |names|) == 1 {
        forall c | IsDefined(state, c) ensures Connected(g, names[0], c) {
          assert c in names;
          var k :| 0 <= k < |names| && names[k] == c;
        }
      }
    }
  }

  /** With no defined channels, every defined center is a component of its own. */
  lemma NoChannelsCount(state: CenterState)
    ensures ComponentCount(state, []) == DefinedCount(state)
  {
    DefinedListFacts(state);
    NoEdgesCount(BuildGraph(state, []), DefinedList(state), |DefinedList(state)|);
  }

  /** `channel_to_centers` as the code builds it: one insertion per table row. */
  method BuildChannelMap(rows: seq<ChannelEntry>) returns (table: map<Key, (Center, Center)>)
    ensures table == ChannelMapPrefix(rows, |rows|)
  {
    table := map[];
    for i := 0 to |rows|
      invariant table == ChannelMapPrefix(rows, i)
    {
      var row := rows[i];
      table := table[Normalize(row.gate1, row.gate2) := (row.center1, row.center2)];
    }
  }

  /** The adjacency lists as the code builds them, one defined channel at a time. */
  method BuildAdjacency(table: map<Key, (Center, Center)>, state: CenterState, channels: seq<Key>) returns (g: Graph)
    ensures g == GraphPrefix(table, state, channels, |channels|)
  {
    var names := DefinedList(state);
    g := map c | c in names :: [];
    for i := 0 to |channels|
      invariant g == GraphPrefix(table, state, channels, i)
    {
      var channel := channels[i];
      var key := Normalize(channel.0, channel.1);
      if key in table {
        var (center1, center2) := table[key];
        if center1 in names && center2 in names {
          if center2 !in g[center1] {
            g := g[center1 := g[center1] + [center2]];
          }
          if center1 !in g[center2] {
            g := g[center2 := g[center2] + [center1]];
          }
        }
      }
    }
  }

  /**
   * `calculate_decision_mode`: the label for the number of connected
   * components the defined channels leave among the defined centers.
   */
  method CalculateDecisionMode(state: CenterState, definedChannels: Option<seq<Key>>, personality: seq<int>, design: seq<int>)
    returns (mode: string)
    ensures mode == ModeLabel(ComponentCount(state, ResolveChannels(definedChannels, personality, design)))
  {
    var channels: seq<Key>;
    if definedChannels.None? {
      if |personality| > 0 && |design| > 0 {
        channels := CalculateDefinedChannelsFromGates(personality, design);
      } else {
        channels := [];
      }
    } else {
      channels := definedChannels.value;
    }
    var names := DefinedList(state);
    if |names| == 0 {
      return "無定義";
    }
    var table := BuildChannelMap(CHANNELS);
    var g := BuildAdjacency(table, state, channels);
    var count := CountComponents(g, names);
    mode := ModeLabel(count);
  }
}
