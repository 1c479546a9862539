/** The resource economy: stock definitions, conversion edges, and the graph that
    generates stock and moves it along edges each time the simulation advances. */
module Resources {
  import opened Wrappers
  import opened Text
  import opened Sorting
  import opened Numeric

  const TicksPerSecond: int := 10_000_000

  /** TimeSpan.TotalSeconds of a span given in ticks. */
  function Seconds(ticks: int): real
  {
    ticks as real / TicksPerSecond as real
  }

  datatype ResourceError =
    | InvalidClampRange   // Math.Clamp's ArgumentException: Minimum > Capacity
    | UnknownNode         // an edge names a node the graph does not have
    | NonPositiveDelta    // Advance was given a span that is not positive

  datatype NodeDefinition = NodeDefinition(id: string, capacity: real, generationPerSecond: real := 0.0, minimum: real := 0.0)
  {
    /** What the node generates in the given number of seconds. */
    function GrowthOver(seconds: real): real { generationPerSecond * seconds }

    /** Keeps a stock within [minimum, capacity]; fails when that range is empty. */
    function Clamp(value: real): (r: Result<real, ResourceError>)
      ensures r.Ok? <==> minimum <= capacity
      ensures r.Err? ==> r.error == InvalidClampRange
      ensures r.Ok? ==> minimum <= r.value <= capacity
      ensures r.Ok? && minimum <= value <= capacity ==> r.value == value
    {
      if minimum > capacity then Err(InvalidClampRange) else Ok(ClampReal(value, minimum, capacity))
    }
  }

  datatype EdgeDefinition = EdgeDefinition(id: string, sourceId: string, targetId: string, ratePerSecond: real, efficiency: real := 1.0)
  {
    /** The keys under which the node tables file the edge's endpoints. */
    function SourceKey(): string { Fold(sourceId) }
    function TargetKey(): string { Fold(targetId) }

    /** The most the edge moves in the given number of seconds. */
    function RateOver(seconds: real): real { ratePerSecond * seconds }

    /** What reaches the target when the given amount leaves the source. */
    function Delivered(amount: real): real { amount * efficiency }
  }

  datatype Snapshot = Snapshot(id: string, value: real)

  /** The stock table's own keys: for every folded key, the id its stock was first stored
      under, which folds back to that key. */
  predicate Spelled(spellings: map<string, string>, state: map<string, real>)
  {
    spellings.Keys == state.Keys && forall k | k in spellings :: Fold(spellings[k]) == k
  }

  /** Storing a stock under a key keeps the spellings in step: a new key is spelled as given,
      a known key keeps its first spelling. */
  lemma SpelledAfterStore(spellings: map<string, string>, state: map<string, real>, id: string, spelling: string, v: real)
    requires Spelled(spellings, state) && Fold(spelling) == id
    ensures Spelled(if id in spellings then spellings else spellings[id := spelling], state[id := v])
  {
  }

  /** What Advance returns: one snapshot per stock, keyed and labelled by the id the stock
      table keeps for it, in a dictionary that compares keys exactly. */
  function Reported(spellings: map<string, string>, state: map<string, real>): (r: map<string, Snapshot>)
    requires Spelled(spellings, state)
    ensures forall k | k in state :: spellings[k] in r && r[spellings[k]] == Snapshot(spellings[k], state[k])
    ensures forall id | id in r :: Fold(id) in state && spellings[Fold(id)] == id
  {
    var r := map id | id in spellings.Values && Fold(id) in state :: Snapshot(id, state[Fold(id)]);
    assert forall k | k in state :: spellings[k] in spellings.Values;
    assert forall id | id in r :: Fold(id) in state && spellings[Fold(id)] == id by {
      forall id | id in r ensures Fold(id) in state && spellings[Fold(id)] == id {
        var k :| k in spellings && spellings[k] == id;
      }
    }
    r
  }

  /** Clamping twice is clamping once. */
  lemma ClampIdempotent(n: NodeDefinition, value: real)
    requires n.minimum <= n.capacity
    ensures n.Clamp(n.Clamp(value).value) == n.Clamp(value)
  {
  }

  /** Clamping keeps the order of its arguments. */
  lemma ClampMonotone(n: NodeDefinition, v: real, w: real)
    requires n.minimum <= n.capacity && v <= w
    ensures n.Clamp(v).value <= n.Clamp(w).value
  {
  }

  /** A node defined by id and capacity alone neither generates nor has a floor above zero;
      an edge defined without an efficiency loses nothing. */
  lemma Defaults(id: string, capacity: real, edgeId: string, sourceId: string, targetId: string, rate: real)
    ensures NodeDefinition(id, capacity).generationPerSecond == 0.0 && NodeDefinition(id, capacity).minimum == 0.0
    ensures EdgeDefinition(edgeId, sourceId, targetId, rate).efficiency == 1.0
  {
  }

  /** The order List.Sort puts edges in: ordinal comparison of their ids. */
  function EdgeOrder(a: EdgeDefinition, b: EdgeDefinition): bool
  {
    OrdinalLe(a.id, b.id)
  }

  lemma EdgeOrderIsTotal()
    ensures TotalPreorder(EdgeOrder)
    ensures forall a, b :: Equivalent(a, b, EdgeOrder) <==> a.id == b.id
  {
    OrdinalLeTotalOrder();
  }

  /** A stock for every node, and every node with a range that is not empty. */
  predicate WellFormed(nodes: map<string, NodeDefinition>, state: map<string, real>)
  {
    nodes.Keys == state.Keys && forall k :: k in nodes ==> nodes[k].minimum <= nodes[k].capacity
  }

  /** Every node is filed under its own case-folded id. */
  predicate KeyedById(nodes: map<string, NodeDefinition>)
  {
    forall k :: k in nodes ==> Fold(nodes[k].id) == k
  }

  predicate EdgesKnown(nodes: map<string, NodeDefinition>, edges: seq<EdgeDefinition>)
  {
    forall i :: 0 <= i < |edges| ==> edges[i].SourceKey() in nodes && edges[i].TargetKey() in nodes
  }

  /** The lowest a stock can be: its minimum, or zero for a source an edge has drained. */
  function Floor(n: NodeDefinition): real
  {
    if n.minimum < 0.0 then n.minimum else 0.0
  }

  /** No stock above its capacity, none below its floor. */
  predicate WithinBounds(nodes: map<string, NodeDefinition>, state: map<string, real>)
    requires WellFormed(nodes, state)
  {
    forall k :: k in state ==> Floor(nodes[k]) <= state[k] <= nodes[k].capacity
  }

  /** One node's stock after it generates for the given number of seconds. */
  function GeneratedStock(n: NodeDefinition, stock: real, seconds: real): real
    requires n.minimum <= n.capacity
  {
    ClampReal(stock + n.GrowthOver(seconds), n.minimum, n.capacity)
  }

  /** The generation phase: every stock grows by its rate and is clamped to its node's range. */
  function Generated(nodes: map<string, NodeDefinition>, state: map<string, real>, seconds: real): (r: map<string, real>)
    requires WellFormed(nodes, state)
    ensures r.Keys == state.Keys
    ensures forall k :: k in r ==> nodes[k].minimum <= r[k] <= nodes[k].capacity
  {
    map k | k in state :: GeneratedStock(nodes[k], state[k], seconds)
  }

  /** One edge of the transfer phase. */
  function Transfer(nodes: map<string, NodeDefinition>, state: map<string, real>, edge: EdgeDefinition, seconds: real): (r: map<string, real>)
    requires WellFormed(nodes, state) && edge.SourceKey() in nodes && edge.TargetKey() in nodes
    ensures r.Keys == state.Keys
  {
    var source := edge.SourceKey();
    var target := edge.TargetKey();
    var transferable := Min(state[source], edge.RateOver(seconds));
    if transferable <= 0.0 then state
    else
      var drained := state[source := state[source] - transferable];
      var t := nodes[target];
      drained[target := ClampReal(drained[target] + edge.Delivered(transferable), t.minimum, t.capacity)]
  }

  /** What one edge does: nothing when there is nothing to move; otherwise the source loses
      what it can send (at most its stock and at most rate times seconds), the target ends
      within its range, and no other stock changes. */
  lemma TransferEffect(nodes: map<string, NodeDefinition>, state: map<string, real>, edge: EdgeDefinition, seconds: real)
    requires WellFormed(nodes, state) && edge.SourceKey() in nodes && edge.TargetKey() in nodes
    ensures var r := Transfer(nodes, state, edge, seconds);
            var source, target := edge.SourceKey(), edge.TargetKey();
            var transferable := Min(state[source], edge.RateOver(seconds));
            (forall k :: k in r && k != source && k != target ==> r[k] == state[k])
            && (transferable <= 0.0 ==> r == state)
            && (transferable > 0.0 ==>
                  transferable <= state[source] && transferable <= edge.RateOver(seconds)
                  && nodes[target].minimum <= r[target] <= nodes[target].capacity
                  && (source != target ==>
                        r[source] == state[source] - transferable
                        && r[target] == ClampReal(state[target] + edge.Delivered(transferable), nodes[target].minimum, nodes[target].capacity)))
  {
  }

  /** The transfer phase: the edges in order, each seeing the effect of the ones before it. */
  function TransferAll(nodes: map<string, NodeDefinition>, state: map<string, real>, edges: seq<EdgeDefinition>, seconds: real): (r: map<string, real>)
    requires WellFormed(nodes, state) && EdgesKnown(nodes, edges)
    ensures r.Keys == state.Keys
  {
    if edges == [] then state
    else
      var before := TransferAll(nodes, state, edges[..|edges| - 1], seconds);
      Transfer(nodes, before, edges[|edges| - 1], seconds)
  }

  /** The stocks after one Advance by the given number of seconds. */
  function AdvanceSpec(nodes: map<string, NodeDefinition>, state: map<string, real>, edges: seq<EdgeDefinition>, seconds: real): (r: map<string, real>)
    requires WellFormed(nodes, state) && EdgesKnown(nodes, edges)
  {
    TransferAll(nodes, Generated(nodes, state, seconds), edges, seconds)
  }

  lemma TransferKeepsBounds(nodes: map<string, NodeDefinition>, state: map<string, real>, edge: EdgeDefinition, seconds: real)
    requires WellFormed(nodes, state) && edge.SourceKey() in nodes && edge.TargetKey() in nodes
    requires WithinBounds(nodes, state)
    ensures WellFormed(nodes, Transfer(nodes, state, edge, seconds))
    ensures WithinBounds(nodes, Transfer(nodes, state, edge, seconds))
  {
    var r := Transfer(nodes, state, edge, seconds);
    var source := edge.SourceKey();
    var transferable := Min(state[source], edge.RateOver(seconds));
    TransferEffect(nodes, state, edge, seconds);
    if transferable > 0.0 {
      assert state[source] - transferable >= 0.0;
    }
  }

  /** No stock ever exceeds its capacity, and none falls below its floor, however many edges run. */
  lemma {:induction false} TransferAllKeepsBounds(nodes: map<string, NodeDefinition>, state: map<string, real>, edges: seq<EdgeDefinition>, seconds: real)
    requires WellFormed(nodes, state) && EdgesKnown(nodes, edges)
    requires WithinBounds(nodes, state)
    ensures WellFormed(nodes, TransferAll(nodes, state, edges, seconds))
    ensures WithinBounds(nodes, TransferAll(nodes, state, edges, seconds))
  {
    if edges != [] {
      var init := edges[..|edges| - 1];
      assert EdgesKnown(nodes, init);
      TransferAllKeepsBounds(nodes, state, init, seconds);
      TransferKeepsBounds(nodes, TransferAll(nodes, state, init, seconds), edges[|edges| - 1], seconds);
    }
  }

  lemma AdvanceKeepsBounds(nodes: map<string, NodeDefinition>, state: map<string, real>, edges: seq<EdgeDefinition>, seconds: real)
    requires WellFormed(nodes, state) && EdgesKnown(nodes, edges)
    ensures WellFormed(nodes, AdvanceSpec(nodes, state, edges, seconds))
    ensures WithinBounds(nodes, AdvanceSpec(nodes, state, edges, seconds))
  {
    TransferAllKeepsBounds(nodes, Generated(nodes, state, seconds), edges, seconds);
  }

  /** With one edge, Advance is that edge's transfer after generation. */
  lemma SingleEdgeAdvance(nodes: map<string, NodeDefinition>, state: map<string, real>, edge: EdgeDefinition, seconds: real)
    requires WellFormed(nodes, state) && edge.SourceKey() in nodes && edge.TargetKey() in nodes
    ensures EdgesKnown(nodes, [edge])
    ensures AdvanceSpec(nodes, state, [edge], seconds) == Transfer(nodes, Generated(nodes, state, seconds), edge, seconds)
  {
    assert [edge][0] == edge && [edge][..0] == [];
    assert TransferAll(nodes, Generated(nodes, state, seconds), [], seconds) == Generated(nodes, state, seconds);
  }

  /** The stock a Transfer leaves at an edge's source is not clamped: from a state within
      every range, one edge takes a source below its positive minimum. */
  lemma SourceCanFallBelowMinimum()
    ensures var nodes := map[Fold("ore") := NodeDefinition("ore", 100.0, 0.0, 10.0), Fold("gold") := NodeDefinition("gold", 100.0, 0.0, 0.0)];
            var state := map[Fold("ore") := 10.0, Fold("gold") := 0.0];
            var edge := EdgeDefinition("smelt", "ore", "gold", 5.0, 1.0);
            WellFormed(nodes, state) && edge.SourceKey() in nodes && edge.TargetKey() in nodes
            && nodes[Fold("ore")].minimum <= state[Fold("ore")]
            && Transfer(nodes, state, edge, 1.0)[Fold("ore")] == 5.0 < nodes[Fold("ore")].minimum
  {
    var ore, gold := Fold("ore"), Fold("gold");
    assert ore != gold by { assert |ore| != |gold|; }
    var nodes := map[ore := NodeDefinition("ore", 100.0, 0.0, 10.0), gold := NodeDefinition("gold", 100.0, 0.0, 0.0)];
    var state := map[ore := 10.0, gold := 0.0];
    TransferEffect(nodes, state, EdgeDefinition("smelt", "ore", "gold", 5.0, 1.0), 1.0);
  }

  /** Ten seconds of a 10/s ore node feeding a 5/s smelting edge at half efficiency: the ore
      node generates 100, the edge moves 50 of it and delivers 25. */
  lemma SmeltingScenario()
    ensures var nodes := SmeltingNodes();
            var state := map[Fold("ore") := 0.0, Fold("ingot") := 0.0];
            var edges := [SmeltingEdge()];
            WellFormed(nodes, state) && EdgesKnown(nodes, edges)
            && AdvanceSpec(nodes, state, edges, Seconds(100_000_000)) == map[Fold("ore") := 50.0, Fold("ingot") := 25.0]
  {
    SmeltingKeys();
    var ore, ingot := Fold("ore"), Fold("ingot");
    var nodes, edge := SmeltingNodes(), SmeltingEdge();
    var state := map[ore := 0.0, ingot := 0.0];
    assert Seconds(100_000_000) == 10.0;
    var g := SmeltingGeneration();
    SmeltingTransfer();
    SingleEdgeAdvance(nodes, state, edge, 10.0);
  }

  /** The keys the smelting example's ids fold to. */
  lemma SmeltingKeys()
    ensures Fold("ore") == "ORE" && Fold("ingot") == "INGOT"
  {
    assert Fold("ore")[0] == 'O' && Fold("ore")[1] == 'R' && Fold("ore")[2] == 'E';
    assert Fold("ingot")[0] == 'I' && Fold("ingot")[1] == 'N' && Fold("ingot")[2] == 'G'
           && Fold("ingot")[3] == 'O' && Fold("ingot")[4] == 'T';
  }

  function SmeltingNodes(): map<string, NodeDefinition>
  {
    map[Fold("ore") := NodeDefinition("ore", 1000.0, 10.0, 0.0), Fold("ingot") := NodeDefinition("ingot", 1000.0, 0.0, 0.0)]
  }

  function SmeltingEdge(): EdgeDefinition
  {
    EdgeDefinition("smelt", "ore", "ingot", 5.0, 0.5)
  }

  /** The transfer phase of the smelting scenario. */
  lemma SmeltingTransfer()
    ensures var g := map[Fold("ore") := 100.0, Fold("ingot") := 0.0];
            WellFormed(SmeltingNodes(), g) && SmeltingEdge().SourceKey() in SmeltingNodes() && SmeltingEdge().TargetKey() in SmeltingNodes()
            && Transfer(SmeltingNodes(), g, SmeltingEdge(), 10.0) == map[Fold("ore") := 50.0, Fold("ingot") := 25.0]
  {
    SmeltingKeys();
    var ore, ingot := Fold("ore"), Fold("ingot");
    var nodes, edge := SmeltingNodes(), SmeltingEdge();
    var g := map[ore := 100.0, ingot := 0.0];
    TransferEffect(nodes, g, edge, 10.0);
    var r := Transfer(nodes, g, edge, 10.0);
    assert r[ore] == 50.0 && r[ingot] == 25.0;
    assert r == map[ore := 50.0, ingot := 25.0];
  }

  /** The generation phase of the smelting scenario. */
  lemma SmeltingGeneration() returns (g: map<string, real>)
    ensures var state := map[Fold("ore") := 0.0, Fold("ingot") := 0.0];
            WellFormed(SmeltingNodes(), state)
            && g == Generated(SmeltingNodes(), state, 10.0) && g == map[Fold("ore") := 100.0, Fold("ingot") := 0.0]
  {
    SmeltingKeys();
    var ore, ingot := Fold("ore"), Fold("ingot");
    var state := map[ore := 0.0, ingot := 0.0];
    g := Generated(SmeltingNodes(), state, 10.0);
    assert g[ore] == 100.0 && g[ingot] == 0.0;
  }

  /** The smelting snapshot is keyed by the ids as written, "ore" and "ingot". */
  lemma SmeltingSnapshot()
    ensures var spellings := map[Fold("ore") := "ore", Fold("ingot") := "ingot"];
            var state := map[Fold("ore") := 50.0, Fold("ingot") := 25.0];
            Spelled(spellings, state)
            && Reported(spellings, state) == map["ore" := Snapshot("ore", 50.0), "ingot" := Snapshot("ingot", 25.0)]
  {
    SmeltingKeys();
    var ore, ingot := Fold("ore"), Fold("ingot");
    var spellings := map[ore := "ore", ingot := "ingot"];
    var state := map[ore := 50.0, ingot := 25.0];
    assert Spelled(spellings, state);
    var r := Reported(spellings, state);
    assert r.Keys == {"ore", "ingot"} by {
      assert spellings[ore] in r && spellings[ingot] in r;
      forall id | id in r ensures id == "ore" || id == "ingot" {
        assert spellings[Fold(id)] == id;
      }
    }
  }

  /** The repository's smelting test, replayed on the graph: two nodes, one edge, ten
      seconds, and the snapshot looked up by the ids the nodes were given. */
  method SmeltingRun() returns (r: Result<map<string, Snapshot>, ResourceError>)
    ensures r == Ok(map["ore" := Snapshot("ore", 50.0), "ingot" := Snapshot("ingot", 25.0)])
  {
    var graph := SmeltingGraph();
    SmeltingScenario();
    r := graph.Advance(100_000_000);
    SmeltingSnapshot();
  }

  /** The graph the smelting test builds before it advances. */
  method SmeltingGraph() returns (graph: ResourceGraph)
    ensures fresh(graph) && graph.Valid()
    ensures graph.nodes == SmeltingNodes() && graph.edges == [SmeltingEdge()]
    ensures graph.state == map[Fold("ore") := 0.0, Fold("ingot") := 0.0]
    ensures graph.spellings == map[Fold("ore") := "ore", Fold("ingot") := "ingot"]
  {
    graph := SmeltingGraphNodes();
    SmeltingEdgeKnown();
    SmeltingEdgeUpserted();
    var _ := graph.UpsertEdge(SmeltingEdge());
  }

  /** The smelting edge joins the two known nodes. */
  lemma SmeltingEdgeKnown()
    ensures SmeltingEdge().SourceKey() in SmeltingNodes() && SmeltingEdge().TargetKey() in SmeltingNodes()
  {
    SmeltingKeys();
  }

  /** Upserting the smelting edge into no edges gives it alone. */
  lemma SmeltingEdgeUpserted()
    ensures UpsertedEdges([], SmeltingEdge()) == [SmeltingEdge()]
  {
    var edge := SmeltingEdge();
    assert [] + [edge] == [edge] && [edge][..0] == [];
    assert Sort([] + [edge], EdgeOrder) == Insert(edge, [], EdgeOrder) == [edge];
  }

  /** The smelting test's two nodes, upserted with the default initial stock. */
  method SmeltingGraphNodes() returns (graph: ResourceGraph)
    ensures fresh(graph) && graph.Valid() && graph.edges == []
    ensures graph.nodes == SmeltingNodes()
    ensures graph.state == map[Fold("ore") := 0.0, Fold("ingot") := 0.0]
    ensures graph.spellings == map[Fold("ore") := "ore", Fold("ingot") := "ingot"]
  {
    SmeltingKeys();
    var ore, ingot := Fold("ore"), Fold("ingot");
    graph := new ResourceGraph();
    var _ := graph.UpsertNode(NodeDefinition("ore", 1000.0, 10.0));
    var _ := graph.UpsertNode(NodeDefinition("ingot", 1000.0));
  }

  /** The position List.FindIndex reports for an edge id (exact comparison). */
  function FindEdge(edges: seq<EdgeDefinition>, id: string): (r: Option<nat>)
    ensures r.Some? ==> r.value < |edges| && edges[r.value].id == id
                        && forall j :: 0 <= j < r.value ==> edges[j].id != id
    ensures r.None? ==> forall j :: 0 <= j < |edges| ==> edges[j].id != id
  {
    if edges == [] then None
    else if edges[0].id == id then Some(0)
    else match FindEdge(edges[1..], id)
      case None => None
      case Some(i) => Some(i + 1)
  }

  /** The edge list after UpsertEdge: an edge with the same id is replaced where it stands,
      a new one is appended and the list re-sorted. */
  function UpsertedEdges(edges: seq<EdgeDefinition>, edge: EdgeDefinition): seq<EdgeDefinition>
  {
    match FindEdge(edges, edge.id)
    case Some(i) => edges[i := edge]
    case None => Sort(edges + [edge], EdgeOrder)
  }

  /** Replacing an edge by one with the same id keeps the order and every other edge. */
  lemma ReplacedEdgeOrdered(edges: seq<EdgeDefinition>, i: nat, edge: EdgeDefinition)
    requires StrictlySorted(edges, EdgeOrder) && i < |edges| && edges[i].id == edge.id
    ensures StrictlySorted(edges[i := edge], EdgeOrder)
  {
    var r := edges[i := edge];
    forall a, b | 0 <= a < b < |r| ensures EdgeOrder(r[a], r[b]) && !EdgeOrder(r[b], r[a]) {
      assert r[a].id == edges[a].id && r[b].id == edges[b].id;
    }
  }

  /** In a strictly ordered list the replaced slot is the only edge with that id, so replacing
      it keeps every other edge and brings in nothing but the new one. */
  lemma ReplacedEdgeMembers(edges: seq<EdgeDefinition>, i: nat, edge: EdgeDefinition)
    requires StrictlySorted(edges, EdgeOrder) && i < |edges| && edges[i].id == edge.id
    ensures edge in edges[i := edge]
    ensures forall e :: e in edges && e.id != edge.id ==> e in edges[i := edge]
    ensures forall e :: e in edges[i := edge] ==> e == edge || e in edges
  {
    var r := edges[i := edge];
    assert r[i] == edge;
    forall e | e in edges && e.id != edge.id ensures e in r {
      var k :| 0 <= k < |edges| && edges[k] == e;
      assert r[k] == e;
    }
    forall e | e in r ensures e == edge || e in edges {
      var k :| 0 <= k < |r| && r[k] == e;
      if k != i { assert edges[k] == e; }
    }
  }

  /** Appending a fresh id and sorting is one insertion at its place in id order. */
  lemma AppendedEdgeOrdered(edges: seq<EdgeDefinition>, edge: EdgeDefinition)
    requires StrictlySorted(edges, EdgeOrder)
    requires forall j :: 0 <= j < |edges| ==> edges[j].id != edge.id
    ensures StrictlySorted(Sort(edges + [edge], EdgeOrder), EdgeOrder)
    ensures multiset(Sort(edges + [edge], EdgeOrder)) == multiset(edges) + multiset{edge}
  {
    EdgeOrderIsTotal();
    SortAppend(edges, edge, EdgeOrder);
    InsertStrictlySorted(edge, edges, EdgeOrder);
  }

  /** The sorted list after appending holds exactly the old edges and the new one. */
  lemma AppendedEdgeMembers(edges: seq<EdgeDefinition>, edge: EdgeDefinition, r: seq<EdgeDefinition>)
    requires multiset(r) == multiset(edges) + multiset{edge}
    ensures edge in r
    ensures forall e :: e in edges ==> e in r
    ensures forall e :: e in r ==> e == edge || e in edges
  {
    assert edge in multiset(r);
    forall e | e in edges ensures e in r {
      assert e in multiset(r);
    }
    forall e | e in r ensures e == edge || e in edges {
      assert e in multiset(r);
    }
  }

  /** Upserting keeps the edges in strictly ascending id order, holds the new edge, and keeps
      every other edge; the list grows by one exactly when the id was new. */
  lemma UpsertedEdgesOrdered(edges: seq<EdgeDefinition>, edge: EdgeDefinition)
    requires StrictlySorted(edges, EdgeOrder)
    ensures StrictlySorted(UpsertedEdges(edges, edge), EdgeOrder)
    ensures edge in UpsertedEdges(edges, edge)
    ensures forall e :: e in edges && e.id != edge.id ==> e in UpsertedEdges(edges, edge)
    ensures forall e :: e in UpsertedEdges(edges, edge) ==> e == edge || e in edges
    ensures |UpsertedEdges(edges, edge)| == if FindEdge(edges, edge.id).Some? then |edges| else |edges| + 1
  {
    match FindEdge(edges, edge.id)
    case Some(i) =>
      ReplacedEdgeOrdered(edges, i, edge);
      ReplacedEdgeMembers(edges, i, edge);
    case None =>
      AppendedEdgeOrdered(edges, edge);
      var r := Sort(edges + [edge], EdgeOrder);
      AppendedEdgeMembers(edges, edge, r);
      assert |multiset(r)| == |multiset(edges)| + 1;
  }

  /** That the edge table only mentions known nodes is kept by every upsert of a checked edge. */
  lemma UpsertedEdgesKnown(nodes: map<string, NodeDefinition>, edges: seq<EdgeDefinition>, edge: EdgeDefinition)
    requires StrictlySorted(edges, EdgeOrder) && EdgesKnown(nodes, edges)
    requires edge.SourceKey() in nodes && edge.TargetKey() in nodes
    ensures EdgesKnown(nodes, UpsertedEdges(edges, edge))
  {
    UpsertedEdgesOrdered(edges, edge);
    KnownEdgesFrom(nodes, edges, edge, UpsertedEdges(edges, edge));
  }

  /** A list drawing only on known edges and one more known edge mentions only known nodes. */
  lemma KnownEdgesFrom(nodes: map<string, NodeDefinition>, edges: seq<EdgeDefinition>, edge: EdgeDefinition, r: seq<EdgeDefinition>)
    requires EdgesKnown(nodes, edges) && edge.SourceKey() in nodes && edge.TargetKey() in nodes
    requires forall e :: e in r ==> e == edge || e in edges
    ensures EdgesKnown(nodes, r)
  {
    forall i | 0 <= i < |r| ensures r[i].SourceKey() in nodes && r[i].TargetKey() in nodes {
      assert r[i] in r;
      if r[i] != edge {
        var k :| 0 <= k < |edges| && edges[k] == r[i];
      }
    }
  }

  /** UpsertNode as the source writes it: the definition is stored before Clamp runs, and
      Clamp throws when Minimum > Capacity, so the stock table is left without the node. */
  function UpsertNodeAsWritten(nodes: map<string, NodeDefinition>, state: map<string, real>, definition: NodeDefinition, initialValue: real)
    : (r: (map<string, NodeDefinition>, map<string, real>, Result<(), ResourceError>))
    ensures r.0 == nodes[Fold(definition.id) := definition]
    ensures r.2.Err? <==> definition.minimum > definition.capacity
    ensures r.2.Err? ==> r.1 == state
  {
    var k := Fold(definition.id);
    match definition.Clamp(initialValue)
    case Ok(v) => (nodes[k := definition], state[k := v], Ok(()))
    case Err(e) => (nodes[k := definition], state, Err(e))
  }

  /** A node whose minimum exceeds its capacity is half-inserted: its definition is stored,
      its stock is not, and the next Advance would look up a stock that is not there. */
  lemma UpsertNodeAsWrittenDesynchronises()
    ensures var r := UpsertNodeAsWritten(map[], map[], NodeDefinition("ore", 10.0, 0.0, 20.0), 0.0);
            r.2.Err? && "ORE" in r.0 && "ORE" !in r.1 && !WellFormed(r.0, r.1)
  {
    assert Fold("ore") == "ORE";
  }

  /** What the graph keeps true of its tables between calls. */
  predicate GraphInvariant(nodes: map<string, NodeDefinition>, state: map<string, real>,
                           spellings: map<string, string>, edges: seq<EdgeDefinition>)
  {
    WellFormed(nodes, state) && KeyedById(nodes) && EdgesKnown(nodes, edges)
    && StrictlySorted(edges, EdgeOrder) && WithinBounds(nodes, state) && Spelled(spellings, state)
  }

  /** Storing a definition with a stock inside its range keeps the tables consistent. */
  lemma StoreKeepsInvariant(nodes: map<string, NodeDefinition>, state: map<string, real>,
                            spellings: map<string, string>, edges: seq<EdgeDefinition>,
                            definition: NodeDefinition, v: real)
    requires GraphInvariant(nodes, state, spellings, edges)
    requires definition.minimum <= v <= definition.capacity
    ensures var id := Fold(definition.id);
            GraphInvariant(nodes[id := definition], state[id := v],
                           if id in spellings then spellings else spellings[id := definition.id], edges)
  {
    var id := Fold(definition.id);
    FoldIdempotent(definition.id);
    SpelledAfterStore(spellings, state, id, definition.id, v);
    var n, st := nodes[id := definition], state[id := v];
    assert KeyedById(n);
    assert EdgesKnown(n, edges);
    assert WithinBounds(n, st) by {
      forall k | k in st ensures Floor(n[k]) <= st[k] <= n[k].capacity {
        if k != id { assert n[k] == nodes[k] && st[k] == state[k]; }
      }
    }
  }

  /** The graph. Ids of nodes are matched ignoring case; ids of edges exactly. */
  class ResourceGraph {
    var nodes: map<string, NodeDefinition>
    var state: map<string, real>
    /** The key the stock table keeps for each folded key: the spelling first stored. */
    var spellings: map<string, string>
    var edges: seq<EdgeDefinition>

    ghost predicate Valid()
      reads this
    {
      GraphInvariant(nodes, state, spellings, edges)
    }

    constructor()
      ensures Valid() && nodes == map[] && state == map[] && spellings == map[] && edges == []
    {
      nodes, state, spellings, edges := map[], map[], map[], [];
    }

    /** Inserts or replaces a node; its stock becomes the clamped initial value, zero unless
        given. A definition whose range is empty is refused before anything is stored. A
        replaced node keeps the spelling its stock was first stored under. */
    method UpsertNode(definition: NodeDefinition, initialValue: real := 0.0) returns (r: Result<(), ResourceError>)
      requires Valid()
      modifies this
      ensures Valid() && edges == old(edges)
      ensures r.Err? <==> definition.minimum > definition.capacity
      ensures r.Err? ==> r.error == InvalidClampRange && nodes == old(nodes) && state == old(state)
                         && spellings == old(spellings)
      ensures r.Ok? ==> nodes == old(nodes)[Fold(definition.id) := definition]
                        && state == old(state)[Fold(definition.id) := definition.Clamp(initialValue).value]
      ensures r.Ok? ==> spellings == if Fold(definition.id) in old(spellings) then old(spellings)
                                     else old(spellings)[Fold(definition.id) := definition.id]
    {
      var clamped := definition.Clamp(initialValue);
      if clamped.Err? {
        return Err(clamped.error);
      }
      var id := Fold(definition.id);
      StoreKeepsInvariant(nodes, state, spellings, edges, definition, clamped.value);
      nodes := nodes[id := definition];
      state := state[id := clamped.value];
      if id !in spellings {
        spellings := spellings[id := definition.id];
      }
      r := Ok(());
    }

    /** Inserts or replaces an edge between two known nodes. */
    method UpsertEdge(edge: EdgeDefinition) returns (r: Result<(), ResourceError>)
      requires Valid()
      modifies this
      ensures Valid() && nodes == old(nodes) && state == old(state) && spellings == old(spellings)
      ensures r.Err? <==> edge.SourceKey() !in nodes || edge.TargetKey() !in nodes
      ensures r.Err? ==> r.error == UnknownNode && edges == old(edges)
      ensures r.Ok? ==> edges == UpsertedEdges(old(edges), edge)
    {
      if edge.SourceKey() !in nodes || edge.TargetKey() !in nodes {
        return Err(UnknownNode);
      }
      UpsertedEdgesOrdered(edges, edge);
      UpsertedEdgesKnown(nodes, edges, edge);
      var existingIndex := FindEdge(edges, edge.id);
      if existingIndex.Some? {
        edges := edges[existingIndex.value := edge];
      } else {
        edges := Sort(edges + [edge], EdgeOrder);
      }
      r := Ok(());
    }

    /** Runs the generation phase over every node, then the transfer phase over the edges in
        order, and reports every stock under the id its stock table keeps. */
    method Advance(delta: int) returns (r: Result<map<string, Snapshot>, ResourceError>)
      requires Valid()
      modifies this
      ensures Valid() && nodes == old(nodes) && edges == old(edges) && spellings == old(spellings)
      ensures delta <= 0 ==> r == Err(NonPositiveDelta) && state == old(state)
      ensures delta > 0 ==> state == AdvanceSpec(nodes, old(state), edges, Seconds(delta))
                            && r == Ok(Reported(spellings, state))
    {
      if delta <= 0 {
        return Err(NonPositiveDelta);
      }
      var seconds := Seconds(delta);
      ghost var before := state;
      GenerationPhase(seconds);
      TransferPhase(seconds);
      AdvanceKeepsBounds(nodes, before, edges, seconds);
      r := Ok(Reported(spellings, state));
    }

    /** The first loop of Advance: each node's stock grows by its rate, clamped to its range. */
    method GenerationPhase(seconds: real)
      requires WellFormed(nodes, state)
      modifies this`state
      ensures WellFormed(nodes, old(state)) && state == Generated(nodes, old(state), seconds)
    {
      var pending := nodes.Keys;
      while pending != {}
        invariant pending <= nodes.Keys && state.Keys == nodes.Keys
        invariant forall k :: k in state ==> state[k] == if k in pending then old(state)[k] else GeneratedStock(nodes[k], old(state)[k], seconds)
        decreases |pending|
      {
        var id :| id in pending;
        var definition := nodes[id];
        var generated := definition.GrowthOver(seconds);
        var nextValue := definition.Clamp(state[id] + generated);
        state := state[id := nextValue.value];
        pending := pending - {id};
      }
      assert state == Generated(nodes, old(state), seconds) by {
        forall k | k in state ensures state[k] == Generated(nodes, old(state), seconds)[k] {}
      }
    }

    /** The second loop of Advance: the edges in order, each moving what it can. */
    method TransferPhase(seconds: real)
      requires WellFormed(nodes, state) && EdgesKnown(nodes, edges)
      modifies this`state
      ensures state == TransferAll(nodes, old(state), edges, seconds)
    {
      var i := 0;
      while i < |edges|
        invariant 0 <= i <= |edges|
        invariant EdgesKnown(nodes, edges[..i]) && WellFormed(nodes, state)
        invariant state == TransferAll(nodes, old(state), edges[..i], seconds)
      {
        TransferAlong(edges[i], seconds);
        ghost var next := edges[..i + 1];
        assert next[..i] == edges[..i] && next[i] == edges[i] && |next| == i + 1;
        i := i + 1;
      }
      assert edges[..i] == edges;
    }

    /** The body of the transfer loop for one edge: the source gives up what it can send,
        the target receives it at the edge's efficiency, clamped to its range. */
    method TransferAlong(edge: EdgeDefinition, seconds: real)
      requires WellFormed(nodes, state) && edge.SourceKey() in nodes && edge.TargetKey() in nodes
      modifies this`state
      ensures state == Transfer(nodes, old(state), edge, seconds)
    {
      var source, target := edge.SourceKey(), edge.TargetKey();
      var available := state[source];
      var transferable := Min(available, edge.RateOver(seconds));
      if transferable <= 0.0 {
        return;
      }
      state := state[source := state[source] - transferable];
      var gain := edge.Delivered(transferable);
      var targetDefinition := nodes[target];
      state := state[target := targetDefinition.Clamp(state[target] + gain).value];
    }

    /** A copy of every stock, keyed by folded node id. */
    method ExportState() returns (r: map<string, real>)
      ensures r == state
    {
      r := state;
    }
  }
}
