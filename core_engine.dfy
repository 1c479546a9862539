/** The core engine module: the tunable parameters of the ore-to-gold economy and the
    configuration it writes into the shared resource graph. */
module CoreEngine {
  import opened Wrappers
  import opened Text
  import opened Numeric
  import opened Resources

  const MinTransferRate: real := 0.1
  const MaxTransferRate: real := 25.0
  const MinEfficiency: real := 0.01
  const MaxEfficiency: real := 10.0
  const MinOreCapacity: real := 100.0
  const MaxOreCapacity: real := 10_000_000.0
  const MinGoldCapacity: real := 10_000.0
  const MaxGoldCapacity: real := 100_000_000.0
  const OreGeneration: real := 5.0
  const GoldGeneration: real := 1.5

  /** The ore-to-gold edge for the given rate and efficiency. */
  function OreToGold(rate: real, efficiency: real): (r: EdgeDefinition)
    ensures r.id == "ore-to-gold" && r.SourceKey() == Fold("ore") && r.TargetKey() == Fold("gold")
    ensures r.ratePerSecond == rate && r.efficiency == efficiency
  {
    EdgeDefinition("ore-to-gold", "ore", "gold", rate, efficiency)
  }

  /** The stock a node is configured with: the override when one is given, otherwise the
      exported stock under that key, otherwise zero. */
  function Carried(state: map<string, real>, key: string, override: Option<real>): (r: real)
    ensures override.Some? ==> r == override.value
    ensures override.None? && key in state ==> r == state[key]
    ensures override.None? && key !in state ==> r == 0.0
  {
    match override
    case Some(v) => v
    case None => if key in state then state[key] else 0.0
  }

  /** The node table after ConfigureNodes: gold, then ore, written with the given capacities. */
  function ConfiguredNodes(nodes: map<string, NodeDefinition>, oreCapacity: real, goldCapacity: real)
    : (r: map<string, NodeDefinition>)
    ensures r.Keys == nodes.Keys + {Fold("ore"), Fold("gold")}
    ensures r[Fold("ore")] == NodeDefinition("ore", oreCapacity, OreGeneration)
    ensures r[Fold("gold")] == NodeDefinition("gold", goldCapacity, GoldGeneration)
    ensures forall k | k in nodes && k != Fold("ore") && k != Fold("gold") :: r[k] == nodes[k]
  {
    nodes[Fold("gold") := NodeDefinition("gold", goldCapacity, GoldGeneration)]
         [Fold("ore") := NodeDefinition("ore", oreCapacity, OreGeneration)]
  }

  /** The stock table after ConfigureNodes: each of the two stocks is its carried value
      clamped to its node's new range; every other stock stays. Without overrides, a stock
      already inside its new range survives unchanged. */
  function ConfiguredState(state: map<string, real>, oreCapacity: real, goldCapacity: real,
                           oreOverride: Option<real>, goldOverride: Option<real>): (r: map<string, real>)
    requires 0.0 <= oreCapacity && 0.0 <= goldCapacity
    ensures r.Keys == state.Keys + {Fold("ore"), Fold("gold")}
    ensures 0.0 <= r[Fold("ore")] <= oreCapacity && 0.0 <= r[Fold("gold")] <= goldCapacity
    ensures forall k | k in state && k != Fold("ore") && k != Fold("gold") :: r[k] == state[k]
    ensures oreOverride.None? && Fold("ore") in state && 0.0 <= state[Fold("ore")] <= oreCapacity
            ==> r[Fold("ore")] == state[Fold("ore")]
    ensures goldOverride.None? && Fold("gold") in state && 0.0 <= state[Fold("gold")] <= goldCapacity
            ==> r[Fold("gold")] == state[Fold("gold")]
  {
    OreAndGoldDiffer();
    state[Fold("gold") := ClampReal(Carried(state, Fold("gold"), goldOverride), 0.0, goldCapacity)]
         [Fold("ore") := ClampReal(Carried(state, Fold("ore"), oreOverride), 0.0, oreCapacity)]
  }

  lemma OreAndGoldDiffer()
    ensures Fold("ore") != Fold("gold")
  {
    assert |Fold("ore")| != |Fold("gold")|;
  }

  class CoreEngineModule {
    const graph: ResourceGraph
    var initialized: bool
    var oreTransferRate: real
    var oreToGoldEfficiency: real
    var oreCapacity: real
    var goldCapacity: real

    /** Every parameter within its range; once initialised, both nodes exist. */
    ghost predicate Valid()
      reads this, graph
    {
      graph.Valid()
      && MinTransferRate <= oreTransferRate <= MaxTransferRate
      && MinEfficiency <= oreToGoldEfficiency <= MaxEfficiency
      && MinOreCapacity <= oreCapacity <= MaxOreCapacity
      && MinGoldCapacity <= goldCapacity <= MaxGoldCapacity
      && (initialized ==> Fold("ore") in graph.nodes && Fold("gold") in graph.nodes)
    }

    constructor(graph: ResourceGraph)
      requires graph.Valid()
      ensures Valid() && this.graph == graph && !initialized
      ensures oreTransferRate == 1.0 && oreToGoldEfficiency == 0.1
      ensures oreCapacity == 1_000.0 && goldCapacity == 1_000_000.0
    {
      this.graph := graph;
      initialized := false;
      oreTransferRate := 1.0;
      oreToGoldEfficiency := 0.1;
      oreCapacity := 1_000.0;
      goldCapacity := 1_000_000.0;
    }

    /** Writes both node definitions, gold first, each with its carried stock re-clamped. */
    method ConfigureNodes(oreOverride: Option<real>, goldOverride: Option<real>)
      requires Valid()
      modifies graph
      ensures Valid() && graph.edges == old(graph.edges)
      ensures Fold("ore") in graph.nodes && Fold("gold") in graph.nodes
      ensures graph.nodes[Fold("gold")] == NodeDefinition("gold", goldCapacity, GoldGeneration)
              && graph.state[Fold("gold")] == ClampReal(Carried(old(graph.state), Fold("gold"), goldOverride), 0.0, goldCapacity)
      ensures graph.nodes[Fold("ore")] == NodeDefinition("ore", oreCapacity, OreGeneration)
              && graph.state[Fold("ore")] == ClampReal(Carried(old(graph.state), Fold("ore"), oreOverride), 0.0, oreCapacity)
      ensures graph.nodes == ConfiguredNodes(old(graph.nodes), oreCapacity, goldCapacity)
      ensures graph.state == ConfiguredState(old(graph.state), oreCapacity, goldCapacity, oreOverride, goldOverride)
    {
      var state := graph.ExportState();
      var oreValue := Carried(state, Fold("ore"), oreOverride);
      var goldValue := Carried(state, Fold("gold"), goldOverride);
      OreAndGoldDiffer();
      WriteNode(NodeDefinition("gold", goldCapacity, GoldGeneration), goldValue);
      WriteNode(NodeDefinition("ore", oreCapacity, OreGeneration), oreValue);
    }

    /** One node upsert with a floor of zero, which the graph always accepts. */
    method WriteNode(definition: NodeDefinition, value: real)
      requires Valid() && definition.minimum == 0.0 <= definition.capacity
      modifies graph
      ensures Valid() && graph.edges == old(graph.edges)
      ensures graph.nodes == old(graph.nodes)[Fold(definition.id) := definition]
      ensures graph.state == old(graph.state)[Fold(definition.id) := ClampReal(value, 0.0, definition.capacity)]
    {
      var _ := graph.UpsertNode(definition, value);
    }

    /** Writes the ore-to-gold edge with the current rate and efficiency. */
    method ConfigureEdge()
      requires Valid() && Fold("ore") in graph.nodes && Fold("gold") in graph.nodes
      modifies graph
      ensures Valid() && graph.nodes == old(graph.nodes) && graph.state == old(graph.state)
      ensures graph.edges == UpsertedEdges(old(graph.edges), OreToGold(oreTransferRate, oreToGoldEfficiency))
    {
      var _ := graph.UpsertEdge(OreToGold(oreTransferRate, oreToGoldEfficiency));
    }

    /** Configures the nodes, then the edge, once; later calls change nothing. */
    method Initialize()
      requires Valid()
      modifies this, graph
      ensures Valid() && initialized
      ensures old(initialized) ==> unchanged(this) && unchanged(graph)
      ensures !old(initialized) ==>
                graph.nodes == ConfiguredNodes(old(graph.nodes), oreCapacity, goldCapacity)
                && graph.state == ConfiguredState(old(graph.state), oreCapacity, goldCapacity, None, None)
                && graph.edges == UpsertedEdges(old(graph.edges), OreToGold(oreTransferRate, oreToGoldEfficiency))
      ensures oreTransferRate == old(oreTransferRate) && oreToGoldEfficiency == old(oreToGoldEfficiency)
      ensures oreCapacity == old(oreCapacity) && goldCapacity == old(goldCapacity)
    {
      if !initialized {
        Configure();
        MarkInitialized();
      }
    }

    /** Records that the configuration has been written. */
    method MarkInitialized()
      requires Valid() && Fold("ore") in graph.nodes && Fold("gold") in graph.nodes
      modifies this
      ensures Valid() && initialized
      ensures oreTransferRate == old(oreTransferRate) && oreToGoldEfficiency == old(oreToGoldEfficiency)
      ensures oreCapacity == old(oreCapacity) && goldCapacity == old(goldCapacity)
    {
      initialized := true;
    }

    /** The nodes, then the edge: what the first Initialize writes. */
    method Configure()
      requires Valid()
      modifies graph
      ensures Valid() && Fold("ore") in graph.nodes && Fold("gold") in graph.nodes
      ensures graph.nodes == ConfiguredNodes(old(graph.nodes), oreCapacity, goldCapacity)
      ensures graph.state == ConfiguredState(old(graph.state), oreCapacity, goldCapacity, None, None)
      ensures graph.edges == UpsertedEdges(old(graph.edges), OreToGold(oreTransferRate, oreToGoldEfficiency))
    {
      ConfigureNodes(None, None);
      ConfigureEdge();
    }

    /** Rewrites both nodes with the current capacities, creating them when missing, and sets
        their stocks to the given values clamped to the new ranges. */
    method ReseedResources(oreStock: real, goldStock: real)
      requires Valid()
      modifies graph
      ensures Valid() && graph.edges == old(graph.edges)
      ensures graph.nodes == ConfiguredNodes(old(graph.nodes), oreCapacity, goldCapacity)
      ensures graph.state == old(graph.state)[Fold("gold") := ClampReal(goldStock, 0.0, goldCapacity)]
                                             [Fold("ore") := ClampReal(oreStock, 0.0, oreCapacity)]
    {
      ConfigureNodes(Some(oreStock), Some(goldStock));
    }

    /** The ore transfer rate setter: stores the clamped value and, once initialised,
        rewrites the edge. */
    method SetOreTransferRate(value: real)
      requires Valid()
      modifies this, graph
      ensures Valid() && initialized == old(initialized)
      ensures oreTransferRate == ClampReal(value, MinTransferRate, MaxTransferRate)
      ensures oreToGoldEfficiency == old(oreToGoldEfficiency) && oreCapacity == old(oreCapacity) && goldCapacity == old(goldCapacity)
      ensures !initialized ==> unchanged(graph)
      ensures initialized ==> graph.nodes == old(graph.nodes) && graph.state == old(graph.state)
                              && graph.edges == UpsertedEdges(old(graph.edges), OreToGold(oreTransferRate, oreToGoldEfficiency))
    {
      oreTransferRate := ClampReal(value, MinTransferRate, MaxTransferRate);
      if initialized {
        ConfigureEdge();
      }
    }

    /** The efficiency setter: stores the clamped value and, once initialised, rewrites the edge. */
    method SetOreToGoldEfficiency(value: real)
      requires Valid()
      modifies this, graph
      ensures Valid() && initialized == old(initialized)
      ensures oreToGoldEfficiency == ClampReal(value, MinEfficiency, MaxEfficiency)
      ensures oreTransferRate == old(oreTransferRate) && oreCapacity == old(oreCapacity) && goldCapacity == old(goldCapacity)
      ensures !initialized ==> unchanged(graph)
      ensures initialized ==> graph.nodes == old(graph.nodes) && graph.state == old(graph.state)
                              && graph.edges == UpsertedEdges(old(graph.edges), OreToGold(oreTransferRate, oreToGoldEfficiency))
    {
      oreToGoldEfficiency := ClampReal(value, MinEfficiency, MaxEfficiency);
      if initialized {
        ConfigureEdge();
      }
    }

    /** The ore capacity setter: stores the clamped value and, once initialised, rewrites both
        nodes, keeping their stocks within the new ranges. */
    method SetOreCapacity(value: real)
      requires Valid()
      modifies this, graph
      ensures Valid() && initialized == old(initialized)
      ensures oreCapacity == ClampReal(value, MinOreCapacity, MaxOreCapacity)
      ensures oreTransferRate == old(oreTransferRate) && oreToGoldEfficiency == old(oreToGoldEfficiency) && goldCapacity == old(goldCapacity)
      ensures !initialized ==> unchanged(graph)
      ensures initialized ==> graph.edges == old(graph.edges)
                              && graph.nodes[Fold("ore")] == NodeDefinition("ore", oreCapacity, OreGeneration)
                              && graph.state[Fold("ore")] == ClampReal(old(graph.state)[Fold("ore")], 0.0, oreCapacity)
      ensures initialized ==> graph.nodes == ConfiguredNodes(old(graph.nodes), oreCapacity, goldCapacity)
                              && graph.state == ConfiguredState(old(graph.state), oreCapacity, goldCapacity, None, None)
    {
      oreCapacity := ClampReal(value, MinOreCapacity, MaxOreCapacity);
      if initialized {
        ConfigureNodes(None, None);
      }
    }

    /** The gold capacity setter: stores the clamped value and, once initialised, rewrites both
        nodes, keeping their stocks within the new ranges. */
    method SetGoldCapacity(value: real)
      requires Valid()
      modifies this, graph
      ensures Valid() && initialized == old(initialized)
      ensures goldCapacity == ClampReal(value, MinGoldCapacity, MaxGoldCapacity)
      ensures oreTransferRate == old(oreTransferRate) && oreToGoldEfficiency == old(oreToGoldEfficiency) && oreCapacity == old(oreCapacity)
      ensures !initialized ==> unchanged(graph)
      ensures initialized ==> graph.edges == old(graph.edges)
                              && graph.nodes[Fold("gold")] == NodeDefinition("gold", goldCapacity, GoldGeneration)
                              && graph.state[Fold("gold")] == ClampReal(old(graph.state)[Fold("gold")], 0.0, goldCapacity)
      ensures initialized ==> graph.nodes == ConfiguredNodes(old(graph.nodes), oreCapacity, goldCapacity)
                              && graph.state == ConfiguredState(old(graph.state), oreCapacity, goldCapacity, None, None)
    {
      goldCapacity := ClampReal(value, MinGoldCapacity, MaxGoldCapacity);
      if initialized {
        ConfigureNodes(None, None);
      }
    }

    /** The resource snapshot query: the graph's stocks. */
    method SnapshotResources() returns (r: map<string, real>)
      requires Valid()
      ensures r == graph.state
    {
      r := graph.ExportState();
    }
  }
}
