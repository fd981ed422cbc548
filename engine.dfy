/**
  The coordinator's state as a value: the block registry, the connection
  graph and the completion messages in flight, with the consistency
  invariant every coordinator operation keeps.
*/
module EngineState {
  import opened Block
  import opened Digraph

  /** Lane count of the input and output buffers the engine allocates per dispatch. */
  const EngineLanes: nat := 128

  /** A completion message of the worker pool. */
  datatype ResultData = ResultData(blockId: BlockId, resultData: IOData)

  /** Every block's `data`, keyed by id. */
  function DataOf(blocks: map<BlockId, Block>): (m: map<BlockId, IOData>)
    ensures m.Keys == blocks.Keys
    ensures forall id :: id in blocks ==> m[id] == blocks[id].data
  {
    map id | id in blocks :: blocks[id].data
  }

  /** The port pairs recorded for predecessor `from`, empty when there are none. */
  function PortsFrom(inputs: map<BlockId, set<(nat, nat)>>, from: BlockId): set<(nat, nat)>
  {
    if from in inputs then inputs[from] else {}
  }

  /** Lane `fp` of predecessor `from` is wired to own lane `tp`. */
  predicate Feeds(inputs: map<BlockId, set<(nat, nat)>>, from: BlockId, fp: nat, tp: nat)
  {
    from in inputs && (fp, tp) in inputs[from]
  }

  /** Some predecessor is wired to own lane `tp`. */
  ghost predicate Targeted(inputs: map<BlockId, set<(nat, nat)>>, tp: nat)
  {
    exists from, fp :: Feeds(inputs, from, fp, tp)
  }

  /** `lane` is a copy of lane `fp` of `src[from]`, which is wired to own lane `tp`. */
  ghost predicate CopiedFrom(lane: Lane, inputs: map<BlockId, set<(nat, nat)>>, src: map<BlockId, IOData>,
                             tp: nat, from: BlockId, fp: nat)
  {
    Feeds(inputs, from, fp, tp) && from in src && fp < |src[from]| && lane == src[from][fp]
  }

  /**
    What `update_block_inputs` builds: 128 lanes of `bufferSize` samples; a
    lane no predecessor is wired to stays silent, and every other lane is an
    exact copy of one of the predecessor lanes wired to it (fan-in overwrites,
    and which writer comes last depends on hash-set iteration order).
  */
  ghost predicate AssembledFrom(lanes: IOData, inputs: map<BlockId, set<(nat, nat)>>,
                                src: map<BlockId, IOData>, bufferSize: nat)
  {
    && |lanes| == EngineLanes
    && (forall tp :: 0 <= tp < EngineLanes ==> |lanes[tp]| == bufferSize)
    && (forall tp :: 0 <= tp < EngineLanes && !Targeted(inputs, tp) ==> lanes[tp] == Zeros(bufferSize))
    && (forall tp :: 0 <= tp < EngineLanes && Targeted(inputs, tp) ==>
          exists from, fp :: CopiedFrom(lanes[tp], inputs, src, tp, from, fp))
  }

  /** The assembly only depends on the predecessors' data. */
  lemma AssembledFromAgree(lanes: IOData, inputs: map<BlockId, set<(nat, nat)>>,
                           src1: map<BlockId, IOData>, src2: map<BlockId, IOData>, bufferSize: nat)
    requires AssembledFrom(lanes, inputs, src1, bufferSize)
    requires forall from :: from in inputs && from in src1 ==> from in src2 && src2[from] == src1[from]
    ensures AssembledFrom(lanes, inputs, src2, bufferSize)
  {
    forall tp | 0 <= tp < EngineLanes && Targeted(inputs, tp)
      ensures exists from, fp :: CopiedFrom(lanes[tp], inputs, src2, tp, from, fp)
    {
      var from, fp :| CopiedFrom(lanes[tp], inputs, src1, tp, from, fp);
      assert CopiedFrom(lanes[tp], inputs, src2, tp, from, fp);
    }
  }

  /** The structural part of the blocks (everything but `data` and `d_in_cur`) is the same. */
  ghost predicate SameWiring(a: map<BlockId, Block>, b: map<BlockId, Block>)
  {
    && a.Keys == b.Keys
    && forall id :: id in a ==>
         && b[id].process == a[id].process && b[id].portLen == a[id].portLen
         && b[id].inputs == a[id].inputs && b[id].dIn == a[id].dIn
  }

  /**
    `inputs.entry(from).and_modify(|s| s.insert(pair)).or_insert({pair})`:
    the pair joins the set recorded for `from`, which is created when absent.
  */
  function AddPortMatch(inputs: map<BlockId, set<(nat, nat)>>, from: BlockId, pair: (nat, nat))
    : (m: map<BlockId, set<(nat, nat)>>)
    ensures m.Keys == inputs.Keys + {from}
    ensures m[from] == PortsFrom(inputs, from) + {pair}
    ensures forall p :: p in inputs && p != from ==> m[p] == inputs[p]
  {
    if from in inputs then inputs[from := inputs[from] + {pair}] else inputs[from := {pair}]
  }

  /**
    A snapshot of the coordinator's fields, on which its invariants and the
    steps of an evaluation pass are stated.
  */
  datatype Engine = Engine(
    time: Time,
    blocks: map<BlockId, Block>,
    bufferSize: nat,
    numChannels: nat,
    outputs: set<BlockId>,
    nodeCount: nat,
    edges: seq<Edge>,
    blockMap: map<BlockId, NodeIndex>,
    nodeMap: map<NodeIndex, BlockId>,
    inFlight: multiset<ResultData>)
  {
    /** `blockMap` and `nodeMap` are mutually inverse between the registered ids and the nodes `0 .. nodeCount`. */
    ghost predicate Registry()
    {
      && (forall v :: v in nodeMap <==> 0 <= v < nodeCount)
      && blockMap.Keys == blocks.Keys
      && (forall id :: id in blockMap ==> blockMap[id] in nodeMap && nodeMap[blockMap[id]] == id)
      && (forall v :: v in nodeMap ==> nodeMap[v] in blockMap && blockMap[nodeMap[v]] == v)
    }

    /** Every edge joins two nodes. */
    ghost predicate EdgesInRange()
    {
      forall k :: 0 <= k < |edges| ==> edges[k].0 < nodeCount && edges[k].1 < nodeCount
    }

    /** Every block's `d_in` is its node's in-degree. */
    ghost predicate DegreesMatch()
      requires Registry()
    {
      forall id :: id in blocks ==> blocks[id].dIn == InDegree(edges, blockMap[id])
    }

    /** The target of every edge records an input entry for the edge's source. */
    ghost predicate EdgesRecorded()
      requires Registry() && EdgesInRange()
    {
      forall k :: 0 <= k < |edges| ==> nodeMap[edges[k].0] in blocks[nodeMap[edges[k].1]].inputs
    }

    /** Every input entry of a block belongs to an edge from that predecessor. */
    ghost predicate InputsAreEdges()
      requires Registry()
    {
      forall id, from :: id in blocks && from in blocks[id].inputs ==>
        from in blockMap && (blockMap[from], blockMap[id]) in edges
    }

    /**
      Every edge joins two nodes, every block's `d_in` is its in-degree, and a
      block records an input entry exactly for its predecessors.
    */
    ghost predicate Wired()
      requires Registry()
    {
      EdgesInRange() && DegreesMatch() && EdgesRecorded() && InputsAreEdges()
    }

    /** The registry and the graph agree, and pending messages belong to registered blocks and carry 128 lanes. */
    ghost predicate Valid()
    {
      && Registry()
      && Wired()
      && (forall r :: r in inFlight ==> r.blockId in blocks && |r.resultData| == EngineLanes)
    }

    /** The block at node `v`. */
    ghost function BlockAt(v: NodeIndex): Block
      requires Registry() && v < nodeCount
    {
      blocks[nodeMap[v]]
    }

    /** Every recorded port pair names one of the 128 engine lanes on both sides. */
    ghost predicate PortsInRange()
    {
      forall id, from, fp: nat, tp: nat :: id in blocks && Feeds(blocks[id].inputs, from, fp, tp) ==>
        fp < EngineLanes && tp < EngineLanes
    }

    /** The predecessor lanes read when assembling block `id`'s input exist and span the buffer. */
    ghost predicate FedInputs(id: BlockId)
      requires id in blocks
    {
      forall from, fp: nat, tp: nat :: Feeds(blocks[id].inputs, from, fp, tp) ==>
        tp < EngineLanes && from in blocks && fp < |blocks[from].data| && |blocks[from].data[fp]| == bufferSize
    }

    /** Every pending message belongs to a block without successors. */
    ghost predicate InFlightAreSinks()
    {
      forall r :: r in inFlight ==> r.blockId in blockMap && IsSink(edges, blockMap[r.blockId])
    }
  }

  /**
    The incoming neighbours of node `v` are exactly the blocks its input
    table records: each one has an entry, and each entry belongs to one.
  */
  lemma IncomingWired(e: Engine, v: NodeIndex)
    requires e.Registry() && e.EdgesInRange() && e.EdgesRecorded() && e.InputsAreEdges() && v < e.nodeCount
    ensures forall x :: x in Predecessors(e.edges, v) ==> x in e.nodeMap && e.nodeMap[x] in e.BlockAt(v).inputs
    ensures forall from :: from in e.BlockAt(v).inputs ==>
              exists b :: 0 <= b < |Predecessors(e.edges, v)| && Predecessors(e.edges, v)[b] in e.nodeMap
                          && e.nodeMap[Predecessors(e.edges, v)[b]] == from
  {
    PredecessorsRecorded(e, v);
    RecordsArePredecessors(e, v);
  }

  lemma PredecessorsRecorded(e: Engine, v: NodeIndex)
    requires e.Registry() && e.EdgesInRange() && e.EdgesRecorded() && v < e.nodeCount
    ensures forall x :: x in Predecessors(e.edges, v) ==> x in e.nodeMap && e.nodeMap[x] in e.BlockAt(v).inputs
  {
    var pres := Predecessors(e.edges, v);
    forall x | x in pres
      ensures x in e.nodeMap && e.nodeMap[x] in e.BlockAt(v).inputs
    {
      PredecessorIsEdge(e.edges, v, x);
      var k :| 0 <= k < |e.edges| && e.edges[k] == (x, v);
      assert e.nodeMap[e.edges[k].0] in e.blocks[e.nodeMap[e.edges[k].1]].inputs;
    }
  }

  lemma RecordsArePredecessors(e: Engine, v: NodeIndex)
    requires e.Registry() && e.InputsAreEdges() && v < e.nodeCount
    ensures forall from :: from in e.BlockAt(v).inputs ==>
              exists b :: 0 <= b < |Predecessors(e.edges, v)| && Predecessors(e.edges, v)[b] in e.nodeMap
                          && e.nodeMap[Predecessors(e.edges, v)[b]] == from
  {
    forall from | from in e.BlockAt(v).inputs
      ensures exists b :: 0 <= b < |Predecessors(e.edges, v)| && Predecessors(e.edges, v)[b] in e.nodeMap
                          && e.nodeMap[Predecessors(e.edges, v)[b]] == from
    {
      RecordIsPredecessor(e, v, from);
    }
  }

  lemma RecordIsPredecessor(e: Engine, v: NodeIndex, from: BlockId)
    requires e.Registry() && e.InputsAreEdges() && v < e.nodeCount && from in e.BlockAt(v).inputs
    ensures exists b :: 0 <= b < |Predecessors(e.edges, v)| && Predecessors(e.edges, v)[b] in e.nodeMap
                        && e.nodeMap[Predecessors(e.edges, v)[b]] == from
  {
    var pres := Predecessors(e.edges, v);
    var id := e.nodeMap[v];
    assert id in e.blocks && from in e.blocks[id].inputs && e.blockMap[id] == v;
    var u := e.blockMap[from];
    assert (u, v) in e.edges;
    var k :| 0 <= k < |e.edges| && e.edges[k] == (u, v);
    EdgeIsPredecessor(e.edges, k);
    var b :| 0 <= b < |pres| && pres[b] == u;
    assert 0 <= b < |pres| && pres[b] in e.nodeMap && e.nodeMap[pres[b]] == from;
  }

  /**
    The successors of node `u` are nodes of the graph, and no block's counter
    would drop below zero when each of them loses one per edge.
  */
  lemma SuccessorsWired(e: Engine, u: NodeIndex)
    requires e.Registry() && e.EdgesInRange()
    requires forall w :: 0 <= w < e.nodeCount ==> multiset(Successors(e.edges, u))[w] <= e.BlockAt(w).dInCur
    ensures forall x :: x in Successors(e.edges, u) ==> x in e.nodeMap && e.nodeMap[x] in e.blocks && e.blockMap[e.nodeMap[x]] == x
    ensures forall id :: id in e.blocks ==> multiset(Successors(e.edges, u))[e.blockMap[id]] <= e.blocks[id].dInCur
  {
    forall x | x in Successors(e.edges, u)
      ensures x < e.nodeCount
    {
      SuccessorIsEdge(e.edges, u, x);
    }
    forall id | id in e.blocks
      ensures multiset(Successors(e.edges, u))[e.blockMap[id]] <= e.blocks[id].dInCur
    {
      assert e.BlockAt(e.blockMap[id]) == e.blocks[id];
    }
  }

  /** The engine with new block records and new pending messages. */
  ghost function Updated(e: Engine, blocks: map<BlockId, Block>, inFlight: multiset<ResultData>): Engine
  {
    e.(blocks := blocks, inFlight := inFlight)
  }

  /** Two engine states that differ at most in their block records and their pending messages. */
  ghost predicate SameGraph(e0: Engine, e1: Engine)
  {
    && e1.time == e0.time && e1.bufferSize == e0.bufferSize && e1.numChannels == e0.numChannels
    && e1.outputs == e0.outputs && e1.nodeCount == e0.nodeCount && e1.edges == e0.edges
    && e1.blockMap == e0.blockMap && e1.nodeMap == e0.nodeMap
  }

  /** ... are an update of the blocks and messages. */
  lemma SameGraphUpdated(e0: Engine, e1: Engine)
    requires SameGraph(e0, e1)
    ensures e1 == Updated(e0, e1.blocks, e1.inFlight)
  {
  }

  lemma SameWiringKeepsRegistry(e: Engine, blocks: map<BlockId, Block>, inFlight: multiset<ResultData>)
    requires e.Registry() && blocks.Keys == e.blocks.Keys
    ensures Updated(e, blocks, inFlight).Registry() && Updated(e, blocks, inFlight).EdgesInRange() == e.EdgesInRange()
  {
  }

  lemma SameWiringKeepsDegrees(e: Engine, blocks: map<BlockId, Block>, inFlight: multiset<ResultData>)
    requires e.Registry() && e.DegreesMatch() && SameWiring(e.blocks, blocks)
    requires Updated(e, blocks, inFlight).Registry()
    ensures Updated(e, blocks, inFlight).DegreesMatch()
  {
  }

  lemma SameWiringKeepsRecorded(e: Engine, blocks: map<BlockId, Block>, inFlight: multiset<ResultData>)
    requires e.Registry() && e.EdgesInRange() && e.EdgesRecorded() && SameWiring(e.blocks, blocks)
    requires Updated(e, blocks, inFlight).Registry() && Updated(e, blocks, inFlight).EdgesInRange()
    ensures Updated(e, blocks, inFlight).EdgesRecorded()
  {
  }

  lemma SameWiringKeepsInputs(e: Engine, blocks: map<BlockId, Block>, inFlight: multiset<ResultData>)
    requires e.Registry() && e.InputsAreEdges() && SameWiring(e.blocks, blocks)
    requires Updated(e, blocks, inFlight).Registry()
    ensures Updated(e, blocks, inFlight).InputsAreEdges()
  {
  }

  /** Changing only the blocks' data and counters, and the pending messages, keeps the engine consistent. */
  lemma DataChangeKeepsValid(e: Engine, blocks: map<BlockId, Block>, inFlight: multiset<ResultData>)
    requires e.Valid() && SameWiring(e.blocks, blocks)
    requires forall r :: r in inFlight ==> r.blockId in blocks && |r.resultData| == EngineLanes
    ensures Updated(e, blocks, inFlight).Valid()
  {
    SameWiringKeepsRegistry(e, blocks, inFlight);
    SameWiringKeepsDegrees(e, blocks, inFlight);
    SameWiringKeepsRecorded(e, blocks, inFlight);
    SameWiringKeepsInputs(e, blocks, inFlight);
  }

  /** The recorded port pairs depend on the wiring only. */
  lemma SameWiringKeepsPorts(e0: Engine, e1: Engine)
    requires e0.PortsInRange() && SameWiring(e0.blocks, e1.blocks)
    ensures e1.PortsInRange()
  {
    forall id, from, fp: nat, tp: nat | id in e1.blocks && Feeds(e1.blocks[id].inputs, from, fp, tp)
      ensures fp < EngineLanes && tp < EngineLanes
    {
      assert Feeds(e0.blocks[id].inputs, from, fp, tp);
    }
  }

  lemma ClockKeepsRegistry(e: Engine, t: Time, n: nat)
    requires e.Registry() && e.EdgesInRange()
    ensures e.(time := t, bufferSize := n).Registry() && e.(time := t, bufferSize := n).EdgesInRange()
  {
  }

  lemma ClockKeepsWiring(e: Engine, t: Time, n: nat)
    requires e.Registry() && e.EdgesInRange() && e.DegreesMatch() && e.EdgesRecorded()
    ensures e.(time := t, bufferSize := n).Registry() && e.(time := t, bufferSize := n).EdgesInRange()
    ensures e.(time := t, bufferSize := n).DegreesMatch() && e.(time := t, bufferSize := n).EdgesRecorded()
  {
    ClockKeepsRegistry(e, t, n);
  }

  lemma ClockKeepsInputs(e: Engine, t: Time, n: nat)
    requires e.Registry() && e.InputsAreEdges()
    requires e.(time := t, bufferSize := n).Registry()
    ensures e.(time := t, bufferSize := n).InputsAreEdges()
  {
  }

  /** The clock and the buffer size take no part in the engine's consistency. */
  lemma ClockKeepsValid(e: Engine, t: Time, n: nat)
    requires e.Valid()
    ensures e.(time := t, bufferSize := n).Valid()
    ensures e.PortsInRange() ==> e.(time := t, bufferSize := n).PortsInRange()
    ensures e.InFlightAreSinks() ==> e.(time := t, bufferSize := n).InFlightAreSinks()
  {
    ClockKeepsWiring(e, t, n);
    ClockKeepsInputs(e, t, n);
  }

  /** The engine after `add_block`: `block` registered under `id` as node `nodeCount`. */
  ghost function Added(e: Engine, id: BlockId, block: Block): Engine
  {
    e.(blocks := e.blocks[id := block], nodeCount := e.nodeCount + 1,
       blockMap := e.blockMap[id := e.nodeCount], nodeMap := e.nodeMap[e.nodeCount := id])
  }

  lemma AddBlockKeepsRegistry(e: Engine, id: BlockId, block: Block)
    requires e.Registry() && e.EdgesInRange() && id !in e.blocks
    ensures Added(e, id, block).Registry() && Added(e, id, block).EdgesInRange()
  {
  }

  lemma AddBlockKeepsRecorded(e: Engine, id: BlockId, block: Block)
    requires e.Registry() && e.EdgesInRange() && e.EdgesRecorded() && id !in e.blocks
    requires Added(e, id, block).Registry() && Added(e, id, block).EdgesInRange()
    ensures Added(e, id, block).EdgesRecorded()
  {
    var e' := Added(e, id, block);
    forall k | 0 <= k < |e.edges|
      ensures e'.nodeMap[e.edges[k].0] in e'.blocks[e'.nodeMap[e.edges[k].1]].inputs
    {
      assert e'.nodeMap[e.edges[k].0] == e.nodeMap[e.edges[k].0];
      assert e'.nodeMap[e.edges[k].1] == e.nodeMap[e.edges[k].1];
    }
  }

  lemma AddBlockKeepsInputs(e: Engine, id: BlockId, block: Block)
    requires e.Registry() && e.InputsAreEdges() && id !in e.blocks && block.inputs == map[]
    requires Added(e, id, block).Registry()
    ensures Added(e, id, block).InputsAreEdges()
  {
  }

  lemma AddBlockKeepsDegrees(e: Engine, id: BlockId, block: Block)
    requires e.Registry() && e.EdgesInRange() && e.DegreesMatch() && id !in e.blocks && block.dIn == 0
    requires Added(e, id, block).Registry()
    ensures Added(e, id, block).DegreesMatch()
  {
    InDegreeZero(e.edges, e.nodeCount);
  }

  /**
    Registering a block without inputs as a new node keeps the engine
    consistent, and the new node is a source and a sink.
  */
  /** A new block records no ports. */
  lemma AddBlockKeepsPorts(e: Engine, id: BlockId, block: Block)
    requires e.PortsInRange() && block.inputs == map[]
    ensures Added(e, id, block).PortsInRange()
  {
  }

  lemma AddBlockKeepsValid(e: Engine, id: BlockId, block: Block)
    requires e.Valid() && id !in e.blocks && block.inputs == map[] && block.dIn == 0
    ensures Added(e, id, block).Valid()
    ensures InDegree(e.edges, e.nodeCount) == 0 && IsSink(e.edges, e.nodeCount)
    ensures e.InFlightAreSinks() ==> Added(e, id, block).InFlightAreSinks()
  {
    InDegreeZero(e.edges, e.nodeCount);
    SinkHasNoEdge(e.edges, e.nodeCount);
    AddBlockKeepsRegistry(e, id, block);
    AddBlockKeepsRecorded(e, id, block);
    AddBlockKeepsInputs(e, id, block);
    AddBlockKeepsDegrees(e, id, block);
  }

  /** The engine after `connect(from, to)` with port pair `pair`. */
  ghost function Connected(e: Engine, fromId: BlockId, toId: BlockId, pair: (nat, nat)): Engine
    requires e.Registry() && fromId in e.blocks && toId in e.blocks
  {
    var b := e.blocks[toId];
    e.(edges := e.edges + [(e.blockMap[fromId], e.blockMap[toId])],
       blocks := e.blocks[toId := b.(inputs := AddPortMatch(b.inputs, fromId, pair), dIn := b.dIn + 1)])
  }

  lemma ConnectKeepsRegistry(e: Engine, fromId: BlockId, toId: BlockId, pair: (nat, nat))
    requires e.Registry() && e.EdgesInRange() && fromId in e.blocks && toId in e.blocks
    ensures Connected(e, fromId, toId, pair).Registry()
    ensures Connected(e, fromId, toId, pair).EdgesInRange()
  {
  }

  lemma ConnectKeepsDegrees(e: Engine, fromId: BlockId, toId: BlockId, pair: (nat, nat))
    requires e.Registry() && e.DegreesMatch() && fromId in e.blocks && toId in e.blocks
    requires Connected(e, fromId, toId, pair).Registry()
    ensures Connected(e, fromId, toId, pair).DegreesMatch()
  {
    var e' := Connected(e, fromId, toId, pair);
    forall id | id in e'.blocks
      ensures e'.blocks[id].dIn == InDegree(e'.edges, e'.blockMap[id])
    {
      InDegreeAppend(e.edges, (e.blockMap[fromId], e.blockMap[toId]), e.blockMap[id]);
    }
  }

  lemma ConnectKeepsRecorded(e: Engine, fromId: BlockId, toId: BlockId, pair: (nat, nat))
    requires e.Registry() && e.EdgesInRange() && e.EdgesRecorded() && fromId in e.blocks && toId in e.blocks
    requires Connected(e, fromId, toId, pair).Registry() && Connected(e, fromId, toId, pair).EdgesInRange()
    ensures Connected(e, fromId, toId, pair).EdgesRecorded()
  {
    var e' := Connected(e, fromId, toId, pair);
    forall k | 0 <= k < |e'.edges|
      ensures e'.nodeMap[e'.edges[k].0] in e'.blocks[e'.nodeMap[e'.edges[k].1]].inputs
    {
      if k < |e.edges| {
        assert e'.edges[k] == e.edges[k];
      }
    }
  }

  /** After `connect`, a block's input entries are the old ones plus `from` at the target. */
  lemma ConnectedInputs(e: Engine, fromId: BlockId, toId: BlockId, pair: (nat, nat))
    requires e.Registry() && fromId in e.blocks && toId in e.blocks
    ensures Connected(e, fromId, toId, pair).blocks.Keys == e.blocks.Keys
    ensures forall id, p :: id in e.blocks && p in Connected(e, fromId, toId, pair).blocks[id].inputs ==>
              (id == toId && p == fromId) || p in e.blocks[id].inputs
  {
  }

  /** After `connect`, every old edge and the new one are present. */
  lemma ConnectedEdges(e: Engine, fromId: BlockId, toId: BlockId, pair: (nat, nat))
    requires e.Registry() && e.InputsAreEdges() && fromId in e.blocks && toId in e.blocks
    ensures forall id, p :: id in e.blocks && p in e.blocks[id].inputs ==>
              (e.blockMap[p], e.blockMap[id]) in Connected(e, fromId, toId, pair).edges
    ensures (e.blockMap[fromId], e.blockMap[toId]) in Connected(e, fromId, toId, pair).edges
  {
    var edges' := Connected(e, fromId, toId, pair).edges;
    assert edges'[|e.edges|] == (e.blockMap[fromId], e.blockMap[toId]);
  }

  lemma ConnectKeepsInputs(e: Engine, fromId: BlockId, toId: BlockId, pair: (nat, nat))
    requires e.Registry() && e.InputsAreEdges() && fromId in e.blocks && toId in e.blocks
    requires Connected(e, fromId, toId, pair).Registry()
    ensures Connected(e, fromId, toId, pair).InputsAreEdges()
  {
    ConnectedInputs(e, fromId, toId, pair);
    ConnectedEdges(e, fromId, toId, pair);
  }

  /** A connection between two of the 128 lanes keeps every recorded port in range. */
  lemma ConnectKeepsPorts(e: Engine, fromId: BlockId, toId: BlockId, pair: (nat, nat))
    requires e.Registry() && fromId in e.blocks && toId in e.blocks && e.PortsInRange()
    requires pair.0 < EngineLanes && pair.1 < EngineLanes
    ensures Connected(e, fromId, toId, pair).PortsInRange()
  {
    var blocks := Connected(e, fromId, toId, pair).blocks;
    forall id, from, fp: nat, tp: nat | id in blocks && Feeds(blocks[id].inputs, from, fp, tp)
      ensures fp < EngineLanes && tp < EngineLanes
    {
      if id == toId && from == fromId && (fp, tp) != pair {
        assert (fp, tp) in PortsFrom(e.blocks[toId].inputs, fromId);
        assert Feeds(e.blocks[id].inputs, from, fp, tp);
      } else if id == toId && from != fromId {
        assert Feeds(e.blocks[id].inputs, from, fp, tp);
      }
    }
  }

  /** Connecting from a block without pending messages keeps every pending message's sender a sink. */
  lemma ConnectKeepsSinks(e: Engine, fromId: BlockId, toId: BlockId, pair: (nat, nat))
    requires e.Registry() && fromId in e.blocks && toId in e.blocks && e.InFlightAreSinks()
    requires forall r :: r in e.inFlight ==> r.blockId != fromId
    ensures Connected(e, fromId, toId, pair).InFlightAreSinks()
  {
    var edge := (e.blockMap[fromId], e.blockMap[toId]);
    forall r | r in e.inFlight
      ensures IsSink(e.edges + [edge], e.blockMap[r.blockId])
    {
      SuccessorsAppend(e.edges, edge, e.blockMap[r.blockId]);
    }
  }

  /** One more edge, its port pair and one more `d_in` keep the engine consistent. */
  lemma ConnectKeepsValid(e: Engine, fromId: BlockId, toId: BlockId, pair: (nat, nat))
    requires e.Valid() && fromId in e.blocks && toId in e.blocks
    ensures Connected(e, fromId, toId, pair).Valid()
  {
    ConnectKeepsRegistry(e, fromId, toId, pair);
    ConnectKeepsDegrees(e, fromId, toId, pair);
    ConnectKeepsRecorded(e, fromId, toId, pair);
    ConnectKeepsInputs(e, fromId, toId, pair);
  }

  /**
    The engine after `process_node(v)`: block `v`'s `data` holds the
    assembled input `a`, and its completion message carrying `out` is pending.
  */
  ghost function Dispatched(e: Engine, v: NodeIndex, a: IOData, out: IOData): Engine
    requires e.Registry() && v < e.nodeCount
  {
    var id := e.nodeMap[v];
    Updated(e, e.blocks[id := e.blocks[id].(data := a)], e.inFlight + multiset{ResultData(id, out)})
  }

  /**
    `e1` is `e0` after receiving completion `r`: the message leaves the pool,
    its data becomes the sender's `data`, and each block's `d_in_cur` drops by
    the number of edges from the sender to it.
  */
  ghost predicate Received(e0: Engine, e1: Engine, r: ResultData)
    requires e0.Registry() && r.blockId in e0.blocks
  {
    var succ := multiset(Successors(e0.edges, e0.blockMap[r.blockId]));
    && e1 == Updated(e0, e1.blocks, e0.inFlight - multiset{r})
    && e1.blocks.Keys == e0.blocks.Keys
    && forall id :: id in e1.blocks ==>
         && e1.blocks[id] == e0.blocks[id].(data := if id == r.blockId then r.resultData else e0.blocks[id].data,
                                            dInCur := e1.blocks[id].dInCur)
         && e1.blocks[id].dInCur + succ[e0.blockMap[id]] == e0.blocks[id].dInCur
  }

  /**
    Storing the result in the sender's `data` and then lowering every
    successor's counter once per edge is a receipt of `r`.
  */
  lemma ReceivedBy(e0: Engine, mid: map<BlockId, Block>, blocks: map<BlockId, Block>, r: ResultData)
    requires e0.Registry() && r.blockId in e0.blocks
    requires mid == e0.blocks[r.blockId := e0.blocks[r.blockId].(data := r.resultData)]
    requires blocks.Keys == mid.Keys
    requires forall id :: id in blocks ==>
               && blocks[id] == mid[id].(dInCur := blocks[id].dInCur)
               && blocks[id].dInCur + multiset(Successors(e0.edges, e0.blockMap[r.blockId]))[e0.blockMap[id]] == mid[id].dInCur
    ensures Received(e0, Updated(e0, blocks, e0.inFlight - multiset{r}), r)
  {
  }

  /** Receiving a completion keeps the engine consistent. */
  lemma ReceivedKeepsValid(e0: Engine, e1: Engine, r: ResultData)
    requires e0.Valid() && r in e0.inFlight && Received(e0, e1, r)
    ensures e1.Valid()
  {
    DataChangeKeepsValid(e0, e1.blocks, e1.inFlight);
  }
}
