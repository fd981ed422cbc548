/**
  One evaluation pass of the coordinator (`process`), as a ghost record of
  what happened so far and an invariant over the engine state, preserved by
  each dispatch of a ready node and by each received completion.
*/
module Evaluation {
  import opened Block
  import opened Digraph
  import opened EngineState

  /**
    Ghost record of one evaluation pass: the order being walked, the cursor,
    the dispatch log, the nodes whose completion of this pass was received,
    the completion messages of this pass still pending and those left over
    from earlier passes (`stale`), each dispatched block's assembled input and
    computed output, and for each dispatched node the set of completed nodes
    at its dispatch.
  */
  datatype Pass = Pass(
    order: seq<NodeIndex>,
    i: nat,
    log: seq<NodeIndex>,
    completed: set<NodeIndex>,
    pending: multiset<ResultData>,
    stale: multiset<ResultData>,
    assembled: map<BlockId, IOData>,
    outputOf: map<BlockId, IOData>,
    doneAt: map<NodeIndex, set<NodeIndex>>)

  /** The pass record before any dispatch, with the messages left over from earlier passes. */
  ghost function PassBegin(order: seq<NodeIndex>, leftOver: multiset<ResultData>): Pass
  {
    Pass(order, 0, [], {}, multiset{}, leftOver, map[], map[], map[])
  }

  /** The pass record after dispatching node `v` (block `id`), given input `a`, computing `out`. */
  ghost function AfterDispatch(ps: Pass, v: NodeIndex, id: BlockId, a: IOData, out: IOData): Pass
  {
    ps.(i := ps.i + 1, log := ps.log + [v],
        pending := ps.pending + multiset{ResultData(id, out)},
        assembled := ps.assembled[id := a], outputOf := ps.outputOf[id := out],
        doneAt := ps.doneAt[v := ps.completed])
  }

  /** The pass record after receiving `r`, sent by node `u`. */
  ghost function AfterDeliver(ps: Pass, r: ResultData, u: NodeIndex): Pass
  {
    if r in ps.pending then ps.(completed := ps.completed + {u}, pending := ps.pending - multiset{r})
    else ps.(stale := ps.stale - multiset{r})
  }

  /**
    The dispatched nodes are the first `i` of the order, the log lists them,
    and the per-block records of the pass are kept for exactly their blocks.
  */
  ghost predicate PassFrame(e: Engine, ps: Pass)
    requires e.Registry()
  {
    && ps.i <= |ps.order|
    && ps.log == ps.order[..ps.i]
    && (forall v :: v in ps.doneAt ==> v < e.nodeCount)
    && (forall j :: 0 <= j < |ps.order| ==> (ps.order[j] in ps.doneAt <==> j < ps.i))
    && ps.completed <= ps.doneAt.Keys
    && (forall id :: id in ps.outputOf <==> id in e.blocks && e.blockMap[id] in ps.doneAt)
    && ps.assembled.Keys == ps.outputOf.Keys
  }

  /**
    `d_in_cur` counts the incoming edges whose source has not completed, and a
    node was dispatched only after the sources of all its incoming edges had.
  */
  ghost predicate PassCounters(e: Engine, ps: Pass)
    requires e.Registry()
  {
    && (forall v :: 0 <= v < e.nodeCount ==>
          e.BlockAt(v).dInCur + InDegreeFrom(e.edges, ps.completed, v) == InDegree(e.edges, v))
    && (forall v :: v in ps.doneAt ==> ps.doneAt[v] <= ps.completed)
    && (forall k :: 0 <= k < |e.edges| && e.edges[k].1 in ps.doneAt ==> e.edges[k].0 in ps.doneAt[e.edges[k].1])
  }

  /** The pool holds the left-over messages of sinks plus the messages of this pass not received yet. */
  ghost predicate PassPool(e: Engine, ps: Pass, leftOver: multiset<ResultData>)
    requires e.Registry()
  {
    && e.inFlight == ps.stale + ps.pending
    && ps.stale <= leftOver
    && (forall r :: r in ps.stale ==> r.blockId in e.blocks && IsSink(e.edges, e.blockMap[r.blockId]))
  }

  /** Exactly one message is pending per dispatched block whose completion was not received yet. */
  ghost predicate PassPending(e: Engine, ps: Pass)
  {
    && (forall r :: r in ps.pending ==>
          && r.blockId in ps.outputOf && r.resultData == ps.outputOf[r.blockId]
          && r.blockId in e.blockMap && e.blockMap[r.blockId] !in ps.completed && ps.pending[r] == 1)
    && (forall id :: id in ps.outputOf && id in e.blockMap && e.blockMap[id] !in ps.completed ==>
          ResultData(id, ps.outputOf[id]) in ps.pending)
  }

  ghost predicate PassMessages(e: Engine, ps: Pass, leftOver: multiset<ResultData>)
    requires e.Registry()
  {
    PassPool(e, ps, leftOver) && PassPending(e, ps)
  }

  /** Each dispatched block computed its output from the input assembled from its predecessors' outputs. */
  ghost predicate PassResults(e: Engine, ps: Pass)
  {
    forall id :: id in ps.outputOf ==>
      && id in e.blocks && id in ps.assembled
      && ps.outputOf[id] == e.blocks[id].process(e.time, ps.assembled[id], NewIOData(EngineLanes, e.bufferSize), e.numChannels)
      && AssembledFrom(ps.assembled[id], e.blocks[id].inputs, ps.outputOf, e.bufferSize)
  }

  /**
    What a dispatched block holds: its assembled input until its completion
    is received, then its output; a sink may instead hold a left-over result
    of an earlier pass.
  */
  ghost predicate PassData(e: Engine, ps: Pass, leftOver: multiset<ResultData>)
    requires e.Registry()
  {
    && (forall id :: id in ps.outputOf ==> id in e.blocks && id in ps.assembled && |e.blocks[id].data| == EngineLanes)
    && (forall id :: id in ps.outputOf && id in e.blocks && id in ps.assembled && e.blockMap[id] !in ps.completed ==>
          e.blocks[id].data == ps.assembled[id] || ResultData(id, e.blocks[id].data) in leftOver)
    && (forall id :: id in ps.outputOf && id in e.blocks && e.blockMap[id] in ps.completed && IsSink(e.edges, e.blockMap[id]) ==>
          e.blocks[id].data == ps.outputOf[id] || ResultData(id, e.blocks[id].data) in leftOver)
    && (forall id :: id in ps.outputOf && id in e.blocks && e.blockMap[id] in ps.completed && !IsSink(e.edges, e.blockMap[id]) ==>
          e.blocks[id].data == ps.outputOf[id])
  }

  /**
    Invariant of an evaluation pass over engine state `e` walking a
    topological order, started from `base` (the blocks right after
    `reset_block`) with `leftOver` pending.
  */
  ghost predicate PassInv(e: Engine, ps: Pass, base: map<BlockId, Block>, leftOver: multiset<ResultData>)
  {
    && e.Valid()
    && e.PortsInRange()
    && IsTopologicalOrder(ps.order, e.nodeCount, e.edges)
    && SameWiring(base, e.blocks)
    && PassFrame(e, ps)
    && PassCounters(e, ps)
    && PassMessages(e, ps, leftOver)
    && PassResults(e, ps)
    && PassData(e, ps, leftOver)
  }

  /** Equal wiring is transitive. */
  lemma SameWiringTrans(a: map<BlockId, Block>, b: map<BlockId, Block>, c: map<BlockId, Block>)
    requires SameWiring(a, b) && SameWiring(b, c)
    ensures SameWiring(a, c)
  {
  }

  // ----- the start of a pass -----

  lemma PassBeginCounters(e: Engine, order: seq<NodeIndex>)
    requires e.Registry()
    requires forall id :: id in e.blocks ==> e.blocks[id].dInCur == e.blocks[id].dIn
    requires e.DegreesMatch()
    ensures PassCounters(e, PassBegin(order, e.inFlight))
  {
    forall v | 0 <= v < e.nodeCount
      ensures e.BlockAt(v).dInCur + InDegreeFrom(e.edges, {}, v) == InDegree(e.edges, v)
    {
      InDegreeFromNone(e.edges, v);
    }
  }

  lemma PassBeginMessages(e: Engine, order: seq<NodeIndex>)
    requires e.Registry() && e.InFlightAreSinks()
    requires PassFrame(e, PassBegin(order, e.inFlight))
    ensures PassMessages(e, PassBegin(order, e.inFlight), e.inFlight)
  {
  }

  /** Right after `reset_block`, nothing is dispatched and the first node of the order is ready. */
  lemma PassStart(e: Engine, order: seq<NodeIndex>)
    requires e.Valid() && e.PortsInRange() && e.InFlightAreSinks()
    requires IsTopologicalOrder(order, e.nodeCount, e.edges) && e.nodeCount > 0
    requires forall id :: id in e.blocks ==> e.blocks[id].dInCur == e.blocks[id].dIn
    ensures PassInv(e, PassBegin(order, e.inFlight), e.blocks, e.inFlight)
    ensures e.BlockAt(order[0]).dInCur == 0
  {
    assert PassFrame(e, PassBegin(order, e.inFlight));
    PassBeginCounters(e, order);
    PassBeginMessages(e, order);
    FirstHasNoInput(order, e.nodeCount, e.edges);
  }

  // ----- dispatching the node at the cursor -----

  /** What `Dispatched` changes. */
  lemma DispatchedFields(e: Engine, v: NodeIndex, a: IOData, out: IOData)
    requires e.Registry() && v < e.nodeCount
    ensures Dispatched(e, v, a, out).Registry()
    ensures Dispatched(e, v, a, out).BlockAt(v) == e.BlockAt(v).(data := a)
    ensures forall w :: 0 <= w < e.nodeCount && w != v ==> Dispatched(e, v, a, out).BlockAt(w) == e.BlockAt(w)
  {
  }

  /** The node at the cursor is not dispatched yet, so neither completed nor holding an output. */
  lemma DispatchFresh(e: Engine, ps: Pass, v: NodeIndex)
    requires e.Registry() && PassFrame(e, ps) && ps.i < |ps.order| && v == ps.order[ps.i] && v < e.nodeCount
    ensures v !in ps.doneAt && v !in ps.completed
    ensures e.nodeMap[v] in e.blocks && e.nodeMap[v] !in ps.outputOf && e.blockMap[e.nodeMap[v]] == v
  {
  }

  /** A node whose counter is 0 has the sources of all its incoming edges completed. */
  lemma DispatchInputsDone(e: Engine, ps: Pass, v: NodeIndex)
    requires e.Registry() && PassCounters(e, ps)
    requires v < e.nodeCount && e.BlockAt(v).dInCur == 0
    ensures forall k :: 0 <= k < |e.edges| && e.edges[k].1 == v ==> e.edges[k].0 in ps.completed
  {
    forall k | 0 <= k < |e.edges| && e.edges[k].1 == v
      ensures e.edges[k].0 in ps.completed
    {
      InDegreeFromFull(e.edges, ps.completed, v, k);
    }
  }

  /** ... so every predecessor it reads is a completed non-sink holding its output of this pass. */
  lemma DispatchInputsReady(e: Engine, ps: Pass, leftOver: multiset<ResultData>, v: NodeIndex)
    requires e.Registry() && e.InputsAreEdges() && PassFrame(e, ps) && PassData(e, ps, leftOver)
    requires v < e.nodeCount && v !in ps.completed
    requires forall k :: 0 <= k < |e.edges| && e.edges[k].1 == v ==> e.edges[k].0 in ps.completed
    ensures forall from :: from in e.BlockAt(v).inputs ==>
              && from in ps.outputOf && from != e.nodeMap[v]
              && e.blocks[from].data == ps.outputOf[from]
  {
    forall from | from in e.BlockAt(v).inputs
      ensures from in ps.outputOf && from != e.nodeMap[v] && e.blocks[from].data == ps.outputOf[from]
    {
      var u := e.blockMap[from];
      var k :| 0 <= k < |e.edges| && e.edges[k] == (u, v);
      SinkHasNoEdge(e.edges, u);
    }
  }

  /** ... and the lanes it reads exist and span the buffer. */
  lemma DispatchFed(e: Engine, ps: Pass, v: NodeIndex)
    requires e.Registry() && PassFrame(e, ps) && PassResults(e, ps) && e.PortsInRange() && v < e.nodeCount
    requires forall from :: from in e.BlockAt(v).inputs ==>
               from in ps.outputOf && e.blocks[from].data == ps.outputOf[from]
    ensures e.FedInputs(e.nodeMap[v])
  {
    var id := e.nodeMap[v];
    forall from, fp: nat, tp: nat | Feeds(e.blocks[id].inputs, from, fp, tp)
      ensures from in e.blocks && fp < |e.blocks[from].data| && |e.blocks[from].data[fp]| == e.bufferSize
    {
      assert SameShape(ps.outputOf[from], NewIOData(EngineLanes, e.bufferSize));
    }
  }

  lemma DispatchKeepsOrder(ps: Pass, v: NodeIndex, id: BlockId, a: IOData, out: IOData)
    requires Distinct(ps.order) && ps.i < |ps.order| && v == ps.order[ps.i]
    requires ps.log == ps.order[..ps.i]
    requires forall j :: 0 <= j < |ps.order| ==> (ps.order[j] in ps.doneAt <==> j < ps.i)
    ensures AfterDispatch(ps, v, id, a, out).log == ps.order[..ps.i + 1]
    ensures forall j :: 0 <= j < |ps.order| ==> (ps.order[j] in AfterDispatch(ps, v, id, a, out).doneAt <==> j < ps.i + 1)
  {
    assert ps.order[..ps.i + 1] == ps.order[..ps.i] + [v];
  }

  lemma DispatchKeepsFrame(e: Engine, ps: Pass, v: NodeIndex, a: IOData, out: IOData)
    requires e.Registry() && PassFrame(e, ps) && ps.i < |ps.order| && v == ps.order[ps.i] && v < e.nodeCount
    requires Distinct(ps.order)
    requires Dispatched(e, v, a, out).Registry()
    ensures PassFrame(Dispatched(e, v, a, out), AfterDispatch(ps, v, e.nodeMap[v], a, out))
  {
    DispatchFresh(e, ps, v);
    DispatchKeepsOrder(ps, v, e.nodeMap[v], a, out);
  }

  lemma DispatchKeepsCounters(e: Engine, ps: Pass, v: NodeIndex, a: IOData, out: IOData)
    requires e.Registry() && PassCounters(e, ps) && v < e.nodeCount
    requires forall k :: 0 <= k < |e.edges| && e.edges[k].1 == v ==> e.edges[k].0 in ps.completed
    requires Dispatched(e, v, a, out).Registry()
    ensures PassCounters(Dispatched(e, v, a, out), AfterDispatch(ps, v, e.nodeMap[v], a, out))
  {
    DispatchedFields(e, v, a, out);
  }

  lemma DispatchKeepsPool(e: Engine, ps: Pass, leftOver: multiset<ResultData>, v: NodeIndex, a: IOData, out: IOData)
    requires e.Registry() && PassPool(e, ps, leftOver) && v < e.nodeCount
    requires Dispatched(e, v, a, out).Registry()
    ensures PassPool(Dispatched(e, v, a, out), AfterDispatch(ps, v, e.nodeMap[v], a, out), leftOver)
  {
  }

  lemma DispatchKeepsPending(e: Engine, ps: Pass, v: NodeIndex, a: IOData, out: IOData)
    requires e.Registry() && v < e.nodeCount && PassPending(e, ps)
    requires e.nodeMap[v] !in ps.outputOf && v !in ps.completed
    ensures PassPending(Dispatched(e, v, a, out), AfterDispatch(ps, v, e.nodeMap[v], a, out))
  {
    var id := e.nodeMap[v];
    var e1 := Dispatched(e, v, a, out);
    var next := AfterDispatch(ps, v, id, a, out);
    assert e1.blockMap == e.blockMap && next.completed == ps.completed && e.blockMap[id] == v;
    assert next.outputOf == ps.outputOf[id := out];
    assert ResultData(id, out) !in ps.pending;
    forall r | r in next.pending
      ensures r.blockId in next.outputOf && r.resultData == next.outputOf[r.blockId]
      ensures r.blockId in e1.blockMap && e1.blockMap[r.blockId] !in next.completed && next.pending[r] == 1
    {
      if r != ResultData(id, out) {
        assert r in ps.pending && next.pending[r] == ps.pending[r];
      }
    }
    forall x | x in next.outputOf && x in e1.blockMap && e1.blockMap[x] !in next.completed
      ensures ResultData(x, next.outputOf[x]) in next.pending
    {
      if x != id {
        assert ResultData(x, ps.outputOf[x]) in ps.pending;
      }
    }
  }

  lemma DispatchKeepsMessages(e: Engine, ps: Pass, leftOver: multiset<ResultData>, v: NodeIndex, a: IOData, out: IOData)
    requires e.Registry() && PassFrame(e, ps) && PassMessages(e, ps, leftOver)
    requires ps.i < |ps.order| && v == ps.order[ps.i] && v < e.nodeCount
    requires Dispatched(e, v, a, out).Registry()
    ensures PassMessages(Dispatched(e, v, a, out), AfterDispatch(ps, v, e.nodeMap[v], a, out), leftOver)
  {
    DispatchFresh(e, ps, v);
    DispatchKeepsPool(e, ps, leftOver, v, a, out);
    DispatchKeepsPending(e, ps, v, a, out);
  }

  /** The blocks dispatched earlier keep their results: their predecessors' outputs are unchanged. */
  lemma DispatchKeepsOtherResults(e: Engine, ps: Pass, v: NodeIndex, a: IOData, out: IOData)
    requires e.Registry() && PassFrame(e, ps) && PassResults(e, ps) && v < e.nodeCount
    requires e.nodeMap[v] !in ps.outputOf
    ensures forall x :: x in ps.outputOf ==>
              && ps.outputOf[x] == Dispatched(e, v, a, out).blocks[x].process(e.time, ps.assembled[x], NewIOData(EngineLanes, e.bufferSize), e.numChannels)
              && AssembledFrom(ps.assembled[x], Dispatched(e, v, a, out).blocks[x].inputs, ps.outputOf[e.nodeMap[v] := out], e.bufferSize)
  {
    forall x | x in ps.outputOf
      ensures AssembledFrom(ps.assembled[x], e.blocks[x].inputs, ps.outputOf[e.nodeMap[v] := out], e.bufferSize)
    {
      AssembledFromAgree(ps.assembled[x], e.blocks[x].inputs, ps.outputOf, ps.outputOf[e.nodeMap[v] := out], e.bufferSize);
    }
  }

  /** The dispatched block's result is computed from its predecessors' outputs of this pass. */
  lemma DispatchOwnResult(e: Engine, ps: Pass, v: NodeIndex, a: IOData, out: IOData)
    requires e.Registry() && v < e.nodeCount
    requires forall from :: from in e.BlockAt(v).inputs ==>
               && from in e.blocks && from in ps.outputOf && from != e.nodeMap[v]
               && e.blocks[from].data == ps.outputOf[from]
    requires AssembledFrom(a, e.BlockAt(v).inputs, DataOf(e.blocks), e.bufferSize)
    ensures AssembledFrom(a, Dispatched(e, v, a, out).blocks[e.nodeMap[v]].inputs, ps.outputOf[e.nodeMap[v] := out], e.bufferSize)
  {
    AssembledFromAgree(a, e.BlockAt(v).inputs, DataOf(e.blocks), ps.outputOf[e.nodeMap[v] := out], e.bufferSize);
  }

  lemma DispatchKeepsResults(e: Engine, ps: Pass, v: NodeIndex, a: IOData, out: IOData)
    requires e.Registry() && PassFrame(e, ps) && PassResults(e, ps)
    requires ps.i < |ps.order| && v == ps.order[ps.i] && v < e.nodeCount
    requires forall from :: from in e.BlockAt(v).inputs ==>
               && from in ps.outputOf && from != e.nodeMap[v]
               && e.blocks[from].data == ps.outputOf[from]
    requires AssembledFrom(a, e.BlockAt(v).inputs, DataOf(e.blocks), e.bufferSize)
    requires out == e.BlockAt(v).process(e.time, a, NewIOData(EngineLanes, e.bufferSize), e.numChannels)
    requires Dispatched(e, v, a, out).Registry()
    ensures PassResults(Dispatched(e, v, a, out), AfterDispatch(ps, v, e.nodeMap[v], a, out))
  {
    DispatchFresh(e, ps, v);
    var id := e.nodeMap[v];
    var e1 := Dispatched(e, v, a, out);
    var next := AfterDispatch(ps, v, id, a, out);
    DispatchKeepsOtherResults(e, ps, v, a, out);
    DispatchOwnResult(e, ps, v, a, out);
    forall x | x in next.outputOf
      ensures x in e1.blocks && x in next.assembled
      ensures next.outputOf[x] == e1.blocks[x].process(e1.time, next.assembled[x], NewIOData(EngineLanes, e1.bufferSize), e1.numChannels)
      ensures AssembledFrom(next.assembled[x], e1.blocks[x].inputs, next.outputOf, e1.bufferSize)
    {
      if x != id {
        assert next.assembled[x] == ps.assembled[x] && next.outputOf[x] == ps.outputOf[x];
      }
    }
  }

  lemma DispatchKeepsData(e: Engine, ps: Pass, leftOver: multiset<ResultData>, v: NodeIndex, a: IOData, out: IOData)
    requires e.Registry() && PassFrame(e, ps) && PassData(e, ps, leftOver)
    requires ps.i < |ps.order| && v == ps.order[ps.i] && v < e.nodeCount && |a| == EngineLanes
    requires Dispatched(e, v, a, out).Registry()
    ensures PassData(Dispatched(e, v, a, out), AfterDispatch(ps, v, e.nodeMap[v], a, out), leftOver)
  {
    DispatchFresh(e, ps, v);
    var id := e.nodeMap[v];
    var e1 := Dispatched(e, v, a, out);
    var next := AfterDispatch(ps, v, id, a, out);
    assert e1.blockMap == e.blockMap && e1.edges == e.edges && next.completed == ps.completed;
    forall x | x in next.outputOf
      ensures x in e1.blocks && x in next.assembled && |e1.blocks[x].data| == EngineLanes
    {
    }
    forall x | x in next.outputOf && x in e1.blocks && x in next.assembled && e1.blockMap[x] !in next.completed
      ensures e1.blocks[x].data == next.assembled[x] || ResultData(x, e1.blocks[x].data) in leftOver
    {
      if x != id {
        assert e1.blocks[x] == e.blocks[x] && next.assembled[x] == ps.assembled[x];
      }
    }
    forall x | x in next.outputOf && x in e1.blocks && e1.blockMap[x] in next.completed
      ensures e1.blocks[x].data == next.outputOf[x] || ResultData(x, e1.blocks[x].data) in leftOver
      ensures !IsSink(e1.edges, e1.blockMap[x]) ==> e1.blocks[x].data == next.outputOf[x]
    {
      assert x != id;
      assert e1.blocks[x] == e.blocks[x] && next.outputOf[x] == ps.outputOf[x];
    }
  }

  /**
    The pre-state facts a dispatch of the node at the cursor relies on: its
    predecessors' lanes are their outputs of this pass, and they exist.
  */
  lemma DispatchReady(e: Engine, ps: Pass, base: map<BlockId, Block>, leftOver: multiset<ResultData>, v: NodeIndex)
    requires PassInv(e, ps, base, leftOver)
    requires ps.i < |ps.order| && v == ps.order[ps.i] && e.BlockAt(v).dInCur == 0
    ensures forall from :: from in e.BlockAt(v).inputs ==>
              && from in ps.outputOf && from != e.nodeMap[v]
              && e.blocks[from].data == ps.outputOf[from]
    ensures e.FedInputs(e.nodeMap[v])
  {
    DispatchFresh(e, ps, v);
    DispatchInputsDone(e, ps, v);
    DispatchInputsReady(e, ps, leftOver, v);
    DispatchFed(e, ps, v);
  }

  /** The engine-level parts of the invariant survive a dispatch. */
  lemma DispatchKeepsEngine(e: Engine, ps: Pass, base: map<BlockId, Block>, v: NodeIndex, a: IOData, out: IOData)
    requires e.Valid() && e.PortsInRange() && IsTopologicalOrder(ps.order, e.nodeCount, e.edges)
    requires SameWiring(base, e.blocks) && v < e.nodeCount && |out| == EngineLanes
    ensures Dispatched(e, v, a, out).Valid() && Dispatched(e, v, a, out).PortsInRange()
    ensures IsTopologicalOrder(ps.order, Dispatched(e, v, a, out).nodeCount, Dispatched(e, v, a, out).edges)
    ensures SameWiring(base, Dispatched(e, v, a, out).blocks)
  {
    DispatchedWiring(e, v, a, out);
    DispatchedValid(e, v, a, out);
    SameWiringKeepsPorts(e, Dispatched(e, v, a, out));
    SameWiringTrans(base, e.blocks, Dispatched(e, v, a, out).blocks);
  }

  /** A dispatch changes one block's data only. */
  lemma DispatchedWiring(e: Engine, v: NodeIndex, a: IOData, out: IOData)
    requires e.Registry() && v < e.nodeCount
    ensures SameWiring(e.blocks, Dispatched(e, v, a, out).blocks)
    ensures Dispatched(e, v, a, out) == Updated(e, Dispatched(e, v, a, out).blocks, e.inFlight + multiset{ResultData(e.nodeMap[v], out)})
  {
    var id := e.nodeMap[v];
    var blocks := Dispatched(e, v, a, out).blocks;
    forall x | x in e.blocks
      ensures blocks[x].process == e.blocks[x].process && blocks[x].portLen == e.blocks[x].portLen
      ensures blocks[x].inputs == e.blocks[x].inputs && blocks[x].dIn == e.blocks[x].dIn
    {
    }
  }

  lemma DispatchedValid(e: Engine, v: NodeIndex, a: IOData, out: IOData)
    requires e.Valid() && v < e.nodeCount && |out| == EngineLanes
    requires SameWiring(e.blocks, Dispatched(e, v, a, out).blocks)
    requires Dispatched(e, v, a, out) == Updated(e, Dispatched(e, v, a, out).blocks, e.inFlight + multiset{ResultData(e.nodeMap[v], out)})
    ensures Dispatched(e, v, a, out).Valid()
  {
    var id := e.nodeMap[v];
    var blocks := Dispatched(e, v, a, out).blocks;
    var inFlight := e.inFlight + multiset{ResultData(id, out)};
    forall r | r in inFlight
      ensures r.blockId in blocks && |r.resultData| == EngineLanes
    {
      if r != ResultData(id, out) {
        assert r in e.inFlight;
      }
    }
    DataChangeKeepsValid(e, blocks, inFlight);
  }

  /** Dispatching the ready node at the cursor keeps the pass invariant. */
  lemma DispatchStep(e: Engine, ps: Pass, base: map<BlockId, Block>, leftOver: multiset<ResultData>,
                     v: NodeIndex, a: IOData, out: IOData)
    requires PassInv(e, ps, base, leftOver)
    requires ps.i < |ps.order| && v == ps.order[ps.i] && e.BlockAt(v).dInCur == 0
    requires AssembledFrom(a, e.BlockAt(v).inputs, DataOf(e.blocks), e.bufferSize)
    requires out == e.BlockAt(v).process(e.time, a, NewIOData(EngineLanes, e.bufferSize), e.numChannels)
    ensures PassInv(Dispatched(e, v, a, out), AfterDispatch(ps, v, e.nodeMap[v], a, out), base, leftOver)
  {
    assert SameShape(out, NewIOData(EngineLanes, e.bufferSize));
    DispatchFresh(e, ps, v);
    DispatchInputsDone(e, ps, v);
    DispatchInputsReady(e, ps, leftOver, v);
    DispatchedFields(e, v, a, out);
    DispatchKeepsEngine(e, ps, base, v, a, out);
    DispatchKeepsFrame(e, ps, v, a, out);
    DispatchKeepsCounters(e, ps, v, a, out);
    DispatchKeepsMessages(e, ps, leftOver, v, a, out);
    DispatchKeepsResults(e, ps, v, a, out);
    DispatchKeepsData(e, ps, leftOver, v, a, out);
  }

  // ----- receiving a completion -----

  /** Who sent `r`, and whether it belongs to this pass. */
  lemma DeliverSender(e: Engine, ps: Pass, leftOver: multiset<ResultData>, r: ResultData)
    requires e.Registry() && PassFrame(e, ps) && PassMessages(e, ps, leftOver) && r in e.inFlight
    ensures r.blockId in e.blocks && e.blockMap[r.blockId] < e.nodeCount
    ensures r in ps.pending ==> r.blockId in ps.outputOf && r.resultData == ps.outputOf[r.blockId]
    ensures r in ps.pending ==> e.blockMap[r.blockId] in ps.doneAt
    ensures r in ps.pending ==> e.blockMap[r.blockId] !in ps.completed
    ensures r !in ps.pending ==> r in ps.stale && r in leftOver && IsSink(e.edges, e.blockMap[r.blockId])
  {
  }

  /** A message can be received: no counter would drop below zero. */
  lemma DeliverReady(e: Engine, ps: Pass, base: map<BlockId, Block>, leftOver: multiset<ResultData>, r: ResultData)
    requires PassInv(e, ps, base, leftOver) && r in e.inFlight
    ensures r.blockId in e.blocks
    ensures forall w :: 0 <= w < e.nodeCount ==>
              multiset(Successors(e.edges, e.blockMap[r.blockId]))[w] <= e.BlockAt(w).dInCur
  {
    DeliverSender(e, ps, leftOver, r);
    var u := e.blockMap[r.blockId];
    if r in ps.pending {
      forall w | 0 <= w < e.nodeCount
        ensures multiset(Successors(e.edges, u))[w] <= e.BlockAt(w).dInCur
      {
        InDegreeFromAdd(e.edges, ps.completed, u, w);
        InDegreeFromBound(e.edges, ps.completed + {u}, w);
      }
    }
  }

  /** The block data after receiving `r`: the sender holds the result, every other block is unchanged. */
  ghost predicate DataReceived(e0: Engine, e1: Engine, r: ResultData)
    requires e1.blocks.Keys == e0.blocks.Keys
  {
    forall id :: id in e1.blocks ==>
      e1.blocks[id].data == if id == r.blockId then r.resultData else e0.blocks[id].data
  }

  /** What `Received` keeps and changes, field by field. */
  lemma ReceivedFields(e0: Engine, e1: Engine, r: ResultData)
    requires e0.Registry() && r.blockId in e0.blocks && Received(e0, e1, r)
    ensures e1 == Updated(e0, e1.blocks, e0.inFlight - multiset{r})
    ensures e1.Registry()
    ensures SameWiring(e0.blocks, e1.blocks)
    ensures DataReceived(e0, e1, r)
    ensures forall w :: 0 <= w < e1.nodeCount ==>
              e1.BlockAt(w).dInCur + multiset(Successors(e0.edges, e0.blockMap[r.blockId]))[w] == e0.BlockAt(w).dInCur
  {
  }

  lemma DeliverKeepsFrame(e0: Engine, e1: Engine, ps: Pass, r: ResultData)
    requires e0.Registry() && e1.Registry() && PassFrame(e0, ps) && r.blockId in e0.blocks
    requires r in ps.pending ==> e0.blockMap[r.blockId] in ps.doneAt
    requires e1.blocks.Keys == e0.blocks.Keys && e1.blockMap == e0.blockMap && e1.nodeCount == e0.nodeCount
    ensures PassFrame(e1, AfterDeliver(ps, r, e0.blockMap[r.blockId]))
  {
    var u := e0.blockMap[r.blockId];
    var next := AfterDeliver(ps, r, u);
    assert next.order == ps.order && next.i == ps.i && next.log == ps.log && next.doneAt == ps.doneAt;
    assert next.outputOf == ps.outputOf && next.assembled == ps.assembled;
    assert next.completed <= ps.completed + {u};
    forall id
      ensures id in next.outputOf <==> id in e1.blocks && e1.blockMap[id] in next.doneAt
    {
    }
  }

  /** Each counter drops by the edges from the sender, which is exactly what joining `completed` adds. */
  lemma DeliverKeepsCount(e0: Engine, e1: Engine, ps: Pass, r: ResultData, u: NodeIndex)
    requires e0.Registry() && PassCounters(e0, ps)
    requires r in ps.pending ==> u !in ps.completed
    requires r !in ps.pending ==> IsSink(e0.edges, u)
    requires e1.Registry() && e1.edges == e0.edges && e1.nodeCount == e0.nodeCount
    requires forall w :: 0 <= w < e1.nodeCount ==>
               e1.BlockAt(w).dInCur + multiset(Successors(e0.edges, u))[w] == e0.BlockAt(w).dInCur
    ensures forall w :: 0 <= w < e1.nodeCount ==>
              e1.BlockAt(w).dInCur + InDegreeFrom(e1.edges, AfterDeliver(ps, r, u).completed, w) == InDegree(e1.edges, w)
  {
    forall w | 0 <= w < e1.nodeCount
      ensures e1.BlockAt(w).dInCur + InDegreeFrom(e1.edges, AfterDeliver(ps, r, u).completed, w) == InDegree(e1.edges, w)
    {
      if r in ps.pending {
        InDegreeFromAdd(e0.edges, ps.completed, u, w);
      } else {
        assert Successors(e0.edges, u) == [];
      }
    }
  }

  lemma DeliverKeepsCounters(e0: Engine, e1: Engine, ps: Pass, leftOver: multiset<ResultData>, r: ResultData)
    requires e0.Registry() && PassFrame(e0, ps) && PassCounters(e0, ps) && PassMessages(e0, ps, leftOver)
    requires r in e0.inFlight
    requires e1 == Updated(e0, e1.blocks, e0.inFlight - multiset{r}) && e1.blocks.Keys == e0.blocks.Keys
    requires e1.Registry()
    requires forall w :: 0 <= w < e1.nodeCount ==>
               e1.BlockAt(w).dInCur + multiset(Successors(e0.edges, e0.blockMap[r.blockId]))[w] == e0.BlockAt(w).dInCur
    ensures PassCounters(e1, AfterDeliver(ps, r, e0.blockMap[r.blockId]))
  {
    DeliverSender(e0, ps, leftOver, r);
    var u := e0.blockMap[r.blockId];
    DeliverKeepsCount(e0, e1, ps, r, u);
    CountersGrow(e0, e1, ps, AfterDeliver(ps, r, u));
  }

  /** With the counter equation re-established, a growing `completed` keeps the rest of `PassCounters`. */
  lemma CountersGrow(e0: Engine, e1: Engine, ps: Pass, next: Pass)
    requires e0.Registry() && e1.Registry() && PassCounters(e0, ps)
    requires e1.edges == e0.edges && next.doneAt == ps.doneAt && ps.completed <= next.completed
    requires forall w :: 0 <= w < e1.nodeCount ==>
               e1.BlockAt(w).dInCur + InDegreeFrom(e1.edges, next.completed, w) == InDegree(e1.edges, w)
    ensures PassCounters(e1, next)
  {
  }

  /** Two pending messages of one block are the same message. */
  lemma PendingUnique(e: Engine, ps: Pass, q: ResultData, r: ResultData)
    requires e.Registry() && PassFrame(e, ps) && PassPending(e, ps)
    requires q in ps.pending && r in ps.pending && q.blockId == r.blockId
    ensures q == r
  {
  }

  lemma DeliverPendingKeepsPool(e0: Engine, e1: Engine, ps: Pass, leftOver: multiset<ResultData>, r: ResultData)
    requires e0.Registry() && PassPool(e0, ps, leftOver) && r in ps.pending
    requires e1 == Updated(e0, e1.blocks, e0.inFlight - multiset{r}) && e1.blocks.Keys == e0.blocks.Keys
    requires e1.Registry() && r.blockId in e0.blocks
    ensures PassPool(e1, AfterDeliver(ps, r, e0.blockMap[r.blockId]), leftOver)
  {
    var next := AfterDeliver(ps, r, e0.blockMap[r.blockId]);
    assert next.pending == ps.pending - multiset{r} && next.stale == ps.stale;
    assert e1.inFlight == next.stale + next.pending;
  }

  lemma DeliverStaleKeepsPool(e0: Engine, e1: Engine, ps: Pass, leftOver: multiset<ResultData>, r: ResultData)
    requires e0.Registry() && PassPool(e0, ps, leftOver) && r in e0.inFlight && r !in ps.pending
    requires e1 == Updated(e0, e1.blocks, e0.inFlight - multiset{r}) && e1.blocks.Keys == e0.blocks.Keys
    requires e1.Registry() && r.blockId in e0.blocks
    ensures PassPool(e1, AfterDeliver(ps, r, e0.blockMap[r.blockId]), leftOver)
  {
    var next := AfterDeliver(ps, r, e0.blockMap[r.blockId]);
    assert next == ps.(stale := ps.stale - multiset{r});
    assert r in ps.stale;
    assert e1.inFlight == next.stale + next.pending;
  }

  /** Receiving this pass's message of `r.blockId` takes it out of `pending`. */
  lemma DeliverPendingKeepsPending(e0: Engine, e1: Engine, ps: Pass, r: ResultData)
    requires e0.Registry() && PassFrame(e0, ps) && PassPending(e0, ps) && r in ps.pending
    requires e1 == Updated(e0, e1.blocks, e0.inFlight - multiset{r}) && e1.blocks.Keys == e0.blocks.Keys
    requires e1.Registry() && r.blockId in e0.blocks
    ensures PassPending(e1, AfterDeliver(ps, r, e0.blockMap[r.blockId]))
  {
    var u := e0.blockMap[r.blockId];
    var next := AfterDeliver(ps, r, u);
    assert next.pending == ps.pending - multiset{r} && next.completed == ps.completed + {u};
    forall q | q in next.pending
      ensures q.blockId in next.outputOf && q.resultData == next.outputOf[q.blockId]
      ensures e1.blockMap[q.blockId] !in next.completed && next.pending[q] == 1
    {
      if q.blockId == r.blockId {
        PendingUnique(e0, ps, q, r);
        assert false;
      }
      assert next.pending[q] == ps.pending[q];
    }
    forall id | id in next.outputOf && e1.blockMap[id] !in next.completed
      ensures ResultData(id, next.outputOf[id]) in next.pending
    {
      assert ResultData(id, ps.outputOf[id]) != r;
    }
  }

  /** Receiving a left-over message leaves this pass's messages alone. */
  lemma DeliverStaleKeepsPending(e0: Engine, e1: Engine, ps: Pass, r: ResultData)
    requires e0.Registry() && PassFrame(e0, ps) && PassPending(e0, ps) && r !in ps.pending
    requires e1 == Updated(e0, e1.blocks, e0.inFlight - multiset{r}) && e1.blocks.Keys == e0.blocks.Keys
    requires e1.Registry() && r.blockId in e0.blocks
    ensures PassPending(e1, AfterDeliver(ps, r, e0.blockMap[r.blockId]))
  {
    assert AfterDeliver(ps, r, e0.blockMap[r.blockId]) == ps.(stale := ps.stale - multiset{r});
  }

  lemma DeliverKeepsMessages(e0: Engine, e1: Engine, ps: Pass, leftOver: multiset<ResultData>, r: ResultData)
    requires e0.Registry() && PassFrame(e0, ps) && PassMessages(e0, ps, leftOver) && r in e0.inFlight
    requires e1 == Updated(e0, e1.blocks, e0.inFlight - multiset{r}) && e1.blocks.Keys == e0.blocks.Keys
    requires e1.Registry() && r.blockId in e0.blocks
    ensures PassMessages(e1, AfterDeliver(ps, r, e0.blockMap[r.blockId]), leftOver)
  {
    if r in ps.pending {
      DeliverPendingKeepsPool(e0, e1, ps, leftOver, r);
      DeliverPendingKeepsPending(e0, e1, ps, r);
    } else {
      DeliverStaleKeepsPool(e0, e1, ps, leftOver, r);
      DeliverStaleKeepsPending(e0, e1, ps, r);
    }
  }

  lemma DeliverKeepsResults(e0: Engine, e1: Engine, ps: Pass, r: ResultData)
    requires e0.Registry() && PassFrame(e0, ps) && PassResults(e0, ps)
    requires e1 == Updated(e0, e1.blocks, e0.inFlight - multiset{r}) && SameWiring(e0.blocks, e1.blocks)
    requires e1.Registry() && r.blockId in e0.blocks
    ensures PassResults(e1, AfterDeliver(ps, r, e0.blockMap[r.blockId]))
  {
  }

  /** After this pass's message of `r.blockId` is received, that block holds its output. */
  lemma DeliverPendingKeepsData(e0: Engine, e1: Engine, ps: Pass, leftOver: multiset<ResultData>, r: ResultData)
    requires e0.Registry() && e1.Registry() && PassData(e0, ps, leftOver)
    requires r in ps.pending && r.blockId in ps.outputOf && r.resultData == ps.outputOf[r.blockId]
    requires e1.blocks.Keys == e0.blocks.Keys && e1.blockMap == e0.blockMap && e1.edges == e0.edges
    requires DataReceived(e0, e1, r) && |r.resultData| == EngineLanes
    ensures PassData(e1, AfterDeliver(ps, r, e0.blockMap[r.blockId]), leftOver)
  {
    var u := e0.blockMap[r.blockId];
    var next := AfterDeliver(ps, r, u);
    assert next.completed == ps.completed + {u} && next.outputOf == ps.outputOf && next.assembled == ps.assembled;
    forall id | id in next.outputOf
      ensures id in e1.blocks && id in next.assembled && |e1.blocks[id].data| == EngineLanes
    {
    }
    forall id | id in next.outputOf && id in e1.blocks && id in next.assembled && e1.blockMap[id] !in next.completed
      ensures e1.blocks[id].data == next.assembled[id] || ResultData(id, e1.blocks[id].data) in leftOver
    {
      assert id != r.blockId;
    }
    forall id | id in next.outputOf && id in e1.blocks && e1.blockMap[id] in next.completed
      ensures e1.blocks[id].data == next.outputOf[id] || ResultData(id, e1.blocks[id].data) in leftOver
      ensures !IsSink(e1.edges, e1.blockMap[id]) ==> e1.blocks[id].data == next.outputOf[id]
    {
      if id != r.blockId {
        assert e1.blockMap[id] != u;
        assert e0.blockMap[id] in ps.completed;
      }
    }
  }

  /** After a left-over message is received, its sink holds that left-over result. */
  lemma DeliverStaleKeepsData(e0: Engine, e1: Engine, ps: Pass, leftOver: multiset<ResultData>, r: ResultData)
    requires e0.Registry() && e1.Registry() && PassData(e0, ps, leftOver)
    requires r !in ps.pending && r in leftOver && r.blockId in e0.blocks && IsSink(e0.edges, e0.blockMap[r.blockId])
    requires e1.blocks.Keys == e0.blocks.Keys && e1.blockMap == e0.blockMap && e1.edges == e0.edges
    requires DataReceived(e0, e1, r) && |r.resultData| == EngineLanes
    ensures PassData(e1, AfterDeliver(ps, r, e0.blockMap[r.blockId]), leftOver)
  {
    var next := AfterDeliver(ps, r, e0.blockMap[r.blockId]);
    assert next.completed == ps.completed && next.outputOf == ps.outputOf && next.assembled == ps.assembled;
    forall id | id in next.outputOf
      ensures id in e1.blocks && id in next.assembled && |e1.blocks[id].data| == EngineLanes
    {
    }
    forall id | id in next.outputOf && id in e1.blocks && id in next.assembled && e1.blockMap[id] !in next.completed
      ensures e1.blocks[id].data == next.assembled[id] || ResultData(id, e1.blocks[id].data) in leftOver
    {
    }
    forall id | id in next.outputOf && id in e1.blocks && e1.blockMap[id] in next.completed
      ensures e1.blocks[id].data == next.outputOf[id] || ResultData(id, e1.blocks[id].data) in leftOver
      ensures !IsSink(e1.edges, e1.blockMap[id]) ==> e1.blocks[id].data == next.outputOf[id]
    {
    }
  }

  lemma DeliverKeepsData(e0: Engine, e1: Engine, ps: Pass, leftOver: multiset<ResultData>, r: ResultData)
    requires e0.Registry() && PassFrame(e0, ps) && PassMessages(e0, ps, leftOver) && PassData(e0, ps, leftOver)
    requires r in e0.inFlight && r.blockId in e0.blocks
    requires e1 == Updated(e0, e1.blocks, e0.inFlight - multiset{r}) && e1.blocks.Keys == e0.blocks.Keys
    requires e1.Registry() && DataReceived(e0, e1, r) && |r.resultData| == EngineLanes
    ensures PassData(e1, AfterDeliver(ps, r, e0.blockMap[r.blockId]), leftOver)
  {
    DeliverSender(e0, ps, leftOver, r);
    assert e1.blockMap == e0.blockMap && e1.edges == e0.edges;
    if r in ps.pending {
      DeliverPendingKeepsData(e0, e1, ps, leftOver, r);
    } else {
      DeliverStaleKeepsData(e0, e1, ps, leftOver, r);
    }
  }

  /** Receiving a pending message keeps the pass invariant. */
  lemma DeliverStep(e0: Engine, e1: Engine, ps: Pass, base: map<BlockId, Block>, leftOver: multiset<ResultData>,
                    r: ResultData)
    requires PassInv(e0, ps, base, leftOver) && r in e0.inFlight
    requires Received(e0, e1, r) && e1.Valid()
    ensures PassInv(e1, AfterDeliver(ps, r, e0.blockMap[r.blockId]), base, leftOver)
  {
    DeliverKeepsEngine(e0, e1, ps, base, r);
    DeliverKeepsPass(e0, e1, ps, leftOver, r);
  }

  /** The engine-level parts of the invariant survive a receipt. */
  lemma DeliverKeepsEngine(e0: Engine, e1: Engine, ps: Pass, base: map<BlockId, Block>, r: ResultData)
    requires e0.Registry() && e0.PortsInRange() && IsTopologicalOrder(ps.order, e0.nodeCount, e0.edges)
    requires SameWiring(base, e0.blocks) && r.blockId in e0.blocks && Received(e0, e1, r)
    ensures e1.PortsInRange() && IsTopologicalOrder(ps.order, e1.nodeCount, e1.edges)
    ensures SameWiring(base, e1.blocks)
  {
    ReceivedFields(e0, e1, r);
    SameWiringTrans(base, e0.blocks, e1.blocks);
    SameWiringKeepsPorts(e0, e1);
  }

  /** The pass-level parts of the invariant survive a receipt. */
  lemma DeliverKeepsPass(e0: Engine, e1: Engine, ps: Pass, leftOver: multiset<ResultData>, r: ResultData)
    requires e0.Registry() && PassFrame(e0, ps) && PassCounters(e0, ps)
    requires PassMessages(e0, ps, leftOver) && PassResults(e0, ps) && PassData(e0, ps, leftOver)
    requires r in e0.inFlight && r.blockId in e0.blocks && |r.resultData| == EngineLanes
    requires Received(e0, e1, r)
    ensures e1.Registry()
    ensures PassFrame(e1, AfterDeliver(ps, r, e0.blockMap[r.blockId]))
    ensures PassCounters(e1, AfterDeliver(ps, r, e0.blockMap[r.blockId]))
    ensures PassMessages(e1, AfterDeliver(ps, r, e0.blockMap[r.blockId]), leftOver)
    ensures PassResults(e1, AfterDeliver(ps, r, e0.blockMap[r.blockId]))
    ensures PassData(e1, AfterDeliver(ps, r, e0.blockMap[r.blockId]), leftOver)
  {
    ReceivedFields(e0, e1, r);
    DeliverSender(e0, ps, leftOver, r);
    assert e1.nodeCount == e0.nodeCount && e1.edges == e0.edges && e1.blockMap == e0.blockMap;
    DeliverKeepsFrame(e0, e1, ps, r);
    DeliverKeepsCounters(e0, e1, ps, leftOver, r);
    DeliverKeepsMessages(e0, e1, ps, leftOver, r);
    DeliverKeepsResults(e0, e1, ps, r);
    DeliverKeepsData(e0, e1, ps, leftOver, r);
  }

  // ----- progress and the end of a pass -----

  /** The block of the node at position `i` of a topological order. */
  lemma CursorBlock(e: Engine, order: seq<NodeIndex>, i: nat)
    requires e.Registry() && IsTopologicalOrder(order, e.nodeCount, e.edges) && i < |order|
    ensures order[i] < e.nodeCount && e.nodeMap[order[i]] in e.blocks
    ensures e.blocks[e.nodeMap[order[i]]] == e.BlockAt(order[i])
  {
  }

  /** When the pass stalls at `order[i]`, a message of this pass is still pending. */
  lemma PendingWhenStalled(e: Engine, ps: Pass, base: map<BlockId, Block>, leftOver: multiset<ResultData>)
    requires PassInv(e, ps, base, leftOver)
    requires ps.i < |ps.order| && e.BlockAt(ps.order[ps.i]).dInCur != 0
    ensures |ps.pending| > 0
  {
    var v := ps.order[ps.i];
    var k := InDegreeFromMissing(e.edges, ps.completed, v);
    SourceBefore(ps.order, e.nodeCount, e.edges, ps.i, k);
    var u := e.edges[k].0;
    assert ps.order[IndexOf(ps.order, u)] in ps.doneAt;
    var id := e.nodeMap[u];
    assert id in ps.outputOf;
    assert ResultData(id, ps.outputOf[id]) in ps.pending;
  }

  /** Every node was dispatched. */
  lemma FinishedAllDone(e: Engine, ps: Pass)
    requires e.Registry() && PassFrame(e, ps) && ps.i == |ps.order|
    requires forall v :: 0 <= v < e.nodeCount ==> v in ps.order
    ensures forall v :: 0 <= v < e.nodeCount ==> v in ps.doneAt
    ensures forall id :: id in e.blocks ==> id in ps.outputOf
  {
    forall v | 0 <= v < e.nodeCount
      ensures v in ps.doneAt
    {
      assert ps.order[IndexOf(ps.order, v)] == v;
    }
  }

  /** Every node with a successor completed, so every counter is 0. */
  lemma FinishedCounters(e: Engine, ps: Pass)
    requires e.Registry() && e.EdgesInRange() && PassCounters(e, ps)
    requires forall v :: 0 <= v < e.nodeCount ==> v in ps.doneAt
    ensures forall v :: 0 <= v < e.nodeCount && !IsSink(e.edges, v) ==> v in ps.completed
    ensures forall v :: 0 <= v < e.nodeCount ==> e.BlockAt(v).dInCur == 0
  {
    forall v | 0 <= v < e.nodeCount && !IsSink(e.edges, v)
      ensures v in ps.completed
    {
      SinkHasNoEdge(e.edges, v);
      var k :| 0 <= k < |e.edges| && e.edges[k].0 == v;
      assert e.edges[k].1 in ps.doneAt;
    }
    forall v | 0 <= v < e.nodeCount
      ensures e.BlockAt(v).dInCur == 0
    {
      InDegreeFromAll(e.edges, ps.completed, v);
    }
  }

  /** Whatever is still pending belongs to a sink. */
  lemma FinishedSinks(e: Engine, ps: Pass, leftOver: multiset<ResultData>)
    requires e.Registry() && PassFrame(e, ps) && PassMessages(e, ps, leftOver)
    requires forall v :: 0 <= v < e.nodeCount && !IsSink(e.edges, v) ==> v in ps.completed
    ensures e.InFlightAreSinks()
  {
    forall r | r in e.inFlight
      ensures r.blockId in e.blockMap && IsSink(e.edges, e.blockMap[r.blockId])
    {
      DeliverSender(e, ps, leftOver, r);
    }
  }

  /**
    What a finished pass established: the whole order was dispatched, each
    node after every source of its incoming edges had completed; each block's
    output is its computation on the input assembled from its predecessors'
    outputs; every counter is back to 0; a block with successors holds its
    output; a sink whose completion was received holds its output, one whose
    completion is still in flight holds its input, each unless a result left
    over from an earlier pass overwrote it; and only sinks' completions are
    still pending.
  */
  ghost predicate PassComplete(e: Engine, ps: Pass, leftOver: multiset<ResultData>)
    requires e.Registry()
  {
    && ps.log == ps.order
    && (forall k :: 0 <= k < |e.edges| ==>
          e.edges[k].1 in ps.doneAt && e.edges[k].0 in ps.doneAt[e.edges[k].1] && e.edges[k].0 in ps.completed)
    && (forall id :: id in e.blocks ==> e.blocks[id].dInCur == 0)
    && (forall id :: id in e.blocks ==> id in ps.outputOf && id in ps.assembled)
    && (forall id :: id in e.blocks ==>
          && ps.outputOf[id] == e.blocks[id].process(e.time, ps.assembled[id], NewIOData(EngineLanes, e.bufferSize), e.numChannels)
          && AssembledFrom(ps.assembled[id], e.blocks[id].inputs, ps.outputOf, e.bufferSize)
          && |e.blocks[id].data| == EngineLanes)
    && FinalData(e, ps, leftOver)
    && e.InFlightAreSinks()
  }

  /**
    What each block holds at the end of a pass: a block with successors its
    output; a sink whose completion was received its output, one whose
    completion is still in flight its input, each unless a left-over result
    overwrote it.
  */
  ghost predicate FinalData(e: Engine, ps: Pass, leftOver: multiset<ResultData>)
    requires e.Registry()
    requires forall id :: id in e.blocks ==> id in ps.outputOf && id in ps.assembled
  {
    && (forall id :: id in e.blocks && !IsSink(e.edges, e.blockMap[id]) ==> e.blocks[id].data == ps.outputOf[id])
    && (forall id :: id in e.blocks && IsSink(e.edges, e.blockMap[id]) && e.blockMap[id] in ps.completed ==>
          e.blocks[id].data == ps.outputOf[id] || ResultData(id, e.blocks[id].data) in leftOver)
    && (forall id :: id in e.blocks && e.blockMap[id] !in ps.completed ==>
          && IsSink(e.edges, e.blockMap[id])
          && ResultData(id, ps.outputOf[id]) in e.inFlight
          && (e.blocks[id].data == ps.assembled[id] || ResultData(id, e.blocks[id].data) in leftOver))
  }

  /** Block `id` holds the input `assembled` records for it, all engine lanes of it. */
  ghost predicate HeldInput(blocks: map<BlockId, Block>, assembled: map<BlockId, IOData>, id: BlockId)
  {
    id in blocks && id in assembled && blocks[id].data == assembled[id] && |assembled[id]| == EngineLanes
  }

  /** Node `v`'s block holds the input assembled for it in this pass. */
  ghost predicate HoldsInput(e: Engine, ps: Pass, v: NodeIndex)
  {
    v in e.nodeMap && HeldInput(e.blocks, ps.assembled, e.nodeMap[v])
  }

  /** Every edge's source completed before its target was dispatched. */
  lemma FinishedEdges(e: Engine, ps: Pass)
    requires e.Registry() && e.EdgesInRange() && PassCounters(e, ps)
    requires forall v :: 0 <= v < e.nodeCount ==> v in ps.doneAt
    ensures forall k :: 0 <= k < |e.edges| ==>
              e.edges[k].1 in ps.doneAt && e.edges[k].0 in ps.doneAt[e.edges[k].1] && e.edges[k].0 in ps.completed
  {
    forall k | 0 <= k < |e.edges|
      ensures e.edges[k].1 in ps.doneAt && e.edges[k].0 in ps.doneAt[e.edges[k].1]
    {
      assert e.edges[k].1 < e.nodeCount;
    }
  }

  /** Every block holds what `PassData` allows for a completed pass. */
  lemma FinishedData(e: Engine, ps: Pass, leftOver: multiset<ResultData>)
    requires e.Registry() && PassFrame(e, ps) && PassMessages(e, ps, leftOver) && PassData(e, ps, leftOver)
    requires forall id :: id in e.blocks ==> id in ps.outputOf
    requires forall v :: 0 <= v < e.nodeCount && !IsSink(e.edges, v) ==> v in ps.completed
    ensures FinalData(e, ps, leftOver)
  {
    forall id | id in e.blocks && e.blockMap[id] !in ps.completed
      ensures IsSink(e.edges, e.blockMap[id]) && ResultData(id, ps.outputOf[id]) in e.inFlight
    {
      assert e.blockMap[id] < e.nodeCount;
      assert ResultData(id, ps.outputOf[id]) in ps.pending;
    }
  }

  /** When every node is dispatched, the pass is complete. */
  lemma PassFinished(e: Engine, ps: Pass, base: map<BlockId, Block>, leftOver: multiset<ResultData>)
    requires PassInv(e, ps, base, leftOver) && ps.i == |ps.order|
    ensures PassComplete(e, ps, leftOver)
  {
    FinishedAllDone(e, ps);
    FinishedCounters(e, ps);
    FinishedSinks(e, ps, leftOver);
    FinishedEdges(e, ps);
    FinishedData(e, ps, leftOver);
    forall id | id in e.blocks
      ensures e.blocks[id].dInCur == 0
    {
      assert e.blocks[id] == e.BlockAt(e.blockMap[id]);
    }
  }
}
