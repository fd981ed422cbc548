/**
  The sequential coordinator of the block dataflow engine: a registry of
  blocks, a directed multigraph of their connections, per-block dependency
  counters, and one evaluation pass per audio buffer that dispatches blocks in
  topological order as their counters reach zero.

  The worker pool is the multiset `inFlight` of completion messages not yet
  received: dispatching a block adds its message (the computation is a pure
  function of values captured at dispatch), and receiving removes an
  arbitrary element, so every completion order is covered.
*/
module GraphFlow {
  import opened Wrappers
  import opened Block
  import opened Digraph
  import opened EngineState
  import opened Evaluation

  /**
    `dst.iter_mut().zip(src.iter())` assigning each pair: the first
    min(|dst|, |src|) samples of `dst` are replaced by those of `src`.
  */
  method ZipCopy(dst: Lane, src: Lane) returns (r: Lane)
    ensures r == if |src| < |dst| then src + dst[|src|..] else src[..|dst|]
  {
    r := dst;
    var k := 0;
    while k < |dst| && k < |src|
      invariant 0 <= k <= |dst| && k <= |src|
      invariant |r| == |dst|
      invariant forall j :: 0 <= j < k ==> r[j] == src[j]
      invariant forall j :: k <= j < |dst| ==> r[j] == dst[j]
    {
      r := r[k := src[k]];
      k := k + 1;
    }
  }

  /**
    `output.iter_mut().zip(lane.iter())` adding each pair: the first
    min(|output|, |lane|) samples of `output` get the lane's sample added.
  */
  method ZipAdd(output: array<real>, lane: Lane)
    modifies output
    ensures forall k :: 0 <= k < output.Length ==> output[k] == old(output[k]) + LaneSample(lane, k)
  {
    var k := 0;
    while k < output.Length && k < |lane|
      invariant 0 <= k <= output.Length && k <= |lane|
      invariant forall j :: 0 <= j < k ==> output[j] == old(output[j]) + lane[j]
      invariant forall j :: k <= j < output.Length ==> output[j] == old(output[j])
    {
      output[k] := output[k] + lane[k];
      k := k + 1;
    }
  }

  /** Sample `k` of a lane, silence past its end. */
  function LaneSample(lane: Lane, k: nat): real
  {
    if k < |lane| then lane[k] else 0.0
  }

  /** The sum over the blocks `ids` of sample `k` of their lane 0. */
  ghost function Mix(blocks: map<BlockId, Block>, ids: set<BlockId>, k: nat): real
    requires forall id :: id in ids ==> id in blocks && |blocks[id].data| > 0
  {
    if ids == {} then 0.0
    else
      var id :| id in ids;
      LaneSample(blocks[id].data[0], k) + Mix(blocks, ids - {id}, k)
  }

  /** The mix does not depend on the order in which the blocks are summed. */
  lemma {:induction false} MixRemove(blocks: map<BlockId, Block>, ids: set<BlockId>, y: BlockId, k: nat)
    requires forall id :: id in ids ==> id in blocks && |blocks[id].data| > 0
    requires y in ids
    ensures Mix(blocks, ids, k) == LaneSample(blocks[y].data[0], k) + Mix(blocks, ids - {y}, k)
    decreases |ids|
  {
    var x :| x in ids && Mix(blocks, ids, k) == LaneSample(blocks[x].data[0], k) + Mix(blocks, ids - {x}, k);
    if x != y {
      MixRemove(blocks, ids - {x}, y, k);
      MixRemove(blocks, ids - {y}, x, k);
      assert ids - {x} - {y} == ids - {y} - {x};
    }
  }

  /**
    An output block that holds the input assembled for it adds lane 0 of that
    input to every sample of the mix.
  */
  lemma MixOfHeldInput(blocks: map<BlockId, Block>, assembled: map<BlockId, IOData>, ids: set<BlockId>, y: BlockId, k: nat)
    requires forall id :: id in ids ==> id in blocks && |blocks[id].data| > 0
    requires y in ids && HeldInput(blocks, assembled, y)
    ensures Mix(blocks, ids, k) == LaneSample(assembled[y][0], k) + Mix(blocks, ids - {y}, k)
  {
    MixRemove(blocks, ids, y, k);
  }

  /**
    The lane assembly of `update_block_inputs`: 128 silent lanes, then for
    every incoming neighbour in `pres` (one entry per edge) and every port
    pair recorded for its block, the predecessor's lane copied over the
    target lane.
  */
  method AssembleLanes(inputs: map<BlockId, set<(nat, nat)>>, pres: seq<NodeIndex>, nodeMap: map<NodeIndex, BlockId>,
                       src: map<BlockId, IOData>, bufferSize: nat) returns (lanes: IOData)
    requires forall x :: x in pres ==> x in nodeMap && nodeMap[x] in inputs
    requires forall from :: from in inputs ==> exists b :: 0 <= b < |pres| && pres[b] in nodeMap && nodeMap[pres[b]] == from
    requires forall from, fp: nat, tp: nat :: Feeds(inputs, from, fp, tp) ==>
               tp < EngineLanes && from in src && fp < |src[from]| && |src[from][fp]| == bufferSize
    ensures AssembledFrom(lanes, inputs, src, bufferSize)
  {
    lanes := NewIOData(EngineLanes, bufferSize);
    ghost var hit: set<nat> := {};
    ghost var seen: set<BlockId> := {};
    var a := 0;
    while a < |pres|
      invariant 0 <= a <= |pres|
      invariant |lanes| == EngineLanes && forall tp :: 0 <= tp < EngineLanes ==> |lanes[tp]| == bufferSize
      invariant forall tp :: 0 <= tp < EngineLanes && tp !in hit ==> lanes[tp] == Zeros(bufferSize)
      invariant forall tp :: 0 <= tp < EngineLanes && tp in hit ==>
                  exists from, fp :: CopiedFrom(lanes[tp], inputs, src, tp, from, fp)
      invariant forall b :: 0 <= b < a ==> nodeMap[pres[b]] in seen
      invariant forall from, fp: nat, tp: nat :: from in seen && Feeds(inputs, from, fp, tp) ==> tp in hit
    {
      var preId := nodeMap[pres[a]];
      var prePorts := inputs[preId];
      var todo := prePorts;
      while todo != {}
        invariant todo <= prePorts
        invariant |lanes| == EngineLanes && forall tp :: 0 <= tp < EngineLanes ==> |lanes[tp]| == bufferSize
        invariant forall tp :: 0 <= tp < EngineLanes && tp !in hit ==> lanes[tp] == Zeros(bufferSize)
        invariant forall tp :: 0 <= tp < EngineLanes && tp in hit ==>
                    exists from, fp :: CopiedFrom(lanes[tp], inputs, src, tp, from, fp)
        invariant forall from, fp: nat, tp: nat :: from in seen && Feeds(inputs, from, fp, tp) ==> tp in hit
        invariant forall fp, tp :: (fp, tp) in prePorts && (fp, tp) !in todo ==> tp in hit
        decreases todo
      {
        var pair :| pair in todo;
        var (fp, tp) := pair;
        assert Feeds(inputs, preId, fp, tp);
        var lane := ZipCopy(lanes[tp], src[preId][fp]);
        ghost var prev := lanes;
        lanes := lanes[tp := lane];
        forall t | 0 <= t < EngineLanes && t in hit + {tp}
          ensures exists from, fp :: CopiedFrom(lanes[t], inputs, src, t, from, fp)
        {
          if t == tp {
            assert CopiedFrom(lanes[t], inputs, src, t, preId, fp);
          } else {
            var from', fp' :| CopiedFrom(prev[t], inputs, src, t, from', fp');
            assert CopiedFrom(lanes[t], inputs, src, t, from', fp');
          }
        }
        hit := hit + {tp};
        todo := todo - {pair};
      }
      seen := seen + {preId};
      a := a + 1;
    }
    forall tp | 0 <= tp < EngineLanes && Targeted(inputs, tp)
      ensures tp in hit
    {
      var from, fp :| Feeds(inputs, from, fp, tp);
      var b :| 0 <= b < |pres| && pres[b] in nodeMap && nodeMap[pres[b]] == from;
    }
  }

  /** `reset_block` over the block table: every `d_in_cur` is restored to `d_in`, nothing else changes. */
  method ResetCounters(blocks: map<BlockId, Block>) returns (r: map<BlockId, Block>)
    ensures r.Keys == blocks.Keys
    ensures forall id :: id in r ==> r[id] == blocks[id].(dInCur := blocks[id].dIn)
  {
    r := blocks;
    var todo := blocks.Keys;
    while todo != {}
      invariant todo <= blocks.Keys && r.Keys == blocks.Keys
      invariant forall id :: id in r ==> r[id] == blocks[id].(dInCur := if id in todo then blocks[id].dInCur else blocks[id].dIn)
      decreases todo
    {
      var id :| id in todo;
      r := r[id := r[id].(dInCur := r[id].dIn)];
      todo := todo - {id};
    }
  }

  /**
    The counter updates of one completion: for every entry of `post` (one per
    outgoing edge of the sender), the `d_in_cur` of the block at that node
    drops by one, so each block's counter drops by the number of edges into it.
  */
  method DecrementCounters(blocks: map<BlockId, Block>, post: seq<NodeIndex>,
                           nodeMap: map<NodeIndex, BlockId>, ghost blockMap: map<BlockId, NodeIndex>)
    returns (r: map<BlockId, Block>)
    requires forall id :: id in blocks ==> id in blockMap && blockMap[id] in nodeMap && nodeMap[blockMap[id]] == id
    requires forall x :: x in post ==> x in nodeMap && nodeMap[x] in blocks && blockMap[nodeMap[x]] == x
    requires forall id :: id in blocks ==> multiset(post)[blockMap[id]] <= blocks[id].dInCur
    ensures r.Keys == blocks.Keys
    ensures forall id :: id in r ==>
              && r[id] == blocks[id].(dInCur := r[id].dInCur)
              && r[id].dInCur + multiset(post)[blockMap[id]] == blocks[id].dInCur
  {
    r := blocks;
    var k := 0;
    while k < |post|
      invariant 0 <= k <= |post|
      invariant r.Keys == blocks.Keys
      invariant forall id :: id in r ==>
                  && r[id] == blocks[id].(dInCur := r[id].dInCur)
                  && r[id].dInCur + multiset(post[..k])[blockMap[id]] == blocks[id].dInCur
    {
      var postId := nodeMap[post[k]];
      assert post[..k + 1] == post[..k] + [post[k]];
      assert post == post[..k + 1] + post[k + 1..];
      assert multiset(post[..k + 1])[post[k]] <= multiset(post)[post[k]];
      ghost var prev := r;
      r := r[postId := r[postId].(dInCur := r[postId].dInCur - 1)];
      forall id | id in r
        ensures r[id].dInCur + multiset(post[..k + 1])[blockMap[id]] == blocks[id].dInCur
      {
        if id != postId {
          assert blockMap[id] != post[k];
          assert r[id] == prev[id];
        }
      }
      k := k + 1;
    }
    assert post[..k] == post;
  }

  class GraphFlow {
    var time: Time
    var blocks: map<BlockId, Block>
    var bufferSize: nat
    var numChannels: nat
    var outputs: set<BlockId>
    var nodeCount: nat
    var edges: seq<Edge>
    var blockMap: map<BlockId, NodeIndex>
    var nodeMap: map<NodeIndex, BlockId>
    var inFlight: multiset<ResultData>

    /** The fields as a value. */
    ghost function State(): Engine
      reads this
    {
      Engine(time, blocks, bufferSize, numChannels, outputs, nodeCount, edges, blockMap, nodeMap, inFlight)
    }

    ghost predicate Valid()
      reads this
    {
      State().Valid()
    }

    /** The fields no evaluation pass changes. */
    ghost function Setup(): (nat, seq<Edge>, map<BlockId, NodeIndex>, map<NodeIndex, BlockId>, set<BlockId>, Time, nat, nat)
      reads this
    {
      (nodeCount, edges, blockMap, nodeMap, outputs, time, bufferSize, numChannels)
    }

    /** `GraphFlowBuilder::build`: an empty graph with the clock at sample 0. */
    constructor (sampleRate: nat, bufferSize: nat, numChannels: nat)
      requires sampleRate > 0
      ensures Valid() && State().InFlightAreSinks()
      ensures time == NewTime(sampleRate)
      ensures this.bufferSize == bufferSize && this.numChannels == numChannels
      ensures blocks == map[] && outputs == {} && nodeCount == 0 && edges == []
      ensures blockMap == map[] && nodeMap == map[] && inFlight == multiset{}
    {
      time := NewTime(sampleRate);
      blocks := map[];
      this.bufferSize := bufferSize;
      this.numChannels := numChannels;
      outputs := {};
      nodeCount := 0;
      edges := [];
      blockMap := map[];
      nodeMap := map[];
      inFlight := multiset{};
    }

    /** `to_output`: only the block id is recorded; the port index is dropped. */
    method ToOutput(from: Port)
      modifies this
      ensures outputs == old(outputs) + {from.blockId}
      ensures old(from.blockId in outputs) ==> outputs == old(outputs)
      ensures State() == old(State()).(outputs := outputs)
    {
      outputs := outputs + {from.blockId};
    }

    /**
      `add_block`: registers `block` under the fresh id `id` (drawn by
      `BlockId::new`) as the next graph node.
    */
    method AddBlock(id: BlockId, block: Block) returns (r: BlockId)
      requires Valid() && id !in blocks
      requires block.inputs == map[] && block.dIn == 0
      modifies this
      ensures r == id
      ensures State() == Added(old(State()), id, block)
      ensures Valid()
      ensures old(State().InFlightAreSinks()) ==> State().InFlightAreSinks()
      ensures old(State().PortsInRange()) ==> State().PortsInRange()
    {
      ghost var e0 := State();
      var node := nodeCount;
      blocks := blocks[id := block];
      nodeCount := nodeCount + 1;
      blockMap := blockMap[id := node];
      nodeMap := nodeMap[node := id];
      r := id;
      assert State() == Added(e0, id, block);
      AddBlockKeepsValid(e0, id, block);
      if e0.PortsInRange() {
        AddBlockKeepsPorts(e0, id, block);
      }
    }

    /**
      `connect`: one more edge, the port pair recorded under the source block
      (a set, so a repeated pair is stored once), and `d_in` of the target
      raised by one on every call.
    */
    method Connect(from: Port, to: Port)
      requires Valid() && from.blockId in blocks && to.blockId in blocks
      modifies this
      ensures State() == Connected(old(State()), from.blockId, to.blockId, (from.port, to.port))
      ensures Valid()
      ensures old(State().PortsInRange()) && from.port < EngineLanes && to.port < EngineLanes ==> State().PortsInRange()
      ensures old(State().InFlightAreSinks()) && (forall r :: r in old(inFlight) ==> r.blockId != from.blockId) ==>
                State().InFlightAreSinks()
    {
      ghost var e0 := State();
      var fromNode := blockMap[from.blockId];
      var toNode := blockMap[to.blockId];
      edges := edges + [(fromNode, toNode)];

      var toBlock := blocks[to.blockId];
      var inputs := AddPortMatch(toBlock.inputs, from.blockId, (from.port, to.port));
      blocks := blocks[to.blockId := toBlock.(inputs := inputs, dIn := toBlock.dIn + 1)];
      assert State() == Connected(e0, from.blockId, to.blockId, (from.port, to.port));
      ConnectKeepsValid(e0, from.blockId, to.blockId, (from.port, to.port));
      if e0.PortsInRange() && from.port < EngineLanes && to.port < EngineLanes {
        ConnectKeepsPorts(e0, from.blockId, to.blockId, (from.port, to.port));
      }
      if e0.InFlightAreSinks() && forall r :: r in e0.inFlight ==> r.blockId != from.blockId {
        ConnectKeepsSinks(e0, from.blockId, to.blockId, (from.port, to.port));
      }
    }

    /** Writes new block records and pending messages; every other field is kept. */
    method Store(newBlocks: map<BlockId, Block>, newInFlight: multiset<ResultData>)
      modifies this`blocks, this`inFlight
      ensures State() == Updated(old(State()), newBlocks, newInFlight)
    {
      blocks := newBlocks;
      inFlight := newInFlight;
    }

    /** `reset_block`: every `d_in_cur` is restored to `d_in`. */
    method ResetBlock()
      requires Valid()
      modifies this`blocks, this`inFlight
      ensures State() == Updated(old(State()), blocks, old(inFlight))
      ensures blocks.Keys == old(blocks).Keys
      ensures forall id :: id in blocks ==> blocks[id] == old(blocks)[id].(dInCur := old(blocks)[id].dIn)
      ensures Valid()
    {
      var reset := ResetCounters(blocks);
      DataChangeKeepsValid(State(), reset, inFlight);
      Store(reset, inFlight);
    }

    /**
      `update_block_inputs`: block `id`'s `data` becomes 128 fresh lanes into
      which, for every incoming edge and every port pair recorded for its
      source, the source's lane is copied.
    */
    method UpdateBlockInputs(id: BlockId, v: NodeIndex)
      requires Valid() && id in blocks && blockMap[id] == v
      requires State().FedInputs(id)
      modifies this`blocks, this`inFlight
      ensures id in blocks && blocks == old(blocks)[id := old(blocks)[id].(data := blocks[id].data)]
      ensures AssembledFrom(blocks[id].data, old(blocks)[id].inputs, DataOf(old(blocks)), bufferSize)
      ensures State() == old(State()).(blocks := blocks)
    {
      var block := blocks[id];
      var pres := Predecessors(edges, v);
      IncomingWired(State(), v);
      assert State().BlockAt(v) == block;
      var src := DataOf(blocks);
      forall from, fp: nat, tp: nat | Feeds(block.inputs, from, fp, tp)
        ensures tp < EngineLanes && from in src && fp < |src[from]| && |src[from][fp]| == bufferSize
      {
        assert Feeds(blocks[id].inputs, from, fp, tp);
      }
      var lanes := AssembleLanes(block.inputs, pres, nodeMap, src, bufferSize);
      Store(blocks[id := block.(data := lanes)], inFlight);
    }

    /**
      `process_node`: assemble the block's input, then hand its computation
      (with the clock, that input, 128 silent output lanes and the channel
      count) to the pool, whose completion message becomes pending.
    */
    method ProcessNode(v: NodeIndex) returns (ghost assembled: IOData, ghost output: IOData)
      requires Valid() && v < nodeCount && State().FedInputs(nodeMap[v])
      modifies this`blocks, this`inFlight
      ensures State() == Dispatched(old(State()), v, assembled, output)
      ensures AssembledFrom(assembled, old(State()).BlockAt(v).inputs, DataOf(old(blocks)), bufferSize)
      ensures output == old(State()).BlockAt(v).process(time, assembled, NewIOData(EngineLanes, bufferSize), numChannels)
    {
      var id := nodeMap[v];
      UpdateBlockInputs(id, v);
      var blockData := blocks[id].data;
      var blockProcess := blocks[id].process;
      var outputs := NewIOData(EngineLanes, bufferSize);
      var result := blockProcess(time, blockData, outputs, numChannels);
      Store(blocks, inFlight + multiset{ResultData(id, result)});
      assembled, output := blockData, result;
    }

    /**
      One completion: the message leaves the pool, its data becomes the
      block's `data`, and every successor's `d_in_cur` drops once per edge.
    */
    method Receive(r: ResultData)
      requires Valid() && r in inFlight
      requires forall w :: 0 <= w < nodeCount ==>
                 multiset(Successors(edges, blockMap[r.blockId]))[w] <= State().BlockAt(w).dInCur
      modifies this`blocks, this`inFlight
      ensures Received(old(State()), State(), r)
      ensures Valid()
    {
      ghost var e0 := State();
      var node := blockMap[r.blockId];
      var post := Successors(edges, node);
      SuccessorsWired(e0, node);
      var stored := blocks[r.blockId := blocks[r.blockId].(data := r.resultData)];
      var lowered := DecrementCounters(stored, post, nodeMap, blockMap);
      Store(lowered, inFlight - multiset{r});
      ReceivedBy(e0, stored, lowered, r);
      ReceivedKeepsValid(e0, State(), r);
    }

    /**
      Dispatch `order[i]`, whose counter is 0: its input is assembled from
      completed predecessors and its completion becomes pending.
    */
    method DispatchNext(v: NodeIndex, ghost ps: Pass, ghost base: map<BlockId, Block>, ghost baseInFlight: multiset<ResultData>)
      returns (ghost next: Pass)
      requires PassInv(State(), ps, base, baseInFlight)
      requires ps.i < |ps.order| && v == ps.order[ps.i] && State().BlockAt(v).dInCur == 0
      modifies this`blocks, this`inFlight
      ensures PassInv(State(), next, base, baseInFlight)
      ensures next.order == ps.order && next.i == ps.i + 1
      ensures |inFlight| == old(|inFlight|) + 1 && |next.pending| > 0
      ensures Setup() == old(Setup())
      ensures HoldsInput(State(), next, v)
    {
      ghost var e0 := State();
      DispatchReady(e0, ps, base, baseInFlight, v);
      ghost var a, out := ProcessNode(v);
      next := AfterDispatch(ps, v, e0.nodeMap[v], a, out);
      DispatchStep(e0, ps, base, baseInFlight, v, a, out);
      DispatchedFields(e0, v, a, out);
    }

    /** Receive one pending message `r` and account for it in the pass record. */
    method Deliver(r: ResultData, ghost ps: Pass, ghost base: map<BlockId, Block>, ghost baseInFlight: multiset<ResultData>)
      returns (ghost next: Pass)
      requires PassInv(State(), ps, base, baseInFlight) && r in inFlight
      modifies this`blocks, this`inFlight
      ensures PassInv(State(), next, base, baseInFlight)
      ensures next.order == ps.order && next.i == ps.i
      ensures |inFlight| == old(|inFlight|) - 1
      ensures Setup() == old(Setup())
    {
      ghost var e0 := State();
      DeliverReady(e0, ps, base, baseInFlight, r);
      Receive(r);
      next := AfterDeliver(ps, r, e0.blockMap[r.blockId]);
      DeliverStep(e0, State(), ps, base, baseInFlight, r);
    }

    /**
      The inner loop of `process`: dispatch the node at the cursor and advance
      while that node's counter is 0. It stops at the end of the order, or at a
      node still waiting, in which case a completion of this pass is pending.
    */
    method DispatchWhileReady(order: seq<NodeIndex>, i0: nat, ghost ps0: Pass, ghost base: map<BlockId, Block>,
                              ghost baseInFlight: multiset<ResultData>)
      returns (i: nat, ghost ps: Pass)
      requires PassInv(State(), ps0, base, baseInFlight) && ps0.order == order && ps0.i == i0
      modifies this`blocks, this`inFlight
      ensures PassInv(State(), ps, base, baseInFlight) && Setup() == old(Setup())
      ensures ps.order == order && ps.i == i && i0 <= i <= |order|
      ensures i < |order| ==> |ps.pending| > 0
      ensures i > i0 ==> HoldsInput(State(), ps, order[i - 1])
      ensures 2 * (|order| - i) + |inFlight| <= 2 * (|order| - i0) + old(|inFlight|)
    {
      i, ps := i0, ps0;
      ghost var last: NodeIndex := 0;
      while i < |order|
        invariant PassInv(State(), ps, base, baseInFlight) && Setup() == old(Setup())
        invariant ps.order == order && ps.i == i && i0 <= i <= |order|
        invariant i > i0 ==> last == order[i - 1] && HoldsInput(State(), ps, last)
        invariant 2 * (|order| - i) + |inFlight| <= 2 * (|order| - i0) + old(|inFlight|)
        decreases |order| - i
      {
        var nextNode := order[i];
        CursorBlock(State(), order, i);
        var nextId := nodeMap[nextNode];
        if blocks[nextId].dInCur == 0 {
          ps := DispatchNext(nextNode, ps, base, baseInFlight);
          last := nextNode;
          i := i + 1;
        } else {
          PendingWhenStalled(State(), ps, base, baseInFlight);
          return;
        }
      }
    }

    /**
      `process`: walk a topological order (`sorted`, None when the graph has
      a cycle). The first node is dispatched unconditionally; then each
      received completion is accounted for and the cursor dispatches the
      following nodes while their counters are 0. The walk ends as soon as the
      last node is dispatched, without awaiting the pending completions.
    */
    method Process(sorted: Option<seq<NodeIndex>>) returns (ghost ps: Pass)
      requires Valid() && State().PortsInRange() && State().InFlightAreSinks()
      requires nodeCount > 0
      requires forall id :: id in blocks ==> blocks[id].dInCur == blocks[id].dIn
      requires sorted.Some? ==> IsTopologicalOrder(sorted.value, nodeCount, edges)
      modifies this`blocks, this`inFlight
      ensures Valid() && State().InFlightAreSinks()
      ensures Setup() == old(Setup()) && SameWiring(old(blocks), blocks)
      ensures sorted.None? ==> blocks == old(blocks) && inFlight == old(inFlight)
      ensures sorted.Some? ==> ps.order == sorted.value && PassComplete(State(), ps, old(inFlight))
      ensures sorted.Some? ==> HoldsInput(State(), ps, sorted.value[nodeCount - 1])
    {
      if sorted.None? {
        ps := PassBegin([], inFlight);
        return;
      }
      var order := sorted.value;
      ghost var base := blocks;
      ghost var baseInFlight := inFlight;
      PassStart(State(), order);
      ps := PassBegin(order, inFlight);
      ps := DispatchNext(order[0], ps, base, baseInFlight);
      var i := 1;
      while i < |order|
        invariant PassInv(State(), ps, base, baseInFlight) && Setup() == old(Setup())
        invariant ps.order == order && ps.i == i
        invariant i < |order| ==> |ps.pending| > 0
        invariant i == |order| ==> HoldsInput(State(), ps, order[i - 1])
        decreases 2 * (|order| - i) + |inFlight|
      {
        var r :| r in inFlight;
        ps := Deliver(r, ps, base, baseInFlight);
        i, ps := DispatchWhileReady(order, i, ps, base, baseInFlight);
      }
      PassFinished(State(), ps, base, baseInFlight);
    }

    /**
      The output collection of `run`: lane 0 of every output block is added
      into `output`, over the shorter of the two lengths, without clearing it.
    */
    method MixOutputs(output: array<real>)
      requires forall id :: id in outputs ==> id in blocks && |blocks[id].data| > 0
      modifies output
      ensures forall k :: 0 <= k < output.Length ==> output[k] == old(output[k]) + Mix(blocks, outputs, k)
    {
      var todo := outputs;
      ghost var mixed: set<BlockId> := {};
      while todo != {}
        invariant todo <= outputs && mixed == outputs - todo
        invariant forall k :: 0 <= k < output.Length ==> output[k] == old(output[k]) + Mix(blocks, mixed, k)
        decreases todo
      {
        var id :| id in todo;
        ZipAdd(output, blocks[id].data[0]);
        forall k | 0 <= k < output.Length
          ensures Mix(blocks, mixed + {id}, k) == LaneSample(blocks[id].data[0], k) + Mix(blocks, mixed, k)
        {
          MixRemove(blocks, mixed + {id}, id, k);
          assert mixed + {id} - {id} == mixed;
        }
        mixed := mixed + {id};
        todo := todo - {id};
      }
      assert mixed == outputs;
    }

    /**
      `run`: set the buffer size, reset the counters, advance the clock by one
      buffer, evaluate the graph, then mix the output blocks into `output`.
      The clock is advanced before the reset here; the reset does not read it.
    */
    method Run(newBufferSize: nat, output: array<real>, sorted: Option<seq<NodeIndex>>) returns (ghost ps: Pass)
      requires Valid() && State().PortsInRange() && State().InFlightAreSinks()
      requires numChannels > 0 && nodeCount > 0
      requires sorted.Some? ==> IsTopologicalOrder(sorted.value, nodeCount, edges)
      requires outputs <= blocks.Keys
      requires sorted.None? ==> forall id :: id in outputs ==> |blocks[id].data| > 0
      modifies this, output
      ensures Valid() && State().InFlightAreSinks()
      ensures (nodeCount, edges, blockMap, nodeMap, outputs, numChannels)
           == old((nodeCount, edges, blockMap, nodeMap, outputs, numChannels))
      ensures bufferSize == newBufferSize
      ensures time == old(time).TickByBuffer(newBufferSize, numChannels)
      ensures SameWiring(old(blocks), blocks)
      ensures sorted.None? ==> forall id :: id in blocks ==> blocks[id] == old(blocks)[id].(dInCur := old(blocks)[id].dIn)
      ensures sorted.Some? ==> ps.order == sorted.value && PassComplete(State(), ps, old(inFlight))
      ensures forall id :: id in outputs ==> id in blocks && |blocks[id].data| > 0
      ensures forall k :: 0 <= k < output.Length ==> output[k] == old(output[k]) + Mix(blocks, outputs, k)
      ensures sorted.Some? ==> HeldInput(blocks, ps.assembled, nodeMap[sorted.value[nodeCount - 1]])
    {
      var ticked := time.TickByBuffer(newBufferSize, numChannels);
      ClockKeepsValid(State(), ticked, newBufferSize);
      bufferSize := newBufferSize;
      time := ticked;
      ResetBlock();
      ps := Process(sorted);
      MixOutputs(output);
    }
  }
}
