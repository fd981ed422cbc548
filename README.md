# A verified model of the musiforge block dataflow engine

musiforge builds audio from a graph of *blocks*. Each block owns a bank of
sample lanes (`IOData`) and a computation. The coordinator (`GraphFlow`)
keeps the blocks in a directed graph. For each audio buffer it resets every
block's pending-input counter and advances the clock. It then evaluates the
blocks in topological order: a block is dispatched to a worker pool once all
its predecessors have completed. A completion stores the block's result and
decrements its successors' counters. Finally the first lane of every output
block is mixed into the caller's buffer.

Around that core the repository has five more parts, all modelled here:

- the frame adapter that splits a buffer into frames of interleaved channels;
- a uniformly partitioned convolution reverb, and its multi-channel wrapper;
- a sample-by-sample ring-buffer reverb;
- the note table of a MIDI synthesizer;
- the conversion of musical keys to frequencies.

The project consists of these modules:

- `Wrappers` (wrappers.dfy): `Option` and `Result`.
- `Block` (block.dfy): block ids and ports, the clock, `IOData`, blocks, and the frame adapter.
- `Digraph` (digraph.dfy): the graph as an edge list, with in-degrees, successors, predecessors and topological orders.
- `EngineState` (engine.dfy):
  - a value snapshot of the coordinator's fields and the consistency invariant over it;
  - the effect of `add_block`, `connect` and a received completion on that snapshot.
- `Evaluation` (evaluation.dfy): one evaluation pass as a ghost record, with the pass invariant that each dispatch and each receipt preserves.
- `GraphFlow` (graph_flow.dfy): the coordinator as a class whose methods update its fields.
- `Effects` (effects.dfy): `ConvolveReverb` and `ConvolveChannels`.
- `RingReverb` (test_reverb.dfy): the ring-buffer reverb of `src/bin/test.rs`.
- `Synth` (synth.dfy): the MIDI note table.
- `Key` (key.dfy): `FreqKey` and `Note12Key`.

Modelling conventions:

- Samples are `real`s.
- A block computation is a function value `Compute`. It takes the clock, the inputs, the output buffer and the channel count, and returns the new output buffer with the same shape.
- The worker pool is the multiset `inFlight` of completion messages not yet received. A job's result is computed when it is dispatched; receiving picks any pending message.
- `petgraph::algo::toposort` is an input to `Process` and `Run`:
  - `None` stands for a graph with a cycle;
  - `Some(order)` holds a topological order of the nodes.
- The FFT of `rustfft` is a length-preserving function parameter. The transform–multiply–inverse chain of a convolution step is another parameter. `f32::powf` is a parameter about which nothing is assumed.
- A Rust panic becomes a precondition of the method that would panic. In the pure key conversion it becomes an error result instead.

Behaviour the model keeps as written:

- When two predecessors feed the same input lane, the later copy wins.
- `to_output` records only the block id.
- `run` adds into `output` without clearing it first.
- Completions of sink blocks that arrive after the last dispatch are not waited for. They stay pending and are received during the next run.
- With a cycle in the graph, no block runs.
- The ring-buffer reverb never runs its inverse transform. Its output ring is refilled with zeros, so every sample it returns is 0.0.
- Its `prepare` cuts sub-filters of `buffer_size` taps, not `sub_filter_size`.
- The coordinator has a `numChannels` field:
  - `src/block.rs:50` and `src/block.rs:125` take a channel count;
  - the calls at `src/graph_flow.rs:120` and `src/graph_flow.rs:170` pass none;
  - the model passes the coordinator's channel count in both places.

## Model

| member | source | states |
|---|---|---|
| Block.PortOf | src/block.rs:15-17 | the port names the given block and index |
| Block.NewTime | src/block.rs:37-44 | a positive sample rate is required; the clock starts at sample 0 with that rate |
| Block.Time.Tick | src/block.rs:46-48 | the sample count goes up by exactly one and the rate is kept |
| Block.Time.TickByBuffer | src/block.rs:50-52 | the sample count goes up by `bufferSize / numChannels` (integer division), the rate is kept, and a zero channel count is excluded |
| Block.TicksAdvance | src/block.rs:46-48 | `n` ticks advance the sample count by exactly `n` and keep the rate |
| Block.FrameTicksMatchBufferTick | src/block.rs:196-214 | one tick per whole frame brings the clock to the same state as `tick_by_buffer` on that buffer; the clock never goes backwards |
| Block.NewIOData | src/block.rs:98-100 | `portLen` lanes, each of `bufferSize` zeros |
| Block.Time.Sample | src/block.rs:54-56 | the accessor reads the number of samples the clock has counted |
| Block.PortLen | src/block.rs:106-108 | the lane count of the container |
| Block.BufferSize | src/block.rs:110-112 | the length of the first lane; a container without lanes is excluded, where `first().unwrap()` panics |
| Block.NewIODataShape | src/block.rs:106-112 | `port_len` and `buffer_size` read back the sizes given to `IOData::new`, when there is at least one lane |
| Block.NewBlock | src/block.rs:136-149 | the block keeps its computation and port count, records no inputs, has both counters 0, and holds `portLen` lanes of zeros |
| Block.IntoBlockWithInput | src/block.rs:162-169 | the closure becomes the computation unchanged, with 256 lanes of 512 zeros, no inputs and zero counters |
| Block.IgnoreInputs | src/block.rs:175-177 | the wrapper returns what the generator computes from the clock, the outputs and the channel count, for every input |
| Block.IntoBlockWithoutInput | src/block.rs:170-180 | the resulting block gives the same result for any two inputs, with 256 lanes of 512 zeros and zero counters |
| Block.FrameInputs | src/block.rs:197-203 | lane `p` of frame `f`'s input is the slice `[f*c, f*c+c)` of input lane `p` |
| Block.FrameBlockFrame | src/block.rs:196-212 | the frame slice `[f*c, f*c+c)` of every output lane holds exactly what the block function wrote for frame `f`, called with frame `f`'s inputs and the clock ticked `f` times |
| Block.FrameBlockTail | src/block.rs:187-198 | output samples past the last whole frame keep the caller's values |
| Block.LoadFrameInputs | src/block.rs:201-203 | the reused frame input buffer ends up holding exactly frame `f`'s input slices |
| Block.StoreFrameOutputs | src/block.rs:209-212 | the frame output lands in `[start, start+c)` of every output lane, every other sample is kept, and the frame buffer is refilled with zeros |
| Block.RunFrame | src/block.rs:196-215 | one loop iteration extends the part of the output that agrees with the frame-by-frame result from `f*c` to `(f+1)*c` samples, and leaves the frame buffers as fresh ones |
| Block.FrameBlock | src/block.rs:184-218 | the frame loop computes exactly the frame-by-frame result: each whole frame from its own call, the tail unchanged |
| Block.FrameBlockAdapter | src/block.rs:183-218 | as a block computation, the adapter returns the frame-by-frame result on every buffer it can slice (see "Left out" for the buffers it cannot) |
| Block.EngineBuffersFit | src/block.rs:187-210 | any input and output buffers with at least one lane each, every lane of both the same length, can be sliced by the adapter for a positive channel count |
| Digraph.InDegreeAppend | src/graph_flow.rs:79 | adding an edge raises its target's in-degree by one and leaves every other in-degree unchanged |
| Digraph.SuccessorsAppend | src/graph_flow.rs:79 | adding an edge from `u` puts its target in front of `u`'s outgoing neighbours (most recent edge first) and changes no other node's neighbours |
| Digraph.SuccessorIsEdge | src/graph_flow.rs:142 | every outgoing neighbour listed for `u` is the target of an edge from `u` |
| Digraph.EdgeIsPredecessor | src/graph_flow.rs:97 | the source of every edge is listed among its target's incoming neighbours |
| Digraph.PredecessorIsEdge | src/graph_flow.rs:97 | every incoming neighbour listed for `v` is the source of an edge into `v` |
| Digraph.SinkHasNoEdge | src/graph_flow.rs:142 | a node has no outgoing neighbours if and only if it is the source of no edge |
| Digraph.InDegreeFromFull | src/graph_flow.rs:142-154 | when all of a node's incoming edges are counted as completed, the source of each one has completed |
| Digraph.InDegreeFromAll | src/graph_flow.rs:142-154 | conversely, when every source of an edge into `v` has completed, all of `v`'s in-degree is counted |
| Digraph.SourceBefore | src/graph_flow.rs:132 | in a topological order, the source of every edge into the node at position `i` appears before `i` |
| Digraph.FirstHasNoInput | src/graph_flow.rs:132-133 | the first node of a topological order has no incoming edge and in-degree 0, so dispatching it straight away is safe |
| EngineState.AddPortMatch | src/graph_flow.rs:83-89 | the entry for `from` gains the port pair and is created empty if absent; every other entry is unchanged |
| EngineState.AssembledFromAgree | src/graph_flow.rs:97-103 | an assembled input depends only on the data of the recorded predecessors |
| EngineState.IncomingWired | src/graph_flow.rs:97-100 | in a consistent engine, every incoming neighbour of a node has an entry in its input table and every entry belongs to an incoming neighbour, so the lookups there never fail |
| EngineState.SuccessorsWired | src/graph_flow.rs:142-147 | every outgoing neighbour of `u` is a registered block whose id maps back to it, and a per-node bound "no counter drops below zero" carries over to every block id |
| EngineState.DataChangeKeepsValid | src/graph_flow.rs:137-147 | changing only block data, pending counters and pending messages keeps the registry and the wiring consistent |
| EngineState.ClockKeepsValid | src/graph_flow.rs:166-170 | a new buffer size and a new clock keep the engine consistent, port ranges and sink-only pending messages included |
| EngineState.AddBlockKeepsValid | src/graph_flow.rs:54-65 | registering a new block as the next node keeps the engine consistent; the new node has no edges in or out |
| EngineState.ConnectedInputs | src/graph_flow.rs:82-89 | after `connect`, a block's input entries are its old ones plus `from` at the target |
| EngineState.ConnectedEdges | src/graph_flow.rs:77-79 | after `connect`, every old edge and the new edge between the two blocks' nodes are present |
| EngineState.ConnectKeepsValid | src/graph_flow.rs:75-91 | one more edge, one more port pair and one more `d_in` keep every block's `d_in` equal to its in-degree and its input table equal to its predecessors |
| EngineState.ConnectKeepsPorts | src/graph_flow.rs:83-89 | connecting two of the 128 engine lanes keeps every recorded port pair within range |
| EngineState.ConnectKeepsSinks | src/graph_flow.rs:75-91 | connecting from a block with no pending message keeps every pending message's sender a sink |
| EngineState.ReceivedKeepsValid | src/graph_flow.rs:137-147 | receiving a completion keeps the engine consistent |
| Evaluation.PassStart | src/graph_flow.rs:131-133 | after `reset_block`, the pass invariant holds with nothing dispatched, and the first node of the order is ready |
| Evaluation.DispatchStep | src/graph_flow.rs:150-156 | dispatching the ready node at the cursor keeps the pass invariant and records its assembled input and output |
| Evaluation.DeliverSender | src/graph_flow.rs:137-141 | a received message comes either from a node of this pass that has not completed, carrying its computed output, or from a sink of an earlier pass |
| Evaluation.DeliverReady | src/graph_flow.rs:143-147 | receiving any pending message lowers no counter below zero |
| Evaluation.DeliverStep | src/graph_flow.rs:137-147 | receiving a pending message keeps the pass invariant |
| Evaluation.PendingWhenStalled | src/graph_flow.rs:136-160 | when the node at the cursor is not ready, a message of this pass is pending, so the wait for a completion cannot block forever |
| Evaluation.FinishedCounters | src/graph_flow.rs:142-147 | once all nodes are dispatched, every node with a successor has completed and every counter is 0 |
| Evaluation.FinishedEdges | src/graph_flow.rs:150-156 | once all nodes are dispatched, every edge's source completed before its target was dispatched |
| Evaluation.FinishedSinks | src/graph_flow.rs:136-162 | once all nodes are dispatched, whatever is still pending was sent by a sink |
| Evaluation.FinishedData | src/graph_flow.rs:137-140 | once all nodes are dispatched, every block with a successor holds its output of this pass. A sink whose completion was received holds its output. A sink whose completion is still in flight holds its input. Either sink may instead hold a left-over result. Every block not yet completed is a sink whose completion is in flight |
| Evaluation.PassFinished | src/graph_flow.rs:131-164 | when the cursor reaches the end of the order, the pass is complete (see `Process` below) |
| GraphFlow.ZipCopy | src/graph_flow.rs:102 | the zip copy overwrites the common prefix with the source lane and keeps the rest of the destination |
| GraphFlow.ZipAdd | src/graph_flow.rs:176 | every output sample grows by the lane's sample at the same index, or by 0 past the lane's end |
| GraphFlow.MixRemove | src/graph_flow.rs:174-177 | the mix of the output blocks does not depend on the order of the hash set |
| GraphFlow.MixOfHeldInput | src/graph_flow.rs:173-177 | an output block that holds its assembled input adds lane 0 of that input to every mixed sample |
| GraphFlow.AssembleLanes | src/graph_flow.rs:94-104 | every assembled lane is a copy of a predecessor lane wired to it; lanes no predecessor feeds are zeros |
| GraphFlow.ResetCounters | src/graph_flow.rs:125-129 | every block's `d_in_cur` becomes its `d_in`; nothing else changes |
| GraphFlow.DecrementCounters | src/graph_flow.rs:142-147 | each block's counter drops by the number of times its node occurs among the successors; nothing else changes |
| GraphFlow.GraphFlow.constructor | src/graph_flow.rs:18-34 | an empty, consistent graph with the clock at sample 0 and no pending work |
| GraphFlow.GraphFlow.ToOutput | src/graph_flow.rs:50-52 | the block id joins the output set, idempotently; every other field is kept |
| GraphFlow.GraphFlow.AddBlock | src/graph_flow.rs:54-65 | the block is registered under the fresh id as the next node, the engine stays consistent, and the id is returned |
| GraphFlow.GraphFlow.Connect | src/graph_flow.rs:75-91 | the new state is the old one plus the edge, the port pair and one more `d_in`, and it stays consistent |
| GraphFlow.GraphFlow.ResetBlock | src/graph_flow.rs:125-129 | every `d_in_cur` is restored to `d_in`; nothing else changes |
| GraphFlow.GraphFlow.UpdateBlockInputs | src/graph_flow.rs:93-108 | only the block's `data` changes, and it becomes the input assembled from its predecessors' data |
| GraphFlow.GraphFlow.ProcessNode | src/graph_flow.rs:110-123 | the block's data becomes its assembled input, and a completion carrying its computation on that input and a fresh 128-lane buffer is pending |
| GraphFlow.GraphFlow.Receive | src/graph_flow.rs:137-147 | the message leaves the pool, its data becomes the sender's data, each successor's counter drops once per edge, and the engine stays consistent |
| GraphFlow.GraphFlow.DispatchNext | src/graph_flow.rs:150-156 | dispatching the ready node at the cursor keeps the pass invariant and advances the cursor; the dispatched block holds the input assembled for it |
| GraphFlow.GraphFlow.Deliver | src/graph_flow.rs:137-147 | receiving a pending message keeps the pass invariant and shrinks the pool |
| GraphFlow.GraphFlow.DispatchWhileReady | src/graph_flow.rs:150-160 | the inner loop keeps the pass invariant; when it stops before the end, a message of this pass is pending; when it dispatched anything, the last block it dispatched holds its assembled input |
| GraphFlow.GraphFlow.Process | src/graph_flow.rs:131-164 | with a cycle nothing changes. Otherwise every block is dispatched once in order, after all its predecessors completed, on the input assembled from their outputs. Every block with a successor ends holding its output. A sink whose completion was received holds its output, unless a left-over result overwrote it. A sink whose completion is still in flight holds its input, with the same exception. The last node of the order always holds exactly its assembled input. Every counter is 0. Only sink completions can remain pending. The wiring never changes |
| GraphFlow.GraphFlow.MixOutputs | src/graph_flow.rs:173-177 | every output sample grows by the sum over the output blocks of their first lane's sample |
| GraphFlow.GraphFlow.Run | src/graph_flow.rs:166-178 | the buffer size is replaced and the clock advances by one buffer. The counters are reset and the pass runs as in `Process`. The first lanes of the output blocks are then added into `output`. An output block that ends the order holds its assembled input, so its contribution is lane 0 of that input (`MixOfHeldInput`) |
| Effects.NumSubFiltersIsCeiling | src/effects.rs:21 | `(n + s - 1) / s` sub-filters cover all `n` taps, and none of them lies wholly past the end |
| Effects.SubFiltersCoverTaps | src/effects.rs:30-40 | tap `k` of the impulse response lands in sub-filter `k / s` at position `k % s` |
| Effects.BuildSubFilter | src/effects.rs:31-40 | the inner loop yields taps `i*s .. i*s+s` (zero past the end) followed by zeros up to the transform size |
| Effects.SubFilterSpectra | src/effects.rs:30-44 | one transformed sub-filter per block of taps, each of the transform size |
| Effects.BuildSubFilters | src/effects.rs:27-44 | the construction loop yields the transformed sub-filters in order, and one all-zero delay line for each |
| Effects.WindowHoldsLastTwoBlocks | src/effects.rs:64-68 | after two input blocks, the window holds exactly those two blocks, oldest first, whatever it held before |
| Effects.OverlapAdd | src/effects.rs:93-98 | output sample `j` is the sum over all sub-filters of the real part at `j + sub_filter_size` of their time-domain block |
| Effects.NoSubFilterIsSilent | src/effects.rs:94-98 | with an empty impulse response every output sample is 0 |
| Effects.OverlapSumSplit | src/effects.rs:94-98 | each output sample is the previous sub-filters' sum plus the next sub-filter's contribution |
| Effects.ConvolveReverb.constructor | src/effects.rs:20-55 | keeps the sizes and the impulse response, holds its transformed sub-filters and all-zero delay lines, and starts with a zero window of two blocks |
| Effects.ConvolveReverb.ShiftWindow | src/effects.rs:65-68 | the back half of the window moves to the front and the new input block fills the back |
| Effects.ConvolveReverb.FillDelayLine | src/effects.rs:70-91 | each delay line becomes the time-domain block of its sub-filter applied to the window |
| Effects.ConvolveReverb.Process | src/effects.rs:57-101 | the window is shifted, the delay lines are refilled, and the output is the overlap sum of every sub-filter over the new window |
| Effects.DeinterleaveAt | src/effects.rs:201-207 | sample `k` of channel `c` is `x[c + k*n]`, and it exists exactly when that position does |
| Effects.SlotOf | src/effects.rs:217 | every position of an interleaved buffer is the slot of exactly one sample of one channel |
| Effects.InterleaveDeinterleave | src/effects.rs:196-221 | on the total `Interleave` function over whole frames: splitting into channels and interleaving the unchanged channels back gives the input's whole frames |
| Effects.DeinterleaveLength | src/effects.rs:197-207 | every channel receives at least `len / n` samples |
| Effects.WriteChannel | src/effects.rs:215-218 | sample `i` of channel `c` goes to slot `i*n + c`; every other slot keeps its value |
| Effects.InterleaveOutputs | src/effects.rs:213-219 | the interleaving loops yield the interleaved channel outputs, with zeros past a channel's end |
| Effects.NewConvolvers | src/effects.rs:192 | `n` independent reverbs with block and sub-filter size `half`, each with its own window |
| Effects.ConvolveChannels.constructor | src/effects.rs:188-194 | one reverb per channel, each using half the given buffer size |
| Effects.ConvolveChannels.ProcessChannel | src/effects.rs:201-210 | channel `c`'s samples go through its own reverb; every other channel's window is unchanged |
| Effects.ConvolveChannels.Process | src/effects.rs:196-222 | every channel is processed by its own reverb on its de-interleaved samples, and the result is the interleaving of the channel outputs |
| RingReverb.NextPowerOfTwo | src/bin/test.rs:21 | the least power of two that is at least `n` |
| RingReverb.FftSizeFor | src/bin/test.rs:21 | the transform size holds at least two blocks |
| RingReverb.FftSizeBounds | src/bin/test.rs:21 | the transform holds two blocks, and is shorter than four blocks once a block has more than one sample |
| RingReverb.PointerMatchesCounter | src/bin/test.rs:66-75 | the pointers' `(p + 1) % bufferSize` step is the counter's reset-at-`bufferSize` step |
| RingReverb.CounterIsCallCountModBuffer | src/bin/test.rs:71-75 | after `k` calls the counter is `k % bufferSize`, and a block step runs exactly on the calls that are multiples of `bufferSize` |
| RingReverb.LoadInput | src/bin/test.rs:86-88 | the input ring as complex samples, zero-padded to the transform size |
| RingReverb.MultiplyBins | src/bin/test.rs:95-99 | for every sub-filter, the low `fftSize/2 + 1` bins of its delay line become spectrum times sub-filter, and the other bins keep their values |
| RingReverb.SumBins | src/bin/test.rs:102-106 | bin `j` of the sum adds bin `j` of every delay line |
| RingReverb.Normalise | src/bin/test.rs:113-115 | every bin is divided by the transform size |
| RingReverb.ScaleZero | src/bin/test.rs:113-115 | normalising silence leaves silence |
| RingReverb.ProductStep | src/bin/test.rs:86-99 | the delay lines after the forward transform of the padded input ring and the product loops |
| RingReverb.BlockStep | src/bin/test.rs:81-115 | the delay lines as in `ProductStep`; the scratch buffer copied out is all zeros |
| RingReverb.SilentScratch | src/bin/test.rs:82-115 | the scratch buffer that is never written stays silence after normalisation |
| RingReverb.ConvolveReverb.constructor | src/bin/test.rs:20-37 | transform size `2 * next_power_of_two(bufferSize)`, zero rings, no sub-filters, pointers and counter 0 |
| RingReverb.ConvolveReverb.Prepare | src/bin/test.rs:39-62 | stores the impulse response, its transformed sub-filters of `bufferSize` taps, and one zero delay line each; the pointers and the counter are kept |
| RingReverb.ConvolveReverb.CopyOut | src/bin/test.rs:118-120 | output sample `i` becomes the real part of scratch sample `fftSize - bufferSize + i` |
| RingReverb.ConvolveReverb.ProcessBlock | src/bin/test.rs:80-121 | the delay lines become the product step of the input ring, and the output ring becomes silence |
| RingReverb.ConvolveReverb.Advance | src/bin/test.rs:65-71 | the sample is written at the write pointer, the sample at the read pointer is returned, both pointers wrap-increment, and the counter goes up by one |
| RingReverb.ConvolveReverb.ProcessSample | src/bin/test.rs:64-78 | the call returns the output sample at the read pointer and writes the input at the write pointer. Every `bufferSize` calls it runs a block step and resets the counter. A reverb whose output ring is silent returns 0.0 and stays silent |
| Synth.Started | src/bin/synth.rs:49-64 | the note records its number, velocity, channel and start; it ends 500 ms later exactly when the velocity is non-zero, and has no end otherwise |
| Synth.Handled | src/bin/synth.rs:47-75 | a NoteOn replaces the entry for its note whatever its channel. A NoteOff sets the end time of the held note on the same channel to now, and otherwise changes nothing. All other notes are kept |
| Synth.Retained | src/bin/synth.rs:80-85 | a note is kept exactly when it has no end time or its end time is later than now; kept notes are unchanged |
| Synth.MidiSynthesizer.constructor | src/bin/synth.rs:38-43 | an empty table with the clock at `now` |
| Synth.MidiSynthesizer.HandleMessage | src/bin/synth.rs:45-76 | the table becomes `Handled` of the old table; the clock is untouched |
| Synth.MidiSynthesizer.Update | src/bin/synth.rs:78-85 | the clock becomes `now` and the table keeps exactly the notes still sounding |
| Synth.RetainedLater | src/bin/synth.rs:80-85 | an update followed by a later one keeps what the later one alone keeps |
| Synth.RetainedIdempotent | src/bin/synth.rs:80-85 | a second update at the same time drops nothing more |
| Synth.NoteOffThenUpdateDrops | src/bin/synth.rs:67-85 | a NoteOff on the held note's channel at `t` removes it at every update from `t` on |
| Synth.NoteOnLifetime | src/bin/synth.rs:49-85 | a NoteOn with non-zero velocity at `t` survives an update exactly when less than 500 ms have passed |
| Synth.SilentNoteOnPersists | src/bin/synth.rs:49-85 | a NoteOn with velocity 0 is never dropped by an update |
| Key.FreqKey.ToFreqKey | src/key.rs:22-28 | a frequency key converts to itself, field by field |
| Key.FreqKey.GetType | src/key.rs:30-32 | a frequency key reports the `Freq` type |
| Key.PositionIn | src/key.rs:46 | the first index at which the name occurs, and none exactly when it does not occur |
| Key.RankIndexOf | src/key.rs:43-46 | each of the twelve note names is found at its own index |
| Key.BaseBias | src/key.rs:45-46 | "A" gives 440 whatever the base; any other name in the table gives the base raised to its index; any other name gives none |
| Key.Note12Key.ToFreqKeyAsWritten | src/key.rs:42-52 | the conversion as written fails on an unknown name and on every octave above 4. Otherwise the frequency is the bias times `2^(4 - octave)`, with the key's volume and a duration of 1 |
| Key.Note12Key.ToFreqKey | src/key.rs:42-52 | the conversion with the octave term `2^abs(4 - octave)` fails only on an unknown name, and keeps the volume with a duration of 1 |
| Key.Note12Key.GetType | src/key.rs:54-56 | a note key reports the `Note12` type |
| Key.ConversionsAgreeUpToOctaveFour | src/key.rs:48 | up to octave 4 the two conversions give the same result |
| Key.OctaveFiveUnderflows | src/key.rs:48 | note "A" in octave 5 fails as written, and gets 440 times `2^1` once corrected |
| Key.OctaveDistanceSymmetric | src/key.rs:48 | octaves `4 - d` and `4 + d` convert to the same key |
| Key.ConcertAIgnoresBase | src/key.rs:45 | "A" always converts, to 440 times its octave term, whatever the base |
| Key.NamedNoteFrequency | src/key.rs:45-48 | every other name of the table converts to the base raised to its index, times the octave term |

## Left out

- The worker pool's threads, the result channel and the `Arc`/`Mutex` sharing are left out. A job's result is computed at dispatch and sits in the pending multiset until it is received; the order of completions is any order.
- `petgraph::algo::toposort` is not modelled. The caller passes its result: `None` for a cyclic graph, otherwise a topological order.
- `BlockId::new` draws a random UUID. Here the id is a parameter required to be unused.
- `get_block` and `get_block_mut` are map lookups, folded into the operations that use them. Their `unwrap` panics are excluded by the engine's consistency invariant.
- `Time::as_secs_f32`, `RATE_44100`/`RATE_48000` and `IOData::from_raw` are plain accessors and constants without behaviour worth stating.
- Integer widths (`u32`, `u64`, `usize`, `u8`) are unbounded here. Counters and sample counts do not wrap.
- The FFT and its inverse are function parameters. So are the complex arithmetic of a whole convolution step and `f32::powf`. Floating-point rounding is not modelled.
- `convolve`, `convert_to_mono`, `save_output_file` and the `Debug` formatting in effects.rs are left out: they are file and test helpers outside the reverb.
- The synthesizer's amplitude envelope, the MIDI input thread and the audio output are left out. The clock is an integer number of milliseconds passed in by the caller.
- In `key.rs`, an optimised build would wrap `4 - octave` in `u8` instead of panicking. The model takes the panicking behaviour as the failure `OctaveUnderflow`.
- GraphFlow.GraphFlow.Run (and `Process`): both require every pending message to come from a sink. Suppose a block's completion from an earlier run is still pending when a `connect` gives that block a successor. This case is excluded. In the source the next run would receive that old message, and at src/graph_flow.rs:146 it would lower the new successor's `d_in_cur` before its real predecessor completes. The successor would then run on stale data, or the counter would underflow later. `ConnectKeepsSinks` states the invariant only for a `connect` from a block with no pending message.
- Block.FrameBlockAdapter: a buffer the adapter cannot slice (no input lane, or a lane shorter than the whole frames) panics in the source at src/block.rs:188, 202 or 210. The model returns the outputs unchanged there instead. `EngineBuffersFit` shows that the buffers the engine builds always fit.
- GraphFlow.GraphFlow.ProcessNode: the assembled input and the computed output are ghost out-parameters. The method's effect on the fields is stated in full.
- Effects.ConvolveChannels.Process: the per-channel outputs are a ghost out-parameter. The returned buffer is stated as their interleaving.
- RingReverb.ConvolveReverb.ProcessSample: the new pointers are stated through `Valid()`, which makes both equal to the counter, not as separate `% bufferSize` steps. `PointerMatchesCounter` relates the two forms.

## Findings

| source | as written | input that shows it | evidently intended | confidence | as-written member | corrected member |
|---|---|---|---|---|---|---|
| src/key.rs:48 | `4 - self.key.1` is computed in `u8`, so every octave above 4 underflows (a panic in a debug build) | `Note12Key { key: ("A", 5), .. }.to_freqkey()` | the octave term `2^abs(4 - octave)` that the comment on the line describes, for every octave | not executed | Key.Note12Key.ToFreqKeyAsWritten (shown by Key.OctaveFiveUnderflows) | Key.Note12Key.ToFreqKey (with Key.OctaveDistanceSymmetric) |
