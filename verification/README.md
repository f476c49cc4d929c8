# Verified model of the MoE all-to-all and its RDMA engine

This project models, in Dafny, how a mixture-of-experts layer exchanges tokens between ranks:
the placement arithmetic of the host worker and the kernels, the step protocol that keeps
buffers safe over an unordered network, and the RDMA write engine underneath. It proves that
the parts fit together, for every world and node shape, every routing table, every order of
deliveries and atomic operations.

`dafny verify dfyconfig.toml` checks everything.

## How the parts fit

- **Placement.** `Topology`, `Placement` and `Dispatch` define where every (token, expert) pair
  goes, as seen by the sender and by the receiver, and prove the two views agree. Memory is the
  set of values written to each slot, so nothing depends on the order in which writes land.
  `RoundTrip` adds the combine phase and the end-to-end result, for all data-parallel sizes.
  `Numbering` lets every rank of a group use its own numbering of the pairs, and shows exactly when
  the result still holds.
- **The worker.** `RoutingWorker`, `RoutingRows` and `RoutingPass` are the worker's loops, proved
  to produce the vectors of the specification. `Scatter` does the same for the three scatter
  lists, byte for byte. `Vectors` shows that kernels driven by those vectors do what the
  placement proofs assume.
- **The kernels.** `Scan` is the atomic counting and the two-level warp scan, `SendKernel` the
  copy loops of the send kernel, `Pipeline` the staged loops of the receive and combine kernels,
  `CombineOutput` the final weighted sum. `CombineOutput.OutputIsIdeal` closes the circle: what
  a rank adds up is the weighted sum of its experts' outputs on its own tokens.
- **Buffer sizes.** `Capacity` shows that every slot lies inside the allocated buffers.
- **The protocol.** `StepProtocol` is a transition system of all ranks, the network and the
  completion counters; `WorkerProtocol` instantiates it with the worker's own requests, split over
  the network domains, and `SetupLists` ties those to the worker's lists. `Delivery` joins it with
  the placement proofs: what a rank reads in a reachable state is what they promise. `EarlyRead` and
  `UnwrittenRead` show exactly for which shapes it is safe, and what can go wrong otherwise.
- **The write engine.** `WriteEngine` and `WriteRuns` are the life of a write context, `QueuePass`
  what a pass over the queue does, `Reports` what the caller is told, `Reclamation` which contexts
  are left over, `PagedRing` and `FabricPages` the two page iterators, `Handshake` and
  `PeerGroups` the connection of queue pairs, `Sharding`, `Splitting` and `DomainGroup` the splitting
  of requests and the collection of completions, `Coverage` and `ScatterOps` that the split writes
  carry everything once, `ImmCounters` the counters for immediates.

`Arith`, `Sums` and `Wrappers` are shared. `Arith` has its own arithmetic: multiplication, division
and remainder by repeated addition and subtraction, tied to the built-in operators by `MulAgrees` and `QuotRemAgree`.

Objects that the source updates in place are classes whose methods are proved equal to functions
on their state (`Snapshot`, `View`); the results about whole runs are lemmas about those functions.

## What turned out not to hold

Each of these is stated with its exact condition and a concrete input or an inductive proof:

- the round trip works with several ranks per group only if they number the tokens of each expert
  alike, which their atomic counters do not see to (`Numbering.ExactIffAlike`, `Numbering.RaceBreaks`);
- the dispatch wait count is right only for single-rank groups or one node
  (`Scatter.WaitCountExact`); otherwise a rank can read while a write is in flight
  (`EarlyRead.SafeIff`), and even a slot that nobody has written (`UnwrittenRead.UnwrittenIff`);
- the barriers do not wait for all of a rank's own transfers: the routing write is left out
  (`WorkerProtocol.SettledCounter`), though the protocol itself makes that harmless
  (`StepProtocol.RouteWindow`, `StepProtocol.RouteRowFree`, `StepProtocol.Quiescent`);
- the buffers can be too small for groups of several ranks (`Capacity.AlwaysFitsIff`,
  `Capacity.PositionsCanOverflow`);
- write contexts can stay allocated for ever (`Reclamation.ReclaimedIff`, `Reclamation.StrandedRun`,
  `Reclamation.AbandonedRun`);
- a full device stops the worker on single and scatter writes of a verbs domain
  (`WriteEngine.Domain.ProgressContext`, `WriteRuns.OnlyPagedQueued`, `Reclamation.StoppedRun`);
- the verbs paged iterator stores through a slot that was never initialised
  (`PagedRing.StoresUninitialised`), and the libfabric one leaves out the destination offset
  (`FabricPages.OffsetDropped`);
- single writes can lose trailing bytes (`Sharding.CoversIff`); single writes and immediates can be
  handed to another domain than the one they were built for (`Splitting.KeysAgreeIff`);
- a paged request without pages never completes (`DomainGroup.EmptyNeverDone`), and a refused request
  for immediates leaves an entry in the books (`Splitting.SplitImm`);
- an expected-count counter can lose a report (`ImmCounters.ExactIff`, `ImmCounters.LosesIff`,
  `ImmCounters.ReportLost`);
- a peer group can count as connected while a member is still connecting
  (`PeerGroups.GroupConnectedIff`, `PeerGroups.ReleasedToReset`).

## Model

| member | source | states |
|---|---|---|
| `Topology.MakeShapeValid` | p2p-all-to-all/src/a2a_worker.rs:602-612 | the shape derived from the launch parameters is usable if and only if group, node and world sizes divide each other and the last rank does not start past the last expert |
| `Topology.UnevenExpertsFail` | p2p-all-to-all/src/a2a_worker.rs:603-607 | five experts over four ranks is an input for which the local expert count underflows |
| `Topology.OwnerRange` | p2p-all-to-all/src/a2a_worker.rs:634-636 | the rank found by dividing an expert by the experts per rank is the one whose range holds it |
| `Topology.OrderIsPermutation` | p2p-all-to-all/src/a2a_worker.rs:753-769 | the visiting order meets every group once, all groups of other nodes before any of this node, the own group last |
| `Topology.Staggered` | p2p-all-to-all/src/a2a_worker.rs:756-762 | ranks of different nodes are never at the same node in the same turn, and every rank begins with the node after its own |
| `Placement.PaddedBlock` | p2p-all-to-all/src/a2a_worker.rs:673-681 | a token's output slot lies in the block of its own expert, inside the part set aside for its group |
| `Placement.PaddedInjective` | p2p-all-to-all/src/a2a_worker.rs:743-746 | no two tokens of a rank share an output slot |
| `Placement.PaddedOnto` | p2p-all-to-all/src/a2a_worker.rs:743-746 | every slot of an expert's block below its token count belongs to a token |
| `Placement.VisitedTotal` | p2p-all-to-all/src/a2a_worker.rs:753-769 | summed in visiting order or in group order, a rank receives the same number of tokens, so the output vectors are filled exactly |
| `Dispatch.PositionInjective` | p2p-all-to-all/a2a-kernels/src/a2a/a2a_dispatch_send.cu:50-58 | different pairs of a group have different positions in its send order |
| `Dispatch.PrivateSlot` | p2p-all-to-all/src/a2a_worker.rs:554-572 | private slots of different groups or indices are different and lie below all overflow slots |
| `Dispatch.OverflowSlot` | p2p-all-to-all/src/a2a_worker.rs:782-816 | overflow slots of different groups are disjoint and determine the index |
| `Dispatch.RecvHoldsOnly` | p2p-all-to-all/src/a2a_worker.rs:720-732 | whatever any rank writes, over any link, to the slot a receiver reads for a pair is that pair's payload |
| `Dispatch.RecvHoldsPair` | p2p-all-to-all/src/a2a_worker.rs:720-732 | something is written there, for every pair that does not stay in a send buffer of the node |
| `Dispatch.DispatchDelivers` | p2p-all-to-all/a2a-kernels/src/a2a/a2a_dispatch_recv.cu:122-137 | for every shape, routing table and private-buffer size, the address a receiver decodes for a pair holds that pair's payload and nothing else, whether it went by self copy, NVLink or network, private or overflow; the ranks of a group number their pairs alike here, and `Numbering.ExactIffAlike` says what happens otherwise |
| `RoundTrip.RowComputes` | p2p-all-to-all/a2a-kernels/src/a2a/a2a_dispatch_recv.cu:112-167 | what an expert computes in a row is its output on the payload of the pair of that row |
| `RoundTrip.NodePeersAreGroup` | p2p-all-to-all/a2a-kernels/src/a2a/a2a_combine_send.cu:197-203 | the peer pointers the combine kernel follows lead to exactly the ranks of the row's group |
| `RoundTrip.RoundTripExact` | p2p-all-to-all/a2a-kernels/src/a2a/a2a_combine_recv.cu:54-77 | the slot a rank reads back for a pair holds the chosen expert's output on exactly that token and nothing else, for every shape, routing and expert function; the ranks of a group number their pairs alike here, and `Numbering.ExactIffAlike` says what happens otherwise |
| `Numbering.KernelComplete` | p2p-all-to-all/a2a-kernels/src/a2a/a2a_dispatch_send.cu:183-192 | whatever order a rank's atomic additions take, every number below an expert's count is used |
| `Numbering.AlikeExact` | p2p-all-to-all/a2a-kernels/src/a2a/a2a_combine_recv.cu:54-77 | if the ranks of each group number the tokens of each expert alike, the round trip works with every rank using its own numbering, for all tokens and experts |
| `Numbering.ExactIffAlike` | p2p-all-to-all/a2a-kernels/src/a2a/a2a_dispatch_send.cu:183-192 | for every shape, routing and set of numberings, the round trip works for all tokens and experts if and only if the ranks of each group number alike |
| `Numbering.SinglesAlike` | p2p-all-to-all/a2a-kernels/src/a2a/a2a_dispatch_send.cu:183-192 | single-rank groups always do |
| `Numbering.RaceBreaks` | p2p-all-to-all/a2a-kernels/src/a2a/a2a_dispatch_send.cu:183-192 | two ranks that count two tokens of one expert in opposite order are an input for which it does not work |
| `RoutingWorker.ScanRange` | p2p-all-to-all/src/a2a_worker.rs:637-642 | the walk over a rank's experts records where each one's tokens start |
| `RoutingWorker.AddRow` | p2p-all-to-all/src/a2a_worker.rs:651-655 | the loop adds exactly one table row to the per-expert totals |
| `RoutingWorker.TallyRank` | p2p-all-to-all/src/a2a_worker.rs:630-643 | after the loop body, counts and offsets of all ranks so far are those of the routing table |
| `RoutingWorker.TallyGroup` | p2p-all-to-all/src/a2a_worker.rs:645-669 | after the loop body, arrivals, offsets, totals and expected immediates of all groups so far are those of the routing table |
| `RoutingWorker.TallyAll` | p2p-all-to-all/src/a2a_worker.rs:616-671 | the whole first pass computes the table's prefix sums from both sides, sender's and receiver's |
| `RoutingRows.PickSource` | p2p-all-to-all/src/a2a_worker.rs:719-732 | the branches give the address formula of the delivery proofs |
| `RoutingRows.PickTarget` | p2p-all-to-all/src/a2a_worker.rs:734-742 | the branches give the return slot of the delivery proofs |
| `RoutingRows.EmitRow` | p2p-all-to-all/src/a2a_worker.rs:709-748 | one pass of the closure writes one row and moves exactly its own counters |
| `RoutingRows.EmittedIsRow` | p2p-all-to-all/src/a2a_worker.rs:709-748 | when the counters stand where they should, the row written is the row of that token |
| `RoutingRows.RouteExpert` | p2p-all-to-all/src/a2a_worker.rs:709-748 | the inner loop appends the rows of one expert and group, in order |
| `RoutingRows.RowInAll` | p2p-all-to-all/src/a2a_worker.rs:696-769 | every token has its row, at the number given by the visiting order |
| `RoutingPass.RouteGroup` | p2p-all-to-all/src/a2a_worker.rs:696-751 | the closure appends the rows of one group and returns their number |
| `RoutingPass.VisitRemoteNode` | p2p-all-to-all/src/a2a_worker.rs:757-762 | the inner loop visits the groups of one other node in the order of the specification |
| `RoutingPass.VisitAll` | p2p-all-to-all/src/a2a_worker.rs:756-769 | the three loops together produce the rows of all groups in visiting order and the number of rows from other nodes |
| `RoutingPass.PadOffsets` | p2p-all-to-all/src/a2a_worker.rs:673-681 | the first block starts at zero, every block at a multiple of the padding, and each follows the one before with less than a padding to spare |
| `Placement.AlignedUnique` | p2p-all-to-all/src/a2a_worker.rs:673-681 | that determines where the blocks start |
| `RoutingPass.ProcessRows` | p2p-all-to-all/src/a2a_worker.rs:598-780 | the routing step from the table to the four vectors: the vectors are the specified rows, the tallies are the table's sums, and the rows of every expert fill a block that starts at a multiple of the padding |
| `RoutingPass.FirstRowAligned` | p2p-all-to-all/src/a2a_worker.rs:743-746 | the first row of every expert that gets tokens is at a multiple of the padding |
| `RoutingPass.RowFrom` | p2p-all-to-all/src/a2a_worker.rs:696-769 | every row of the vectors belongs to a token |
| `RoutingPass.RowFetch` | p2p-all-to-all/a2a-kernels/src/a2a/a2a_dispatch_recv.cu:122-137 | decoding a row gives the address where the token was put |
| `RoutingPass.RemoteSplit` | p2p-all-to-all/src/a2a_worker.rs:756-778 | a row number is below the remote count if and only if its group is on another node |
| `Vectors.ReceivedByVectors` | p2p-all-to-all/a2a-kernels/src/a2a/a2a_dispatch_recv.cu:112-235 | driven by the vectors, the receive kernel fills each output slot with exactly the values of the delivery proofs |
| `Vectors.StagedByVectors` | p2p-all-to-all/a2a-kernels/src/a2a/a2a_combine_send.cu:109-149 | driven by the vectors, the combine kernel stages exactly the results for other nodes |
| `Vectors.NodeByVectors` | p2p-all-to-all/a2a-kernels/src/a2a/a2a_combine_send.cu:172-213 | driven by the vectors, the combine kernel writes results for the node to exactly the ranks of the row's group |
| `SendKernel.SendToken` | p2p-all-to-all/a2a-kernels/src/a2a/a2a_dispatch_send.cu:441-458 | the inner loop makes, for each pair of a token, the store its destination and index call for |
| `SendKernel.SendBlock` | p2p-all-to-all/a2a-kernels/src/a2a/a2a_dispatch_send.cu:413-460 | a block's walk makes the stores of exactly the tokens of the strided loop |
| `SendKernel.SendBufferExact` | p2p-all-to-all/a2a-kernels/src/a2a/a2a_dispatch_send.cu:411-460 | over all blocks of any grid, the first walk fills the send buffer with exactly what the delivery proofs assume |
| `SendKernel.DirectWritesExact` | p2p-all-to-all/a2a-kernels/src/a2a/a2a_dispatch_send.cu:472-522 | over all blocks of any grid, the second walk makes exactly the direct writes the delivery proofs assume |
| `Scatter.ScanPeers` | p2p-all-to-all/src/a2a_worker.rs:536-552 | counts and start offsets of the own group's tokens for every rank |
| `Scatter.PrivateTargets` | p2p-all-to-all/src/a2a_worker.rs:554-572 | the first scatter lists every rank of every other node exactly once, with its bytes |
| `Scatter.OverflowTargets` | p2p-all-to-all/src/a2a_worker.rs:782-816 | the second scatter lists exactly the ranks that overflow, once each, with their bytes |
| `Scatter.CombineTargets` | p2p-all-to-all/src/a2a_worker.rs:818-844 | the combine scatter lists every rank of the other nodes exactly once, with its group's bytes |
| `Scatter.ListMoves` | p2p-all-to-all/src/a2a_worker.rs:554-572 | byte for byte, a scatter list copies a token to a slot if and only if the delivery proofs say so; all three lists |
| `Scatter.ListImms` | fabric-lib/src/domain_group.rs:388-426 | the immediates a scatter list raises at each rank on it, after splitting over the domains, do not depend on the rank's place in the list |
| `Scatter.ImmsAgainstWait` | p2p-all-to-all/src/a2a_worker.rs:661-668 | immediates raised at a rank, counted through the splitting of each scatter over the domains, exceed the ones it waits for by the group size less one, per remote group |
| `Scatter.WaitCountExact` | p2p-all-to-all/src/a2a_worker.rs:661-668 | the wait count is what arrives if and only if groups are single ranks or there is one node |
| `Capacity.CountBound` | p2p-all-to-all/a2a-kernels/src/a2a/a2a_dispatch_send.cu:183-192 | if no token names an expert twice, an expert gets at most one pair per token, in any counting order |
| `Capacity.CountsModest` | p2p-all-to-all/a2a-kernels/src/a2a/a2a_dispatch_send.cu:183-192 | what the kernels count respects the bounds the buffers are sized for |
| `Capacity.DispatchFits` | python/pplx_garden/kernels/p2p_all_to_all.py:94-114 | every private and overflow slot lies inside the allocated receive buffer |
| `Capacity.StagedFits` | python/pplx_garden/kernels/p2p_all_to_all.py:94-114 | every staged combine slot lies inside the allocated send buffer |
| `Capacity.SlotInBuffer` | python/pplx_garden/kernels/p2p_all_to_all.py:166-186 | a slot below the number of slots lies inside the allocated bytes, for tokens of either size |
| `Capacity.SharedRoom` | python/pplx_garden/kernels/p2p_all_to_all.py:104-114 | behind the private slots there is room for a padded block per local expert, a whole number of paddings, and no more than that or the tokens that can come call for |
| `Capacity.RowsFit` | p2p-all-to-all/src/a2a_worker.rs:147-150 | the vectors of the routing step have room for one row per token received |
| `Capacity.PositionsFit` | python/pplx_garden/kernels/p2p_all_to_all.py:94-114 | every send-order position lies inside the buffers, for single-rank groups or when one rank per group has experts enough |
| `Capacity.AlwaysFitsIff` | python/pplx_garden/kernels/p2p_all_to_all.py:94-186 | whatever is routed, send-order positions lie inside the page-rounded bytes of the buffers if and only if the bytes of one group's tokens, times the experts per token, do |
| `Capacity.PositionsCanOverflow` | python/pplx_garden/kernels/p2p_all_to_all.py:94-186 | with two ranks in one group and every token routed to both, they do not as soon as the tokens of a batch fill a page |
| `Scan.CountExperts` | p2p-all-to-all/a2a-kernels/src/a2a/a2a_dispatch_send.cu:183-192 | for every order of the atomic additions, pairs get the number of earlier pairs of their expert, and counts are totals |
| `Scan.NumbersDistinct` | p2p-all-to-all/a2a-kernels/src/a2a/a2a_dispatch_send.cu:183-192 | numbers of one expert's pairs are distinct and below its count |
| `Scan.PositionsBijective` | p2p-all-to-all/a2a-kernels/src/a2a/a2a_dispatch_send.cu:50-58 | for every order, positions are a permutation of all slots, sorted by expert |
| `Scan.KernelCountsValid` | p2p-all-to-all/a2a-kernels/src/a2a/a2a_dispatch_send.cu:183-205 | any counting order yields data that the delivery proofs accept |
| `Scan.WarpScan` | p2p-all-to-all/a2a-kernels/src/a2a/a2a_dispatch_send.cu:209-214 | doubling shuffles leave running totals in all lanes below the limit |
| `Scan.BlockScan` | p2p-all-to-all/a2a-kernels/src/a2a/a2a_dispatch_send.cu:194-242 | the two-level scan equals the inclusive prefix sum for up to 512 experts |
| `Scan.LookupExact` | p2p-all-to-all/a2a-kernels/src/a2a/a2a_dispatch_send.cu:50-58 | the lookups of position and index agree with those of the delivery proofs |
| `Pipeline.StagedLoop` | p2p-all-to-all/a2a-kernels/src/a2a/a2a_dispatch_recv.cu:182-219 | the staged loop copies exactly the tokens of the plain strided loop, each with its own metadata |
| `Pipeline.CombineBlock` | p2p-all-to-all/a2a-kernels/src/a2a/a2a_combine_send.cu:88-215 | two staged loops, the second going on where the first stopped, copy exactly the tokens of one strided loop, the remote ones first |
| `Pipeline.StridedExactly` | p2p-all-to-all/a2a-kernels/src/a2a/a2a_combine_send.cu:109-149 | a token is in a block's list if and only if its number matches the block, and then once |
| `Pipeline.BlockOf` | p2p-all-to-all/a2a-kernels/src/a2a/a2a_combine_send.cu:109-149 | every token belongs to exactly one block of the grid |
| `Pipeline.CountsAddUp` | p2p-all-to-all/a2a-kernels/src/a2a/a2a_combine_send.cu:139-153 | the per-block counts sum to the number of tokens |
| `Pipeline.DoneMeansAll` | p2p-all-to-all/a2a-kernels/src/a2a/a2a_combine_send.cu:151-156 | when the shared counter reaches the number of tokens, blocks yet to add have none, in any order |
| `Pipeline.AllMeansDone` | p2p-all-to-all/a2a-kernels/src/a2a/a2a_combine_send.cu:151-156 | when all blocks have added, the counter is there |
| `CombineOutput.FillPositions` | p2p-all-to-all/a2a-kernels/src/a2a/a2a_combine_recv.cu:54-77 | the threads together fill the whole position table of the block with the right slots |
| `CombineOutput.CombineToken` | p2p-all-to-all/a2a-kernels/src/a2a/a2a_combine_recv.cu:103-118 | the accumulation is the weighted sum over the token's routes |
| `CombineOutput.CombineReceive` | p2p-all-to-all/a2a-kernels/src/a2a/a2a_combine_recv.cu:92-118 | a block combines exactly its own tokens and leaves the others alone |
| `CombineOutput.OutputIsIdeal` | p2p-all-to-all/a2a-kernels/src/a2a/a2a_combine_recv.cu:54-118 | what is added up is the weighted sum of the chosen experts' outputs on the token |
| `StepProtocol.AllArrived` | fabric-lib/src/api.rs:208-217 | a wait satisfied for a number of steps that nobody has gone beyond pins down every sender's deliveries |
| `StepProtocol.BarrierReached` | p2p-all-to-all/src/a2a_worker.rs:855-868 | a rank can pass a barrier only after every rank has submitted it |
| `StepProtocol.NextKeeps` | p2p-all-to-all/src/a2a_worker.rs:403-527 | the protocol invariant survives every move of every rank and of the network |
| `StepProtocol.RunInv` | p2p-all-to-all/src/a2a_worker.rs:403-527 | so it holds in every state of every run, for any number of ranks and any delivery order |
| `StepProtocol.DispatchWindow` | p2p-all-to-all/src/a2a_worker.rs:456-488 | from its dispatch wait to its combine barrier, all dispatch writes for a rank have landed, those of the current step included |
| `StepProtocol.CombineWindow` | p2p-all-to-all/src/a2a_worker.rs:496-524 | combine writes for a rank are in flight only between its dispatch barrier and its combine wait |
| `StepProtocol.RouteWindow` | p2p-all-to-all/src/a2a_worker.rs:435-437 | from its routing wait to its combine barrier all routing rows for a rank have landed, those of the current step included, and none of the next step has been sent |
| `StepProtocol.RouteRowFree` | p2p-all-to-all/a2a-kernels/src/a2a/a2a_dispatch_send.cu:199-208 | from a rank's dispatch barrier to its next routing submission, the rows it has sent have landed, so the next kernel may rewrite its row without waiting |
| `StepProtocol.Quiescent` | p2p-all-to-all/src/a2a_worker.rs:855-876 | once any rank is past a barrier, no write of the phase before it is in flight anywhere, routing rows included, so send buffers may be reused |
| `StepProtocol.BarrierMeansFinished` | p2p-all-to-all/src/a2a_worker.rs:855-876 | passing the k-th barrier means every rank finished its k-th receive, and ranks are at most one step apart |
| `StepProtocol.NoDeadlock` | p2p-all-to-all/src/a2a_worker.rs:403-527 | if nobody waits for more than will be sent, some move is possible in every state |
| `WorkerProtocol.OverflowListed` | p2p-all-to-all/src/a2a_worker.rs:444-446 | the overflow scatter is counted as a transfer exactly when its list is not empty |
| `WorkerProtocol.ScatterListed` | p2p-all-to-all/src/a2a_worker.rs:444-448 | the private and combine scatters have targets exactly when there is another node |
| `WorkerProtocol.NeedMet` | p2p-all-to-all/src/a2a_worker.rs:435-449 | what each wait asks for is what all peers' requests raise after being split over the domains: always for routing, combine and barriers, for dispatch with single-rank groups or one node |
| `WorkerProtocol.WorkerBalanced` | p2p-all-to-all/src/a2a_worker.rs:435-449 | so the results above are about the worker's protocol: for every shape what concerns routing, combine and barriers, with single-rank groups or one node also what concerns dispatch |
| `WorkerProtocol.WorkerServed` | p2p-all-to-all/src/a2a_worker.rs:661-668 | for every shape, nobody waits for more than will be sent |
| `WorkerProtocol.WorkerReadsSafely` | p2p-all-to-all/src/a2a_worker.rs:456-524 | in every reachable state, no dispatch or combine write is in flight towards a rank that is reading, no routing row towards one that reads the table, and none out of a row that may be rewritten |
| `Delivery.DispatchReads` | p2p-all-to-all/a2a-kernels/src/a2a/a2a_dispatch_recv.cu:122-137 | in every reachable state in which a rank reads after dispatch, the place it reads for a pair of the current step holds that pair's payload and nothing else, counting only writes that have landed |
| `Delivery.CombineReads` | p2p-all-to-all/a2a-kernels/src/a2a/a2a_combine_recv.cu:54-77 | in every reachable state in which a rank reads its results, the slot of a pair holds the chosen expert's output on that token and nothing else, counting only writes that have landed |
| `EarlyRead.Drive` | p2p-all-to-all/src/a2a_worker.rs:403-527 | from any reachable state all ranks can be brought to any later event with nothing in flight |
| `EarlyRead.ReadsWithout` | fabric-lib/src/api.rs:231-236 | a rank that is sent more than it waits for has, in any step, a run in which it starts reading while as many of the current step's writes have not arrived |
| `EarlyRead.SurplusIs` | p2p-all-to-all/src/a2a_worker.rs:661-668 | the surplus of sent over awaited dispatch immediates after any number of steps |
| `EarlyRead.WorkerReadsEarly` | p2p-all-to-all/src/a2a_worker.rs:661-668 | with several ranks per group on several nodes every rank has, in every step, a run in which it reads while a write is in flight |
| `EarlyRead.SafeIff` | p2p-all-to-all/src/a2a_worker.rs:456-488 | dispatch reads are safe in every reachable state if and only if groups are single ranks or there is one node |
| `UnwrittenRead.UnwrittenIff` | p2p-all-to-all/src/a2a_worker.rs:661-668 | a rank can read a given token of a given step before anybody has written it if and only if groups have several ranks, and the token lies behind the private part, or the step is not the first, or two or more groups are on other nodes |
| `UnwrittenRead.UnwrittenMeans` | p2p-all-to-all/a2a-kernels/src/a2a/a2a_dispatch_recv.cu:122-137 | then no landed write of the step has put anything into the place it reads |
| `WorkerProtocol.TransferGap` | p2p-all-to-all/src/a2a_worker.rs:414-449 | submitted less awaited transfers at every point of every step: the routing write is never awaited, all else balances; what is submitted and awaited is tied to the lists by `SetupLists.SettlesListed` |
| `WorkerProtocol.SettledCounter` | p2p-all-to-all/src/a2a_worker.rs:855-876 | after k steps with two or more groups the settled counter stands at k, and a barrier can be passed with k + 1 own transfers incomplete |
| `WorkerProtocol.WorkerPayable` | p2p-all-to-all/src/a2a_worker.rs:868-874 | no barrier asks for more completions than there can be |
| `SetupLists.RouteTargets` | p2p-all-to-all/src/a2a_worker.rs:177-205 | the loop lists one rank of every other group, in order around the world |
| `SetupLists.RouteListed` | p2p-all-to-all/src/a2a_worker.rs:177-205 | they are exactly the ranks with the same index in the other groups, once each |
| `SetupLists.RowsFromAll` | p2p-all-to-all/src/a2a_worker.rs:177-205 | in every step each rank is sent the row of every other group, by exactly one rank of it |
| `SetupLists.RouteImms` | p2p-all-to-all/src/a2a_worker.rs:210-216 | the immediates the protocol counts for the row are those its list raises when it is split |
| `SetupLists.BarrierTargets` | p2p-all-to-all/src/a2a_worker.rs:220-231 | the loop lists the other ranks in order around the world |
| `SetupLists.BarrierListed` | p2p-all-to-all/src/a2a_worker.rs:220-231 | they are everybody else, once each |
| `SetupLists.SubmitsListed` | p2p-all-to-all/src/a2a_worker.rs:444-448 | a scatter counts as a transfer exactly when its list is not empty, for all three lists |
| `SetupLists.RouteSubmits` | p2p-all-to-all/src/a2a_worker.rs:414-420 | and so does the routing row |
| `SetupLists.SettlesListed` | p2p-all-to-all/src/a2a_worker.rs:444-448 | a barrier waits for itself and one transfer for each non-empty list of its phase, and for nothing else |
| `SetupLists.TxBetween` | p2p-all-to-all/src/a2a_worker.rs:868-874 | in every run a rank's completed transfers cover what its barriers waited for and never exceed what it submitted |
| `SetupLists.IncompleteAtMost` | p2p-all-to-all/src/a2a_worker.rs:868-874 | in every run a rank past a barrier of step k has at most k + 1 incomplete transfers, and none with a single group |
| `WorkerProtocol.WorkerNeverStuck` | p2p-all-to-all/src/a2a_worker.rs:403-527 | every run of the worker's protocol can be continued, whatever the shape |
| `WriteEngine.Domain.Alloc` | fabric-lib/src/utils/obj_pool.rs:39-54 | a slot comes from the end of the free list or is new |
| `WriteEngine.ReusesLast` | fabric-lib/src/utils/obj_pool.rs:39-54 | what was freed last is reused next, and the pool grows only when nothing is free |
| `WriteEngine.Domain.ProgressContext` | fabric-lib/src/verbs/verbs_domain.rs:863-898 | posts as many operations as the device, the driver's limit and the context allow, and none for a bad context; stops the worker if and only if a verbs single or scatter write has more operations left than the device takes |
| `WriteEngine.Domain.DropIfDone` | fabric-lib/src/verbs/verbs_domain.rs:900-919 | frees a context just when nothing is outstanding and its queue flag is clear |
| `WriteEngine.Domain.SubmitWrite` | fabric-lib/src/verbs/verbs_domain.rs:750-793 | allocates, posts eagerly and queues what is left, unless a full device stops the worker, and exactly when it does |
| `WriteEngine.Domain.OnSuccess` | fabric-lib/src/verbs/verbs_domain.rs:1063-1075 | counts a completion, reports and considers freeing only when all operations are done |
| `WriteEngine.Domain.OnFailure` | fabric-lib/src/efa/efa_domain.rs:811-826 | counts a completion, reports the first failure only, and considers freeing |
| `WriteEngine.Domain.ProgressWrites` | fabric-lib/src/verbs/verbs_domain.rs:921-946 | works off the queue as `QueuePass.PassResult` describes; a full device never stops the worker here |
| `WriteRuns.SubmitKeeps` | fabric-lib/src/verbs/verbs_domain.rs:750-793 | a submission keeps every context sound |
| `WriteRuns.CompletionFinds` | fabric-lib/src/verbs/verbs_domain.rs:1063-1075 | a completion always finds the context that posted the operation, never a freed or reused one |
| `WriteRuns.StepKeeps` | fabric-lib/src/verbs/verbs_domain.rs:863-946 | every action keeps counters ordered, queue and free list apart, and reports unique |
| `WriteRuns.RunSafe` | fabric-lib/src/verbs/verbs_domain.rs:750-1075 | in every run: no double free, no use after free, at most one Error and one Transfer, never an Error after a Transfer |
| `WriteRuns.AllReported` | fabric-lib/src/verbs/verbs_domain.rs:999-1075 | when nothing is outstanding or queued, every write has been reported |
| `WriteRuns.LeftOver` | fabric-lib/src/verbs/verbs_domain.rs:900-946 | a context still allocated then either left the queue wholly posted with its flag set or failed while partly posted |
| `WriteRuns.PostStrands` | fabric-lib/src/verbs/verbs_domain.rs:938-945 | posting the last operations of a queued context leaves its flag set |
| `WriteRuns.StrandedForever` | fabric-lib/src/efa/efa_domain.rs:686-712 | and such a context is never freed by any later action |
| `WriteRuns.DeadForever` | fabric-lib/src/efa/efa_domain.rs:665-684 | nor is any unqueued context without outstanding operations |
| `WriteRuns.CompletionFrees` | fabric-lib/src/verbs/verbs_domain.rs:900-919 | a completion frees its context if and only if the flag is clear and the counters meet, which a success tests against the total and a failure against the posted |
| `WriteRuns.PassKeeps` | fabric-lib/src/verbs/verbs_domain.rs:921-946 | a whole pass over the queue is made of such actions; what it comes to is `QueuePass.PassResult` |
| `QueuePass.PassResult` | fabric-lib/src/verbs/verbs_domain.rs:921-946 | a pass takes contexts off the front, bad ones with their flag cleared and ones whose rest it posts, until one has more left than the device, or 32 in an EFA domain, allows, or none is left; nothing else changes but for the bad ones that are freed |
| `QueuePass.RunPass` | fabric-lib/src/verbs/verbs_domain.rs:921-946 | the same at every point of every run |
| `Reports.ReportedIff` | fabric-lib/src/verbs/verbs_domain.rs:1009-1075 | in every run an error is reported if and only if an operation of the write failed, and the transfer if and only if all completed and the last one successfully |
| `Reports.QueueInOrder` | fabric-lib/src/verbs/verbs_domain.rs:786-791 | in every run contexts wait in the queue in the order of their submission |
| `WriteRuns.OnlyPagedQueued` | fabric-lib/src/verbs/verbs_rdma_op.rs:357-369 | in every run of a verbs domain only paged contexts are ever queued, and only the submission of a single or scatter write that the device cuts short stops the worker |
| `Reclamation.RunFits` | fabric-lib/src/verbs/verbs_domain.rs:900-946 | in every run, each context's flags follow from what happened to its write |
| `Reclamation.ReclaimedIff` | fabric-lib/src/verbs/verbs_domain.rs:938-945 | in every run, when nothing is outstanding or queued, a write still has its context if and only if the device did not take all of it at submission, and the rest was posted from the queue, or it went bad there, was taken off with operations outstanding, and its last completion was a success |
| `Reclamation.CleanReclaimedIff` | fabric-lib/src/verbs/verbs_domain.rs:938-945 | without an error, if and only if the device did not take all of it at submission |
| `Reclamation.EfaKeeps` | fabric-lib/src/efa/efa_domain.rs:437-483 | the EFA domain keeps the context of every write of two or more operations that had no error |
| `Reclamation.StrandedAlways` | fabric-lib/src/verbs/verbs_domain.rs:938-945 | a write whose rest was posted from the queue has its context at every later point |
| `Reclamation.LeftForever` | fabric-lib/src/verbs/verbs_domain.rs:900-919 | a context that is there at a quiet point stays for the rest of the run |
| `Reclamation.StrandedRun` | fabric-lib/src/verbs/verbs_domain.rs:938-945 | a run of either domain that leaves a context though everything succeeded |
| `Reclamation.AbandonedRun` | fabric-lib/src/verbs/verbs_domain.rs:1063-1075 | a run that leaves the context of a failed write |
| `Reclamation.StoppedRun` | fabric-lib/src/verbs/verbs_rdma_op.rs:357-369 | a run that a full device stops |
| `PagedRing.ConsumeLinked` | fabric-lib/src/verbs/verbs_rdma_op.rs:193-199 | taking requests off the front keeps the ring linked and moves the window |
| `PagedRing.ChainIsWindow` | fabric-lib/src/verbs/verbs_rdma_op.rs:185-223 | the next-pointer chain is exactly the pages not yet posted and ends in null |
| `PagedRing.PagedIter.constructor` | fabric-lib/src/verbs/verbs_rdma_op.rs:123-179 | the first batch is filled and linked |
| `PagedRing.PagedIter.FillWr` | fabric-lib/src/verbs/verbs_rdma_op.rs:201-223 | one slot is filled and linked behind the previous one |
| `PagedRing.StoresUninitialised` | fabric-lib/src/verbs/verbs_rdma_op.rs:201-211 | linking stores through a slot that was never initialised if and only if the request is the first of fewer than four, and that slot is not in the chain |
| `PagedRing.PagedIter.Advance` | fabric-lib/src/verbs/verbs_rdma_op.rs:193-199 | the posted log grows by exactly the pages taken |
| `PagedRing.PagedIter.CountAccepted` | fabric-lib/src/verbs/verbs_domain.rs:881-891 | following the chain to the rejected request counts the accepted ones |
| `PagedRing.PagedIter.Post` | fabric-lib/src/verbs/verbs_domain.rs:863-898 | for every acceptance, posted requests concatenate to the page list in order, and are all of it if and only if the window is empty |
| `PagedRing.PagesApart` | fabric-lib/src/verbs/verbs_rdma_op.rs:213-221 | pages no longer than a stride stay inside their places: different destination pages never overlap, and each is read from its own source page |
| `FabricPages.FabricIter.Post` | fabric-lib/src/efa/efa_domain.rs:498-662 | for every acceptance and limit, posted messages are the page list in order |
| `FabricPages.OffsetDropped` | fabric-lib/src/efa/efa_rdma_op.rs:190-202 | the libfabric page list names the same places of the destination region as the verbs one if and only if the destination offset is zero |
| `ImmCounters.RunConsistent` | fabric-lib/src/imm_count.rs:35-48 | over all interleavings of adds and subtracts, with the comparison made on 32 bits: value is additions less subtractions, and the reports missing are exactly the subtractions that lost one |
| `ImmCounters.Conservation` | fabric-lib/src/transfer_engine.rs:467-513 | reports never exceed full counts, and across removal every immediate was reported, consumed or handed out, exactly if less than 2^32 was left and otherwise up to multiples of it |
| `ImmCounters.SerialExact` | fabric-lib/src/imm_count.rs:35-48 | when each subtraction follows its addition, reports are exactly the full counts |
| `ImmCounters.ExactIff` | fabric-lib/src/imm_count.rs:35-48 | at any point of any run with no subtraction pending, the reports are exactly the full counts if and only if no subtraction so far lost one |
| `ImmCounters.LosesIff` | fabric-lib/src/imm_count.rs:35-48 | a subtraction loses a report if and only if, up to multiples of 2^32, at least as many additions as are expected came between the addition that reported and it |
| `ImmCounters.LostForever` | fabric-lib/src/imm_count.rs:35-48 | a lost report is never made up for |
| `ImmCounters.SilentIff` | fabric-lib/src/imm_count.rs:35-48 | exactly when a counter reports again: when its value passes the next value that agrees with the expected count in the low 32 bits |
| `ImmCounters.ReportLost` | fabric-lib/src/imm_count.rs:35-48 | a run that loses a report, for every expected count |
| `ImmCounters.FlagOnce` | fabric-lib/src/api.rs:231-236 | per epoch the device flag is raised exactly once, after the last increment and the wait, whichever comes first |
| `Sharding.DivideEvenly` | fabric-lib/src/domain_group.rs:554-570 | the loop computes the ranges whose partition property is `Sharding.RangesPartition` |
| `Sharding.RangesPartition` | fabric-lib/src/domain_group.rs:554-570 | the ranges are non-empty, consecutive, partition the items, at most one per domain, none longer than the rounded share |
| `Sharding.TilesExactly` | fabric-lib/src/domain_group.rs:554-570 | every item is in exactly one range |
| `Sharding.ShardSingle` | fabric-lib/src/domain_group.rs:576-596 | one piece per shard, and how many bytes they reach |
| `Sharding.PiecesContiguous` | fabric-lib/src/domain_group.rs:576-596 | a byte is in a piece if and only if it is in that shard's stretch |
| `Sharding.CoversIff` | fabric-lib/src/domain_group.rs:576-596 | all bytes are covered if and only if the division is exact or the quotient is no multiple of 8192; otherwise exactly the remainder is missing |
| `Sharding.BytesDropped` | fabric-lib/src/domain_group.rs:582-582 | 16385 bytes over two shards lose one |
| `Sharding.ShardsDisjoint` | fabric-lib/src/verbs/verbs_rdma_op.rs:307-323 | byte shards of a target never overlap |
| `Sharding.ShardOf` | fabric-lib/src/verbs/verbs_rdma_op.rs:307-323 | every byte they reach is in one of them |
| `Sharding.ShardsCoverIff` | fabric-lib/src/efa/efa_rdma_op.rs:286-308 | they cover the target if and only if its length is below 2^32 and a multiple of the number of domains |
| `Sharding.TokensShardExactly` | p2p-all-to-all/src/a2a_worker.rs:328-336 | whole tokens over one, two or four domains always do |
| `Splitting.SplitImm` | fabric-lib/src/domain_group.rs:138-208 | refusals, the entry a refused request leaves, one write per target in chunks over successive domains, and where the round robin goes on |
| `Splitting.SplitSingle` | fabric-lib/src/domain_group.rs:210-293 | refusals, one write per shard, built for one domain and handed to another, and where the round robin goes on |
| `Splitting.SplitPaged` | fabric-lib/src/domain_group.rs:295-360 | refusals, one write per range of pages, round robin, and where the round robin goes on |
| `Splitting.SplitScatter` | fabric-lib/src/domain_group.rs:362-463 | refusals, and the writes of all three ways to spread a scatter |
| `Splitting.Split` | fabric-lib/src/domain_group.rs:138-463 | which requests are turned down or stop the worker, what is entered in the books, exactly which writes are made and where the round robin goes on; what the writes carry is stated by `Coverage` |
| `Splitting.ScatterImms` | fabric-lib/src/domain_group.rs:388-426 | a scatter sharded by peers raises one immediate at each target, one sharded by bytes one per domain |
| `Splitting.ImmRequestImms` | fabric-lib/src/domain_group.rs:190-206 | a barrier raises one immediate at each target, however it is routed |
| `Splitting.WritesInRange` | fabric-lib/src/domain_group.rs:138-463 | every write goes to an existing domain with a key that comes with its region, its pages are in both lists, its targets in the peer group |
| `Splitting.KeysAgreeIff` | fabric-lib/src/domain_group.rs:190-291 | all writes are handed to the domain they were built for if and only if the request is a paged or scatter one or starts at domain zero |
| `Coverage.SingleCovers` | fabric-lib/src/domain_group.rs:246-274 | every byte up to what the shards reach is in exactly one write, and no other byte in any |
| `Coverage.SingleSendsAllIff` | fabric-lib/src/domain_group.rs:576-596 | a single request sends all its bytes, each once, if and only if the division is exact or the quotient is no multiple of 8192 |
| `Coverage.PagedCovers` | fabric-lib/src/domain_group.rs:314-357 | every page is in exactly one write, and there are no others |
| `Coverage.PagesInTurn` | fabric-lib/src/domain_group.rs:327-331 | the writes of successive requests go round the domains without a gap |
| `Coverage.DomainsApart` | fabric-lib/src/domain_group.rs:246-463 | single, paged and scatter requests use every domain and key at most once |
| `Coverage.ImmSpread` | fabric-lib/src/domain_group.rs:165-206 | immediates go to their pinned domain, or in equal stretches of targets to the domains in turn |
| `Coverage.ScatterCovers` | fabric-lib/src/domain_group.rs:386-445 | every byte of every target up to what the shards reach is in exactly one write, and no other byte in any |
| `Coverage.ScatterSendsAllIff` | fabric-lib/src/verbs/verbs_rdma_op.rs:307-323 | all bytes of a target are sent, each once, if and only if its length is below 2^32 and a multiple of the number of parts |
| `ScatterOps.ScatterIter.Post` | fabric-lib/src/verbs/verbs_rdma_op.rs:225-323 | for every acceptance, posted operations are those of the targets in order, each for its part of the target |
| `ScatterOps.SplitMoves` | fabric-lib/src/domain_group.rs:362-463 | split over the domains and posted operation by operation, a scatter copies a byte if and only if its list does, and with exactly one operation |
| `ScatterOps.WorkerMoves` | p2p-all-to-all/src/a2a_worker.rs:554-596 | from the routing table to the wire: the operations copy a byte of a token if and only if the delivery proofs count on it, with exactly one operation; all three lists |
| `Splitting.EmptyIff` | fabric-lib/src/domain_group.rs:295-360 | an accepted request makes no write if and only if it is a paged one without pages |
| `DomainGroup.Domains.Submit` | fabric-lib/src/domain_group.rs:138-463 | the books get the number of writes made, and an entry for a refused request for immediates whose keys match |
| `DomainGroup.Domains.OnCompletion` | fabric-lib/src/domain_group.rs:503-536 | one completion updates books, counters and notices |
| `DomainGroup.StoryTold` | fabric-lib/src/domain_group.rs:503-536 | with any number of transfers interleaved, each one's books follow its own completions |
| `DomainGroup.DoneIff` | fabric-lib/src/domain_group.rs:503-536 | done is signalled if and only if all writes complete before any fails, and the counter moves at most once |
| `DomainGroup.FailuresPassedOn` | fabric-lib/src/domain_group.rs:506-513 | there is one failure notice for each failed write, whether or not the transfer is still in the books |
| `DomainGroup.DoneOnce` | fabric-lib/src/domain_group.rs:514-531 | and at most one done notice |
| `DomainGroup.NeverSignalled` | fabric-lib/src/domain_group.rs:503-536 | a transfer of which no write completes or fails stays in the books and is never signalled or counted |
| `DomainGroup.EmptyNeverDone` | fabric-lib/src/domain_group.rs:295-325 | a paged request without pages is accepted, makes no writes, and is never signalled or counted as done |
| `DomainGroup.CallbackOnce` | fabric-lib/src/transfer_engine.rs:435-441 | at most one of a transfer's callbacks ever runs, and once |
| `DomainGroup.FirstNoticeRuns` | fabric-lib/src/transfer_engine.rs:531-548 | and it is the one for the first notice |
| `Handshake.BringUp` | fabric-lib/src/verbs/verbs_domain.rs:541-570 | the three moves succeed only from the reset state and end ready to send with the given remote |
| `Handshake.Domain.Submit` | fabric-lib/src/verbs/verbs_domain.rs:671-713 | an operation is sent, queued, or starts a connection |
| `Handshake.Domain.Receive` | fabric-lib/src/verbs/verbs_domain.rs:519-603 | a handshake is ignored, or brings the peer up and releases what waited |
| `Handshake.RunInv` | fabric-lib/src/verbs/verbs_domain.rs:444-603 | in every run of any number of domains, with simultaneous starts and duplicate deliveries, the invariant holds |
| `Handshake.NeverRefused` | fabric-lib/src/verbs/verbs_domain.rs:522-570 | a handshake that is not ignored always finds pairs in the reset state |
| `Handshake.GreetsOnce` | fabric-lib/src/verbs/verbs_domain.rs:501-517 | no domain sends two handshakes to the same peer |
| `Handshake.PairsAgree` | fabric-lib/src/verbs/verbs_domain.rs:541-582 | an established peer points at exactly the pairs of the other side |
| `Handshake.NoPairShared` | fabric-lib/src/verbs/verbs_domain.rs:444-500 | in every run no two pairs that are up point at the same pair of the other side |
| `Handshake.PeerStays` | fabric-lib/src/verbs/verbs_domain.rs:519-540 | a peer is created once: its pair numbers never change and it never goes down |
| `Handshake.ReleasedInOrder` | fabric-lib/src/verbs/verbs_domain.rs:572-589 | operations are released exactly once, in submission order, all of them once the peer is up and none before |
| `Handshake.AllConnected` | fabric-lib/src/verbs/verbs_domain.rs:519-603 | when every handshake has been delivered, every started connection is up on both sides |
| `Handshake.Domain.AnswerGroups` | fabric-lib/src/verbs/verbs_domain.rs:591-607 | a peer that came up is struck off every group's list, and the groups it was the last of release their writes |
| `Handshake.Domain.Join` | fabric-lib/src/verbs/verbs_domain.rs:1198-1242 | a group contacts its unknown members and waits for exactly those |
| `Handshake.Domain.WriteGroup` | fabric-lib/src/verbs/verbs_domain.rs:1244-1266 | a group write is an error, waits, or is posted |
| `PeerGroups.GroupReleased` | fabric-lib/src/verbs/verbs_domain.rs:598-607 | group writes are released exactly once, in order, all of them once the group waits for nobody and none before |
| `PeerGroups.GroupAwaits` | fabric-lib/src/verbs/verbs_domain.rs:1208-1242 | at every later point of every run a group waits for exactly the members that were unknown when it was set up and have not come up since |
| `PeerGroups.GroupConnectedIff` | fabric-lib/src/verbs/verbs_domain.rs:1212-1213 | in every continuation of a run a group counts as connected only while all its members are up, if and only if every member known when it was set up was up already, or one of the others does not exist |
| `PeerGroups.ReleasedToReset` | fabric-lib/src/verbs/verbs_domain.rs:1212-1213 | a run of three domains in which a group's write is released while a member's pairs are in the reset state |

## Left out

- libfabric, ibverbs, CUDA, GDRCopy and torch: a device is "takes n of m requests", "completes each posted operation at most once"; flags are events of the protocol.
- GPU memory ordering, grid synchronisation and the NVLink flags between ranks of a node: kernels are events of the step protocol, and their loops are modelled by themselves.
- Floating-point rounding and vector types: `CombineOutput` follows one element over the reals.
- Token scale factors: they travel with the payload and take the same slots.
- Widths of 32 and 64 bits, except where they decide something (the tag bit of offsets, lengths of byte shards, the comparison of counts): positions are assumed below 2^31, as the tag bit requires.
- A world of one rank, for which the barrier request has no targets and its chunking stops, and the early stop of the worker between steps.
- Thread scheduling, channels, memory registration, address encoding, topology discovery, Python bindings.
- SendKernel.SendBlock: the variants of the send kernel with one token per block, which make the same stores in one or two walks, are not followed separately.
- Vectors.ReceivedByVectors: each row is one copy; the inner loops over the bytes of a token are not followed.
- Scatter writes to peers that are not in a group, while some of them connect, and resource failures while connecting.
- Dispatch.DispatchDelivers: the ranks of a group number their pairs alike; what holds otherwise is `Numbering.ExactIffAlike`.
- RoundTrip.RoundTripExact: the ranks of a group number their pairs alike; what holds otherwise is `Numbering.ExactIffAlike`.
- Delivery.DispatchReads: only for single-rank groups or one node, because otherwise it is false (`UnwrittenRead.UnwrittenIff`).
- Delivery.CombineReads: only for single-rank groups or one node, for the same reason.
- UnwrittenRead.UnwrittenIff: messages of one class between two ranks are counted, not named, so "not landed" is said of how many have arrived.
- WorkerProtocol.WorkerBalanced: dispatch only for single-rank groups or one node, because otherwise the counts differ (`Scatter.WaitCountExact`) and the conclusion is false (`EarlyRead.SafeIff`).
- PagedRing.PagedIter.FillWr: the store through a slot that was never initialised is an ordinary store here; when it happens is `PagedRing.StoresUninitialised`.
- ScatterOps.WorkerMoves: for token sizes that the domains divide and less than 2^32 bytes per target, as one, two or four domains and the token sizes of the worker give (`Sharding.TokensShardExactly`); otherwise bytes are left out exactly as `Coverage.ScatterSendsAllIff` says.
