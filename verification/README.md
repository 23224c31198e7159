# Verified model of the gpu-let server

The repository serves machine-learning models on shared GPUs. Its scheduler cuts GPUs into at most two parts
(gpu-lets) and places models on them; its service balances requests over the placements, passes them through a
lock-free queue, and reads its settings as JSON. This project models four of its cores and proves what they keep:

1. **The scheduler** (`Rounding`, `Cluster`, `Performance`, `BatchSearch`, `Adjust`, `Estimation`, `Allocation`,
   `Accounts`, `Fitting`, `Readjusting`, `Merging`, `TimeSharing`, `Session`, `Ledger`, `Scheduling`, `Runs`). Nodes, the cluster and the
   demand being scheduled are heap objects that the passes change in place. Rates are ints and throughputs reals,
   with the source's truncations. Latency, batching overhead and slowdown are arbitrary functions; that latency
   grows with the batch, or as the part shrinks, is assumed only where a property says so (latency that does both, the
   second only if GPUs may not be cut, is called orderly). `Ledger` keeps books of what every node runs and which nodes
   are on which GPU, and says what each pass does to them; a session is a chain of such books.
2. **The load balancer** (`Fairness`, `Balancing`): its tables, filled from a scheduling result, and the weighted
   round robin over them.
3. **The lock-free queue** (`FreeList`, `Tickets`, `Pow2`, `BlockRing`, `Dequeue`, `Semaphore`): state machines whose steps are the
   atomic accesses, interleaved in any way by any number of threads, under sequential consistency. A run in which a
   step is undefined may go on anywhere; that this never happens is part of what is proved.
4. **JSON** (`Utf8`, `JsonStrings`, `JsonNumbers`, `Json`, `JsonRoundTrip`, `JsonWriter`, `JsonReader`): the writer and the
   reader, as functions on byte strings and as the loops and recursive methods that compute them, and that reading
   undoes writing. UTF-8 is checked against the syntax of section 4 of RFC 3629.

In the scheduler, `Ok` and `Fail` are EXIT_SUCCESS and EXIT_FAILURE (`false` and `true` in the source's bool
functions), and `Abort` is a failed assert or a read of something never set. `elasticPartitioning` has no return on
its success path; it is modelled as EXIT_SUCCESS. Allocation failures, the memory check, the bandwidth check and the
order of a worklist are nondeterministic.

## What the proofs brought to light

- `checkForInterference` asks for the neighbour's slowdown on a GPU that holds the neighbour alone, so the newcomer never
  counts (`Allocation.NeighbourAloneNotSlowed`).
- `checkNeedtoRevert` charges what the neighbour loses to the neighbour's own entry, where nothing reads it
  (`Readjusting.AdjustNeighbour`). A neighbour that is kept can lose half its throughput (`Readjusting.NeighbourLosesHalf`);
  when it loses none is known exactly (`Readjusting.NothingLost`).
- `mergeResidue` empties the residue nodes before it looks for a home for the merged rate, and if it finds none what they
  served is in no request rate any more. When the batch search refuses a merged rate is known exactly
  (`Merging.LostExactlyWhen`); but no rate is refused on a part that the scheduler has given a residue of the model
  (`Merging.NeverRefused`). So without interference, with latency growing in the batch (and with smaller parts, when GPUs
  may not be cut), only the memory check can make a merge lose its load (`Merging.MergeNeverLoses`), and a model added is
  served its rate less 15 and six for each GPU (`Scheduling.AddModel`).
- A residue gpu-let can get batches faster than it serves them, because its search compares the time a batch fills in with
  the SLO and not with the latency (`Readjusting.ResidueOvercommits`); from the rate and the batch the search gives it is known
  before placing when that happens (`Readjusting.AtMostFull`).
- A model whose node is shared later keeps up with its rate but for one request per duty cycle, unless its batch is capped at
  32 (`TimeSharing.KeepsUpMeans`, `Runs.LastingMore`).
- `getMaxReturnPart` never looks at the step from the second largest part to the largest
  (`Estimation.GetMaxReturnPart`).
- `getMaxBatch` never probes 32: its largest answer is 31 (`BatchSearch.SearchBatch`).
- The block lookup divides a signed distance by a `size_t`, so the division is unsigned, against the comment above it; the
  mask makes the slot right all the same, because index sizes divide 2^64 / BLOCK_SIZE (`BlockRing.LookupFinds`).
- The balancer's "min" credit is the credit of the key admitted last (`Fairness.LeastIsLast`), and a key that is not in
  the tables is let through, EXIT_FAILURE being `true` (`Balancing.LoadBalancer.CheckWRR`).
- The packed key of the balancer overflows a 32-bit int from model 215 on, though the comment allows any number
  (`Balancing.KeyFitsInt`).
- A string survives quoting and parsing exactly if it is well-formed UTF-8 (`JsonStrings.QuotedRoundTrip`).
- A number token that is a minus sign alone reads as the integer 0; a plus sign alone goes to the double reader
  (`JsonNumbers.SignAlone`).
- A NaN is written as null and comes back as null; an infinity is written as 1e+9999, which reads back only if the stream
  library accepts it (`JsonRoundTrip.NotANumberIsLost`, `JsonRoundTrip.InfinityBack`).

## Model

| member | source | states |
|---|---|---|
| `Runs.IncrementalScheduler.RunScheduling` | src/scheduler/scheduler_incremental.cpp:18-26 | whatever a run does and however it ends, every GPU is whole or cut in two parts that (size, dedup) tells apart, no node holds a model twice, and GPU i sits at place i; on success the output is a deep copy of the cluster, legal too, on nodes of its own |
| `Runs.IncrementalScheduler.IncrementalScheduling` | src/scheduler/scheduler_incremental.cpp:28-99 | terminates within two rounds, one without interference. With it, success means that every model of the last round has 85% of the rate the session asks for it. The last round is the session or, after a retry, a nonempty list that holds exactly the models short of 85% in what the first round placed, each once and at the rate asked for. Without it, the books of the cluster there was, or of a new one that runs nothing, are turned into those of the cluster there is entry by entry, as `ElasticPartitioning` says |
| `Runs.Review` | src/scheduler/scheduler_incremental.cpp:52-92 | on success what is tried again is exactly the models of the session short of 85% of the rate it asks for, each once and at that rate, so nobody is only if all have it; it fails only over a short model that had its try |
| `Runs.SameRate` | src/scheduler/scheduler_incremental.cpp:73-85 | a second round is measured by the rates of the first |
| `Runs.IncrementalScheduler.ElasticPartitioning` | src/scheduler/scheduler_incremental.cpp:132-153 | the entries are taken in ascending order of rate times SLO, each once; models that are not of the session keep every placement. Without interference, success comes with a chain of books, from those of the cluster before to those after, in which each entry turned one into the next by withdrawing, placing, merging and sharing its model as its account says, and left it well served: its rate less 15 and six for each GPU, or short by what one part of its table serves if memory was refused or latency misbehaves. At the end it is served exactly that still, unless a later entry is for it or shares one of its nodes; if none is for it, each of its placements is as it was, or beside others and keeping up with its rate. With memory granted and orderly latency, whatever the accounts say, every model asked for more than 15 and six for each GPU is on a node at the end, and the last one is served all but that |
| `Runs.ProvidedMore` | src/scheduler/scheduler_incremental.cpp:132-153 | an entry that serves its model well and spares the others leaves those before it that it leaves alone with exactly the supply they had |
| `Runs.LastingMore` | src/scheduler/scheduler_incremental.cpp:132-153 | whichever nodes an entry shares, the placements of every model but its own, back to the first entry, are still on their nodes and GPUs, unchanged or keeping up with their rates |
| `Runs.ChainProvides` | src/scheduler/scheduler_incremental.cpp:132-153 | from a chain of books in which each entry added its model follows all that is provided at the end of the session and all that lasts |
| `Runs.PlacedStill` | src/scheduler/scheduler_incremental.cpp:132-153 | a model that was served something after its last entry is on some node of a GPU at the end of the session |
| `Runs.EntriesInFull` | src/scheduler/scheduler_incremental.cpp:132-153 | with memory granted on the nodes there are at the end and orderly latency, each entry left its model the rate asked for less 15 and six for each GPU |
| `Runs.OthersEndure` | src/scheduler/scheduler_incremental.cpp:416-560 | whatever adding a model does, each placement of another is still on its node and the node on its GPU, unchanged or keeping up with its rate |
| `Runs.EndureOn` | src/scheduler/scheduler_incremental.cpp:416-560 | sharing a node again and again costs a placement no more than sharing it once: what endures twice endures |
| `Scheduling.AddModel` | src/scheduler/scheduler_incremental.cpp:281-414 | success leaves at most the slack of the rate open. Without interference it comes with an account that leads from the books before to those after: withdrawn, then put on nodes that were empty or are new, then its residues merged into a home or lost, then let onto the nodes it shares, all of them nodes of the GPUs; what a step adds to the supply or takes off it is what the nodes named serve, and each step pays for what it took off the rate but for one request per second for each node. Whatever the account says, the supply is the rate less 15 and six for each GPU once memory is granted and latency grows with the batch (and with smaller parts, if GPUs may not be cut); otherwise it may be short by what one part of the table serves. Residues are placements planned for parts of their own, and on every node it does not share the model runs such a one. Other models stand as they did but on the nodes shared, where they keep up with their rates, and are served what they were but for those on these. With interference they keep every placement all the same |
| `Scheduling.AddedServesWell` | src/scheduler/scheduler_incremental.cpp:281-414 | any account of adding a model that pays for its rate and explains its merge leaves the model well served, a bound in which the account does not appear |
| `Scheduling.NothingGone` | src/scheduler/scheduler_incremental.cpp:281-414 | with memory granted on the nodes of the residues, success is the rate less 15 and one for each node placed, merged or shared, and these are six for each GPU at most |
| `Scheduling.BeforeMerge` | src/scheduler/scheduler_incremental.cpp:281-414 | when merging begins, every residue of the model is a placement planned for a part of its own and not full, so with memory granted any merged rate finds a home |
| `Scheduling.Withdraw` | src/scheduler/scheduler_incremental.cpp:352-379 | a model placed before is taken off every node and no other model is touched; the nodes to reuse are exactly those with nothing left to serve, the nodes to share exactly those that held it, and it is served nothing |
| `Scheduling.LossOfMerge` | src/scheduler/scheduler_incremental.cpp:1388-1475 | when a merge loses its load, the model is short of its rate less the roundings by no more than what one part of its table serves |
| `Ledger.PlacedMore` | src/scheduler/scheduler_incremental.cpp:297-351 | placing once more, on nodes that were empty or are new, extends the account of a model that has only been placed |
| `Ledger.MergedMore` | src/scheduler/scheduler_incremental.cpp:1367-1492 | so does merging its residues: the supply falls by exactly what each of them served just before and rises by what their home gives, and no other node changes |
| `Ledger.SharedMore` | src/scheduler/scheduler_incremental.cpp:416-560 | so does letting it share nodes of others, which stay on theirs and keep up with their rates |
| `Ledger.OthersAfter` | src/scheduler/scheduler_incremental.cpp:281-414 | however a model was added, the others run what they ran but on the shared nodes, keep up there, keep their GPUs, and are served what they were unless they are on one of these |
| `Ledger.AddedTruly` | src/scheduler/scheduler_incremental.cpp:281-414 | the account names every node that has come to serve the model: those placed and the residues had no other model, the placed ones serve it unless they were merged, and those shared serve it |
| `Ledger.PaidMeans` | src/scheduler/scheduler_incremental.cpp:281-414 | the steps of an account add up: what the model is served and what is left open make up for its rate, but for the roundings and what a lost merge took |
| `Ledger.FewRoundings` | src/scheduler/scheduler_incremental.cpp:281-414 | the nodes placed, merged and shared are distinct nodes of the GPUs, two for each at most, so there are at most six roundings for each GPU |
| `Ledger.BooksSeen` | src/scheduler/scheduler_incremental.cpp:53-61 | the books of a legal cluster give every model the supply the cluster gives it, and show which nodes are on its GPUs |
| `Accounts.SupplyIsThroughput` | src/scheduler/scheduler_incremental.cpp:53-61 | what a cluster serves a model, counted GPU by GPU, is what the check after a round adds up over all placements |
| `Cluster.SameMeansEqual` | src/scheduler/scheduler_base.cpp:811-814 | comparing GPU, size and dedup number tells the nodes of a legal cluster apart |
| `Session.InitiateDevs` | src/scheduler/scheduler_base.cpp:305-326 | makes as many whole, empty GPUs as wanted or available, but never fewer than one if any is available |
| `Session.SetupAvailParts` | src/scheduler/scheduler_base.cpp:284-300 | the sizes on offer are what the passes rely on: descending, within a GPU, and closed under taking the rest of a GPU |
| `Session.CopyToOutput` | src/common/scheduler_utils.cpp:7-49 | the copy has the input's GPUs in order, node by node equal in every field, and only new nodes |
| `Session.CopyOk` | src/common/scheduler_utils.cpp:14-44 | a GPU whose nodes hold what a legal GPU's nodes hold is legal |
| `Rounding.TruncSubtract` | src/scheduler/scheduler_incremental.cpp:925-929 | taking a throughput off an int rate loses less than one request per second |
| `Performance.GetInterference` | src/scheduler/scheduler_base.cpp:380-391 | the worst slowdown over all models on the GPU's other nodes, 1 at least |
| `Performance.GetLatency` | src/scheduler/scheduler_base.cpp:403-424 | latency with overhead, slowdown and ratio, positive for every batch |
| `BatchSearch.SearchBatch` | src/scheduler/scheduler_base.cpp:622-675 | the search ends; 0 means batch 1 is infeasible, otherwise the answer is feasible and 31 or followed by an infeasible batch |
| `BatchSearch.LargestFeasible` | src/scheduler/scheduler_base.cpp:622-675 | with latency growing in the batch, that is the largest feasible batch |
| `BatchSearch.NoneFoundMeans` | src/scheduler/scheduler_base.cpp:622-675 | with latency growing in the batch, the search finds none exactly if a batch of one is infeasible |
| `BatchSearch.GetMaxBatch` | src/scheduler/scheduler_base.cpp:601-707 | the search's answer stands if batch 1 is feasible; otherwise a batch of 1 at a raised rate is given exactly for small residue rates |
| `BatchSearch.RaisedRateNotLower` | src/scheduler/scheduler_base.cpp:678-694 | the fallback never lowers the requested rate |
| `Adjust.AdjustResNode` | src/scheduler/scheduler_base.cpp:468-526 | either the node is untouched, because some task is late whatever its batch, or batches are cut to the largest that fit, the duty cycle to the least one, and throughputs follow |
| `Adjust.AdjustRes` | src/scheduler/scheduler_base.cpp:468-526 | the same on values: when there is no cut, some task is late at every batch, and when there is, each batch is the largest that fits |
| `Adjust.ShrinkBatch` | src/scheduler/scheduler_base.cpp:488-506 | the inner loop finds the largest batch that meets the SLO beside the others as they were, with its shrunk duty cycle, or 0 |
| `Adjust.CutMeetsAll` | src/scheduler/scheduler_base.cpp:486-526 | though each batch was cut against the old batches of the others, all tasks together answer in time |
| `Adjust.AdjustedInTime` | src/scheduler/scheduler_base.cpp:468-526 | a node adjusted with success has total latency plus duty cycle within 1.05 of every SLO |
| `Adjust.AdjustSatNode` | src/scheduler/scheduler_base.cpp:736-805 | a node of other than one task aborts; otherwise the batch is the largest that runs twice within the SLO and the loss is charged |
| `Adjust.AdjustSat` | src/scheduler/scheduler_base.cpp:736-805 | the loop ends with 2 · latency within the SLO, or with no batch that has it |
| `Adjust.ChargeCoversLoss` | src/scheduler/scheduler_base.cpp:760-800 | what is charged to the task makes up for the lost throughput but for less than one request per second |
| `Estimation.InitSaturateTrp` | src/scheduler/scheduler_incremental.cpp:156-200 | the table has an entry for every device type and size, with the batch the search gives |
| `Estimation.EstimateTrp` | src/scheduler/scheduler_incremental.cpp:202-258 | terminates; gpu-lets are estimated exactly for rates above the slack, and their throughput is the rate but for the slack and one request per second for each saturated node, when the residue's duty cycle is bound by its rate |
| `Estimation.TimelyAlone` | src/scheduler/scheduler_base.cpp:601-707 | what the residue search gives, run as fast as it fills or else as it can, is in time, fills its part, or has the raised rate |
| `Estimation.GetMinPart` | src/scheduler/scheduler_incremental.cpp:692-756 | 0 exactly when no batch was found at the largest part; otherwise no smaller part on offer meets the SLO and the rate with that batch, if latency grows as parts shrink |
| `Estimation.HoldsUpward` | src/scheduler/scheduler_incremental.cpp:727-745 | a part that meets SLO and rate is surpassed by every larger one, so the scan may stop at the first that does not |
| `Estimation.GetMaxReturnPart` | src/scheduler/scheduler_incremental.cpp:650-690 | the part is the upper end of a step that raises the throughput by 5% at least and most per percent of all such steps but the one up to the largest part; it is the smallest part if no step does; none is missing from a complete table |
| `Allocation.FindBestFit` | src/scheduler/scheduler_incremental.cpp:1119-1188 | the node found is free, large enough, of the right type and not excluded, with the least surplus; none is found only if no node qualifies |
| `Allocation.CheckFit` | src/scheduler/scheduler_incremental.cpp:1064-1117 | succeeds exactly if every wish got a node; the k-th is free, of the type wished for, as large as the wish and passes the memory check; and no node is promised more than its size |
| `Allocation.NeighbourAloneNotSlowed` | src/scheduler/scheduler_incremental.cpp:1556-1584 | a node alone on its GPU has slowdown 1, so the interference check never sees the newcomer |
| `Fitting.Split` | src/scheduler/scheduler_incremental.cpp:1239-1257 | cutting a whole GPU gives two parts of 100 in all, told apart by size or dedup number, and changes nothing else |
| `Fitting.AllocateFit` | src/scheduler/scheduler_incremental.cpp:1205-1288 | every wish is on an empty node of its own on success. Without interference each runs what was planned for a part of its own: one batch per duty cycle gives its throughput, and it is in time, fills its part, or has the raised rate. What is placed is what the model gains, nothing else changes, and it makes up for the rate but for the slack and one request per second for each node; with interference, no placement is lost or moved |
| `Fitting.AdjustGpu` | src/scheduler/scheduler_incremental.cpp:1264-1284 | each node of the GPU in turn ends adjusted to what its neighbours have become: a full one runs the largest batch that runs twice in time, another is cut as adjustResNode cuts; the charge is what the full ones lose, each loss rounded down; demands and other GPUs are untouched |
| `Readjusting.AdjustNeighbour` | src/scheduler/scheduler_incremental.cpp:1512-1541 | a neighbour not reverted is within its bound: 2 · latency within the SLO if saturated, total latency plus duty cycle within 1.05 of it if not; a saturated one ends as adjustSatNode leaves it, what it lost being the charge; it aborts exactly on a full node with other than one task |
| `Readjusting.NothingLost` | src/scheduler/scheduler_incremental.cpp:1512-1541 | a saturated neighbour that is kept loses no throughput exactly if the largest batch that runs twice in time gives as much at the latency it has beside the newcomer |
| `Readjusting.NeighbourLosesHalf` | src/scheduler/scheduler_incremental.cpp:1512-1541 | an input, with the batch the search gives, on which a neighbour is kept and loses half its throughput |
| `Readjusting.CheckNeedToRevert` | src/scheduler/scheduler_incremental.cpp:1496-1543 | with interference on, a placement that is kept leaves the neighbour within its bound under the new interference |
| `Readjusting.TryPlace` | src/scheduler/scheduler_incremental.cpp:930-985 | a placement stands, neighbours in bounds, or the node is empty again |
| `Readjusting.CutInTwo` | src/scheduler/scheduler_incremental.cpp:885-912 | a cut adds exactly one new empty node, the rest of the GPU, to the worklist, and the node cut is whole no longer; the cluster serves what it did |
| `Readjusting.UseOne` | src/scheduler/scheduler_incremental.cpp:870-990 | each turn leaves fewer whole GPUs in the worklist, or as many and fewer nodes: both loops end although cutting adds nodes |
| `Readjusting.UseNodes` | src/scheduler/scheduler_incremental.cpp:862-1056 | a loop over the worklist ends with the rate served up to the slack or with no node left |
| `Readjusting.Readjust` | src/scheduler/scheduler_incremental.cpp:844-1062 | only nodes given, all empty, and new parts of theirs are placed on, and no other node changes its demands. Without interference each runs what was planned for a part of its own: one batch per duty cycle gives its throughput, and it is in time, fills its part with the batch of the search or the table, or has the raised rate. Nothing else changes at all, and the throughput newly placed, which is what the model gains, is on success at least the rate at entry less 15 and less the number of nodes |
| `Readjusting.AtMostFull` | src/scheduler/scheduler_incremental.cpp:1013-1025 | with `b` the answer of the batch search at a rate, and `k` of them left by the bandwidth check, a residue has occupancy at most 1 exactly if the rate is no more than batches of `b` give, one after the other in the time of `k`; with latency growing in the batch it is enough if it is no more than they give in the time of `b`, which is known before anything is placed |
| `Readjusting.ResidueOvercommits` | src/scheduler/scheduler_incremental.cpp:1013-1025 | an input on which the residue search gives a part batches that come in faster than they are served |
| `Readjusting.TrimToBandwidth` | src/scheduler/network_limit.cpp:77-102 | a placement scaled to the network bandwidth keeps its duty cycle: throughput is still one batch per duty cycle |
| `Merging.GatherResidues` | src/scheduler/scheduler_incremental.cpp:1375-1410 | exactly the residue nodes of the model are gathered, each once; the merged rate is their throughput added to the rate left, and the part sought is like one of them and fills no later than the like of any |
| `Merging.GatheredLosesLittle` | src/scheduler/scheduler_incremental.cpp:1395-1405 | adding throughputs to an int rate one by one loses at most one request per second for each |
| `Merging.PlaceMerged` | src/scheduler/scheduler_incremental.cpp:1420-1470 | the merged rate goes to one free node of the size and type sought, raised if anything, or nothing changes |
| `Merging.MergeEmptyGpus` | src/scheduler/scheduler_incremental.cpp:1474-1490 | afterwards no GPU is cut in two empty parts, unless cutting is off and nothing changes |
| `Merging.MergeResidue` | src/scheduler/scheduler_incremental.cpp:1367-1492 | residues are cleared only if merging is worth it, and no node but these and the new home is touched. A home was free, or a residue, and of the part sought; it serves what the residues served and the rate left, but for one request per second for each residue, and without interference as a residue search for that part would have it. If none is found, the residues are empty and the rate is as it was. Without interference one is found exactly if the batch search does not refuse the merged rate on that part and the memory check lets it onto one |
| `Merging.GrantedFindsHome` | src/scheduler/scheduler_incremental.cpp:1424-1468 | memory granted, whether a home is found depends on the batch search alone |
| `Merging.LostExactlyWhen` | src/scheduler/scheduler_incremental.cpp:1405-1468 | of any merged rate, with latency growing in the batch and a table for the SLO, the batch search refuses exactly those for which a batch of one does not run twice in time and either misses the SLO or is saturated by the rate to the point |
| `Merging.TwiceInTimeIsServed` | src/scheduler/scheduler_base.cpp:601-707 | a model whose batch of one runs twice within its SLO is refused at no rate |
| `Merging.NeverRefused` | src/scheduler/scheduler_incremental.cpp:1424-1468 | on a part where a placement planned for it runs in less than its duty cycle, no rate of that model is refused, be it in time or a batch of one at the raised rate |
| `Merging.MergeNeverLoses` | src/scheduler/scheduler_incremental.cpp:1367-1492 | among residues placed by the scheduler for this SLO, a merged load finds a home as soon as memory is granted on those like the one that fills earliest |
| `TimeSharing.TryShare` | src/scheduler/scheduler_incremental.cpp:470-540 | a node takes the model in only if every model on it still answers within its SLO at the new duty cycle |
| `TimeSharing.ShareSearch` | src/scheduler/scheduler_incremental.cpp:480-505 | the batch found is the largest that shares well, 0 if none does |
| `TimeSharing.SharedByLess` | src/scheduler/scheduler_incremental.cpp:515-545 | cutting batches to the cap keeps a shared node within its bounds when latency grows with the batch |
| `TimeSharing.ShareNode` | src/scheduler/scheduler_incremental.cpp:465-556 | a node is shared only with a model it did not hold, what is granted makes up for the drop of the rate but for one request per second, and those that were there keep up with their rates |
| `TimeSharing.KeepsUpMeans` | src/scheduler/scheduler_incremental.cpp:533-536 | keeping up is serving more than the rate less one request per duty cycle, or having the largest batch |
| `TimeSharing.JoinedKeepUp` | src/scheduler/scheduler_incremental.cpp:533-536 | after a model has joined a node, every other one there keeps up with its rate |
| `TimeSharing.AllocateTimeShare` | src/scheduler/scheduler_incremental.cpp:416-560 | terminates, each success using up a candidate; succeeds exactly if at most the slack is left. The nodes shared are distinct candidates that did not hold the model; what it is granted there is what it gains, and makes up for the drop of the rate but for one request per second for each; no other node changes. Without interference, with latency growing in the batch, every node ends as it was or with occupancy at most 1 and total latency plus duty cycle within the SLO of every model on it |
| `Fairness.CyclicPollingIsFair` | src/service/load_balancer.cpp:138-155 | polled cyclically, in any order, from any start and for any time, no key's credit, its grants times its weight, leads another's by more than one grant of each of the other keys costs |
| `Fairness.InOrderIsCyclic` | src/service/load_balancer.cpp:138-155 | polling in any fixed order of the keys, over and over and from any start, is cyclic |
| `Fairness.CyclicRepeats` | src/service/load_balancer.cpp:138-155 | and nothing else is: every poll is of the key polled as many polls ago as there are keys |
| `Fairness.SpreadBounded` | src/service/load_balancer.cpp:138-155 | in any polling order the lead over a key is bounded by what was ever polled since that key |
| `Fairness.LeadBounded` | src/service/load_balancer.cpp:147-151 | the key admitted last leads another by no more than the weights polled since the other |
| `Fairness.LeastIsLast` | src/service/load_balancer.cpp:147-151 | the stored bar is the credit of the key admitted last |
| `Fairness.SmallestAdmitted` | src/service/load_balancer.cpp:184-186 | in any polling order the key that used least is admitted |
| `Fairness.RefusedIsAhead` | src/service/load_balancer.cpp:184-186 | a refused key is strictly ahead of the one admitted last |
| `Fairness.CreditAddsUp` | src/service/load_balancer.cpp:149-150 | a key's credit is its grants times its weight |
| `Fairness.CreditIsPer` | src/service/load_balancer.cpp:83-95 | with the weight a renewal gives it, a key's credit is its grants divided by its throughput |
| `Balancing.KeyInjective` | src/service/load_balancer.cpp:163-169 | within the documented ranges keys are equal exactly for the same model, GPU, part and dedup number |
| `Balancing.KeyFitsInt` | src/service/load_balancer.cpp:163-169 | the key fits a 32-bit int exactly up to model 214 |
| `Balancing.ModelOfKey` | src/service/load_balancer.cpp:172-175 | dividing a key gives its model back |
| `Balancing.ClusterGood` | src/service/load_balancer.cpp:97-114 | in a legal cluster no two placements share a key |
| `Balancing.EachShareItsKey` | src/service/load_balancer.cpp:83-95 | after a renewal every placement has its key, listed under its model, with credit 1 / throughput and nothing used |
| `Balancing.RenewedConsistent` | src/service/load_balancer.cpp:83-114 | the tables have no other keys, no repetition, and every key under the model it encodes |
| `Balancing.LoadBalancer.UpdateWRR` | src/service/load_balancer.cpp:97-114 | the nested loops over GPUs, nodes and tasks build exactly those tables |
| `Balancing.LoadBalancer.CheckWRR` | src/service/load_balancer.cpp:138-155 | a key in the tables is one of its model's and is polled by the round robin; a key that is not is let through |
| `Balancing.Polled` | src/service/load_balancer.cpp:147-151 | an admission is one poll of its model's round robin and leaves all other models alone |
| `Balancing.ModelsAreIndependent` | src/service/load_balancer.cpp:138-155 | however polls of different models interleave, each model goes through its own round robin |
| `Balancing.BalancedFairly` | src/service/load_balancer.cpp:83-155 | fairness from a table renewal on, for a model whose keys are polled in turn amid polls of other models |
| `Balancing.SharesFairly` | src/service/load_balancer.cpp:83-155 | of any two placements of such a model, the grants divided by the throughput placed differ by no more than what one grant of each of the other keys costs |
| `FreeList.StepKeepsInv` | src/service/concurrentqueue.h:1375-1454 | every atomic step of add, try_get and add_knowing_refcount_is_zero keeps the invariant that ties reference counts to holders and the chain to the free blocks |
| `FreeList.RunInv` | src/service/concurrentqueue.h:1375-1454 | so does every interleaving from an empty list |
| `FreeList.NoBlockTwice` | src/service/concurrentqueue.h:1375-1454 | no block is on the list twice, on it and owned, or owned by two threads |
| `FreeList.NextIsStable` | src/service/concurrentqueue.h:1389-1418 | while a thread holds a reference no step changes the block's next pointer |
| `FreeList.SwapInstallsSuccessor` | src/service/concurrentqueue.h:1398-1411 | a successful swap of the head installs the block's true successor, and the assert after it holds: there is no ABA problem |
| `FreeList.ReturnedBlockIsFree` | src/service/concurrentqueue.h:1403-1411 | a block try_get returns is off the list and nobody else's |
| `FreeList.EveryBlockHasAKeeper` | src/service/concurrentqueue.h:1375-1454 | no block is lost |
| `Tickets.HeadNeverPassesTail` | src/service/concurrentqueue.h:1886-1932 | the consumers that pass the check never outnumber the enqueued elements |
| `Tickets.PassedGetsElement` | src/service/concurrentqueue.h:1920-1932 | a consumer that passed gets an index that is enqueued already |
| `Tickets.EachIndexOnce` | src/service/concurrentqueue.h:1932 | indices are handed out once each, in order, without gaps |
| `Tickets.CountersAgree` | src/service/concurrentqueue.h:1886-1976 | optimistic count less overcommit is the head plus the dequeues in flight, and the head itself when there are none |
| `Tickets.OvercommitBelowTicket` | src/service/concurrentqueue.h:1909-1914 | the overcommit read is at most the ticket drawn, which the source argues but cannot assert |
| `Tickets.EmptyIsSeen` | src/service/concurrentqueue.h:1888-1890 | with no dequeue in flight the first check tells exactly whether the queue has an element |
| `BlockRing.StepKeeps` | src/service/concurrentqueue.h:1783-1968 | no step of the producer or a consumer reads what is not there, and each keeps the invariant of ring, index, flags and cells |
| `BlockRing.RunInv` | src/service/concurrentqueue.h:1783-1968 | so in every run from the constructor's state, its index allocated or not |
| `BlockRing.LookupFinds` | src/service/concurrentqueue.h:1943-1949 | base, unsigned offset and mask give the slot of the index's own block |
| `BlockRing.LookupFindsBlock` | src/service/concurrentqueue.h:1937-1949 | a consumer finds the block of its index whatever blocks were reused, added or reindexed while it looked |
| `BlockRing.OldestIsEmpty` | src/service/concurrentqueue.h:1791-1797 | a block found empty has been dequeued completely, so reusing it disturbs no consumer |
| `BlockRing.NewHeaderOk` | src/service/concurrentqueue.h:2279-2313 | the doubled index holds the entries of the whole ring, and its next slot is the next block's |
| `BlockRing.CopyEntries` | src/service/concurrentqueue.h:2293-2300 | the copy loop ends after exactly the used entries, oldest first |
| `BlockRing.FlagWasClear` | src/service/concurrentqueue.h:1514-1519 | the empty-flag a consumer sets was not set, as the source asserts |
| `BlockRing.RefinesQueue` | src/service/concurrentqueue.h:1783-1968 | every step is a step of a first-in first-out queue: publish at the back, draw the front, or neither |
| `BlockRing.KthDequeueIsKthEnqueue` | src/service/concurrentqueue.h:1885-1968 | the k-th dequeue gives the k-th element enqueued, and none in between is lost |
| `BlockRing.ReturnsItsElement` | src/service/concurrentqueue.h:1937-1968 | what a consumer takes out of its cell is the element enqueued under the index it drew |
| `Dequeue.StepKeeps` | src/service/concurrentqueue.h:1885-1976 | dequeue as written, tickets first and no test of head against tail where the head is advanced: every step is defined and keeps tickets and ring in step |
| `Dequeue.DrawIsGuarded` | src/service/concurrentqueue.h:1920-1932 | whenever a consumer advances the head there is an element enqueued and not drawn yet, as the ring demands |
| `Dequeue.FirstInFirstOut` | src/service/concurrentqueue.h:1783-1976 | in every run each step appends the element enqueued, takes the front of a queue that has one, or leaves the contents alone |
| `Dequeue.KthDequeue` | src/service/concurrentqueue.h:1885-1976 | the k-th dequeue that passed its check gives the k-th element enqueued, or its consumer still has that index |
| `Semaphore.StepKeeps` | src/service/blockingconcurrentqueue.h:260-411 | every atomic step of waits, timed waits, waitMany and signal keeps the balance of counters and threads |
| `Semaphore.Conserved` | src/service/blockingconcurrentqueue.h:260-411 | kernel count plus releases on their way equal waiters plus min(count, 0), and acquires never exceed permits |
| `Semaphore.NoLostWakeup` | src/service/blockingconcurrentqueue.h:275-283 | a sleeper with no release coming waits only because all permits given are taken |
| `Semaphore.TimeoutLeavesNoPermit` | src/service/blockingconcurrentqueue.h:284-297 | a wait that times out takes back its place only while more threads wait than releases are due |
| `Semaphore.ResultInRange` | src/service/blockingconcurrentqueue.h:299-395 | a wait gets no more than it asked for, and an untimed one for at least one gets at least one, as waitMany asserts |
| `Semaphore.HolderFindsElement` | src/service/blockingconcurrentqueue.h:755-762 | a consumer past its wait finds an element: the retry loop never meets an empty queue |
| `Semaphore.QuietCountIsSize` | src/service/blockingconcurrentqueue.h:516-525 | with no call in progress the count is the number of elements |
| `Utf8.EncodedDecodes` | src/common/jsoncpp.cpp:125-151 | encoding a scalar value gives one character of the standard's grammar, which decodes to it |
| `Utf8.DecodedEncodes` | src/common/jsoncpp.cpp:4193-4247 | every character of the grammar decodes to the scalar value that encodes to it |
| `Utf8.FrontWellFormed` | src/common/jsoncpp.cpp:4193-4247 | a string starts with a well-formed character exactly if its decoded front encodes to a prefix of it |
| `JsonStrings.ValueToQuotedString` | src/common/jsoncpp.cpp:4280-4358 | the quoting loop and its shortcut write the same text |
| `JsonStrings.DecodeString` | src/common/jsoncpp.cpp:1891-1945 | the decoding loop gives the decoded text or fails where it must |
| `JsonStrings.ScansBack` | src/common/jsoncpp.cpp:1638-1648 | the token scanned for a quoted string ends at its closing quote whatever follows |
| `JsonStrings.DecodesBack` | src/common/jsoncpp.cpp:1891-1993 | any byte string, well-formed or not, reads back as the encodings of its decoded code points, surrogate pairs included |
| `JsonStrings.QuotedRoundTrip` | src/common/jsoncpp.cpp:4280-4358 | quoting, scanning and decoding give the original bytes exactly if they are well-formed UTF-8 |
| `JsonNumbers.UintToString` | src/common/jsoncpp.cpp:167-173 | the loop from the last digit prints the decimal |
| `JsonNumbers.ValueToString` | src/common/jsoncpp.cpp:4132-4145 | every 64-bit integer is printed, the least one without overflow |
| `JsonNumbers.DecodeNumber` | src/common/jsoncpp.cpp:1778-1856 | a token becomes exactly the 64-bit integer it denotes, and tokens out of range or not integers go to the double reader; the accumulator never overflows |
| `JsonNumbers.SignAlone` | src/common/jsoncpp.cpp:1778-1856 | of the tokens without a digit the minus sign alone is an integer, and 0 |
| `JsonNumbers.IntegerRoundTrip` | src/common/jsoncpp.cpp:1778-1856 | every 64-bit integer reads back as itself, signed up to 2^63 - 1 and unsigned above |
| `JsonNumbers.RealToString` | src/common/jsoncpp.cpp:4165-4206 | a finite double is written with a point, whatever the locale's, and never without fraction or exponent; NaN and the infinities as null and 1e+9999 |
| `JsonNumbers.RealScansBack` | src/common/jsoncpp.cpp:1612-1637 | the text of a finite double is scanned as one number token before anything that does not go on with it, and never reads as an integer |
| `JsonWriter.FastWriter.WriteValue` | src/common/jsoncpp.cpp:4417-4469 | the recursive writer appends the text of the value, whatever it is |
| `JsonReader.OurReader.ReadToken` | src/common/jsoncpp.cpp:1387-1493 | the cursor passes the next token and stops right behind it |
| `JsonReader.OurReader.ReadNumber` | src/common/jsoncpp.cpp:1612-1637 | the scan passes digits, fraction and exponent and no more |
| `JsonReader.OurReader.ReadArray` | src/common/jsoncpp.cpp:1724-1766 | the loop reads the items up to the closing bracket, or fails as specified |
| `JsonReader.OurReader.ReadObject` | src/common/jsoncpp.cpp:1662-1722 | the loop reads the members up to the closing brace, or fails as specified |
| `JsonReader.OurReader.ReadValue` | src/common/jsoncpp.cpp:1285-1375 | one value is read, or the syntax error or the exceeded stack limit is reported |
| `JsonReader.OurReader.ParseDocument` | src/common/jsoncpp.cpp:1232-1283 | the document is read, trailing text and root type checked as the features ask |
| `JsonRoundTrip.ValueBack` | src/common/jsoncpp.cpp:1285-1375 | a written value reads back as itself amid any text exactly if the stack limit allows its nesting |
| `JsonRoundTrip.MembersBack` | src/common/jsoncpp.cpp:1662-1722 | written members read back in order, completing those before them |
| `JsonRoundTrip.DocumentRoundTrip` | src/common/jsoncpp.cpp:4409-4469 | parsing a written document gives the value back, for every tree of nulls, booleans, canonical 64-bit integers, finite reals that the stream library reads back from 17 digits, UTF-8 strings, arrays and objects within the stack limit, and throws beyond it |
| `JsonRoundTrip.NotANumberIsLost` | src/common/jsoncpp.cpp:4165-4175 | a NaN comes back as null |
| `JsonRoundTrip.InfinityBack` | src/common/jsoncpp.cpp:4165-4175 | an infinity comes back as what the stream library makes of 1e+9999, or is refused with it |

## Left out

- The scheduler's tasks and gpu-let estimates are shared pointers in the source; here a placement is a value in its node's
  list and an estimate a value, so aliasing between an estimate and the node it was placed on is not captured.
- The order in which readjust and allocateFit take device types (getMinPartSum, the type priorities) is left open: results hold
  for every order.
- Memory bookkeeping, the memory check, the network bandwidth check and their formulas are oracles; a bandwidth check may scale
  a placement down.
- The self-tuning path, AllocateMinMaxFair, fillReservedNodes and resetScheduler.
- Profile files, latency and interference formulas: arbitrary functions. Floating-point rounding: reals.
- std::sort is any arrangement in the order asked for; the tie-break by model id is not fixed.
- Merging.MergeResidue: a merged rate below 1 divides by it in the source and is an Abort here.
- Scheduling.Withdraw: the occupancy of the nodes a model is taken off is recomputed as in the source, but no bound on it is
  claimed.
- TimeSharing.AllocateTimeShare: a node whose duty cycle was never set is skipped when the value happens to be negative.
- setType, choseProxy and the table update from proxy throughputs of the balancer, and the mutex around its calls.
- Queue bulk operations, exception paths, implicit producers, index wrap-around and weak memory orders. Resetting a block's empty
  flags is one step, no other thread having the block; the element is constructed after its index entry, as for types whose
  constructor cannot throw.
- Blocks handed to the producer are only assumed not to be in its ring, which the free list proves of the blocks it returns.
- Semaphore.HolderFindsElement: the inner queue is a counter of elements, and a bulk dequeue takes them one at a time.
- JSON comments (their start reads as an error), how the C library prints and reads a double (oracles), styled writers,
  the legacy Reader, error messages and the recovery after an error, emitUTF8, and the reader features for single quotes, numeric keys,
  special floats, dropped nulls and duplicate keys, which are off by default.
- JsonReader.OurReader.ReadValue: the stack of value pointers is the recursion itself, with its height as `level`.
