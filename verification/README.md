# lumabri, verified

lumabri runs large mixture-of-experts models on the computers of a household or of a swarm. This
project models the parts of it where a mistake would be silent: wrong sums, lost permits, memory
promised twice, weights loaded without consent. Every statement below holds for all inputs, all
runs or all interleavings, under the assumptions its row or "Left out" names. The proofs can be
checked with `dafny verify dfyconfig.toml`.

The C code that changes things step by step is imperative Dafny here (classes with the C fields,
arrays changed in place, loops with invariants). Each such method is tied by its `ensures` to a
function of the old state, and the lemmas are about those functions. Concurrent code is a state
machine whose steps are the critical sections; sockets, clocks, engines and owners are
nondeterministic inputs of those steps.

## The parts

| file | what it is |
|---|---|
| `Bits.dfy`, `Limits.dfy`, `Wrappers.dfy` | machine words as bounded integers, bitwise operations by recursion, little-endian numbers; shared limits; an option type |
| `Poly1305Limbs.dfy`, `Poly1305.dfy`, `Aead.dfy` | the radix-2^26 authenticator against sections 2.5 and 2.8 of RFC 8439, the streaming object, sealing and opening |
| `Sizing.dfy`, `Reservation.dfy` | saturating sizes, their exact formulas, when they are answered, and their monotonicity |
| `PlanValidator.dfy`, `Greedy.dfy`, `Proportional.dfy`, `HomePlan.dfy` | the placement planner: validator, greedy search and its completeness, proportional split, the whole decision |
| `RunGate.dfy`, `FairGate.dfy`, `ExpertCache.dfy` | three monitors: a first-in-first-out gate with deadlines, a gate that is fair between sources, a pinning cache whose loader runs unlocked |
| `RemoteMoe.dfy`, `Calls.dfy`, `ReplicaPick.dfy` | remote experts: the sum they must equal, the descriptors and counters they use, the replica they go to |
| `Wire.dfy`, `OfferCodec.dfy` | buffers and cursors, and the offer format on them |
| `HomeTransaction.dfy`, `DonorPool.dfy`, `Consent.dfy` | one donor's transaction, its pool of allocations, and a plan over N donors, each with its whole pool |
| `ReplyFilter.dfy` | the reply reader with its sentinel and its line filter |

Floating-point addition and multiplication are opaque functions without any law in `RemoteMoe.dfy`,
so the order of every addition is part of what is proved there.

## Where code and documentation differ

- `lumabri.c:2502` says that a read holds back SL-1 bytes; the code holds back SL. The model holds
  back SL, and the result (exactly the bytes before the sentinel) is the same.
- An offer is meant to survive packing. It does exactly when it has no route data outside a
  Coordinator's offer (`OfferCodec.RoundTripIff`): validity looks at the route count only, and
  `OfferCodec.StrayIsLost` gives a valid offer that comes back changed.
- Replica choice with spreading is meant not to depend on the order of the table. It is independent of
  it exactly when the band does not wrap 64 bits or only one replica has the best score
  (`ReplicaPick.OrderFreeIff`); `ReplicaPick.OrderIsSeen` gives a table of two replicas where it is
  not. The score is computed at `lumabri_scheduler.h:52-58` as the average in microseconds times the
  calls in flight plus one plus at most 31 failures, and the band wraps from a score of about
  1.48 * 10^19 on. That takes an average near 2^63 microseconds without a queue, or the largest
  32-bit count of calls in flight behind an average of about an hour.
- The planner's comment calls its search bounded and not exhaustive (`lumabri_cluster.h:282-288`).
  That is so over all orders; along each order it tries the search is complete
  (`HomePlan.SearchComplete`).

## Model

| member | source | states |
|---|---|---|
| `Poly1305Limbs.BlockLimbs` | lumabri_crypto.h:112-116 | A block loaded as five masked 26-bit limbs is the sixteen bytes as a number, plus 2^128 for a full block |
| `Poly1305Limbs.MultiplyExact` | lumabri_crypto.h:117-121 | The five column sums stay below 2^57 for every limb vector the loop can reach, and they are the product of the accumulator and r modulo 2^130-5 |
| `Poly1305Limbs.Carry` | lumabri_crypto.h:122-127 | Under the stated column bound (below 2^57) all six carries fit the 32 bits the code converts them to and every sum its 64 or 32 bits; the chain keeps the value modulo the prime and restores the limb bounds the next block relies on |
| `Poly1305Limbs.BlockStep` | lumabri_crypto.h:109-129 | One iteration of the block loop is (h + block) * r modulo 2^130-5 and keeps the limb invariant |
| `Poly1305.ClampExact` | lumabri_crypto.h:89-96 | The five masked loads of the key are in range and together are the clamped r of section 2.5 of RFC 8439 |
| `Poly1305.ClampMask` | lumabri_crypto.h:89-96 | The clamped r is the first key half under the 128-bit mask 0x0ffffffc0ffffffc0ffffffc0fffffff of the standard |
| `Poly1305.LimbsEvaluate` | lumabri_crypto.h:104-131 | Over any number of whole blocks the limbs are the running polynomial of the standard modulo the prime |
| `Poly1305.EvaluateIs` | lumabri_crypto.h:104-131 | The running value is Horner's rule for c1 r^q + c2 r^(q-1) + ... + cq r over the blocks with their top ones, modulo the prime |
| `Poly1305.LimbsSplit` | lumabri_crypto.h:104-131 | Whole blocks may be absorbed in any grouping with the same state |
| `Poly1305.FinalEvaluate` | lumabri_crypto.h:151-162 | With the last partial block, padded with a one byte and zeros and without the 2^128 bit, the limbs are still the standard's polynomial |
| `Poly1305.PropagateExact` | lumabri_crypto.h:163-165 | The carry chain before the last subtraction leaves every limb below 2^26 and the value unchanged modulo the prime |
| `Poly1305.Reduce` | lumabri_crypto.h:163-175 | The masked conditional subtraction is a full reduction: the result is the value modulo 2^130-5 |
| `Poly1305.TagExact` | lumabri_crypto.h:151-186 | For every key and message the bytes the limb code writes are ((polynomial in r) mod 2^130-5 + s) mod 2^128 |
| `Poly1305.MacIs` | lumabri_crypto.h:151-186 | As a number the tag is that polynomial at the masked key half modulo 2^130-5, plus the other key half, modulo 2^128 |
| `Poly1305.Poly.constructor` | lumabri_crypto.h:89-102 | A new authenticator has absorbed nothing |
| `Poly1305.Poly.Blocks` | lumabri_crypto.h:104-131 | The block loop over the object's accumulator |
| `Poly1305.Poly.Update` | lumabri_crypto.h:133-149 | Whatever was buffered and however the calls were cut, the state is the one of the concatenated bytes (`Valid` determines every field from the key and the bytes fed) |
| `Poly1305.Poly.Pad16` | lumabri_crypto.h:197-200 | Feeds zeros up to the next multiple of sixteen, none on a multiple |
| `Poly1305.Poly.Finish` | lumabri_crypto.h:151-186 | The tag of everything fed, equal to the mathematical `Mac` |
| `Aead.XorBlock` | lumabri_crypto.h:74-75 | The inner byte loop changes exactly its bytes, also when input and output are one buffer |
| `Aead.CryptBuffer` | lumabri_crypto.h:67-78 | The cipher over a buffer, in place or not: the first n bytes are encrypted, the others are untouched |
| `Aead.KeyStream` | lumabri_crypto.h:67-78 | Every byte of every text is combined with its own byte of the key stream: byte i with byte i % 64 of block counter + i / 64 (32-bit wrap) |
| `Aead.CryptInverse` | lumabri_crypto.h:67-78 | Encrypting twice under one key, counter and nonce is the identity, for every text length |
| `Aead.Authenticate` | lumabri_crypto.h:209-217 | The streamed computation over associated data, text, paddings and the two 64-bit lengths is the tag of section 2.8 of RFC 8439 |
| `Aead.OneTimeKey` | lumabri_crypto.h:206-210 | The one-time key of the tag is the first 32 bytes of the key stream from block 0 (section 2.6 of RFC 8439) |
| `Aead.MacInputLayout` | lumabri_crypto.h:211-216 | Where data, text, paddings and the two lengths are in the authenticated string, and that the paddings are zero |
| `Aead.MacInputTells` | lumabri_crypto.h:211-216 | Two different pairs of data and text are never authenticated as one string |
| `Aead.Equal16` | lumabri_crypto.h:189-193 | The comparison without early exit holds exactly for equal strings |
| `Aead.Seal` | lumabri_crypto.h:202-218 | The text encrypted from block 1 on, and the tag over data and cipher text; nothing of the output buffer beyond n changes |
| `Aead.Open` | lumabri_crypto.h:221-239 | 0 and the plain text exactly when the tag is the right one; otherwise -1 and the output buffer is untouched |
| `Aead.OpenInvertsSeal` | lumabri_crypto.h:202-239 | Opening what was sealed gives the text back with that tag and nothing with any other, for every key, nonce, associated data and text |
| `Aead.SealThenOpen` | lumabri_crypto.h:202-239 | Sealing and opening in place restores the buffer |
| `Sizing.AddIsSat` | lumabri_planner.h:91-94 | Addition is the exact sum capped at the sentinel |
| `Sizing.MulIsSat` | lumabri_planner.h:95-98 | Multiplication is the exact product capped at the sentinel, and the sentinel absorbs even a zero factor |
| `Sizing.SizeMonotone` | lumabri_planner.h:91-98 | Both operations are monotone, so an overflow stays one on larger inputs |
| `Sizing.WeightBytesExact` | lumabri_planner.h:103-110 | Below the sentinel the bytes are ceil(elements * bits / 8), plus a fifth below 8 bits |
| `Sizing.DenseExact` | lumabri_planner.h:122-131 | Below the sentinel: exact weight of attention and, without experts, of the feed-forward part |
| `Sizing.ExpertExact` | lumabri_planner.h:112-120 | Below the sentinel: exact weight of one expert's three matrices |
| `Sizing.KvExact` | lumabri_planner.h:141-149 | Below the sentinel: keys and values in f32 for every token, layer and session |
| `Sizing.EstimateSegment` | lumabri_planner.h:151-206 | The accumulating loop computes the cost function the theorems below are about |
| `Sizing.ContractExact` | lumabri_planner.h:159-181 | A memory-contract cost with ok set is the unsaturated sum over its layers, times the sessions, and its total is below the sentinel |
| `Sizing.ContractIff` | lumabri_planner.h:151-181 | A described model has a cost for a range exactly when the range lies in the model, the context (4096 when not given) is within the model's own, and the exact sum with state for each session is below the sentinel |
| `Sizing.EstimatedExact` | lumabri_planner.h:183-206 | An estimated cost with ok set is the exact formula, for the resident and for the working set |
| `Sizing.EstimatedIff` | lumabri_planner.h:183-206 | An estimate is answered exactly when dense and expert matrices can be counted and both exact totals are below the sentinel; it is then those totals, with min(experts, max(1, experts per token)) experts in the working set |
| `Sizing.SegmentIff` | lumabri_planner.h:151-206 | A model without a description has a cost for a range exactly when the range lies in the model and that holds |
| `Sizing.EdgeExact` | lumabri_planner.h:210-232 | An Edge cost with ok set is the exact formula on both paths |
| `Sizing.EdgeIff` | lumabri_planner.h:210-232 | Edge has a cost exactly when the model is sized, the context is within a described model's own, the head can be counted, and the exact sum is below the sentinel |
| `Sizing.SumsMonotone` | lumabri_planner.h:165-173 | Dropping layers at either end never raises the running sums, through saturation |
| `Sizing.SegmentMonotone` | lumabri_planner.h:151-206 | A cost with ok set stays ok and never grows on a non-empty smaller range or with fewer sessions |
| `Sizing.EdgeMonotone` | lumabri_planner.h:210-232 | The same for Edge and fewer sessions |
| `Reservation.ShareExact` | lumabri_memory_budget.h:68-75 | Quotient and remainder multiplied apart give floor(bytes * count / layers) without leaving 64 bits |
| `Reservation.FloorExact` | lumabri_memory_budget.h:68-75 | Below the sentinel the checkpoint floor is the share plus a twentieth of the checkpoint |
| `Reservation.RoundExact` | lumabri_memory_budget.h:46-50 | Rounding up to MiB is exact below the sentinel |
| `Reservation.FloorMonotone` | lumabri_memory_budget.h:68-75 | The checkpoint floor never grows on a smaller range |
| `Reservation.ReserveRange` | lumabri_memory_budget.h:77-110 | The step-by-step form with its early rejections computes the reservation |
| `Reservation.ReserveExact` | lumabri_memory_budget.h:77-110 | Every accepted reservation is the exact integer formula: nothing saturated on the way |
| `Reservation.ReserveIff` | lumabri_memory_budget.h:77-110 | A reservation exists exactly when there are 1 to 8 sessions, the costs it needs are answered, there is a checkpoint, and the exact formulas with their rounding stay below the sentinel |
| `Reservation.ReserveMonotone` | lumabri_memory_budget.h:77-110 | A range that can be reserved contains only ranges that can, for no more bytes: infeasibility is upward closed through layer sums, floor, rounding and sentinel |
| `PlanValidator.CheckOne` | lumabri_cluster.h:244-268 | One turn of the validator's loop, with each of its rejections |
| `PlanValidator.PlanBudgets` | lumabri_cluster.h:231-280 | The validator over the caller's plan; a rejection leaves that plan unchanged |
| `PlanValidator.RejectedEarly` | lumabri_cluster.h:244-268 | A slice that is rejected rejects the plan whatever follows it |
| `PlanValidator.ValidatedSound` | lumabri_cluster.h:231-280 | A Segment plan accepted as RESIDENT partitions [0, layers), uses no node twice, has its Edge slice, and fits every node's budget and roles in exact integers |
| `PlanValidator.ValidatedRanges` | lumabri_cluster.h:231-280 | Validation never moves a slice |
| `PlanValidator.ValidatedExact` | lumabri_cluster.h:258-278 | What an accepted plan is filled in with: every slice's exact need and whether it fits, the sum of all shortages, and RESIDENT exactly when that is zero; nothing else of the plan changes |
| `PlanValidator.ExtraExact` | lumabri_cluster.h:221-230 | The extra scratch of a Hybrid participant, as an exact number |
| `PlanValidator.AcceptedIffFeasible` | lumabri_cluster.h:231-280 | With the data available a Segment plan is accepted as RESIDENT exactly when it is feasible |
| `PlanValidator.HybridIff` | lumabri_cluster.h:246-269 | A Hybrid plan is accepted exactly when its first slice is the whole model on the Edge node and the others follow each other on all remaining nodes, each allowed its role and with a reservation |
| `Greedy.FitsMonotone` | lumabri_cluster.h:332-344 | A node that can hold a range can hold every non-empty part of it, roles included |
| `Greedy.FindSliceEnd` | lumabri_cluster.h:337-344 | The binary search returns the largest end the node can hold, or the start when there is none |
| `Greedy.InsertInPlace` | lumabri_cluster.h:318-324 | The shifting loop inserts one node behind the Edge owner |
| `Greedy.BuildOrder` | lumabri_cluster.h:315-325 | The order array the search tries for one owner and direction |
| `Greedy.OrderPermutes` | lumabri_cluster.h:315-325 | Every node occurs in the order exactly once and the owner is first |
| `Greedy.RankedInOrder` | lumabri_cluster.h:315-325 | Behind the owner the budgets descend (or ascend), earlier nodes first among equals |
| `Greedy.RunPass` | lumabri_cluster.h:329-352 | The greedy loop over the order array |
| `Greedy.StaysAhead` | lumabri_cluster.h:333-352 | From any layer at or beyond another assignment's, greedy reaches the last layer if that assignment does |
| `Greedy.GreedyComplete` | lumabri_cluster.h:333-352 | If any cut of the layers along the order fits (owner first and not empty, others may be empty), greedy covers the model |
| `Greedy.GreedyCuts` | lumabri_cluster.h:333-352 | Conversely, a greedy pass that covers the model is such a cut |
| `Greedy.PassSound` | lumabri_cluster.h:333-352 | The slices of a pass are contiguous, on distinct nodes, and each fits |
| `Proportional.SumsDoNotWrap` | lumabri_cluster.h:144-152 | The one plain addition in the loop cannot wrap when the estimate is ok |
| `Proportional.FindEdge` | lumabri_cluster.h:98-108 | The first of the largest nodes that can hold Edge |
| `Proportional.BudgetBasis` | lumabri_cluster.h:111-121 | The effective budgets, their sum and the last usable node |
| `Proportional.FloorSumBound` | lumabri_cluster.h:130-135 | The sum of floor(layers * budget / total) never exceeds the floor of the sum |
| `Proportional.TurnTakes` | lumabri_cluster.h:127-170 | A turn that did not saturate skips the node or places exactly its floor, the last usable node the remainder |
| `Proportional.TurnFails` | lumabri_cluster.h:127-170 | A turn fails exactly when its node has budget while layers are left and layers * budget is not representable or its range cannot be placed |
| `Proportional.PlaceFails` | lumabri_cluster.h:139-168 | A range cannot be placed exactly when it has no cost or a running sum reaches the sentinel |
| `Proportional.StateIs` | lumabri_planner.h:243-254 | A range is RESIDENT when all of it fits, FROM_DISK when the model may stream and its working set fits, else UNRUNNABLE |
| `Proportional.SplitInvariant` | lumabri_cluster.h:127-170 | After every turn each node seen holds exactly its part and the slices are contiguous and not empty |
| `Proportional.RunSplit` | lumabri_cluster.h:125-171 | The distribution loop |
| `Proportional.SplitCovers` | lumabri_cluster.h:125-171 | Every usable node but the last gets exactly its floor, the last the remainder, and all layers are placed |
| `Proportional.CoverageNeverFires` | lumabri_cluster.h:171-171 | The coverage test after the loop is dead code: only the size sentinel makes the distribution fail |
| `Proportional.ClusterPlanCovers` | lumabri_cluster.h:77-210 | Every plan the proportional planner returns covers the model contiguously with non-empty slices on ascending nodes |
| `Proportional.ClusterExact` | lumabri_cluster.h:77-210 | The largest node that fits Edge runs it; every slice's state, memory and download, the plan's state (one slice that cannot run decides), missing memory and downloads are the exact sums, and without a source everything is missing |
| `Proportional.ClusterIff` | lumabri_cluster.h:77-210 | The exact condition for having a proportional plan at all |
| `Proportional.PlanCluster` | lumabri_cluster.h:77-210 | The whole proportional planner |
| `HomePlan.AccountFetch` | lumabri_cluster.h:360-381 | The accounting loop over a candidate's downloads |
| `HomePlan.FetchExact` | lumabri_cluster.h:360-381 | For a placement that fits, the accounting fails exactly when the exact total reaches the sentinel, and is that total otherwise, with every slice's own weights |
| `HomePlan.RunTry` | lumabri_cluster.h:316-384 | One owner and one direction: order, pass, validation, accounting |
| `HomePlan.TryReaches` | lumabri_cluster.h:316-352 | An attempt gets through its search and validation exactly when its order can hold the model at all |
| `HomePlan.TryIff` | lumabri_cluster.h:316-384 | An attempt is skipped exactly when no assignment along its order exists, and finds a sound plan exactly when the exact download total is representable |
| `HomePlan.RunSearch` | lumabri_cluster.h:312-388 | The search over owners and directions |
| `HomePlan.SearchComplete` | lumabri_cluster.h:312-388 | The search comes to its end empty exactly when no tried order can hold the model; what it finds is sound and RESIDENT |
| `HomePlan.SearchDecided` | lumabri_cluster.h:312-388 | The first order that can hold the model decides the search |
| `HomePlan.SearchFound` | lumabri_cluster.h:312-388 | The search finds a plan exactly when that first order downloads a representable number of bytes |
| `HomePlan.PlanSource` | lumabri_cluster.h:289-389 | The whole household planner, writing the caller's plan |
| `HomePlan.ResidentIsSound` | lumabri_cluster.h:289-389 | Every answer RESIDENT partitions the layers and fits every node's budget in exact integers |
| `HomePlan.ResidentIff` | lumabri_cluster.h:289-389 | The answer is RESIDENT exactly when the question is within the limits, and the proportional plan runs, or a source and a sized model are there and the first order that can hold the model downloads a representable number of bytes |
| `HomePlan.Otherwise` | lumabri_cluster.h:289-389 | Any other answer holds the validated proportional plan or an empty one, and is no error exactly when that plan exists, source and sizes are there, and no tried order can hold the model |
| `HomePlan.Complete` | lumabri_cluster.h:289-389 | A model that some tried order can hold is never refused, unless a download total overflows |
| `RunGate.PopKeeps` | lumabri_run_gate.c:30-41 | One admission keeps the count, the queue and the order of grants |
| `RunGate.UnlinkKeeps` | lumabri_run_gate.c:74-85 | A waiter that gives up leaves the queue of the others as it was |
| `RunGate.StepKeeps` | lumabri_run_gate.c:30-152 | Every critical section of every caller keeps the invariant, and the history of grants only grows |
| `RunGate.EveryRun` | lumabri_run_gate.c:30-152 | In every interleaving: in_use is the permits granted and not returned and at most the capacity; a non-empty queue means a full gate; permits go in arrival order, each before its deadline; exactly the callers still waiting are linked |
| `RunGate.NoOvertaking` | lumabri_run_gate.c:30-152 | While a caller waits no permit has gone to anyone who arrived after it, and the gate is full |
| `RunGate.AdmitLineTakes` | lumabri_run_gate.c:30-41 | The admission loop takes waiters from the head only, judges each by its own reading (cancelled, late, or admitted), counts the admitted ones, and stops at a full gate or an empty queue |
| `RunGate.ArrivalServed` | lumabri_run_gate.c:87-114 | An arrival is stopped exactly if cancelled; a live one gets a permit exactly if nobody queues and one is free, is queued exactly if not and there is room, and is refused otherwise |
| `RunGate.StepRefines` | lumabri_run_gate.c:87-152 | In every invariant state the line after a step of a caller is the one the operations on the list leave behind: entering, giving up, a late permit, leaving |
| `RunGate.Gate.Pop` | lumabri_run_gate.c:32-41 | One turn of the admission loop over the linked list: head, tail and the waiter's result |
| `RunGate.Gate.Admit` | lumabri_run_gate.c:30-44 | Hands out the free permits in list order and publishes the counters; in_use rises by exactly the waiters that left the list with result 1 |
| `RunGate.Gate.Find` | lumabri_run_gate.c:75-77 | The search with its trailing pointer ends at the waiter and its predecessor |
| `RunGate.Gate.Cut` | lumabri_run_gate.c:78-82 | Unlinking mends head, tail and the predecessor |
| `RunGate.Gate.Remove` | lumabri_run_gate.c:74-85 | The waiter is gone from the list and the others are served in order, each with the result of its own reading; in_use rises by exactly those served |
| `RunGate.Gate.Enter` | lumabri_run_gate.c:87-114 | A refusal without any change, a permit at once, or a new last waiter |
| `RunGate.Gate.Wake` | lumabri_run_gate.c:116-144 | A wake-up puts the caller back to sleep or ends the call with 1, 0 or -1, and a call that ends is never still linked; a permit that came too late is given back, and in_use is then one less plus the waiters that got a permit meanwhile, each by its own reading |
| `RunGate.Gate.Leave` | lumabri_run_gate.c:146-152 | A permit comes back: in_use is one less plus the waiters that left the list with result 1; a return nobody holds takes nothing off; the published counters are the real ones at every unlock |
| `FairGate.RegisterKeeps` | expert_node.c:221-229 | Entering a source in the table gives it one slot for good and changes nobody's count |
| `FairGate.ChosenUnique` | expert_node.c:231-244 | The chosen waiter is the only one nobody goes before, so the order of the array does not matter |
| `FairGate.BypassIsFair` | expert_node.c:259-284 | Who takes a slot while p waits belongs to a source granted no more than p's, and among equals arrived first |
| `FairGate.TakesIff` | expert_node.c:259-267 | A test takes a slot exactly when one is free and nobody queued goes before the tester, or the tester has no entry |
| `FairGate.RoundEnds` | expert_node.c:270-275 | A taker that leaves nobody queued sets every count to zero; one that leaves others queued is counted once and nobody else is |
| `FairGate.EntryIs` | expert_node.c:245-258 | An entry on a free gate nobody waits for takes a slot at once, draws no ticket and counts one grant; any other draws the next ticket |
| `FairGate.SharedSlot` | expert_node.c:221-228 | A source that finds the table full shares slot 0, and no two sources in the table share a slot |
| `FairGate.EvaluateOk` | expert_node.c:259-284 | One test of the waiting loop: what it takes, whom it removes, and when it broadcasts |
| `FairGate.AfterNoLost` | expert_node.c:245-284 | After a test or an arrival no sleeper is the one the gate would let go |
| `FairGate.StepKeeps` | expert_node.c:245-291 | Every arrival, test, wake-up and departure keeps the invariant |
| `FairGate.EveryRun` | expert_node.c:221-291 | In every interleaving, spurious wake-ups included: free slots and holders add up to the width, and beside a free slot the waiter to go next is awake |
| `FairGate.EveryCount` | expert_node.c:221-284 | In every run a count is the grants of its slot's sources since a queued taker last left the queue empty |
| `FairGate.NextIsAwake` | expert_node.c:231-284 | The no-lost-wake-up invariant names an awake thread for the next waiter |
| `FairGate.ArrivalIsFree` | expert_node.c:250-258 | A newcomer does not lengthen anyone's wait |
| `FairGate.AdmissionCosts` | expert_node.c:262-282 | Each admission of another waiter uses up one of the admissions a waiter can still be passed by |
| `FairGate.StepPatience` | expert_node.c:245-291 | Over every event the number of admissions left drops by exactly the admissions made |
| `FairGate.BoundedBypass` | expert_node.c:221-291 | While the queue stays below its limit a waiter waits through at most 64 * (grants of its source + its predecessors from it + 1) admissions |
| `FairGate.StepQueued` | expert_node.c:245-291 | While the queue is below its limit every waiting thread has an entry in it |
| `FairGate.EveryBypass` | expert_node.c:221-291 | The same bound from the start of the gate: it holds for whoever waits after any run whose queue stayed below its limit |
| `FairGate.Tables.SourceSlot` | expert_node.c:221-229 | The slot of a source, entered when it is new and there is room |
| `FairGate.Tables.Compare` | expert_node.c:233-242 | The better of a waiter and the best so far, by grants and then by ticket |
| `FairGate.Tables.NextLocked` | expert_node.c:231-244 | The chosen waiter of the fixed tables, or -1 |
| `FairGate.Tables.Drop` | expert_node.c:263-265 | The last entry moves into the hole |
| `FairGate.Tables.Test` | expert_node.c:259-284 | One test on the tables is one test of the model, the end of the round included |
| `FairGate.Tables.Enter` | expert_node.c:245-284 | The entry on the tables up to its first sleep |
| `FairGate.Tables.Leave` | expert_node.c:286-291 | A slot comes free |
| `ExpertCache.GidInjective` | expert_node.c:311-313 | Within the index check two experts never share a key |
| `ExpertCache.VictimIsBest` | expert_node.c:324-329 | The victim is an empty idle slot if there is one, else the least recently stamped idle one |
| `ExpertCache.AnswerIs` | expert_node.c:315-333 | One pass under the lock: a hit exactly for a published slot with the key, a claim exactly without such a slot and with an idle one, a wait otherwise; what changes and what stays |
| `ExpertCache.RequestUses` | expert_node.c:318-333 | A hit and a claim alike make their slot the most recently stamped one |
| `ExpertCache.LeastRecentlyUsed` | expert_node.c:311-354 | In every run the slot a claim evicts is empty, or of all idle slots the one whose last answered acquire is longest ago |
| `ExpertCache.StillWaits` | expert_node.c:318-333 | Whoever must wait still must after a hit or a claim by someone else |
| `ExpertCache.StepKeeps` | expert_node.c:311-354 | Every critical section and the unlocked load keep the invariant |
| `ExpertCache.EveryRun` | expert_node.c:311-354 | In every interleaving: a worker that got a slot finds its own expert's weights there, pinned; refs counts the outstanding acquires; no expert is in two slots; a sleeper has to sleep |
| `ExpertCache.PinnedIsStable` | expert_node.c:311-354 | No step of anyone else changes the key or the weights of a slot somebody fills or uses |
| `ExpertCache.Slots.Lookup` | expert_node.c:316-317 | The first slot with the key, or -1 |
| `ExpertCache.Slots.ChooseVictim` | expert_node.c:324-329 | The victim loop, which stops at an empty slot |
| `ExpertCache.Slots.Acquire` | expert_node.c:315-347 | One pass under the lock: pin and stamp, claim and stamp, or wait |
| `ExpertCache.Slots.LoadSlot` | expert_node.c:335-338 | The load touches nothing but the weights of the claimed slot |
| `ExpertCache.Slots.Publish` | expert_node.c:341-344 | The slot is announced |
| `ExpertCache.Slots.Release` | expert_node.c:349-354 | The pin goes, and nothing else |
| `RemoteMoe.BuildFirstSeen` | lumabri_client.h:1943-1948 | The union in first-seen order |
| `RemoteMoe.FirstSeenExact` | lumabri_client.h:1943-1948 | It holds every routed expert of the model once and nothing else |
| `RemoteMoe.FirstSeenOrder` | lumabri_client.h:1943-1948 | and they stand in the order of their first routes |
| `RemoteMoe.BuildAscending` | lumabri_client.h:2178-2184 | The used experts in ascending order |
| `RemoteMoe.AscendingExact` | lumabri_client.h:2178-2184 | It holds exactly the used experts, ascending |
| `RemoteMoe.BuildItem` | lumabri_client.h:1962-1973 | The rows and weights gathered for one expert, at the first or the last match |
| `RemoteMoe.ItemExact` | lumabri_client.h:1962-1973 | Each routed position is in its expert's item exactly once, ascending, with its weight |
| `RemoteMoe.BatchOnce` | lumabri_client.h:1930-2043 | Every routed (position, expert) pair is one row of one item and no row is anything else |
| `RemoteMoe.V4Once` | lumabri_client.h:2165-2281 | The same for the V4 layer, with ascending experts and the last match |
| `RemoteMoe.AccumulateRow` | lumabri_client.h:2032-2034 | One row added into one position, element by element, in order |
| `RemoteMoe.AccumulateItem` | lumabri_client.h:2029-2035 | One answer added row by row |
| `RemoteMoe.Collect` | lumabri_client.h:1994-2027 | The issued reply if it survives its check, else one retry and its check |
| `RemoteMoe.IssueBlock` | lumabri_client.h:1961-1992 | All rows of a block gathered and requested before any is collected |
| `RemoteMoe.CollectBlock` | lumabri_client.h:1993-2038 | Collected and added in the order of the items; a failure means that an expert could not be had |
| `RemoteMoe.RunBlocks` | lumabri_client.h:1942-2043 | In blocks of 64 the output is the engine's own fold of all experts, or exactly what it was |
| `RemoteMoe.LocalAt` | lumabri_client.h:1930-2043 | That fold gives each position one term from each of its own experts, in the order of the items |
| `RemoteMoe.ItemRank` | lumabri_client.h:1961-1973 | A position's row in an expert's call is the number of positions before it that routed there |
| `RemoteMoe.BatchPositions` | lumabri_client.h:1930-2043 | Every position of the batched layer ends as its own routed terms: one for each expert it routed to, in first-seen order, with the weight of its first match and its row of that expert's answer |
| `RemoteMoe.V4Positions` | lumabri_client.h:2165-2281 | The same for the V4 layer, in ascending order, at the last match |
| `RemoteMoe.BatchIs` | lumabri_client.h:1930-2043 | The batched layer number by number: what was there, plus for each expert in the order of first routes the weight of the position's first match times that number of the answer the expert gives to the gathered inputs of all positions that routed to it |
| `RemoteMoe.V4Is` | lumabri_client.h:2165-2281 | The V4 layer number by number: the used experts in ascending order, each given the weights of the last matches |
| `RemoteMoe.UnionIs` | lumabri_client.h:2052-2149 | An engine's own union number by number: its groups and their pairs in order, a term for every pair of the position |
| `RemoteMoe.FoldedIs` | lumabri_client.h:1768-1774 | The split layer number by number: the weight times the result of every route, in the router's order |
| `RemoteMoe.ApplyBatch` | lumabri_client.h:1930-2043 | The batched layer is the sequential sum in first-seen order, or no change at all |
| `RemoteMoe.ApplyV4` | lumabri_client.h:2165-2281 | The V4 layer is the sequential sum in ascending order with the weights applied by the expert, or no change |
| `RemoteMoe.ApplyUnion` | lumabri_client.h:2052-2149 | A union built by the engine is summed in the given order, or nothing changes |
| `RemoteMoe.RemotePrefix` | lumabri_client.h:1683-1707 | The remote results, each one from its own expert, or none |
| `RemoteMoe.LocalSuffix` | lumabri_client.h:1678-1681 | The local results, or none |
| `RemoteMoe.Probe` | lumabri_client.h:1716-1766 | A remote answer refused by the numeric check is replaced by the local one |
| `RemoteMoe.Merge` | lumabri_client.h:1768-1774 | The terms are added in the router's order |
| `RemoteMoe.ApplySplit` | lumabri_client.h:1629-1810 | The split layer adds one term per route in the router's order; the first routes are remote but for the answers the check replaced, the others local, and nothing is added before every result is in hand |
| `Calls.Peers.Close` | lumabri_client.h:217-246 | A descriptor is closed once, while it is open and in no pool |
| `Calls.Peers.Sent` | lumabri_client.h:195-195 | One more request in flight for the peer |
| `Calls.Peers.Done` | lumabri_client.h:196-199 | One request less, never below zero |
| `Calls.Peers.OpenSock` | lumabri_client.h:217-246 | A new open descriptor, or everything as before on each failing path |
| `Calls.Peers.TakeSock` | lumabri_client.h:248-256 | Dead pooled descriptors are closed; one live or new descriptor is held, or none |
| `Calls.Peers.PutSock` | lumabri_client.h:258-262 | The descriptor is in one pool or closed |
| `Calls.Peers.Issue` | lumabri_client.h:1975-1991 | A request in flight on a held descriptor, or nothing held and nothing in flight |
| `Calls.Peers.Hedge` | lumabri_client.h:1296-1314 | The same for the hedge |
| `Calls.Peers.Receive` | lumabri_client.h:1338-1386 | A good reply settles both requests; a bad one closes its own, with at most one reconnection |
| `Calls.Peers.FinishExec` | lumabri_client.h:1284-1392 | On every path of reply, hedge, reconnection and timeout the request's descriptor and count are settled |
| `Calls.Peers.Request` | lumabri_proto.h:749-759 | A request to the tracker closes the descriptor it opened on every path |
| `Calls.Peers.Relay` | lumabri_client.h:1394-1426 | So does the relay call, whatever comes back |
| `Calls.Peers.ExecRetry` | lumabri_client.h:1454-1554 | Failover, relay and patience leave descriptors and counts as they were |
| `Calls.Peers.SpotCheck` | lumabri_client.h:1561-1599 | So does the spot check |
| `Calls.Peers.CallBlock` | lumabri_client.h:1961-2038 | So does a block of calls |
| `Calls.Peers.CollectAll` | lumabri_client.h:1993-2027 | A failure settles everything still outstanding |
| `Calls.Peers.ApplyBatch` | lumabri_client.h:1930-2043 | With nothing in flight on entry nothing is at return, and every descriptor opened or taken is closed or in exactly one pool |
| `Calls.Peers.ApplySplit` | lumabri_client.h:1629-1810 | The same for the split layer, a failing local expert included |
| `ReplicaPick.BlendBounds` | lumabri_client.h:1092-1099 | A blended price lies between the two pure ones |
| `ReplicaPick.PriceIs` | lumabri_client.h:1073-1099 | The price of a call: 0 from video memory, 10 ms from memory or an unknown place, 48 ms from a disk, less 38 microseconds for each thousandth of hits of a cache in front of it |
| `ReplicaPick.FindBest` | lumabri_client.h:1129-1140 | The first loop finds the first of the best scores |
| `ReplicaPick.FastestAt` | lumabri_client.h:1129-1140 | Nobody before the chosen best has as good a score |
| `ReplicaPick.FindBand` | lumabri_client.h:1148-1160 | The second loop collects the band and its lowest tier |
| `ReplicaPick.KeepTier` | lumabri_client.h:1161-1166 | The in-place filter keeps exactly the candidates of that tier, in order |
| `ReplicaPick.SortByAddress` | lumabri_client.h:1175-1179 | The insertion sort of the candidates |
| `ReplicaPick.SortedUnique` | lumabri_client.h:1175-1180 | Two sorted lists of the same replicas are equal: what makes the choice independent of the table |
| `ReplicaPick.LessIff` | lumabri_client.h:1175-1179 | The order of addresses is byte order: the first difference decides and a proper prefix comes first |
| `ReplicaPick.Pick` | lumabri_client.h:1127-1181 | The whole choice by index is the choice on values |
| `ReplicaPick.ChoiceEligible` | lumabri_client.h:1127-1181 | A replica is chosen exactly when one is eligible, and it is an eligible one |
| `ReplicaPick.InBandIs` | lumabri_client.h:1160-1181 | No replica of the band has a lower tier than the chosen one; without spreading none of its tier a better score |
| `ReplicaPick.SpreadIs` | lumabri_client.h:1174-1180 | With spreading the choice is the (hash mod n)-th of the n replicas of the lowest tier in the order of their addresses |
| `ReplicaPick.ChoiceInBand` | lumabri_client.h:1127-1181 | Absent overflow the chosen score is at most best + best/4 + 2000 and no eligible replica in that band has a lower tier |
| `ReplicaPick.ChoiceAgrees` | lumabri_client.h:1127-1181 | With spreading, two tables with the same replicas in any order give the same choice while the band fits 64 bits; eligible entries have different addresses, as `lumi_add_peer` enters no address twice in its table and no peer twice in a row (lumabri_client.h:473-487, 616-619) |
| `ReplicaPick.OrderFreeIff` | lumabri_client.h:1127-1181 | The choice is independent of the table's order exactly when the band does not wrap or only one replica has the best score, for eligible entries with different addresses as above |
| `ReplicaPick.OrderMatters` | lumabri_client.h:1127-1181 | Otherwise some other order gives another address |
| `ReplicaPick.OrderIsSeen` | lumabri_client.h:1140-1160 | A concrete table of two replicas whose order decides the address |
| `Wire.ReadWritten` | lumabri_proto.h:302-306 | What a writer appended at an offset is what the reader returns there |
| `Wire.WrittenRead` | lumabri_proto.h:508-530 | What a reader accepts are exactly the bytes a writer of that value appends |
| `Wire.ReadAllWritten` | lumabri_proto.h:508-530 | The same for runs of values |
| `Wire.AllWrittenRead` | lumabri_proto.h:508-530 | The same for runs, in the other direction |
| `Wire.Buf.Reserve` | lumabri_proto.h:236-249 | Growing moves the block and keeps its contents |
| `Wire.Buf.Append` | lumabri_proto.h:264-268 | Bytes go behind the contents |
| `Wire.Buf.U32` | lumabri_proto.h:255-259 | Four little-endian bytes go behind the contents |
| `Wire.Buf.U64` | lumabri_proto.h:260-263 | Eight little-endian bytes go behind the contents |
| `Wire.Buf.Str` | lumabri_proto.h:269-276 | A counted string, refused without a trace when the count does not fit |
| `Wire.Buf.PutAll` | lumabri_proto.h:255-276 | A run of values, in order |
| `Wire.Cur.U16` | lumabri_proto.h:302-307 | The cursor moves by what it read |
| `Wire.Cur.U32` | lumabri_proto.h:508-512 | The cursor moves by what it read |
| `Wire.Cur.U64` | lumabri_proto.h:513-518 | The cursor moves by what it read |
| `Wire.Cur.Bytes` | lumabri_proto.h:519-523 | So many bytes, or a failure |
| `Wire.Cur.GetAll` | lumabri_proto.h:508-530 | A run of reads that ends at its first failure |
| `Wire.Cur.Str` | lumabri_inventory.h:31-43 | A printable counted string within the cap |
| `OfferCodec.PackInto` | lumabri_home.h:94-113 | Appends a valid offer in its version, or leaves the buffer as it is |
| `OfferCodec.Layout` | lumabri_home.h:94-113 | The bytes of an offer, one by one: version 3 with sessions, 2 with a role, else 1; keys, counted names, little-endian numbers in the order of the source, role with a Coordinator's routes, sessions |
| `OfferCodec.ValidIff` | lumabri_home.h:61-92 | A valid offer, as conditions on its numbers, names, model types, role and routes |
| `OfferCodec.UnpackFrom` | lumabri_home.h:115-137 | Accepts exactly the byte strings the decoder function accepts |
| `OfferCodec.UnpackPacked` | lumabri_home.h:94-137 | A packed offer unpacks to itself, but for route fields that are not sent |
| `OfferCodec.RoundTripIff` | lumabri_home.h:94-137 | The round trip is exact just for the offers without route data beside a Coordinator's |
| `OfferCodec.StrayIsLost` | lumabri_home.h:61-92 | A concrete valid offer that comes back changed |
| `OfferCodec.Canonical` | lumabri_home.h:94-137 | Every byte string that unpacks, in version 1, 2 or 3, packs again to the same bytes |
| `OfferCodec.PeersReadBack` | lumabri_home_hybrid.h:44-69 | The peers of the routes are read back |
| `OfferCodec.PeersCanonical` | lumabri_home_hybrid.h:44-69 | and every accepted list of peers has one encoding |
| `HomeTransaction.BeginReplaces` | lumabri_home.h:139-155 | Begin takes an offer exactly when the transaction is idle or over and holds nothing, and the offer is valid, from this tracker and within the limits; it is then pending with a deadline in two minutes |
| `HomeTransaction.DecideAcquires` | lumabri_home.h:157-167 | Decide answers exactly a pending offer before its deadline, a yes only within memory and disk, and only a yes acquires the reservation |
| `HomeTransaction.CallsKeepOffer` | lumabri_home.h:169-206 | Commit, ready and start are possible exactly in their own phase for the offer's id (start: only with Edge) and are one step along the phases; only the release lets the reservation go |
| `DonorPool.SlotStepQuiet` | lumabri_home_runtime.h:388-906 | No event of an allocation acquires a reservation, makes another offer active or breaks the slot |
| `DonorPool.RoomFits` | lumabri_home_runtime.h:350-362 | What the room admits fits the budget beside everything held |
| `DonorPool.RoomExact` | lumabri_home_runtime.h:342-362 | The room is exactly what the budget leaves beside the held offers, limited by the free memory beyond what is still loading |
| `DonorPool.AdmittedIff` | lumabri_home_runtime.h:689-849 | An offer is admitted exactly when its id is new, nothing active has it or is a Hybrid beside another allocation, it is valid and within the limits, and the view is free or can be moved aside |
| `DonorPool.AdmittedView` | lumabri_home_runtime.h:820-849 | What an admission puts into a free view, and that it changes nothing else |
| `DonorPool.AnswerIff` | lumabri_home_runtime.h:1196-1231 | A pending offer is accepted exactly when the owner said yes with both leases, in time, and its memory fits budget and machine; rejected exactly on a no in time; failed otherwise |
| `DonorPool.CommitIff` | lumabri_home_runtime.h:851-898 | COMMIT starts the loading exactly when it is the requester's own, still authorized, not ahead of a Coordinator's routes, and launch and reply succeed |
| `DonorPool.StartHostIff` | lumabri_home_runtime.h:851-898 | START_HOST does so exactly for the Edge donor whose segment is ready |
| `DonorPool.RoutesIff` | lumabri_home_runtime.h:851-870 | A Coordinator gets its routes once, between the owner's yes and the COMMIT, and only the matching ones |
| `DonorPool.StopFrees` | lumabri_home_runtime.h:388-423 | A stop frees the slot exactly when no process is unproven, and else keeps its reservation waiting |
| `DonorPool.CancelFrees` | lumabri_home_runtime.h:879-880 | So does the requester's cancellation |
| `DonorPool.LostFrees` | lumabri_home_runtime.h:549-566 | A lost requester evicts everything but a range that is ready to serve, which stays |
| `DonorPool.DetachKeeps` | lumabri_home_runtime.h:871-878 | A requester may leave such a range, and only such a one |
| `DonorPool.ChildGoneFrees` | lumabri_home_runtime.h:1237-1243 | A child that exits fails its allocation |
| `DonorPool.RetireFrees` | lumabri_home_runtime.h:511-546 | A retirement frees a ready range and pins the slot until its receipt is stored |
| `DonorPool.LeaseIff` | lumabri_home.h:191-198 | An allocation that is not retained is given up exactly after fifteen silent seconds, a clock that runs backwards, or a pending deadline |
| `DonorPool.PulseRenews` | lumabri_home_runtime.h:851-870 | A pulse renews the lease and changes nothing else |
| `DonorPool.ServedToReady` | lumabri_home_runtime.h:689-906 | An offer the pool can hold is served to the end: admission, a yes, COMMIT, readiness and START_HOST lead to a running host with the offer that was shown and every other allocation untouched |
| `DonorPool.SwapPermutes` | lumabri_home_runtime.h:364-369 | A swap preserves the transactions |
| `DonorPool.StepKeeps` | lumabri_home_runtime.h:388-906 | Every event of the donor keeps the pool's invariant |
| `DonorPool.EveryRun` | lumabri_home_runtime.h:342-906 | In every run: held reservations fit pool_budget, active ids are distinct, a Hybrid allocation is alone, a waiting release still holds its reservation |
| `DonorPool.StartOk` | lumabri_home_runtime.h:993-1050 | A donor that has just started satisfies the invariant |
| `DonorPool.SameIdSameOffer` | lumabri_home_runtime.h:791-849 | No step makes a second offer active under an active id |
| `DonorPool.WhereApart` | lumabri_home_runtime.h:364-369 | Following the swaps never takes two allocations into one slot |
| `DonorPool.OfferImmutable` | lumabri_home_runtime.h:689-906 | After every event an active offer is unchanged in the pool where the swaps took it, active or just ended; only its own events and the owner's answer to it change anything else about it |
| `DonorPool.OfferLives` | lumabri_home_runtime.h:342-906 | In every run an accepted offer stays in the pool unchanged, with its reservation, until its allocation is released |
| `DonorPool.ReleaseWaits` | lumabri_home_runtime.h:388-423 | A release that awaits its exit proof keeps its transaction and reservation counted through every other event, and in the visible slot blocks every new offer |
| `DonorPool.Keeper.ReservedBytes` | lumabri_home_runtime.h:342-348 | The sum over the visible and the parked slots |
| `DonorPool.Keeper.RoomFor` | lumabri_home_runtime.h:350-362 | The room left beside what is held and still loading, without going below zero |
| `DonorPool.Keeper.SwapView` | lumabri_home_runtime.h:364-369 | Two whole slots change places, the revision stays with the view |
| `DonorPool.Keeper.AvailableSlot` | lumabri_home_runtime.h:371-377 | The first free parked slot, or -1 |
| `DonorPool.Keeper.AnyCollision` | lumabri_home_runtime.h:791-812 | Whether an arriving offer collides with any slot |
| `DonorPool.Keeper.Offer` | lumabri_home_runtime.h:689-849 | An authenticated offer is admitted into the visible slot or changes no admitted one |
| `DonorPool.Keeper.Answer` | lumabri_home_runtime.h:1196-1231 | The owner's decision on the visible slot |
| `Consent.NodeStepKeeps` | lumabri_home_runtime.h:851-906 | Whatever happens in a donor's pool, other plans included, the plan's allocation loads only after a COMMIT for the offer approved there |
| `Consent.CommitKeeps` | lumabri_home_runtime.h:1485-1490 | A COMMIT loop cut short at any donor keeps the invariant |
| `Consent.StepKeeps` | lumabri_home_runtime.h:1409-1504 | Every step of requester, donors, monitor and network keeps it: no donor loads before all approved, no coordinator before the others are ready, no host before the chain is |
| `Consent.RunKeeps` | lumabri_home_runtime.h:1409-1504 | So does every run |
| `Consent.AllOrNothing` | lumabri_home_runtime.h:1470-1504 | In every run of donors with whole pools, once any donor loads anything of the plan, every donor of the plan had approved the very offer the plan holds for it, and holds it unchanged until its release |
| `Consent.PoolPhases` | lumabri_home_runtime.h:851-906 | Through every event of the pool, only the owner's answer makes an active allocation accepted, only its own COMMIT makes it load, and only its own START_HOST makes it host |
| `Consent.PoolsStayOk` | lumabri_home_runtime.h:342-906 | Through every run of the plan each donor's pool keeps its budget, its distinct ids and its other rules |
| `Consent.CoordinatorLast` | lumabri_home_runtime.h:1491-1500 | A Hybrid coordinator loads only after every accelerator reported its segment ready |
| `Consent.HostLast` | lumabri_home_runtime.h:1478-1504 | In every run: once START_HOST was sent, is on its way or was obeyed, every donor of the plan had its segment ready or its allocation had ended, and only the Edge donor ever gets it |
| `Consent.CommitReaches` | lumabri_home_runtime.h:1485-1490 | When every phase in the view is ACCEPTED, and only then, COMMIT goes once to every donor but a Hybrid coordinator, and a failure in the middle ends the session |
| `Consent.CoordinatorReaches` | lumabri_home_runtime.h:1491-1500 | When every other phase is SEGMENT_READY after the COMMIT, and only then, the coordinator alone gets its routes and its COMMIT, once |
| `Consent.HostReaches` | lumabri_home_runtime.h:1501-1504 | When no phase is before SEGMENT_READY after the COMMIT, and only then, the Edge donor alone gets START_HOST, once |
| `Consent.CommitLoads` | lumabri_home_runtime.h:881-890 | An accepted donor that is served its COMMIT loads exactly when it is still authorized, has its routes if it needs them, and launch and reply succeed |
| `Consent.FinishReaches` | lumabri_home_runtime.h:1582-1582 | At the end a donor is told to let go or to keep its range, and the loop sends nothing more |
| `Consent.NothingBeforeConsent` | lumabri_home_runtime.h:1470-1490 | While one donor has not approved, no donor loads |
| `ReplyFilter.FeedSplit` | lumabri.c:2445-2474 | Feeding in two parts is feeding the whole |
| `ReplyFilter.MachineKeeps` | lumabri.c:2445-2481 | From any point inside a line the rest of the output is the kept lines |
| `ReplyFilter.FilterIsKept` | lumabri.c:2445-2481 | For every text the output after the flush is its lines without those that start with a dashboard keyword and a digit |
| `ReplyFilter.EndInPrefix` | lumabri.c:2503-2506 | More bytes do not move a sentinel already found, and a new one starts beyond what was let through |
| `ReplyFilter.SafeGrows` | lumabri.c:2503-2507 | What is let through never shrinks as bytes arrive |
| `ReplyFilter.TelFilter.IsDashboard` | lumabri.c:2459-2468 | The keyword loop decides dashboard line and possible prefix |
| `ReplyFilter.TelFilter.Put` | lumabri.c:2447-2472 | One character on the object's mode and prefix buffer |
| `ReplyFilter.TelFilter.Emit` | lumabri.c:2445-2474 | A run of characters |
| `ReplyFilter.TelFilter.FlushTel` | lumabri.c:2476-2481 | A trailing partial line comes out at the end |
| `ReplyFilter.TelFilter.Absorb` | lumabri.c:2500-2508 | After a read exactly the newly safe bytes go to the filter |
| `ReplyFilter.TelFilter.StreamUntilEnd` | lumabri.c:2483-2510 | For every way the bytes are cut into reads the filter gets exactly the bytes before the first sentinel, and what is shown is their kept lines |

## Left out

- The ChaCha20 block function is written out as in the source, but nothing is proved about it alone; the theorems about the cipher hold for any block function.
- The running time of the tag comparison: only its result is modelled.
- Planner fields for display (`ready_seconds`, `ready_known`, `missing_nodes`, the goal label), the deficit shown for a rejected plan's nodes, and the effect of adding one node.
- The Hybrid placement itself: how its slices are chosen is not modelled; which Hybrid plans the validator accepts is (`PlanValidator.HybridIff`).
- Planner budgets are whole numbers of bytes; probing machines, disks and accelerators is not part of this model.
- Wrap-around of the 64-bit ticket, grant and stamp counters of the gates and the cache (they count calls), and the 32-bit product in the cache key.
- Fairness of the lock and of the condition variable: the theorems are about safety and about numbers of admissions, not about time.
- While the fair gate's queue is full, an arriving thread waits outside it and takes any free slot, as in the source; the bypass bound is stated for queues below the limit.
- RemoteMoe.Collect: takes an accepted answer to be the expert's own result, because what a peer computes cannot be seen from here; the spot check and the numeric check are answers of the environment.
- Predictor scores, the Hybrid timing policy and the spreading hash are opaque values.
- The rollback copy of the union layer: the source saves only the rows up to the last one it may touch, the model saves the whole output.
- Exits of the whole process when no peer serves an expert, running out of memory, and the patience limit of a purely remote session, which end the program instead of returning.
- Descriptor numbers are never used again in `Calls.dfy`, so closing twice and leaking are both visible there; the kernel reuses them.
- Hybrid routes with endpoint addresses (text forms of addresses and ports) and the comparison of approved with ready routes; only the offer's routes are encoded here.
- OfferCodec.RoundTripIff: speaks of the values an offer stands for; bytes of the C struct in unused peer entries or behind the end of a string are not represented.
- Buffers near SIZE_MAX and failing allocations in the buffer code.
- Owner policies, leases, the journal of retired allocations and process exit proofs are answers of the environment in `DonorPool.dfy`; what the pool does with each answer is modelled.
- The diagnostic setting that serves households from disk (`LUMABRI_RESIDENT_REQUIRED=0`): the model has the default, resident weights.
- The session monitor is taken to report each donor's status faithfully and to end the session on a terminal one; as in the source a status beyond ready counts as ready for START_HOST.
- Bytes after the sentinel (the STAT line) and its parsing.
- Key exchange, signatures and key derivation; trackers, discovery, process handling, terminal screens, JSON and configuration reading.
