# clustercost-agent-k8s: a verified model

The agent watches a Kubernetes cluster, measures traffic and CPU in the kernel, turns both into
cost records and forwards reports to a remote server.  This project models its five hardest parts
and proves what they promise.

| part | source | files |
|---|---|---|
| the store-and-forward queue | `internal/forwarder/queue.go` | SpoolNames, Backoff, QueueModel, QueueConservation, QueueSafety, QueueTheorems, Queue, QueueRuns |
| the flow collector and its kernel counters | `internal/collector/network_collector_linux.go`, `bpf/flows.bpf.c` | Network, Collector |
| the snapshot builder | `internal/snapshot/builder.go` | Connections, Services, NodeCosts, NetworkTotals, Builder, BuilderTheorems, PublishedGraphs, PublishedCosts |
| the pricing worker pool | `hack/cmd/generate-pricing/main.go` | PricingPool |
| CPU accounting and the cost aggregator | `bpf/metrics.bpf.c`, `internal/aggregator/cost_aggregator.go` | CpuAccounting, Aggregator, AggregatorTheorems, Workloads |

`Order`, `Ledger` and `Lists` hold what the last four share: the order of strings, maps of totals
and what look-up-or-create-and-add loops compute, and the sums of published lists.

`dafny verify dfyconfig.toml` checks the whole project.

## How to read it

**Concurrency** is modelled as state machines.  In the queue a step is what one goroutine does
between two points where the other may run, and the label of a step carries everything the
environment decides: clock readings, random draws, and the outcome of every send, rename, move,
removal and read.  A statement about all runs is therefore one about every interleaving and every
environment.  The class `QueueObject.Queue` has the program's methods; each is proved equal to a
composition of protocol steps, and `QueueRuns` shows that those compositions are runs.  History
variables (what was accepted, acknowledged, delivered, lost) are only looked at by statements.

**Maps of records updated in place** become maps of values that loops reassign.  A loop over a Go map is a
loop that picks keys in an arbitrary order, so a method whose result is stated as a function of
its inputs does not depend on that order.

**Money and shares** are exact reals; byte counters and clock readings are unbounded naturals.

## What the code does differently from what one might expect

- A spill that fails is only logged, and a file of an acknowledged batch that cannot be read or
  decoded is removed with the others.  These are the only two ways to lose a report;
  `ConservedIffNothingSpoils` and `FailedSpillLoses` make this exact.
- A spool file whose name lacks `_r` is retried for ever.
- `docs/remote.md` describes the backoff as base * 2^retries.  The code adds a jitter of a fifth
  either way, stops growing at 12 retries and truncates to whole nanoseconds, which for a base of
  one nanosecond makes the first retry wait no longer than the first attempt.
- The pricing pool can hang.  Workers put throttled jobs back into the channel they all read
  from, so with more than three jobs per worker every worker can end up blocked in a send.
- Traffic goes unreported in two ways.  Bytes counted since the last read are lost when the
  kernel map evicts the counter, or when a second CPU that also missed the entry writes its zero
  entry over it.  And a restarted counter that has caught up with the remembered value by the next
  read is taken for a continued one, which hides the bytes up to that value.
- Namespaces can be charged more than the cluster costs when the requests on a node exceed what
  it can allocate, because every pod's share is capped on its own.
- A flow from a pod behind a service to a pod without one appears in the service graph as traffic
  to an external endpoint named after the class, say `intra_node`.  `ServiceGraphDirectedIff` is the
  exact condition under which the graph shows no such connection, and
  `PodWithoutServiceLooksExternal` an input on which it does.

## Model

| member | source | states |
|---|---|---|
| QueueTheorems.ConservedIffNothingSpoils | internal/forwarder/queue.go:73-319 | In every interleaving of Enqueue with the flusher, each accepted report is in exactly one of buffer, batch in flight, spool, failed directory and acknowledged, if and only if no spill failed and no undecodable file was removed with an acknowledged batch; sends, renames, moves, removals and time stamps may fail at will |
| QueueTheorems.NoCollisions | internal/forwarder/queue.go:225-237 | As long as no two spool writes draw the same name, no write, rename or move ever lands on an existing file; the lossy steps are exactly a failed spill and the removal of an undecodable file |
| QueueTheorems.FailedSpillLoses | internal/forwarder/queue.go:97-99 | The hypothesis is needed: a concrete run in which a failed spill loses an accepted report for good |
| QueueTheorems.AcknowledgedWereDelivered | internal/forwarder/queue.go:206-216 | At least once: a report dropped as acknowledged was part of a send that succeeded |
| QueueTheorems.RetryAccounting | internal/forwarder/queue.go:159-230 | The count in a name written by this process is its number of recorded failed disk sends, at most maxRetries + 1 in the spool and at most maxRetries when a send starts; the failed directory is reached after exactly maxRetries + 1 |
| QueueTheorems.RetriesArePaced | internal/forwarder/queue.go:173-175 | Before its n-th disk retry a report has waited at least base + sum over k = 1..n of floor(0.8 base 2^min(k,12)) since it was written, however the clock advances, if its failed sends could all reset its time stamp; in any case it has waited the shortest delay of that retry |
| QueueTheorems.ProgressIff | internal/forwarder/queue.go:159-230 | Among steps that write no new spool file, exactly the moves to failed, removals and renames of marked names reduce the sum over files of (maxRetries + 2 - retries); no step raises it |
| QueueTheorems.DrainsIff | internal/forwarder/queue.go:93-319 | Among steps that accept no report, exactly the moves to failed, removals, renames of marked names, spills and acknowledged memory batches reduce the work left; no step raises it |
| QueueTheorems.DrainIsFinite | internal/forwarder/queue.go:129-217 | Draining terminates: from any reachable state, once nothing more is enqueued, a run makes at most as many draining steps as the work in the whole queue, reports in memory and in flight included, whether they are spilled on the way or not |
| QueueTheorems.UnmarkedNeverAges | internal/forwarder/queue.go:253-257 | A name without `_r` is left as it is by a failed send and never becomes exhausted; a marked one gains exactly one retry |
| QueueConservation.HeldStep | internal/forwarder/queue.go:73-319 | Every step, under any disk and network behaviour, changes the places a report can be in (losses included) exactly by what it accepts |
| QueueConservation.LossExactly | internal/forwarder/queue.go:93-99 | The loss history grows exactly at the steps that are lossy |
| QueueConservation.Conservation | internal/forwarder/queue.go:73-319 | After any run, accepted = kept + lost for every report, and nothing is lost if and only if no step was lossy, without any hypothesis on names |
| QueueConservation.ExactlyOnePlace | internal/forwarder/queue.go:73-319 | After a run without loss a report accepted once is in one of the five places, once |
| QueueSafety.BufferLaws | internal/forwarder/queue.go:86-101 | In every reachable state the byte counter is the sum of the buffered sizes, both caps hold whenever the lock is free, the spill loop never meets an empty buffer, and a memory flush takes exactly the min(maxBatch, buffered) oldest reports |
| QueueSafety.SafeStep | internal/forwarder/queue.go:219-237 | Every step with a fresh name keeps: stems unique within and across the two directories, retry history of every file, readiness of the files of a batch, acknowledged implies delivered |
| QueueModel.NewConfig | internal/forwarder/queue.go:38-56 | Every setting that can be used is kept and every other one gets its default (50, 0, 10 s, 512 KiB, 0); with maxRetries below the largest int the result is valid |
| QueueObject.Queue.constructor | internal/forwarder/queue.go:38-70 | A new queue on any left-behind directories counts what it finds as accepted, has the defaulted configuration, and is valid unless maxRetries is the largest int |
| QueueObject.Queue.WriteToDisk | internal/forwarder/queue.go:305-319 | A successful write is the protocol step that adds the file; a failed one leaves spool and history as they were |
| QueueObject.Queue.SpillWhileOver | internal/forwarder/queue.go:93-100 | The spill loop ends with both caps met and is the iterated spill step |
| QueueObject.Queue.SpillOldest | internal/forwarder/queue.go:94-99 | One turn of the loop is the spill step |
| QueueObject.Queue.Enqueue | internal/forwarder/queue.go:73-107 | With a buffer, the reports kept are the longest suffix of the buffer and the new report with at most memoryBuffer reports and maxBatchBytes bytes, and exactly the rest was written out or lost; when everything fits nothing is written.  Without a buffer, the report is the new spool file or an error is returned.  Either way the call is a composition of protocol steps |
| QueueObject.Queue.FlushMemory | internal/forwarder/queue.go:268-303 | A call is FlushMemorySpec: take, send, and on failure spill |
| QueueObject.Queue.TakeBatch | internal/forwarder/queue.go:269-288 | The batch loop takes the prefix the protocol step takes |
| QueueObject.Queue.SpillUnsent | internal/forwarder/queue.go:294-301 | The loop over an unsent batch is the iterated spill |
| QueueObject.Queue.ListSpool | internal/forwarder/queue.go:139-154 | The listing is the sorted list of the `.json` names |
| QueueObject.ListingUnique | internal/forwarder/queue.go:144-154 | A sorted duplicate-free listing of the spool is unique, so directory order does not matter |
| QueueObject.ListedNames | internal/forwarder/queue.go:144-154 | A listing has exactly the files whose name ends in `.json`, and with them every file the queue writes or renames |
| QueueObject.Queue.SelectBatch | internal/forwarder/queue.go:156-181 | The selection loop is the iterated scan step |
| QueueObject.Queue.MoveToFailed | internal/forwarder/queue.go:232-238 | A move to the failed directory is the protocol step |
| QueueObject.Queue.BumpOne | internal/forwarder/queue.go:220-229 | One turn of bumpRetries is the protocol step |
| QueueObject.Queue.BumpRetries | internal/forwarder/queue.go:219-230 | The loop over a failed batch is the iterated step |
| QueueObject.Queue.RemoveFiles | internal/forwarder/queue.go:212-216 | The loop over an acknowledged batch is the iterated step |
| QueueObject.Queue.SendBatch | internal/forwarder/queue.go:187-217 | Reading, sending and clearing up a batch is SendSpec |
| QueueObject.Queue.FlushDisk | internal/forwarder/queue.go:139-217 | A disk flush is FlushDiskSpec |
| QueueObject.Queue.FlushOnce | internal/forwarder/queue.go:129-217 | Memory first, then disk, for every outcome of the environment |
| QueueRuns.EnqueueIsRun | internal/forwarder/queue.go:73-107 | A call of Enqueue is a run of the protocol from any state with the lock free, so the theorems on runs hold after it |
| QueueRuns.FlushMemoryIsRun | internal/forwarder/queue.go:268-303 | So is a memory flush |
| QueueRuns.FlushDiskIsRun | internal/forwarder/queue.go:139-217 | So is a disk flush |
| QueueRuns.GreedyBatch | internal/forwarder/queue.go:156-181 | The disk batch is the due files among the first p names in sorted order, within both caps (a single file may exceed the byte cap); the exhausted files among those p are moved to failed and nothing else changes; and the scan stopped because the batch was full or the next file was due and too big |
| QueueRuns.FlushDrains | internal/forwarder/queue.go:139-217 | A disk flush strictly reduces the work left in the spool if and only if, among the names the scan gets through before the batch is full or its next due file would burst the byte cap, an exhausted file can be moved, or the batch has a readable file and, after a successful send, a file that can be removed or, after a failed one, a file with `_r` that can be renamed; otherwise the same amount is left |
| QueueRuns.MemoryFlushDrains | internal/forwarder/queue.go:268-303 | A memory flush always reduces the work left in the queue, acknowledged or spilled |
| SpoolNames.ParseSet | internal/forwarder/queue.go:240-260 | parseRetries(setRetries(name, k)) = k for every name with `_r` and every int k |
| SpoolNames.ParseSetIffMarked | internal/forwarder/queue.go:240-260 | The round trip holds for every k exactly for the names that contain `_r` |
| SpoolNames.AtoiForms | internal/forwarder/queue.go:246-250 | A count is read exactly from digits, possibly after one sign, whose value fits 64 bits |
| SpoolNames.CountRead | internal/forwarder/queue.go:240-251 | The count of a name is the number between the last `_r` and `.json`, zero without `_r` or when there is no number |
| SpoolNames.SetSet | internal/forwarder/queue.go:253-260 | Of two renames only the last shows |
| SpoolNames.StemOfSet | internal/forwarder/queue.go:253-260 | A rename keeps the part up to `_r` |
| SpoolNames.SpoolNameShape | internal/forwarder/queue.go:309 | A new spool name carries the mark, count 0 and its stem |
| SpoolNames.NameOrder | internal/forwarder/queue.go:309 | For time stamps with equally many digits the sorted order of names is the order of (time, random part), whatever the two retry counts |
| SpoolNames.SpoolStemInjective | internal/forwarder/queue.go:309 | Different (time, random part) pairs have different stems |
| Backoff.Pow2Meaning | internal/forwarder/queue.go:332 | The factor of the backoff is 1 without retries, doubles with each and is 4096 at twelve |
| Backoff.DurationBounds | internal/forwarder/queue.go:321-336 | The first attempt waits for the base; a retry waits for base 2^min(retries,12) give or take a fifth, and the lower bound is attained |
| Backoff.BackoffGrows | internal/forwarder/queue.go:326-335 | From each retry to the next, up to the twelfth, the delay strictly grows whatever the two jitters are, truncation included |
| Backoff.BackoffCapped | internal/forwarder/queue.go:329-331 | From 12 retries on the delay no longer depends on the count |
| Backoff.FirstRetryWaitsLongerIff | internal/forwarder/queue.go:326-335 | The first retry always waits longer than the first attempt exactly when the base is at least 2 ns |
| PricingPool.PoolIsSafe | hack/cmd/generate-pricing/main.go:94-149 | In every reachable state: nothing is left to send once the channel is closed, the wait group is the number of unfinished jobs, no job is finished twice or fetched more than six times, and each is finished or in exactly one place |
| PricingPool.ResultIsComplete | hack/cmd/generate-pricing/main.go:127-133 | When the workers are gone every job has a price or a warning, and the result has entries for exactly the priced pairs |
| PricingPool.JobStory | hack/cmd/generate-pricing/main.go:107-134 | In every run, a job that is not done has had at most five throttled fetches and no other; it ends with its first price, with its first other error or with the sixth throttling, as the last of its outcomes says, and is never fetched again |
| PricingPool.ResultIsFetched | hack/cmd/generate-pricing/main.go:127-133 | In every run the result has a pair if and only if some price was fetched for it, and holds the last one fetched; when no pair is asked for twice, a job's pair is there if and only if its last fetch gave a price, and holds that price |
| PricingPool.PoolTerminates | hack/cmd/generate-pricing/main.go:114-147 | Every run has at most 21 steps per job, one per worker and one close |
| PricingPool.HowRunsEnd | hack/cmd/generate-pricing/main.go:138-149 | A run that cannot go on has finished every job exactly once with all workers gone, or holds at least 3c + 1 unfinished jobs |
| PricingPool.DeadlockReachable | hack/cmd/generate-pricing/main.go:104-121 | With more than 3c jobs there is a run into a deadlock: every worker blocked sending into the full channel |
| PricingPool.DeadlockIff | hack/cmd/generate-pricing/main.go:104-149 | The pool can get stuck if and only if there are at least 3c + 1 jobs |
| PricingPool.DeadlockFreeSettings | hack/cmd/generate-pricing/main.go:94-100 | The same in terms of the concurrency flag |
| PricingPool.Level | hack/cmd/generate-pricing/main.go:94-100 | One worker when none or fewer are asked for, otherwise the number asked for, capped by the number of jobs if there are any |
| Network.ClassMeaning | internal/network/classifier.go:14-58 | What each class means: exactly when traffic is intra-node, intra-zone, inter-zone, private (section 3 of RFC 1918, section 3.1 of RFC 4193), public or unknown |
| Network.PrivateBlocks | internal/network/classifier.go:39-58 | An address is private exactly within the bounds of the three IPv4 blocks (section 3 of RFC 1918) or, for IPv6, with the first seven bits 1111110 (section 3.1 of RFC 4193) |
| Network.InfoMeaning | internal/snapshot/builder.go:87-113 | An address is known as the last listed pod that has it, with its node and the zone of the last listed node of that name |
| Network.ClassIsSymmetric | internal/network/classifier.go:18-29 | Between two pods the class does not depend on the direction |
| Collector.FlowTable.HandleSkb | bpf/flows.bpf.c:69-84 | The packet step creates a missing counter, unless the map refuses, and adds to one direction |
| Collector.FlowCollector.DeltaStats | internal/collector/network_collector_linux.go:147-159 | The difference to the remembered reading, or the reading itself after a reset |
| Collector.FlowCollector.CollectPodNetwork | internal/collector/network_collector_linux.go:59-133 | The scrape loop computes deltas, flows and per-pod usage as VisitAll |
| Collector.NeverOverReports | internal/collector/network_collector_linux.go:147-166 | Over any run of packets, evictions, resets and reads, with sources known or not, the bytes reported for a flow never exceed the bytes counted |
| Collector.ExactIff | internal/collector/network_collector_linux.go:96-166 | After any run of packets, evictions, resets and reads, a read with a known source brings the total reported up to the total counted if and only if no step lost bytes: no eviction or reset of a counter with unreported bytes, and no packet that lifts a restarted counter from below the remembered value to at least that value |
| Collector.ExactWithoutRestart | internal/collector/network_collector_linux.go:96-127 | In particular reporting is exact as long as the counter is never evicted or reset, even if earlier reads did not know the pod |
| Collector.EvictionLoses | internal/collector/network_collector_linux.go:153-166 | Both ways of losing bytes occur on any flow: evicted before it was read, and evicted after a read with at least as many bytes to come |
| Collector.VisitIsRead | internal/collector/network_collector_linux.go:96-127 | One turn of the scrape loop is a read of the state machine: same memory, same delta, same flow |
| Collector.CollectedUsageRefines | internal/collector/network_collector_linux.go:119-126 | The per-pod usage kept during a scrape is what the builder recomputes from the flows, up to zero class entries |
| Collector.AddressRoundTrip | internal/collector/network_collector_linux.go:179-190 | Every address is read back from the sixteen bytes and the family the kernel side writes (bpf/flows.bpf.c:28-37); a key of any other family is not read |
| Collector.FlowsReported | internal/collector/network_collector_linux.go:94-118 | The flows of a scrape are exactly those of the readings from a known pod with a delta in some direction, with its two addresses and that delta |
| Collector.UsageIsItsFlows | internal/collector/network_collector_linux.go:119-126 | The usage kept for a pod is the sum of its flows, in total and by class, sent and received |
| Collector.ListedPodIsReported | internal/collector/network_collector_linux.go:59-133 | A counter the kernel keeps between the address of a listed pod and another address of its family, with bytes not reported yet, gives a flow between these addresses and is counted for the pod |
| Connections.AccumulateConnection | internal/snapshot/builder.go:448-473 | Adding a flow to a map of connection records is posting to the ledger behind it, with a missing class read as `unknown` |
| Connections.ConnLessIsOrder | internal/snapshot/builder.go:483-503 | The seven-field comparator is a strict order |
| Connections.KeysSeparateConnections | internal/snapshot/builder.go:483-503 | Records under different keys are never tied |
| Connections.ConnectionsUnique | internal/snapshot/builder.go:475-505 | A list is a strictly sorted permutation of the records if and only if it is the published one, so map order never shows |
| Connections.FlattenConnections | internal/snapshot/builder.go:475-505 | Computes that list |
| Connections.EgressCostAdds | internal/snapshot/pricing.go:61-71 | Egress cost is additive in the bytes |
| Connections.PriceMeaning | internal/snapshot/pricing.go:61-71 | 2^30 bytes cost the price of the class, or the base price when the class has none, and other amounts their share of it |
| Connections.LowerMeaning | internal/snapshot/pricing.go:66 | Lower-casing works letter by letter, on A to Z and on nothing else |
| Connections.IndexPods | internal/snapshot/builder.go:94-120 | The indexes by address and by key, later entries winning |
| Connections.ConnectFlows | internal/snapshot/builder.go:202-241 | The flow loop fills the pod, namespace and workload graphs |
| Connections.RollUp | internal/snapshot/builder.go:213-241 | The namespace and the workload graph are the pod graph regrouped, with bytes, cost and class kept and external endpoints fixed |
| Connections.SameTotal | internal/snapshot/builder.go:239-241 | The three graphs carry the same total |
| Connections.ConnectionsDirected | internal/snapshot/builder.go:225-237 | In the pod, namespace and workload graph, external endpoints are named by their class, which is an outside class or `unknown`; connections inside the cluster have an inside class or `unknown`; no source is external |
| Connections.FallbackUnreachable | internal/snapshot/builder.go:215-231 | Every pod a flow can reach has a workload entry, that of the last listed pod of its key; the empty-workload fallbacks are never taken |
| Services.BuildServiceIndex | internal/snapshot/builder.go:532-554 | An address is indexed under the keys of its labelled slices, in order and with repetitions |
| Services.ServicesForIP | internal/snapshot/builder.go:556-568 | Resolves the keys that name a known service |
| Services.ConnectServices | internal/snapshot/builder.go:243-255 | The nested service loops book every pair once, and an external endpoint when the destination has no service |
| Services.ConnectFlowServices | internal/snapshot/builder.go:232-255 | The service part of the flow loop |
| Services.ServiceTotalIsWeighted | internal/snapshot/builder.go:244-255 | The service graph carries each flow exactly (source services) x max(destination services, 1) times |
| Services.EndsOfFlow | internal/snapshot/builder.go:532-575 | The services in front of a pod are the known ones whose labelled slices list its address, each as often as they do; a destination with none is the outside, named by the class |
| Services.ServiceConnectionIsItsFlows | internal/snapshot/builder.go:243-255 | A service connection carries the flows of its class between its two ends, each once per pair |
| Services.FlowServicesDirectedIff | internal/snapshot/builder.go:232-255 | The service connections a flow books are directed in the same sense if and only if its source has no service, its destination is no pod, its destination has a known service, or its class is `unknown` |
| Services.ServiceGraphDirectedIff | internal/snapshot/builder.go:202-256 | All connections of the service graph are, if and only if that holds of every flow that leaves a pod |
| Services.PodWithoutServiceLooksExternal | internal/snapshot/builder.go:250-255 | It can fail: two pods on one node, the second without a service, give exactly one service connection, to an external endpoint called `intra_node` |
| NodeCosts.SumPodRequests | internal/snapshot/builder.go:595-609 | The sum of all container requests |
| NodeCosts.RequestsAdd | internal/snapshot/builder.go:595-609 | Requests add up container by container, CPU with CPU and memory with memory |
| NodeCosts.AllocateCosts | internal/snapshot/builder.go:41-180 | The namespace, node and cost loops compute CountPods |
| NodeCosts.AllocatePod | internal/snapshot/builder.go:137-180 | One turn of the cost loop |
| NodeCosts.PercentMeaning | internal/snapshot/builder.go:183-189 | Zero exactly without allocatable or used amount, 100 exactly when all of it or more is used, and the exact percentage in between |
| NodeCosts.LoadsAreGrouped | internal/snapshot/builder.go:141-178 | Each namespace record is the sum of its own pods' requests and charges |
| NodeCosts.NamespacesMakeTheCluster | internal/snapshot/builder.go:145-164 | Requests and usage summed over namespaces are the cluster totals |
| NodeCosts.NamespacesPresent | internal/snapshot/builder.go:137-141 | Every pod that is not skipped has a namespace record |
| NodeCosts.ChargedByNamespaceIsChargedByNode | internal/snapshot/builder.go:166-178 | Exchange of sums: what namespaces are charged is what nodes hand out |
| NodeCosts.ChargedIsClipped | internal/snapshot/builder.go:171-177 | The pods of a node are charged its price times the sum of min(request, size) over its size |
| NodeCosts.HandedOutOnceIff | internal/snapshot/builder.go:171-177 | A node is handed out at most once exactly when the clipped requests of its pods fit it |
| NodeCosts.NoNodeTwiceIff | internal/snapshot/builder.go:166-178 | With non-negative prices, no node at all is handed out more than once exactly when the clipped requests fit every node with CPU and a price |
| NodeCosts.ChargedAtMostNodeCost | internal/snapshot/builder.go:52-68 | With non-negative prices and clipped requests that fit every node with CPU and a price, the namespaces are charged at most the total node cost, repeated node names allowed |
| NodeCosts.ChargedAtMostOncePerPod | internal/snapshot/builder.go:166-178 | Whatever was requested, they are charged at most every node's price once per pod counted on it |
| NodeCosts.OversubscribedNodeIsChargedTwice | internal/snapshot/builder.go:171-177 | The first bound needs its hypothesis: two pods that each request a whole node are charged twice its price |
| NetworkTotals.AccumulateTotals | internal/snapshot/builder.go:410-422 | Adding to a class total is posting to a ledger, a missing class read as `unknown` |
| NetworkTotals.FlattenTotals | internal/snapshot/builder.go:424-436 | The list of class totals, sorted and unique |
| NetworkTotals.BookSent | internal/snapshot/builder.go:284-295 | The loop over sent bytes by class, in any order |
| NetworkTotals.BookReceived | internal/snapshot/builder.go:296-302 | The loop over received bytes by class, in any order |
| NetworkTotals.BookPod | internal/snapshot/builder.go:262-314 | One turn of the network loop |
| NetworkTotals.BookPods | internal/snapshot/builder.go:262-314 | The network loop; every namespace lookup in it succeeds |
| NetworkTotals.ClassesMeaning | internal/snapshot/builder.go:268-302 | A pod counts under a class the bytes sent and their cost and the bytes received in it; bytes without a class count as `unknown` |
| NetworkTotals.ViewsAgree | internal/snapshot/builder.go:262-314 | For any usage: pods, namespace records and cluster carry the same bytes and cost; class totals and namespace network records the same, class by class |
| NetworkTotals.CostsAlwaysAgree | internal/snapshot/builder.go:283-313 | The egress cost of the cluster is the sum of the pods' class costs, balanced or not |
| NetworkTotals.SameAmountIffBalanced | internal/snapshot/builder.go:268-302 | A pod's class totals equal its byte totals exactly when its class entries are empty or add up, per direction |
| NetworkTotals.AllViewsAgree | internal/snapshot/builder.go:262-331 | With balanced usage by class = by pod = by namespace (both views) = cluster, for bytes and cost |
| Builder.PodListUnique | internal/snapshot/builder.go:333-338 | When no pod is listed twice the published pod list is the only sorted permutation of the records |
| Builder.AggregatePodUsage | internal/snapshot/builder.go:507-530 | Usage by pod and class recomputed from the flows |
| Builder.FlattenNodes | internal/snapshot/builder.go:182-195 | The node list, sorted by name, with utilisation |
| Builder.ViewNets | internal/snapshot/builder.go:325-328 | The namespace network records with their class lists, in any order |
| Builder.FlattenNets | internal/snapshot/builder.go:324-331 | The namespace network list |
| Builder.Build | internal/snapshot/builder.go:40-369 | The whole of Build: the snapshot is a function of its inputs, whatever order its maps are visited in |
| BuilderTheorems.UsageIsRedundant | internal/snapshot/builder.go:258-260 | With a collection from the collector, the snapshot is the one built from the same flows and no usage |
| BuilderTheorems.SnapshotIgnoresFlowOrder | internal/snapshot/builder.go:202-256 | Collections with the same flows in any order give the same snapshot |
| BuilderTheorems.FlowUsageIsBalanced | internal/snapshot/builder.go:507-530 | Usage recomputed from flows or collected alongside them adds up for every pod |
| BuilderTheorems.PublishedViewsAgree | internal/snapshot/builder.go:316-368 | For any usage the published pod list, namespace list and cluster totals add up to the same, the class list and the namespace network list too, and on cost all five |
| BuilderTheorems.AllPublishedViewsAgree | internal/snapshot/builder.go:316-368 | When the traffic comes from flows, the five agree on bytes and cost |
| BuilderTheorems.PublishedLoadsAgree | internal/snapshot/builder.go:316-354 | The published namespaces add up to the published requests and usage |
| BuilderTheorems.PublishedChargesFit | internal/snapshot/builder.go:316-354 | When clipped requests fit their nodes, the published namespaces are charged at most the published total node cost |
| BuilderTheorems.PodRecordsAreTheirConnections | internal/snapshot/builder.go:304-312 | Every published pod record is the sum of the published pod connections that leave the pod, in bytes sent, bytes received and cost |
| BuilderTheorems.CountedPodsArePublished | internal/snapshot/builder.go:262-312 | There is a published pod record for every pod that is not skipped, and there are as many records as such pods |
| PublishedGraphs.PublishedRollups | internal/snapshot/builder.go:213-241 | The published namespace connections are the published pod connections with every pod moved to its namespace, and the workload connections the same with every pod moved to its controller; bytes, cost, class and external ends are kept, and no list has duplicates |
| PublishedGraphs.PublishedEnds | internal/snapshot/builder.go:202-255 | The ends of published connections: listed pods, namespaces, workloads and services in the list of their name, or the outside named by the class; for the first three lists the class says which |
| PublishedGraphs.PublishedConnectionIsItsFlows | internal/snapshot/builder.go:202-239 | A published pod connection carries the bytes and the egress cost of exactly the flows between its two ends in its class |
| PublishedGraphs.PublishedConnectionsAddUp | internal/snapshot/builder.go:363-366 | The published pod, namespace and workload connections each add up to all flows that leave a pod, the service connections to every flow once per pair of services |
| PublishedCosts.PublishedNamespace | internal/snapshot/builder.go:137-180 | The published namespaces are exactly the listed ones and those of the counted pods, each with their number and the sums of what they request, are charged, use and send |
| PublishedCosts.PublishedNode | internal/snapshot/builder.go:182-195 | The published nodes are the last listed of each name, with the number of their pods and the percentage of their CPU and of their memory those use |
| Order.SortedIsUnique | internal/snapshot/builder.go:483-503 | A strictly sorted list is determined by its elements |
| Order.Flatten | internal/snapshot/builder.go:479-504 | Collecting a map in any order and sorting gives the one sorted list of its values |
| Ledger.GroupIgnoresOrder | internal/snapshot/builder.go:461-472 | A look-up-or-create-and-add loop gives the same map in any order of its entries |
| Ledger.RegroupGroup | internal/snapshot/builder.go:461-472 | A coarse rollup is the fine rollup, rolled up again |
| Ledger.GroupTotal | internal/snapshot/builder.go:461-472 | A rollup keeps the grand total |
| CpuAccounting.CpuTracer.HandleSchedSwitch | bpf/metrics.bpf.c:56-72 | The tracepoint charges the outgoing thread and restarts the incoming one |
| CpuAccounting.CpuTracer.ChargeCpuTime | bpf/metrics.bpf.c:41-53 | Adds to a cgroup counter, created unless the map refuses |
| CpuAccounting.FreshStep | bpf/metrics.bpf.c:55-72 | A switch leaves some running thread with a stale start if and only if it loses the update of an existing start |
| CpuAccounting.ChargeIsInterval | bpf/metrics.bpf.c:61-67 | The charge at a switch is the interval just finished, or nothing if its start was not taken; a stale start is never charged |
| CpuAccounting.NeverOvercharges | bpf/metrics.bpf.c:41-72 | On any number of CPUs, with a metrics map that refuses, evicts and resets and a start map that refuses new entries, no cgroup is charged more than it ran |
| CpuAccounting.ChargesWhatWasCovered | bpf/metrics.bpf.c:41-72 | A cgroup is charged exactly its intervals whose start was taken, if and only if the metrics map dropped none of its charges |
| CpuAccounting.ChargesEverythingIff | bpf/metrics.bpf.c:61-70 | It is charged all it ran if and only if none of its non-empty intervals began unrecorded and none of its charges was dropped |
| CpuAccounting.WithinCapacity | bpf/metrics.bpf.c:56-72 | All charges together, those of evicted counters included, are at most the time the CPUs ran anything but idle, and that is at most the elapsed time on every CPU |
| CpuAccounting.OverchargesIff | bpf/metrics.bpf.c:61-70 | In every run, whatever other CPUs, evictions and earlier lost updates do, the switch that takes a thread off its CPU charges it more than it ran since it was switched in if and only if the update of its existing start was lost, and then by exactly the age of that start |
| Aggregator.CostPod | internal/aggregator/cost_aggregator.go:172-201 | Usage with the request as fallback, its price, and the merged labels of one pod |
| Aggregator.AddToNamespace | internal/aggregator/cost_aggregator.go:204-210 | Adds a pod to its namespace, created on demand |
| Aggregator.AddToNode | internal/aggregator/cost_aggregator.go:212-213 | Adds a pod's cost to its node, created on demand |
| Aggregator.BookLabels | internal/aggregator/cost_aggregator.go:215-223 | The label loop, in any order |
| Aggregator.BookPod | internal/aggregator/cost_aggregator.go:171-230 | One turn of the pod loop |
| Aggregator.SetUsage | internal/aggregator/cost_aggregator.go:239-244 | The usage loop over nodes, in any order |
| Aggregator.CollectTypes | internal/aggregator/cost_aggregator.go:245-257 | The instance type totals, whatever order the nodes come in |
| Aggregator.FlattenLabels | internal/aggregator/cost_aggregator.go:260-271 | The label list, sorted by key and value |
| Aggregator.FilterCostByLabel | internal/aggregator/cost_aggregator.go:373-391 | The entries of each listed label that has any, sorted by value |
| Aggregator.CostAggregator.Aggregate | internal/aggregator/cost_aggregator.go:140-300 | Computes and keeps the data, a function of the inputs whatever order maps are visited in |
| AggregatorTheorems.CostIsOneNumber | internal/aggregator/cost_aggregator.go:171-257 | The published cost is the same by pod, namespace, node (unlisted nodes included) and cluster, and is the price of the total usage |
| AggregatorTheorems.TypesAndUntypedMakeTheCost | internal/aggregator/cost_aggregator.go:245-257 | Instance types count every typed node once; with the untyped nodes their allocated cost is the whole cost |
| AggregatorTheorems.LabelEntries | internal/aggregator/cost_aggregator.go:215-223 | A label entry is published exactly for the values some pod has, with the cost of the pods that have it |
| AggregatorTheorems.LabelTotals | internal/aggregator/cost_aggregator.go:215-223 | The entries of a label add up to the cost of the pods that carry it |
| AggregatorTheorems.ListedLabelTotals | internal/aggregator/cost_aggregator.go:286 | The cluster summary lists team and environment exactly when some pod carries them, and the entries add up to the cost of those pods |
| AggregatorTheorems.PublishedPod | internal/aggregator/cost_aggregator.go:171-201 | Pods are published in order under their own names, with their requests, with what was measured unless it is zero or missing, at the price per core and per GiB of that, and with the merged labels |
| AggregatorTheorems.PublishedNamespace | internal/aggregator/cost_aggregator.go:204-210 | The published namespaces are exactly those of the pods, each with their number, their sums and the labels of the first |
| AggregatorTheorems.PublishedNode | internal/aggregator/cost_aggregator.go:239-244 | The published nodes are exactly the listed ones and those some pod names, with type, price, and the usage and cost of their pods |
| AggregatorTheorems.PublishedType | internal/aggregator/cost_aggregator.go:247-256 | The published instance types are exactly those of the nodes, each with the number, the price and the allocated cost of its nodes |
| Workloads.MostCommonValue | internal/aggregator/cost_aggregator.go:486-498 | The value counted most often, the smallest on a tie, empty when nothing counts |
| Workloads.MostCommonIsUnique | internal/aggregator/cost_aggregator.go:486-498 | There is only one such value, so map order never shows |
| Workloads.SortStrings | internal/aggregator/cost_aggregator.go:452-456 | The node names of a workload, sorted |
| Workloads.TallyPods | internal/aggregator/cost_aggregator.go:422-448 | The tally of each controller |
| Workloads.WorkloadsFromPods | internal/aggregator/cost_aggregator.go:404-484 | One published record per controller, sorted by namespace, kind and name |
| Workloads.WorkloadsAreUnique | internal/aggregator/cost_aggregator.go:404-484 | The workload list is a function of the pods |
| Workloads.TallyIsSum | internal/aggregator/cost_aggregator.go:433-439 | A workload carries the cost and usage of exactly its pods |
| Workloads.TallyCountsReplicas | internal/aggregator/cost_aggregator.go:427-435 | It counts each of its pods once and exists when there are any |
| Workloads.TallyCountsLabels | internal/aggregator/cost_aggregator.go:443-447 | Its label counts are the numbers of its pods with each value |
| Workloads.PublishedWorkloads | internal/aggregator/cost_aggregator.go:404-484 | Every published workload is the summary of its pods: replicas, cost, usage, requests, the sorted nodes they name, and the team and environment most of them have; and every pod with a controller has its workload published |
| Workloads.WorkloadsCarryOwnedPods | internal/aggregator/cost_aggregator.go:422-482 | All workloads together carry exactly the pods that have a controller |

## Left out

- QueueTheorems.AcknowledgedWereDelivered: states at-least-once only; a send reported as failed may still have reached the server, so nothing is said about duplicates.
- QueueTheorems.RetriesArePaced: the sum is for files whose failed sends could all reset their time stamp, because `os.Chtimes` errors are ignored by the code; others only wait out the last delay since they were written.
- QueueTheorems.ConservedIffNothingSpoils: assumes that no two spool writes draw the same (nanosecond, six random digits); Conservation needs no such assumption and counts an overwritten file as lost.
- QueueModel.NewConfig: leaves out flushEvery, and calls the largest int as maxRetries not valid: there the limit test can never succeed and the retry count would overflow.
- Backoff.DurationBounds: does not model the 64-bit overflow of base * 2^12 for a base above some 26 days, nor the rounding of the floating-point factor.
- Builder.Build: sorts pods of equal namespace and name in some order, where `sort.Slice` leaves it open; labels, taints, node conditions, environments, cluster id and the time stamp are not modelled, and nil list entries are assumed away (the first node loop dereferences them); a node's price is an input.
- Connections.EgressCostAdds: prices come as a table with lower-cased keys; how the table is built from configuration, and lower-casing beyond ASCII, are not modelled.
- Network.ClassifyEgress: `netip.Addr.IsGlobalUnicast` is a parameter, and address parsing is an input of the pod.
- Collector.NeverOverReports: covers one life of the collector; a restarted one reports the whole counters again, because its memory starts empty.
- CpuAccounting.NeverOvercharges: speaks of runs in which updates of existing starts succeed, like the other run theorems of that module; OverchargesIff says, for every run, which charges are too high otherwise and by how much.
- CpuAccounting.CpuTracer.ChargeCpuTime: is one uninterrupted call; what another CPU does to the map in between is a Zero or Evict step of the machine.
- Collector.FlowTable.HandleSkb: likewise.
- Aggregator.CostAggregator.Aggregate: the label enricher is a parameter, the label map of maps is one map keyed by (key, value); names, unit conversions to cores and GiB and descriptive node fields are not modelled.
- Crashes and the real file system: writing a temporary file and renaming it is one step, and a crash during an in-memory send would lose its batch.
- HTTP, gzip and JSON: a send succeeds or fails, a file decodes or does not.
- Wrap-around of 64-bit counters and rounding of floats.
- Global first-in-first-out delivery: memory is flushed before disk, so the code does not promise it.
- The ticker and channel of `Run`, its context and its final return: any sequence of flushes is covered.
- The region table and discovery in front of the pricing pool, and the sleeps in its workers.
- The memory counters of `bpf/metrics.bpf.c`, header parsing in `bpf/flows.bpf.c`, the eBPF loader, and the CPU rate computed from the counters.
- Kubernetes clients, the price table, configuration merging, the exporter, the HTTP API, logging.
