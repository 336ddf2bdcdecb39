# EdgeHub's in-memory engines, modelled and verified in Dafny

EdgeHub keeps queues, gangs, market orders, bills, replica splits and benchmark scores in
memory, each behind a lock. This project models those engines and proves what they promise
over whole runs.

| file | models |
|---|---|
| `Common.dfy`, `Folds.dfy`, `Listings.dfy` | shared values; folds over maps, which give a Go loop over a map one meaning for every order; listing a map's values and the exchange sort |
| `QueueOrder.dfy` | the order in which one queue hands out its entries, against an independent stable sort |
| `QueueManager.dfy` | the named priority queues: state, steps, ledger of a run, draining, and the manager class |
| `QueueRuns.dfy` | what queues hold and return after a run, read off its calls |
| `GangScheduler.dfy` | gang scheduling as interleaved atomic steps, and the scheduler class |
| `Scheduler.dfy` | the pass that deletes from the list it walks, jobs that arrive while a pass is under way, and the scheduler's queues |
| `NodeChoice.dfy` | choosing a node for a job |
| `PriceEngine.dfy` | price statistics, recommendations, and the aggregator's single scan |
| `PriceMeaning.dfy` | which records count, when prices rise or fall, and what a recommendation is made of |
| `Market.dfy` | offers, orders, price log and stock, and the market service |
| `MarketSales.dfy` | which orders are accepted and how an offer sells out |
| `Billing.dfy` | bills, summaries and the billing service |
| `BillAmounts.dfy` | what a bill comes to, and what one more bill adds to a summary |
| `Distribution.dfy` | splitting replicas over clusters |
| `NodeRanks.dfy` | the ranks that one ranking, or several at once, leave on the nodes |
| `Benchmark.dfy` | composite scores and the benchmark service |

The pattern is the same throughout. A service is a class with the source's fields. An abstract
value of it (`Contents`, `View`, `BillStates`) and a function that applies one call to that
value (`Apply`, `Step`) say what each method does: every method ends in exactly the state the
function gives. The theorems are lemmas about those functions over every list of calls. The queue
manager, the gang scheduler, the scheduler, the market and the billing service also record their
calls in a ghost history, and their invariant `Valid` says that the object is what that history
makes of an empty one: so every theorem about runs holds of every object. Calls that fail change nothing, and each
method says which error it returns when. What those functions mean is in turn proved without
them: which records a filter lets through, what each resource costs, which orders are accepted,
what a queue returns, in the terms of the caller's own numbers. Where a Go function is long, a part of its body is a
method of its own (the update of one price window, for instance, serves both windows).

Choices of the model:

- Floats are exact reals, times are integers (nanoseconds, 0 for "never set"), identifiers are
  numbers (0 for the nil one). `time.Now()` and `uuid.New()` are parameters; new identifiers
  of orders and offers are required not to be in use.
- A loop over a Go map picks the next key arbitrarily, so what is proved holds for every order.
- Objects handed to a Create call must not be stored already: passing one order twice would
  put one object under two keys.
- The unlocked part of `ScheduleGang` runs in steps that other calls may separate, with
  sequentially consistent memory. The range loop reads the slice once, so the reading of the
  list is one step.
- Creating pods in the cluster, and its failures, are an arbitrary outcome for every attempt.
- Jobs may be enqueued between the copying of the queues and the locking of each: `ProcessQueues`
  takes a list of them for every lock. Enqueues in other queues while one is locked come to the
  same as enqueues before the next lock or after the pass.
- Two rankings may run at once, since `GetNodeRanking` takes only the read lock: the writes of
  their ranks may interleave in every way (`NodeRanks`), while `GetNodeRanking` itself is the call
  that nothing interrupts.
- The billing service keeps the price object it is given. Its `Valid` does not depend on that
  object, so it survives what the owner writes to it, and a bill is priced at what the object
  says when the bill is created.
- Quantities are numbers. A request whose text is empty or does not parse is `Unset`, which is
  how the code treats both.

What the proofs brought to light about the code:

- The pods of a bound gang cover all its jobs exactly when no job was added between reading
  the list and writing the status (`BoundCoversAllJobsIff`). A late write can overwrite the
  `ready` that an add has just set; in a full gang that job is then in no pod list of the gang,
  whatever is called later (`LateBindStrandsJob`, `SettledIsFinal`). A gang can be scheduled again exactly
  while it has its name and is ready or can be filled up to its quorum (`PassesAgainIff`).
- The window minima of the price scan use 0 for "none yet": they are wrong exactly when a zero
  price is the minimum and the last price in the window is not zero (`ZeroMinIsLowIff`,
  `FreeOfferIsForgotten`). The maxima are wrong exactly when all prices are negative
  (`ZeroMaxIsHighIff`, `NegativePricesPeakAtZero`). `WindowIsExactIff` puts both together.
- A negative number of replicas is split exactly only if it divides evenly
  (`DistributionIsExactIff`, `NegativeRemainderIsDropped`).
- Scores read quantities rounded up to whole units. More of both resources makes a node better
  exactly when it shows in the whole units of one of them (`LargerIsBetterIff`). So with memory in
  whole bytes no eligible node is larger in both than the chosen one
  (`WholeBytesAreNotDominated`); for a larger node to lose, both quantities of memory must lie
  within one and the same byte (`RoundingHidesLargerNode`).
- Each entry of a node selector is looked up by its value, not by its name: the label that a
  selector asks about does not count at all, unless its name is among the selector's values
  (`SelectorCosts`, `SelectedLabelIsIgnored`).
- While as many jobs fail at the head of a queue as there are workers, nothing behind them is
  ever tried (`FailingHeadBlocksAll`).
- `Requeue` skips the bound of a queue (`RequeueIgnoresTheBound`): a run keeps all bounds exactly
  when it never requeues into a full queue (`BoundsAreKeptIff`).
- Two rankings at once can leave two nodes with the same rank: that is possible exactly when two
  scores tie (`RankingsRaceIff`).
- Restocking a sold offer does not reopen it (`SoldIsFinal`), a discount above 100 makes an amount
  negative (`AmountIsWithinCost`, `HighDiscountGoesBelowZero`), and periods that share an instant
  count its bills twice, so that they add up exactly when no selected bill is from that instant
  (`TouchingPeriodsCountTwice`, `TouchingPeriodsAddUpIff`).

## Model

| member | source | states |
|---|---|---|
| QueueOrder.FirstMax | edgehub/internal/scheduler/kueue_volcano.go:252-260 | the selection scan finds the earliest entry of highest queued priority |
| QueueOrder.StableSortIsStable | edgehub/internal/scheduler/kueue_volcano.go:242-268 | the reference order is a permutation, descending by priority, and keeps arrival order within each priority |
| QueueOrder.StableSortIsUnique | edgehub/internal/scheduler/kueue_volcano.go:242-268 | only one sequence is descending and keeps every priority's arrival order |
| QueueOrder.FirstMaxHeadsTheSort | edgehub/internal/scheduler/kueue_volcano.go:252-265 | removing the first maximum and sorting what is left is the stable sort |
| QueueOrder.DrainFollowsServiceOrder | edgehub/internal/scheduler/kueue_volcano.go:242-268 | k selections return the first k of the stable sort (of the arrival order, for a FIFO queue) and leave the rest of it to come |
| QueueOrder.RemainingKeepsArrivalOrder | edgehub/internal/scheduler/kueue_volcano.go:262-265 | after any k in-place deletions the entries left sit at increasing old positions |
| QueueLedger.LedgerBalances | edgehub/internal/scheduler/kueue_volcano.go:111-292 | over any run: accepted = returned + pending + discarded as multisets; a FIFO queue's returned entries followed by its pending ones are exactly its accepted sequence; a bounded queue exceeds its bound by at most its requeues |
| QueueLedger.RequeueIgnoresTheBound | edgehub/internal/scheduler/kueue_volcano.go:270-292 | a run in which a queue of bound 1 holds 2 entries |
| QueueLedger.StepKeepsBoundsIff | edgehub/internal/scheduler/kueue_volcano.go:111-292 | a call takes a queue past its bound if and only if it requeues into a queue that is full |
| QueueLedger.BoundsAreKeptIff | edgehub/internal/scheduler/kueue_volcano.go:111-292 | all bounds hold after every step of a run if and only if nothing in it is requeued into a full queue |
| QueueRuns.EntriesCarryPriority | edgehub/internal/scheduler/kueue_volcano.go:168-292 | in every reachable state every pending and every returned entry has the priority of its own job |
| QueueRuns.SettingsStay | edgehub/internal/scheduler/kueue_volcano.go:111-142 | a queue exists from its creation to its deletion, with the priority, bound and fairness it was created with |
| QueueRuns.AcceptedAreSent | edgehub/internal/scheduler/kueue_volcano.go:168-292 | what a queue, fair or not, has accepted are the jobs of the calls for it since its creation, in call order: the enqueues that found room and all requeues |
| QueueRuns.PendingKeepsCallOrder | edgehub/internal/scheduler/kueue_volcano.go:168-292 | what is pending in it are some of those jobs, still in call order |
| QueueRuns.EnqueuedThenDequeued | edgehub/internal/scheduler/kueue_volcano.go:168-268 | jobs enqueued into a new queue with room for them are returned by as many dequeues, by descending job priority with ties in call order from a fair queue, and in call order from any other |
| QueueLedger.SomeQueueServes | edgehub/internal/scheduler/kueue_volcano.go:205-222 | some queue can serve a dequeue exactly when not all are empty |
| QueueLedger.DrainConserves | edgehub/internal/scheduler/kueue_volcano.go:196-223 | dequeues move entries from pending to the output and lose none |
| QueueLedger.SourcesDescend | edgehub/internal/scheduler/kueue_volcano.go:196-240 | over repeated dequeues the priorities of the serving queues never increase, whatever the ties and map orders |
| QueueLedger.EachQueueInOrder | edgehub/internal/scheduler/kueue_volcano.go:196-268 | what a drain took from one queue, followed by what is left in service order, is its whole service order |
| QueueLedger.DrainIsComplete | edgehub/internal/scheduler/kueue_volcano.go:196-268 | a drain makes at most as many calls as entries are pending, fails next exactly when it has made that many, and has then returned every entry once, each queue in its own order |
| QueueManagers.QueueManager.CreateQueue | edgehub/internal/scheduler/kueue_volcano.go:111-129 | a new name gets an empty queue; a taken one is an error and changes nothing |
| QueueManagers.QueueManager.DeleteQueue | edgehub/internal/scheduler/kueue_volcano.go:131-142 | removes the queue with its entries; an unknown name is an error |
| QueueManagers.QueueManager.Enqueue | edgehub/internal/scheduler/kueue_volcano.go:168-194 | appends an entry with the job's priority at that time unless the queue is unknown or full, and says which |
| QueueManagers.QueueManager.Requeue | edgehub/internal/scheduler/kueue_volcano.go:270-292 | appends to a known queue whether or not it is full |
| QueueManagers.QueueManager.SelectNextJob | edgehub/internal/scheduler/kueue_volcano.go:242-268 | takes the head, or the first of highest priority, out of the queue in place |
| QueueManagers.QueueManager.ListQueues | edgehub/internal/scheduler/kueue_volcano.go:156-166 | lists every queue once, for every order of the map |
| QueueManagers.QueueManager.GetSortedQueues | edgehub/internal/scheduler/kueue_volcano.go:225-240 | the exchange sort yields every queue once, by descending priority |
| QueueManagers.QueueManager.Dequeue | edgehub/internal/scheduler/kueue_volcano.go:196-223 | serves from a queue that no queue with entries outranks, and fails exactly when all are empty or there are none |
| QueueManagers.QueueManager.FirstServes | edgehub/internal/scheduler/kueue_volcano.go:205-219 | the first queue with entries in a descending list of all queues is one that may serve |
| GangProtocol.RunKeepsInvariant | edgehub/internal/scheduler/kueue_volcano.go:358-444 | every interleaving keeps the bounds on jobs and rounds of every registration and the pod lists of every call |
| GangProtocol.RoundsAreBounded | edgehub/internal/scheduler/kueue_volcano.go:358-444 | in every interleaving at most MaxMember - max(1, MinMember) + 1 calls pass the gate for one registration |
| GangProtocol.RoundsBoundIsReached | edgehub/internal/scheduler/kueue_volcano.go:358-444 | for all 1 <= MinMember <= MaxMember some run has exactly that many rounds |
| GangProtocol.RoundsAfterStep | edgehub/internal/scheduler/kueue_volcano.go:418-432 | the count of rounds moves only when a gate is passed, by one |
| GangProtocol.AllOrNothing | edgehub/internal/scheduler/kueue_volcano.go:358-444 | a gang past pending has its quorum and at most MaxMember jobs; a finished call returned one pod a job of a prefix of the gang's jobs with the quorum in it |
| GangProtocol.JobsOnlyGrow | edgehub/internal/scheduler/kueue_volcano.go:367-371 | the list of jobs only grows at its end, by the accepted adds, and the limits never change |
| GangProtocol.BoundCoversAllJobsIff | edgehub/internal/scheduler/kueue_volcano.go:434-443 | after a call's last step its pods cover all the gang's jobs if and only if no add came between its reading of the list and its writing of the status |
| GangProtocol.UninterruptedCall | edgehub/internal/scheduler/kueue_volcano.go:418-444 | three uninterrupted steps bind the gang and return one pod for each job |
| GangProtocol.NoRoundWithoutAdd | edgehub/internal/scheduler/kueue_volcano.go:374-376 | a gang that is not ready passes no gate until another add is accepted |
| GangProtocol.FullGangIsFinal | edgehub/internal/scheduler/kueue_volcano.go:367-376 | a full gang that is not ready is never scheduled again, whatever is called |
| GangProtocol.SettledIsFinal | edgehub/internal/scheduler/kueue_volcano.go:358-444 | if no call for such a gang is under way, its calls and their pod lists are final |
| GangProtocol.PassesAgainIff | edgehub/internal/scheduler/kueue_volcano.go:358-444 | some continuation passes the gate once more if and only if the registration still has a name and is ready, or has room and a quorum within its limit |
| GangProtocol.LateBindStrandsJob | edgehub/internal/scheduler/kueue_volcano.go:431-440 | a reachable state in which a job is in no pod list of its gang, and is in none after any further calls |
| GangSchedulers.GangScheduler.RegisterGang | edgehub/internal/scheduler/kueue_volcano.go:338-356 | a new name gets a pending gang without jobs; a taken one is an error |
| GangSchedulers.GangScheduler.DeleteGang | edgehub/internal/scheduler/kueue_volcano.go:405-416 | forgets the gang; an unknown name is an error |
| GangSchedulers.GangScheduler.AddJobToGang | edgehub/internal/scheduler/kueue_volcano.go:358-379 | appends the job and sets ready at the quorum, unless the gang is unknown or full |
| GangProtocol.NamesStayDifferent | edgehub/internal/scheduler/kueue_volcano.go:338-356 | in every reachable state different names stand for different gangs |
| GangProtocol.ByNameAfterCall | edgehub/internal/scheduler/kueue_volcano.go:418-444 | a whole call, as a part of any run, binds the named gang, returns one pod a job and changes no other gang |
| GangSchedulers.GangScheduler.ScheduleGang | edgehub/internal/scheduler/kueue_volcano.go:418-444 | a ready gang is bound and one pod a job returned; the class invariant says that bound means every job is in the last pod list |
| QueuePass.TriedIff | edgehub/internal/scheduler/scheduler.go:108-116 | a pass tries exactly the jobs with fewer than Workers failures ahead of them |
| QueuePass.AttemptStep | edgehub/internal/scheduler/scheduler.go:109-115 | attempt n is made on the n-th job of the original queue; success deletes it in place, failure leaves it |
| QueuePass.LoopIsPass | edgehub/internal/scheduler/scheduler.go:108-116 | the loop with its step back computes the pass, from any point of it, and terminates |
| QueuePass.PassConservesJobs | edgehub/internal/scheduler/scheduler.go:106-118 | the queue before is the queue after plus the jobs scheduled |
| QueuePass.PassSplitsQueue | edgehub/internal/scheduler/scheduler.go:106-118 | a pass leaves the failed jobs in order, then the untried ones; at most Workers fail, and exactly that many if any job is untried |
| QueuePass.RunConservesJobs | edgehub/internal/scheduler/scheduler.go:98-119 | over any run of enqueues and passes each job is scheduled once or still queued |
| QueuePass.FailingHeadBlocksAll | edgehub/internal/scheduler/scheduler.go:108-113 | while the first Workers jobs fail, no pass schedules or reorders anything |
| PassArrivals.WithAllAppends | edgehub/internal/scheduler/scheduler.go:382-402 | enqueuing a list of jobs appends to each queue its own, in order, and makes just the queues that are missing |
| PassArrivals.JobGoesWhereItSays | edgehub/internal/scheduler/scheduler.go:386-401 | a job that names a queue goes to that queue and to no other, one that names none to "default" |
| PassArrivals.ArrivalsKeepProgress | edgehub/internal/scheduler/scheduler.go:98-119 | arrivals at any point of a pass leave each queue with its one pass among its arrivals, made or still to come |
| PassArrivals.PassAmongArrivals | edgehub/internal/scheduler/scheduler.go:98-119 | a queue passed over holds what the pass made of it and of its first arrivals, followed by its other arrivals |
| PassArrivals.PassWithoutArrivals | edgehub/internal/scheduler/scheduler.go:98-119 | if nothing arrives, each queue is what the pass made of it, and no queue affects another |
| Schedulers.JobQueue.Process | edgehub/internal/scheduler/scheduler.go:107-117 | the inner loop leaves the queue as a pass is meant to, for every outcome of every attempt |
| Schedulers.Scheduler.ProcessQueues | edgehub/internal/scheduler/scheduler.go:98-119 | every queue there is at the start is passed over once, in any order and somewhere among the jobs that arrive in it meanwhile; queues made meanwhile hold their arrivals |
| Schedulers.Scheduler.EnqueueJob | edgehub/internal/scheduler/scheduler.go:382-402 | appends to the named queue, or the default one, which is made if missing |
| NodeChoice.IsNodeReady | edgehub/internal/scheduler/scheduler.go:174-181 | true exactly if the first Ready condition is true |
| NodeChoice.HasToleration | edgehub/internal/scheduler/scheduler.go:219-226 | true exactly if some toleration has the taint's key and its value or none |
| NodeChoice.MatchesRequirements | edgehub/internal/scheduler/scheduler.go:183-217 | true exactly if both requests fit and every NoSchedule taint is tolerated |
| NodeChoice.FirstReadyDecides | edgehub/internal/scheduler/scheduler.go:174-181 | the first Ready condition alone decides, whatever comes before or after it |
| NodeChoice.ExactFitIsEligible | edgehub/internal/scheduler/scheduler.go:183-207 | a ready node without taints is eligible if and only if it has no less than each amount asked for |
| NodeChoice.TaintedStaysEligibleIff | edgehub/internal/scheduler/scheduler.go:208-226 | one more taint keeps a node eligible if and only if it does not forbid scheduling or is tolerated with its value or with none |
| NodeChoice.ScoresBelowIff | edgehub/internal/scheduler/scheduler.go:233-235 | without a selector, b scores below a if and only if its whole CPUs more than a's, over 100, plus its whole bytes more, over 128 GiB, are above zero |
| NodeChoice.SelectorCosts | edgehub/internal/scheduler/scheduler.go:237-241 | each selector entry whose value names a label of the node costs ten, unless the label equals the selector's entry of that name |
| NodeChoice.SelectedLabelIsIgnored | edgehub/internal/scheduler/scheduler.go:237-241 | changing a label that is not among the selector's values, such as one it asks about, leaves the score as it is |
| NodeChoice.CalculateNodeScore | edgehub/internal/scheduler/scheduler.go:228-244 | the mean unused share plus ten points for each selector entry that mismatches, for every map order |
| NodeChoice.SelectNode | edgehub/internal/scheduler/scheduler.go:146-172 | returns the earliest eligible node of least score, and none exactly if none is eligible |
| NodeChoice.ChosenIsNotDominated | edgehub/internal/scheduler/scheduler.go:228-235 | without a selector, no eligible node has as much of both resources as the chosen one and more of one, in whole units |
| NodeChoice.LargerIsBetterIff | edgehub/internal/scheduler/scheduler.go:228-235 | a node with more of both resources scores better if and only if it has another number of whole units of one |
| NodeChoice.WholeBytesAreNotDominated | edgehub/internal/scheduler/scheduler.go:146-172 | with memory in whole bytes no eligible node is larger in both than the chosen one |
| NodeChoice.LargerNodeLosesOnlyToRounding | edgehub/internal/scheduler/scheduler.go:233-235 | an eligible node with more of both loses only to an earlier node with the same whole units |
| NodeChoice.RoundingHidesLargerNode | edgehub/internal/scheduler/scheduler.go:233-235 | with fractions of a byte, an input on which that happens |
| PriceStatistics.Low | edgehub/internal/market/engine.go:81-83 | the least of a list of prices |
| PriceStatistics.High | edgehub/internal/market/engine.go:84-86 | the greatest of a list of prices |
| PriceStatistics.ZeroMinIsLowIff | edgehub/internal/market/engine.go:91-104 | the running window minimum is the true one if and only if that is not zero or the last price is zero |
| PriceStatistics.ZeroMaxIsHighIff | edgehub/internal/market/engine.go:84-107 | the running maximum is the greater of 0 and the true one |
| PriceStatistics.WindowIsExactIff | edgehub/internal/market/engine.go:88-134 | a window's snapshot is the true one if and only if the least price is not zero or the last one is, and some price is not negative |
| PriceStatistics.FreeOfferIsForgotten | edgehub/internal/market/engine.go:91-104 | a window of 0 and then 5 reports a minimum of 5 |
| PriceStatistics.NegativePricesPeakAtZero | edgehub/internal/market/engine.go:84-107 | a window of one negative price reports a maximum of 0 |
| PriceStatistics.MaxFloatMinIsLow | edgehub/internal/market/engine.go:57-83 | the all-time minimum is the true one below the largest float |
| PriceStatistics.WindowsNest | edgehub/internal/market/engine.go:88-99 | a later cut-off takes prices away and adds none |
| PriceStatistics.ScanIsExact | edgehub/internal/market/engine.go:54-143 | for positive prices the statistics of all three windows are the true average, minimum, maximum and count of the filtered records |
| PriceStatistics.WindowsAreConsistent | edgehub/internal/market/engine.go:111-134 | min <= avg <= max in each window; narrower windows have fewer records, higher minima and lower maxima |
| PriceStatistics.LastNAppend | edgehub/internal/market/engine.go:47-52 | truncating after each append keeps the last n of everything appended |
| PriceMeaning.RecordCountsIff | edgehub/internal/market/engine.go:73-159 | one more record adds its price to a window if and only if it is recent enough and each resource asked for reaches its threshold (the whole part of 0.8 of the CPUs, of half the GPUs, of half the memory); a resource not asked for excludes nothing |
| PriceMeaning.OtherRecordsChangeNothing | edgehub/internal/market/engine.go:54-159 | a record without the resources changes no statistic; one of a day (a week) ago or more does not change those of the day (the week) |
| PriceMeaning.AverageMoves | edgehub/internal/market/engine.go:111-134 | one more price moves an average over n to that over n + 1 |
| PriceAdvice.AdviceOfPrices | edgehub/internal/market/engine.go:196-240 | for positive prices with a match, the unrounded price is the average times a supply factor and the multipliers of the request |
| PriceMeaning.TrendIff | edgehub/internal/market/engine.go:173-195 | prices rise if and only if ten times the day's average is above eleven times the week's, and fall if and only if it is below nine times; confidence is 0.5 plus a thousandth for each price of the week, at most 0.9 |
| PriceMeaning.NoFallFromBelow | edgehub/internal/market/engine.go:173-191 | if no price of the last day is below an older one of the week, the trend is not falling |
| PriceMeaning.RequestMultiplies | edgehub/internal/market/engine.go:222-240 | g GPUs multiply the price by 1 + g/2, and a duration of 60 or more by 0.85 |
| PriceMeaning.PriceOfRecords | edgehub/internal/market/engine.go:196-240 | the base is 0.9 of the average if the lowest price is below 0.7 of it, else 1.1 of it if the highest is above 1.3 of it, else the average |
| PriceMeaning.FactorsOfRecords | edgehub/internal/market/engine.go:173-240 | each factor is given in exactly its case, with its weight and impact |
| PriceAdvice.AdviceIsBounded | edgehub/internal/market/engine.go:161-240 | that price stays within a tenth of any range holding the prices, under the multipliers; the supply factor is 0.9, 1 or 1.1; confidence is between 0.5 and 0.9 |
| PriceAdvice.ScanScales | edgehub/internal/market/engine.go:54-143 | multiplying every record price by k > 0 multiplies every statistic by k |
| PriceAdvice.JudgementIgnoresScale | edgehub/internal/market/engine.go:169-213 | scaled statistics give the same trend, confidence, supply factor and factors |
| PriceAdvice.PriceScalesIff | edgehub/internal/market/engine.go:215-240 | the unrounded price scales if and only if there is an average to scale (or k is 1) |
| PriceAdvice.AdviceIsScaleInvariant | edgehub/internal/market/engine.go:54-248 | for positive prices: trend, confidence and factors do not depend on the unit of price, and the unrounded price scales if and only if some record matches (or k is 1) |
| PriceAggregators.PriceAggregator.AddRecord | edgehub/internal/market/engine.go:47-52 | keeps the last 10000 records |
| PriceAggregators.PriceAggregator.GetPriceInfo | edgehub/internal/market/engine.go:54-143 | the single loop computes what filtering to each window and aggregating computes |
| PriceAggregators.PriceAggregator.AddToWindow | edgehub/internal/market/engine.go:88-97 | one more price moves a window's sum, count, minimum and maximum |
| PriceAggregators.PriceAggregator.GetRecommendation | edgehub/internal/market/engine.go:161-248 | returns the advice on the statistics, its price rounded to two decimals |
| MarketLedger.RunIsConsistent | edgehub/internal/market/market.go:198-305 | in every reachable state all orders are fulfilled, there is one log entry an order, the orders' amounts sum to the log's price times volume, and the window holds the last 10000 entries |
| MarketLedger.StatsMatchLog | edgehub/internal/market/market.go:329-359 | orders = fulfilled orders = length of the log, and total volume = volume of the log |
| MarketLedger.StockIsConserved | edgehub/internal/market/market.go:162-305 | over any run an offer's stock is what was last set less what was sold since |
| MarketLedger.StockStaysNonNegative | edgehub/internal/market/market.go:210-212 | stock is never negative unless set so, whatever quantities are ordered |
| MarketLedger.ActiveOffersHaveStock | edgehub/internal/market/market.go:284-287 | if none is listed or restocked at nothing, every active offer has something to sell |
| MarketLedger.OfferPricesBoundAdvice | edgehub/internal/market/market.go:99-327 | if every price set by an offer or an update lies in a range of positive floats, then in every reachable state the statistics are the true ones, within the range, and the recommended price within a tenth of it |
| MarketLedger.SoldIsFinal | edgehub/internal/market/market.go:207-209 | once sold, an offer stays sold or is deleted and takes no order in any later state |
| MarketSales.OrderIsAcceptedIff | edgehub/internal/market/market.go:198-305 | in every reachable state an order is filed if and only if its offer is listed, active and has the quantity; then it is fulfilled at the offer's price times the quantity, the stock taken, the offer sold if nothing is left and the price logged, and otherwise nothing changes |
| MarketSales.OfferServesAll | edgehub/internal/market/market.go:198-305 | an active offer of n units serves every list of orders that add up to at most n, and is sold if and only if they add up to n |
| MarketSales.StatsAfterOffer | edgehub/internal/market/market.go:329-359 | a new offer adds one to the offers and one to the active ones |
| MarketServices.MarketService.CreateOffer | edgehub/internal/market/market.go:99-115 | files the offer as active under the new identifier, valid for a week if no end is set |
| MarketServices.MarketService.UpdateOffer | edgehub/internal/market/market.go:162-183 | changes price, stock and end of validity as given, and never the status |
| MarketServices.MarketService.DeleteOffer | edgehub/internal/market/market.go:185-196 | removes the offer; an unknown one is an error |
| MarketServices.MarketService.CreateOrder | edgehub/internal/market/market.go:198-231 | succeeds exactly if the offer is known, active and has the stock; then the order is fulfilled, the stock taken and the price logged; else nothing changes |
| MarketServices.MarketService.MatchOrder | edgehub/internal/market/market.go:278-305 | takes the quantity from the stock, closes an offer sold out, fulfils the order and logs the price in both logs |
| MarketServices.MarketService.CancelOrder | edgehub/internal/market/market.go:258-276 | never succeeds, because every stored order is fulfilled |
| MarketServices.MarketService.GetMarketStats | edgehub/internal/market/market.go:329-359 | counts and sums over the maps, for every order of them |
| BillLedger.AmountIsWithinCost | edgehub/internal/billing/billing.go:113-130 | an amount is at most the plain cost, and not negative if and only if the discount is at most 100 or there is no cost |
| BillLedger.HighDiscountGoesBelowZero | edgehub/internal/billing/billing.go:125-127 | a discount of 150 on a cost of 100 gives -50 |
| BillAmounts.OneResource | edgehub/internal/billing/billing.go:113-122 | a resource used alone and without discount costs its usage times its own unit price, for each of the five |
| BillAmounts.UsagesAddUp | edgehub/internal/billing/billing.go:113-122 | two usages on one bill cost what they cost on two |
| BillAmounts.DiscountTakesPercent | edgehub/internal/billing/billing.go:125-127 | a discount d above 0 leaves (100 - d)/100 of the amount, any other leaves all of it |
| BillAmounts.UpdatedBill | edgehub/internal/billing/billing.go:168-194 | an updated bill comes to what a new bill with its usage and discount would at its own unit prices |
| BillAmounts.OneMoreBill | edgehub/internal/billing/billing.go:237-288 | one more bill adds its amount, usage and count to exactly the summaries that ask for its tenant and instant, as paid or pending by its status |
| BillAmounts.CancellingKeepsTotal | edgehub/internal/billing/billing.go:218-269 | cancelling a pending bill takes its amount out of what is pending and leaves the total |
| BillLedger.BillsStayPriced | edgehub/internal/billing/billing.go:90-330 | through any run every bill's amount is what its usage and discount come to at the unit prices in force when it was created |
| BillLedger.TotalSplitsByStatus | edgehub/internal/billing/billing.go:251-258 | total = paid + pending + rest |
| BillLedger.AdjacentPeriodsAddUp | edgehub/internal/billing/billing.go:277-284 | periods that meet without overlap add up to the whole |
| BillLedger.TouchingPeriodsCountTwice | edgehub/internal/billing/billing.go:278-283 | periods sharing an instant count the bills of that instant twice |
| BillLedger.TouchingPeriodsAddUpIff | edgehub/internal/billing/billing.go:277-284 | they add up to the whole if and only if no bill of the tenant was created at that instant |
| BillLedger.AllTenantsIsSumOfTenants | edgehub/internal/billing/billing.go:271-276 | the all-tenant summary is the sum of the tenants' own, if no bill has the nil tenant |
| BillLedger.PayingMovesAmount | edgehub/internal/billing/billing.go:196-269 | paying a pending bill moves exactly its amount from pending to paid in every summary that selects it and changes nothing else |
| BillLedger.ListingsSumAlike | edgehub/internal/billing/billing.go:251-266 | every order of listing the bills gives the same sums |
| BillingServices.BillingService.CreateBill | edgehub/internal/billing/billing.go:90-111 | files the bill as pending, under its own identifier or a new one, at what the price object says at that time |
| BillingServices.BillingService.UpdateBill | edgehub/internal/billing/billing.go:168-194 | changes what is given and recomputes the amount at the bill's own prices |
| BillingServices.BillingService.PayBill | edgehub/internal/billing/billing.go:196-216 | any known bill not yet paid becomes paid |
| BillingServices.BillingService.CancelBill | edgehub/internal/billing/billing.go:218-235 | any known bill not paid becomes cancelled |
| BillingServices.BillingService.UpdatePrices | edgehub/internal/billing/billing.go:322-330 | keeps the price object it is given and touches no bill |
| BillingServices.BillingService.FilterBills | edgehub/internal/billing/billing.go:271-288 | lists exactly the bills of the tenant and period, each once |
| BillingServices.BillingService.GetBillingSummary | edgehub/internal/billing/billing.go:237-269 | the sums over the selected bills, for every order of the map |
| ReplicaShares.DistinctNamesAllot | edgehub/internal/federation/karmada.go:211-217 | with distinct names every cluster gets its share |
| ReplicaShares.DistributionIsExactIff | edgehub/internal/federation/karmada.go:208-217 | the shares add up to the replicas if and only if these are not negative or divide evenly |
| ReplicaShares.NegativeRemainderIsDropped | edgehub/internal/federation/karmada.go:208-217 | minus one replica over two clusters gives each none |
| ReplicaShares.SharesAreBalanced | edgehub/internal/federation/karmada.go:208-217 | any two shares differ by at most one, and are equal if the replicas are negative |
| ReplicaShares.DistributionIsOptimal | edgehub/internal/federation/karmada.go:208-217 | no other split of the replicas has a smaller maximum or a larger minimum |
| ReplicaShares.OneMoreReplica | edgehub/internal/federation/karmada.go:208-217 | one more replica goes to the cluster at index replicas mod n and to no other |
| WorkloadDistributions.WorkloadDistribution.constructor | edgehub/internal/federation/karmada.go:197-220 | every cluster is allotted its 32-bit share without overflow; of clusters with one name the last decides |
| ReplicaShares.LastOfNameDecides | edgehub/internal/federation/karmada.go:211-217 | of clusters with one name the last listed decides the share |
| BenchmarkServices.BenchmarkService.SortScores | edgehub/internal/benchmark/benchmark.go:272-283 | the exchange sort yields every score once, by descending value |
| Listings.SortDescending | edgehub/internal/benchmark/benchmark.go:277-283 | the exchange sort yields a descending permutation, and leaves a descending list as it is, so ties may come in any order |
| NodeRanks.PositionsRank | edgehub/internal/benchmark/benchmark.go:285-287 | positions in any descending order of the nodes are ranks 1 to n, one each, better scores first |
| NodeRanks.NoTiesNoRace | edgehub/internal/benchmark/benchmark.go:268-287 | without ties, any number of rankings at once, interleaved in any way, leave the nodes ranked |
| NodeRanks.TieRaces | edgehub/internal/benchmark/benchmark.go:268-287 | with a tie, two rankings can interleave so that two nodes end with one rank |
| NodeRanks.RankingsRaceIff | edgehub/internal/benchmark/benchmark.go:268-287 | every interleaving of rankings ends with the nodes ranked if and only if no two scores tie |
| BenchmarkServices.BenchmarkService.GetNodeRanking | edgehub/internal/benchmark/benchmark.go:268-294 | ranks are 1 to n, one each, better scores first; the best `limit` are returned and no node left out scores above one returned |
| BenchmarkServices.BenchmarkService.ListResults | edgehub/internal/benchmark/benchmark.go:240-255 | lists exactly the results of the node and kind, each once |
| BenchmarkServices.BenchmarkService.GetCompositeScore | edgehub/internal/benchmark/benchmark.go:296-331 | the rounded weighted mean of the node's completed results, for every order of the map; no results is an error |
| CompositeScores.TotalIsBetween | edgehub/internal/benchmark/benchmark.go:317-324 | the weighted total lies between the extreme scores times the total weight |
| CompositeScores.CompositeIsAMean | edgehub/internal/benchmark/benchmark.go:326-330 | the score is within 0.005 of a value between the smallest and largest completed score that carries a weight, and 0 if there is none |
| CompositeScores.OneMoreListed | edgehub/internal/benchmark/benchmark.go:240-255 | a result is listed with those of its own node and kind, or of all, and with no others |
| CompositeScores.OneMoreResult | edgehub/internal/benchmark/benchmark.go:309-324 | a completed result adds its score by what its kind weighs (CPU 0.25, GPU 0.30, memory, network and storage 0.15 each); any other adds nothing |
| CompositeScores.CompositeOfTwo | edgehub/internal/benchmark/benchmark.go:317-330 | two completed results come to the rounded mean of their scores by those weights |
| Common.RoundsToNearestWhole | edgehub/internal/benchmark/benchmark.go:330 | rounds to the nearest whole number, from halfway away from zero |
| Common.TwoDecimalsAreNearest | edgehub/internal/benchmark/benchmark.go:330 | the rounded score is a whole number of hundredths, within 0.005 |

## Left out

- Rounding of floating-point numbers and races below sequential consistency: sums and products are exact reals.
- Integer overflow of counters and priorities; the 32-bit replica counts are checked.
- HTTP handlers, middleware, the command line, the web pages, configuration, and the Kubernetes, Redis and database clients.
- edgehub/internal/service: its behaviour is in SQL.
- Building pods, volumes and environments, and parsing quantities: a pod names its job and its gang, quantities are numbers.
- The monitoring package: its rule evaluation is a stub.
- ListOffers, ListOrders, ListBills, exports and queue metrics, which only filter or print what is modelled.
- RunBenchmark, executeBenchmark and the score formulas: they fill the two maps by plain field writes; ranking and composite scores are proved for every content of those maps.
- The karmada registry of clusters and policies: plain map insertions and look-ups.
- Fields no modelled operation reads: weights, time limits and cluster hints of queues, a gang's count of scheduled jobs, provider and duration limits of offers, descriptions of bills.
- Writes by callers through the objects that Get methods return, but for the price object.
