# Chronomq in Dafny

A model of the core of Chronomq, the scheduler that holds jobs until their trigger time, and proofs of what it keeps,
what it promises, and where it breaks the promise.

## What is modelled

**The hub.** Jobs live in spokes: a past spoke, one current spoke, and a heap of waiting spokes, with a map over the
current and the waiting ones, a cuckoo filter of ids in front, and counters beside. The model is built in layers.

| layer | files | what it is |
|---|---|---|
| time | `Temporal.dfy` | half-open intervals and buckets; an instant is an integer number of nanoseconds since the zero time |
| heap | `Queue.dfy`, `ContainerHeap.dfy` | the slice of items that store their own slot, and the algorithms of Go's `container/heap` on it |
| spoke | `SpokeModel.dfy`, `Spoke.dfy` | the class with its map and its heap, tied to a value (`SpokeView`) |
| hub, as code | `Hub.dfy` | the class with all its redundant state, tied to a value (`HubView`) by `Valid()` |
| hub, as a machine | `HubModel.dfy` | the operations as steps between such values, and runs of steps |
| hub, in plain terms | `HubPlain.dfy` | what each operation does, said of the fields alone and in plain numbers |
| properties | `HubInvariants`, `HubRuns`, `HubFilter`, `HubFlat`, `HubCover`, `HubRefinement`, `HubOrder`, `HubNil`, `HubDrain`, `HubCollision` | lemmas over steps and runs |
| calls | `HubClient.dfy` | sequences of calls of the class, as runs of the machine |
| persistence | `Job.dfy`, `Persistence.dfy`, `HubSweep.dfy`, `HubRestore.dfy`, `HubRecovery.dfy` | the record format, persisting, restoring, and both together |
| inspection | `HubInspect.dfy`, `HubOvershoot.dfy` | what `GetNJobs` promises, and when it lists too many |
| monitor | `Monitor.dfy`, `MonitorProtocol.dfy`, `MonitorProgress.dfy`, `MonitorBound.dfy` | word arithmetic and watermarks; the lock, the condition variable and the atomic counter as interleaved steps; that they come to rest, and how far the account goes |
| server | `Accounting.dfy`, `Server.dfy`, `ServerProtocol.dfy` | what putting, taking and restoring jobs does to the account: along runs of the hub, in the class, and with all steps interleaved |
| sums | `Sums.dfy` | sums over finite sets |

Each method of the class `Hub` states its whole effect as a step of the machine: `AddJobLocked` ends in `AfterAdd`,
`CancelJobLocked` in `CancelStep`, `NextLocked` in `NextStep`. What is proved about runs of the machine is therefore
proved about sequences of calls: `HubClient.PerformAll` performs them on a hub and yields the run, and
`HubClient.PerformFromNew` states the main results for a hub of the class. Add, Cancel and Next hold the hub lock for
their whole body, which makes each of them one step. The clock is a parameter, read as often as the code reads it
(once by Add, three times by Next), and never goes back along a run. The filter is a multiset of signatures under an
arbitrary function from ids to signatures, so collisions are part of the model. A run takes adds, cancels and nexts in
any order.

Ghost state in the classes: `view` is the value the object stands for, `Repr` its objects, `parts` the spokes, and
`keeper` in an item the queue it was made for, which keeps the objects of different spokes apart.

## What comes out

* Whatever state the hub is in, Next, Add and Cancel do to its fields what the plain statements of `HubPlain` say.
* Without any assumption on the filter, the jobs taken in are at every moment the jobs handed out plus the jobs queued,
  and the counters say so (`HubRuns.Conservation`, `HubRuns.CountersAddUp`).
* As long as no operation takes out the last filter entry of a signature that another live id needs, the hub is a flat
  map from ids to jobs (`HubRefinement.RunIsFlat`). Exactly such an operation leaves a false negative, whatever has
  happened to the filter before (`HubCover.UsableIff`).
* Next respects the order of triggers outside the past spoke if and only if no waiting spoke with jobs starts before
  the one it serves (`HubOrder.OrderIff`). It does so along every run, from the start and again from every pin on,
  until an add undercuts, that is, brings in a job due before the current spoke starts (`HubOrder.TriggerOrder`);
  exactly such adds take away the lead of the current spoke, and exactly pinning gives it back
  (`HubOrder.CurrentFirstIff`). It respects one order of all jobs if besides no add overtakes, that is, puts a job
  into the past spoke while one due earlier waits elsewhere (`HubOrder.OneOrder`); exactly such adds break that order
  (`HubOrder.PastFirstIff`).
* Once everything is over and nothing is added, Next empties the hub in as many calls as there are jobs and waiting
  spokes, whatever is cancelled meanwhile (`HubDrain.EventualDelivery`), and in order (`HubDrain.DrainSorts`).
* Restoring any records at all counts each of them once, those that cannot be decoded among the errors, and adds the
  first job of each new id that can be taken (`HubRestore.EveryRecordCounts`, `HubRestore.RestoredIs`). A hub restored
  from the records of another has the same jobs if and only if every trigger fits into Unix nanoseconds and is taken at
  the time of restoring (`HubRestore.RoundTrip`, `HubRecovery.Recover`).
* A step of the memory monitor loses a wakeup if and only if it strands a sleeper: by an increment that wraps round, by
  an underflow found below the recovery mark, or by the reset after one (`MonitorProtocol.KeepsWakeupsIff`). While
  decrements match increments none is lost (`MonitorProtocol.NoWakeupIsLost`), and a waiting goroutine is never more
  than five steps from being notified (`MonitorProtocol.WakeupArrives`). When nothing inside the monitor can move,
  everybody is outside, or asleep with the account at the recovery mark or above (`MonitorProtocol.RestMeansFull`).
* A goroutine gets out of `Fence` only when it has just found the account below the watermark
  (`MonitorProtocol.LeavesBelowWatermark`). If every charge follows a passed `Fence` and nothing is overdrawn, the
  account stays below the watermark and one charge for each goroutine (`MonitorBound.FenceBounds`). Every step inside
  the monitor decreases a measure, so that without new calls every schedule ends, and then nobody sleeps below the
  recovery mark (`MonitorProgress.StepDescends`, `MonitorProgress.RestWakesAll`).
* In every interleaving of requests with each other and with the restoring of jobs, until the account is reset after
  an underflow, it changes as the memory of the jobs in the hub, of those refused, and of those on their way, without
  those restored or not yet charged, all modulo 2^64 (`ServerProtocol.AccountIsDue`). Within a
  tebibyte either way, a `Decrement` finds an underflow exactly if less than nothing is then due
  (`ServerProtocol.UnderflowIff`); where jobs are
  charged first and none is restored, less than nothing is never due (`ServerProtocol.ChargedNeverUnderflows`).

## Where code and documentation disagree

The model follows the code.

* `README.md:23-24` and `pkg/chronomq/hub.go:50` promise one order by trigger and a current spoke that has started.
  `Spoke.AsTemporalState` never answers Future (`pkg/chronomq/spoke.go:78-87`), so a spoke may be pinned before it
  starts, which happens exactly when Next has to pin one and none has started (`HubOrder.StartedIff`,
  `HubOrder.PromotesStartedIff`). An earlier job added after that waits behind it (`HubOrder.PinnedTooEarly`). Jobs of
  the past spoke always go first, even if they are due later than others (`HubOrder.PastOvertakes`).
  `HubOrder.OrderOfAllIff` says exactly when a call of Next keeps the promise of one order.
* `pkg/chronomq/hub.go:126` says the filter has no false negatives, and line 118 that cancelling an unknown id does
  nothing. A cancel that passes the filter by collision takes a signature out, after which a live job can be added a
  second time (`HubRefinement.CollisionAdmitsDuplicate`), or a later cancel of one job can leave another without an
  entry, so that it cannot be cancelled any more (`HubCollision.TrueCancelUncovers`).
* `pkg/chronomq/hub.go:508` promises up to N jobs. Every spoke with jobs adds at least one once the past spoke is not
  enough; a listing of one job from two buckets has two (`HubOvershoot.TwoForOne`). Some order of the map exceeds N if
  and only if the past spoke is not enough and a spoke with jobs can be left out with N jobs remaining
  (`HubOvershoot.ExceedsIff`).
* `internal/monitor/memory.go:23-24` places the recovery mark below the watermark. That is so from 1024 bytes on;
  below, the two are equal (`Monitor.RecoveryBelow`).
* `internal/monitor/memory.go:28` asks for an `Increment` for every job, and line 31 for a `Decrement` when it is given
  up. Jobs restored at the start (`pkg/chronomq/hub.go:83-89`) are never charged, so that handing out the only one makes
  the monitor panic (`Accounting.RestoredJobPanics`; in general exactly when less than nothing is due,
  `Accounting.PanicsIff`). The servers charge a job whether the hub takes it or not, and never take a refused one off
  (`pkg/protocol/grpcserver.go:33-34`): with an empty hub the account is zero if and only if the jobs refused weigh as
  much as those that were there uncharged at first (`Accounting.EmptyAccountIff`).
* `pkg/protocol/rpcserver.go:43` charges a job only after it is in the hub, so that it can be taken off before. That is
  harmless if and only if the account already holds as much; otherwise the monitor panics, and the job stays charged
  (`Accounting.ChargeFirstIff`, `ServerProtocol.DeferredUnderflows`).
* A `Decrement` that panics sets the account to zero and notifies nobody; a goroutine asleep in `Fence` stays asleep
  (`MonitorProtocol.UnderflowLosesWakeup`).

## Model

| member | source | states |
|---|---|---|
| Temporal.BoundOfContains | pkg/chronomq/job.go:99-105 | the bucket of an instant contains it exactly when the span is positive, and is then aligned |
| Temporal.AlignedApart | pkg/chronomq/job.go:99-105 | two buckets of one span are equal or lie end to start |
| Temporal.AlignedUnique | internal/temporal/bound.go:33-36 | an aligned bucket contains an instant exactly when it is the bucket of that instant |
| Temporal.BoundOfMonotone | pkg/chronomq/job.go:99-105 | buckets are monotone in the trigger: the same one, or a later one that starts no earlier than the first ends |
| Queue.PriorityQueue.SlotOf | internal/queue/priorityQueue.go:11-12 | in an indexed queue the stored index of an item leads back to the item |
| Queue.PriorityQueue.Swap | internal/queue/priorityQueue.go:51-55 | exchanges two slots, keeps the items as a multiset and every stored index equal to its slot |
| Queue.PriorityQueue.Push | internal/queue/priorityQueue.go:57-63 | appends the item and stores its slot in it |
| Queue.PriorityQueue.Pop | internal/queue/priorityQueue.go:65-76 | cuts off the last item and marks it with index -1 |
| ContainerHeap.RootIsLeast | internal/queue/priorityQueue.go:43-48 | no item of a heap has a smaller priority than the root |
| ContainerHeap.Up | internal/queue/priorityQueue.go:50-55 | sifting up repairs a heap that is wrong only above one slot, with indices and items kept |
| ContainerHeap.Down | internal/queue/priorityQueue.go:50-55 | sifting down repairs the heap below a slot, reports whether it moved anything, and does not move an item that is in order |
| ContainerHeap.Init | pkg/chronomq/hub.go:249-250 | makes a heap of the same items; on a heap it changes nothing, so that the repair in next is harmless |
| ContainerHeap.Push | pkg/chronomq/hub.go:188 | keeps heap and indices, and adds exactly the one item |
| ContainerHeap.Pop | pkg/chronomq/hub.go:267-268 | keeps heap and indices, and takes out exactly the root, a least item |
| ContainerHeap.Remove | pkg/chronomq/spoke.go:135-138 | keeps heap and indices, and takes out exactly the item in the given slot, wherever it is |
| SpokeModel.InsertAgreesIff | pkg/chronomq/spoke.go:98-101 | adding keeps map and queue of a spoke in agreement exactly when the id is new to the map |
| SpokeModel.TakeAgrees | pkg/chronomq/spoke.go:122-125 | taking a queued job keeps map and queue in agreement |
| Spokes.Spoke.constructor | pkg/chronomq/spoke.go:42-50 | a valid empty spoke of the given bound |
| Spokes.Spoke.AddJobLocked | pkg/chronomq/spoke.go:89-102 | accepts exactly the jobs inside the bound; queues the job and lets the map find it |
| Spokes.Spoke.NextLocked | pkg/chronomq/spoke.go:104-128 | hands out and unregisters a job of least trigger if that trigger is reached, and otherwise nothing is due |
| Spokes.Spoke.CancelJobLocked | pkg/chronomq/spoke.go:130-142 | removes precisely the job the map finds under the id, or changes nothing |
| Spokes.Spoke.Unlink | pkg/chronomq/spoke.go:135-138 | the slot an item remembers takes that very item out of map and queue |
| Spokes.Spoke.OwnsIsIndexed | pkg/chronomq/spoke.go:144-151 | the spoke owns an id exactly when its view finds it |
| Spokes.Spoke.LenIsPending | pkg/chronomq/spoke.go:153-156 | the pending length is the number of queued jobs |
| Spokes.Spoke.AsPriorityItem | pkg/chronomq/spoke.go:163-166 | a new item for the spoke, with the start of the spoke as its priority |
| Spokes.Spoke.PersistLocked | pkg/chronomq/spoke.go:168-189 | offers every job once, in slot order, and counts those that could not be written |
| Hubs.Hub.constructor | pkg/chronomq/hub.go:60-76 | a valid empty hub whose past spoke reaches a hundred years of 365 days back and ahead |
| Hubs.Hub.FindOwnerSpoke | pkg/chronomq/hub.go:164-182 | the first owner of the id in the order past, current, map; none exactly when no spoke knows the id |
| Hubs.Hub.AddSpoke | pkg/chronomq/hub.go:184-189 | the new spoke is in map and heap, is shown as waiting and is counted |
| Hubs.Hub.DropExpired | pkg/chronomq/hub.go:233-245 | the current spoke leaves map and hub exactly when it is empty and the clock is past the end of its bound |
| Hubs.Hub.FixHeap | pkg/chronomq/hub.go:249-250 | re-establishing the heap of spokes moves no spoke |
| Hubs.Hub.PinNext | pkg/chronomq/hub.go:247-270 | a new current spoke is pinned exactly if a spoke is waiting, started or not |
| Hubs.Hub.Pin | pkg/chronomq/hub.go:257-269 | a waiting spoke of earliest start becomes the current one, leaves the heap and stays in the map |
| Hubs.Hub.CancelJob | pkg/chronomq/hub.go:146-162 | removes the job from its owner and counts it; without an owner nothing changes and there is no error |
| Hubs.Hub.CancelJobLocked | pkg/chronomq/hub.go:118-144 | exactly the cancel step of the machine, deleting from the filter even on a miss |
| Hubs.Hub.Next | pkg/chronomq/hub.go:210-291 | past spoke first, then the current one, which is dropped if empty and expired and replaced by the earliest waiting one |
| Hubs.Hub.NextLocked | pkg/chronomq/hub.go:197-209 | exactly the next step of the machine |
| Hubs.Hub.AddJob | pkg/chronomq/hub.go:334-390 | places the job in the spoke the machine chooses, or nowhere without any change |
| Hubs.Hub.AddJobLocked | pkg/chronomq/hub.go:306-332 | exactly the add step of the machine, with its answer |
| Hubs.Hub.PersistLocked | pkg/chronomq/hub.go:428-469 | offers every job of the hub as often as it is queued, slot by slot of the waiting spokes, then of the past one, then of the current one; counts the failures, leaves the hub alone and finalizes |
| Hubs.Hub.Restore | pkg/chronomq/hub.go:471-506 | fails without any change if there is nothing to recover from; otherwise the effect of adding all decodable records in turn, with every record counted once and as many decode errors as records that cannot be decoded, and ok exactly if there were no errors |
| Hubs.Hub.GetNJobs | pkg/chronomq/hub.go:508-551 | lists jobs of the past spoke first, as many as are wanted or there are, and only if these are not enough then from every other spoke, in some order, its share; all of them if so many are wanted, and more than n only if a spoke with jobs can be left out with n jobs remaining |
| HubPlain.NextFromPast | pkg/chronomq/hub.go:216-229 | with a trigger of the past spoke reached at the first reading of the clock, Next takes a least job from there and leaves the other spokes alone |
| HubPlain.NextFromKept | pkg/chronomq/hub.go:233-286 | otherwise, with a current spoke that has jobs or whose end the second reading is not past, Next takes a least job from there, exactly if one is reached at the third reading |
| HubPlain.NextFromWaiting | pkg/chronomq/hub.go:233-286 | otherwise a waiting spoke of earliest start becomes the current one, and Next takes a least job from there, exactly if one is reached at the third reading |
| HubPlain.NextFromNothing | pkg/chronomq/hub.go:233-256 | without waiting spokes there is then no current spoke and no answer |
| HubPlain.KeptIff | pkg/chronomq/hub.go:233-245 | the current spoke survives a Next exactly if a past job is due, or it has jobs, or the clock is not past its end |
| HubPlain.AddToPast | pkg/chronomq/hub.go:334-344 | an accepted job whose trigger is reached is queued in the past spoke and found there by its id |
| HubPlain.AddToBucket | pkg/chronomq/hub.go:345-384 | any other accepted job is queued in the spoke of its bucket, the current one, a waiting one or a new one, and no other spoke changes |
| HubPlain.AddCounts | pkg/chronomq/hub.go:306-332 | an add that is not accepted changes nothing, an accepted one enters the id into the filter, and a duplicate is an id that passes the filter and is known to a spoke |
| HubPlain.AcceptedWithinCenturies | pkg/chronomq/hub.go:334-344 | in every run from a new hub, while the filter has no false negatives, a new job is accepted exactly if it is late by the clock and due within 3153600000000000000 nanoseconds of the making of the hub, or ahead of time and the span is positive |
| HubPlain.CancelFilters | pkg/chronomq/hub.go:118-144 | a cancel that does not pass the filter does nothing; one that does takes one entry out of it, and answers with a job exactly if some spoke knows the id |
| HubPlain.CancelPrefers | pkg/chronomq/hub.go:164-182 | even if several spokes know the id, the job of the past spoke goes first, then that of the current one, then one of a waiting one, and no other spoke changes |
| HubInvariants.PlaceAccepts | pkg/chronomq/hub.go:334-390 | a job has a place exactly if its trigger lies ahead and the span is positive, or lies within the past spoke |
| HubInvariants.FastPathIsSlowPath | pkg/chronomq/hub.go:345-372 | for a future job the way through the current spoke ends where the lookup of the truncated bound ends |
| HubInvariants.PlaceTarget | pkg/chronomq/hub.go:334-385 | placing is inserting into one target spoke, or into one new spoke, and nothing else |
| HubInvariants.StepKeeps | pkg/chronomq/hub.go:118-390 | every operation keeps spokes keyed by their own aligned bounds with jobs inside, keeps the counters true, and changes the queued jobs by exactly what it takes in or hands out |
| HubRuns.ReachableShape | pkg/chronomq/hub.go:42-56 | every reachable hub has that shape and those counters, and the past spoke it was made with |
| HubRuns.Conservation | pkg/chronomq/hub.go:118-390 | along every run, jobs taken in = jobs handed out + jobs queued, as multisets: nothing lost, nothing handed out too often |
| HubRuns.CountersAddUp | internal/stats/hubStats.go:14-18 | along every run the removed counter is the number of jobs handed out, and the current counter what was added minus that |
| HubRuns.ReachablePastDue | pkg/chronomq/hub.go:334-344 | jobs of the past spoke have always reached their trigger |
| HubRuns.NeverEarly | pkg/chronomq/spoke.go:117-126 | Next returns only queued jobs whose trigger is reached by its last look at the clock |
| HubFilter.FaithfulIff | pkg/chronomq/hub.go:118-144 | a filter that holds exactly the signatures of the queued jobs stays so if and only if the step is not a falsely positive cancel |
| HubFlat.PendingIsFlat | pkg/chronomq/spoke.go:22-23 | in an unambiguous hub the queued jobs are exactly the jobs found by id |
| HubFlat.StepIsFlat | pkg/chronomq/hub.go:118-390 | each step of a hub without false negatives is the step of a flat map: duplicate exactly if the id is there, cancel removes exactly the named job, next removes one due job |
| HubCover.UsableIff | pkg/chronomq/hub.go:118-208 | a step leaves the filter with a false negative if and only if it takes out the last entry of a signature that another live id needs, whatever else the filter holds |
| HubCover.SoundIff | pkg/chronomq/hub.go:118-144 | a hub whose filter holds exactly the signatures of its jobs stays so if and only if the step is not a falsely positive cancel |
| HubCover.SoundUncoversIff | pkg/chronomq/hub.go:126-137 | from such a hub a step leaves a false negative if and only if it is a falsely positive cancel of a signature with a single entry |
| HubCollision.TrueCancelUncovers | pkg/chronomq/hub.go:126-137 | a run from a new hub with three colliding ids: the falsely positive cancel does no harm, the next cancel, of a live job, leaves another without entry, and cancelling that one finds nothing |
| HubRefinement.NewIsSound | pkg/chronomq/hub.go:60-76 | a new hub is sound and its flat map is empty |
| HubRefinement.RunIsFlat | pkg/chronomq/hub.go:118-390 | along every run the hub is a flat map step by step, with its size as job counter, up to and including the first step that leaves a false negative; exactly that step ends it |
| HubRefinement.TrueCancelsCover | pkg/chronomq/hub.go:118-144 | a run without falsely positive cancels keeps the filter exact and has no such step |
| HubRefinement.GoneStaysGone | pkg/chronomq/hub.go:118-291 | a job handed out, delivered or cancelled, is not handed out again unless its id is added anew |
| HubRefinement.NoCollisions | pkg/chronomq/hub.go:125-130 | without a signature collision a cancel on a sound hub is never falsely positive |
| HubRefinement.AcceptedIff | pkg/chronomq/hub.go:306-332 | on a hub without false negatives a job is accepted if and only if its id is new and its trigger lies ahead or within the past spoke |
| HubRefinement.FilterIsTransparent | pkg/chronomq/hub.go:125-144 | on a hub without false negatives adding and cancelling answer as with a full scan in place of the filter; a falsely positive cancel differs in one filter entry |
| HubRefinement.CollisionAdmitsDuplicate | pkg/chronomq/hub.go:131-137 | a run with colliding signatures in which an id is added twice and queued twice |
| HubClient.PerformAll | pkg/chronomq/hub.go:118-390 | any calls of a hub, with their answers, are a run of the machine from what the hub was to what it is |
| HubClient.PerformFromNew | pkg/chronomq/hub.go:58-390 | from a new hub, the jobs taken in are those handed out and those still held; if no step leaves a false negative, as without collisions, the answers are those of a map from ids to jobs, which the hub stands for in the end |
| HubClient.RunIsFlatRun | pkg/chronomq/hub.go:118-390 | every run from a new hub in which no step leaves a false negative is, answer by answer, a run of a map from ids to jobs that starts empty |
| HubOrder.OrderIff | pkg/chronomq/hub.go:231-290 | Next returns a least job outside the past spoke if and only if no waiting spoke with jobs starts before the spoke it serves |
| HubOrder.CurrentFirstIff | pkg/chronomq/hub.go:233-384 | after any step, whatever was before, the current spoke is ahead of all waiting ones if and only if Next has just looked for a new one, or it was ahead and the step is not an accepted add of a job due later than now and before the current spoke starts |
| HubOrder.ReachableCurrentFirst | pkg/chronomq/hub.go:210-390 | once ahead, it stays ahead along every run as long as there is no such add |
| HubOrder.LeadEndsIff | pkg/chronomq/hub.go:345-384 | and the first such add, and nothing else, ends that |
| HubOrder.StartedIff | pkg/chronomq/hub.go:247-269 | a started current spoke is followed by one that has not started if and only if the step is a Next that must pin a spoke while none of the waiting ones has started |
| HubOrder.PromotesStartedIff | pkg/chronomq/hub.go:50 | in a run from a new hub the current spoke has started at all times if and only if no Next is of that kind |
| HubOrder.TriggerOrder | README.md:23-24 | in every run, from any moment on in which the current spoke is ahead and as long as no add undercuts it, Next returns a least job of the past spoke, or if that is empty a least job of all others |
| HubOrder.OrderWithoutPinningEarly | README.md:23-24 | the same for all of a run in which no Next pins a spoke before any has started |
| HubOrder.PastFirstIff | pkg/chronomq/hub.go:334-344 | a step keeps every job of the past spoke due no later than all others if and only if it is not an accepted add of a job whose trigger is reached while a job outside the past spoke is due earlier |
| HubOrder.OrderOfAllIff | pkg/chronomq/hub.go:216-290 | Next returns a least job of all in the hub if and only if, with jobs in the past spoke, no job outside is due before all of them, and otherwise no waiting spoke with jobs starts before the one served |
| HubOrder.OneOrder | README.md:23-24 | in every run, from any moment on in which the current spoke is ahead and past jobs are due first, and as long as no add undercuts or overtakes, Next returns a least job of all in the hub |
| HubOrder.PinnedTooEarly | pkg/chronomq/spoke.go:78-87 | a run in which Next pins a spoke that has not started, an add undercuts it, and that earlier job waits behind it |
| HubOrder.PastOvertakes | pkg/chronomq/hub.go:216-229 | a run from a new hub in which a job due at 15, added at 20, is returned before one that has been waiting since 0 and is due at 10 |
| HubNil.MissIff | pkg/chronomq/hub.go:247-286 | Next misses an overdue job exactly when it must pin a spoke and the earliest waiting spoke is empty |
| HubNil.MissIffAnyCurrent | pkg/chronomq/hub.go:247-286 | the same without assuming that the current spoke comes first: Next also misses an overdue job behind a current spoke that is kept and has no due job |
| HubNil.MissAfterCancel | pkg/chronomq/hub.go:247-286 | a run from a new hub in which a cancel empties the earlier of two spokes and Next answers nil at 40 although a job is due since 25 |
| HubNil.MeaningOfNil | pkg/chronomq/hub.go:252-286 | the four meanings of nil, each with what is known about the jobs due |
| HubNil.NoCancelNoMiss | pkg/chronomq/hub.go:210-291 | in every run, from any moment on in which the current spoke is ahead and no waiting spoke is empty, and as long as nobody cancels and no add undercuts, an overdue job never meets the answer nil |
| HubDrain.LateNextProgress | pkg/chronomq/hub.go:210-291 | when all is due and expired, each Next on a hub with jobs delivers one or uses up a waiting spoke |
| HubDrain.DrainProgress | pkg/chronomq/hub.go:118-291 | over any late calls without adds, the calls of Next are at most its nils plus the jobs handed out, and while jobs are left its nils are at most the waiting spokes |
| HubDrain.EventualDelivery | pkg/chronomq/hub.go:118-291 | without adds, as many late calls of Next as there are jobs and waiting spokes empty the hub, whatever is cancelled meanwhile, and each job has been handed out as often as it was queued |
| HubDrain.DrainSorts | README.md:23-24 | calls that empty the hub deliver a sorting of the past jobs followed by a sorting of all others |
| Jobs.RoundTripIff | pkg/chronomq/job.go:112-184 | a job survives encoding and decoding if and only if its trigger is within 64-bit nanoseconds of 1970, counted from year 1; all but the trigger always survives |
| Jobs.EncodedFields | pkg/chronomq/job.go:112-150 | id, priority, trigger in nanoseconds since 1970, time to run and body stand in this order |
| Jobs.DecodesIff | pkg/chronomq/job.go:152-184 | exactly which values can be decoded, with a 32-bit priority and the body optional at the end, and to what |
| Jobs.CutRecord | pkg/chronomq/job.go:152-184 | a truncated record is rejected, unless exactly the body is missing |
| Persistence.RecordsAt | pkg/chronomq/job.go:111-150 | one record per job, in order |
| Persistence.Persister.Persist | pkg/persistence/persister.go:11 | one more record or, on failure, none; the job is accounted for either way |
| HubSweep.PlusAll | pkg/chronomq/hub.go:443-449 | going through the heap of spokes meets every waiting job exactly as often as it is queued |
| HubRestore.RestoreNew | pkg/chronomq/hub.go:471-506 | from records of jobs with distinct ids a new hub gets back exactly those it takes by their triggers, and counts the others |
| HubRestore.EveryRecordCounts | pkg/chronomq/hub.go:477-495 | the decode errors are exactly the records that cannot be decoded, and every record is counted once |
| HubRestore.RestoredIs | pkg/chronomq/hub.go:471-506 | restoring any records into a hub without false negatives leaves one, with the first job of each new id that can be decoded and taken, as many as are counted as recovered |
| HubRestore.OnlyDecodable | pkg/chronomq/hub.go:480-488 | records that cannot be decoded make no difference to the hub |
| HubRestore.SavedComeBack | pkg/chronomq/hub.go:471-506 | whatever jobs of a hub could be saved, a new hub gets back exactly those it takes by their triggers, and counts the others |
| HubRestore.ListingIsFlat | pkg/chronomq/hub.go:443-463 | any listing of the queued jobs of a hub without false negatives has distinct ids and is its flat map |
| HubRestore.RoundTrip | pkg/chronomq/hub.go:428-506 | persist and restore give back the flat map if and only if every trigger is in Unix range and taken when restored |
| HubRecovery.Recover | pkg/chronomq/hub.go:428-506 | the same for the classes, with any number of failed writes; without any, the flat map comes back if and only if every trigger is in Unix range and taken when restored |
| HubInspect.ListingOfPast | pkg/chronomq/hub.go:514-531 | a listing that ends with the past spoke keeps the promise, with the exact number |
| HubInspect.WalkNext | pkg/chronomq/hub.go:534-547 | each spoke adds its quota to the listing, and the account of listed, passed over and remaining jobs stays balanced, as does that of the order of the visits |
| HubInspect.ListingOfAll | pkg/chronomq/hub.go:534-547 | a listing that went through all spokes keeps the promise |
| HubOvershoot.ExceedsIff | pkg/chronomq/hub.go:508-551 | some order of the map lists more than n jobs if and only if the past spoke is not enough and a spoke with jobs can be left out with n jobs remaining |
| HubOvershoot.TwoForOne | pkg/chronomq/hub.go:508-551 | two adds to a new hub after which a listing of one job has two, in every order of the map |
| Monitor.Add64Is | internal/monitor/memory.go:114 | adding wraps at 18446744073709551616 |
| Monitor.AddNegated | internal/monitor/memory.go:119-120 | adding the complement of s - 1 is subtracting s modulo 2^64, for every s |
| Monitor.UnderflowTestIff | internal/monitor/memory.go:117-121 | exactly when the test for underflow fires; up to a tebibyte, exactly when more is taken off than there is |
| Monitor.RecoveryBelow | internal/monitor/memory.go:94 | no overflow, the mark is positive and at most the watermark, and below it exactly from 1024 bytes on, by ten 1024ths rounded down |
| Monitor.MemMonitor.constructor | internal/monitor/memory.go:91-96 | an empty account with both marks |
| Monitor.MemMonitor.Decrement | internal/monitor/memory.go:119-130 | panics and resets exactly on an apparent underflow, otherwise subtracts and signals exactly below the recovery mark |
| MonitorProtocol.StepKeepsExclusive | internal/monitor/memory.go:126-140 | at most one goroutine holds the lock, in every interleaving |
| MonitorProtocol.StillCommitted | internal/monitor/memory.go:135-137 | only a goroutine that has just seen the account at the watermark begins to wait |
| MonitorProtocol.LeavesBelowWatermark | internal/monitor/memory.go:132-141 | a goroutine gets out of Fence only by its own step and only when it has just found the account below the watermark, also after having slept |
| MonitorProtocol.WaitsIff | internal/monitor/memory.go:135-137 | a look at the account decides exactly: wait at the watermark or above, go on below |
| MonitorProtocol.SignalsIff | internal/monitor/memory.go:120-125 | a goroutine goes on to notify exactly if it is in Decrement, has found at most 1099511627776 after its subtraction, and now finds the account below the recovery mark |
| MonitorProtocol.NotifiesIff | internal/monitor/memory.go:126-128 | sleepers are taken off the list exactly by a Broadcast, all at once and under the lock |
| MonitorProtocol.KeepsWakeupsIff | internal/monitor/memory.go:113-141 | over all steps: nobody waits below the recovery mark without a broadcast on its way, unless the step is one of the three kinds that strand a sleeper, and those do |
| MonitorProtocol.NoWakeupIsLostIff | internal/monitor/memory.go:113-141 | so it holds along every interleaving up to the first such step, which breaks it |
| MonitorProtocol.NoWakeupIsLost | internal/monitor/memory.go:119-141 | it holds along every interleaving of matched calls |
| MonitorProtocol.QuietMeansAwake | internal/monitor/memory.go:119-141 | with no Decrement under way, nobody waits below the recovery mark as long as no step has stranded a sleeper |
| MonitorProtocol.Rescue | internal/monitor/memory.go:125-140 | the broadcast is reached by at most five steps inside the monitor, after which nobody waits |
| MonitorProtocol.WakeupArrives | internal/monitor/memory.go:119-141 | so every goroutine waiting below the mark in a matched run can be notified within five steps |
| MonitorProtocol.Undisturbed | internal/monitor/memory.go:119-131 | without other goroutines the steps of Decrement end in what the method ends in, and empty the list exactly if the method signals |
| MonitorProtocol.RestMeansFull | internal/monitor/memory.go:119-141 | if no goroutine inside the monitor can move, the lock is free and everybody is idle, or asleep on the list with the account at the recovery mark or above, unless a step has stranded a sleeper |
| MonitorProgress.StepDescends | internal/monitor/memory.go:119-141 | every step inside the monitor decreases a measure, which weighs a Broadcast by all whom it may wake |
| MonitorProgress.SchedulesEnd | internal/monitor/memory.go:119-141 | so no schedule without new calls is longer than that measure |
| MonitorProgress.ComesToRest | internal/monitor/memory.go:119-141 | and every run can be continued, without new calls, until nobody inside the monitor can move |
| MonitorProgress.RestWakesAll | internal/monitor/memory.go:119-141 | whatever the schedule, when it has come to rest with the account below the recovery mark, everybody is outside |
| MonitorBound.FenceBounds | internal/monitor/memory.go:33-35 | if every Increment follows a return of its goroutine from Fence, however it got out, and nothing is overdrawn, the account stays below the watermark and one charge for each goroutine, in every interleaving |
| MonitorProtocol.UnderflowLosesWakeup | internal/monitor/memory.go:121-124 | a run in which a goroutine sleeps on at an account of zero |
| Accounting.AccountIs | pkg/protocol/grpcserver.go:25-51 | along every run, from any hub and any account, until the monitor panics, the account is what it was with the memory of the jobs since put in and not handed out, accepted or refused, modulo 2^64; the monitor panics exactly when a job is handed out and more than a tebibyte is left |
| Accounting.PanicsIff | internal/monitor/memory.go:117-124 | within a tebibyte either way, the monitor panics exactly when a job is handed out and less than nothing is due, as with jobs that were never charged |
| Accounting.NeverPanics | internal/monitor/memory.go:117-124 | as long as what is due is neither negative nor more than a tebibyte, the monitor does not panic and the account is what is due |
| Accounting.EmptyAccountIff | pkg/protocol/grpcserver.go:33-34 | with an empty hub the account is zero if and only if what was refused and what was on it at first equal the memory of the jobs queued at first; with nothing uncharged at first, if and only if no job with a size was refused |
| Accounting.RestoredJobPanics | pkg/chronomq/hub.go:83-89 | a new hub restored from one record, and the Next that hands the job out makes the monitor panic |
| Accounting.ChargeFirstIff | pkg/protocol/rpcserver.go:43-52 | charging before taking off restores the account; taking off first does so exactly if as much is on the account, and else panics and leaves the job charged |
| Server.GRPCServer.PutWithID | pkg/protocol/grpcserver.go:25-36 | charges the job and puts it in; it stays charged if refused |
| Server.GRPCServer.Cancel | pkg/protocol/grpcserver.go:38-44 | cancels, and takes off exactly a job that was there |
| Server.GRPCServer.TryNext | pkg/protocol/grpcserver.go:46-51 | one attempt at the next job, taken off exactly if there is one |
| Server.StartServer | cmd/server.go:121-128 | a new hub restored from records, which are not charged, and a new monitor |
| Server.Serve | pkg/protocol/grpcserver.go:25-51 | any requests to a new server, restored or not, are a run of the hub; as long as what is due is neither negative nor more than a tebibyte, it is the account |
| ServerProtocol.AccountIsDue | pkg/protocol/grpcserver.go:25-51 | in every interleaving of charges, puts, takes, discharges and restores, for both servers, until a reset the account moves as what is in the hub, refused, charged and not put, and taken and not discharged, less what is put and not charged, and restored, modulo 2^64 |
| ServerProtocol.UnderflowIff | internal/monitor/memory.go:119-124 | a Decrement finds an underflow exactly if more than a tebibyte is due after it, and within a tebibyte either way exactly if less than nothing is |
| ServerProtocol.NeverUnderflows | internal/monitor/memory.go:119-124 | as long as what is due is neither negative nor more than a tebibyte, no Decrement finds an underflow and the account is exact |
| ServerProtocol.ChargedNeverUnderflows | pkg/protocol/grpcserver.go:33-34 | where every job is charged before it is put and none is restored, that needs only that all jobs in the hub, refused, and on their way come to at most a tebibyte |
| ServerProtocol.DeferredUnderflows | pkg/protocol/rpcserver.go:43-44 | an interleaving in which a job is put, taken, and discharged before it is charged: the monitor panics, and in the end the hub is empty and the job on the account |

## Left out

- Hubs.Hub.GetNJobs: no other call comes in between; the code holds only spoke locks while it lists.
- Hubs.Hub.Restore: no other call comes in between two records; each record is added under the hub lock by itself, which `ServerProtocol` models as a step of its own. Why recovery failed is not modelled.
- Jobs.CutRecord: a record is cut between two of its values only, since records are lists of typed values and not the bytes of the gob format.
- Persistence.Persister.Persist: a failed write leaves no record behind; a partly written record is covered by `Jobs.CutRecord` only.
- Monitor.MemMonitor.Decrement: one goroutine; the interleaved steps of Decrement are those of `MonitorProtocol`, and `MonitorProtocol.Undisturbed` says that they agree.
- The buckets of the cuckoo filter, and inserts that fail because it is full: the filter is a multiset of signatures whose insert succeeds.
- `Hub.Prune` and `Bound.Contains`: nothing calls them.
- Time zones and monotonic readings: bounds are equal when their instants are. The two clock readings for the past spoke are one.
- A fourth clock reading in Next, which classifies the spoke to be pinned: it takes the value of the third, and its outcome, never Future, makes no difference.
- Integer width of the counters in `internal/stats/hubStats.go`: they are unbounded here.
- The locks of single spokes: Add, Cancel, Next and persisting run under the hub lock.
- The journal and the stores behind the persister, and streaming.
- A hub and its persister share no object; the persister is a parameter rather than a field.
- The no-op monitor, reading the watermark from the environment, and `Breached`, which compares the account with the watermark only and so does not do what `internal/monitor/memory.go:36` says.
- `Fence` as a blocking method: it exists only as steps of `MonitorProtocol`. Spurious wakeups do not occur in Go.
- Job ids made from UUIDs, getters and setters: nothing modelled here depends on them. The size of a job is an arbitrary function of it.
- Server.GRPCServer.PutWithID: no other request comes between the charge and the put; `ServerProtocol` has the steps interleaved.
- Server.GRPCServer.Cancel: no other request comes between the cancel and the discharge; see `ServerProtocol`.
- Server.GRPCServer.TryNext: no other request comes between taking the job and the discharge; see `ServerProtocol`. Waiting in `Next` is a sequence of single attempts.
- Server.Serve: jobs are restored before the first request, and requests come one after the other; `ServerProtocol` interleaves both. Errors on the wire do not occur.
- The RPC server beyond the order of its charges, clients, command line, metrics, logging and the status printer.
