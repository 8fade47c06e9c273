# The process status reporter: crash watcher, status reports, bulk fan-out, admission

This project models the decision-making code of tps in Dafny and proves what it promises over all
inputs and, where it is concurrent, over all interleavings.

* **Crash watcher** (`WatcherModel`, `WatcherSequential`, `WatcherInvariants`, `WatcherTheorems`,
  `Watcher`). The select loop of `Run`, its three capacity-1 channels and the goroutines it
  launches are a transition system over an arbitrary schedule; the results of `SubscribeToEvents`
  and `Next` are an arbitrary script of any length, and a call with no result left blocks.
  `Watcher.WatcherRun` is the same thing as an object changed in place, method by method proved
  against the transition system. The reference is a sequential loop that counts the failures of
  the whole run and never resets the count. The proofs rest on one invariant: exactly one
  goroutine or queued message exists.
* **Status reports** (`GoStrings`, `PodUtil`, `PodPositions`, `LrpStatus`, `LrpOrder`,
  `LrpStats`). `SortPods` with its quadratic look-up and where it puts each pod, the compaction
  loop of `LRPInstances` with its run-time panics and int64 arithmetic, when the listing order
  shows in a report, and the pass of the stats endpoint. `sort.Strings` is implemented and shown
  to be the only result its contract allows.
* **Bulk endpoint** (`GuidPattern`, `BulkModel`, `BulkTheorems`, `BulkStatus`). The guid list's
  regular expression with its usual meaning, the splitter and the joiner; and the works that share
  a map under a lock. A map write is a read and a store, so that without the lock an update could
  be lost. The throttler lets any work go on that can. Each work computes the status report of the
  pods listed for its guid; a report that panics ends the process.
* **Admission** (`Admission`, `Listener`). One semaphore object shared by three handlers.

Three promises turned out not to hold on all inputs. Each has a failing input and its exact
condition:

* a signal does not always stop the watcher cleanly: `Close` is called on a nil subscription, a
  panic, exactly when the last subscription result received was not a source, or none was
  (`EarlySignalPanics`, `SignalStopsIffSubscribed`);
* `SortPods`, described in its comment as a simple sort, lists a pod once for each pod that shares
  its UID. Two pods p and q with one UID come out as p, q, p, q, in the order listed, and a pod
  listed twice four times (`SharedUidRepeats`, `SharedUidShowsOrder`). The result is a permutation
  exactly when UIDs are distinct, and independent of the listing order exactly when pods that
  share a UID are the same (`SortPodsPermutesIff`, `SortPodsCanonicalIff`). `LRPInstances` then
  writes past its slice when one started, reporting pod is listed twice; with start times it does
  so exactly when the multiplicities of the reporting pods' UIDs add up to more than the pods
  listed (`SharedUidPanics`, `OutOfRangeIff`; `OutOfRangeWhen` without start times);
* the bulk map is not always that of the works in sequence: two works for one guid that find
  different instances can end either way (`RepeatedGuidRaces`). Provided no work panics, every
  interleaving gives the sequential map exactly when works for the same guid that produce
  instances produce the same ones (`ConfluentIff`).

The comment on `getApplicationContainerState` says it returns nil; the code returns the empty
state, which is None here. String order is by character, which is Go's byte order for UTF-8 text.
Functions named `Step`, `Exec`, `Scan`, `Report`, `Fold` and the like only say what the methods
compute; the rows below name what is proved. What these functions rest on - the string order,
which pods report and what an entry shows, what a submission holds, the alphabet of the guids - is
stated again in fields and characters (`LessIff`, `ReportsIff`, `EntryShows`, `CrashesRecorded`,
`GuidChars`).

## Model

| member | source | states |
|---|---|---|
| WatcherTheorems.OneToken | watcher/watcher.go:54-105 | one goroutine or one queued message exists at every moment, before and after a stop, so sends never block, calls never overlap and Next is never called on nil |
| WatcherTheorems.RefinesSequential | watcher/watcher.go:64-105 | under every interleaving the observed Subscribe calls, Next calls and crash submissions are a prefix of the sequential loop's, and all of them when nothing more can happen |
| WatcherTheorems.ExactlyOnceInOrder | watcher/watcher.go:73-84 | submissions are the translated app crashes among the handled events, once and in order; events Next returned are the handled ones and at most one more |
| WatcherTheorems.CrashesRecorded | watcher/watcher.go:108-139 | over every run a submission comes directly after the Next call that returned an app crash and holds, field by field, that crash; every such call is followed by its submission or its event is still on its way |
| WatcherTheorems.LaunchesConserved | watcher/watcher.go:66-95 | how many subscribe and next goroutines were launched follows from the counts of messages taken, and every launch but possibly one has made its call |
| WatcherTheorems.CountIs | watcher/watcher.go:66-95 | what the message counts count: the places of the messages of each kind |
| WatcherTheorems.OneLaunchPerMessage | watcher/watcher.go:86-95 | every message taken launches exactly one goroutine; no error falls through the switch that has no default |
| WatcherTheorems.ThirdFailureResubscribes | watcher/watcher.go:76-84 | nextErrCount is the number of nil events of the run modulo three; a nil event resubscribes exactly when it is every third one |
| WatcherTheorems.SourcesAgree | watcher/watcher.go:66-71 | Next is only called on the source that the latest Subscribe call returned without an error, which is the current subscription while a result is due or on its way |
| WatcherTheorems.QuietMeansStarved | watcher/watcher.go:64-105 | a running watcher can do nothing exactly when its goroutine waits in a call that the environment does not answer |
| WatcherTheorems.RunsAreBounded | watcher/watcher.go:64-105 | without a signal a run takes at most three steps for each result of the environment |
| WatcherTheorems.CanComplete | watcher/watcher.go:64-105 | from every running state some continuation produces the whole sequential trace |
| WatcherTheorems.SignalStopsIffSubscribed | watcher/watcher.go:97-103 | a signal stops the watcher and closes the last received source iff the last subscription result was a source; otherwise Close panics, and a subscription is being sought |
| WatcherTheorems.EarlySignalPanics | watcher/watcher.go:97-99 | a signal that arrives first calls Close on nil |
| WatcherTheorems.ClosesAtMostOnce | watcher/watcher.go:97-103 | over any run at most one source is closed, the last received one; the goroutine left behind can still call and send |
| WatcherInvariants.CoreStep | watcher/watcher.go:66-105 | every step keeps the token and its agreement with subscription and nextErrCount |
| WatcherInvariants.RefinesStep | watcher/watcher.go:66-105 | every step moves observations from the sequential future to the past and changes nothing of the whole |
| WatcherInvariants.SourcedStep | watcher/watcher.go:66-94 | every step keeps Next calls on the latest source |
| WatcherInvariants.MeasureStep | watcher/watcher.go:64-105 | every step but the signal decreases the measure |
| Watcher.WatcherRun.constructor | watcher/watcher.go:53-59 | the variables, channels and first goroutine Run begins with |
| Watcher.WatcherRun.MakeCall | watcher/watcher.go:141-154 | the call of subscribeToEvents or nextEvent and the message its result becomes |
| Watcher.WatcherRun.SendResult | watcher/watcher.go:141-174 | the send that ends the goroutine, on the channel its message belongs to |
| Watcher.WatcherRun.ReceiveSubscription | watcher/watcher.go:66-71 | sets the subscription; reads from it or subscribes again |
| Watcher.WatcherRun.HandleOne | watcher/watcher.go:108-139 | for an app crash appends exactly one submission with the guid, instance, index, reason CRASHED, exit description, crash count and timestamp of the event; nothing for any other event |
| Watcher.WatcherRun.ReceiveEvent | watcher/watcher.go:73-84 | handles an event or counts a failure; the break skips the relaunch after the third |
| Watcher.WatcherRun.ReceiveError | watcher/watcher.go:86-95 | resubscribes on a closed source, reads on after an unrecognised event |
| Watcher.WatcherRun.ReceiveSignal | watcher/watcher.go:97-103 | closes the subscription and stops, or panics on nil |
| Watcher.WatcherRun.Perform | watcher/watcher.go:64-105 | every step of the object keeps the whole invariant: afterwards a pending send has room and no Next is due on nil |
| Watcher.WatcherRun.RunLoop | watcher/watcher.go:48-106 | for every schedule the loop keeps the invariant and ends in the state of the transition system, with a prefix of the sequential trace, crashes recorded field by field, submissions in order and at most one close |
| GoStrings.SortStringsSorts | helpers/pod_util.go:18 | the sort gives a sorted permutation |
| GoStrings.LessIff | helpers/pod_util.go:18 | the order sorted by, in characters: a string precedes another where they first differ by a smaller character, or where it ends first |
| GoStrings.SortedUnique | helpers/pod_util.go:18 | a sorted permutation is unique, so any correct sort gives the same |
| PodUtil.SortPods | helpers/pod_util.go:10-30 | the nested loops compute, for each UID in sorted order, the pods with that UID |
| PodUtil.SortPodsMultiplies | helpers/pod_util.go:19-27 | any listing: a pod comes out as often as listed times the multiplicity of its UID |
| PodUtil.SortPodsOrders | helpers/pod_util.go:18-27 | any listing: UIDs are non-decreasing, character by character |
| PodUtil.SortPodsPermutes | helpers/pod_util.go:10-30 | distinct UIDs: a permutation of the listing in strictly increasing UID order, character by character |
| PodUtil.SortPodsPermutesIff | helpers/pod_util.go:10-30 | the result is a permutation of the listing iff the UIDs are distinct |
| PodUtil.SortPodsCanonical | helpers/pod_util.go:10-30 | listings of the same pods sort to the identical sequence |
| PodUtil.SortPodsCanonicalIff | helpers/pod_util.go:10-30 | the listing order is irrelevant iff pods that share a UID are the same |
| PodUtil.SortPodsKeeps | helpers/pod_util.go:19-27 | how many pods of any kind come out: the multiplicities of their UIDs added up |
| PodUtil.SortPodsLength | helpers/pod_util.go:19-27 | the length is the sum of the squared multiplicities of the distinct UIDs |
| PodPositions.SortPodsAt | helpers/pod_util.go:14-27 | any listing: the place in the result of every copy of every listed pod, behind the copies of pods with smaller UIDs, the earlier copies of its group and the pods of the group listed before it |
| PodPositions.MultiplicityCounts | helpers/pod_util.go:21-25 | the multiplicity of a UID is the number of places of the listing with that UID |
| PodPositions.SharedUidRepeats | helpers/pod_util.go:19-27 | two listed pods p, q with one UID come out as p, q, p, q |
| PodPositions.SharedUidShowsOrder | helpers/pod_util.go:19-27 | two different pods with one UID sort differently in the two orders they can be listed in |
| LrpStatus.FirstApplicationDecides | handler/lrpstatus/lrpstatus.go:112-129 | the flags of the first container named application decide: waiting gives starting, else running gives running, else terminated gives down, else unknown; no state iff no container has the name |
| LrpStatus.ReportsIff | handler/lrpstatus/lrpstatus.go:88-89 | a pod reports iff it has a container named application, in whatever state |
| LrpStatus.EntryShows | handler/lrpstatus/lrpstatus.go:90-97 | field by field what an entry shows of its pod: decoded guid, UID, index, seconds truncated toward zero, wrapped uptime, state, no stats |
| LrpStatus.LRPInstances | handler/lrpstatus/lrpstatus.go:69-109 | the in-place compaction computes the report, including its two run-time panics and the nil result |
| LrpStatus.WriteInstance | handler/lrpstatus/lrpstatus.go:90-99 | writes an instance that shows the pod field by field behind those already written; panics on a nil start time, else on an index past the slice |
| LrpStatus.ReturnsIff | handler/lrpstatus/lrpstatus.go:73-98 | any listing: returns iff reporting pods have start times and their UIDs' multiplicities add up to at most the length of the slice |
| LrpStatus.OutOfRangeWhen | handler/lrpstatus/lrpstatus.go:73-98 | any listing: the write past the slice happens iff some reporting pod of the sorted ones comes after as many reporting pods as the slice is long, with no nil start time up to it |
| LrpStatus.OutOfRangeIff | handler/lrpstatus/lrpstatus.go:73-98 | when reporting pods have start times, the write past the slice happens iff their UIDs' multiplicities add up to more than its length |
| LrpStatus.SharedUidPanics | handler/lrpstatus/lrpstatus.go:77-98 | a started, reporting pod listed twice makes the write go past the slice |
| LrpStatus.ReportIsStatus | handler/lrpstatus/lrpstatus.go:73-108 | distinct UIDs: one entry per pod with an application container, field by field, indexed by rank among all listed pods, in strictly increasing guid and index order; nil iff there is no such pod |
| LrpStatus.ReportShows | handler/lrpstatus/lrpstatus.go:79-108 | any listing whose report is returned: one entry per place of the sorted pods with an application container, in order, showing that pod field by field with the place as index; nil iff there is none |
| LrpStatus.PositionIsRank | handler/lrpstatus/lrpstatus.go:77-93 | the index of a pod is the number of listed pods with a smaller UID |
| LrpOrder.ReportIgnoresOrder | handler/lrpstatus/lrpstatus.go:69-109 | any listing, report or panic: the order does not matter when pods sharing a UID agree in all the report shows: whether and in what state they report, guid label and start time |
| LrpOrder.OrderShows | handler/lrpstatus/lrpstatus.go:77-101 | when they do not agree and there is a report, some other order of the listing gives another one at some clock reading |
| LrpOrder.ReportIgnoresOrderIff | handler/lrpstatus/lrpstatus.go:69-109 | for listings that have a report, its independence of the listing order holds iff pods sharing a UID agree in all it shows |
| LrpStatus.SecondsAddUp | handler/lrpstatus/lrpstatus.go:94-95 | all int64 times: the subtraction is exact iff the difference is in range; then Since plus Uptime misses the reading in seconds by at most one, and exactly when the dropped nanoseconds do not add up; out of range Uptime has the wrong sign or is zero |
| LrpStatus.ReportTimesAddUp | handler/lrpstatus/lrpstatus.go:79-101 | the same for every entry of every report, with the start time of its pod |
| LrpStats.ZeroCrashed | handler/lrpstats/lrpstats.go:113-122 | in place, crashed instances get uptime zero and, if they have stats, zero stats; every other field and instance stays |
| LrpStats.ScanHasNoCrash | handler/lrpstatus/lrpstatus.go:88-101 | no pod list yields a crashed instance or one with stats |
| LrpStats.StatsInstances | handler/lrpstats/lrpstats.go:109-122 | the stats endpoint's instances are those of the status endpoint |
| GuidPattern.PatternIffTokens | handler/bulklrpstatus/bulklrpstatus.go:21 | the pattern matches exactly the strings whose comma-separated tokens are all non-empty and made of a-z, A-Z, 0-9, underscore and hyphen |
| GuidPattern.GuidChars | handler/bulklrpstatus/bulklrpstatus.go:21 | the character class, all of its 64 characters spelled out |
| GuidPattern.JoinSplit | handler/bulklrpstatus/bulklrpstatus.go:49 | joining the split of any string gives it back |
| GuidPattern.SplitJoin | handler/bulklrpstatus/bulklrpstatus.go:49 | splitting the join of comma-free tokens gives them back |
| GuidPattern.TokensRoundTrip | handler/bulklrpstatus/bulklrpstatus.go:42-49 | the join of any non-empty list of valid tokens is accepted and splits back |
| BulkTheorems.LockSerialises | handler/bulklrpstatus/bulklrpstatus.go:100-104 | at every moment at most one work is between Lock and Unlock, at most the allowed number have begun and not ended, and the map is that of the finished writes in sequence, one for each work past its write |
| BulkTheorems.BeginsIff | handler/bulklrpstatus/bulklrpstatus.go:59-66 | a waiting work can begin exactly when fewer works than workers have begun and not ended |
| BulkTheorems.InvStep | handler/bulklrpstatus/bulklrpstatus.go:77-105 | every step of every work keeps the lock discipline and the meaning of the map |
| BulkTheorems.NoDeadlock | handler/bulklrpstatus/bulklrpstatus.go:59-66 | with a worker, some work can always go on until all are done or one has panicked |
| BulkTheorems.Confluent | handler/bulklrpstatus/bulklrpstatus.go:55-66 | every complete interleaving panics iff some work's report does; otherwise it leaves exactly the guids with instances, each with instances produced for it |
| BulkTheorems.CanStoreLast | handler/bulklrpstatus/bulklrpstatus.go:100-104 | when no work panics, any producing work can be the one whose instances the map ends with |
| BulkTheorems.ConfluentIff | handler/bulklrpstatus/bulklrpstatus.go:55-66 | all interleavings that end without a panic give the sequential map iff equal guids agree or some work panics |
| BulkTheorems.SequentialTakesLast | handler/bulklrpstatus/bulklrpstatus.go:55-57 | the sequential map holds, for each guid, the instances of its last producing work |
| BulkTheorems.RepeatedGuidRaces | handler/bulklrpstatus/bulklrpstatus.go:55-66 | two works for one guid with different instances: some interleaving does not give the sequential map |
| BulkStatus.FanOut.Fetch | handler/bulklrpstatus/bulklrpstatus.go:83-98 | the look-up, the listing and the report of one work: it goes on with the report that is returned, panics when the report does, and ends when nothing is listed |
| BulkStatus.FanOut.Write | handler/bulklrpstatus/bulklrpstatus.go:101-103 | the read and the store of one map write, skipped for nil instances |
| BulkStatus.FanOut.Advance | handler/bulklrpstatus/bulklrpstatus.go:78-105 | one step of a work's closure on the shared map and lock, keeping the lock discipline |
| BulkStatus.FanOut.Work | handler/bulklrpstatus/bulklrpstatus.go:59-66 | in whatever order the works go on, they end; the process panics iff the report on some listed pods does, and otherwise the map answers the requests |
| BulkStatus.BundleAnswers | handler/bulklrpstatus/bulklrpstatus.go:88-104 | when no work panics, the map holds every guid for which a pod with an application container is listed, and each value is the report on the pods listed for that guid, their status when their UIDs are distinct |
| BulkStatus.AgreedAnswer | handler/bulklrpstatus/bulklrpstatus.go:88-104 | when the reports on the pods listed for one guid agree, the response holds the one they agree on |
| BulkStatus.ServeHTTP | handler/bulklrpstatus/bulklrpstatus.go:39-75 | 400 iff the list is malformed, 500 iff there is no worker; otherwise a panic iff the report on the pods listed for some guid panics, and else the map that holds for every guid in the list the report on its pods |
| Admission.AdmissionSafe | handler/handler.go:44-57 | over every run the semaphore counts the requests inside, never above maxInFlight; 503 iff full on arrival; the deferred receive never blocks |
| Admission.DrainedAdmitsAgain | handler/handler.go:52-56 | a drained run admits any maxInFlight requests again |
| Admission.CanDrain | handler/handler.go:52-56 | every run can drain |
| Listener.Semaphore.TrySend | handler/handler.go:45-50 | takes a place iff one is free |
| Listener.Router.constructor | handler/handler.go:17-34 | the three handlers share one empty semaphore |
| Listener.Router.BeginRequest | handler/handler.go:44-50 | admits or answers 503 |
| Listener.Router.EndRequest | handler/handler.go:52-54 | the deferred receive frees the place and never finds the semaphore empty |
| Listener.Router.Serve | handler/handler.go:44-57 | for every schedule the handlers keep the invariant and end in the state of the transition system; the semaphore holds the requests inside |
| Listener.New | handler/handler.go:17-37 | one shared semaphore of the given size; a negative size panics |

## Left out

- The process, HTTP, TLS, flag and JSON code (cmd, cc_client, routes.go, service_client.go, middleware.go), logging and cc_conv: no property beyond single branches.
- The work pool and the throttler: libraries not shown. A submitted crash job is taken to run once; the throttler is taken to refuse a size below one and to return after all works ended.
- The process-guid library and the pod listing: `guidOf` is an arbitrary function, and each request of a work has an arbitrary listing, which may be a malformed guid or a failed call.
- Wall-clock delay: a sleep and a blocking `Next` are schedules in which that goroutine does not move yet.
- Endless environments: a script of results is finite, of any length; what holds of all of them holds of every finite part of an endless run.
- Typed nil events inside a non-nil interface, which would make the crash translation panic.
- The status codes, the container metrics and the unused port look-up of lrpstats.go: the metrics are built and never read.
