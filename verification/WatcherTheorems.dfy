/**
 What holds of every run of the watcher: for all scripts of the environment and all schedules,
 that is under every interleaving of goroutines and select choices.
*/
module WatcherTheorems {
  import opened GoTypes
  import opened WatcherModel
  import opened WatcherSequential
  import opened WatcherInvariants

  function Run(subscribes: seq<SubscribeResult>, nexts: seq<NextResult>, schedule: seq<Action>): State {
    Exec(Init(subscribes, nexts), schedule)
  }

  // Everything a step keeps; total is the trace the sequential loop has.
  ghost predicate Inv(s: State, total: seq<Observation>) {
    && Core(s)
    && LaunchesAddUp(s)
    && Delivered(s)
    && Sourced(s)
    && ClosedWell(s)
    && s.trace + Future(s) == total
  }

  lemma InvStep(s: State, a: Action, total: seq<Observation>)
    requires Inv(s, total) && Enabled(s, a)
    ensures Inv(Step(s, a), total)
  {
    LaunchesStep(s, a);
    DeliveredStep(s, a);
    SourcedStep(s, a);
    ClosedStep(s, a);
    RefinesStep(s, a);
  }

  lemma {:induction false} InvExec(s: State, schedule: seq<Action>, total: seq<Observation>)
    requires Inv(s, total)
    ensures Inv(Exec(s, schedule), total)
    decreases |schedule|
  {
    if schedule == [] {
    } else {
      if Enabled(s, schedule[0]) {
        InvStep(s, schedule[0], total);
        InvExec(Step(s, schedule[0]), schedule[1..], total);
      } else {
        InvExec(s, schedule[1..], total);
      }
    }
  }

  lemma InvInit(subscribes: seq<SubscribeResult>, nexts: seq<NextResult>)
    ensures Inv(Init(subscribes, nexts), Sequential(subscribes, nexts))
  {
    var s := Init(subscribes, nexts);
    assert NeverStale(s.trace);
    assert s.trace + Future(s) == Sequential(subscribes, nexts);
  }

  lemma Invariant(subscribes: seq<SubscribeResult>, nexts: seq<NextResult>, schedule: seq<Action>)
    ensures Inv(Run(subscribes, nexts, schedule), Sequential(subscribes, nexts))
  {
    InvInit(subscribes, nexts);
    InvExec(Init(subscribes, nexts), schedule, Sequential(subscribes, nexts));
  }

  lemma CoreHolds(subscribes: seq<SubscribeResult>, nexts: seq<NextResult>, schedule: seq<Action>)
    ensures Core(Run(subscribes, nexts, schedule))
  {
    Invariant(subscribes, nexts, schedule);
  }

  // No goroutine and no channel case of the select can go on.
  ghost predicate Quiet(s: State) {
    forall a :: Enabled(s, a) ==> a == TakeSignal
  }

  // A running watcher is quiet exactly when its one goroutine waits in a call the environment
  // does not answer.
  lemma QuietMeansStarved(s: State)
    requires Core(s) && s.status.Running?
    ensures Quiet(s) <==>
            || (s.goroutines == [Subscribing] && s.subscribes == [])
            || (s.goroutines == [Reading(s.subscription)] && s.nexts == [])
  {
    if Quiet(s) {
      assert !Enabled(s, Call(0)) && !Enabled(s, Send(0));
      assert !Enabled(s, TakeSubscription) && !Enabled(s, TakeEvent) && !Enabled(s, TakeError);
    }
  }

  // ---------- the token

  // A goroutine that sends has room, one that reads has a source.
  lemma CanProceed(s: State, total: seq<Observation>, i: nat)
    requires Inv(s, total) && i < |s.goroutines|
    ensures s.goroutines[i].Sending? ==> HasRoom(s, s.goroutines[i].msg)
    ensures s.goroutines[i] != Reading(None)
  {
  }

  // One goroutine or one queued message exists at all times, before and after a stop; so a send
  // finds its channel empty, no two calls overlap and Next is never called on a nil source.
  lemma OneToken(subscribes: seq<SubscribeResult>, nexts: seq<NextResult>, schedule: seq<Action>)
    ensures var s := Run(subscribes, nexts, schedule);
            && |s.goroutines| + |s.subscriptionChan| + |s.eventChan| + |s.errorChan| == 1
            && (forall i :: 0 <= i < |s.goroutines| && s.goroutines[i].Sending? ==> HasRoom(s, s.goroutines[i].msg))
            && (forall i :: 0 <= i < |s.goroutines| && s.goroutines[i].Reading? ==> s.goroutines[i].source.Some?)
            && s.status != PanickedOnNext
  {
    Invariant(subscribes, nexts, schedule);
  }

  // ---------- refinement

  // At every moment of every run, stopped or not, what was observed is a prefix of what the
  // sequential loop does on the same environment; when the running watcher can do no more, it
  // is all of it.
  lemma RefinesSequential(subscribes: seq<SubscribeResult>, nexts: seq<NextResult>, schedule: seq<Action>)
    ensures var s := Run(subscribes, nexts, schedule);
            && s.trace <= Sequential(subscribes, nexts)
            && (s.status.Running? && Quiet(s) ==> s.trace == Sequential(subscribes, nexts))
  {
    Invariant(subscribes, nexts, schedule);
    var s := Run(subscribes, nexts, schedule);
    if s.status.Running? && Quiet(s) {
      QuietMeansStarved(s);
      assert Future(s) == [];
    }
  }

  // ---------- delivery

  lemma NothingInFlight(s: State)
    requires TokenCount(s) == 1
    ensures s.eventChan == [] && (s.goroutines != [] ==> !s.goroutines[0].Sending?) ==> InFlight(TokenOf(s)) == []
  {
  }

  lemma PrefixOfConcat(a: seq<Event>, b: seq<Event>)
    requires |b| <= 1
    ensures a <= a + b && |a + b| <= |a| + 1
    ensures b == [] ==> a + b == a
  {
  }

  lemma DeliveredInOrder(s: State)
    requires TokenCount(s) == 1 && Delivered(s)
    ensures Submissions(s.trace) == CrashJobs(Handled(s.consumed))
    ensures Handled(s.consumed) <= Fetched(s.trace)
    ensures |Fetched(s.trace)| <= |Handled(s.consumed)| + 1
    ensures s.eventChan == [] && (s.goroutines != [] ==> !s.goroutines[0].Sending?) ==>
              Submissions(s.trace) == CrashJobs(Fetched(s.trace))
  {
    NothingInFlight(s);
    PrefixOfConcat(Handled(s.consumed), InFlight(TokenOf(s)));
  }

  // The submissions are the translations of the app crashes among the handled events, in order
  // and once each; the events Next returned, over all subscriptions, are the handled ones
  // followed by at most one still on its way.
  lemma ExactlyOnceInOrder(subscribes: seq<SubscribeResult>, nexts: seq<NextResult>, schedule: seq<Action>)
    ensures var s := Run(subscribes, nexts, schedule);
            && Submissions(s.trace) == CrashJobs(Handled(s.consumed))
            && Handled(s.consumed) <= Fetched(s.trace)
            && |Fetched(s.trace)| <= |Handled(s.consumed)| + 1
            && (s.eventChan == [] && (s.goroutines != [] ==> !s.goroutines[0].Sending?) ==>
                  Submissions(s.trace) == CrashJobs(Fetched(s.trace)))
  {
    Invariant(subscribes, nexts, schedule);
    DeliveredInOrder(Run(subscribes, nexts, schedule));
  }

  // ---------- what is submitted

  // A Next call that returned the crash of an app.
  ghost predicate ReadsCrash(o: Observation) {
    && o.NextCall? && o.read.err.None? && o.read.event.Some?
    && o.read.event.value.ActualLRPCrashed? && o.read.event.value.crash.domain == APP_LRP_DOMAIN
  }

  // o submits the record of this crash.
  ghost predicate Records(o: Observation, crash: CrashedEvent) {
    && o.Submit?
    && o.job.guid == crash.processGuid
    && o.job.request.instance == crash.instanceGuid
    && o.job.request.index == crash.index
    && o.job.request.reason == "CRASHED"
    && o.job.request.exitDescription == crash.crashReason
    && o.job.request.crashCount == crash.crashCount
    && o.job.request.crashTimestamp == crash.since
  }

  // A submission comes directly after the Next call that returned an app crash, and records that
  // crash; and whatever comes directly after such a Next call is its submission.
  ghost predicate Recorded(trace: seq<Observation>) {
    && (forall k :: 0 <= k < |trace| && trace[k].Submit? ==>
          k > 0 && ReadsCrash(trace[k - 1]) && Records(trace[k], trace[k - 1].read.event.value.crash))
    && (forall k :: 0 <= k < |trace| - 1 && ReadsCrash(trace[k]) ==> trace[k + 1].Submit?)
  }

  // No crash was read last, so none is left to be recorded; and none was submitted first.
  ghost predicate Settled(trace: seq<Observation>) {
    trace != [] ==> !trace[0].Submit? && !ReadsCrash(trace[|trace| - 1])
  }

  lemma RecordedConcat(a: seq<Observation>, b: seq<Observation>)
    requires Recorded(a) && Settled(a) && Recorded(b) && Settled(b)
    ensures Recorded(a + b) && Settled(a + b)
  {
  }

  // An event that was read and handled.
  lemma HandledRecorded(source: EventSource, r: NextResult, rest: seq<Observation>)
    requires r.err.None? && r.event.Some? && Recorded(rest) && Settled(rest)
    ensures var all := [NextCall(source, r)] + (Handle(r.event.value) + rest);
            Recorded(all) && Settled(all)
  {
    RecordedConcat([NextCall(source, r)] + Handle(r.event.value), rest);
    assert [NextCall(source, r)] + (Handle(r.event.value) + rest) == [NextCall(source, r)] + Handle(r.event.value) + rest;
  }

  lemma {:induction false} SubscribeRecorded(subscribes: seq<SubscribeResult>, nexts: seq<NextResult>, failures: nat)
    ensures Recorded(SubscribeLoop(subscribes, nexts, failures)) && Settled(SubscribeLoop(subscribes, nexts, failures))
    decreases |subscribes| + |nexts|, 1
  {
    if subscribes == [] {
    } else {
      var r := subscribes[0];
      if r.failed || r.source.None? {
        SubscribeRecorded(subscribes[1..], nexts, failures);
        RecordedConcat([SubscribeCall(r)], SubscribeLoop(subscribes[1..], nexts, failures));
      } else {
        ReadRecorded(r.source.value, subscribes[1..], nexts, failures);
        RecordedConcat([SubscribeCall(r)], ReadLoop(r.source.value, subscribes[1..], nexts, failures));
      }
    }
  }

  lemma {:induction false} ReadRecorded(source: EventSource, subscribes: seq<SubscribeResult>, nexts: seq<NextResult>,
                                        failures: nat)
    ensures Recorded(ReadLoop(source, subscribes, nexts, failures)) && Settled(ReadLoop(source, subscribes, nexts, failures))
    decreases |subscribes| + |nexts|, 1
  {
    if nexts == [] {
    } else {
      var r := nexts[0];
      if r.err == Some(ErrSourceClosed) {
        SubscribeRecorded(subscribes, nexts[1..], failures);
        RecordedConcat([NextCall(source, r)], SubscribeLoop(subscribes, nexts[1..], failures));
      } else if r.err == Some(ErrUnrecognizedEventType) {
        ReadRecorded(source, subscribes, nexts[1..], failures);
        RecordedConcat([NextCall(source, r)], ReadLoop(source, subscribes, nexts[1..], failures));
      } else if r.err.None? && r.event.Some? {
        var rest := ReadLoop(source, subscribes, nexts[1..], failures);
        ReadRecorded(source, subscribes, nexts[1..], failures);
        HandledRecorded(source, r, rest);
      } else if (failures + 1) % 3 == 0 {
        SubscribeRecorded(subscribes, nexts[1..], failures + 1);
        RecordedConcat([NextCall(source, r)], SubscribeLoop(subscribes, nexts[1..], failures + 1));
      } else {
        ReadRecorded(source, subscribes, nexts[1..], failures + 1);
        RecordedConcat([NextCall(source, r)], ReadLoop(source, subscribes, nexts[1..], failures + 1));
      }
    }
  }

  lemma PrefixRecorded(trace: seq<Observation>, total: seq<Observation>)
    requires trace <= total && Recorded(total)
    ensures Recorded(trace)
  {
    assert forall k :: 0 <= k < |trace| ==> trace[k] == total[k];
  }

  lemma FailureSettled(source: EventSource, subscribes: seq<SubscribeResult>, nexts: seq<NextResult>, failures: nat)
    ensures Settled(AfterFailure(source, subscribes, nexts, failures))
  {
    SubscribeRecorded(subscribes, nexts, failures);
    ReadRecorded(source, subscribes, nexts, failures);
  }

  // What comes next is a submission only if an event is on its way.
  lemma SubmitsNext(s: State)
    requires Core(s) && Future(s) != [] && Future(s)[0].Submit?
    ensures TokenOf(s).Carrying? && TokenOf(s).msg.EventMsg? && TokenOf(s).msg.event.Some?
  {
    var t, failures := TokenOf(s), Count(s.consumed).nils;
    SubscribeRecorded(s.subscribes, s.nexts, failures);
    if t.Carrying? && t.msg.SubscriptionMsg? && t.msg.source.Some? {
      ReadRecorded(t.msg.source.value, s.subscribes, s.nexts, failures);
    }
    if s.subscription.Some? {
      ReadRecorded(s.subscription.value, s.subscribes, s.nexts, failures);
      FailureSettled(s.subscription.value, s.subscribes, s.nexts, failures + 1);
    }
  }

  // At every moment of every run the submissions are exactly the records of the app crashes that
  // the Next calls returned, each directly after its call; a crash that was read last and is not
  // recorded yet is on its way to Run.
  lemma CrashesRecorded(subscribes: seq<SubscribeResult>, nexts: seq<NextResult>, schedule: seq<Action>)
    ensures var s := Run(subscribes, nexts, schedule);
            && Recorded(s.trace)
            && (s.trace != [] && ReadsCrash(s.trace[|s.trace| - 1]) ==>
                  || (s.eventChan != [] && s.eventChan[0].Some?)
                  || (s.goroutines != [] && s.goroutines[0].Sending? && s.goroutines[0].msg.EventMsg?))
  {
    Invariant(subscribes, nexts, schedule);
    var s := Run(subscribes, nexts, schedule);
    var total := Sequential(subscribes, nexts);
    SubscribeRecorded(subscribes, nexts, 0);
    PrefixRecorded(s.trace, total);
    if s.trace != [] && ReadsCrash(s.trace[|s.trace| - 1]) {
      var k := |s.trace| - 1;
      assert total[k] == s.trace[k];
      assert k < |total| - 1;
      assert total[k + 1] == Future(s)[0];
      SubmitsNext(s);
    }
  }

  // ---------- launches and failures

  // The places of the messages of a kind.
  ghost function Where(consumed: seq<Message>, kind: Message -> bool): set<nat> {
    set k: nat | k < |consumed| && kind(consumed[k])
  }

  lemma WhereNext(consumed: seq<Message>, m: Message, kind: Message -> bool)
    ensures |Where(consumed + [m], kind)| == |Where(consumed, kind)| + if kind(m) then 1 else 0
  {
    var before, after := Where(consumed, kind), Where(consumed + [m], kind);
    forall k: nat
      ensures k in after <==> k in before || (k == |consumed| && kind(m))
    {
    }
    assert after == if kind(m) then before + {|consumed|} else before;
  }

  // What the tally counts.
  lemma {:induction false} CountIs(consumed: seq<Message>)
    ensures Count(consumed).okSubs == |Where(consumed, (m: Message) => m.SubscriptionMsg? && m.source.Some?)|
    ensures Count(consumed).nilSubs == |Where(consumed, (m: Message) => m.SubscriptionMsg? && m.source.None?)|
    ensures Count(consumed).good == |Where(consumed, (m: Message) => m.EventMsg? && m.event.Some?)|
    ensures Count(consumed).nils == |Where(consumed, (m: Message) => m.EventMsg? && m.event.None?)|
    ensures Count(consumed).closed == |Where(consumed, (m: Message) => m == ErrorMsg(ErrSourceClosed))|
    ensures Count(consumed).unrecognized == |Where(consumed, (m: Message) => m == ErrorMsg(ErrUnrecognizedEventType))|
    ensures Count(consumed).other == |Where(consumed, (m: Message) => m.ErrorMsg? && m.err.ErrOther?)|
  {
    if consumed == [] {
    } else {
      var before, last := consumed[..|consumed| - 1], consumed[|consumed| - 1];
      assert consumed == before + [last];
      CountIs(before);
      WhereNext(before, last, (m: Message) => m.SubscriptionMsg? && m.source.Some?);
      WhereNext(before, last, (m: Message) => m.SubscriptionMsg? && m.source.None?);
      WhereNext(before, last, (m: Message) => m.EventMsg? && m.event.Some?);
      WhereNext(before, last, (m: Message) => m.EventMsg? && m.event.None?);
      WhereNext(before, last, (m: Message) => m == ErrorMsg(ErrSourceClosed));
      WhereNext(before, last, (m: Message) => m == ErrorMsg(ErrUnrecognizedEventType));
      WhereNext(before, last, (m: Message) => m.ErrorMsg? && m.err.ErrOther?);
    }
  }

  // Launches follow from the messages taken, whatever their order; a call is made for every launch
  // but possibly the last.
  lemma LaunchesConserved(subscribes: seq<SubscribeResult>, nexts: seq<NextResult>, schedule: seq<Action>)
    ensures var s := Run(subscribes, nexts, schedule);
            var t := Count(s.consumed);
            && s.subscribeLaunches == 1 + t.nilSubs + t.nils / 3 + t.closed
            && s.nextLaunches == t.okSubs + t.good + (t.nils - t.nils / 3) + t.unrecognized
            && SubscribeCalls(s.trace) <= s.subscribeLaunches
            && NextCalls(s.trace) <= s.nextLaunches
            && s.subscribeLaunches + s.nextLaunches <= SubscribeCalls(s.trace) + NextCalls(s.trace) + 1
  {
    Invariant(subscribes, nexts, schedule);
  }

  lemma {:induction false} CountTotals(consumed: seq<Message>)
    ensures var t := Count(consumed);
            t.okSubs + t.nilSubs + t.good + t.nils + t.closed + t.unrecognized + t.other == |consumed|
  {
    if consumed == [] {
    } else {
      CountTotals(consumed[..|consumed| - 1]);
    }
  }

  // The errorChan switch never meets an error outside its two cases.
  lemma {:induction false} NoOther(s: State, schedule: seq<Action>, total: seq<Observation>)
    requires Inv(s, total) && Count(s.consumed).other == 0
    ensures Count(Exec(s, schedule).consumed).other == 0
    decreases |schedule|
  {
    if schedule == [] {
    } else {
      var a := schedule[0];
      if Enabled(s, a) {
        InvStep(s, a, total);
        HistoryStep(s, a);
        if Taken(s, a).Some? {
          AppendCounted(s.consumed, Taken(s, a).value);
        }
        NoOther(Step(s, a), schedule[1..], total);
      } else {
        NoOther(s, schedule[1..], total);
      }
    }
  }

  // Every message taken launches exactly one goroutine: no error falls through the switch.
  lemma OneLaunchPerMessage(subscribes: seq<SubscribeResult>, nexts: seq<NextResult>, schedule: seq<Action>)
    ensures var s := Run(subscribes, nexts, schedule);
            Count(s.consumed).other == 0 && s.subscribeLaunches + s.nextLaunches == 1 + |s.consumed|
  {
    Invariant(subscribes, nexts, schedule);
    InvInit(subscribes, nexts);
    NoOther(Init(subscribes, nexts), schedule, Sequential(subscribes, nexts));
    CountTotals(Run(subscribes, nexts, schedule).consumed);
  }

  lemma NilEventTaken(s: State)
    requires Core(s)
    ensures s.nextErrCount == Count(s.consumed).nils % 3
    ensures s.status.Running? && s.eventChan == [None] ==>
              Step(s, TakeEvent).goroutines ==
              if (Count(s.consumed).nils + 1) % 3 == 0 then [Subscribing] else [Reading(s.subscription)]
  {
  }

  // The counter is the number of failures of the whole run modulo three, whatever happened in
  // between; a failure leads to a new subscription exactly when it is every third one of the run.
  lemma ThirdFailureResubscribes(subscribes: seq<SubscribeResult>, nexts: seq<NextResult>, schedule: seq<Action>)
    ensures var s := Run(subscribes, nexts, schedule);
            && s.nextErrCount == Count(s.consumed).nils % 3
            && (s.status.Running? && s.eventChan == [None] ==>
                  Step(s, TakeEvent).goroutines ==
                  if (Count(s.consumed).nils + 1) % 3 == 0 then [Subscribing] else [Reading(s.subscription)])
  {
    CoreHolds(subscribes, nexts, schedule);
    NilEventTaken(Run(subscribes, nexts, schedule));
  }

  // ---------- sources

  lemma {:induction false} LastSubscribedAt(trace: seq<Observation>) returns (j: nat)
    requires LastSubscribed(trace).Some?
    ensures j < |trace| && trace[j] == SubscribeCall(SubscribeResult(LastSubscribed(trace), false))
    ensures forall i :: j < i < |trace| ==> !trace[i].SubscribeCall?
  {
    var n := |trace| - 1;
    if trace[n].SubscribeCall? {
      j := n;
    } else {
      j := LastSubscribedAt(trace[..n]);
    }
  }

  // The call at k is made on the source that the latest Subscribe call before it returned.
  ghost predicate OnLatest(trace: seq<Observation>, k: nat, source: EventSource)
    requires k <= |trace|
  {
    exists j :: 0 <= j < k && trace[j] == SubscribeCall(SubscribeResult(Some(source), false)) &&
      forall i :: j < i < k ==> !trace[i].SubscribeCall?
  }

  lemma LatestBefore(trace: seq<Observation>, k: nat, source: EventSource)
    requires k <= |trace| && LastSubscribed(trace[..k]) == Some(source)
    ensures OnLatest(trace, k, source)
  {
    var j := LastSubscribedAt(trace[..k]);
    assert trace[j] == trace[..k][j];
    forall i | j < i < k
      ensures !trace[i].SubscribeCall?
    {
      assert trace[i] == trace[..k][i];
    }
  }

  lemma CallsOnLatest(trace: seq<Observation>)
    requires NeverStale(trace)
    ensures forall k: nat :: k < |trace| && trace[k].NextCall? ==> OnLatest(trace, k, trace[k].source)
  {
    forall k: nat | k < |trace| && trace[k].NextCall?
      ensures OnLatest(trace, k, trace[k].source)
    {
      LatestBefore(trace, k, trace[k].source);
    }
  }

  lemma CurrentIsLatest(s: State)
    requires Core(s) && Sourced(s)
    ensures InReadPhase(TokenOf(s)) ==> s.subscription.Some? && OnLatest(s.trace, |s.trace|, s.subscription.value)
  {
    assert s.trace[..|s.trace|] == s.trace;
    if InReadPhase(TokenOf(s)) {
      LatestBefore(s.trace, |s.trace|, s.subscription.value);
    }
  }

  // Next is only ever called on the source of the latest Subscribe call, which succeeded, and while
  // a Next call is due or its result is on its way that source is the current subscription.
  lemma SourcesAgree(subscribes: seq<SubscribeResult>, nexts: seq<NextResult>, schedule: seq<Action>)
    ensures var s := Run(subscribes, nexts, schedule);
            && (forall k: nat :: k < |s.trace| && s.trace[k].NextCall? ==> OnLatest(s.trace, k, s.trace[k].source))
            && (forall i :: 0 <= i < |s.goroutines| && s.goroutines[i].Reading? ==> s.goroutines[i].source == s.subscription)
            && (s.eventChan != [] || s.errorChan != [] ||
                (s.goroutines != [] && s.goroutines[0].Sending? && !s.goroutines[0].msg.SubscriptionMsg?) ==>
                  s.subscription.Some? && OnLatest(s.trace, |s.trace|, s.subscription.value))
  {
    Invariant(subscribes, nexts, schedule);
    var s := Run(subscribes, nexts, schedule);
    CallsOnLatest(s.trace);
    CurrentIsLatest(s);
  }

  // ---------- progress

  // Every action of the schedule is enabled when its turn comes and none is the signal.
  predicate SignalFree(s: State, schedule: seq<Action>)
    decreases |schedule|
  {
    schedule == [] ||
    (schedule[0] != TakeSignal && Enabled(s, schedule[0]) && SignalFree(Step(s, schedule[0]), schedule[1..]))
  }

  lemma {:induction false} BoundedFrom(s: State, schedule: seq<Action>)
    requires Core(s) && SignalFree(s, schedule)
    ensures |schedule| <= Measure(s)
    decreases |schedule|
  {
    if schedule == [] {
    } else {
      MeasureStep(s, schedule[0]);
      BoundedFrom(Step(s, schedule[0]), schedule[1..]);
    }
  }

  // Without a signal no run is longer than three steps for each result of the environment.
  lemma {:induction false} RunsAreBounded(subscribes: seq<SubscribeResult>, nexts: seq<NextResult>, schedule: seq<Action>)
    requires SignalFree(Init(subscribes, nexts), schedule)
    ensures |schedule| <= 3 * (|subscribes| + |nexts|)
  {
    BoundedFrom(Init(subscribes, nexts), schedule);
  }

  lemma RunsOn(s: State, a: Action)
    requires Core(s) && s.status.Running? && Enabled(s, a) && a != TakeSignal
    ensures Step(s, a).status.Running?
  {
  }

  lemma CanGoOn(s: State) returns (a: Action)
    requires Core(s) && s.status.Running? && !Quiet(s)
    ensures Enabled(s, a) && a != TakeSignal && Step(s, a).status.Running?
  {
    a :| Enabled(s, a) && a != TakeSignal;
    RunsOn(s, a);
  }

  lemma QuietIsWhole(s: State)
    requires Core(s) && s.status.Running? && Quiet(s)
    ensures Future(s) == []
  {
    QuietMeansStarved(s);
  }

  lemma {:induction false} CompleteFrom(s: State, total: seq<Observation>) returns (rest: seq<Action>)
    requires Core(s) && s.trace + Future(s) == total && s.status.Running?
    ensures SignalFree(s, rest) && Exec(s, rest).trace == total
    decreases Measure(s)
  {
    if Quiet(s) {
      QuietIsWhole(s);
      rest := [];
    } else {
      var a := CanGoOn(s);
      RefinesStep(s, a);
      MeasureStep(s, a);
      var later := CompleteFrom(Step(s, a), total);
      rest := [a] + later;
      assert rest[1..] == later;
    }
  }

  // From every moment of every run that is still running, some way on leads to the whole
  // sequential trace: the token is never lost.
  lemma CanComplete(subscribes: seq<SubscribeResult>, nexts: seq<NextResult>, schedule: seq<Action>)
    returns (rest: seq<Action>)
    requires Run(subscribes, nexts, schedule).status.Running?
    ensures SignalFree(Run(subscribes, nexts, schedule), rest)
    ensures Exec(Run(subscribes, nexts, schedule), rest).trace == Sequential(subscribes, nexts)
  {
    Invariant(subscribes, nexts, schedule);
    rest := CompleteFrom(Run(subscribes, nexts, schedule), Sequential(subscribes, nexts));
  }

  // ---------- shutdown

  lemma SeekingOrSubscribed(s: State)
    requires Core(s) && s.subscription.None?
    ensures || s.goroutines == [Subscribing]
            || s.subscriptionChan != []
            || (s.goroutines != [] && s.goroutines[0].Sending? && s.goroutines[0].msg.SubscriptionMsg?)
  {
  }

  // A signal stops the watcher cleanly, closing the last received source, exactly when the last
  // subscription result received was a source; otherwise Close is called on nil, which can only
  // happen while a subscription is being sought.
  lemma SignalStopsIffSubscribed(subscribes: seq<SubscribeResult>, nexts: seq<NextResult>, schedule: seq<Action>)
    requires Run(subscribes, nexts, schedule).status.Running?
    ensures var s := Run(subscribes, nexts, schedule);
            var s' := Step(s, TakeSignal);
            && (s'.status == Stopped <==> LastReceived(s.consumed).Some?)
            && (s'.status == PanickedOnClose <==> LastReceived(s.consumed).None?)
            && (s'.status == Stopped ==> s'.closed == [LastReceived(s.consumed).value])
            && (s'.status == PanickedOnClose ==>
                  || s.goroutines == [Subscribing]
                  || s.subscriptionChan != []
                  || (s.goroutines != [] && s.goroutines[0].Sending? && s.goroutines[0].msg.SubscriptionMsg?))
  {
    Invariant(subscribes, nexts, schedule);
    if Run(subscribes, nexts, schedule).subscription.None? {
      SeekingOrSubscribed(Run(subscribes, nexts, schedule));
    }
  }

  // The unconditional promise is false: a signal that comes first panics.
  lemma EarlySignalPanics()
    ensures Run([SubscribeResult(Some(EventSource(0)), false)], [], [TakeSignal]).status == PanickedOnClose
  {
    var schedule := [TakeSignal];
    assert schedule[1..] == [];
  }

  // Over any run at most one source is closed, and it is the last one received; the goroutine a
  // stop leaves behind is never blocked on its send, and blocked in its call only if the
  // environment does not answer.
  lemma ClosesAtMostOnce(subscribes: seq<SubscribeResult>, nexts: seq<NextResult>, schedule: seq<Action>)
    ensures var s := Run(subscribes, nexts, schedule);
            && (s.status == Stopped ==> LastReceived(s.consumed).Some? && s.closed == [LastReceived(s.consumed).value])
            && (s.status != Stopped ==> s.closed == [])
            && (s.status == Stopped && s.goroutines != [] ==>
                  match s.goroutines[0]
                  case Sending(_) => Enabled(s, Send(0))
                  case Subscribing => s.subscribes != [] ==> Enabled(s, Call(0))
                  case Reading(_) => s.nexts != [] ==> Enabled(s, Call(0)))
  {
    Invariant(subscribes, nexts, schedule);
  }
}
