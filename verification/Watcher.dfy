/**
 The watcher as the source has it: an object whose fields are the variables and channels of
 `Run`, updated by the select cases and by the goroutines.  Each method is proved against the
 transition system.
*/
module Watcher {
  import opened GoTypes
  import opened WatcherModel
  import opened WatcherSequential
  import opened WatcherInvariants
  import opened WatcherTheorems

  lemma {:induction false} CrashJobsPrefix(events: seq<Event>, n: nat)
    requires n <= |events|
    ensures CrashJobs(events[..n]) <= CrashJobs(events)
  {
    if n < |events| {
      var before := events[..|events| - 1];
      assert before[..n] == events[..n];
      CrashJobsPrefix(before, n);
    } else {
      assert events[..n] == events;
    }
  }

  class WatcherRun {
    var subscription: Option<EventSource>
    var nextErrCount: int
    var goroutines: seq<Goroutine>
    var subscriptionChan: seq<Option<EventSource>>
    var eventChan: seq<Option<Event>>
    var errorChan: seq<Error>
    var status: Status
    var subscribes: seq<SubscribeResult>
    var nexts: seq<NextResult>
    var trace: seq<Observation>
    var consumed: seq<Message>
    var closed: seq<EventSource>
    var subscribeLaunches: nat
    var nextLaunches: nat
    ghost const total: seq<Observation>  // the trace of the sequential loop

    function Model(): State
      reads this
    {
      State(subscription, nextErrCount, goroutines, subscriptionChan, eventChan, errorChan, status,
            subscribes, nexts, trace, consumed, closed, subscribeLaunches, nextLaunches)
    }

    // What every step keeps: the token, what follows from it, and past and future observations
    // that together are those of the sequential loop, which records the crashes it reads.
    ghost predicate Valid()
      reads this
    {
      Inv(Model(), total) && Recorded(total)
    }

    constructor (subscribes: seq<SubscribeResult>, nexts: seq<NextResult>)
      ensures Model() == Init(subscribes, nexts) && total == Sequential(subscribes, nexts)
      ensures Valid()
    {
      this.subscribes, this.nexts := subscribes, nexts;
      subscription, nextErrCount, status := None, 0, Running;
      subscriptionChan, eventChan, errorChan := [], [], [];
      goroutines := [Subscribing];
      trace, consumed, closed := [], [], [];
      subscribeLaunches, nextLaunches := 1, 0;
      total := Sequential(subscribes, nexts);
      new;
      InvInit(subscribes, nexts);
      SubscribeRecorded(subscribes, nexts, 0);
    }

    method GoSubscribe()
      modifies `goroutines, `subscribeLaunches
      ensures Model() == LaunchSubscribe(old(Model()))
    {
      goroutines := goroutines + [Subscribing];
      subscribeLaunches := subscribeLaunches + 1;
    }

    method GoNext()
      modifies `goroutines, `nextLaunches
      ensures Model() == LaunchNext(old(Model()))
    {
      goroutines := goroutines + [Reading(subscription)];
      nextLaunches := nextLaunches + 1;
    }

    // The call of subscribeToEvents or of nextEvent.
    method MakeCall(i: nat)
      requires Enabled(Model(), Call(i))
      modifies this
      ensures Model() == Step(old(Model()), Call(i))
    {
      match goroutines[i] {
        case Subscribing =>
          var r := subscribes[0];
          subscribes := subscribes[1..];
          trace := trace + [SubscribeCall(r)];
          goroutines := goroutines[i := Sending(SubscribeMessage(r))];
        case Reading(None) =>
          status := PanickedOnNext;
        case Reading(Some(source)) =>
          var r := nexts[0];
          nexts := nexts[1..];
          trace := trace + [NextCall(source, r)];
          goroutines := goroutines[i := Sending(NextMessage(r))];
      }
    }

    // The send that ends subscribeToEvents or nextEvent.
    method SendResult(i: nat)
      requires Enabled(Model(), Send(i))
      modifies this
      ensures Model() == Step(old(Model()), Send(i))
    {
      match goroutines[i].msg {
        case SubscriptionMsg(source) => subscriptionChan := subscriptionChan + [source];
        case EventMsg(event) => eventChan := eventChan + [event];
        case ErrorMsg(err) => errorChan := errorChan + [err];
      }
      goroutines := goroutines[..i] + goroutines[i + 1..];
    }

    method ReceiveSubscription()
      requires Enabled(Model(), TakeSubscription)
      modifies this
      ensures Model() == Step(old(Model()), TakeSubscription)
    {
      subscription, subscriptionChan := subscriptionChan[0], subscriptionChan[1..];
      consumed := consumed + [SubscriptionMsg(subscription)];
      if subscription.Some? {
        GoNext();
      } else {
        GoSubscribe();
      }
    }

    method HandleOne(event: Event)
      modifies `trace
      ensures Model() == HandleEvent(old(Model()), event)
      ensures if event.ActualLRPCrashed? && event.crash.domain == APP_LRP_DOMAIN then
                && |trace| == |old(trace)| + 1 && trace[..|old(trace)|] == old(trace)
                && var o := trace[|old(trace)|];
                && o.Submit?
                && o.job.guid == event.crash.processGuid
                && o.job.request.instance == event.crash.instanceGuid
                && o.job.request.index == event.crash.index
                && o.job.request.reason == "CRASHED"
                && o.job.request.exitDescription == event.crash.crashReason
                && o.job.request.crashCount == event.crash.crashCount
                && o.job.request.crashTimestamp == event.crash.since
              else
                trace == old(trace)
    {
      match event {
        case ActualLRPCrashed(crash) =>
          if crash.domain == APP_LRP_DOMAIN {
            var request := AppCrashedRequest(crash.instanceGuid, crash.index, "CRASHED", crash.crashReason,
                                             crash.crashCount, crash.since);
            trace := trace + [Submit(CrashJob(crash.processGuid, request))];
          }
        case OtherEvent(_) =>
      }
    }

    method ReceiveEvent()
      requires Enabled(Model(), TakeEvent)
      modifies this
      ensures Model() == Step(old(Model()), TakeEvent)
    {
      var event := eventChan[0];
      eventChan := eventChan[1..];
      consumed := consumed + [EventMsg(event)];
      if event.Some? {
        HandleOne(event.value);
      } else {
        nextErrCount := nextErrCount + 1;
        if nextErrCount > 2 {
          nextErrCount := 0;
          GoSubscribe();
          return;  // the break leaves the select only
        }
      }
      GoNext();
    }

    method ReceiveError()
      requires Enabled(Model(), TakeError)
      modifies this
      ensures Model() == Step(old(Model()), TakeError)
    {
      var err := errorChan[0];
      errorChan := errorChan[1..];
      consumed := consumed + [ErrorMsg(err)];
      match err {
        case ErrSourceClosed => GoSubscribe();
        case ErrUnrecognizedEventType => GoNext();
        case ErrOther(_) =>
      }
    }

    method ReceiveSignal()
      requires Enabled(Model(), TakeSignal)
      modifies this
      ensures Model() == Step(old(Model()), TakeSignal)
    {
      match subscription {
        case None => status := PanickedOnClose;
        case Some(source) =>
          closed := closed + [source];
          status := Stopped;
      }
    }

    // One step of Run or of a goroutine.  Whatever it is, it keeps Valid(): no send finds its channel
    // full and no Next call has a nil source.
    method Perform(a: Action)
      requires Valid() && Enabled(Model(), a)
      modifies this
      ensures Valid() && Model() == Step(old(Model()), a)
      ensures forall i :: 0 <= i < |goroutines| ==>
                (goroutines[i].Sending? ==> HasRoom(Model(), goroutines[i].msg)) && goroutines[i] != Reading(None)
    {
      InvStep(Model(), a, total);
      match a {
        case Call(i) => MakeCall(i);
        case Send(i) => SendResult(i);
        case TakeSubscription => ReceiveSubscription();
        case TakeEvent => ReceiveEvent();
        case TakeError => ReceiveError();
        case TakeSignal => ReceiveSignal();
      }
      forall i | 0 <= i < |goroutines|
        ensures (goroutines[i].Sending? ==> HasRoom(Model(), goroutines[i].msg)) && goroutines[i] != Reading(None)
      {
        CanProceed(Model(), total, i);
      }
    }

    // The select loop and its goroutines under a scheduler that proposes the actions of the
    // schedule one after the other.
    method RunLoop(schedule: seq<Action>)
      requires Valid()
      modifies this
      ensures Valid() && Model() == Exec(old(Model()), schedule)
      ensures trace <= total
      ensures Recorded(trace)
      ensures Submissions(trace) <= CrashJobs(Fetched(trace))
      ensures |closed| <= 1 && (closed != [] <==> status == Stopped)
    {
      var k := 0;
      while k < |schedule|
        invariant 0 <= k <= |schedule|
        invariant Valid()
        invariant Exec(Model(), schedule[k..]) == Exec(old(Model()), schedule)
      {
        var a := schedule[k];
        assert schedule[k..][1..] == schedule[k + 1..];
        if Enabled(Model(), a) {
          Perform(a);
        }
        k := k + 1;
      }
      PrefixRecorded(trace, total);
      assert Handled(consumed) == Fetched(trace)[..|Handled(consumed)|];
      CrashJobsPrefix(Fetched(trace), |Handled(consumed)|);
    }
  }
}
