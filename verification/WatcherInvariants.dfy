/**
 What every step of the watcher keeps.  The core is that exactly one token exists: one
 launched goroutine or one queued message.  The other invariants speak about that token.
*/
module WatcherInvariants {
  import opened GoTypes
  import opened WatcherModel
  import opened WatcherSequential

  // ---------- measures of the histories

  datatype Tally = Tally(okSubs: nat, nilSubs: nat, good: nat, nils: nat, closed: nat, unrecognized: nat, other: nat)

  // How many messages of each kind Run has taken.
  function Count(consumed: seq<Message>): Tally {
    if consumed == [] then Tally(0, 0, 0, 0, 0, 0, 0)
    else
      var t := Count(consumed[..|consumed| - 1]);
      match consumed[|consumed| - 1]
      case SubscriptionMsg(Some(_)) => t.(okSubs := t.okSubs + 1)
      case SubscriptionMsg(None) => t.(nilSubs := t.nilSubs + 1)
      case EventMsg(Some(_)) => t.(good := t.good + 1)
      case EventMsg(None) => t.(nils := t.nils + 1)
      case ErrorMsg(ErrSourceClosed) => t.(closed := t.closed + 1)
      case ErrorMsg(ErrUnrecognizedEventType) => t.(unrecognized := t.unrecognized + 1)
      case ErrorMsg(ErrOther(_)) => t.(other := t.other + 1)
  }

  // The result of the last subscription message taken; None when there was none or it was nil.
  function LastReceived(consumed: seq<Message>): Option<EventSource> {
    if consumed == [] then None
    else
      var last := consumed[|consumed| - 1];
      if last.SubscriptionMsg? then last.source else LastReceived(consumed[..|consumed| - 1])
  }

  // The events Run has handled.
  function Handled(consumed: seq<Message>): seq<Event> {
    if consumed == [] then []
    else
      var last, before := consumed[|consumed| - 1], Handled(consumed[..|consumed| - 1]);
      if last.EventMsg? && last.event.Some? then before + [last.event.value] else before
  }

  // The events that Next calls returned, over all sources.
  function Fetched(trace: seq<Observation>): seq<Event> {
    if trace == [] then []
    else
      var last, before := trace[|trace| - 1], Fetched(trace[..|trace| - 1]);
      if last.NextCall? && last.read.err.None? && last.read.event.Some? then before + [last.read.event.value]
      else before
  }

  function Submissions(trace: seq<Observation>): seq<CrashJob> {
    if trace == [] then []
    else
      var last, before := trace[|trace| - 1], Submissions(trace[..|trace| - 1]);
      if last.Submit? then before + [last.job] else before
  }

  // The jobs the app crashes among the events call for, in order.
  function CrashJobs(events: seq<Event>): seq<CrashJob> {
    if events == [] then []
    else
      var last, before := events[|events| - 1], CrashJobs(events[..|events| - 1]);
      if IsAppCrash(last) then before + [Translate(last)] else before
  }

  function SubscribeCalls(trace: seq<Observation>): nat {
    if trace == [] then 0
    else SubscribeCalls(trace[..|trace| - 1]) + if trace[|trace| - 1].SubscribeCall? then 1 else 0
  }

  function NextCalls(trace: seq<Observation>): nat {
    if trace == [] then 0
    else NextCalls(trace[..|trace| - 1]) + if trace[|trace| - 1].NextCall? then 1 else 0
  }

  // The source the last Subscribe call in the trace gave.
  function LastSubscribed(trace: seq<Observation>): Option<EventSource> {
    if trace == [] then None
    else
      var last := trace[|trace| - 1];
      if last.SubscribeCall? then SubscribeMessage(last.subscribed).source
      else LastSubscribed(trace[..|trace| - 1])
  }

  // Every Next call is made on the source of the last Subscribe call before it.
  ghost predicate NeverStale(trace: seq<Observation>) {
    forall k :: 0 <= k < |trace| && trace[k].NextCall? ==> LastSubscribed(trace[..k]) == Some(trace[k].source)
  }

  // ---------- the token

  datatype Token = AtSubscribe | AtNext(source: Option<EventSource>) | Carrying(msg: Message)

  function TokenCount(s: State): nat {
    |s.goroutines| + |s.subscriptionChan| + |s.eventChan| + |s.errorChan|
  }

  function TokenOf(s: State): Token
    requires TokenCount(s) == 1
  {
    if s.goroutines != [] then
      match s.goroutines[0]
      case Subscribing => AtSubscribe
      case Reading(source) => AtNext(source)
      case Sending(msg) => Carrying(msg)
    else if s.subscriptionChan != [] then Carrying(SubscriptionMsg(s.subscriptionChan[0]))
    else if s.eventChan != [] then Carrying(EventMsg(s.eventChan[0]))
    else Carrying(ErrorMsg(s.errorChan[0]))
  }

  // The token is past a successful subscription: a Next call is due, or its result is on the way.
  predicate InReadPhase(t: Token) {
    match t
    case AtSubscribe => false
    case AtNext(_) => true
    case Carrying(msg) => !msg.SubscriptionMsg?
  }

  ghost predicate Core(s: State) {
    && TokenCount(s) == 1
    && s.status != PanickedOnNext
    && s.subscription == LastReceived(s.consumed)
    && s.nextErrCount == Count(s.consumed).nils % 3
    && (InReadPhase(TokenOf(s)) ==> s.subscription.Some?)
    && (TokenOf(s).AtNext? ==> TokenOf(s).source == s.subscription)
    && (TokenOf(s).Carrying? && TokenOf(s).msg.ErrorMsg? ==> !TokenOf(s).msg.err.ErrOther?)
  }

  lemma AppendMessage(consumed: seq<Message>, m: Message)
    ensures LastReceived(consumed + [m]) == if m.SubscriptionMsg? then m.source else LastReceived(consumed)
    ensures Count(consumed + [m]).nils == Count(consumed).nils + if m == EventMsg(None) then 1 else 0
  {
    assert (consumed + [m])[..|consumed + [m]| - 1] == consumed;
  }

  lemma AppendCounted(consumed: seq<Message>, m: Message)
    ensures Count(consumed + [m]) ==
            var t := Count(consumed);
            match m
            case SubscriptionMsg(Some(_)) => t.(okSubs := t.okSubs + 1)
            case SubscriptionMsg(None) => t.(nilSubs := t.nilSubs + 1)
            case EventMsg(Some(_)) => t.(good := t.good + 1)
            case EventMsg(None) => t.(nils := t.nils + 1)
            case ErrorMsg(ErrSourceClosed) => t.(closed := t.closed + 1)
            case ErrorMsg(ErrUnrecognizedEventType) => t.(unrecognized := t.unrecognized + 1)
            case ErrorMsg(ErrOther(_)) => t.(other := t.other + 1)
  {
    assert (consumed + [m])[..|consumed + [m]| - 1] == consumed;
  }

  lemma AppendHandled(consumed: seq<Message>, m: Message)
    ensures Handled(consumed + [m]) ==
            if m.EventMsg? && m.event.Some? then Handled(consumed) + [m.event.value] else Handled(consumed)
  {
    assert (consumed + [m])[..|consumed + [m]| - 1] == consumed;
  }

  lemma AppendCall(trace: seq<Observation>, o: Observation)
    ensures SubscribeCalls(trace + [o]) == SubscribeCalls(trace) + if o.SubscribeCall? then 1 else 0
    ensures NextCalls(trace + [o]) == NextCalls(trace) + if o.NextCall? then 1 else 0
  {
    assert (trace + [o])[..|trace + [o]| - 1] == trace;
  }

  lemma AppendSubmitted(trace: seq<Observation>, o: Observation)
    ensures Submissions(trace + [o]) == if o.Submit? then Submissions(trace) + [o.job] else Submissions(trace)
  {
    assert (trace + [o])[..|trace + [o]| - 1] == trace;
  }

  lemma AppendFetched(trace: seq<Observation>, o: Observation)
    ensures Fetched(trace + [o]) ==
            if o.NextCall? && o.read.err.None? && o.read.event.Some? then Fetched(trace) + [o.read.event.value]
            else Fetched(trace)
  {
    assert (trace + [o])[..|trace + [o]| - 1] == trace;
  }

  lemma AppendSubscribed(trace: seq<Observation>, o: Observation)
    ensures LastSubscribed(trace + [o]) ==
            if o.SubscribeCall? then SubscribeMessage(o.subscribed).source else LastSubscribed(trace)
  {
    assert (trace + [o])[..|trace + [o]| - 1] == trace;
  }

  lemma AppendEvent(events: seq<Event>, e: Event)
    ensures CrashJobs(events + [e]) == if IsAppCrash(e) then CrashJobs(events) + [Translate(e)] else CrashJobs(events)
  {
    assert (events + [e])[..|events + [e]| - 1] == events;
  }

  // What a step makes of the token.
  function NextToken(s: State, a: Action): Token
    requires Core(s) && Enabled(s, a)
  {
    match a
    case Call(_) =>
      if TokenOf(s).AtSubscribe? then Carrying(SubscribeMessage(s.subscribes[0]))
      else Carrying(NextMessage(s.nexts[0]))
    case Send(_) => TokenOf(s)
    case TakeSubscription => if s.subscriptionChan[0].Some? then AtNext(s.subscriptionChan[0]) else AtSubscribe
    case TakeEvent => if s.eventChan[0].None? && s.nextErrCount == 2 then AtSubscribe else AtNext(s.subscription)
    case TakeError => if s.errorChan[0].ErrSourceClosed? then AtSubscribe else AtNext(s.subscription)
    case TakeSignal => TokenOf(s)
  }

  lemma GoroutineMoves(s: State, a: Action)
    requires Core(s) && Enabled(s, a) && (a.Call? || a.Send?)
    ensures TokenCount(Step(s, a)) == 1 && TokenOf(Step(s, a)) == NextToken(s, a)
  {
    assert a.i == 0;
  }

  lemma TokenStep(s: State, a: Action)
    requires Core(s) && Enabled(s, a)
    ensures TokenCount(Step(s, a)) == 1 && TokenOf(Step(s, a)) == NextToken(s, a)
  {
    match a
    case Call(i) => GoroutineMoves(s, a);
    case Send(i) => GoroutineMoves(s, a);
    case TakeSubscription => assert TokenOf(s) == Carrying(SubscriptionMsg(s.subscriptionChan[0]));
    case TakeEvent => assert TokenOf(s) == Carrying(EventMsg(s.eventChan[0]));
    case TakeError => assert TokenOf(s) == Carrying(ErrorMsg(s.errorChan[0]));
    case TakeSignal =>
  }

  // The message Run takes in a step, if it takes one.
  function Taken(s: State, a: Action): Option<Message>
    requires Enabled(s, a)
  {
    match a
    case TakeSubscription => Some(SubscriptionMsg(s.subscriptionChan[0]))
    case TakeEvent => Some(EventMsg(s.eventChan[0]))
    case TakeError => Some(ErrorMsg(s.errorChan[0]))
    case _ => None
  }

  // The observation a step adds to the trace, if it adds one.
  function Seen(s: State, a: Action): Option<Observation>
    requires Core(s) && Enabled(s, a)
  {
    match a
    case Call(_) =>
      if TokenOf(s).AtSubscribe? then Some(SubscribeCall(s.subscribes[0]))
      else Some(NextCall(s.subscription.value, s.nexts[0]))
    case TakeEvent =>
      if s.eventChan[0].Some? && IsAppCrash(s.eventChan[0].value) then Some(Submit(Translate(s.eventChan[0].value)))
      else None
    case _ => None
  }

  lemma HistoryStep(s: State, a: Action)
    requires Core(s) && Enabled(s, a)
    ensures Taken(s, a).Some? ==> TokenOf(s) == Carrying(Taken(s, a).value)
    ensures Step(s, a).consumed == if Taken(s, a).Some? then s.consumed + [Taken(s, a).value] else s.consumed
    ensures Step(s, a).trace == if Seen(s, a).Some? then s.trace + [Seen(s, a).value] else s.trace
    ensures Step(s, a).subscribes == if a.Call? && TokenOf(s).AtSubscribe? then s.subscribes[1..] else s.subscribes
    ensures Step(s, a).nexts == if a.Call? && TokenOf(s).AtNext? then s.nexts[1..] else s.nexts
  {
  }

  lemma SharedStep(s: State, a: Action)
    requires Core(s) && Enabled(s, a)
    ensures Step(s, a).status != PanickedOnNext
    ensures Step(s, a).subscription == if a.TakeSubscription? then s.subscriptionChan[0] else s.subscription
    ensures Step(s, a).nextErrCount ==
            if Taken(s, a) == Some(EventMsg(None)) then (s.nextErrCount + 1) % 3 else s.nextErrCount
  {
  }

  // Core of the next state s', from what the step does.
  lemma CoreFollows(s: State, s': State, taken: Option<Message>, t: Token)
    requires Core(s) && s'.status != PanickedOnNext && TokenCount(s') == 1 && TokenOf(s') == t
    requires s'.consumed == if taken.Some? then s.consumed + [taken.value] else s.consumed
    requires s'.subscription == if taken.Some? && taken.value.SubscriptionMsg? then taken.value.source else s.subscription
    requires s'.nextErrCount == if taken == Some(EventMsg(None)) then (s.nextErrCount + 1) % 3 else s.nextErrCount
    requires InReadPhase(t) ==> s'.subscription.Some?
    requires t.AtNext? ==> t.source == s'.subscription
    requires t.Carrying? && t.msg.ErrorMsg? ==> !t.msg.err.ErrOther?
    ensures Core(s')
  {
    if taken.Some? {
      AppendMessage(s.consumed, taken.value);
    }
  }

  lemma NextTokenFits(s: State, a: Action)
    requires Core(s) && Enabled(s, a)
    ensures InReadPhase(NextToken(s, a)) ==> Step(s, a).subscription.Some?
    ensures NextToken(s, a).AtNext? ==> NextToken(s, a).source == Step(s, a).subscription
    ensures NextToken(s, a).Carrying? && NextToken(s, a).msg.ErrorMsg? ==> !NextToken(s, a).msg.err.ErrOther?
  {
  }

  // Every step keeps the token and what it says about the shared variables.
  lemma CoreStep(s: State, a: Action)
    requires Core(s) && Enabled(s, a)
    ensures Core(Step(s, a))
  {
    TokenStep(s, a);
    HistoryStep(s, a);
    SharedStep(s, a);
    NextTokenFits(s, a);
    CoreFollows(s, Step(s, a), Taken(s, a), NextToken(s, a));
  }

  // ---------- launches

  // Launches follow from the messages taken.
  ghost predicate LaunchesFollow(s: State) {
    var t := Count(s.consumed);
    && s.subscribeLaunches == 1 + t.nilSubs + t.nils / 3 + t.closed
    && s.nextLaunches == t.okSubs + t.good + (t.nils - t.nils / 3) + t.unrecognized
  }

  // Calls follow from launches.
  ghost predicate CallsFollow(s: State)
    requires TokenCount(s) == 1
  {
    && s.subscribeLaunches == SubscribeCalls(s.trace) + (if TokenOf(s).AtSubscribe? then 1 else 0)
    && s.nextLaunches == NextCalls(s.trace) + (if TokenOf(s).AtNext? then 1 else 0)
  }

  ghost predicate LaunchesAddUp(s: State)
    requires TokenCount(s) == 1
  {
    LaunchesFollow(s) && CallsFollow(s)
  }

  lemma LaunchStep(s: State, a: Action)
    requires Core(s) && Enabled(s, a)
    ensures Step(s, a).subscribeLaunches ==
            s.subscribeLaunches + if Taken(s, a).Some? && NextToken(s, a).AtSubscribe? then 1 else 0
    ensures Step(s, a).nextLaunches ==
            s.nextLaunches + if Taken(s, a).Some? && NextToken(s, a).AtNext? then 1 else 0
  {
  }

  lemma EveryThird(nils: nat)
    ensures (nils + 1) / 3 == nils / 3 + if nils % 3 == 2 then 1 else 0
  {
  }

  lemma LaunchesFollowStep(s: State, a: Action)
    requires Core(s) && LaunchesFollow(s) && Enabled(s, a)
    ensures LaunchesFollow(Step(s, a))
  {
    HistoryStep(s, a);
    LaunchStep(s, a);
    if Taken(s, a).Some? {
      AppendCounted(s.consumed, Taken(s, a).value);
      if a.TakeEvent? && s.eventChan[0].None? {
        EveryThird(Count(s.consumed).nils);
      }
    }
  }

  lemma CallsGrow(s: State, a: Action)
    requires Core(s) && Enabled(s, a)
    ensures SubscribeCalls(Step(s, a).trace) ==
            SubscribeCalls(s.trace) + if a.Call? && TokenOf(s).AtSubscribe? then 1 else 0
    ensures NextCalls(Step(s, a).trace) == NextCalls(s.trace) + if a.Call? && !TokenOf(s).AtSubscribe? then 1 else 0
  {
    HistoryStep(s, a);
    if Seen(s, a).Some? {
      AppendCall(s.trace, Seen(s, a).value);
    }
  }

  // A call ends a launch, a message taken begins one, and nothing else does either.
  lemma CallMoves(s: State, a: Action)
    requires Core(s) && Enabled(s, a)
    ensures a.Call? ==> (TokenOf(s).AtSubscribe? || TokenOf(s).AtNext?) && NextToken(s, a).Carrying?
    ensures Taken(s, a).Some? ==> TokenOf(s).Carrying?
    ensures !a.Call? && Taken(s, a).None? ==> NextToken(s, a) == TokenOf(s)
  {
    HistoryStep(s, a);
  }

  lemma CallsFollowStep(s: State, a: Action)
    requires Core(s) && CallsFollow(s) && Enabled(s, a)
    ensures TokenCount(Step(s, a)) == 1 && CallsFollow(Step(s, a))
  {
    TokenStep(s, a);
    LaunchStep(s, a);
    CallsGrow(s, a);
    CallMoves(s, a);
  }

  lemma LaunchesStep(s: State, a: Action)
    requires Core(s) && LaunchesAddUp(s) && Enabled(s, a)
    ensures Core(Step(s, a)) && LaunchesAddUp(Step(s, a))
  {
    CoreStep(s, a);
    LaunchesFollowStep(s, a);
    CallsFollowStep(s, a);
  }

  // ---------- delivery

  function InFlight(t: Token): seq<Event> {
    if t.Carrying? && t.msg.EventMsg? && t.msg.event.Some? then [t.msg.event.value] else []
  }

  ghost predicate Delivered(s: State)
    requires TokenCount(s) == 1
  {
    && Submissions(s.trace) == CrashJobs(Handled(s.consumed))
    && Fetched(s.trace) == Handled(s.consumed) + InFlight(TokenOf(s))
  }

  lemma SubmittedStep(s: State, a: Action)
    requires Core(s) && Submissions(s.trace) == CrashJobs(Handled(s.consumed)) && Enabled(s, a)
    ensures Submissions(Step(s, a).trace) == CrashJobs(Handled(Step(s, a).consumed))
  {
    HistoryStep(s, a);
    if Seen(s, a).Some? {
      AppendSubmitted(s.trace, Seen(s, a).value);
    }
    if Taken(s, a).Some? {
      AppendHandled(s.consumed, Taken(s, a).value);
      if a.TakeEvent? && s.eventChan[0].Some? {
        AppendEvent(Handled(s.consumed), s.eventChan[0].value);
      }
    }
  }

  // The event a step fetches, and the event it handles.
  function FetchedBy(s: State, a: Action): seq<Event>
    requires Core(s) && Enabled(s, a)
  {
    if a.Call? && !TokenOf(s).AtSubscribe? then InFlight(NextToken(s, a)) else []
  }

  function HandledBy(s: State, a: Action): seq<Event>
    requires Core(s) && Enabled(s, a)
  {
    if Taken(s, a).Some? then InFlight(TokenOf(s)) else []
  }

  lemma FetchedGrows(s: State, a: Action)
    requires Core(s) && Enabled(s, a)
    ensures Fetched(Step(s, a).trace) == Fetched(s.trace) + FetchedBy(s, a)
  {
    HistoryStep(s, a);
    if Seen(s, a).Some? {
      AppendFetched(s.trace, Seen(s, a).value);
    }
  }

  lemma HandledGrows(s: State, a: Action)
    requires Core(s) && Enabled(s, a)
    ensures Handled(Step(s, a).consumed) == Handled(s.consumed) + HandledBy(s, a)
  {
    HistoryStep(s, a);
    if Taken(s, a).Some? {
      AppendHandled(s.consumed, Taken(s, a).value);
    }
  }

  // A step moves the event in flight, and neither loses nor makes one.
  lemma FlightMoves(s: State, a: Action)
    requires Core(s) && Enabled(s, a)
    ensures InFlight(TokenOf(s)) + FetchedBy(s, a) == HandledBy(s, a) + InFlight(NextToken(s, a))
  {
    HistoryStep(s, a);
  }

  lemma FetchedStep(s: State, a: Action)
    requires Core(s) && Fetched(s.trace) == Handled(s.consumed) + InFlight(TokenOf(s)) && Enabled(s, a)
    ensures Core(Step(s, a))
    ensures Fetched(Step(s, a).trace) == Handled(Step(s, a).consumed) + InFlight(TokenOf(Step(s, a)))
  {
    CoreStep(s, a);
    TokenStep(s, a);
    FetchedGrows(s, a);
    HandledGrows(s, a);
    FlightMoves(s, a);
  }

  lemma DeliveredStep(s: State, a: Action)
    requires Core(s) && Delivered(s) && Enabled(s, a)
    ensures Core(Step(s, a)) && Delivered(Step(s, a))
  {
    SubmittedStep(s, a);
    FetchedStep(s, a);
  }

  // ---------- sources

  ghost predicate Sourced(s: State)
    requires TokenCount(s) == 1
  {
    && NeverStale(s.trace)
    && (InReadPhase(TokenOf(s)) ==> LastSubscribed(s.trace) == s.subscription)
    && (TokenOf(s).Carrying? && TokenOf(s).msg.SubscriptionMsg? ==> LastSubscribed(s.trace) == TokenOf(s).msg.source)
  }

  lemma NeverStaleAppend(trace: seq<Observation>, o: Observation)
    requires NeverStale(trace)
    requires o.NextCall? ==> LastSubscribed(trace) == Some(o.source)
    ensures NeverStale(trace + [o])
  {
    var longer := trace + [o];
    forall k | 0 <= k < |longer| && longer[k].NextCall?
      ensures LastSubscribed(longer[..k]) == Some(longer[k].source)
    {
      assert longer[..k] == trace[..k];
      assert trace[..|trace|] == trace;
    }
  }

  lemma NeverStaleStep(s: State, a: Action)
    requires Core(s) && Sourced(s) && Enabled(s, a)
    ensures NeverStale(Step(s, a).trace)
  {
    HistoryStep(s, a);
    if Seen(s, a).Some? {
      NeverStaleAppend(s.trace, Seen(s, a).value);
    }
  }

  lemma LatestStep(s: State, a: Action)
    requires Core(s) && Sourced(s) && Enabled(s, a)
    ensures InReadPhase(NextToken(s, a)) ==> LastSubscribed(Step(s, a).trace) == Step(s, a).subscription
    ensures NextToken(s, a).Carrying? && NextToken(s, a).msg.SubscriptionMsg? ==>
              LastSubscribed(Step(s, a).trace) == NextToken(s, a).msg.source
  {
    HistoryStep(s, a);
    SharedStep(s, a);
    if Seen(s, a).Some? {
      AppendSubscribed(s.trace, Seen(s, a).value);
    }
  }

  lemma SourcedStep(s: State, a: Action)
    requires Core(s) && Sourced(s) && Enabled(s, a)
    ensures Core(Step(s, a)) && Sourced(Step(s, a))
  {
    CoreStep(s, a);
    TokenStep(s, a);
    NeverStaleStep(s, a);
    LatestStep(s, a);
  }

  // ---------- shutdown

  ghost predicate ClosedWell(s: State) {
    && (s.status.Running? || s.status.PanickedOnClose? ==> s.closed == [])
    && (s.status.PanickedOnClose? ==> s.subscription.None?)
    && (s.status.Stopped? ==> s.subscription.Some? && s.closed == [s.subscription.value])
  }

  lemma ClosedStep(s: State, a: Action)
    requires Core(s) && ClosedWell(s) && Enabled(s, a)
    ensures ClosedWell(Step(s, a))
  {
  }

  // ---------- refinement

  // What the sequential loop still has to do when the token is a message on its way.
  function AfterMessage(m: Message, source: Option<EventSource>, subscribes: seq<SubscribeResult>,
                        nexts: seq<NextResult>, failures: nat): seq<Observation>
  {
    if m == SubscriptionMsg(None) || m == ErrorMsg(ErrSourceClosed) then SubscribeLoop(subscribes, nexts, failures)
    else if m.SubscriptionMsg? then ReadLoop(m.source.value, subscribes, nexts, failures)
    else if source.None? then []
    else if m.ErrorMsg? then ReadLoop(source.value, subscribes, nexts, failures)
    else if m.event.None? then AfterFailure(source.value, subscribes, nexts, failures + 1)
    else Handle(m.event.value) + ReadLoop(source.value, subscribes, nexts, failures)
  }

  function AfterToken(t: Token, source: Option<EventSource>, subscribes: seq<SubscribeResult>,
                      nexts: seq<NextResult>, failures: nat): seq<Observation>
  {
    match t
    case AtSubscribe => SubscribeLoop(subscribes, nexts, failures)
    case AtNext(None) => []
    case AtNext(Some(es)) => ReadLoop(es, subscribes, nexts, failures)
    case Carrying(m) => AfterMessage(m, source, subscribes, nexts, failures)
  }

  function Future(s: State): seq<Observation>
    requires TokenCount(s) == 1
  {
    AfterToken(TokenOf(s), s.subscription, s.subscribes, s.nexts, Count(s.consumed).nils)
  }

  // A call moves one observation from the future to the past.
  lemma CallUnfolds(s: State, i: nat)
    requires Core(s) && Enabled(s, Call(i))
    ensures Core(Step(s, Call(i)))
    ensures Future(s) == [Seen(s, Call(i)).value] + Future(Step(s, Call(i)))
  {
    CoreStep(s, Call(i));
    TokenStep(s, Call(i));
    HistoryStep(s, Call(i));
  }

  // Taking a message moves the submission it causes, if it causes one.
  lemma TakeUnfolds(s: State, a: Action)
    requires Core(s) && Enabled(s, a) && Taken(s, a).Some?
    ensures Core(Step(s, a))
    ensures Future(s) ==
            if Seen(s, a).Some? then [Seen(s, a).value] + Future(Step(s, a)) else Future(Step(s, a))
  {
    CoreStep(s, a);
    TokenStep(s, a);
    HistoryStep(s, a);
    AppendMessage(s.consumed, Taken(s, a).value);
  }

  lemma MoveOne(past: seq<Observation>, o: Observation, future: seq<Observation>)
    ensures (past + [o]) + future == past + ([o] + future)
  {
  }

  // The past and the future together never change.
  lemma RefinesStep(s: State, a: Action)
    requires Core(s) && Enabled(s, a)
    ensures Core(Step(s, a))
    ensures Step(s, a).trace + Future(Step(s, a)) == s.trace + Future(s)
  {
    CoreStep(s, a);
    HistoryStep(s, a);
    if a.Call? {
      CallUnfolds(s, a.i);
    } else if Taken(s, a).Some? {
      TakeUnfolds(s, a);
    } else {
      TokenStep(s, a);
      assert Future(Step(s, a)) == Future(s);
    }
    if Seen(s, a).Some? {
      MoveOne(s.trace, Seen(s, a).value, Future(Step(s, a)));
    }
  }

  // ---------- progress

  function Phase(t: Token, queued: bool): nat {
    if !t.Carrying? then 0 else if queued then 1 else 2
  }

  // Unused results weigh 3 each; sending and taking a message cost one each.
  function Measure(s: State): nat
    requires TokenCount(s) == 1
  {
    3 * (|s.subscribes| + |s.nexts|) + Phase(TokenOf(s), s.goroutines == [])
  }

  lemma MeasureStep(s: State, a: Action)
    requires Core(s) && Enabled(s, a) && a != TakeSignal
    ensures Core(Step(s, a)) && Measure(Step(s, a)) < Measure(s)
  {
    CoreStep(s, a);
    TokenStep(s, a);
    HistoryStep(s, a);
  }
}
