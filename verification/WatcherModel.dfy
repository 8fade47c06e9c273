/**
 The data of the crash watcher (watcher/watcher.go) and its transition system.

 A state holds what `Run` and its goroutines share: the `subscription` variable, the error
 counter, the three capacity-1 channels and the goroutines that have been launched and have
 not finished.  The environment is a pair of scripts: the results that the coming
 `SubscribeToEvents` calls and the coming `Next` calls will have.  A call whose script is
 exhausted blocks.  The history fields record what happened; no step reads them.
*/
module WatcherModel {
  import opened GoTypes

  datatype EventSource = EventSource(id: nat)

  datatype CrashedEvent = CrashedEvent(
    processGuid: string,
    index: Int32,
    domain: string,
    instanceGuid: string,
    crashReason: string,
    crashCount: Int32,
    since: Int64)

  datatype Event = ActualLRPCrashed(crash: CrashedEvent) | OtherEvent(name: string)

  datatype AppCrashedRequest = AppCrashedRequest(
    instance: string,
    index: int,
    reason: string,
    exitDescription: string,
    crashCount: int,
    crashTimestamp: Int64)

  // The value comes from the runtime-schema library; no proof depends on it.
  const APP_LRP_DOMAIN := "cf-apps"

  // One submission to the work pool: record this crash with the cloud controller.
  datatype CrashJob = CrashJob(guid: string, request: AppCrashedRequest)

  predicate IsAppCrash(e: Event) {
    e.ActualLRPCrashed? && e.crash.domain == APP_LRP_DOMAIN
  }

  function Translate(e: Event): CrashJob
    requires IsAppCrash(e)
  {
    var c := e.crash;
    CrashJob(c.processGuid,
             AppCrashedRequest(c.instanceGuid, c.index, "CRASHED", c.crashReason, c.crashCount, c.since))
  }

  datatype Error = ErrSourceClosed | ErrUnrecognizedEventType | ErrOther(code: nat)

  // SubscribeToEvents returns (source, err).
  datatype SubscribeResult = SubscribeResult(source: Option<EventSource>, failed: bool)

  // EventSource.Next returns (event, err); err is None when it is nil.
  datatype NextResult = NextResult(event: Option<Event>, err: Option<Error>)

  // What a goroutine sends, tagged with the channel it goes to.
  datatype Message =
    | SubscriptionMsg(source: Option<EventSource>)
    | EventMsg(event: Option<Event>)
    | ErrorMsg(err: Error)

  // What subscribeToEvents sends for the result of the call.
  function SubscribeMessage(r: SubscribeResult): Message {
    SubscriptionMsg(if r.failed then None else r.source)
  }

  // What nextEvent sends for the result of the call.
  function NextMessage(r: NextResult): Message {
    match r.err
    case None => EventMsg(r.event)
    case Some(ErrSourceClosed) => ErrorMsg(ErrSourceClosed)
    case Some(ErrUnrecognizedEventType) => ErrorMsg(ErrUnrecognizedEventType)
    case Some(ErrOther(_)) => EventMsg(None)
  }

  // A launched goroutine that has not finished: about to call, or about to send.
  datatype Goroutine =
    | Subscribing
    | Reading(source: Option<EventSource>)
    | Sending(msg: Message)

  datatype Observation =
    | SubscribeCall(subscribed: SubscribeResult)
    | NextCall(source: EventSource, read: NextResult)
    | Submit(job: CrashJob)

  datatype Status = Running | Stopped | PanickedOnNext | PanickedOnClose

  datatype State = State(
    subscription: Option<EventSource>,
    nextErrCount: int,
    goroutines: seq<Goroutine>,
    subscriptionChan: seq<Option<EventSource>>,
    eventChan: seq<Option<Event>>,
    errorChan: seq<Error>,
    status: Status,
    // environment
    subscribes: seq<SubscribeResult>,
    nexts: seq<NextResult>,
    // history
    trace: seq<Observation>,
    consumed: seq<Message>,
    closed: seq<EventSource>,
    subscribeLaunches: nat,
    nextLaunches: nat)

  // All three channels are made with this capacity.
  const CAPACITY := 1

  function Init(subscribes: seq<SubscribeResult>, nexts: seq<NextResult>): State {
    State(None, 0, [Subscribing], [], [], [], Running, subscribes, nexts, [], [], [], 1, 0)
  }

  datatype Action =
    | Call(i: nat)   // goroutine i makes its call
    | Send(i: nat)   // goroutine i sends its message and ends
    | TakeSubscription
    | TakeEvent
    | TakeError
    | TakeSignal

  // Whether the channel that msg goes to has room.
  predicate HasRoom(s: State, msg: Message) {
    match msg
    case SubscriptionMsg(_) => |s.subscriptionChan| < CAPACITY
    case EventMsg(_) => |s.eventChan| < CAPACITY
    case ErrorMsg(_) => |s.errorChan| < CAPACITY
  }

  predicate CallReady(s: State, g: Goroutine) {
    match g
    case Subscribing => s.subscribes != []
    case Reading(None) => true
    case Reading(Some(_)) => s.nexts != []
    case Sending(_) => false
  }

  // After Run has returned its goroutines go on; a panic ends the process.
  predicate Enabled(s: State, a: Action) {
    match a
    case Call(i) =>
      (s.status.Running? || s.status.Stopped?) && i < |s.goroutines| && CallReady(s, s.goroutines[i])
    case Send(i) =>
      (s.status.Running? || s.status.Stopped?) && i < |s.goroutines| && s.goroutines[i].Sending? &&
      HasRoom(s, s.goroutines[i].msg)
    case TakeSubscription => s.status.Running? && s.subscriptionChan != []
    case TakeEvent => s.status.Running? && s.eventChan != []
    case TakeError => s.status.Running? && s.errorChan != []
    case TakeSignal => s.status.Running?
  }

  function LaunchSubscribe(s: State): State {
    s.(goroutines := s.goroutines + [Subscribing], subscribeLaunches := s.subscribeLaunches + 1)
  }

  function LaunchNext(s: State): State {
    s.(goroutines := s.goroutines + [Reading(s.subscription)], nextLaunches := s.nextLaunches + 1)
  }

  function AfterCall(s: State, i: nat): State
    requires Enabled(s, Call(i))
  {
    match s.goroutines[i]
    case Subscribing =>
      var r := s.subscribes[0];
      s.(goroutines := s.goroutines[i := Sending(SubscribeMessage(r))],
         subscribes := s.subscribes[1..],
         trace := s.trace + [SubscribeCall(r)])
    case Reading(None) =>
      s.(status := PanickedOnNext)
    case Reading(Some(source)) =>
      var r := s.nexts[0];
      s.(goroutines := s.goroutines[i := Sending(NextMessage(r))],
         nexts := s.nexts[1..],
         trace := s.trace + [NextCall(source, r)])
  }

  function AfterSend(s: State, i: nat): State
    requires Enabled(s, Send(i))
  {
    var s1 := s.(goroutines := s.goroutines[..i] + s.goroutines[i + 1..]);
    match s.goroutines[i].msg
    case SubscriptionMsg(source) => s1.(subscriptionChan := s.subscriptionChan + [source])
    case EventMsg(event) => s1.(eventChan := s.eventChan + [event])
    case ErrorMsg(err) => s1.(errorChan := s.errorChan + [err])
  }

  function HandleEvent(s: State, e: Event): State {
    if IsAppCrash(e) then s.(trace := s.trace + [Submit(Translate(e))]) else s
  }

  function AfterSubscription(s: State): State
    requires Enabled(s, TakeSubscription)
  {
    var source := s.subscriptionChan[0];
    var s1 := s.(subscriptionChan := s.subscriptionChan[1..],
                 subscription := source,
                 consumed := s.consumed + [SubscriptionMsg(source)]);
    if source.Some? then LaunchNext(s1) else LaunchSubscribe(s1)
  }

  function AfterEvent(s: State): State
    requires Enabled(s, TakeEvent)
  {
    var event := s.eventChan[0];
    var s1 := s.(eventChan := s.eventChan[1..], consumed := s.consumed + [EventMsg(event)]);
    if event.Some? then
      LaunchNext(HandleEvent(s1, event.value))
    else if s.nextErrCount + 1 > 2 then
      LaunchSubscribe(s1.(nextErrCount := 0))
    else
      LaunchNext(s1.(nextErrCount := s.nextErrCount + 1))
  }

  // The switch has no default: any other error launches nothing.
  function AfterError(s: State): State
    requires Enabled(s, TakeError)
  {
    var err := s.errorChan[0];
    var s1 := s.(errorChan := s.errorChan[1..], consumed := s.consumed + [ErrorMsg(err)]);
    match err
    case ErrSourceClosed => LaunchSubscribe(s1)
    case ErrUnrecognizedEventType => LaunchNext(s1)
    case ErrOther(_) => s1
  }

  // Close on a nil subscription is a nil dereference.
  function AfterSignal(s: State): State
    requires Enabled(s, TakeSignal)
  {
    match s.subscription
    case None => s.(status := PanickedOnClose)
    case Some(source) => s.(status := Stopped, closed := s.closed + [source])
  }

  function Step(s: State, a: Action): State
    requires Enabled(s, a)
  {
    match a
    case Call(i) => AfterCall(s, i)
    case Send(i) => AfterSend(s, i)
    case TakeSubscription => AfterSubscription(s)
    case TakeEvent => AfterEvent(s)
    case TakeError => AfterError(s)
    case TakeSignal => AfterSignal(s)
  }

  // A schedule is any list of actions; one that is not enabled when its turn comes is blocked
  // and changes nothing.  The reachable states are exactly Exec(Init(..), schedule).
  function Exec(s: State, schedule: seq<Action>): State
    decreases |schedule|
  {
    if schedule == [] then s
    else Exec(if Enabled(s, schedule[0]) then Step(s, schedule[0]) else s, schedule[1..])
  }
}
