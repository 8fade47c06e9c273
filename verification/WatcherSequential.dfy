/**
 The reference: the watcher as one sequential loop without goroutines, channels or a
 resettable counter - subscribe until it succeeds; read; handle the event; on every third
 failure of the whole run, or when the source closes, subscribe again.
*/
module WatcherSequential {
  import opened GoTypes
  import opened WatcherModel

  function Handle(e: Event): seq<Observation> {
    if IsAppCrash(e) then [Submit(Translate(e))] else []
  }

  function SubscribeLoop(subscribes: seq<SubscribeResult>, nexts: seq<NextResult>, failures: nat): seq<Observation>
    decreases |subscribes| + |nexts|, 1
  {
    if subscribes == [] then []
    else
      var r := subscribes[0];
      [SubscribeCall(r)] +
      if r.failed || r.source.None? then SubscribeLoop(subscribes[1..], nexts, failures)
      else ReadLoop(r.source.value, subscribes[1..], nexts, failures)
  }

  function ReadLoop(source: EventSource, subscribes: seq<SubscribeResult>, nexts: seq<NextResult>,
                    failures: nat): seq<Observation>
    decreases |subscribes| + |nexts|, 1
  {
    if nexts == [] then []
    else
      var r := nexts[0];
      [NextCall(source, r)] +
      if r.err == Some(ErrSourceClosed) then SubscribeLoop(subscribes, nexts[1..], failures)
      else if r.err == Some(ErrUnrecognizedEventType) then ReadLoop(source, subscribes, nexts[1..], failures)
      else if r.err.None? && r.event.Some? then
        Handle(r.event.value) + ReadLoop(source, subscribes, nexts[1..], failures)
      else AfterFailure(source, subscribes, nexts[1..], failures + 1)
  }

  // failures counts this one.
  function AfterFailure(source: EventSource, subscribes: seq<SubscribeResult>, nexts: seq<NextResult>,
                        failures: nat): seq<Observation>
    decreases |subscribes| + |nexts|, 2
  {
    if failures % 3 == 0 then SubscribeLoop(subscribes, nexts, failures)
    else ReadLoop(source, subscribes, nexts, failures)
  }

  function Sequential(subscribes: seq<SubscribeResult>, nexts: seq<NextResult>): seq<Observation> {
    SubscribeLoop(subscribes, nexts, 0)
  }
}
