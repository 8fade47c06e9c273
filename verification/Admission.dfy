/**
 The admission of requests (handler/handler.go) as a transition system: three routes, one
 counting semaphore.  A request that finds room is inside its delegate until the delegate
 returns or panics; the deferred receive then frees its place.
*/
module Admission {
  datatype Route = LRPStatus | LRPStats | BulkLRPStatus

  datatype Exit = Return | Panic

  datatype Phase =
    | Inside(route: Route)
    | Leaving(route: Route, exit: Exit)
    | Finished(route: Route, exit: Exit)
    | Unavailable(route: Route)  // answered 503

  datatype State = State(
    capacity: nat,
    length: nat,
    requests: map<nat, Phase>,
    admitted: nat,
    finished: nat)

  function Init(maxInFlight: nat): State {
    State(maxInFlight, 0, map[], 0, 0)
  }

  datatype Action =
    | Arrive(id: nat, route: Route)
    | Leave(id: nat, exit: Exit)
    | Receive(id: nat)

  // A receive from an empty channel blocks.
  predicate Enabled(s: State, a: Action) {
    match a
    case Arrive(id, _) => id !in s.requests
    case Leave(id, _) => id in s.requests && s.requests[id].Inside?
    case Receive(id) => id in s.requests && s.requests[id].Leaving? && s.length > 0
  }

  function Step(s: State, a: Action): State
    requires Enabled(s, a)
  {
    match a
    case Arrive(id, route) =>
      if s.length < s.capacity then
        s.(length := s.length + 1, requests := s.requests[id := Inside(route)], admitted := s.admitted + 1)
      else
        s.(requests := s.requests[id := Unavailable(route)])
    case Leave(id, exit) => s.(requests := s.requests[id := Leaving(s.requests[id].route, exit)])
    case Receive(id) =>
      var p := s.requests[id];
      s.(length := s.length - 1, requests := s.requests[id := Finished(p.route, p.exit)], finished := s.finished + 1)
  }

  function Exec(s: State, schedule: seq<Action>): State
    decreases |schedule|
  {
    if schedule == [] then s
    else Exec(if Enabled(s, schedule[0]) then Step(s, schedule[0]) else s, schedule[1..])
  }

  function Run(maxInFlight: nat, schedule: seq<Action>): State {
    Exec(Init(maxInFlight), schedule)
  }

  // The requests that hold a place.
  function Holders(s: State): set<nat> {
    set id | id in s.requests && (s.requests[id].Inside? || s.requests[id].Leaving?)
  }

  ghost predicate Inv(s: State) {
    && s.length == |Holders(s)|
    && s.length <= s.capacity
    && s.admitted == s.finished + s.length
  }

  lemma InvStep(s: State, a: Action)
    requires Inv(s) && Enabled(s, a)
    ensures Inv(Step(s, a))
  {
    var s' := Step(s, a);
    match a
    case Arrive(id, _) =>
      assert Holders(s') == if s.length < s.capacity then Holders(s) + {id} else Holders(s);
    case Leave(id, _) =>
      assert Holders(s') == Holders(s);
    case Receive(id) =>
      assert Holders(s') == Holders(s) - {id};
  }

  lemma {:induction false} InvExec(s: State, schedule: seq<Action>)
    requires Inv(s)
    ensures Inv(Exec(s, schedule)) && Exec(s, schedule).capacity == s.capacity
    decreases |schedule|
  {
    if schedule == [] {
    } else {
      if Enabled(s, schedule[0]) {
        InvStep(s, schedule[0]);
        InvExec(Step(s, schedule[0]), schedule[1..]);
      } else {
        InvExec(s, schedule[1..]);
      }
    }
  }

  // At every moment of every run over the three routes: the semaphore counts the requests that
  // hold a place, of which there are never more than maxInFlight and as many as were admitted
  // and are not finished; an arrival is answered 503 exactly when maxInFlight requests hold a
  // place; and a deferred receive never blocks.
  lemma AdmissionSafe(maxInFlight: nat, schedule: seq<Action>)
    ensures var s := Run(maxInFlight, schedule);
            && s.length == |Holders(s)| == s.admitted - s.finished
            && |Holders(s)| <= maxInFlight
            && (forall id: nat, route :: Enabled(s, Arrive(id, route)) ==>
                  (Step(s, Arrive(id, route)).requests[id] == Unavailable(route) <==> |Holders(s)| == maxInFlight))
            && (forall id :: id in s.requests && s.requests[id].Leaving? ==> Enabled(s, Receive(id)))
  {
    assert Holders(Init(maxInFlight)) == {};
    InvExec(Init(maxInFlight), schedule);
    var s := Run(maxInFlight, schedule);
    forall id | id in s.requests && s.requests[id].Leaving?
      ensures Enabled(s, Receive(id))
    {
      assert id in Holders(s);
    }
  }

  // The arrivals of the given requests, each on some route.
  function Arrivals(ids: seq<nat>, routes: nat -> Route): seq<Action> {
    if ids == [] then [] else [Arrive(ids[0], routes(ids[0]))] + Arrivals(ids[1..], routes)
  }

  lemma {:induction false} RoomForAll(s: State, ids: seq<nat>, routes: nat -> Route)
    requires forall i :: 0 <= i < |ids| ==> ids[i] !in s.requests
    requires forall i, j :: 0 <= i < j < |ids| ==> ids[i] != ids[j]
    requires s.length + |ids| <= s.capacity
    ensures var s' := Exec(s, Arrivals(ids, routes));
            && s'.length == s.length + |ids| && s'.capacity == s.capacity
            && (forall i :: 0 <= i < |ids| ==> ids[i] in s'.requests && s'.requests[ids[i]] == Inside(routes(ids[i])))
            && (forall id :: id in s.requests ==> id in s'.requests && s'.requests[id] == s.requests[id])
    decreases |ids|
  {
    if ids == [] {
    } else {
      var a := Arrive(ids[0], routes(ids[0]));
      assert Arrivals(ids, routes)[1..] == Arrivals(ids[1..], routes);
      RoomForAll(Step(s, a), ids[1..], routes);
    }
  }

  // A run that has drained, whether its requests returned or panicked, can again admit any
  // maxInFlight requests on any routes.
  lemma DrainedAdmitsAgain(maxInFlight: nat, schedule: seq<Action>, ids: seq<nat>, routes: nat -> Route)
    requires Holders(Run(maxInFlight, schedule)) == {}
    requires forall i :: 0 <= i < |ids| ==> ids[i] !in Run(maxInFlight, schedule).requests
    requires forall i, j :: 0 <= i < j < |ids| ==> ids[i] != ids[j]
    requires |ids| <= maxInFlight
    ensures var s := Exec(Run(maxInFlight, schedule), Arrivals(ids, routes));
            forall i :: 0 <= i < |ids| ==> ids[i] in s.requests && s.requests[ids[i]] == Inside(routes(ids[i]))
  {
    AdmissionSafe(maxInFlight, schedule);
    InvExec(Init(maxInFlight), schedule);
    RoomForAll(Run(maxInFlight, schedule), ids, routes);
  }

  lemma {:induction false} DrainFrom(s: State) returns (rest: seq<Action>)
    requires Inv(s)
    ensures Holders(Exec(s, rest)) == {}
    decreases s.length
  {
    if Holders(s) == {} {
      rest := [];
    } else {
      var id :| id in Holders(s);
      var s1 := if s.requests[id].Inside? then Step(s, Leave(id, Return)) else s;
      assert Holders(s1) == Holders(s);
      var s2 := Step(s1, Receive(id));
      assert Holders(s2) == Holders(s) - {id};
      var later := DrainFrom(s2);
      rest := if s.requests[id].Inside? then [Leave(id, Return), Receive(id)] + later else [Receive(id)] + later;
      if s.requests[id].Inside? {
        assert rest[1..] == [Receive(id)] + later;
        assert rest[1..][1..] == later;
      } else {
        assert rest[1..] == later;
      }
    }
  }

  // Every run can drain.
  lemma CanDrain(maxInFlight: nat, schedule: seq<Action>) returns (rest: seq<Action>)
    ensures Holders(Exec(Run(maxInFlight, schedule), rest)) == {}
  {
    assert Holders(Init(maxInFlight)) == {};
    InvExec(Init(maxInFlight), schedule);
    rest := DrainFrom(Run(maxInFlight, schedule));
  }
}
