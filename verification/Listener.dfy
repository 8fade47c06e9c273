/**
 The handlers as the source has them: `New` makes one semaphore and gives it to three handlers.
*/
module Listener {
  import opened GoTypes
  import opened Admission

  // A buffered channel of empty structs: only its length matters.
  class Semaphore {
    const capacity: nat
    var length: nat

    constructor (capacity: nat)
      ensures this.capacity == capacity && length == 0
    {
      this.capacity, length := capacity, 0;
    }

    // The select with a default.
    method TrySend() returns (sent: bool)
      modifies this
      ensures sent <==> old(length) < capacity
      ensures length == if sent then old(length) + 1 else old(length)
    {
      sent := length < capacity;
      if sent {
        length := length + 1;
      }
    }

    method Receive()
      requires length > 0
      modifies this
      ensures length == old(length) - 1
    {
      length := length - 1;
    }
  }

  class TpsHandler {
    const semaphore: Semaphore
    const route: Route

    constructor (semaphore: Semaphore, route: Route)
      ensures this.semaphore == semaphore && this.route == route
    {
      this.semaphore, this.route := semaphore, route;
    }
  }

  class Router {
    const status: TpsHandler
    const stats: TpsHandler
    const bulk: TpsHandler
    var requests: map<nat, Phase>
    var admitted: nat
    var finished: nat

    function Model(): State
      reads this, status.semaphore
    {
      State(status.semaphore.capacity, status.semaphore.length, requests, admitted, finished)
    }

    // The three handlers share their semaphore.
    ghost predicate Shared() {
      && status.semaphore == stats.semaphore == bulk.semaphore
      && status.route == LRPStatus && stats.route == LRPStats && bulk.route == BulkLRPStatus
    }

    // The semaphore counts the requests that hold a place.
    ghost predicate Valid()
      reads this, status.semaphore
    {
      Shared() && Inv(Model())
    }

    function HandlerFor(route: Route): (handler: TpsHandler)
      ensures Shared() ==> handler.route == route && handler.semaphore == status.semaphore
    {
      match route
      case LRPStatus => status
      case LRPStats => stats
      case BulkLRPStatus => bulk
    }

    constructor (maxInFlight: nat)
      ensures Valid() && Model() == Init(maxInFlight) && fresh(status.semaphore)
    {
      var semaphore := new Semaphore(maxInFlight);
      status := new TpsHandler(semaphore, LRPStatus);
      stats := new TpsHandler(semaphore, LRPStats);
      bulk := new TpsHandler(semaphore, BulkLRPStatus);
      requests, admitted, finished := map[], 0, 0;
      new;
      assert Holders(Init(maxInFlight)) == {};
    }

    // The select of ServeHTTP.
    method BeginRequest(id: nat, route: Route)
      requires Valid() && Enabled(Model(), Arrive(id, route))
      modifies this, status.semaphore
      ensures Valid() && Model() == Step(old(Model()), Arrive(id, route))
      ensures requests[id] == Unavailable(route) <==> |old(Holders(Model()))| == status.semaphore.capacity
    {
      InvStep(Model(), Arrive(id, route));
      var handler := HandlerFor(route);
      var sent := handler.semaphore.TrySend();
      if sent {
        requests := requests[id := Inside(route)];
        admitted := admitted + 1;
      } else {
        requests := requests[id := Unavailable(route)];
      }
    }

    // The delegate returns or panics.
    method LeaveDelegate(id: nat, exit: Exit)
      requires Valid() && Enabled(Model(), Leave(id, exit))
      modifies this
      ensures Valid() && Model() == Step(old(Model()), Leave(id, exit))
    {
      InvStep(Model(), Leave(id, exit));
      requests := requests[id := Leaving(requests[id].route, exit)];
    }

    // The deferred receive, through the handler the request came to; it does not block.
    method EndRequest(id: nat)
      requires Valid() && id in requests && requests[id].Leaving?
      modifies this, status.semaphore
      ensures old(Enabled(Model(), Receive(id)))
      ensures Valid() && Model() == Step(old(Model()), Receive(id))
    {
      assert id in Holders(Model());
      InvStep(Model(), Receive(id));
      var p := requests[id];
      var handler := HandlerFor(p.route);
      handler.semaphore.Receive();
      requests := requests[id := Finished(p.route, p.exit)];
      finished := finished + 1;
    }

    method Serve(schedule: seq<Action>)
      requires Valid()
      modifies this, status.semaphore
      ensures Valid() && Model() == Exec(old(Model()), schedule)
      ensures status.semaphore.length == |Holders(Model())| <= status.semaphore.capacity
    {
      var k := 0;
      while k < |schedule|
        invariant 0 <= k <= |schedule|
        invariant Valid()
        invariant Exec(Model(), schedule[k..]) == Exec(old(Model()), schedule)
      {
        var a := schedule[k];
        assert schedule[k..][1..] == schedule[k + 1..];
        if Enabled(Model(), a) {
          match a {
            case Arrive(id, route) => BeginRequest(id, route);
            case Leave(id, exit) => LeaveDelegate(id, exit);
            case Receive(id) => EndRequest(id);
          }
        }
        k := k + 1;
      }
    }
  }

  // A negative size makes the channel, and so New, panic: None.
  method New(maxInFlight: int) returns (router: Option<Router>)
    ensures router.None? <==> maxInFlight < 0
    ensures router.Some? ==> router.value.Valid() && router.value.Model() == Init(maxInFlight)
    ensures router.Some? ==> fresh(router.value) && fresh(router.value.status.semaphore)
  {
    if maxInFlight < 0 {
      return None;
    }
    var made := new Router(maxInFlight);
    router := Some(made);
  }
}
