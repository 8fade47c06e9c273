/**
 The fan-out of the bulk endpoint (handler/bulklrpstatus/bulklrpstatus.go) as a transition
 system: one work for each requested guid, run by a throttler with a bounded number of workers,
 all writing to one map under one lock.  The write is a read of the map and a store, so that it
 is the lock, not the model, that keeps an update from being lost.  A panic in a work ends the
 process.
*/
module BulkModel {
  import opened GoTypes
  import opened LrpStatus

  type Instances = seq<LRPInstance>

  // What becomes of a work's lookup: it is given up, or LRPInstances ends in this way.
  datatype Lookup = GivenUp | Reported(outcome: Outcome)

  datatype Work = Work(guid: string, lookup: Lookup)

  // The non-nil instances a work has to store, if any.
  function Produced(work: Work): Option<Instances> {
    if work.lookup.Reported? && work.lookup.outcome.Returned? then work.lookup.outcome.instances else None
  }

  predicate Panics(work: Work) {
    work.lookup.Reported? && work.lookup.outcome.Panicked?
  }

  type Bundle = map<string, Instances>

  datatype Phase =
    | Waiting
    | Fetching
    | Fetched(found: Option<Instances>)
    | Locked(held: Option<Instances>)
    | Loaded(value: Instances, snapshot: Bundle)
    | Stored
    | Done

  datatype State = State(
    works: seq<Work>,
    workers: int,
    phases: seq<Phase>,
    lock: Option<nat>,
    bundle: Bundle,
    panicked: bool,
    order: seq<nat>)  // history: the works that stored, in order

  function Init(works: seq<Work>, workers: int): State {
    State(works, workers, seq(|works|, _ => Waiting), None, map[], false, [])
  }

  predicate UnderWay(p: Phase) {
    !p.Waiting? && !p.Done?
  }

  function Active(phases: seq<Phase>): nat {
    if phases == [] then 0
    else Active(phases[..|phases| - 1]) + if UnderWay(phases[|phases| - 1]) then 1 else 0
  }

  // Work w can take its next step: a worker is free to start it, the lock is free to take.
  predicate Enabled(s: State, w: nat) {
    && w < |s.works| == |s.phases|
    && !s.panicked
    && match s.phases[w]
       case Waiting => Active(s.phases) < s.workers
       case Fetched(_) => s.lock.None?
       case Done => false
       case _ => true
  }

  function Step(s: State, w: nat): State
    requires Enabled(s, w)
  {
    match s.phases[w]
    case Waiting => s.(phases := s.phases[w := Fetching])
    case Fetching =>
      (match s.works[w].lookup
       case GivenUp => s.(phases := s.phases[w := Done])
       case Reported(Returned(instances)) => s.(phases := s.phases[w := Fetched(instances)])
       case Reported(Panicked(_)) => s.(phases := s.phases[w := Done], panicked := true))
    case Fetched(found) => s.(phases := s.phases[w := Locked(found)], lock := Some(w))
    case Locked(None) => s.(phases := s.phases[w := Stored])
    case Locked(Some(value)) => s.(phases := s.phases[w := Loaded(value, s.bundle)])
    case Loaded(value, snapshot) =>
      s.(phases := s.phases[w := Stored], bundle := snapshot[s.works[w].guid := value], order := s.order + [w])
    case Stored => s.(phases := s.phases[w := Done], lock := None)
    case Done => s
  }

  predicate AllDone(s: State) {
    forall w :: 0 <= w < |s.phases| ==> s.phases[w].Done?
  }

  // Nothing more will happen: the throttler returns, or the process is gone.
  predicate Ended(s: State) {
    s.panicked || AllDone(s)
  }

  // A work that cannot go on when its turn comes stays where it is.
  function Exec(s: State, schedule: seq<nat>): State
    decreases |schedule|
  {
    if schedule == [] then s
    else Exec(if Enabled(s, schedule[0]) then Step(s, schedule[0]) else s, schedule[1..])
  }

  // The sequential fold, left to right.
  function Sequential(works: seq<Work>): Bundle {
    if works == [] then map[]
    else
      var last, before := works[|works| - 1], Sequential(works[..|works| - 1]);
      if Produced(last).Some? then before[last.guid := Produced(last).value] else before
  }
}
