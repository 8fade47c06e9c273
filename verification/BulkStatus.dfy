/**
 The bulk endpoint as the source has it: the works share a map and a lock that they change in
 place, and the throttler lets them go on in any order.
*/
module BulkStatus {
  import opened GoTypes
  import opened PodUtil
  import opened LrpStatus
  import opened GuidPattern
  import opened BulkModel
  import opened BulkTheorems

  // How the lookup of a guid's pods ends.
  datatype Listing = InvalidGuid | ListFailed | Listed(pods: seq<Pod>)

  // What the closure of a work holds or will be told: its guid, the pods the API will list for
  // it, the readings its clock will give and the decoding of the pods' guid labels.
  datatype Request = Request(guid: string, listing: Listing, clock: nat -> Int64, guidOf: string -> string)

  function WorkOf(r: Request): Work {
    Work(r.guid, match r.listing
                 case InvalidGuid => GivenUp
                 case ListFailed => GivenUp
                 case Listed(pods) => Reported(Report(pods, r.clock, r.guidOf)))
  }

  function WorksOf(requests: seq<Request>): seq<Work> {
    seq(|requests|, k requires 0 <= k < |requests| => WorkOf(requests[k]))
  }

  // ---------- what the map says about the pods

  // The report on the listed pods panics.
  ghost predicate PanicsOn(listing: Listing, clock: nat -> Int64, guidOf: string -> string) {
    listing.Listed? && Report(listing.pods, clock, guidOf).Panicked?
  }

  ghost predicate Finds(r: Request, es: Instances) {
    r.listing.Listed? && Report(r.listing.pods, r.clock, r.guidOf) == Returned(Some(es))
  }

  // What a work does with its guid and the pods listed for it.
  lemma WorkOfRequest(r: Request)
    ensures Panics(WorkOf(r)) <==> PanicsOn(r.listing, r.clock, r.guidOf)
    ensures forall es :: Finds(r, es) <==> Produced(WorkOf(r)) == Some(es)
    ensures WorkOf(r).guid == r.guid
  {
  }

  lemma PanicsIff(requests: seq<Request>)
    ensures !NonePanics(WorksOf(requests)) <==>
            exists k: nat :: k < |requests| && PanicsOn(requests[k].listing, requests[k].clock, requests[k].guidOf)
  {
    forall k | 0 <= k < |requests|
      ensures Panics(WorksOf(requests)[k]) <==> PanicsOn(requests[k].listing, requests[k].clock, requests[k].guidOf)
    {
      WorkOfRequest(requests[k]);
    }
  }

  // es is what the report on these pods returned; when their UIDs are distinct it is their status.
  ghost predicate IsReportOn(es: Instances, pods: seq<Pod>, clock: nat -> Int64, guidOf: string -> string) {
    && Report(pods, clock, guidOf) == Returned(Some(es))
    && (DistinctUids(pods) ==> IsStatusOf(es, pods, clock, guidOf))
  }

  lemma ReturnedIsReport(es: Instances, pods: seq<Pod>, clock: nat -> Int64, guidOf: string -> string)
    requires Report(pods, clock, guidOf) == Returned(Some(es))
    ensures IsReportOn(es, pods, clock, guidOf)
  {
    if DistinctUids(pods) {
      ReturnsIff(pods, clock, guidOf);
      ReportIsStatus(pods, clock, guidOf);
    }
  }

  // A report that is returned is not nil when some listed pod has an application container.
  lemma ReportFinds(pods: seq<Pod>, p: Pod, clock: nat -> Int64, guidOf: string -> string)
    requires Report(pods, clock, guidOf).Returned? && p in pods && HasApplication(p)
    ensures Report(pods, clock, guidOf).instances.Some?
  {
    ReportShows(pods, clock, guidOf);
    SortPodsMembers(pods, p);
    var i: nat :| i < |SortedPods(pods)| && SortedPods(pods)[i] == p;
    assert HasApplication(SortedPods(pods)[i]);
  }

  // And only then.
  lemma FoundApplication(pods: seq<Pod>, es: Instances, clock: nat -> Int64, guidOf: string -> string) returns (p: Pod)
    requires Report(pods, clock, guidOf) == Returned(Some(es))
    ensures p in pods && HasApplication(p)
  {
    ReportShows(pods, clock, guidOf);
    var sorted := SortedPods(pods);
    assert es != [];
    var first: nat := 0;
    assert es[first].index < |sorted| && Shows(es[first], sorted[es[first].index], es[first].index, clock(first), guidOf);
    p := sorted[es[first].index];
    SortPodsMembers(pods, p);
  }

  // The map holds for g the report on the pods listed for this guid, which is g.
  ghost predicate AnswersWith(bundle: Bundle, g: string, guid: string, listing: Listing, clock: nat -> Int64,
                              guidOf: string -> string)
  {
    g in bundle && guid == g && listing.Listed? && IsReportOn(bundle[g], listing.pods, clock, guidOf)
  }

  // The map answers the requests: every guid for which a pod with an application container is
  // listed is in it, and what it holds for a guid is the report on the pods listed for that guid.
  ghost predicate Answers(bundle: Bundle, requests: seq<Request>) {
    && (forall k, p ::
          0 <= k < |requests| && requests[k].listing.Listed? && p in requests[k].listing.pods && HasApplication(p) ==>
            requests[k].guid in bundle)
    && (forall g :: g in bundle ==>
          exists k: nat :: k < |requests| &&
            AnswersWith(bundle, g, requests[k].guid, requests[k].listing, requests[k].clock, requests[k].guidOf))
  }

  lemma BundleAnswers(bundle: Bundle, requests: seq<Request>)
    requires IsBundleOf(bundle, WorksOf(requests)) && NonePanics(WorksOf(requests))
    ensures Answers(bundle, requests)
  {
    var works := WorksOf(requests);
    forall k, p | 0 <= k < |requests| && requests[k].listing.Listed? && p in requests[k].listing.pods && HasApplication(p)
      ensures requests[k].guid in bundle
    {
      WorkOfRequest(requests[k]);
      assert !Panics(works[k]);
      ReportFinds(requests[k].listing.pods, p, requests[k].clock, requests[k].guidOf);
      assert Produced(works[k]).Some?;
    }
    forall g | g in bundle
      ensures exists k: nat :: k < |requests| &&
                AnswersWith(bundle, g, requests[k].guid, requests[k].listing, requests[k].clock, requests[k].guidOf)
    {
      assert ProducedFor(works, g, bundle[g]);
      var k :| 0 <= k < |works| && works[k].guid == g && Produced(works[k]) == Some(bundle[g]);
      WorkOfRequest(requests[k]);
      assert Finds(requests[k], bundle[g]);
      ReturnedIsReport(bundle[g], requests[k].listing.pods, requests[k].clock, requests[k].guidOf);
    }
  }

  // Reports on the pods listed for one guid that find instances find the same ones.
  ghost predicate ReportsAgree(requests: seq<Request>) {
    forall k, l, a, b | 0 <= k < |requests| && 0 <= l < |requests| && requests[k].guid == requests[l].guid ::
      Finds(requests[k], a) && Finds(requests[l], b) ==> a == b
  }

  lemma AgreeIff(requests: seq<Request>)
    ensures EqualGuidsAgree(WorksOf(requests)) <==> ReportsAgree(requests)
  {
    var works := WorksOf(requests);
    forall k | 0 <= k < |requests|
      ensures works[k].guid == requests[k].guid
      ensures forall es :: Finds(requests[k], es) <==> Produced(works[k]) == Some(es)
    {
      WorkOfRequest(requests[k]);
    }
    if EqualGuidsAgree(works) {
      forall k, l | 0 <= k < |requests| && 0 <= l < |requests|
        ensures !Disagree(works[k], works[l])
      {
        assert k < l ==> !Disagree(works[k], works[l]);
        assert l < k ==> !Disagree(works[l], works[k]);
      }
    }
  }

  // ---------- the fan-out

  class FanOut {
    const requests: seq<Request>
    const workers: int
    var phases: seq<Phase>
    var statusLock: Option<nat>
    var statusBundle: Bundle
    var panicked: bool
    var order: seq<nat>

    function Model(): State
      reads this
    {
      State(WorksOf(requests), workers, phases, statusLock, statusBundle, panicked, order)
    }

    // The lock discipline and the meaning of the map.
    ghost predicate Valid()
      reads this
    {
      workers >= 1 && Inv(Model())
    }

    constructor (requests: seq<Request>, workers: int)
      requires workers >= 1
      ensures this.requests == requests && this.workers == workers
      ensures Valid() && Model() == Init(WorksOf(requests), workers)
    {
      this.requests, this.workers := requests, workers;
      phases := seq(|requests|, _ => Waiting);
      statusLock, statusBundle, panicked, order := None, map[], false, [];
      new;
      assert Model() == Init(WorksOf(requests), workers);
      InvInit(WorksOf(requests), workers);
    }

    // The lookup of work w.
    method Fetch(w: nat)
      requires Enabled(Model(), w) && phases[w].Fetching?
      modifies this
      ensures Model() == Step(old(Model()), w)
      ensures var r := requests[w];
              if r.listing.Listed? then
                match Report(r.listing.pods, r.clock, r.guidOf)
                case Returned(instances) => !panicked && phases == old(phases)[w := Fetched(instances)]
                case Panicked(_) => panicked && phases == old(phases)[w := Done]
              else
                !panicked && phases == old(phases)[w := Done]
    {
      match requests[w].listing {
        case InvalidGuid => phases := phases[w := Done];
        case ListFailed => phases := phases[w := Done];
        case Listed(pods) =>
          var outcome := LRPInstances(pods, requests[w].clock, requests[w].guidOf);
          match outcome {
            case Returned(instances) => phases := phases[w := Fetched(instances)];
            case Panicked(_) => phases, panicked := phases[w := Done], true;
          }
      }
    }

    // The write of work w between Lock and Unlock.
    method Write(w: nat)
      requires Enabled(Model(), w) && (phases[w].Locked? || phases[w].Loaded?)
      modifies this
      ensures Model() == Step(old(Model()), w)
    {
      match phases[w] {
        case Locked(instances) =>
          if instances.Some? {
            phases := phases[w := Loaded(instances.value, statusBundle)];
          } else {
            phases := phases[w := Stored];
          }
        case Loaded(instances, snapshot) =>
          statusBundle := snapshot[requests[w].guid := instances];
          order := order + [w];
          phases := phases[w := Stored];
      }
    }

    // One step of the closure of work w.
    method Advance(w: nat)
      requires Valid() && Enabled(Model(), w)
      modifies this
      ensures Valid() && Model() == Step(old(Model()), w)
      ensures Left(phases) < old(Left(phases))
    {
      match phases[w] {
        case Waiting => phases := phases[w := Fetching];
        case Fetching => Fetch(w);
        case Fetched(instances) => phases, statusLock := phases[w := Locked(instances)], Some(w);
        case Locked(_) => Write(w);
        case Loaded(_, _) => Write(w);
        case Stored => phases, statusLock := phases[w := Done], None;
        case Done =>
      }
      InvStep(old(Model()), w);
      StepsRunOut(old(Model()), w);
    }

    // The throttler: as long as some work can go on, any one of them does.
    method Work()
      requires Valid()
      modifies this
      ensures Valid() && Ended(Model())
      ensures panicked <==>
              exists k: nat :: k < |requests| && PanicsOn(requests[k].listing, requests[k].clock, requests[k].guidOf)
      ensures !panicked ==> Answers(statusBundle, requests)
      ensures !panicked ==> IsBundleOf(statusBundle, WorksOf(requests))
      ensures !panicked && ReportsAgree(requests) ==> statusBundle == Sequential(WorksOf(requests))
    {
      while exists w :: 0 <= w < |phases| && Enabled(Model(), w)
        invariant Valid()
        decreases Left(phases)
      {
        var w :| 0 <= w < |phases| && Enabled(Model(), w);
        Advance(w);
      }
      if !Ended(Model()) {
        var w := NoDeadlock(Model());
      }
      EndedPanics(Model());
      AgreeIff(requests);
      if !panicked {
        DoneHolds(Model());
        SequentialHolds(WorksOf(requests));
        if EqualGuidsAgree(WorksOf(requests)) {
          BundlesAgree(statusBundle, Sequential(WorksOf(requests)), WorksOf(requests));
        }
      }
      PanicsIff(requests);
      if !panicked {
        BundleAnswers(statusBundle, requests);
      }
    }
  }

  // ---------- the endpoint

  datatype Response = BadRequest | InternalServerError | ProcessPanicked | OK(statusBundle: Bundle)

  // The pods listed have distinct UIDs and, if they report, start times.
  ghost predicate Proper(listing: Listing) {
    listing.Listed? ==> DistinctUids(listing.pods) && AllStarted(listing.pods)
  }

  // The map answers the guids: every guid for which a pod with an application container is listed
  // is in it, and what it holds for a guid is the report on the pods listed for that guid; listing k
  // and clock k are those of the guid in place k.
  ghost predicate AnswersGuids(bundle: Bundle, guids: seq<string>, listings: nat -> Listing, clocks: nat -> nat -> Int64,
                               guidOf: string -> string)
  {
    && (forall k: nat, p ::
          k < |guids| && listings(k).Listed? && p in listings(k).pods && HasApplication(p) ==> guids[k] in bundle)
    && (forall g :: g in bundle ==>
          exists k: nat :: k < |guids| && AnswersWith(bundle, g, guids[k], listings(k), clocks(k), guidOf))
  }

  // One request for each listed guid.
  function RequestsFor(guids: seq<string>, listings: nat -> Listing, clocks: nat -> nat -> Int64,
                       guidOf: string -> string): seq<Request>
  {
    seq(|guids|, k requires 0 <= k < |guids| => Request(guids[k], listings(k), clocks(k), guidOf))
  }

  lemma RequestAt(guids: seq<string>, listings: nat -> Listing, clocks: nat -> nat -> Int64, guidOf: string -> string,
                  k: nat)
    requires k < |guids|
    ensures |RequestsFor(guids, listings, clocks, guidOf)| == |guids|
    ensures RequestsFor(guids, listings, clocks, guidOf)[k] == Request(guids[k], listings(k), clocks(k), guidOf)
  {
  }

  lemma AnswerAt(bundle: Bundle, g: string, guids: seq<string>, listings: nat -> Listing, clocks: nat -> nat -> Int64,
                 guidOf: string -> string)
    requires Answers(bundle, RequestsFor(guids, listings, clocks, guidOf)) && g in bundle
    ensures exists k: nat :: k < |guids| && AnswersWith(bundle, g, guids[k], listings(k), clocks(k), guidOf)
  {
    var requests := RequestsFor(guids, listings, clocks, guidOf);
    var k: nat :| k < |requests| &&
                  AnswersWith(bundle, g, requests[k].guid, requests[k].listing, requests[k].clock, requests[k].guidOf);
    RequestAt(guids, listings, clocks, guidOf, k);
    assert AnswersWith(bundle, g, guids[k], listings(k), clocks(k), guidOf);
  }

  lemma AnswersRequests(bundle: Bundle, guids: seq<string>, listings: nat -> Listing, clocks: nat -> nat -> Int64,
                        guidOf: string -> string)
    requires Answers(bundle, RequestsFor(guids, listings, clocks, guidOf))
    ensures AnswersGuids(bundle, guids, listings, clocks, guidOf)
  {
    var requests := RequestsFor(guids, listings, clocks, guidOf);
    forall k: nat, p | k < |guids| && listings(k).Listed? && p in listings(k).pods && HasApplication(p)
      ensures guids[k] in bundle
    {
      RequestAt(guids, listings, clocks, guidOf, k);
      assert p in requests[k].listing.pods;
    }
    forall g | g in bundle
      ensures exists k: nat :: k < |guids| && AnswersWith(bundle, g, guids[k], listings(k), clocks(k), guidOf)
    {
      AnswerAt(bundle, g, guids, listings, clocks, guidOf);
    }
  }

  // When the reports on the pods listed for a guid agree, the map holds the one they agree on,
  // whatever the interleaving was.
  lemma AgreedAnswer(bundle: Bundle, guids: seq<string>, listings: nat -> Listing, clocks: nat -> nat -> Int64,
                     guidOf: string -> string, k: nat, es: Instances)
    requires AnswersGuids(bundle, guids, listings, clocks, guidOf)
    requires k < |guids| && listings(k).Listed? && Report(listings(k).pods, clocks(k), guidOf) == Returned(Some(es))
    requires forall l: nat :: l < |guids| && guids[l] == guids[k] && listings(l).Listed? ==>
               var r := Report(listings(l).pods, clocks(l), guidOf);
               r.Returned? && r.instances.Some? ==> r.instances.value == es
    ensures guids[k] in bundle && bundle[guids[k]] == es
  {
    var p := FoundApplication(listings(k).pods, es, clocks(k), guidOf);
  }

  // A report on proper pods never panics.
  lemma ProperReturns(listing: Listing, clock: nat -> Int64, guidOf: string -> string)
    requires Proper(listing)
    ensures !PanicsOn(listing, clock, guidOf)
  {
    if listing.Listed? {
      ReportIsStatus(listing.pods, clock, guidOf);
    }
  }

  lemma PanicsRequests(guids: seq<string>, listings: nat -> Listing, clocks: nat -> nat -> Int64, guidOf: string -> string)
    ensures var requests := RequestsFor(guids, listings, clocks, guidOf);
            (exists k: nat :: k < |requests| && PanicsOn(requests[k].listing, requests[k].clock, requests[k].guidOf)) <==>
            exists k: nat :: k < |guids| && PanicsOn(listings(k), clocks(k), guidOf)
  {
    var requests := RequestsFor(guids, listings, clocks, guidOf);
    forall k: nat | k < |guids|
      ensures PanicsOn(requests[k].listing, requests[k].clock, requests[k].guidOf) <==>
              PanicsOn(listings(k), clocks(k), guidOf)
    {
      assert requests[k] == Request(guids[k], listings(k), clocks(k), guidOf);
    }
  }

  // The fan-out and its response.
  method FanOutAll(guids: seq<string>, poolSize: int, listings: nat -> Listing, clocks: nat -> nat -> Int64,
                   guidOf: string -> string) returns (response: Response)
    requires poolSize >= 1
    ensures response == ProcessPanicked || response.OK?
    ensures response == ProcessPanicked <==> exists k: nat :: k < |guids| && PanicsOn(listings(k), clocks(k), guidOf)
    ensures response.OK? ==> AnswersGuids(response.statusBundle, guids, listings, clocks, guidOf)
  {
    var requests: seq<Request> := [];
    for k := 0 to |guids|
      invariant requests == RequestsFor(guids[..k], listings, clocks, guidOf)
    {
      requests := requests + [Request(guids[k], listings(k), clocks(k), guidOf)];
    }
    assert guids[..|guids|] == guids;
    var throttler := new FanOut(requests, poolSize);
    throttler.Work();
    PanicsRequests(guids, listings, clocks, guidOf);
    if throttler.panicked {
      response := ProcessPanicked;
    } else {
      response := OK(throttler.statusBundle);
      AnswersRequests(throttler.statusBundle, guids, listings, clocks, guidOf);
    }
  }

  // A malformed list is refused, as is a pool without workers; otherwise the process panics iff the
  // report on some listed pods does, and if not the response holds the map that answers the guids.
  // When the listings are proper nothing panics.
  method ServeHTTP(guidParameter: string, poolSize: int, listings: nat -> Listing, clocks: nat -> nat -> Int64,
                   guidOf: string -> string) returns (response: Response)
    ensures response == BadRequest <==> !AllValid(Split(guidParameter))
    ensures response == InternalServerError <==> AllValid(Split(guidParameter)) && poolSize < 1
    ensures response == ProcessPanicked <==>
            && AllValid(Split(guidParameter)) && poolSize >= 1
            && exists k: nat :: k < |Split(guidParameter)| && PanicsOn(listings(k), clocks(k), guidOf)
    ensures response.OK? ==> AnswersGuids(response.statusBundle, Split(guidParameter), listings, clocks, guidOf)
    ensures (forall k: nat :: k < |Split(guidParameter)| ==> Proper(listings(k))) ==> response != ProcessPanicked
  {
    PatternIffValid(guidParameter);
    if !Matches(PROCESS_GUID_PATTERN, guidParameter) {
      return BadRequest;
    }
    if poolSize < 1 {
      return InternalServerError;
    }
    var guids := Split(guidParameter);
    response := FanOutAll(guids, poolSize, listings, clocks, guidOf);
    forall k: nat | k < |guids| && Proper(listings(k))
      ensures !PanicsOn(listings(k), clocks(k), guidOf)
    {
      ProperReturns(listings(k), clocks(k), guidOf);
    }
  }
}
