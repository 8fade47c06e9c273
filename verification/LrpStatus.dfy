/**
 The status report (handler/lrpstatus/lrpstatus.go): sort the pods, keep those that have an
 "application" container, and number and time them.

 guidOf stands for DecodeProcessGuid followed by String, whose error the source ignores; the
 clock gives its readings in nanoseconds, one for each entry that is made.
*/
module LrpStatus {
  import opened GoTypes
  import opened GoStrings
  import opened PodUtil
  import opened PodPositions

  datatype InstanceState = Starting | Running | Crashed | Down | Unknown

  datatype InstanceStats = InstanceStats(cpuPercentage: real, memoryBytes: nat, diskBytes: nat)

  datatype LRPInstance = LRPInstance(
    processGuid: string,
    instanceGuid: string,
    index: nat,
    since: Int64,
    uptime: Int64,
    state: InstanceState,
    stats: Option<InstanceStats>)

  const ZERO_INSTANCE := LRPInstance("", "", 0, 0, 0, Unknown, None)

  function StateOf(c: ContainerStatus): InstanceState {
    if c.waiting then Starting
    else if c.running then Running
    else if c.terminated then Down
    else Unknown
  }

  const APPLICATION := "application"

  // None is the empty state.
  function ContainerState(containers: seq<ContainerStatus>): Option<InstanceState> {
    if containers == [] then None
    else if containers[0].name == APPLICATION then Some(StateOf(containers[0]))
    else ContainerState(containers[1..])
  }

  // The flags of the first container named "application" decide; there is no state iff there is none.
  lemma {:induction false} FirstApplicationDecides(containers: seq<ContainerStatus>, k: nat)
    requires k <= |containers|
    requires forall i :: 0 <= i < k ==> containers[i].name != "application"
    requires k < |containers| ==> containers[k].name == "application"
    ensures ContainerState(containers) ==
            if k == |containers| then None
            else if containers[k].waiting then Some(Starting)
            else if containers[k].running then Some(Running)
            else if containers[k].terminated then Some(Down)
            else Some(Unknown)
  {
    if k > 0 {
      FirstApplicationDecides(containers[1..], k - 1);
    }
  }

  lemma {:induction false} FirstApplication(containers: seq<ContainerStatus>) returns (k: nat)
    ensures k <= |containers|
    ensures forall i :: 0 <= i < k ==> containers[i].name != "application"
    ensures k < |containers| ==> containers[k].name == "application"
  {
    if containers == [] || containers[0].name == "application" {
      k := 0;
    } else {
      k := FirstApplication(containers[1..]);
      k := k + 1;
    }
  }

  // No container is reported as crashed.
  lemma {:induction false} NeverCrashed(containers: seq<ContainerStatus>)
    ensures ContainerState(containers) != Some(Crashed)
  {
    if containers == [] {
    } else {
      NeverCrashed(containers[1..]);
    }
  }

  predicate Reports(p: Pod) {
    ContainerState(p.containers).Some?
  }

  // A pod reports iff it has a container named "application", in whatever state.
  lemma ReportsIff(p: Pod)
    ensures Reports(p) <==> exists k :: 0 <= k < |p.containers| && p.containers[k].name == "application"
  {
    var k := FirstApplication(p.containers);
    FirstApplicationDecides(p.containers, k);
  }

  datatype Fault = NilStartTime | IndexOutOfRange

  // The slice LRPInstances returns, None when nil; or the run-time panic it ends in.
  datatype Outcome = Returned(instances: Option<seq<LRPInstance>>) | Panicked(fault: Fault)

  // Uptime is the int64 difference of the nanoseconds, in seconds.
  function Uptime(start: int, now: int): Int64 {
    Seconds(Wrap64(now - start))
  }

  function Entry(p: Pod, index: nat, now: Int64, guidOf: string -> string): LRPInstance
    requires Reports(p) && p.startTime.Some?
  {
    var start := p.startTime.value;
    LRPInstance(guidOf(p.shortGuid), p.uid, index, Seconds(start), Uptime(start, now),
                ContainerState(p.containers).value, None)
  }

  // ---------- what an entry shows

  // The state that the flags of the first container named "application" stand for.
  ghost predicate ShowsState(containers: seq<ContainerStatus>, state: InstanceState) {
    exists k ::
      && 0 <= k < |containers| && containers[k].name == "application"
      && (forall i :: 0 <= i < k ==> containers[i].name != "application")
      && state == if containers[k].waiting then Starting
                  else if containers[k].running then Running
                  else if containers[k].terminated then Down
                  else Unknown
  }

  // The seconds are the nanoseconds divided by 1e9, rounded toward zero.
  ghost predicate Truncates(ns: int, seconds: int) {
    var rest := ns - 1_000_000_000 * seconds;
    -1_000_000_000 < rest < 1_000_000_000 && (ns >= 0 ==> rest >= 0) && (ns <= 0 ==> rest <= 0)
  }

  // The uptime is that of the int64 that equals now - start up to multiples of 2^64.
  ghost predicate UptimeOf(uptime: int, start: Int64, now: Int64) {
    exists d: Int64 :: Truncates(d, uptime) && (d - (now - start)) % 0x1_0000_0000_0000_0000 == 0
  }

  // e is what a report shows of pod p with this index and clock reading, field by field.
  ghost predicate Shows(e: LRPInstance, p: Pod, index: nat, now: Int64, guidOf: string -> string) {
    && e.processGuid == guidOf(p.shortGuid)
    && e.instanceGuid == p.uid
    && e.index == index
    && p.startTime.Some?
    && Truncates(p.startTime.value, e.since)
    && UptimeOf(e.uptime, p.startTime.value, now)
    && ShowsState(p.containers, e.state)
    && e.stats.None?
  }

  lemma SecondsTruncates(ns: Int64)
    ensures Truncates(ns, Seconds(ns))
  {
  }

  lemma WrapCongruent(x: int)
    ensures (Wrap64(x) - x) % 0x1_0000_0000_0000_0000 == 0
  {
    var q := (x + 0x8000_0000_0000_0000) / 0x1_0000_0000_0000_0000;
    assert Wrap64(x) - x == 0x1_0000_0000_0000_0000 * -q;
  }

  lemma ShowsUptime(start: Int64, now: Int64)
    ensures UptimeOf(Uptime(start, now), start, now)
  {
    SecondsTruncates(Wrap64(now - start));
    WrapCongruent(now - start);
  }

  lemma EntryShows(p: Pod, index: nat, now: Int64, guidOf: string -> string)
    requires Reports(p) && p.startTime.Some?
    ensures Shows(Entry(p, index, now, guidOf), p, index, now, guidOf)
  {
    var start := p.startTime.value;
    var k := FirstApplication(p.containers);
    FirstApplicationDecides(p.containers, k);
    SecondsTruncates(start);
    ShowsUptime(start, now);
  }

  // ---------- the loop

  datatype Scanned = Filled(entries: seq<LRPInstance>) | Faulted(fault: Fault)

  // One turn of the loop: the pod at the index, into a slice of the given length.
  function Turn(before: Scanned, p: Pod, index: nat, length: nat, clock: nat -> Int64, guidOf: string -> string): Scanned {
    if before.Faulted? || !Reports(p) then before
    else if p.startTime.None? then Faulted(NilStartTime)
    else if |before.entries| >= length then Faulted(IndexOutOfRange)
    else Filled(before.entries + [Entry(p, index, clock(|before.entries|), guidOf)])
  }

  // The loop over the sorted pods.
  function Scan(pods: seq<Pod>, length: nat, clock: nat -> Int64, guidOf: string -> string): Scanned {
    if pods == [] then Filled([])
    else
      var n := |pods| - 1;
      Turn(Scan(pods[..n], length, clock, guidOf), pods[n], n, length, clock, guidOf)
  }

  function Report(pods: seq<Pod>, clock: nat -> Int64, guidOf: string -> string): Outcome {
    match Scan(SortedPods(pods), |pods|, clock, guidOf)
    case Faulted(fault) => Panicked(fault)
    case Filled(entries) => Returned(if entries == [] then None else Some(entries))
  }

  lemma {:induction false} ScanStops(pods: seq<Pod>, n: nat, length: nat, clock: nat -> Int64, guidOf: string -> string)
    requires n <= |pods| && Scan(pods[..n], length, clock, guidOf).Faulted?
    ensures Scan(pods, length, clock, guidOf) == Scan(pods[..n], length, clock, guidOf)
    decreases |pods|
  {
    if n == |pods| {
      assert pods[..n] == pods;
    } else {
      var before := pods[..|pods| - 1];
      assert before[..n] == pods[..n];
      ScanStops(before, n, length, clock, guidOf);
    }
  }

  lemma ScanNext(pods: seq<Pod>, i: nat, length: nat, clock: nat -> Int64, guidOf: string -> string)
    requires i < |pods|
    ensures Scan(pods[..i + 1], length, clock, guidOf) ==
            Turn(Scan(pods[..i], length, clock, guidOf), pods[i], i, length, clock, guidOf)
  {
    assert pods[..i + 1][..i] == pods[..i];
  }

  lemma ScanSkips(pods: seq<Pod>, i: nat, length: nat, clock: nat -> Int64, guidOf: string -> string)
    requires i < |pods| && !Reports(pods[i])
    ensures Scan(pods[..i + 1], length, clock, guidOf) == Scan(pods[..i], length, clock, guidOf)
  {
    ScanNext(pods, i, length, clock, guidOf);
  }

  lemma ScanWrites(pods: seq<Pod>, i: nat, filled: seq<LRPInstance>, length: nat, clock: nat -> Int64,
                   guidOf: string -> string)
    requires i < |pods| && Scan(pods[..i], length, clock, guidOf) == Filled(filled) && |filled| < length
    requires Reports(pods[i]) && pods[i].startTime.Some?
    ensures Scan(pods[..i + 1], length, clock, guidOf) == Filled(filled + [Entry(pods[i], i, clock(|filled|), guidOf)])
  {
    ScanNext(pods, i, length, clock, guidOf);
  }

  // The turn that faults decides the report.
  lemma TurnFaults(actualPods: seq<Pod>, i: nat, filled: seq<LRPInstance>, clock: nat -> Int64, guidOf: string -> string)
    requires i < |SortedPods(actualPods)| && Reports(SortedPods(actualPods)[i])
    requires Scan(SortedPods(actualPods)[..i], |actualPods|, clock, guidOf) == Filled(filled)
    requires SortedPods(actualPods)[i].startTime.None? || |filled| >= |actualPods|
    ensures Report(actualPods, clock, guidOf) ==
            Panicked(if SortedPods(actualPods)[i].startTime.None? then NilStartTime else IndexOutOfRange)
  {
    ScanNext(SortedPods(actualPods), i, |actualPods|, clock, guidOf);
    ScanStops(SortedPods(actualPods), i + 1, |actualPods|, clock, guidOf);
  }

  // The body of the loop for a pod that reports: makes the instance and writes it at the cursor, or
  // says which panic the attempt is.
  method WriteInstance(instances: array<LRPInstance>, j: nat, pod: Pod, i: nat, clock: nat -> Int64,
                       guidOf: string -> string) returns (fault: Option<Fault>)
    requires j <= instances.Length && Reports(pod)
    modifies instances
    ensures fault == if pod.startTime.None? then Some(NilStartTime)
                     else if j == instances.Length then Some(IndexOutOfRange)
                     else None
    ensures fault.None? ==> instances[..j + 1] == old(instances[..j]) + [Entry(pod, i, clock(j), guidOf)]
    ensures fault.None? ==> Shows(instances[j], pod, i, clock(j), guidOf)
  {
    var state := ContainerState(pod.containers).value;
    if pod.startTime.None? {
      return Some(NilStartTime);
    }
    var start := pod.startTime.value;
    var now := clock(j);
    var instance := LRPInstance(guidOf(pod.shortGuid), pod.uid, i, Seconds(start), Uptime(start, now), state, None);
    if j >= instances.Length {
      return Some(IndexOutOfRange);
    }
    instances[j] := instance;
    EntryShows(pod, i, clock(j), guidOf);
    fault := None;
  }

  method LRPInstances(actualPods: seq<Pod>, clock: nat -> Int64, guidOf: string -> string)
    returns (outcome: Outcome)
    ensures outcome == Report(actualPods, clock, guidOf)
  {
    var instances := new LRPInstance[|actualPods|](_ => ZERO_INSTANCE);
    var j := 0;
    var pods := SortPods(actualPods);
    ghost var filled: seq<LRPInstance> := [];
    for i := 0 to |pods|
      invariant 0 <= j <= instances.Length
      invariant filled == instances[..j]
      invariant Scan(pods[..i], |actualPods|, clock, guidOf) == Filled(filled)
    {
      if Reports(pods[i]) {
        var fault := WriteInstance(instances, j, pods[i], i, clock, guidOf);
        if fault.Some? {
          TurnFaults(actualPods, i, filled, clock, guidOf);
          return Panicked(fault.value);
        }
        ScanWrites(pods, i, filled, |actualPods|, clock, guidOf);
        j := j + 1;
        filled := instances[..j];
      } else {
        ScanSkips(pods, i, |actualPods|, clock, guidOf);
      }
    }
    assert pods[..|pods|] == pods;
    if j >= 1 {
      outcome := Returned(Some(instances[0..j]));
    } else {
      outcome := Returned(None);
    }
  }

  // ---------- when it returns

  ghost predicate AllStarted(pods: seq<Pod>) {
    forall p :: p in pods && Reports(p) ==> p.startTime.Some?
  }

  lemma {:induction false} ScanFillsIff(pods: seq<Pod>, length: nat, clock: nat -> Int64, guidOf: string -> string)
    ensures var r := Scan(pods, length, clock, guidOf);
            && (r.Filled? <==> AllStarted(pods) && Kept(pods, Reports) <= length)
            && (r.Filled? ==> |r.entries| == Kept(pods, Reports))
  {
    if pods == [] {
    } else {
      var before, last := pods[..|pods| - 1], pods[|pods| - 1];
      assert pods == before + [last];
      ScanFillsIff(before, length, clock, guidOf);
    }
  }

  lemma SortedMembers(pods: seq<Pod>)
    ensures forall p :: p in SortedPods(pods) <==> p in pods
  {
    forall p
      ensures p in SortedPods(pods) <==> p in pods
    {
      SortPodsMembers(pods, p);
    }
  }

  // Any listing: LRPInstances returns iff every reporting pod has a start time and the
  // multiplicities of the reporting pods' UIDs add up to at most the length of the listing.
  lemma ReturnsIff(pods: seq<Pod>, clock: nat -> Int64, guidOf: string -> string)
    ensures Report(pods, clock, guidOf).Returned? <==> AllStarted(pods) && Weight(pods, pods, Reports) <= |pods|
  {
    ScanFillsIff(SortedPods(pods), |pods|, clock, guidOf);
    SortPodsKeeps(pods, Reports);
    SortedMembers(pods);
  }

  // The write past the slice comes first exactly when some part of the sorted listing, all of
  // whose reporting pods have start times, has one more reporting pod than the slice has room for.
  ghost predicate Overflows(pods: seq<Pod>, n: nat, length: nat) {
    n <= |pods| && AllStarted(pods[..n]) && Kept(pods[..n], Reports) == length + 1
  }

  lemma {:induction false} StartedNeverNil(pods: seq<Pod>, length: nat, clock: nat -> Int64, guidOf: string -> string)
    requires AllStarted(pods)
    ensures Scan(pods, length, clock, guidOf) != Faulted(NilStartTime)
  {
    if pods == [] {
    } else {
      StartedNeverNil(pods[..|pods| - 1], length, clock, guidOf);
    }
  }

  lemma OverflowFaults(pods: seq<Pod>, n: nat, length: nat, clock: nat -> Int64, guidOf: string -> string)
    requires Overflows(pods, n, length)
    ensures Scan(pods, length, clock, guidOf) == Faulted(IndexOutOfRange)
  {
    ScanFillsIff(pods[..n], length, clock, guidOf);
    StartedNeverNil(pods[..n], length, clock, guidOf);
    var fault := Scan(pods[..n], length, clock, guidOf).fault;
    assert fault.NilStartTime? || fault.IndexOutOfRange?;
    ScanStops(pods, n, length, clock, guidOf);
  }

  lemma {:induction false} FaultOverflows(pods: seq<Pod>, length: nat, clock: nat -> Int64, guidOf: string -> string)
    returns (n: nat)
    requires Scan(pods, length, clock, guidOf) == Faulted(IndexOutOfRange)
    ensures Overflows(pods, n, length)
  {
    var before, last := pods[..|pods| - 1], pods[|pods| - 1];
    if Scan(before, length, clock, guidOf).Faulted? {
      n := FaultOverflows(before, length, clock, guidOf);
      assert pods[..n] == before[..n];
    } else {
      ScanFillsIff(before, length, clock, guidOf);
      n := |pods|;
      assert pods[..n] == before + [last];
    }
  }

  // Any listing: LRPInstances ends in the write past its slice, not in the nil start time, exactly
  // when the write comes first.
  lemma OutOfRangeWhen(pods: seq<Pod>, clock: nat -> Int64, guidOf: string -> string)
    ensures Report(pods, clock, guidOf) == Panicked(IndexOutOfRange) <==>
            exists n: nat :: Overflows(SortedPods(pods), n, |pods|)
  {
    if n: nat :| Overflows(SortedPods(pods), n, |pods|) {
      OverflowFaults(SortedPods(pods), n, |pods|, clock, guidOf);
    }
    if Report(pods, clock, guidOf) == Panicked(IndexOutOfRange) {
      var n := FaultOverflows(SortedPods(pods), |pods|, clock, guidOf);
    }
  }

  lemma StartedReportNeverNil(pods: seq<Pod>, clock: nat -> Int64, guidOf: string -> string)
    requires AllStarted(pods)
    ensures Report(pods, clock, guidOf) != Panicked(NilStartTime)
  {
    SortedMembers(pods);
    StartedNeverNil(SortedPods(pods), |pods|, clock, guidOf);
  }

  lemma OnlyTwoFaults(r: Outcome)
    ensures r == Panicked(IndexOutOfRange) <==> !r.Returned? && r != Panicked(NilStartTime)
  {
    if r.Panicked? {
      assert r.fault.NilStartTime? || r.fault.IndexOutOfRange?;
    }
  }

  // With start times on the reporting pods, LRPInstances writes past its slice exactly when the
  // multiplicities of the reporting pods' UIDs add up to more than the length of the listing.
  lemma OutOfRangeIff(pods: seq<Pod>, clock: nat -> Int64, guidOf: string -> string)
    requires AllStarted(pods)
    ensures Report(pods, clock, guidOf) == Panicked(IndexOutOfRange) <==> Weight(pods, pods, Reports) > |pods|
  {
    ReturnsIff(pods, clock, guidOf);
    StartedReportNeverNil(pods, clock, guidOf);
    OnlyTwoFaults(Report(pods, clock, guidOf));
  }

  // Such a listing: one reporting pod, listed twice.
  lemma SharedUidPanics(p: Pod, clock: nat -> Int64, guidOf: string -> string)
    requires Reports(p) && p.startTime.Some?
    ensures Report([p, p], clock, guidOf) == Panicked(IndexOutOfRange)
  {
    var pods := [p, p];
    ListedTwice(pods, 0, 1);
    assert pods[..1] == [p] && [p][..0] == [];
    assert Weight([p], pods, Reports) == Multiplicity(pods, p.uid);
    OutOfRangeIff(pods, clock, guidOf);
  }

  // ---------- what it returns

  // The positions of the reporting pods.
  function Positions(pods: seq<Pod>): seq<nat> {
    if pods == [] then []
    else
      var n, before := |pods| - 1, Positions(pods[..|pods| - 1]);
      if Reports(pods[n]) then before + [n] else before
  }

  lemma {:induction false} PositionsAreReports(pods: seq<Pod>)
    ensures forall k :: 0 <= k < |Positions(pods)| ==> Positions(pods)[k] < |pods| && Reports(pods[Positions(pods)[k]])
    ensures forall k, l :: 0 <= k < l < |Positions(pods)| ==> Positions(pods)[k] < Positions(pods)[l]
    ensures forall i :: 0 <= i < |pods| && Reports(pods[i]) ==> i in Positions(pods)
  {
    if pods == [] {
    } else {
      PositionsAreReports(pods[..|pods| - 1]);
    }
  }

  ghost predicate MadeFrom(e: LRPInstance, pods: seq<Pod>, i: nat, now: Int64, guidOf: string -> string) {
    i < |pods| && Reports(pods[i]) && pods[i].startTime.Some? && e == Entry(pods[i], i, now, guidOf)
  }

  ghost predicate AllMade(es: seq<LRPInstance>, pods: seq<Pod>, clock: nat -> Int64, guidOf: string -> string) {
    && |es| == |Positions(pods)|
    && forall k :: 0 <= k < |es| ==> MadeFrom(es[k], pods, Positions(pods)[k], clock(k), guidOf)
  }

  lemma MadeFromLonger(e: LRPInstance, pods: seq<Pod>, p: Pod, i: nat, now: Int64, guidOf: string -> string)
    requires MadeFrom(e, pods, i, now, guidOf)
    ensures MadeFrom(e, pods + [p], i, now, guidOf)
  {
  }

  lemma PositionsNext(pods: seq<Pod>, p: Pod)
    ensures Positions(pods + [p]) == if Reports(p) then Positions(pods) + [|pods|] else Positions(pods)
  {
    assert (pods + [p])[..|pods|] == pods;
  }

  lemma MadeSkip(es: seq<LRPInstance>, pods: seq<Pod>, p: Pod, clock: nat -> Int64, guidOf: string -> string)
    requires AllMade(es, pods, clock, guidOf) && !Reports(p)
    ensures AllMade(es, pods + [p], clock, guidOf)
  {
    PositionsNext(pods, p);
    forall k | 0 <= k < |es|
      ensures MadeFrom(es[k], pods + [p], Positions(pods + [p])[k], clock(k), guidOf)
    {
      MadeFromLonger(es[k], pods, p, Positions(pods)[k], clock(k), guidOf);
    }
  }

  lemma MadeAddAt(es: seq<LRPInstance>, e: LRPInstance, pods: seq<Pod>, p: Pod, clock: nat -> Int64,
                  guidOf: string -> string, k: nat)
    requires AllMade(es, pods, clock, guidOf) && k <= |es|
    requires MadeFrom(e, pods + [p], |pods|, clock(|es|), guidOf)
    ensures MadeFrom((es + [e])[k], pods + [p], (Positions(pods) + [|pods|])[k], clock(k), guidOf)
  {
    if k < |es| {
      MadeFromLonger(es[k], pods, p, Positions(pods)[k], clock(k), guidOf);
    }
  }

  lemma MadeAdd(es: seq<LRPInstance>, e: LRPInstance, pods: seq<Pod>, p: Pod, clock: nat -> Int64, guidOf: string -> string)
    requires AllMade(es, pods, clock, guidOf) && Reports(p)
    requires MadeFrom(e, pods + [p], |pods|, clock(|es|), guidOf)
    ensures AllMade(es + [e], pods + [p], clock, guidOf)
  {
    PositionsNext(pods, p);
    forall k | 0 <= k < |es + [e]|
      ensures MadeFrom((es + [e])[k], pods + [p], Positions(pods + [p])[k], clock(k), guidOf)
    {
      MadeAddAt(es, e, pods, p, clock, guidOf, k);
    }
  }

  lemma {:induction false} ScanEntries(pods: seq<Pod>, length: nat, clock: nat -> Int64, guidOf: string -> string)
    requires Scan(pods, length, clock, guidOf).Filled?
    ensures AllMade(Scan(pods, length, clock, guidOf).entries, pods, clock, guidOf)
  {
    if pods == [] {
    } else {
      var before, last := pods[..|pods| - 1], pods[|pods| - 1];
      assert pods == before + [last];
      ScanEntries(before, length, clock, guidOf);
      var es := Scan(before, length, clock, guidOf).entries;
      if Reports(last) {
        var e := Entry(last, |before|, clock(|es|), guidOf);
        assert MadeFrom(e, pods, |before|, clock(|es|), guidOf);
        MadeAdd(es, e, before, last, clock, guidOf);
      } else {
        MadeSkip(es, before, last, clock, guidOf);
      }
    }
  }

  // The number of listed pods, reporting or not, with a smaller UID.
  ghost function Rank(pods: seq<Pod>, uid: string): nat {
    |set k: nat | k < |pods| && Less(pods[k].uid, uid)|
  }

  lemma RankKept(pods: seq<Pod>, uid: string)
    ensures Rank(pods, uid) == Kept(pods, Below(uid))
  {
    KeptCounts(pods, Below(uid));
    assert (set k: nat | k < |pods| && Below(uid)(pods[k])) == set k: nat | k < |pods| && Less(pods[k].uid, uid);
  }

  lemma StrictIsSorted(sorted: seq<Pod>)
    requires StrictlyByUid(sorted)
    ensures ByUid(sorted)
  {
    forall k, l | 0 <= k < l < |sorted|
      ensures !Less(sorted[l].uid, sorted[k].uid)
    {
      LessAsymmetric(sorted[k].uid, sorted[l].uid);
    }
  }

  lemma OnePlace(sorted: seq<Pod>, i: nat, k: nat)
    requires StrictlyByUid(sorted) && i < |sorted| && k < |sorted| && sorted[i].uid == sorted[k].uid
    ensures i == k
  {
    LessIrreflexive(sorted[i].uid);
  }

  lemma PositionCountsBelow(sorted: seq<Pod>, i: nat)
    requires StrictlyByUid(sorted) && i < |sorted|
    ensures Kept(sorted, Below(sorted[i].uid)) == i
  {
    var uid := sorted[i].uid;
    StrictIsSorted(sorted);
    ListedOnce(sorted, i);
    GroupPlace(sorted, uid, 0);
    var k := Kept(sorted, Below(uid));
    WithUidCount(sorted, uid, sorted[k]);
    assert sorted[k].uid == uid;
    OnePlace(sorted, i, k);
  }

  // In the sorted listing a position is a rank.
  lemma PositionIsRank(pods: seq<Pod>, i: nat)
    requires DistinctUids(pods) && i < |SortedPods(pods)|
    ensures Rank(pods, SortedPods(pods)[i].uid) == i
  {
    RankKept(pods, SortedPods(pods)[i].uid);
    var keep := Below(SortedPods(pods)[i].uid);
    SortedStrictly(pods);
    PositionCountsBelow(SortedPods(pods), i);
    SortPodsKeeps(pods, keep);
    DistinctWeight(pods, pods, keep);
  }

  ghost predicate FromSomePod(e: LRPInstance, pods: seq<Pod>, now: Int64, guidOf: string -> string) {
    exists p :: p in pods && Shows(e, p, Rank(pods, p.uid), now, guidOf)
  }

  ghost predicate HasGuid(es: seq<LRPInstance>, uid: string) {
    exists k :: 0 <= k < |es| && es[k].instanceGuid == uid
  }

  ghost predicate Increasing(es: seq<LRPInstance>) {
    forall k, l :: 0 <= k < l < |es| ==> Less(es[k].instanceGuid, es[l].instanceGuid) && es[k].index < es[l].index
  }

  ghost predicate HasApplication(p: Pod) {
    exists k :: 0 <= k < |p.containers| && p.containers[k].name == "application"
  }

  // es is the status of the listed pods: one entry for each pod with a container named
  // "application" and no other, each showing its pod with the pod's rank as index, in strictly
  // increasing order of instance guid and of index.
  ghost predicate IsStatusOf(es: seq<LRPInstance>, pods: seq<Pod>, clock: nat -> Int64, guidOf: string -> string) {
    && (forall k: nat :: k < |es| ==> FromSomePod(es[k], pods, clock(k), guidOf))
    && (forall p :: p in pods && HasApplication(p) ==> HasGuid(es, p.uid))
    && Increasing(es)
  }

  lemma {:induction false} KeptAtMostAll(pods: seq<Pod>)
    ensures Kept(pods, Reports) <= |pods|
  {
    if pods == [] {
    } else {
      KeptAtMostAll(pods[..|pods| - 1]);
    }
  }

  lemma DistinctFills(pods: seq<Pod>, clock: nat -> Int64, guidOf: string -> string)
    requires DistinctUids(pods)
    requires AllStarted(pods)
    ensures Scan(SortedPods(pods), |pods|, clock, guidOf).Filled?
    ensures |Scan(SortedPods(pods), |pods|, clock, guidOf).entries| == Kept(pods, Reports)
  {
    DistinctWeight(pods, pods, Reports);
    KeptAtMostAll(pods);
    SortPodsKeeps(pods, Reports);
    ScanFillsIff(SortedPods(pods), |pods|, clock, guidOf);
    SortedMembers(pods);
  }

  lemma EntriesFromPods(es: seq<LRPInstance>, pods: seq<Pod>, clock: nat -> Int64, guidOf: string -> string)
    requires DistinctUids(pods) && AllMade(es, SortedPods(pods), clock, guidOf)
    ensures forall k: nat :: k < |es| ==> FromSomePod(es[k], pods, clock(k), guidOf)
  {
    var sorted := SortedPods(pods);
    forall k: nat | k < |es|
      ensures FromSomePod(es[k], pods, clock(k), guidOf)
    {
      var i := Positions(sorted)[k];
      assert MadeFrom(es[k], sorted, i, clock(k), guidOf);
      EntryShows(sorted[i], i, clock(k), guidOf);
      PositionIsRank(pods, i);
      SortPodsMembers(pods, sorted[i]);
    }
  }

  lemma ReporterListed(es: seq<LRPInstance>, pods: seq<Pod>, clock: nat -> Int64, guidOf: string -> string, p: Pod)
    requires AllMade(es, SortedPods(pods), clock, guidOf) && p in pods && Reports(p)
    ensures HasGuid(es, p.uid)
  {
    var sorted := SortedPods(pods);
    SortPodsMembers(pods, p);
    PositionsAreReports(sorted);
    var i :| 0 <= i < |sorted| && sorted[i] == p;
    var k :| 0 <= k < |es| && Positions(sorted)[k] == i;
    assert MadeFrom(es[k], sorted, i, clock(k), guidOf);
    assert es[k].instanceGuid == p.uid;
  }

  lemma EntriesIncrease(es: seq<LRPInstance>, pods: seq<Pod>, clock: nat -> Int64, guidOf: string -> string)
    requires StrictlyByUid(pods) && AllMade(es, pods, clock, guidOf)
    ensures Increasing(es)
  {
    PositionsAreReports(pods);
    forall k: nat, l: nat | k < l < |es|
      ensures Less(es[k].instanceGuid, es[l].instanceGuid) && es[k].index < es[l].index
    {
      assert MadeFrom(es[k], pods, Positions(pods)[k], clock(k), guidOf);
      assert MadeFrom(es[l], pods, Positions(pods)[l], clock(l), guidOf);
    }
  }

  lemma ScanIsStatus(pods: seq<Pod>, clock: nat -> Int64, guidOf: string -> string)
    requires DistinctUids(pods)
    requires Scan(SortedPods(pods), |pods|, clock, guidOf).Filled?
    ensures IsStatusOf(Scan(SortedPods(pods), |pods|, clock, guidOf).entries, pods, clock, guidOf)
  {
    var es := Scan(SortedPods(pods), |pods|, clock, guidOf).entries;
    ScanEntries(SortedPods(pods), |pods|, clock, guidOf);
    SortedStrictly(pods);
    EntriesFromPods(es, pods, clock, guidOf);
    EntriesIncrease(es, SortedPods(pods), clock, guidOf);
    forall p | p in pods && HasApplication(p)
      ensures HasGuid(es, p.uid)
    {
      ReportsIff(p);
      ReporterListed(es, pods, clock, guidOf, p);
    }
  }

  // Distinct UIDs: the report never panics, is the status of the pods, and is nil iff none reports.
  lemma ReportIsStatus(pods: seq<Pod>, clock: nat -> Int64, guidOf: string -> string)
    requires DistinctUids(pods)
    requires AllStarted(pods)
    ensures var r := Report(pods, clock, guidOf);
            && r.Returned?
            && (r.instances.None? <==> forall p :: p in pods ==> !HasApplication(p))
            && (r.instances.Some? ==>
                  && IsStatusOf(r.instances.value, pods, clock, guidOf)
                  && |r.instances.value| == Kept(pods, Reports))
  {
    DistinctFills(pods, clock, guidOf);
    ScanIsStatus(pods, clock, guidOf);
    var es := Scan(SortedPods(pods), |pods|, clock, guidOf).entries;
    if es != [] {
      assert FromSomePod(es[0], pods, clock(0), guidOf);
    } else {
      assert forall p :: p in pods && HasApplication(p) ==> !HasGuid(es, p.uid);
    }
  }

  // Any listing, whatever UIDs are shared: a report that is returned has one entry for each place of
  // the sorted pods whose pod has a container named "application", in that order, and each shows
  // that pod with the place as index; it is nil iff there is no such place.
  lemma ReportShows(pods: seq<Pod>, clock: nat -> Int64, guidOf: string -> string)
    requires Report(pods, clock, guidOf).Returned?
    ensures var r, sorted := Report(pods, clock, guidOf).instances, SortedPods(pods);
            var es := if r.None? then [] else r.value;
            && r != Some([])
            && (forall k: nat :: k < |es| ==>
                  es[k].index < |sorted| && Shows(es[k], sorted[es[k].index], es[k].index, clock(k), guidOf))
            && (forall k, l :: 0 <= k < l < |es| ==> es[k].index < es[l].index)
            && (forall i: nat :: i < |sorted| && HasApplication(sorted[i]) ==> exists k :: 0 <= k < |es| && es[k].index == i)
  {
    var sorted := SortedPods(pods);
    var es := Scan(sorted, |pods|, clock, guidOf).entries;
    ScanEntries(sorted, |pods|, clock, guidOf);
    PositionsAreReports(sorted);
    forall k: nat | k < |es|
      ensures es[k].index == Positions(sorted)[k] < |sorted|
      ensures Shows(es[k], sorted[es[k].index], es[k].index, clock(k), guidOf)
    {
      var i := Positions(sorted)[k];
      assert MadeFrom(es[k], sorted, i, clock(k), guidOf);
      EntryShows(sorted[i], i, clock(k), guidOf);
    }
    forall i: nat | i < |sorted| && HasApplication(sorted[i])
      ensures exists k :: 0 <= k < |es| && es[k].index == i
    {
      ReportsIff(sorted[i]);
      var k :| 0 <= k < |es| && Positions(sorted)[k] == i;
      assert es[k].index == i;
    }
  }

  // ---------- time

  // The nanoseconds that Seconds drops; they have the sign of ns.
  function Leftover(ns: Int64): int {
    ns - 1_000_000_000 * Seconds(ns)
  }

  ghost predicate IsInt64(x: int) {
    -0x8000_0000_0000_0000 <= x < 0x8000_0000_0000_0000
  }

  // For all times: since is the start in seconds.  When the difference fits an int64, since and
  // uptime together miss the reading in seconds by at most one, and not at all exactly when the
  // dropped nanoseconds of the parts are those of the reading; from the epoch on, exactly when
  // nothing is borrowed.  When it does not fit, the uptime has the wrong sign or is zero.
  ghost predicate TimesAddUp(since: int, uptime: int, start: Int64, now: Int64) {
    var miss := since + uptime - Seconds(now);
    && since == Seconds(start)
    && if IsInt64(now - start) then
         && -1 <= miss <= 1
         && (miss == 0 <==> Leftover(start) + Leftover(now - start) == Leftover(now))
         && (start >= 0 && now >= start ==>
               miss == if start % 1_000_000_000 <= now % 1_000_000_000 then 0 else -1)
         && (start > now >= 0 ==>
               miss == if now % 1_000_000_000 <= start % 1_000_000_000 then 0 else 1)
       else if now > start then uptime <= 0
       else uptime >= 0
  }

  lemma LeftoverBound(ns: Int64)
    ensures -1_000_000_000 < Leftover(ns) < 1_000_000_000
    ensures ns > 0 ==> Leftover(ns) >= 0
    ensures ns < 0 ==> Leftover(ns) <= 0
  {
  }

  // Truncating the parts of a sum misses the truncated sum by at most one.
  lemma PartsMiss(a: Int64, b: Int64, sum: Int64)
    requires a + b == sum
    ensures -1 <= Seconds(a) + Seconds(b) - Seconds(sum) <= 1
    ensures Seconds(a) + Seconds(b) == Seconds(sum) <==> Leftover(a) + Leftover(b) == Leftover(sum)
  {
    LeftoverBound(a);
    LeftoverBound(b);
    LeftoverBound(sum);
    assert 1_000_000_000 * (Seconds(a) + Seconds(b) - Seconds(sum)) == Leftover(sum) - Leftover(a) - Leftover(b);
  }

  lemma BorrowForward(start: Int64, now: Int64)
    requires 0 <= start <= now
    ensures Seconds(start) + Seconds(now - start) - Seconds(now) ==
            if start % 1_000_000_000 <= now % 1_000_000_000 then 0 else -1
  {
  }

  lemma BorrowBackward(start: Int64, now: Int64)
    requires 0 <= now < start
    ensures Seconds(start) + Seconds(now - start) - Seconds(now) ==
            if now % 1_000_000_000 <= start % 1_000_000_000 then 0 else 1
  {
  }

  lemma WrapFitsIff(x: int)
    ensures Wrap64(x) == x <==> IsInt64(x)
  {
  }

  lemma SecondsAddUp(start: Int64, now: Int64)
    ensures Wrap64(now - start) == now - start <==> IsInt64(now - start)
    ensures TimesAddUp(Seconds(start), Uptime(start, now), start, now)
  {
    WrapFitsIff(now - start);
    if IsInt64(now - start) {
      PartsMiss(start, now - start, now);
      if 0 <= start <= now {
        BorrowForward(start, now);
      } else if 0 <= now < start {
        BorrowBackward(start, now);
      }
    }
  }

  ghost predicate TimedFrom(e: LRPInstance, pods: seq<Pod>, now: Int64) {
    exists p :: p in pods && p.uid == e.instanceGuid && p.startTime.Some? &&
      TimesAddUp(e.since, e.uptime, p.startTime.value, now)
  }

  lemma EntryTimed(e: LRPInstance, pods: seq<Pod>, i: nat, now: Int64, guidOf: string -> string)
    requires MadeFrom(e, SortedPods(pods), i, now, guidOf)
    ensures TimedFrom(e, pods, now)
  {
    var p := SortedPods(pods)[i];
    SortPodsMembers(pods, p);
    SecondsAddUp(p.startTime.value, now);
  }

  // Every entry of any report: its times add up to the clock reading it was made with.
  lemma ReportTimesAddUp(pods: seq<Pod>, clock: nat -> Int64, guidOf: string -> string)
    ensures var r := Report(pods, clock, guidOf);
            r.Returned? && r.instances.Some? ==>
              forall k :: 0 <= k < |r.instances.value| ==> TimedFrom(r.instances.value[k], pods, clock(k))
  {
    var sorted := SortedPods(pods);
    var r := Scan(sorted, |pods|, clock, guidOf);
    if r.Filled? {
      ScanEntries(sorted, |pods|, clock, guidOf);
      forall k | 0 <= k < |r.entries|
        ensures TimedFrom(r.entries[k], pods, clock(k))
      {
        EntryTimed(r.entries[k], pods, Positions(sorted)[k], clock(k), guidOf);
      }
    }
  }
}
