/**
 Exactly when the order in which the API lists the pods shows in the status report.
*/
module LrpOrder {
  import opened GoTypes
  import opened GoStrings
  import opened PodUtil
  import opened LrpStatus

  // A container in the given state.
  function Showing(state: InstanceState): ContainerStatus {
    ContainerStatus(APPLICATION, state.Starting?, state.Running?, state.Down?)
  }

  // What a report can show of a pod, as a pod: nothing but the UID when it does not report, and
  // otherwise its label, its start time and its state.
  function View(p: Pod): Pod {
    if Reports(p) then Pod(p.uid, "", p.shortGuid, p.startTime, [Showing(ContainerState(p.containers).value)])
    else Pod(p.uid, "", "", None, [])
  }

  // Pods that share a UID look the same to the report.
  ghost predicate SharedUidsLookAlike(pods: seq<Pod>) {
    forall i, j :: 0 <= i < j < |pods| && pods[i].uid == pods[j].uid ==> View(pods[i]) == View(pods[j])
  }

  lemma ViewShows(p: Pod)
    ensures Reports(View(p)) == Reports(p)
    ensures Reports(p) ==> ContainerState(View(p).containers) == ContainerState(p.containers)
  {
    if Reports(p) {
      NeverCrashed(p.containers);
      FirstApplicationDecides(View(p).containers, 0);
    }
  }

  lemma TurnViews(before: Scanned, p: Pod, index: nat, length: nat, clock: nat -> Int64, guidOf: string -> string)
    ensures Turn(before, View(p), index, length, clock, guidOf) == Turn(before, p, index, length, clock, guidOf)
  {
    ViewShows(p);
  }

  // The loop sees no more of the pods than their views.
  lemma {:induction false} ScanViews(pods: seq<Pod>, length: nat, clock: nat -> Int64, guidOf: string -> string)
    ensures Scan(Mapped(pods, View), length, clock, guidOf) == Scan(pods, length, clock, guidOf)
  {
    if pods == [] {
    } else {
      var n := |pods| - 1;
      MappedAt(pods, View);
      assert Mapped(pods, View)[..n] == Mapped(pods[..n], View);
      ScanViews(pods[..n], length, clock, guidOf);
      TurnViews(Scan(pods[..n], length, clock, guidOf), pods[n], n, length, clock, guidOf);
    }
  }

  lemma ReportViews(pods: seq<Pod>, clock: nat -> Int64, guidOf: string -> string)
    ensures Report(Mapped(pods, View), clock, guidOf) == Report(pods, clock, guidOf)
  {
    SortedMapped(pods, View);
    ScanViews(SortedPods(pods), |pods|, clock, guidOf);
    MappedAt(pods, View);
  }

  // Any listing, report or panic: when pods that share a UID look alike, in particular when the
  // UIDs are distinct, the order of the listing does not matter.
  lemma ReportIgnoresOrder(pods: seq<Pod>, other: seq<Pod>, clock: nat -> Int64, guidOf: string -> string)
    requires SharedUidsLookAlike(pods) && multiset(other) == multiset(pods)
    ensures Report(other, clock, guidOf) == Report(pods, clock, guidOf)
  {
    ReportViews(pods, clock, guidOf);
    ReportViews(other, clock, guidOf);
    MappedAt(pods, View);
    MappedPermutes(pods, other, View);
    SortPodsCanonical(Mapped(pods, View), Mapped(other, View));
    MappedAt(other, View);
    assert |other| == |multiset(other)| == |multiset(pods)| == |pods|;
  }

  // ---------- the condition is exact

  function Always(now: Int64): nat -> Int64 {
    (_: nat) => now
  }

  function Verbatim(): string -> string {
    (s: string) => s
  }

  // At some clock reading two different start times show.
  lemma StartsShow(a: Int64, b: Int64) returns (now: Int64)
    requires a != b
    ensures Seconds(a) != Seconds(b) || Uptime(a, now) != Uptime(b, now)
  {
    var low: int, high: int := if a < b then a else b, if a < b then b else a;
    if Seconds(low) != Seconds(high) {
      now := 0;
    } else if low + 1_000_000_000 < 0x8000_0000_0000_0000 {
      now := low + 1_000_000_000;
    } else {
      now := high - 1_000_000_000;
    }
  }

  // At some clock reading two reporting pods that do not look alike have different entries.
  lemma EntriesShow(p: Pod, q: Pod) returns (now: Int64)
    requires Reports(p) && Reports(q) && p.startTime.Some? && q.startTime.Some?
    requires p.uid == q.uid && View(p) != View(q)
    ensures forall i: nat :: Entry(p, i, now, Verbatim()) != Entry(q, i, now, Verbatim())
  {
    if p.startTime != q.startTime {
      now := StartsShow(p.startTime.value, q.startTime.value);
    } else {
      now := 0;
    }
  }

  lemma NothingAt(es: seq<LRPInstance>, pods: seq<Pod>, clock: nat -> Int64, guidOf: string -> string, i: nat)
    requires AllMade(es, pods, clock, guidOf) && i < |pods| && !Reports(pods[i])
    ensures forall k :: 0 <= k < |es| ==> es[k].index != i
  {
    forall k | 0 <= k < |es|
      ensures es[k].index != i
    {
      assert MadeFrom(es[k], pods, Positions(pods)[k], clock(k), guidOf);
    }
  }

  lemma EntryAt(es: seq<LRPInstance>, pods: seq<Pod>, clock: nat -> Int64, guidOf: string -> string, i: nat)
    returns (k: nat)
    requires AllMade(es, pods, clock, guidOf) && i < |pods| && Reports(pods[i])
    ensures k < |es| && es[k].index == i && MadeFrom(es[k], pods, i, clock(k), guidOf)
    ensures forall l :: 0 <= l < |es| && es[l].index == i ==> l == k
  {
    PositionsAreReports(pods);
    k :| 0 <= k < |Positions(pods)| && Positions(pods)[k] == i;
    assert MadeFrom(es[k], pods, i, clock(k), guidOf);
    forall l | 0 <= l < |es| && es[l].index == i
      ensures l == k
    {
      assert MadeFrom(es[l], pods, Positions(pods)[l], clock(l), guidOf);
    }
  }

  // Lists that differ in what they show at one position do not make the same entries.
  lemma NotBoth(es: seq<LRPInstance>, a: seq<Pod>, b: seq<Pod>, i: nat, now: Int64)
    requires i < |a| && i < |b| && (Reports(a[i]) || Reports(b[i]))
    requires Reports(a[i]) && Reports(b[i]) && a[i].startTime.Some? && b[i].startTime.Some? ==>
               Entry(a[i], i, now, Verbatim()) != Entry(b[i], i, now, Verbatim())
    requires AllMade(es, a, Always(now), Verbatim())
    ensures !AllMade(es, b, Always(now), Verbatim())
  {
    var inA, inB := Reports(a[i]), Reports(b[i]);
    if AllMade(es, b, Always(now), Verbatim()) {
      if !inA {
        NothingAt(es, a, Always(now), Verbatim(), i);
        var l := EntryAt(es, b, Always(now), Verbatim(), i);
      } else if !inB {
        NothingAt(es, b, Always(now), Verbatim(), i);
        var k := EntryAt(es, a, Always(now), Verbatim(), i);
      } else {
        var k := EntryAt(es, a, Always(now), Verbatim(), i);
        var l := EntryAt(es, b, Always(now), Verbatim(), i);
      }
    }
  }

  function Blank(p: Pod): Pod {
    Pod(p.uid, "", "", None, [])
  }

  // The UIDs of the sorted pods do not depend on the order of the listing.
  lemma SortedUidsAt(pods: seq<Pod>, other: seq<Pod>)
    requires multiset(other) == multiset(pods)
    ensures |SortedPods(other)| == |SortedPods(pods)|
    ensures forall i :: 0 <= i < |SortedPods(pods)| ==> SortedPods(other)[i].uid == SortedPods(pods)[i].uid
  {
    MappedAt(pods, Blank);
    MappedPermutes(pods, other, Blank);
    SortPodsCanonical(Mapped(pods, Blank), Mapped(other, Blank));
    SortedMapped(pods, Blank);
    SortedMapped(other, Blank);
    MappedAt(SortedPods(pods), Blank);
    MappedAt(SortedPods(other), Blank);
    assert forall i :: 0 <= i < |SortedPods(pods)| ==> Blank(SortedPods(other)[i]) == Blank(SortedPods(pods)[i]);
  }

  // The first pod with the UID and the position it is at.
  lemma {:induction false} GroupStart(pods: seq<Pod>, uid: string) returns (i: nat)
    requires WithUid(pods, uid) != []
    ensures i < |pods| && pods[i].uid == uid && pods[i] == WithUid(pods, uid)[0]
    ensures forall k :: 0 <= k < i ==> pods[k].uid != uid
  {
    var before, last := pods[..|pods| - 1], pods[|pods| - 1];
    if WithUid(before, uid) == [] {
      i := |pods| - 1;
      if k: nat :| k < i && pods[k].uid == uid {
        ListedOnce(before, k);
        assert false;
      }
    } else {
      i := GroupStart(before, uid);
    }
  }

  // Swapping the first pod of a UID with one that looks different shows in the sorted lists.
  lemma SwapShowsAt(pods: seq<Pod>, f: nat, j: nat) returns (other: seq<Pod>, i: nat)
    requires f < j < |pods| && forall k :: 0 <= k < f ==> pods[k].uid != pods[f].uid
    requires pods[f].uid == pods[j].uid && View(pods[f]) != View(pods[j])
    ensures multiset(other) == multiset(pods)
    ensures i < |SortedPods(pods)| && i < |SortedPods(other)|
    ensures SortedPods(pods)[i] == pods[f] && SortedPods(other)[i] == pods[j]
  {
    other := pods[f := pods[j]][j := pods[f]];
    SortedBegins(pods, f);
    SortedBegins(other, f);
    SortedUidsAt(pods, other);
    i := GroupStart(SortedPods(pods), pods[f].uid);
    var l := GroupStart(SortedPods(other), pods[f].uid);
    assert i == l;
  }

  lemma StartedSorted(pods: seq<Pod>, other: seq<Pod>)
    requires AllStarted(pods) && multiset(other) == multiset(pods)
    ensures AllStarted(SortedPods(other))
  {
    SortedMembers(other);
    forall p | p in other
      ensures p in pods
    {
      assert p in multiset(other);
    }
  }

  // Sorted lists that differ in what they show at one position have different reports at some
  // clock reading, unless one of them panics.
  lemma DifferenceShows(pods: seq<Pod>, other: seq<Pod>, i: nat) returns (now: Int64)
    requires i < |SortedPods(pods)| && i < |SortedPods(other)|
    requires SortedPods(pods)[i].uid == SortedPods(other)[i].uid && View(SortedPods(pods)[i]) != View(SortedPods(other)[i])
    requires AllStarted(SortedPods(pods)) && AllStarted(SortedPods(other))
    ensures Report(pods, Always(now), Verbatim()).Returned? ==>
              Report(other, Always(now), Verbatim()) != Report(pods, Always(now), Verbatim())
  {
    var a, b := SortedPods(pods), SortedPods(other);
    now := 0;
    if Reports(a[i]) && Reports(b[i]) {
      now := EntriesShow(a[i], b[i]);
    }
    var r, r' := Scan(a, |pods|, Always(now), Verbatim()), Scan(b, |other|, Always(now), Verbatim());
    if r.Filled? && r'.Filled? {
      ScanEntries(a, |pods|, Always(now), Verbatim());
      ScanEntries(b, |other|, Always(now), Verbatim());
      NotBoth(r.entries, a, b, i, now);
    }
  }

  // A returned report that some other order changes, with a clock that shows it.
  lemma OrderShows(pods: seq<Pod>) returns (other: seq<Pod>, now: Int64)
    requires !SharedUidsLookAlike(pods)
    requires AllStarted(pods) && Weight(pods, pods, Reports) <= |pods|
    ensures multiset(other) == multiset(pods)
    ensures Report(other, Always(now), Verbatim()) != Report(pods, Always(now), Verbatim())
  {
    var a, b :| 0 <= a < b < |pods| && pods[a].uid == pods[b].uid && View(pods[a]) != View(pods[b]);
    var f := FirstIndex(pods, a);
    var i;
    other, i := SwapShowsAt(pods, f, if View(pods[f]) == View(pods[a]) then b else a);
    StartedSorted(pods, pods);
    StartedSorted(pods, other);
    now := DifferenceShows(pods, other, i);
    ReturnsIff(pods, Always(now), Verbatim());
  }

  ghost predicate ReportOrderIrrelevant(pods: seq<Pod>) {
    forall other: seq<Pod>, now: Int64 :: multiset(other) == multiset(pods) ==>
      Report(other, Always(now), Verbatim()) == Report(pods, Always(now), Verbatim())
  }

  // For listings that have a report, its independence of the order holds exactly when pods that
  // share a UID look alike.
  lemma ReportIgnoresOrderIff(pods: seq<Pod>)
    requires AllStarted(pods) && Weight(pods, pods, Reports) <= |pods|
    ensures ReportOrderIrrelevant(pods) <==> SharedUidsLookAlike(pods)
  {
    if SharedUidsLookAlike(pods) {
      forall other: seq<Pod>, now: Int64 | multiset(other) == multiset(pods)
        ensures Report(other, Always(now), Verbatim()) == Report(pods, Always(now), Verbatim())
      {
        ReportIgnoresOrder(pods, other, Always(now), Verbatim());
      }
    } else {
      var other, now := OrderShows(pods);
    }
  }
}
