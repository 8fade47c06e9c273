/**
 Pods and their canonical order (helpers/pod_util.go).
*/
module PodUtil {
  import opened GoTypes
  import opened GoStrings

  // Which of the three state pointers of a container are set.
  datatype ContainerStatus = ContainerStatus(name: string, waiting: bool, running: bool, terminated: bool)

  // startTime is the StartTime pointer, in nanoseconds since the epoch; shortGuid is the value of
  // the process-guid label, "" when it is missing.
  datatype Pod = Pod(uid: string, name: string, shortGuid: string, startTime: Option<Int64>,
                     containers: seq<ContainerStatus>)

  function Uids(pods: seq<Pod>): seq<string> {
    if pods == [] then [] else Uids(pods[..|pods| - 1]) + [pods[|pods| - 1].uid]
  }

  // The pods with this UID, in listing order.
  function WithUid(pods: seq<Pod>, uid: string): seq<Pod> {
    if pods == [] then []
    else
      var last, before := pods[|pods| - 1], WithUid(pods[..|pods| - 1], uid);
      if last.uid == uid then before + [last] else before
  }

  function Gather(uids: seq<string>, pods: seq<Pod>): seq<Pod> {
    if uids == [] then [] else Gather(uids[..|uids| - 1], pods) + WithUid(pods, uids[|uids| - 1])
  }

  function SortedPods(pods: seq<Pod>): seq<Pod> {
    Gather(SortStrings(Uids(pods)), pods)
  }

  lemma AddPod(pods: seq<Pod>, p: Pod, uid: string)
    ensures WithUid(pods + [p], uid) == if p.uid == uid then WithUid(pods, uid) + [p] else WithUid(pods, uid)
  {
    assert (pods + [p])[..|pods|] == pods;
  }

  lemma WithUidNext(pods: seq<Pod>, i: nat, uid: string)
    requires i < |pods|
    ensures WithUid(pods[..i + 1], uid) ==
            if pods[i].uid == uid then WithUid(pods[..i], uid) + [pods[i]] else WithUid(pods[..i], uid)
  {
    assert pods[..i + 1][..i] == pods[..i];
  }

  lemma GatherNext(uids: seq<string>, k: nat, pods: seq<Pod>)
    requires k < |uids|
    ensures Gather(uids[..k + 1], pods) == Gather(uids[..k], pods) + WithUid(pods, uids[k])
  {
    assert uids[..k + 1][..k] == uids[..k];
  }

  method SortPods(actualPods: seq<Pod>) returns (sortedPods: seq<Pod>)
    ensures sortedPods == SortedPods(actualPods)
  {
    sortedPods := [];
    var sortedUid: seq<string> := [];
    for i := 0 to |actualPods|
      invariant sortedUid == Uids(actualPods[..i])
    {
      assert actualPods[..i + 1][..i] == actualPods[..i];
      sortedUid := sortedUid + [actualPods[i].uid];
    }
    assert actualPods[..|actualPods|] == actualPods;
    sortedUid := SortStrings(sortedUid);
    for k := 0 to |sortedUid|
      invariant sortedPods == Gather(sortedUid[..k], actualPods)
    {
      var uid := sortedUid[k];
      ghost var before, found: seq<Pod> := sortedPods, [];
      for i := 0 to |actualPods|
        invariant found == WithUid(actualPods[..i], uid)
        invariant sortedPods == before + found
      {
        WithUidNext(actualPods, i, uid);
        if actualPods[i].uid == uid {
          sortedPods := sortedPods + [actualPods[i]];
          found := found + [actualPods[i]];
        }
      }
      assert found == WithUid(actualPods, uid);
      GatherNext(sortedUid, k, actualPods);
    }
    assert sortedUid[..|sortedUid|] == sortedUid;
  }

  // ---------- multiplicities

  // How many pods of the listing have this UID.
  function Multiplicity(pods: seq<Pod>, uid: string): nat {
    |WithUid(pods, uid)|
  }

  ghost predicate DistinctUids(pods: seq<Pod>) {
    forall i, j :: 0 <= i < j < |pods| ==> pods[i].uid != pods[j].uid
  }

  lemma {:induction false} WithUidCount(pods: seq<Pod>, uid: string, p: Pod)
    ensures multiset(WithUid(pods, uid))[p] == if p.uid == uid then multiset(pods)[p] else 0
    ensures forall q :: q in WithUid(pods, uid) ==> q.uid == uid
  {
    if pods == [] {
    } else {
      var before := pods[..|pods| - 1];
      assert pods == before + [pods[|pods| - 1]];
      WithUidCount(before, uid, p);
    }
  }

  lemma {:induction false} UidsCount(pods: seq<Pod>, uid: string)
    ensures |Uids(pods)| == |pods|
    ensures forall i :: 0 <= i < |pods| ==> Uids(pods)[i] == pods[i].uid
    ensures multiset(Uids(pods))[uid] == Multiplicity(pods, uid)
  {
    if pods == [] {
    } else {
      UidsCount(pods[..|pods| - 1], uid);
    }
  }

  lemma CountLast(uids: seq<string>, uid: string)
    requires uids != []
    ensures multiset(uids)[uid] == multiset(uids[..|uids| - 1])[uid] + if uids[|uids| - 1] == uid then 1 else 0
  {
    assert uids == uids[..|uids| - 1] + [uids[|uids| - 1]];
  }

  lemma OneMore(m: nat, c: nat)
    ensures (m + 1) * c == m * c + c
  {
  }

  lemma {:induction false} GatherCount(uids: seq<string>, pods: seq<Pod>, p: Pod)
    ensures multiset(Gather(uids, pods))[p] == multiset(uids)[p.uid] * multiset(pods)[p]
  {
    if uids == [] {
    } else {
      var before, last := uids[..|uids| - 1], uids[|uids| - 1];
      var m, c := multiset(before)[p.uid], multiset(pods)[p];
      GatherCount(before, pods, p);
      CountLast(uids, p.uid);
      WithUidCount(pods, last, p);
      assert multiset(Gather(uids, pods))[p] == m * c + if p.uid == last then c else 0;
      OneMore(m, c);
    }
  }

  // Any listing: a pod comes out as often as it is listed, times the multiplicity of its UID.
  lemma SortPodsMultiplies(pods: seq<Pod>, p: Pod)
    ensures multiset(SortedPods(pods))[p] == Multiplicity(pods, p.uid) * multiset(pods)[p]
  {
    SortStringsSorts(Uids(pods));
    UidsCount(pods, p.uid);
    GatherCount(SortStrings(Uids(pods)), pods, p);
  }

  // ---------- order

  lemma {:induction false} GatherMembers(uids: seq<string>, pods: seq<Pod>)
    ensures forall q :: q in Gather(uids, pods) ==> q.uid in uids
  {
    if uids == [] {
    } else {
      GatherMembers(uids[..|uids| - 1], pods);
      forall q | q in WithUid(pods, uids[|uids| - 1])
        ensures q.uid == uids[|uids| - 1]
      {
        WithUidCount(pods, uids[|uids| - 1], q);
      }
    }
  }

  // In non-decreasing UID order.
  ghost predicate ByUid(pods: seq<Pod>) {
    forall i, j :: 0 <= i < j < |pods| ==> !Less(pods[j].uid, pods[i].uid)
  }

  lemma ByUidConcat(a: seq<Pod>, b: seq<Pod>, uid: string)
    requires ByUid(a) && forall q :: q in a ==> !Less(uid, q.uid)
    requires forall q :: q in b ==> q.uid == uid
    ensures ByUid(a + b)
  {
    LessIrreflexive(uid);
    forall i, j | 0 <= i < j < |a + b|
      ensures !Less((a + b)[j].uid, (a + b)[i].uid)
    {
      if j >= |a| {
        assert (a + b)[j] in b;
        assert i < |a| ==> (a + b)[i] in a;
        assert i >= |a| ==> (a + b)[i] in b;
      }
    }
  }

  lemma {:induction false} GatherOrdered(uids: seq<string>, pods: seq<Pod>)
    requires Sorted(uids)
    ensures ByUid(Gather(uids, pods))
  {
    if uids == [] {
    } else {
      var before, last := uids[..|uids| - 1], uids[|uids| - 1];
      GatherOrdered(before, pods);
      GatherMembers(before, pods);
      forall q | q in WithUid(pods, last)
        ensures q.uid == last
      {
        WithUidCount(pods, last, q);
      }
      ByUidConcat(Gather(before, pods), WithUid(pods, last), last);
    }
  }

  lemma SortedByUid(pods: seq<Pod>)
    ensures ByUid(SortedPods(pods))
  {
    SortStringsSorts(Uids(pods));
    GatherOrdered(SortStrings(Uids(pods)), pods);
  }

  // Any listing comes out in non-decreasing UID order, character by character.
  lemma SortPodsOrders(pods: seq<Pod>)
    ensures var sorted := SortedPods(pods);
            forall i, j :: 0 <= i < j < |sorted| ==>
              var u, v := sorted[i].uid, sorted[j].uid;
              || u == v
              || exists k: nat :: k <= |u| && k < |v| && u[..k] == v[..k] && (k == |u| || u[k] < v[k])
  {
    SortedByUid(pods);
    var sorted := SortedPods(pods);
    forall i, j | 0 <= i < j < |sorted|
      ensures var u, v := sorted[i].uid, sorted[j].uid;
              || u == v
              || exists k: nat :: k <= |u| && k < |v| && u[..k] == v[..k] && (k == |u| || u[k] < v[k])
    {
      LessTotal(sorted[i].uid, sorted[j].uid);
      LessIff(sorted[i].uid, sorted[j].uid);
    }
  }

  ghost predicate StrictlyByUid(pods: seq<Pod>) {
    forall i, j :: 0 <= i < j < |pods| ==> Less(pods[i].uid, pods[j].uid)
  }

  lemma {:induction false} NoneWithUid(pods: seq<Pod>, uid: string)
    requires forall i :: 0 <= i < |pods| ==> pods[i].uid != uid
    ensures WithUid(pods, uid) == []
  {
    if pods == [] {
    } else {
      NoneWithUid(pods[..|pods| - 1], uid);
    }
  }

  lemma {:induction false} DistinctMultiplicity(pods: seq<Pod>, p: Pod)
    requires DistinctUids(pods) && p in pods
    ensures Multiplicity(pods, p.uid) == 1 && multiset(pods)[p] == 1
  {
    var before, last := pods[..|pods| - 1], pods[|pods| - 1];
    assert pods == before + [last];
    if p in before {
      DistinctMultiplicity(before, p);
    } else {
      assert p == last;
      NoneWithUid(before, p.uid);
    }
  }

  lemma PermutationDistinct(pods: seq<Pod>, other: seq<Pod>)
    requires DistinctUids(pods) && multiset(other) == multiset(pods)
    ensures DistinctUids(other)
  {
    forall i, j | 0 <= i < j < |other|
      ensures other[i].uid != other[j].uid
    {
      var p, q := other[i], other[j];
      assert p in multiset(other) && q in multiset(other);
      if p == q {
        assert other == other[..j] + [q] + other[j + 1..];
        assert p in multiset(other[..j]);
        assert multiset(other)[q] >= 2;
        DistinctMultiplicity(pods, q);
        assert false;
      }
      assert p in pods && q in pods;
    }
  }

  lemma SortedStrictly(pods: seq<Pod>)
    requires DistinctUids(pods)
    ensures multiset(SortedPods(pods)) == multiset(pods)
    ensures StrictlyByUid(SortedPods(pods))
  {
    var sorted := SortedPods(pods);
    forall p
      ensures multiset(sorted)[p] == multiset(pods)[p]
    {
      SortPodsMultiplies(pods, p);
      if p in pods {
        DistinctMultiplicity(pods, p);
      }
    }
    SortedByUid(pods);
    PermutationDistinct(pods, sorted);
    forall i, j | 0 <= i < j < |sorted|
      ensures Less(sorted[i].uid, sorted[j].uid)
    {
      LessTotal(sorted[i].uid, sorted[j].uid);
    }
  }

  // Distinct UIDs: the result is the listing itself in strictly increasing UID order, character by
  // character.
  lemma SortPodsPermutes(pods: seq<Pod>)
    requires DistinctUids(pods)
    ensures multiset(SortedPods(pods)) == multiset(pods)
    ensures var sorted := SortedPods(pods);
            forall i, j :: 0 <= i < j < |sorted| ==>
              var u, v := sorted[i].uid, sorted[j].uid;
              u != v && exists k: nat :: k <= |u| && k < |v| && u[..k] == v[..k] && (k == |u| || u[k] < v[k])
  {
    SortedStrictly(pods);
    SortPodsOrders(pods);
    var sorted := SortedPods(pods);
    forall i, j | 0 <= i < j < |sorted|
      ensures sorted[i].uid != sorted[j].uid
    {
      LessIrreflexive(sorted[i].uid);
    }
  }

  lemma {:induction false} ListedOnce(pods: seq<Pod>, i: nat)
    requires i < |pods|
    ensures Multiplicity(pods, pods[i].uid) >= 1
  {
    if i < |pods| - 1 {
      ListedOnce(pods[..|pods| - 1], i);
    }
  }

  lemma {:induction false} ListedTwice(pods: seq<Pod>, i: nat, j: nat)
    requires i < j < |pods| && pods[i].uid == pods[j].uid
    ensures Multiplicity(pods, pods[i].uid) >= 2
  {
    if j == |pods| - 1 {
      ListedOnce(pods[..j], i);
    } else {
      ListedTwice(pods[..|pods| - 1], i, j);
    }
  }

  lemma AtLeastDoubles(m: nat, c: nat)
    requires m >= 2 && c >= 1
    ensures m * c > c
  {
    assert m * c == (m - 1) * c + c;
  }

  lemma SharedUidMultiplies(pods: seq<Pod>, i: nat, j: nat)
    requires i < j < |pods| && pods[i].uid == pods[j].uid
    ensures multiset(SortedPods(pods))[pods[i]] > multiset(pods)[pods[i]]
  {
    var p := pods[i];
    ListedTwice(pods, i, j);
    SortPodsMultiplies(pods, p);
    AtLeastDoubles(Multiplicity(pods, p.uid), multiset(pods)[p]);
  }

  // The result is a permutation of the listing exactly when the UIDs are distinct.
  lemma SortPodsPermutesIff(pods: seq<Pod>)
    ensures multiset(SortedPods(pods)) == multiset(pods) <==> DistinctUids(pods)
  {
    if DistinctUids(pods) {
      SortedStrictly(pods);
    } else {
      var i, j :| 0 <= i < j < |pods| && pods[i].uid == pods[j].uid;
      SharedUidMultiplies(pods, i, j);
    }
  }

  // ---------- independence of the listing order

  // Pods that share a UID are the same pod; in particular when the UIDs are distinct.
  ghost predicate UidDeterminesPod(pods: seq<Pod>) {
    forall i, j :: 0 <= i < j < |pods| && pods[i].uid == pods[j].uid ==> pods[i] == pods[j]
  }

  ghost predicate OrderIrrelevant(pods: seq<Pod>) {
    forall other: seq<Pod> :: multiset(other) == multiset(pods) ==> SortedPods(other) == SortedPods(pods)
  }

  lemma WithUidPermutes(pods: seq<Pod>, other: seq<Pod>, uid: string)
    requires multiset(other) == multiset(pods)
    ensures multiset(WithUid(other, uid)) == multiset(WithUid(pods, uid))
    ensures Multiplicity(other, uid) == Multiplicity(pods, uid)
  {
    forall p
      ensures multiset(WithUid(other, uid))[p] == multiset(WithUid(pods, uid))[p]
    {
      WithUidCount(pods, uid, p);
      WithUidCount(other, uid, p);
    }
    assert multiset(WithUid(other, uid)) == multiset(WithUid(pods, uid));
    assert |WithUid(other, uid)| == |multiset(WithUid(other, uid))|;
    assert |WithUid(pods, uid)| == |multiset(WithUid(pods, uid))|;
  }

  lemma SortedUidsAgree(pods: seq<Pod>, other: seq<Pod>)
    requires multiset(other) == multiset(pods)
    ensures SortStrings(Uids(other)) == SortStrings(Uids(pods))
  {
    forall uid
      ensures multiset(Uids(other))[uid] == multiset(Uids(pods))[uid]
    {
      UidsCount(pods, uid);
      UidsCount(other, uid);
      WithUidPermutes(pods, other, uid);
    }
    SortStringsSorts(Uids(pods));
    SortStringsSorts(Uids(other));
    SortedUnique(SortStrings(Uids(other)), SortStrings(Uids(pods)));
  }

  lemma {:induction false} WithUidUniform(pods: seq<Pod>, uid: string)
    requires UidDeterminesPod(pods)
    ensures forall p, q :: p in WithUid(pods, uid) && q in WithUid(pods, uid) ==> p == q
  {
    forall p, q | p in WithUid(pods, uid) && q in WithUid(pods, uid)
      ensures p == q
    {
      WithUidCount(pods, uid, p);
      WithUidCount(pods, uid, q);
      assert p in multiset(WithUid(pods, uid)) && q in multiset(WithUid(pods, uid));
      assert p in multiset(pods) && q in multiset(pods);
    }
  }

  lemma UniformUnique(a: seq<Pod>, b: seq<Pod>)
    requires multiset(a) == multiset(b)
    requires forall p, q :: p in a && q in a ==> p == q
    ensures a == b
  {
    assert |a| == |multiset(a)| && |b| == |multiset(b)|;
    forall k | 0 <= k < |a|
      ensures a[k] == b[k]
    {
      assert b[k] in multiset(b);
      assert a[k] in a && b[k] in a;
    }
  }

  lemma {:induction false} GatherSame(uids: seq<string>, pods: seq<Pod>, other: seq<Pod>)
    requires forall uid :: WithUid(other, uid) == WithUid(pods, uid)
    ensures Gather(uids, other) == Gather(uids, pods)
  {
    if uids == [] {
    } else {
      GatherSame(uids[..|uids| - 1], pods, other);
    }
  }

  // Two listings of the same pods sort to the identical sequence.
  lemma SortPodsCanonical(pods: seq<Pod>, other: seq<Pod>)
    requires UidDeterminesPod(pods) && multiset(other) == multiset(pods)
    ensures SortedPods(other) == SortedPods(pods)
  {
    SortedUidsAgree(pods, other);
    forall uid
      ensures WithUid(other, uid) == WithUid(pods, uid)
    {
      WithUidPermutes(pods, other, uid);
      WithUidUniform(pods, uid);
      UniformUnique(WithUid(pods, uid), WithUid(other, uid));
    }
    GatherSame(SortStrings(Uids(pods)), pods, other);
  }

  lemma {:induction false} WithUidConcat(a: seq<Pod>, b: seq<Pod>, uid: string)
    ensures WithUid(a + b, uid) == WithUid(a, uid) + WithUid(b, uid)
  {
    if b == [] {
      assert a + b == a;
    } else {
      assert (a + b)[..|a + b| - 1] == a + b[..|b| - 1];
      WithUidConcat(a, b[..|b| - 1], uid);
    }
  }

  lemma {:induction false} WithUidTwice(pods: seq<Pod>, uid: string)
    ensures WithUid(WithUid(pods, uid), uid) == WithUid(pods, uid)
  {
    if pods == [] {
    } else {
      WithUidTwice(pods[..|pods| - 1], uid);
      if pods[|pods| - 1].uid == uid {
        WithUidConcat(WithUid(pods[..|pods| - 1], uid), [pods[|pods| - 1]], uid);
      }
    }
  }

  lemma GroupHasUid(pods: seq<Pod>, uid: string, other: string)
    requires other != uid
    ensures WithUid(WithUid(pods, uid), other) == []
  {
    var group := WithUid(pods, uid);
    forall i | 0 <= i < |group|
      ensures group[i].uid != other
    {
      WithUidCount(pods, uid, group[i]);
    }
    NoneWithUid(group, other);
  }

  // The group of a UID in the result begins as it does in the listing.
  lemma {:induction false} GatherBegins(uids: seq<string>, pods: seq<Pod>, uid: string)
    requires WithUid(pods, uid) != []
    ensures uid !in uids ==> WithUid(Gather(uids, pods), uid) == []
    ensures uid in uids ==>
              WithUid(Gather(uids, pods), uid) != [] && WithUid(Gather(uids, pods), uid)[0] == WithUid(pods, uid)[0]
  {
    if uids == [] {
    } else {
      var before, last := uids[..|uids| - 1], uids[|uids| - 1];
      assert uids == before + [last];
      GatherBegins(before, pods, uid);
      WithUidConcat(Gather(before, pods), WithUid(pods, last), uid);
      if last == uid {
        WithUidTwice(pods, uid);
      } else {
        GroupHasUid(pods, last, uid);
      }
    }
  }

  lemma {:induction false} FirstOfGroup(pods: seq<Pod>, f: nat)
    requires f < |pods| && forall i :: 0 <= i < f ==> pods[i].uid != pods[f].uid
    ensures WithUid(pods, pods[f].uid) != [] && WithUid(pods, pods[f].uid)[0] == pods[f]
  {
    if f == |pods| - 1 {
      NoneWithUid(pods[..f], pods[f].uid);
    } else {
      FirstOfGroup(pods[..|pods| - 1], f);
    }
  }

  lemma SortedBegins(pods: seq<Pod>, f: nat)
    requires f < |pods| && forall i :: 0 <= i < f ==> pods[i].uid != pods[f].uid
    ensures WithUid(SortedPods(pods), pods[f].uid) != []
    ensures WithUid(SortedPods(pods), pods[f].uid)[0] == pods[f]
  {
    FirstOfGroup(pods, f);
    UidsCount(pods, pods[f].uid);
    SortStringsSorts(Uids(pods));
    assert pods[f].uid == Uids(pods)[f];
    assert pods[f].uid in multiset(SortStrings(Uids(pods)));
    GatherBegins(SortStrings(Uids(pods)), pods, pods[f].uid);
  }

  // Swapping the first pod of a UID with a different one of that UID changes the result.
  lemma SwapShows(pods: seq<Pod>, f: nat, j: nat) returns (other: seq<Pod>)
    requires f < j < |pods| && forall i :: 0 <= i < f ==> pods[i].uid != pods[f].uid
    requires pods[f].uid == pods[j].uid && pods[f] != pods[j]
    ensures multiset(other) == multiset(pods) && SortedPods(other) != SortedPods(pods)
  {
    other := pods[f := pods[j]][j := pods[f]];
    SortedBegins(pods, f);
    SortedBegins(other, f);
  }

  lemma {:induction false} FirstIndex(pods: seq<Pod>, i: nat) returns (f: nat)
    requires i < |pods|
    ensures f <= i && pods[f].uid == pods[i].uid && forall k :: 0 <= k < f ==> pods[k].uid != pods[f].uid
  {
    if k: nat :| k < i && pods[k].uid == pods[i].uid {
      f := FirstIndex(pods, k);
    } else {
      f := i;
    }
  }

  // Any listing: the order in which the pods are listed does not matter exactly when pods that
  // share a UID are the same.
  lemma SortPodsCanonicalIff(pods: seq<Pod>)
    ensures OrderIrrelevant(pods) <==> UidDeterminesPod(pods)
  {
    if UidDeterminesPod(pods) {
      forall other: seq<Pod> | multiset(other) == multiset(pods)
        ensures SortedPods(other) == SortedPods(pods)
      {
        SortPodsCanonical(pods, other);
      }
    } else {
      var i, j :| 0 <= i < j < |pods| && pods[i].uid == pods[j].uid && pods[i] != pods[j];
      var f := FirstIndex(pods, i);
      var other := SwapShows(pods, f, if pods[f] == pods[i] then j else i);
    }
  }

  // ---------- mapping the pods

  // The pods after a change f that leaves the UIDs alone.
  function Mapped(pods: seq<Pod>, f: Pod -> Pod): seq<Pod> {
    if pods == [] then [] else Mapped(pods[..|pods| - 1], f) + [f(pods[|pods| - 1])]
  }

  ghost predicate KeepsUids(f: Pod -> Pod) {
    forall p :: f(p).uid == p.uid
  }

  lemma {:induction false} MappedAt(pods: seq<Pod>, f: Pod -> Pod)
    ensures |Mapped(pods, f)| == |pods|
    ensures forall i :: 0 <= i < |pods| ==> Mapped(pods, f)[i] == f(pods[i])
  {
    if pods == [] {
    } else {
      MappedAt(pods[..|pods| - 1], f);
    }
  }

  lemma {:induction false} MappedConcat(a: seq<Pod>, b: seq<Pod>, f: Pod -> Pod)
    ensures Mapped(a + b, f) == Mapped(a, f) + Mapped(b, f)
  {
    if b == [] {
      assert a + b == a;
    } else {
      assert (a + b)[..|a + b| - 1] == a + b[..|b| - 1];
      MappedConcat(a, b[..|b| - 1], f);
    }
  }

  function Without(pods: seq<Pod>, k: nat): seq<Pod>
    requires k < |pods|
  {
    pods[..k] + pods[k + 1..]
  }

  lemma WithoutOne(pods: seq<Pod>, k: nat)
    requires k < |pods|
    ensures multiset(pods) == multiset(Without(pods, k)) + multiset{pods[k]}
  {
    assert pods == pods[..k] + [pods[k]] + pods[k + 1..];
  }

  lemma {:induction false} MappedWithout(pods: seq<Pod>, k: nat, f: Pod -> Pod)
    requires k < |pods|
    ensures multiset(Mapped(pods, f)) == multiset(Mapped(Without(pods, k), f)) + multiset{f(pods[k])}
  {
    MappedAt(pods, f);
    MappedAt(Without(pods, k), f);
    assert Mapped(Without(pods, k), f) == Without(Mapped(pods, f), k);
    WithoutOne(Mapped(pods, f), k);
  }

  lemma {:induction false} MappedPermutes(a: seq<Pod>, b: seq<Pod>, f: Pod -> Pod)
    requires multiset(a) == multiset(b)
    ensures multiset(Mapped(a, f)) == multiset(Mapped(b, f))
  {
    assert |a| == |multiset(a)| && |b| == |multiset(b)|;
    if a == [] {
    } else {
      assert a[0] in multiset(b);
      var k :| 0 <= k < |b| && b[k] == a[0];
      WithoutOne(a, 0);
      WithoutOne(b, k);
      assert multiset(Without(a, 0)) == multiset(a) - multiset{a[0]};
      assert multiset(Without(b, k)) == multiset(b) - multiset{a[0]};
      MappedPermutes(Without(a, 0), Without(b, k), f);
      MappedWithout(a, 0, f);
      MappedWithout(b, k, f);
    }
  }

  lemma {:induction false} WithUidMapped(pods: seq<Pod>, uid: string, f: Pod -> Pod)
    requires KeepsUids(f)
    ensures WithUid(Mapped(pods, f), uid) == Mapped(WithUid(pods, uid), f)
  {
    if pods == [] {
    } else {
      var before, last := pods[..|pods| - 1], pods[|pods| - 1];
      WithUidMapped(before, uid, f);
      AddPod(Mapped(before, f), f(last), uid);
      MappedConcat(WithUid(before, uid), [last], f);
      assert Mapped([last], f) == [f(last)];
    }
  }

  lemma {:induction false} UidsMapped(pods: seq<Pod>, f: Pod -> Pod)
    requires KeepsUids(f)
    ensures Uids(Mapped(pods, f)) == Uids(pods)
  {
    if pods == [] {
    } else {
      UidsMapped(pods[..|pods| - 1], f);
    }
  }

  lemma {:induction false} GatherMapped(uids: seq<string>, pods: seq<Pod>, f: Pod -> Pod)
    requires KeepsUids(f)
    ensures Gather(uids, Mapped(pods, f)) == Mapped(Gather(uids, pods), f)
  {
    if uids == [] {
    } else {
      var before, last := uids[..|uids| - 1], uids[|uids| - 1];
      GatherMapped(before, pods, f);
      WithUidMapped(pods, last, f);
      MappedConcat(Gather(before, pods), WithUid(pods, last), f);
    }
  }

  // Sorting does not look at anything but the UIDs.
  lemma SortedMapped(pods: seq<Pod>, f: Pod -> Pod)
    requires KeepsUids(f)
    ensures SortedPods(Mapped(pods, f)) == Mapped(SortedPods(pods), f)
  {
    UidsMapped(pods, f);
    GatherMapped(SortStrings(Uids(pods)), pods, f);
  }

  // ---------- how long the result is

  function Kept(pods: seq<Pod>, keep: Pod -> bool): nat {
    if pods == [] then 0
    else Kept(pods[..|pods| - 1], keep) + if keep(pods[|pods| - 1]) then 1 else 0
  }

  // The sum of Multiplicity(all, p.uid) over the kept pods p.
  function Weight(pods: seq<Pod>, all: seq<Pod>, keep: Pod -> bool): nat {
    if pods == [] then 0
    else
      var last, before := pods[|pods| - 1], Weight(pods[..|pods| - 1], all, keep);
      if keep(last) then before + Multiplicity(all, last.uid) else before
  }

  // The number of pairs of a listed UID and a kept pod that has it.
  function PairCount(uids: seq<string>, pods: seq<Pod>, keep: Pod -> bool): nat {
    if uids == [] then 0
    else PairCount(uids[..|uids| - 1], pods, keep) + Kept(WithUid(pods, uids[|uids| - 1]), keep)
  }

  lemma {:induction false} KeptConcat(a: seq<Pod>, b: seq<Pod>, keep: Pod -> bool)
    ensures Kept(a + b, keep) == Kept(a, keep) + Kept(b, keep)
  {
    if b == [] {
      assert a + b == a;
    } else {
      assert (a + b)[..|a + b| - 1] == a + b[..|b| - 1];
      KeptConcat(a, b[..|b| - 1], keep);
    }
  }

  lemma {:induction false} PairsConcat(a: seq<string>, b: seq<string>, pods: seq<Pod>, keep: Pod -> bool)
    ensures PairCount(a + b, pods, keep) == PairCount(a, pods, keep) + PairCount(b, pods, keep)
  {
    if b == [] {
      assert a + b == a;
    } else {
      assert (a + b)[..|a + b| - 1] == a + b[..|b| - 1];
      PairsConcat(a, b[..|b| - 1], pods, keep);
    }
  }

  lemma {:induction false} GatherKeeps(uids: seq<string>, pods: seq<Pod>, keep: Pod -> bool)
    ensures Kept(Gather(uids, pods), keep) == PairCount(uids, pods, keep)
  {
    if uids == [] {
    } else {
      GatherKeeps(uids[..|uids| - 1], pods, keep);
      KeptConcat(Gather(uids[..|uids| - 1], pods), WithUid(pods, uids[|uids| - 1]), keep);
    }
  }

  lemma {:induction false} InsertPairs(x: string, s: seq<string>, pods: seq<Pod>, keep: Pod -> bool)
    ensures PairCount(Insert(x, s), pods, keep) == PairCount([x], pods, keep) + PairCount(s, pods, keep)
  {
    if s == [] || !Less(s[0], x) {
      PairsConcat([x], s, pods, keep);
    } else {
      InsertPairs(x, s[1..], pods, keep);
      PairsConcat([s[0]], Insert(x, s[1..]), pods, keep);
      PairsConcat([s[0]], s[1..], pods, keep);
      assert s == [s[0]] + s[1..];
    }
  }

  lemma {:induction false} SortPairs(s: seq<string>, pods: seq<Pod>, keep: Pod -> bool)
    ensures PairCount(SortStrings(s), pods, keep) == PairCount(s, pods, keep)
  {
    if s == [] {
    } else {
      SortPairs(s[1..], pods, keep);
      InsertPairs(s[0], SortStrings(s[1..]), pods, keep);
      PairsConcat([s[0]], s[1..], pods, keep);
      assert s == [s[0]] + s[1..];
    }
  }

  lemma {:induction false} PairsAddPod(uids: seq<string>, pods: seq<Pod>, p: Pod, keep: Pod -> bool)
    ensures PairCount(uids, pods + [p], keep) ==
            PairCount(uids, pods, keep) + if keep(p) then multiset(uids)[p.uid] else 0
  {
    assert (pods + [p])[..|pods|] == pods;
    if uids == [] {
    } else {
      var before, last := uids[..|uids| - 1], uids[|uids| - 1];
      assert uids == before + [last];
      PairsAddPod(before, pods, p, keep);
      if p.uid == last {
        KeptConcat(WithUid(pods, last), [p], keep);
      }
    }
  }

  lemma {:induction false} NoPairs(uids: seq<string>, keep: Pod -> bool)
    ensures PairCount(uids, [], keep) == 0
  {
    if uids == [] {
    } else {
      NoPairs(uids[..|uids| - 1], keep);
    }
  }

  // The pairs counted by UID and counted by pod.
  lemma {:induction false} PairsByPod(listing: seq<Pod>, pods: seq<Pod>, keep: Pod -> bool)
    ensures PairCount(Uids(listing), pods, keep) == Weight(pods, listing, keep)
  {
    if pods == [] {
      NoPairs(Uids(listing), keep);
    } else {
      var before, last := pods[..|pods| - 1], pods[|pods| - 1];
      assert pods == before + [last];
      PairsByPod(listing, before, keep);
      PairsAddPod(Uids(listing), before, last, keep);
      UidsCount(listing, last.uid);
    }
  }

  // Any listing: how many pods of a kind come out.
  lemma SortPodsKeeps(pods: seq<Pod>, keep: Pod -> bool)
    ensures Kept(SortedPods(pods), keep) == Weight(pods, pods, keep)
  {
    GatherKeeps(SortStrings(Uids(pods)), pods, keep);
    SortPairs(Uids(pods), pods, keep);
    PairsByPod(pods, pods, keep);
  }

  // The distinct UIDs in order of first appearance.
  function Distinct(pods: seq<Pod>): seq<string> {
    if pods == [] then []
    else
      var last, before := pods[|pods| - 1].uid, Distinct(pods[..|pods| - 1]);
      if last in before then before else before + [last]
  }

  // The sum over the UIDs u of Multiplicity(pods, u) times Multiplicity(all, u).
  function Products(uids: seq<string>, pods: seq<Pod>, all: seq<Pod>): nat {
    if uids == [] then 0
    else
      var last := uids[|uids| - 1];
      Products(uids[..|uids| - 1], pods, all) + Multiplicity(pods, last) * Multiplicity(all, last)
  }

  lemma {:induction false} DistinctIsDistinct(pods: seq<Pod>)
    ensures forall i, j :: 0 <= i < j < |Distinct(pods)| ==> Distinct(pods)[i] != Distinct(pods)[j]
    ensures forall i :: 0 <= i < |pods| ==> pods[i].uid in Distinct(pods)
  {
    if pods == [] {
    } else {
      DistinctIsDistinct(pods[..|pods| - 1]);
    }
  }

  lemma {:induction false} ProductsAddPod(uids: seq<string>, pods: seq<Pod>, p: Pod, all: seq<Pod>)
    requires forall i, j :: 0 <= i < j < |uids| ==> uids[i] != uids[j]
    ensures Products(uids, pods + [p], all) ==
            Products(uids, pods, all) + if p.uid in uids then Multiplicity(all, p.uid) else 0
  {
    assert (pods + [p])[..|pods|] == pods;
    if uids == [] {
    } else {
      var before, last := uids[..|uids| - 1], uids[|uids| - 1];
      assert uids == before + [last];
      ProductsAddPod(before, pods, p, all);
      if p.uid == last {
        assert p.uid !in before;
        OneMore(Multiplicity(pods, last), Multiplicity(all, last));
      }
    }
  }

  lemma {:induction false} WeightByUid(pods: seq<Pod>, all: seq<Pod>)
    ensures Weight(pods, all, p => true) == Products(Distinct(pods), pods, all)
  {
    if pods == [] {
    } else {
      var before, last := pods[..|pods| - 1], pods[|pods| - 1];
      assert pods == before + [last];
      WeightByUid(before, all);
      DistinctIsDistinct(before);
      ProductsAddPod(Distinct(before), before, last, all);
      if last.uid !in Distinct(before) {
        NoneWithUid(before, last.uid);
        assert (Distinct(before) + [last.uid])[..|Distinct(before)|] == Distinct(before);
        assert Multiplicity(pods, last.uid) == 1;
      }
    }
  }

  lemma {:induction false} KeptAll(pods: seq<Pod>)
    ensures Kept(pods, p => true) == |pods|
  {
    if pods == [] {
    } else {
      KeptAll(pods[..|pods| - 1]);
    }
  }

  // Any listing: the length is the sum of the squares of the multiplicities of the distinct UIDs.
  lemma SortPodsLength(pods: seq<Pod>)
    ensures |SortedPods(pods)| == Products(Distinct(pods), pods, pods)
  {
    SortPodsKeeps(pods, p => true);
    KeptAll(SortedPods(pods));
    WeightByUid(pods, pods);
  }

  lemma {:induction false} DistinctWeight(pods: seq<Pod>, all: seq<Pod>, keep: Pod -> bool)
    requires DistinctUids(all) && forall p :: p in pods ==> p in all
    ensures Weight(pods, all, keep) == Kept(pods, keep)
  {
    if pods == [] {
    } else {
      DistinctWeight(pods[..|pods| - 1], all, keep);
      DistinctMultiplicity(all, pods[|pods| - 1]);
    }
  }

  lemma SortPodsMembers(pods: seq<Pod>, p: Pod)
    ensures p in SortedPods(pods) <==> p in pods
  {
    SortPodsMultiplies(pods, p);
    assert p in SortedPods(pods) <==> p in multiset(SortedPods(pods));
    assert p in pods <==> p in multiset(pods);
    if p in pods {
      WithUidCount(pods, p.uid, p);
      assert p in multiset(WithUid(pods, p.uid));
      assert Multiplicity(pods, p.uid) >= 1;
    }
  }
}
