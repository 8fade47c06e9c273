/**
 Where each listed pod comes out of `SortPods`, and what the counting functions count.
*/
module PodPositions {
  import opened GoTypes
  import opened GoStrings
  import opened PodUtil

  // ---------- counts

  // The places of the listing that hold a pod to keep.
  ghost function Places(pods: seq<Pod>, keep: Pod -> bool): set<nat> {
    set k: nat | k < |pods| && keep(pods[k])
  }

  lemma PlacesNext(pods: seq<Pod>, p: Pod, keep: Pod -> bool)
    ensures |Places(pods + [p], keep)| == |Places(pods, keep)| + if keep(p) then 1 else 0
  {
    var before, after := Places(pods, keep), Places(pods + [p], keep);
    forall k: nat
      ensures k in after <==> k in before || (k == |pods| && keep(p))
    {
    }
    assert after == if keep(p) then before + {|pods|} else before;
  }

  lemma {:induction false} KeptCounts(pods: seq<Pod>, keep: Pod -> bool)
    ensures Kept(pods, keep) == |set k: nat | k < |pods| && keep(pods[k])|
  {
    assert (set k: nat | k < |pods| && keep(pods[k])) == Places(pods, keep);
    if pods == [] {
    } else {
      var before, last := pods[..|pods| - 1], pods[|pods| - 1];
      assert pods == before + [last];
      KeptCounts(before, keep);
      assert (set k: nat | k < |before| && keep(before[k])) == Places(before, keep);
      PlacesNext(before, last, keep);
    }
  }

  lemma {:induction false} MultiplicityIsKept(pods: seq<Pod>, uid: string)
    ensures Multiplicity(pods, uid) == Kept(pods, (p: Pod) => p.uid == uid)
  {
    if pods == [] {
    } else {
      MultiplicityIsKept(pods[..|pods| - 1], uid);
    }
  }

  // The multiplicity of a UID is the number of places of the listing that hold a pod with it.
  lemma MultiplicityCounts(pods: seq<Pod>, uid: string)
    ensures Multiplicity(pods, uid) == |set k: nat | k < |pods| && pods[k].uid == uid|
  {
    var keep := (p: Pod) => p.uid == uid;
    MultiplicityIsKept(pods, uid);
    KeptCounts(pods, keep);
    assert (set k: nat | k < |pods| && keep(pods[k])) == set k: nat | k < |pods| && pods[k].uid == uid;
  }

  // ---------- groups

  function Repeat(group: seq<Pod>, n: nat): seq<Pod> {
    if n == 0 then [] else Repeat(group, n - 1) + group
  }

  lemma {:induction false} RepeatLength(group: seq<Pod>, n: nat)
    ensures |Repeat(group, n)| == n * |group|
  {
    if n == 0 {
    } else {
      RepeatLength(group, n - 1);
      OneMore(n - 1, |group|);
    }
  }

  // Copy c starts where c copies end.
  lemma {:induction false} RepeatAt(group: seq<Pod>, n: nat, c: nat, r: nat)
    requires c < n && r < |group|
    ensures |Repeat(group, c)| + r < |Repeat(group, n)|
    ensures Repeat(group, n)[|Repeat(group, c)| + r] == group[r]
  {
    if c < n - 1 {
      RepeatAt(group, n - 1, c, r);
    }
  }

  // The pods of a UID come out as the group of that UID, once for each time the UID is listed.
  lemma {:induction false} GatherRepeats(uids: seq<string>, pods: seq<Pod>, uid: string)
    ensures WithUid(Gather(uids, pods), uid) == Repeat(WithUid(pods, uid), multiset(uids)[uid])
  {
    if uids == [] {
    } else {
      var before, last := uids[..|uids| - 1], uids[|uids| - 1];
      GatherRepeats(before, pods, uid);
      CountLast(uids, uid);
      WithUidConcat(Gather(before, pods), WithUid(pods, last), uid);
      if last == uid {
        WithUidTwice(pods, uid);
      } else {
        GroupHasUid(pods, last, uid);
      }
    }
  }

  lemma SortedRepeats(pods: seq<Pod>, uid: string)
    ensures WithUid(SortedPods(pods), uid) == Repeat(WithUid(pods, uid), Multiplicity(pods, uid))
  {
    SortStringsSorts(Uids(pods));
    UidsCount(pods, uid);
    GatherRepeats(SortStrings(Uids(pods)), pods, uid);
  }

  // A pod is in its group behind those listed before it.
  lemma {:induction false} PlaceInGroup(pods: seq<Pod>, x: nat)
    requires x < |pods|
    ensures Multiplicity(pods[..x], pods[x].uid) < Multiplicity(pods, pods[x].uid)
    ensures WithUid(pods, pods[x].uid)[Multiplicity(pods[..x], pods[x].uid)] == pods[x]
  {
    var n := |pods| - 1;
    if x < n {
      assert pods[..n][..x] == pods[..x];
      PlaceInGroup(pods[..n], x);
    }
  }

  // ---------- places

  function Below(uid: string): Pod -> bool {
    (q: Pod) => Less(q.uid, uid)
  }

  lemma {:induction false} NoneAbove(pods: seq<Pod>, uid: string)
    requires forall i :: 0 <= i < |pods| ==> !Less(uid, pods[i].uid)
    ensures Kept(pods, Below(uid)) + Multiplicity(pods, uid) == |pods|
  {
    if pods == [] {
    } else {
      var last := pods[|pods| - 1];
      NoneAbove(pods[..|pods| - 1], uid);
      LessTotal(last.uid, uid);
      LessIrreflexive(uid);
    }
  }

  lemma KeptLast(pods: seq<Pod>, keep: Pod -> bool)
    requires pods != []
    ensures Kept(pods, keep) == Kept(pods[..|pods| - 1], keep) + if keep(pods[|pods| - 1]) then 1 else 0
  {
  }

  // Behind a pod of the UID nothing smaller comes.
  lemma GroupEnds(sorted: seq<Pod>, uid: string)
    requires ByUid(sorted) && sorted != [] && Multiplicity(sorted[..|sorted| - 1], uid) > 0
    ensures !Less(sorted[|sorted| - 1].uid, uid)
  {
    var before := sorted[..|sorted| - 1];
    var p := WithUid(before, uid)[0];
    WithUidCount(before, uid, p);
    assert p in multiset(WithUid(before, uid));
    assert p in before;
  }

  // In a sorted list the group of a UID stands behind the pods with smaller UIDs.
  lemma {:induction false} GroupPlace(sorted: seq<Pod>, uid: string, r: nat)
    requires ByUid(sorted) && r < Multiplicity(sorted, uid)
    ensures var k := Kept(sorted, Below(uid)) + r;
            k < |sorted| && sorted[k] == WithUid(sorted, uid)[r]
  {
    var before, last := sorted[..|sorted| - 1], sorted[|sorted| - 1];
    KeptLast(sorted, Below(uid));
    if r < Multiplicity(before, uid) {
      GroupPlace(before, uid, r);
      GroupEnds(sorted, uid);
    } else {
      assert last.uid == uid && r == Multiplicity(before, uid);
      LessIrreflexive(uid);
      NoneAbove(before, uid);
    }
  }

  // The offset in the group of a UID of copy c of the pod listed at x.
  function Offset(pods: seq<Pod>, x: nat, c: nat): nat
    requires x < |pods|
  {
    |Repeat(WithUid(pods, pods[x].uid), c)| + Multiplicity(pods[..x], pods[x].uid)
  }

  lemma SortedGroupAt(pods: seq<Pod>, x: nat, c: nat)
    requires x < |pods| && c < Multiplicity(pods, pods[x].uid)
    ensures Offset(pods, x, c) < Multiplicity(SortedPods(pods), pods[x].uid)
    ensures WithUid(SortedPods(pods), pods[x].uid)[Offset(pods, x, c)] == pods[x]
  {
    var uid := pods[x].uid;
    PlaceInGroup(pods, x);
    SortedRepeats(pods, uid);
    RepeatAt(WithUid(pods, uid), Multiplicity(pods, uid), c, Multiplicity(pods[..x], uid));
  }

  lemma OffsetIs(pods: seq<Pod>, x: nat, c: nat)
    requires x < |pods|
    ensures Offset(pods, x, c) == c * Multiplicity(pods, pods[x].uid) + Multiplicity(pods[..x], pods[x].uid)
  {
    RepeatLength(WithUid(pods, pods[x].uid), c);
  }

  lemma PlacedAtOffset(pods: seq<Pod>, x: nat, c: nat)
    requires x < |pods| && c < Multiplicity(pods, pods[x].uid)
    ensures var k := Weight(pods, pods, Below(pods[x].uid)) + Offset(pods, x, c);
            k < |SortedPods(pods)| && SortedPods(pods)[k] == pods[x]
  {
    SortedGroupAt(pods, x, c);
    SortedByUid(pods);
    GroupPlace(SortedPods(pods), pods[x].uid, Offset(pods, x, c));
    SortPodsKeeps(pods, Below(pods[x].uid));
  }

  // Any listing: where the pod listed at x comes out.  It comes out once for each pod that shares
  // its UID; copy c stands behind every copy of the pods with smaller UIDs, behind c copies of its
  // group and behind the pods of the group listed before it.  By SortPodsLength there is nothing
  // else in the result.
  lemma SortPodsAt(pods: seq<Pod>, x: nat, c: nat)
    requires x < |pods| && c < Multiplicity(pods, pods[x].uid)
    ensures var uid := pods[x].uid;
            var k := Weight(pods, pods, Below(uid)) + c * Multiplicity(pods, uid) + Multiplicity(pods[..x], uid);
            0 <= k < |SortedPods(pods)| && SortedPods(pods)[k] == pods[x]
  {
    PlacedAtOffset(pods, x, c);
    OffsetIs(pods, x, c);
  }

  lemma SortTwins(uid: string)
    ensures SortStrings([uid, uid]) == [uid, uid]
  {
    LessIrreflexive(uid);
    assert [uid, uid][1..] == [uid] && [uid][1..] == [];
    assert SortStrings([uid]) == [uid];
  }

  lemma GatherTwins(uid: string, pods: seq<Pod>)
    ensures Gather([uid, uid], pods) == WithUid(pods, uid) + WithUid(pods, uid)
  {
    var uids := [uid, uid];
    assert uids[..0] == [] && uids[..2] == uids && uids[0] == uids[1] == uid;
    assert Gather(uids[..0], pods) == [];
    GatherNext(uids, 0, pods);
    GatherNext(uids, 1, pods);
  }

  lemma TwinGroup(p: Pod, q: Pod)
    requires p.uid == q.uid
    ensures WithUid([p, q], p.uid) == [p, q]
  {
    AddPod([], p, p.uid);
    AddPod([p], q, p.uid);
    assert [] + [p] == [p] && [p] + [q] == [p, q];
  }

  // Two listed pods with one UID come out twice each, as listed; a pod listed twice four times.
  lemma SharedUidRepeats(p: Pod, q: Pod)
    requires p.uid == q.uid
    ensures SortedPods([p, q]) == [p, q, p, q]
  {
    UidsCount([p, q], p.uid);
    assert Uids([p, q]) == [p.uid, p.uid];
    SortTwins(p.uid);
    GatherTwins(p.uid, [p, q]);
    TwinGroup(p, q);
  }

  // So the order of two different pods with one UID shows.
  lemma SharedUidShowsOrder(p: Pod, q: Pod)
    requires p.uid == q.uid && p != q
    ensures multiset([p, q]) == multiset([q, p]) && SortedPods([p, q]) != SortedPods([q, p])
  {
    SharedUidRepeats(p, q);
    SharedUidRepeats(q, p);
    assert SortedPods([p, q])[0] == p && SortedPods([q, p])[0] == q;
  }
}
