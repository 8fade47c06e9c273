/**
 What holds of every interleaving of the fan-out.
*/
module BulkTheorems {
  import opened GoTypes
  import opened LrpStatus
  import opened BulkModel

  // Between Lock and Unlock.
  predicate Critical(p: Phase) {
    p.Locked? || p.Loaded? || p.Stored?
  }

  // The map after the works of the order have stored, one after the other.
  function Fold(works: seq<Work>, order: seq<nat>): Bundle {
    if order == [] then map[]
    else
      var last, before := order[|order| - 1], Fold(works, order[..|order| - 1]);
      if last < |works| && Produced(works[last]).Some? then before[works[last].guid := Produced(works[last]).value]
      else before
  }

  ghost predicate PhaseFits(s: State, w: nat)
    requires w < |s.works| == |s.phases|
  {
    var lookup := s.works[w].lookup;
    match s.phases[w]
    case Fetched(found) => lookup == Reported(Returned(found))
    case Locked(held) => lookup == Reported(Returned(held))
    case Loaded(value, snapshot) => lookup == Reported(Returned(Some(value))) && snapshot == s.bundle
    case _ => true
  }

  // The work has stored what it had to store.
  ghost predicate Wrote(s: State, w: nat) {
    w < |s.works| == |s.phases| && (s.phases[w].Stored? || s.phases[w].Done?) && Produced(s.works[w]).Some?
  }

  ghost predicate Locking(s: State) {
    && |s.works| == |s.phases|
    && (forall w: nat :: w < |s.phases| ==> (Critical(s.phases[w]) <==> s.lock == Some(w)))
    && (s.lock.Some? ==> s.lock.value < |s.phases|)
    && (forall w: nat :: w < |s.phases| ==> PhaseFits(s, w))
  }

  ghost predicate Ordered(s: State) {
    && (forall w: nat :: w in s.order <==> Wrote(s, w))
    && (forall i, j :: 0 <= i < j < |s.order| ==> s.order[i] != s.order[j])
    && s.bundle == Fold(s.works, s.order)
  }

  // A work that panics ends the process once it has fetched, and never stores.
  ghost predicate Fell(s: State, w: nat) {
    w < |s.works| == |s.phases| && s.phases[w].Done? && Panics(s.works[w])
  }

  ghost predicate Panicking(s: State) {
    && (forall w: nat :: Fell(s, w) ==> s.panicked)
    && (s.panicked ==> exists w: nat :: Fell(s, w))
    && (forall w: nat :: w < |s.works| == |s.phases| && s.phases[w].Stored? ==> !Panics(s.works[w]))
  }

  ghost predicate Inv(s: State) {
    Locking(s) && Ordered(s) && Panicking(s) && Active(s.phases) <= s.workers
  }

  lemma {:induction false} ActiveUpdate(phases: seq<Phase>, w: nat, p: Phase)
    requires w < |phases|
    ensures Active(phases[w := p]) ==
            Active(phases) - (if UnderWay(phases[w]) then 1 else 0) + (if UnderWay(p) then 1 else 0)
  {
    var n := |phases| - 1;
    if w < n {
      assert phases[w := p][..n] == phases[..n][w := p];
      ActiveUpdate(phases[..n], w, p);
    } else {
      assert phases[w := p][..n] == phases[..n];
    }
  }

  lemma LockingStep(s: State, w: nat)
    requires Locking(s) && Enabled(s, w)
    ensures Locking(Step(s, w))
  {
    var s' := Step(s, w);
    assert PhaseFits(s, w);
    forall v: nat | v < |s'.phases|
      ensures PhaseFits(s', v)
    {
      assert PhaseFits(s, v);
      assert Critical(s.phases[v]) <==> s.lock == Some(v);
    }
  }

  lemma StoreStep(s: State, w: nat)
    requires Locking(s) && Ordered(s) && Enabled(s, w) && s.phases[w].Loaded?
    ensures Ordered(Step(s, w))
  {
    var s' := Step(s, w);
    assert PhaseFits(s, w);
    assert s'.order[..|s'.order| - 1] == s.order;
    assert w !in s.order by {
      assert !Wrote(s, w);
    }
    forall v: nat
      ensures v in s'.order <==> Wrote(s', v)
    {
      assert v in s.order <==> Wrote(s, v);
    }
  }

  lemma OrderedStep(s: State, w: nat)
    requires Locking(s) && Ordered(s) && Enabled(s, w)
    ensures Ordered(Step(s, w))
  {
    if s.phases[w].Loaded? {
      StoreStep(s, w);
    } else {
      assert PhaseFits(s, w);
      forall v: nat
        ensures v in s.order <==> Wrote(Step(s, w), v)
      {
        assert v in s.order <==> Wrote(s, v);
      }
    }
  }

  lemma PanickingStep(s: State, w: nat)
    requires Locking(s) && Panicking(s) && Enabled(s, w)
    ensures Panicking(Step(s, w))
  {
    var s' := Step(s, w);
    assert PhaseFits(s, w);
    forall v: nat | Fell(s', v)
      ensures s'.panicked
    {
      assert v != w ==> Fell(s, v);
    }
    if s'.panicked {
      assert Fell(s', w);
    }
  }

  lemma InvStep(s: State, w: nat)
    requires Inv(s) && Enabled(s, w)
    ensures Inv(Step(s, w))
  {
    LockingStep(s, w);
    OrderedStep(s, w);
    PanickingStep(s, w);
    ActiveUpdate(s.phases, w, Step(s, w).phases[w]);
  }

  lemma {:induction false} NoneActive(phases: seq<Phase>)
    requires forall w :: 0 <= w < |phases| ==> !UnderWay(phases[w])
    ensures Active(phases) == 0
  {
    if phases == [] {
    } else {
      NoneActive(phases[..|phases| - 1]);
    }
  }

  lemma InvInit(works: seq<Work>, workers: int)
    requires workers >= 0
    ensures Inv(Init(works, workers))
  {
    NoneActive(Init(works, workers).phases);
  }

  lemma {:induction false} InvExec(s: State, schedule: seq<nat>)
    requires Inv(s)
    ensures Inv(Exec(s, schedule))
    ensures Exec(s, schedule).works == s.works && Exec(s, schedule).workers == s.workers
    decreases |schedule|
  {
    if schedule == [] {
    } else {
      if Enabled(s, schedule[0]) {
        InvStep(s, schedule[0]);
        InvExec(Step(s, schedule[0]), schedule[1..]);
      } else {
        InvExec(s, schedule[1..]);
      }
    }
  }

  // The works that have begun and not ended.
  ghost function Begun(phases: seq<Phase>): set<nat> {
    set w: nat | w < |phases| && phases[w] != Waiting && phases[w] != Done
  }

  lemma BegunNext(phases: seq<Phase>, p: Phase)
    ensures |Begun(phases + [p])| == |Begun(phases)| + if p != Waiting && p != Done then 1 else 0
  {
    var before, after := Begun(phases), Begun(phases + [p]);
    forall w: nat
      ensures w in after <==> w in before || (w == |phases| && p != Waiting && p != Done)
    {
    }
    assert after == if p != Waiting && p != Done then before + {|phases|} else before;
  }

  lemma {:induction false} ActiveCounts(phases: seq<Phase>)
    ensures Active(phases) == |Begun(phases)|
  {
    if phases == [] {
    } else {
      var before, last := phases[..|phases| - 1], phases[|phases| - 1];
      assert phases == before + [last];
      ActiveCounts(before);
      BegunNext(before, last);
    }
  }

  // The map of an order holds, for each guid, what the last producing work for it produced.
  lemma {:induction false} FoldTakesLast(works: seq<Work>, order: seq<nat>, i: nat)
    requires i < |order| && order[i] < |works| && Produced(works[order[i]]).Some?
    requires forall j :: i < j < |order| && order[j] < |works| && works[order[j]].guid == works[order[i]].guid ==>
               Produced(works[order[j]]).None?
    ensures var work, bundle := works[order[i]], Fold(works, order);
            work.guid in bundle && bundle[work.guid] == Produced(work).value
  {
    var n := |order| - 1;
    if i < n {
      FoldTakesLast(works, order[..n], i);
    }
  }

  // The loop over the works in the order requested leaves, for each guid, what its last producing
  // work produced.
  lemma {:induction false} SequentialTakesLast(works: seq<Work>, i: nat)
    requires i < |works| && Produced(works[i]).Some?
    requires forall j :: i < j < |works| && works[j].guid == works[i].guid ==> Produced(works[j]).None?
    ensures works[i].guid in Sequential(works) && Sequential(works)[works[i].guid] == Produced(works[i]).value
  {
    var n := |works| - 1;
    if i < n {
      SequentialTakesLast(works[..n], i);
    }
  }

  // At every moment of every interleaving: at most one work is between Lock and Unlock, at most
  // `workers` works have begun and not ended, and the map is what the works that have stored leave
  // when they run one after the other; they are all that are past the store and had something to.
  lemma LockSerialises(works: seq<Work>, workers: nat, schedule: seq<nat>)
    ensures var s := Exec(Init(works, workers), schedule);
            && (forall v, w :: 0 <= v < w < |s.phases| ==> !(Critical(s.phases[v]) && Critical(s.phases[w])))
            && |set w: nat | w < |s.phases| && s.phases[w] != Waiting && s.phases[w] != Done| <= workers
            && s.bundle == Fold(works, s.order)
            && (forall i, j :: 0 <= i < j < |s.order| ==> s.order[i] != s.order[j])
            && (forall w: nat :: w in s.order <==>
                  w < |works| == |s.phases| && (s.phases[w] == Stored || s.phases[w] == Done) && Produced(works[w]).Some?)
  {
    InvInit(works, workers);
    InvExec(Init(works, workers), schedule);
    var s := Exec(Init(works, workers), schedule);
    ActiveCounts(s.phases);
    assert Begun(s.phases) == set w: nat | w < |s.phases| && s.phases[w] != Waiting && s.phases[w] != Done;
    forall w: nat
      ensures w in s.order <==>
              w < |works| == |s.phases| && (s.phases[w] == Stored || s.phases[w] == Done) && Produced(works[w]).Some?
    {
      assert w in s.order <==> Wrote(s, w);
    }
  }

  // A waiting work can begin exactly when a worker is free.
  lemma BeginsIff(works: seq<Work>, workers: nat, schedule: seq<nat>, w: nat)
    requires var s := Exec(Init(works, workers), schedule);
             w < |s.phases| && s.phases[w] == Waiting && !s.panicked
    ensures var s := Exec(Init(works, workers), schedule);
            Enabled(s, w) <==> |set v: nat | v < |s.phases| && s.phases[v] != Waiting && s.phases[v] != Done| < workers
  {
    InvInit(works, workers);
    InvExec(Init(works, workers), schedule);
    var s := Exec(Init(works, workers), schedule);
    ActiveCounts(s.phases);
    assert Begun(s.phases) == set v: nat | v < |s.phases| && s.phases[v] != Waiting && s.phases[v] != Done;
  }

  // ---------- progress

  function Rest(p: Phase): nat {
    match p
    case Waiting => 6
    case Fetching => 5
    case Fetched(_) => 4
    case Locked(_) => 3
    case Loaded(_, _) => 2
    case Stored => 1
    case Done => 0
  }

  function Left(phases: seq<Phase>): nat {
    if phases == [] then 0 else Left(phases[..|phases| - 1]) + Rest(phases[|phases| - 1])
  }

  lemma {:induction false} LeftUpdate(phases: seq<Phase>, w: nat, p: Phase)
    requires w < |phases|
    ensures Left(phases[w := p]) == Left(phases) - Rest(phases[w]) + Rest(p)
  {
    var n := |phases| - 1;
    if w < n {
      assert phases[w := p][..n] == phases[..n][w := p];
      LeftUpdate(phases[..n], w, p);
    } else {
      assert phases[w := p][..n] == phases[..n];
    }
  }

  lemma StepsRunOut(s: State, w: nat)
    requires Enabled(s, w)
    ensures Left(Step(s, w).phases) < Left(s.phases)
  {
    LeftUpdate(s.phases, w, Step(s, w).phases[w]);
  }

  // With at least one worker the works never block each other for good: unless the process is
  // gone, some unfinished work can go on.
  lemma NoDeadlock(s: State) returns (w: nat)
    requires Inv(s) && s.workers >= 1 && !Ended(s)
    ensures Enabled(s, w)
  {
    if s.lock.Some? {
      w := s.lock.value;
    } else if v: nat :| v < |s.phases| && UnderWay(s.phases[v]) {
      w := v;
    } else {
      NoneActive(s.phases);
      w :| w < |s.phases| && !s.phases[w].Done?;
    }
  }

  // ---------- the final map

  ghost predicate ProducedFor(works: seq<Work>, g: string, value: Instances) {
    exists w :: 0 <= w < |works| && works[w].guid == g && Produced(works[w]) == Some(value)
  }

  // The map holds exactly the guids some work produced instances for, each with instances that a
  // work for that guid produced.
  ghost predicate IsBundleOf(bundle: Bundle, works: seq<Work>) {
    && (forall w :: 0 <= w < |works| && Produced(works[w]).Some? ==> works[w].guid in bundle)
    && (forall g :: g in bundle ==> ProducedFor(works, g, bundle[g]))
  }

  lemma {:induction false} FoldHolds(works: seq<Work>, order: seq<nat>)
    ensures forall w: nat :: w in order && w < |works| && Produced(works[w]).Some? ==> works[w].guid in Fold(works, order)
    ensures forall g :: g in Fold(works, order) ==> ProducedFor(works, g, Fold(works, order)[g])
  {
    if order == [] {
    } else {
      FoldHolds(works, order[..|order| - 1]);
    }
  }

  lemma DoneHolds(s: State)
    requires Inv(s) && AllDone(s)
    ensures IsBundleOf(s.bundle, s.works)
  {
    FoldHolds(s.works, s.order);
    forall w: nat | w < |s.works| && Produced(s.works[w]).Some?
      ensures s.works[w].guid in s.bundle
    {
      assert Wrote(s, w);
    }
  }

  lemma {:induction false} SequentialHolds(works: seq<Work>)
    ensures IsBundleOf(Sequential(works), works)
  {
    if works == [] {
    } else {
      var before, last := works[..|works| - 1], works[|works| - 1];
      SequentialHolds(before);
      forall g | g in Sequential(works)
        ensures ProducedFor(works, g, Sequential(works)[g])
      {
        if Produced(last).Some? && g == last.guid {
          assert works[|works| - 1].guid == g;
        } else {
          var w :| 0 <= w < |before| && before[w].guid == g && Produced(before[w]) == Some(Sequential(before)[g]);
          assert works[w] == before[w];
        }
      }
      forall w | 0 <= w < |works| && Produced(works[w]).Some?
        ensures works[w].guid in Sequential(works)
      {
        if w < |before| {
          assert before[w] == works[w];
        }
      }
    }
  }

  predicate Disagree(a: Work, b: Work) {
    a.guid == b.guid && Produced(a).Some? && Produced(b).Some? && Produced(a) != Produced(b)
  }

  // Works for the same guid that produce instances produce the same ones.
  ghost predicate EqualGuidsAgree(works: seq<Work>) {
    forall v, w :: 0 <= v < w < |works| ==> !Disagree(works[v], works[w])
  }

  lemma AgreeAt(a: Bundle, b: Bundle, works: seq<Work>, g: string)
    requires EqualGuidsAgree(works) && IsBundleOf(a, works) && IsBundleOf(b, works) && g in a
    ensures g in b && a[g] == b[g]
  {
    assert ProducedFor(works, g, a[g]);
    var v :| 0 <= v < |works| && works[v].guid == g && Produced(works[v]) == Some(a[g]);
    assert ProducedFor(works, g, b[g]);
    var w :| 0 <= w < |works| && works[w].guid == g && Produced(works[w]) == Some(b[g]);
    if v < w {
      assert !Disagree(works[v], works[w]);
    } else if w < v {
      assert !Disagree(works[w], works[v]);
    }
  }

  lemma BundlesAgree(a: Bundle, b: Bundle, works: seq<Work>)
    requires EqualGuidsAgree(works) && IsBundleOf(a, works) && IsBundleOf(b, works)
    ensures a == b
  {
    forall g | g in a
      ensures g in b && a[g] == b[g]
    {
      AgreeAt(a, b, works, g);
    }
    forall g | g in b
      ensures g in a
    {
      AgreeAt(b, a, works, g);
    }
  }

  ghost predicate NonePanics(works: seq<Work>) {
    forall w :: 0 <= w < |works| ==> !Panics(works[w])
  }

  lemma EndedPanics(s: State)
    requires Inv(s) && Ended(s)
    ensures s.panicked <==> !NonePanics(s.works)
  {
    if s.panicked {
      var w: nat :| Fell(s, w);
    } else if w :| 0 <= w < |s.works| && Panics(s.works[w]) {
      assert Fell(s, w);
    }
  }

  // However a complete interleaving goes, the process panics exactly when some work does, and
  // otherwise leaves the map of the works, which is the sequential one when works for the same
  // guid agree.
  lemma Confluent(works: seq<Work>, workers: nat, schedule: seq<nat>)
    requires Ended(Exec(Init(works, workers), schedule))
    ensures var s := Exec(Init(works, workers), schedule);
            && (s.panicked <==> !NonePanics(works))
            && (!s.panicked ==> IsBundleOf(s.bundle, works))
            && (!s.panicked && EqualGuidsAgree(works) ==> s.bundle == Sequential(works))
  {
    InvInit(works, workers);
    InvExec(Init(works, workers), schedule);
    var s := Exec(Init(works, workers), schedule);
    EndedPanics(s);
    if !s.panicked {
      DoneHolds(s);
      SequentialHolds(works);
      if EqualGuidsAgree(works) {
        BundlesAgree(s.bundle, Sequential(works), works);
      }
    }
  }

  // ---------- the condition is exact

  // Work w is the only one under way, if any is.
  ghost predicate Alone(s: State, w: nat) {
    && w < |s.works| == |s.phases|
    && !s.panicked && s.workers >= 1 && !Panics(s.works[w])
    && (forall v :: 0 <= v < |s.phases| && v != w ==> !UnderWay(s.phases[v]))
    && s.lock == (if Critical(s.phases[w]) then Some(w) else None)
    && PhaseFits(s, w)
  }

  // The map once work w has stored.
  function AfterStore(s: State, w: nat): Bundle
    requires w < |s.works| == |s.phases|
  {
    if s.phases[w].Stored? || s.phases[w].Done? || Produced(s.works[w]).None? then s.bundle
    else s.bundle[s.works[w].guid := Produced(s.works[w]).value]
  }

  lemma AloneStep(s: State, w: nat)
    requires Alone(s, w) && !s.phases[w].Done?
    ensures Enabled(s, w)
    ensures var s' := Step(s, w);
            && Alone(s', w) && s'.works == s.works && AfterStore(s', w) == AfterStore(s, w)
            && Rest(s'.phases[w]) < Rest(s.phases[w])
            && s'.phases == s.phases[w := s'.phases[w]]
  {
    if s.phases[w].Waiting? {
      NoneActive(s.phases);
    }
  }

  lemma {:induction false} ExecConcat(s: State, a: seq<nat>, b: seq<nat>)
    ensures Exec(s, a + b) == Exec(Exec(s, a), b)
    decreases |a|
  {
    if a == [] {
      assert a + b == b;
    } else {
      assert (a + b)[1..] == a[1..] + b;
      ExecConcat(if Enabled(s, a[0]) then Step(s, a[0]) else s, a[1..], b);
    }
  }

  lemma ExecOne(s: State, w: nat, rest: seq<nat>)
    requires Enabled(s, w)
    ensures Exec(s, [w] + rest) == Exec(Step(s, w), rest)
  {
    assert ([w] + rest)[1..] == rest;
  }

  // A work that is alone can run to its end.
  lemma {:induction false} RunsAlone(s: State, w: nat) returns (schedule: seq<nat>)
    requires Alone(s, w)
    ensures var s' := Exec(s, schedule);
            && Alone(s', w) && s'.works == s.works && s'.bundle == AfterStore(s, w)
            && s'.phases == s.phases[w := Done]
    decreases Rest(s.phases[w])
  {
    if s.phases[w].Done? {
      schedule := [];
    } else {
      AloneStep(s, w);
      var later := RunsAlone(Step(s, w), w);
      schedule := [w] + later;
      ExecOne(s, w, later);
    }
  }

  // Nothing is under way.
  ghost predicate Idle(s: State) {
    && |s.works| == |s.phases|
    && !s.panicked && s.workers >= 1 && s.lock.None?
    && NonePanics(s.works)
    && forall w :: 0 <= w < |s.phases| ==> !UnderWay(s.phases[w])
  }

  lemma IdleStarts(s: State, w: nat)
    requires Idle(s) && w < |s.works| && s.phases[w].Waiting?
    ensures Alone(s, w)
  {
  }

  lemma AloneEnds(s: State, s': State, w: nat)
    requires Idle(s) && Alone(s', w) && s'.works == s.works && s'.phases == s.phases[w := Done]
    ensures Idle(s')
  {
  }

  // The works of the order have run and no others have.
  ghost predicate RanOnly(s: State, s': State, order: seq<nat>) {
    && s'.works == s.works && |s'.phases| == |s.phases|
    && forall w: nat :: w < |s.phases| ==> s'.phases[w] == if w in order then Done else s.phases[w]
  }

  lemma RanOneMore(s: State, s1: State, s': State, order: seq<nat>, last: nat)
    requires RanOnly(s, s1, order) && s'.works == s1.works
    requires last < |s.phases| && s'.phases == s1.phases[last := Done]
    ensures RanOnly(s, s', order + [last])
  {
  }

  ghost predicate HasProductOf(bundle: Bundle, work: Work) {
    Produced(work).Some? ==> work.guid in bundle && bundle[work.guid] == Produced(work).value
  }

  // The works of the order can run one after the other.
  lemma {:induction false} RunsOneByOne(s: State, order: seq<nat>) returns (schedule: seq<nat>)
    requires Idle(s)
    requires forall i :: 0 <= i < |order| ==> order[i] < |s.works| && s.phases[order[i]].Waiting?
    requires forall i, j :: 0 <= i < j < |order| ==> order[i] != order[j]
    ensures var s' := Exec(s, schedule);
            && Idle(s') && RanOnly(s, s', order)
            && (order != [] ==> HasProductOf(s'.bundle, s.works[order[|order| - 1]]))
    decreases |order|
  {
    if order == [] {
      schedule := [];
    } else {
      var before, last := order[..|order| - 1], order[|order| - 1];
      var first := RunsOneByOne(s, before);
      var s1 := Exec(s, first);
      assert last !in before;
      IdleStarts(s1, last);
      var second := RunsAlone(s1, last);
      AloneEnds(s1, Exec(s1, second), last);
      schedule := first + second;
      ExecConcat(s, first, second);
      RanOneMore(s, s1, Exec(s1, second), before, last);
      assert order == before + [last];
    }
  }

  // All the works, x last.
  function WithLast(n: nat, x: nat): (order: seq<nat>)
    requires x < n
    ensures |order| == n && order[n - 1] == x
    ensures forall i, j :: 0 <= i < j < n ==> order[i] != order[j]
    ensures forall i :: 0 <= i < n ==> order[i] < n
  {
    seq(n, i requires 0 <= i < n => if i == n - 1 then x else if i < x then i else i + 1)
  }

  lemma WithLastHas(n: nat, x: nat, w: nat)
    requires x < n && w < n
    ensures w in WithLast(n, x)
  {
    assert WithLast(n, x)[if w == x then n - 1 else if w < x then w else w - 1] == w;
  }

  // Whichever work is to store last, some complete interleaving lets it.
  lemma CanStoreLast(works: seq<Work>, workers: int, x: nat) returns (schedule: seq<nat>)
    requires workers >= 1 && x < |works| && Produced(works[x]).Some? && NonePanics(works)
    ensures var s := Exec(Init(works, workers), schedule);
            AllDone(s) && !s.panicked && HasProductOf(s.bundle, works[x])
  {
    var order := WithLast(|works|, x);
    schedule := RunsOneByOne(Init(works, workers), order);
    forall w: nat | w < |works|
      ensures w in order
    {
      WithLastHas(|works|, x, w);
    }
  }

  ghost predicate AlwaysSequential(works: seq<Work>, workers: nat) {
    forall schedule ::
      var s := Exec(Init(works, workers), schedule);
      Ended(s) && !s.panicked ==> s.bundle == Sequential(works)
  }

  // Unless a work panics, every complete interleaving gives the sequential map exactly when equal
  // guids agree.
  lemma ConfluentIff(works: seq<Work>, workers: nat)
    requires workers >= 1
    ensures AlwaysSequential(works, workers) <==> EqualGuidsAgree(works) || !NonePanics(works)
  {
    if EqualGuidsAgree(works) || !NonePanics(works) {
      forall schedule | Ended(Exec(Init(works, workers), schedule)) && !Exec(Init(works, workers), schedule).panicked
        ensures Exec(Init(works, workers), schedule).bundle == Sequential(works)
      {
        Confluent(works, workers, schedule);
      }
    } else {
      var v, w :| 0 <= v < w < |works| && Disagree(works[v], works[w]);
      SequentialHolds(works);
      var x := if Produced(works[v]).value != Sequential(works)[works[v].guid] then v else w;
      var schedule := CanStoreLast(works, workers, x);
      assert Exec(Init(works, workers), schedule).bundle != Sequential(works);
    }
  }

  // Such works: one guid listed twice, for which two lookups find different instances.
  lemma RepeatedGuidRaces(guid: string, a: Instances, b: Instances, workers: nat)
    requires workers >= 1 && a != b
    ensures !AlwaysSequential([Work(guid, Reported(Returned(Some(a)))), Work(guid, Reported(Returned(Some(b))))], workers)
  {
    var works := [Work(guid, Reported(Returned(Some(a)))), Work(guid, Reported(Returned(Some(b))))];
    assert Disagree(works[0], works[1]);
    ConfluentIff(works, workers);
  }
}
