/**
 The pass of the stats endpoint over the instances (handler/lrpstats/lrpstats.go): crashed
 instances show no uptime and no consumption.
*/
module LrpStats {
  import opened GoTypes
  import opened PodUtil
  import opened LrpStatus

  function ZeroIfCrashed(instance: LRPInstance): LRPInstance {
    if instance.state.Crashed? then
      instance.(uptime := 0, stats := if instance.stats.Some? then Some(InstanceStats(0.0, 0, 0)) else None)
    else instance
  }

  // Crashed instances lose their uptime and their consumption, nothing else changes.
  method ZeroCrashed(instances: array<LRPInstance>)
    modifies instances
    ensures forall i :: 0 <= i < instances.Length ==>
              var was, now := old(instances[i]), instances[i];
              if was.state != Crashed then now == was
              else
                && now.processGuid == was.processGuid && now.instanceGuid == was.instanceGuid
                && now.index == was.index && now.since == was.since && now.state == Crashed
                && now.uptime == 0
                && now.stats == if was.stats.None? then None else Some(InstanceStats(0.0, 0, 0))
  {
    for i := 0 to instances.Length
      invariant forall k :: 0 <= k < i ==> instances[k] == ZeroIfCrashed(old(instances[k]))
      invariant forall k :: i <= k < instances.Length ==> instances[k] == old(instances[k])
    {
      if instances[i].state.Crashed? {
        instances[i] := instances[i].(uptime := 0);
        if instances[i].stats.Some? {
          instances[i] := instances[i].(stats := Some(InstanceStats(0.0, 0, 0)));
        }
      }
    }
  }

  // No pod list makes a report with a crashed instance or with stats.
  lemma {:induction false} ScanHasNoCrash(pods: seq<Pod>, length: nat, clock: nat -> Int64, guidOf: string -> string)
    ensures var r := Scan(pods, length, clock, guidOf);
            r.Filled? ==> forall e :: e in r.entries ==> !e.state.Crashed? && e.stats.None?
  {
    if pods == [] {
    } else {
      ScanHasNoCrash(pods[..|pods| - 1], length, clock, guidOf);
      NeverCrashed(pods[|pods| - 1].containers);
    }
  }

  // The instances of the stats endpoint: the report after the pass, which is the report that the
  // status endpoint gives for the same pods and clock readings.
  method StatsInstances(pods: seq<Pod>, clock: nat -> Int64, guidOf: string -> string) returns (outcome: Outcome)
    ensures outcome == Report(pods, clock, guidOf)
  {
    outcome := LRPInstances(pods, clock, guidOf);
    if outcome.Returned? && outcome.instances.Some? {
      var found := outcome.instances.value;
      var instances := new LRPInstance[|found|](i requires 0 <= i < |found| => found[i]);
      assert instances[..] == found;
      ZeroCrashed(instances);
      ScanHasNoCrash(SortedPods(pods), |pods|, clock, guidOf);
      assert forall i :: 0 <= i < |found| ==> found[i] in found;
      assert instances[..] == found;
      outcome := Returned(Some(instances[..]));
    }
  }
}
