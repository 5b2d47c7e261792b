/** CPU usage estimation from the cumulative tick counters of /proc/stat.

    Every line of /proc/stat that starts with "cpu" gives eight cumulative
    counters for one entry: the aggregate of all cores first, then one per
    core. Usage over an interval is the share of busy ticks (user, nice,
    system) in all ticks elapsed between two snapshots.
 */
module Cpu {

  /** The eight counters of one /proc/stat cpu line, in kernel ticks. */
  datatype CPUData = CPUData(user: int, nice: int, sys: int, idle: int,
                             iowait: int, irq: int, softirq: int, steal: int)

  /** Busy ticks elapsed between two snapshots of one entry. */
  function BusyDelta(prev: CPUData, cur: CPUData): (busy: int) {
    (cur.user - prev.user) + (cur.nice - prev.nice) + (cur.sys - prev.sys)
  }

  /** All ticks elapsed between two snapshots of one entry: the sum of the
      deltas of all eight counters. */
  function TotalDelta(prev: CPUData, cur: CPUData): (total: int) {
    BusyDelta(prev, cur) + (cur.idle - prev.idle) + (cur.iowait - prev.iowait)
      + (cur.irq - prev.irq) + (cur.softirq - prev.softirq) + (cur.steal - prev.steal)
  }

  /** No counter of the entry went backwards. */
  predicate NonDecreasing(prev: CPUData, cur: CPUData) {
    prev.user <= cur.user && prev.nice <= cur.nice && prev.sys <= cur.sys
    && prev.idle <= cur.idle && prev.iowait <= cur.iowait && prev.irq <= cur.irq
    && prev.softirq <= cur.softirq && prev.steal <= cur.steal
  }

  /** Busy percentage of one entry over the interval; 0 when no tick elapsed
      (or the counters moved backwards in total). Not clamped. */
  function EntryUsage(prev: CPUData, cur: CPUData): (u: real)
    ensures TotalDelta(prev, cur) <= 0 ==> u == 0.0
    ensures TotalDelta(prev, cur) > 0 ==>
      u * TotalDelta(prev, cur) as real == 100.0 * BusyDelta(prev, cur) as real
  {
    var total := TotalDelta(prev, cur);
    if total > 0 then BusyDelta(prev, cur) as real * 100.0 / total as real else 0.0
  }

  /** What one call of the sampler returns, given the baseline it holds and the
      snapshot just read: all zeros on a cold start, otherwise one usage per
      entry of the current snapshot, paired with the baseline entry of the
      same index. */
  function Usages(last: seq<CPUData>, current: seq<CPUData>): (u: seq<real>)
    requires |last| == 0 || |current| <= |last|
    ensures |u| == |current|
    ensures |last| == 0 ==> forall i :: 0 <= i < |u| ==> u[i] == 0.0
    ensures |last| != 0 ==>
      forall i :: 0 <= i < |u| && TotalDelta(last[i], current[i]) <= 0 ==> u[i] == 0.0
  {
    if |last| == 0 then seq(|current|, _ => 0.0)
    else seq(|current|, i requires 0 <= i < |current| => EntryUsage(last[i], current[i]))
  }

  /** With counters that only grow and at least one elapsed tick, the usage
      lies in [0, 100]. */
  lemma UsageWithinPercent(prev: CPUData, cur: CPUData)
    requires NonDecreasing(prev, cur) && TotalDelta(prev, cur) > 0
    ensures 0.0 <= EntryUsage(prev, cur) <= 100.0
  {
    PercentOf(BusyDelta(prev, cur) as real, TotalDelta(prev, cur) as real);
  }

  /** A part of a positive whole is between 0 and 100 percent of it. */
  lemma PercentOf(part: real, whole: real)
    requires 0.0 <= part <= whole && 0.0 < whole
    ensures 0.0 <= part * 100.0 / whole <= 100.0
  {
  }

  /** The same, for every entry of a sample taken against a baseline. */
  lemma UsagesWithinPercent(last: seq<CPUData>, current: seq<CPUData>)
    requires 0 < |last| && |current| <= |last|
    requires forall i :: 0 <= i < |current| ==>
      NonDecreasing(last[i], current[i]) && TotalDelta(last[i], current[i]) > 0
    ensures forall i :: 0 <= i < |current| ==> 0.0 <= Usages(last, current)[i] <= 100.0
  {
    forall i | 0 <= i < |current|
      ensures 0.0 <= Usages(last, current)[i] <= 100.0
    {
      UsageWithinPercent(last[i], current[i]);
    }
  }

  /** user 100 -> 150 and idle 900 -> 950, everything else 0: 50% busy. */
  lemma HalfBusyExample()
    ensures EntryUsage(CPUData(100, 0, 0, 900, 0, 0, 0, 0), CPUData(150, 0, 0, 950, 0, 0, 0, 0)) == 50.0
  {
  }

  /** The result is not clamped: when idle goes backwards the busy share can
      exceed 100%. */
  lemma UsageNotClamped()
    ensures EntryUsage(CPUData(0, 0, 0, 100, 0, 0, 0, 0), CPUData(100, 0, 0, 50, 0, 0, 0, 0)) == 200.0
  {
    var prev, cur := CPUData(0, 0, 0, 100, 0, 0, 0, 0), CPUData(100, 0, 0, 50, 0, 0, 0, 0);
    assert BusyDelta(prev, cur) == 100 && TotalDelta(prev, cur) == 50;
    assert 100.0 * 100.0 / 50.0 == 200.0;
  }

  /** getCPUUsage: the baseline snapshot that minihtop keeps in a
      function-static vector, as a field of an object the driver owns. */
  class CpuSampler {
    var last: seq<CPUData>

    constructor ()
      ensures last == []
    {
      last := [];
    }

    /** One call of getCPUUsage with `current` as the snapshot just read.
        getCPUUsage indexes the baseline at every index of `current`, so a
        longer snapshot than the baseline is outside its domain. */
    method Sample(current: seq<CPUData>) returns (usage: seq<real>)
      requires |last| == 0 || |current| <= |last|
      modifies this
      ensures usage == Usages(old(last), current)
      ensures last == current
    {
      usage := [];
      if |last| != 0 {
        var i := 0;
        while i < |current|
          invariant 0 <= i <= |current|
          invariant |usage| == i
          invariant forall k :: 0 <= k < i ==> usage[k] == EntryUsage(last[k], current[k])
        {
          var user := current[i].user - last[i].user;
          var nice := current[i].nice - last[i].nice;
          var sys := current[i].sys - last[i].sys;
          var idle := current[i].idle - last[i].idle;
          var total := user + nice + sys + idle
            + (current[i].iowait - last[i].iowait)
            + (current[i].irq - last[i].irq)
            + (current[i].softirq - last[i].softirq)
            + (current[i].steal - last[i].steal);
          var percent := if total > 0 then (user + nice + sys) as real * 100.0 / total as real else 0.0;
          usage := usage + [percent];
          i := i + 1;
        }
      } else {
        usage := seq(|current|, _ => 0.0);
      }
      last := current;
    }
  }

  /** The first two ticks of the refresh loop: the first sample is a cold
      start, the second measures the interval between the two snapshots. */
  method FirstTwoTicks(t0: seq<CPUData>, t1: seq<CPUData>) returns (u0: seq<real>, u1: seq<real>)
    requires |t0| == 0 || |t1| <= |t0|
    ensures |u0| == |t0| && forall i :: 0 <= i < |u0| ==> u0[i] == 0.0
    ensures |u1| == |t1|
    ensures |t0| != 0 ==> forall i :: 0 <= i < |u1| ==> u1[i] == EntryUsage(t0[i], t1[i])
  {
    var sampler := new CpuSampler();
    u0 := sampler.Sample(t0);
    u1 := sampler.Sample(t1);
  }
}
