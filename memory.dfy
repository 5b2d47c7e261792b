/** getMemoryUsage: the used share of physical memory from /proc/meminfo. */
module Memory {
  import opened KeyValue

  /** Used memory in percent of MemTotal, where used is MemTotal minus
      MemFree, Buffers and Cached; 0 when MemTotal is not positive. */
  function MemPercent(total: int, free: int, buffers: int, cached: int): (r: real)
    ensures total <= 0 ==> r == 0.0
    ensures total > 0 ==> r * total as real == 100.0 * (total - (free + buffers + cached)) as real
  {
    if total > 0 then (total - (free + buffers + cached)) as real / total as real * 100.0 else 0.0
  }

  /** The scan of /proc/meminfo: every label word is compared with the four
      labels wanted, a match overwrites its local, anything else is skipped.
      A file that could not be opened reads as no entries. */
  method MemoryUsage(meminfo: seq<Entry>) returns (percent: real)
    ensures percent == MemPercent(LastValue(meminfo, "MemTotal:"), LastValue(meminfo, "MemFree:"),
                                  LastValue(meminfo, "Buffers:"), LastValue(meminfo, "Cached:"))
  {
    var totalMem, freeMem, buffers, cached := 0, 0, 0, 0;
    var i := 0;
    while i < |meminfo|
      invariant 0 <= i <= |meminfo|
      invariant totalMem == LastValue(meminfo[..i], "MemTotal:")
      invariant freeMem == LastValue(meminfo[..i], "MemFree:")
      invariant buffers == LastValue(meminfo[..i], "Buffers:")
      invariant cached == LastValue(meminfo[..i], "Cached:")
    {
      var e := meminfo[i];
      assert meminfo[..i + 1] == meminfo[..i] + [e];
      LastValueAppend(meminfo[..i], e, "MemTotal:");
      LastValueAppend(meminfo[..i], e, "MemFree:");
      LastValueAppend(meminfo[..i], e, "Buffers:");
      LastValueAppend(meminfo[..i], e, "Cached:");
      if e.key == "MemTotal:" {
        totalMem := e.value;
      } else if e.key == "MemFree:" {
        freeMem := e.value;
      } else if e.key == "Buffers:" {
        buffers := e.value;
      } else if e.key == "Cached:" {
        cached := e.value;
      }
      i := i + 1;
    }
    assert meminfo[..i] == meminfo;
    var usedMem := totalMem - (freeMem + buffers + cached);
    percent := if totalMem > 0 then usedMem as real / totalMem as real * 100.0 else 0.0;
  }

  /** A missing or non-positive MemTotal gives 0, never a division by zero. */
  lemma MemPercentZeroTotal(total: int, free: int, buffers: int, cached: int)
    requires total <= 0
    ensures MemPercent(total, free, buffers, cached) == 0.0
  {
  }

  /** With free, buffers and cached non-negative and together at most total,
      the gauge lies in [0, 100]. */
  lemma MemPercentWithinPercent(total: int, free: int, buffers: int, cached: int)
    requires total > 0 && 0 <= free && 0 <= buffers && 0 <= cached
    requires free + buffers + cached <= total
    ensures 0.0 <= MemPercent(total, free, buffers, cached) <= 100.0
  {
    var used := total - (free + buffers + cached);
    assert 0 <= used <= total;
    assert 0.0 <= used as real / total as real <= 1.0;
  }

  /** The gauge is not clamped: more free than total memory reads negative. */
  lemma MemPercentNotClamped()
    ensures MemPercent(100, 150, 0, 0) == -50.0
  {
  }

  /** total = 100, free = 40, no buffers or cache: 60% used. */
  lemma MemPercentExample()
    ensures MemPercent(100, 40, 0, 0) == 60.0
  {
  }

  /** The scan keeps the last value seen for each label: a meminfo listing
      MemTotal: 100, then SwapCached: 7, then MemFree: 40 reads 60% used. */
  lemma MemoryScanExample()
    ensures MemPercent(LastValue(SampleMeminfo(), "MemTotal:"), LastValue(SampleMeminfo(), "MemFree:"),
                       LastValue(SampleMeminfo(), "Buffers:"), LastValue(SampleMeminfo(), "Cached:"))
      == 60.0
  {
    var a, b, c := Entry("MemTotal:", 100), Entry("SwapCached:", 7), Entry("MemFree:", 40);
    assert SampleMeminfo() == [a, b] + [c];
    assert [a, b] == [a] + [b];
    LastValueAppend([a, b], c, "MemTotal:");
    LastValueAppend([a], b, "MemTotal:");
    assert LastValue(SampleMeminfo(), "MemTotal:") == 100;
    assert LastValue(SampleMeminfo(), "MemFree:") == 40;
    assert LastValue(SampleMeminfo(), "Buffers:") == 0;
    assert LastValue(SampleMeminfo(), "Cached:") == 0;
    MemPercentExample();
  }

  function SampleMeminfo(): (entries: seq<Entry>) {
    [Entry("MemTotal:", 100), Entry("SwapCached:", 7), Entry("MemFree:", 40)]
  }
}
