/** getTopProcesses: one record per process read from /proc, ranked by CPU
    share and cut to the first N. */
module Processes {
  import opened KeyValue

  /** One row of the process list. */
  datatype ProcInfo = ProcInfo(pid: int, name: string, cpu: real, mem: int)

  /** The fields of /proc/<pid>/stat that getTopProcesses reads, already split into words and numbers. */
  datatype ProcStat = ProcStat(pid: int, comm: string, state: char,
                               utime: int, stime: int, cutime: int, cstime: int,
                               starttime: int)

  /** One /proc/<pid> directory whose stat file could be opened: its stat
      fields and the (label, number) entries of its status file, empty when
      that file could not be read. */
  datatype RawProc = RawProc(stat: ProcStat, status: seq<Entry>)

  // ----------------------------------------------------- per-process CPU

  /** Seconds since the process started: system uptime minus the start time,
      which the kernel gives in clock ticks since boot. */
  function ProcessAge(starttime: int, uptime: real, clkTck: int): (age: real)
    requires clkTck > 0
    ensures (uptime - age) * clkTck as real == starttime as real
  {
    uptime - starttime as real / clkTck as real
  }

  /** CPU share of a process averaged over its whole life: user plus system
      ticks, in seconds, over its age, in percent; 0 for a process whose age
      is not positive. Children's ticks (cutime, cstime) are not counted. */
  function ProcessCpu(stat: ProcStat, uptime: real, clkTck: int): (share: real)
    requires clkTck > 0
    ensures ProcessAge(stat.starttime, uptime, clkTck) <= 0.0 ==> share == 0.0
    ensures ProcessAge(stat.starttime, uptime, clkTck) > 0.0 ==>
      share * ProcessAge(stat.starttime, uptime, clkTck) == 100.0 * (stat.utime + stat.stime) as real / clkTck as real
  {
    var totalTime := (stat.utime + stat.stime) as real;
    var seconds := ProcessAge(stat.starttime, uptime, clkTck);
    if seconds > 0.0 then 100.0 * ((totalTime / clkTck as real) / seconds) else 0.0
  }

  /** A process that started now (or after the reading of uptime) shows 0. */
  lemma ProcessCpuNotStarted(stat: ProcStat, uptime: real, clkTck: int)
    requires clkTck > 0
    requires ProcessAge(stat.starttime, uptime, clkTck) <= 0.0
    ensures ProcessCpu(stat, uptime, clkTck) == 0.0
  {
  }

  /** Otherwise the share times the age is the CPU time consumed, in percent
      of one second: a lifetime average, not the share in the last interval.
      It is never negative; it exceeds 100 for a process that kept more than
      one core busy. */
  lemma ProcessCpuLifetimeAverage(stat: ProcStat, uptime: real, clkTck: int)
    requires clkTck > 0
    requires ProcessAge(stat.starttime, uptime, clkTck) > 0.0
    requires stat.utime >= 0 && stat.stime >= 0
    ensures ProcessCpu(stat, uptime, clkTck) * ProcessAge(stat.starttime, uptime, clkTck)
      == 100.0 * (stat.utime + stat.stime) as real / clkTck as real
    ensures ProcessCpu(stat, uptime, clkTck) >= 0.0
  {
  }

  /** The state and the children's times have no effect on the share. */
  lemma ProcessCpuIgnoresChildren(stat: ProcStat, state: char, cutime: int, cstime: int, uptime: real, clkTck: int)
    requires clkTck > 0
    ensures ProcessCpu(stat.(state := state, cutime := cutime, cstime := cstime), uptime, clkTck)
      == ProcessCpu(stat, uptime, clkTck)
  {
  }

  /** 150 user and 50 system ticks at 100 ticks per second, for a process
      started at tick 600 with the system up 10 s: 2 s of CPU in 4 s, 50%. */
  lemma ProcessCpuExample()
    ensures ProcessCpu(ProcStat(1, "(init)", 'S', 150, 50, 0, 0, 600), 10.0, 100) == 50.0
  {
  }

  // -------------------------------------------------------- command name

  /** The kernel puts the command name in parentheses: a name longer than two
      characters that starts with '(' loses its first and last characters
      (whatever the last one is); any other name is kept. */
  function StripComm(comm: string): (name: string)
    ensures |comm| > 2 && comm[0] == '(' ==> comm == [comm[0]] + name + [comm[|comm| - 1]]
    ensures !(|comm| > 2 && comm[0] == '(') ==> name == comm
  {
    if |comm| > 2 && comm[0] == '(' then comm[1..|comm| - 1] else comm
  }

  /** Wrapping a non-empty name in parentheses and stripping gives it back. */
  lemma StripCommWrapped(name: string)
    requires name != []
    ensures StripComm("(" + name + ")") == name
  {
  }

  /** "(bash)" becomes "bash"; "x" and "()" are kept as they are. */
  lemma StripCommExamples()
    ensures StripComm("(bash)") == "bash"
    ensures StripComm("x") == "x"
    ensures StripComm("()") == "()"
  {
    assert "(bash)"[1..5] == "bash";
  }

  /** The closing parenthesis is not checked: "(ab" becomes "a". */
  lemma StripCommUnclosed()
    ensures StripComm("(ab") == "a"
  {
  }

  // -------------------------------------------------------------- VmRSS

  /** The scan of /proc/<pid>/status for resident memory: the first "VmRSS:"
      entry gives it, and 0 remains when there is none. */
  method ReadVmRss(status: seq<Entry>) returns (memKb: int)
    ensures memKb == FirstValue(status, "VmRSS:")
  {
    memKb := 0;
    var i := 0;
    while i < |status|
      invariant 0 <= i <= |status|
      invariant memKb == 0
      invariant forall k :: 0 <= k < i ==> status[k].key != "VmRSS:"
    {
      FirstValueExtend(status, i, "VmRSS:");
      if status[i].key == "VmRSS:" {
        memKb := status[i].value;
        break;
      }
      i := i + 1;
    }
  }

  // ----------------------------------------------------------- records

  /** The record built for one process. */
  function Record(raw: RawProc, uptime: real, clkTck: int): (r: ProcInfo)
    requires clkTck > 0
    ensures r.pid == raw.stat.pid
    ensures r.name == StripComm(raw.stat.comm)
    ensures ProcessAge(raw.stat.starttime, uptime, clkTck) <= 0.0 ==> r.cpu == 0.0
    ensures ProcessAge(raw.stat.starttime, uptime, clkTck) > 0.0 ==>
      r.cpu * ProcessAge(raw.stat.starttime, uptime, clkTck) == 100.0 * (raw.stat.utime + raw.stat.stime) as real / clkTck as real
    ensures r.mem == FirstValue(raw.status, "VmRSS:")
  {
    ProcInfo(raw.stat.pid, StripComm(raw.stat.comm), ProcessCpu(raw.stat, uptime, clkTck),
             FirstValue(raw.status, "VmRSS:"))
  }

  /** One record per process read, in directory order; a process whose age is
      not positive is kept, with a share of 0. */
  function Records(raws: seq<RawProc>, uptime: real, clkTck: int): (rs: seq<ProcInfo>)
    requires clkTck > 0
    ensures |rs| == |raws|
    ensures forall i :: 0 <= i < |raws| ==> rs[i].pid == raws[i].stat.pid
    ensures forall i :: 0 <= i < |raws| ==> rs[i] == Record(raws[i], uptime, clkTck)
  {
    seq(|raws|, i requires 0 <= i < |raws| => Record(raws[i], uptime, clkTck))
  }

  // ------------------------------------------------------------ ranking

  /** Non-increasing by cpu. */
  predicate SortedByCpu(s: seq<ProcInfo>) {
    forall i, j :: 0 <= i < j < |s| ==> s[i].cpu >= s[j].cpu
  }

  /** Exchanges a[j - 1] and a[j]. */
  method SwapDown(a: array<ProcInfo>, j: nat)
    requires 0 < j < a.Length
    modifies a
    ensures a[..] == old(a[..])[j - 1 := old(a[j])][j := old(a[j - 1])]
    ensures multiset(a[..]) == old(multiset(a[..]))
  {
    a[j - 1], a[j] := a[j], a[j - 1];
  }

  /** Moves a[i] left past every smaller-cpu element of the sorted prefix
      a[..i], so that a[..i + 1] is sorted. */
  method InsertByCpu(a: array<ProcInfo>, i: nat)
    requires i < a.Length
    requires forall p, q :: 0 <= p < q < i ==> a[p].cpu >= a[q].cpu
    modifies a
    ensures forall p, q :: 0 <= p < q <= i ==> a[p].cpu >= a[q].cpu
    ensures multiset(a[..]) == old(multiset(a[..]))
  {
    var j := i;
    while j > 0 && a[j - 1].cpu < a[j].cpu
      invariant 0 <= j <= i
      invariant forall p, q :: 0 <= p < q <= i && p != j && q != j ==> a[p].cpu >= a[q].cpu
      invariant forall q :: j < q <= i ==> a[j].cpu > a[q].cpu
      invariant multiset(a[..]) == old(multiset(a[..]))
    {
      SwapDown(a, j);
      j := j - 1;
    }
  }

  /** The in-place sort of the process vector, by cpu descending. Nothing is
      promised about the order of records with equal cpu. */
  method SortByCpu(a: array<ProcInfo>)
    modifies a
    ensures SortedByCpu(a[..])
    ensures multiset(a[..]) == old(multiset(a[..]))
  {
    var i := 0;
    while i < a.Length
      invariant 0 <= i <= a.Length
      invariant forall p, q :: 0 <= p < q < i ==> a[p].cpu >= a[q].cpu
      invariant multiset(a[..]) == old(multiset(a[..]))
    {
      InsertByCpu(a, i);
      i := i + 1;
    }
  }

  /** Sort by cpu, then keep the first topN: the result has min(topN, |procs|)
      records, sorted, drawn from procs, and every record left out has no
      more cpu than any record kept. */
  method RankByCpu(procs: seq<ProcInfo>, topN: nat) returns (top: seq<ProcInfo>)
    ensures |top| == if |procs| < topN then |procs| else topN
    ensures SortedByCpu(top)
    ensures multiset(top) <= multiset(procs)
    ensures |procs| <= topN ==> multiset(top) == multiset(procs)
    ensures forall r, k :: r in multiset(procs) - multiset(top) && 0 <= k < |top| ==> r.cpu <= top[k].cpu
  {
    var a := new ProcInfo[|procs|](k requires 0 <= k < |procs| => procs[k]);
    assert a[..] == procs;
    SortByCpu(a);
    var m := if |procs| > topN then topN else |procs|;
    top := a[..m];
    PrefixOfSorted(a[..], m);
  }

  /** The first m records of a sorted sequence are sorted, form a part of it,
      and no record after them has more cpu than any of them. */
  lemma PrefixOfSorted(s: seq<ProcInfo>, m: nat)
    requires SortedByCpu(s) && m <= |s|
    ensures SortedByCpu(s[..m])
    ensures multiset(s) == multiset(s[..m]) + multiset(s[m..])
    ensures forall r, k :: r in multiset(s) - multiset(s[..m]) && 0 <= k < m ==> r.cpu <= s[k].cpu
  {
    assert s == s[..m] + s[m..];
    assert multiset(s) - multiset(s[..m]) == multiset(s[m..]);
    SuffixBelowPrefix(s, m);
  }

  /** Every record of the suffix s[m..] has no more cpu than any of s[..m]. */
  lemma SuffixBelowPrefix(s: seq<ProcInfo>, m: nat)
    requires SortedByCpu(s) && m <= |s|
    ensures forall r, k :: r in multiset(s[m..]) && 0 <= k < m ==> r.cpu <= s[k].cpu
  {
    forall r, k | r in multiset(s[m..]) && 0 <= k < m
      ensures r.cpu <= s[k].cpu
    {
      assert r in s[m..];
      var j :| 0 <= j < |s| - m && s[m..][j] == r;
      assert s[m + j] == r;
    }
  }

  /** Five processes whose cpu shares are 10, 50, 5, 90 and 30, with pids 1 to 5. */
  function ExampleProcs(): (procs: seq<ProcInfo>) {
    [ProcInfo(1, "a", 10.0, 0), ProcInfo(2, "b", 50.0, 0), ProcInfo(3, "c", 5.0, 0),
     ProcInfo(4, "d", 90.0, 0), ProcInfo(5, "e", 30.0, 0)]
  }

  /** Any three records that meet the contract of RankByCpu for ExampleProcs
      are the processes with shares 90, 50 and 30, in that order. */
  lemma TopThreeOfExample(top: seq<ProcInfo>)
    requires |top| == 3 && SortedByCpu(top)
    requires multiset(top) <= multiset(ExampleProcs())
    requires forall r, k :: r in multiset(ExampleProcs()) - multiset(top) && 0 <= k < |top| ==> r.cpu <= top[k].cpu
    ensures top == [ExampleProcs()[3], ExampleProcs()[1], ExampleProcs()[4]]
  {
    KeptAreDistinctExamples(top);
    DroppedBelowThird(top);
    PickThree(top);
  }

  /** The three kept records are three different records of ExampleProcs. */
  lemma KeptAreDistinctExamples(top: seq<ProcInfo>)
    requires |top| == 3 && multiset(top) <= multiset(ExampleProcs())
    ensures top[0] in ExampleProcs() && top[1] in ExampleProcs() && top[2] in ExampleProcs()
    ensures top[0] != top[1] && top[1] != top[2] && top[0] != top[2]
  {
    var ps := ExampleProcs();
    assert top == [top[0], top[1], top[2]];
    var t := multiset{top[0], top[1], top[2]};
    assert multiset(top) == t;
    forall k | 0 <= k < 3
      ensures top[k] in ps && t[top[k]] <= 1
    {
      assert top[k] in multiset(top);
      ExampleOccursOnce(top[k]);
    }
  }

  /** The five example records are pairwise different. */
  lemma ExampleOccursOnce(x: ProcInfo)
    ensures multiset(ExampleProcs())[x] <= 1
  {
    var ps := ExampleProcs();
    assert multiset(ps) == multiset{ps[0], ps[1], ps[2], ps[3], ps[4]};
  }

  /** Record r is among the three kept, or has no more cpu than the third. */
  predicate KeptOrBelow(r: ProcInfo, top: seq<ProcInfo>)
    requires |top| == 3
  {
    r in top || r.cpu <= top[2].cpu
  }

  /** A record of ExampleProcs that is not kept has no more cpu than the
      third kept one. */
  lemma DroppedBelowThird(top: seq<ProcInfo>)
    requires |top| == 3
    requires forall r, k :: r in multiset(ExampleProcs()) - multiset(top) && 0 <= k < |top| ==> r.cpu <= top[k].cpu
    ensures KeptOrBelow(ExampleProcs()[0], top) && KeptOrBelow(ExampleProcs()[1], top)
    ensures KeptOrBelow(ExampleProcs()[2], top) && KeptOrBelow(ExampleProcs()[3], top)
    ensures KeptOrBelow(ExampleProcs()[4], top)
  {
    var ps := ExampleProcs();
    forall j | 0 <= j < 5 && ps[j] !in top
      ensures ps[j].cpu <= top[2].cpu
    {
      assert ps[j] in multiset(ps) - multiset(top);
    }
  }

  /** Three different records of ExampleProcs in non-increasing cpu order,
      above every record left out, are those with shares 90, 50 and 30. */
  lemma PickThree(top: seq<ProcInfo>)
    requires |top| == 3
    requires top[0] in ExampleProcs() && top[1] in ExampleProcs() && top[2] in ExampleProcs()
    requires top[0] != top[1] && top[1] != top[2] && top[0] != top[2]
    requires top[0].cpu >= top[1].cpu >= top[2].cpu
    requires KeptOrBelow(ExampleProcs()[0], top) && KeptOrBelow(ExampleProcs()[1], top)
    requires KeptOrBelow(ExampleProcs()[2], top) && KeptOrBelow(ExampleProcs()[3], top)
    requires KeptOrBelow(ExampleProcs()[4], top)
    ensures top == [ExampleProcs()[3], ExampleProcs()[1], ExampleProcs()[4]]
  {
    assert top == [top[0], top[1], top[2]];
  }

  /** The top three of ExampleProcs: shares 90, 50, 30. */
  method RankExample() returns (top: seq<ProcInfo>)
    ensures |top| == 3
    ensures [top[0].cpu, top[1].cpu, top[2].cpu] == [90.0, 50.0, 30.0]
    ensures [top[0].pid, top[1].pid, top[2].pid] == [4, 2, 5]
  {
    top := RankByCpu(ExampleProcs(), 3);
    TopThreeOfExample(top);
  }

  /** getTopProcesses over the processes that could be read: builds one
      record per process in order, then ranks them. */
  method TopProcesses(raws: seq<RawProc>, uptime: real, clkTck: int, topN: nat) returns (top: seq<ProcInfo>)
    requires clkTck > 0
    ensures |top| == if |raws| < topN then |raws| else topN
    ensures SortedByCpu(top)
    ensures multiset(top) <= multiset(Records(raws, uptime, clkTck))
    ensures |raws| <= topN ==> multiset(top) == multiset(Records(raws, uptime, clkTck))
    ensures forall r, k ::
              r in multiset(Records(raws, uptime, clkTck)) - multiset(top) && 0 <= k < |top| ==> r.cpu <= top[k].cpu
  {
    var procs: seq<ProcInfo> := [];
    var i := 0;
    while i < |raws|
      invariant 0 <= i <= |raws|
      invariant |procs| == i
      invariant forall k :: 0 <= k < i ==> procs[k] == Record(raws[k], uptime, clkTck)
    {
      var stat := raws[i].stat;
      var cpuUsage := ProcessCpu(stat, uptime, clkTck);
      var memKb := ReadVmRss(raws[i].status);
      var name := StripComm(stat.comm);
      procs := procs + [ProcInfo(stat.pid, name, cpuUsage, memKb)];
      i := i + 1;
    }
    assert procs == Records(raws, uptime, clkTck);
    top := RankByCpu(procs, topN);
  }
}
