# mini-htop: the sampling-and-derivation core in Dafny

mini-htop is a terminal resource monitor. Once a second it reads cumulative
kernel counters and turns them into gauges:

- CPU busy percentage, for all cores together and for each core;
- memory and disk use;
- a list of the five processes with the highest CPU share.

This project models the part of `minihtop.cpp` that computes those values,
over values that have already been read:

- `Cpu`: the `CPUData` record and the estimator `getCPUUsage`. The estimator
  keeps the previous snapshot in function-static state. Here that state is the
  field `last` of a `CpuSampler` object, and `Sample(current)` is one call. On
  a cold start (empty baseline) it returns one 0 per entry. Otherwise it
  returns the busy share of each entry's tick deltas, 0 where the total delta
  is not positive. Either way the new snapshot becomes the baseline.
- `CpuStat`: `readCPUStats`. It keeps the lines of `/proc/stat` that start
  with `cpu` and stops at the first line that does not. Its `sscanf` format is
  modelled word by word, as written. This model found a bug in that format
  (see Findings). A corrected reading is modelled beside it.
- `KeyValue`, `Memory`, `Disk`: the `/proc/meminfo` scan and the memory and
  disk gauges. Each gauge is a used/total ratio, with a guard for a zero
  total.
- `Processes`: what `getTopProcesses` computes per process:
  - the CPU share averaged over the process's lifetime;
  - the resident memory, from the first `VmRSS:` entry;
  - the command name without its parentheses.

  The records are then sorted in place by CPU, descending, and cut to the
  first N.
- `Bar`: the cells that `drawBar` writes: `filled` `#` cells in the colour of
  the band, then `-` cells up to the width.

Three points of the code's behaviour matter for the contracts:

- The code does not clamp the CPU usage to [0, 100] (`Cpu.UsageNotClamped`).
- It does not reset when the number of entries changes. A longer snapshot
  than the baseline is read out of bounds, so the model requires that it not
  happen.
- `std::sort` is not stable, so nothing is promised about the order of
  records with equal CPU share.

## Model

| member | source | states |
|---|---|---|
| `Cpu.EntryUsage` | minihtop.cpp:49-58 | busy share of one entry: 0 when the eight deltas sum to at most 0, otherwise the value whose product with the total delta is 100·(Δuser+Δnice+Δsys) |
| `Cpu.Usages` | minihtop.cpp:47-61 | one value per current entry; all 0 when there is no baseline; 0 for an entry whose eight deltas sum to at most 0 |
| `Cpu.CpuSampler.constructor` | minihtop.cpp:44 | a new sampler has no baseline |
| `Cpu.CpuSampler.Sample` | minihtop.cpp:43-64 | returns exactly `Usages(old baseline, current)`; the baseline becomes `current`, on a cold start too; requires the snapshot to be no longer than a non-empty baseline |
| `Cpu.UsageWithinPercent` | minihtop.cpp:49-58 | when no counter goes backwards and some tick elapsed, the busy share 100·(Δuser+Δnice+Δsys)/total lies in [0, 100] |
| `Cpu.UsagesWithinPercent` | minihtop.cpp:48-60 | the same bound for every entry of a sample against a baseline |
| `Cpu.HalfBusyExample` | minihtop.cpp:49-58 | user 100→150 with idle 900→950 gives 50% |
| `Cpu.UsageNotClamped` | minihtop.cpp:58 | no clamping: an idle counter going backwards can give 200% |
| `Cpu.FirstTwoTicks` | minihtop.cpp:44-63 | over two calls on a fresh sampler: the first result is all zeros and the second is the per-entry usage between the two snapshots |
| `CpuStat.CpuPrefixLength` | minihtop.cpp:31-38 | the lines taken are exactly the leading run that starts with `cpu`; the line after it, if any, does not |
| `CpuStat.ScanValues` | minihtop.cpp:33-36 | a run of `count` `%lld` conversions over successive words: exactly `count` values, none negative |
| `CpuStat.ScanValuesRun` | minihtop.cpp:33-36 | the run stores the value of each leading number word; from the first word that is not a number on, or past the last word, every target keeps the 0 of `CPUData cpu {}` |
| `CpuStat.ReadCpuStats` | minihtop.cpp:27-41 | one record per line of that leading run, in order, each read by the format as written (`ScanCpuLineAsWritten`) |
| `CpuStat.ReadCpuStatsCorrected` | minihtop.cpp:27-41 | corrected reading: the same leading run, each line read by `ScanCpuLine` |
| `CpuStat.ScanCpuLineAsWritten` | minihtop.cpp:34-36 | the `sscanf` format as written: no counter is negative, and on a line whose label goes on past `cpu` (a per-core line) it agrees with the corrected reading |
| `CpuStat.ScanCpuLine` | minihtop.cpp:34-36 | corrected reading: skip the label word, read eight counters, none negative |
| `CpuStat.Words` | minihtop.cpp:34 | the words sscanf steps through: non-empty and free of blanks |
| `CpuStat.ScanAsWrittenCoreLine` | minihtop.cpp:34-36 | the format as written reads a per-core line `cpu<k> …` correctly |
| `CpuStat.ScanAsWrittenAggregateShifted` | minihtop.cpp:34-36 | the format as written drops the first counter of the aggregate line `cpu  …`, so each field gets the next counter |
| `CpuStat.ScanAsWrittenAggregateExample` | minihtop.cpp:34-36 | `cpu  100 0 50 900 0 0 0 0 0 0` reads user 0, nice 50, system 900 as written, but user 100, nice 0, system 50 in the corrected reading |
| `CpuStat.ScanCpuLineRoundTrip` | minihtop.cpp:33-37 | the corrected reading gets back the first eight counters of every aggregate and per-core line written as Linux writes them |
| `KeyValue.LastIndex` | minihtop.cpp:72-78 | the last entry with the key, or −1 when no entry has it |
| `KeyValue.LastValueAppend` | minihtop.cpp:72-78 | one more entry overwrites the value only when it carries the key |
| `KeyValue.FirstIndex` | minihtop.cpp:141-146 | the first entry with the key, or the length when no entry has it |
| `KeyValue.FirstValueExtend` | minihtop.cpp:141-146 | a scan that has not met the key yet stops at the first entry that has it, with that entry's value |
| `KeyValue.LastValue` | minihtop.cpp:72-78 | the value a scan that overwrites its local on every match ends with: 0 when no entry has the key, the last entry's value when it has the key |
| `KeyValue.FirstValue` | minihtop.cpp:141-146 | the value a scan that stops at the first match ends with: 0 when no entry has the key, the first entry's value when it has the key |
| `Memory.MemPercent` | minihtop.cpp:79-80 | 0 when MemTotal ≤ 0; otherwise the value whose product with MemTotal is 100·(MemTotal − (MemFree+Buffers+Cached)) |
| `Memory.MemoryUsage` | minihtop.cpp:67-81 | the scan result is the gauge of the last MemTotal, MemFree, Buffers and Cached values, each 0 when absent |
| `Memory.MemPercentZeroTotal` | minihtop.cpp:80 | MemTotal ≤ 0 gives 0 |
| `Memory.MemPercentWithinPercent` | minihtop.cpp:79-80 | with free+buffers+cached between 0 and total, the gauge lies in [0, 100] |
| `Memory.MemPercentNotClamped` | minihtop.cpp:79-80 | more free than total memory gives a negative gauge |
| `Memory.MemPercentExample` | minihtop.cpp:79-80 | total 100, free 40 gives 60% |
| `Memory.MemoryScanExample` | minihtop.cpp:72-80 | a meminfo listing with MemTotal 100 and MemFree 40 among other labels gives 60% |
| `Disk.DiskPercent` | minihtop.cpp:87-90 | 0 when f_blocks·f_frsize is 0; otherwise the value whose product with that total is 100·(total − f_bfree·f_frsize) |
| `Disk.DiskPercentZeroTotal` | minihtop.cpp:87-90 | zero blocks or a zero fragment size gives 0 |
| `Disk.DiskPercentOfBlocks` | minihtop.cpp:87-90 | the fragment size cancels out: 100·(blocks−free)/blocks, in [0, 100] |
| `Disk.DiskPercentExample` | minihtop.cpp:87-90 | 1000 blocks with 250 free gives 75% |
| `Processes.ProcessAge` | minihtop.cpp:134 | the age in seconds: uptime minus the age, in ticks, is the start time |
| `Processes.ProcessCpu` | minihtop.cpp:133-135 | 0 when the age is not positive; otherwise share × age = 100·(utime+stime)/clkTck |
| `Processes.ProcessCpuNotStarted` | minihtop.cpp:134-135 | age = uptime − starttime/clkTck ≤ 0 gives 0 |
| `Processes.ProcessCpuLifetimeAverage` | minihtop.cpp:133-135 | otherwise share × age = 100·(utime+stime)/clkTck (a lifetime average), never negative |
| `Processes.ProcessCpuIgnoresChildren` | minihtop.cpp:122-135 | cutime, cstime and the state have no effect on the share |
| `Processes.ProcessCpuExample` | minihtop.cpp:133-135 | 200 ticks at 100 Hz over a 4 s life gives 50% |
| `Processes.StripComm` | minihtop.cpp:149-151 | a name longer than 2 that starts with `(` is the result with its first and last characters put back; any other name is unchanged |
| `Processes.StripCommWrapped` | minihtop.cpp:149-151 | `(` + name + `)` strips back to any non-empty name |
| `Processes.StripCommExamples` | minihtop.cpp:149-151 | `(bash)` → `bash`; `x` and `()` unchanged |
| `Processes.StripCommUnclosed` | minihtop.cpp:149-151 | the closing `)` is not checked: `(ab` → `a` |
| `Processes.ReadVmRss` | minihtop.cpp:138-146 | resident memory is the value of the first `VmRSS:` entry, 0 when there is none |
| `Processes.Record` | minihtop.cpp:133-154 | the record of one process: its pid, its stripped name, its first VmRSS value, and its lifetime share: 0 when its age is not positive, otherwise share × age = 100·(utime+stime)/clkTck |
| `Processes.Records` | minihtop.cpp:110-155 | one record per process read, none dropped, in directory order |
| `Processes.InsertByCpu` | minihtop.cpp:159-161 | one insertion step: the prefix up to i ends up sorted by cpu, descending, and the array is a permutation of what it was |
| `Processes.SortByCpu` | minihtop.cpp:159-161 | the array ends up sorted non-increasing by cpu and a permutation of what it was; the order of ties is not specified |
| `Processes.PrefixOfSorted` | minihtop.cpp:163 | cutting a sorted sequence: the prefix is sorted, prefix and rest make up the whole, and nothing in the rest beats anything in the prefix |
| `Processes.RankByCpu` | minihtop.cpp:158-163 | length min(topN, number of records); sorted non-increasing; a sub-multiset of the input, equal to it when there are at most topN records; every dropped record has cpu ≤ every kept one |
| `Processes.TopThreeOfExample` | minihtop.cpp:158-163 | any three records meeting the ranking contract for five processes with cpu shares 10, 50, 5, 90, 30 are the ones with 90, 50, 30, in that order, so ties aside the contract pins the result down |
| `Processes.RankExample` | minihtop.cpp:158-163 | ranking those five processes with topN 3 gives shares 90, 50, 30 (pids 4, 2, 5) |
| `Processes.TopProcesses` | minihtop.cpp:94-164 | the same, where the input holds one record per process read (pid, stripped name, lifetime share, VmRSS), a process with age ≤ 0 included with share 0 |
| `Bar.Trunc` | minihtop.cpp:169 | the int conversion truncates toward zero: less than 1 away from x, on the same side of 0 |
| `Bar.Filled` | minihtop.cpp:169 | for a non-negative product percent/100·width, the largest integer not above it; for a non-positive one, the smallest not below it |
| `Bar.ColorPair` | minihtop.cpp:172 | colour 1 exactly below 50, 2 exactly in [50, 80), 3 exactly from 80 up |
| `Bar.BarCells` | minihtop.cpp:175-182 | with `filled` ≥ 0: max(width, filled) cells, the cell at index c at column c, `#` exactly below `filled`; with `filled` < 0: width − filled `-` cells (none when width ≤ filled) at columns filled…width−1, left of the bar's start; every `#` in the band's colour, every other cell a `-` in the default colour |
| `Bar.DrawBar` | minihtop.cpp:168-182 | the two loops write `filled` coloured `#` cells at columns 0…filled−1, then uncoloured `-` cells at columns filled…width−1 |
| `Bar.FilledWithinWidth` | minihtop.cpp:169 | for percent in [0, 100], `filled` is ⌊percent/100·width⌋ and lies in [0, width] |
| `Bar.BarHasWidthCells` | minihtop.cpp:175-182 | for percent in [0, 100], exactly `width` cells, one per column, `#` exactly below `filled` |
| `Bar.BarOverfull` | minihtop.cpp:169-182 | above 100% every cell is `#`, and there are `filled` ≥ width of them |
| `Bar.BarExample` | minihtop.cpp:168-182 | 60% of 50 cells: 30 filled, colour 2, 50 cells |

## Left out

- Reading the system. The model takes as inputs what the program reads from files and system calls:
  - `/proc/stat` lines;
  - the `/proc/meminfo` and `/proc/<pid>/status` (label, number) entries;
  - the statvfs block counts;
  - the `/proc/<pid>/stat` fields;
  - uptime;
  - `sysconf`'s clock-tick rate.

  A file that cannot be opened reads as no input. That covers the early returns of `getMemoryUsage`, `getDiskUsage` and `getTopProcesses`, and the skipped process.
- Listing `/proc`: the `readdir` loop, the digit test on directory names and `atoi`. `Processes.TopProcesses` receives the processes whose stat file could be read, in directory order.
- Reading `/proc/<pid>/stat` with `>>`. `ProcStat` arrives already split into fields; how a command name that contains a blank would be split is not modelled.
- CpuStat.ScanValues: a word counts as a number only when it is all decimal digits, and the first other word ends the scan. sscanf would also take a sign or the leading digits of a word such as `12x`. Linux writes only digit words on these lines.
- Drawing: the ncurses calls, colour initialisation, the label, the trailing `%3.0f%%` text and all screen positions in `drawBar` and `main`. `Bar.DrawBar` gives columns relative to the start of the bar.
- The refresh loop of `main`, the one-second `usleep` and terminal teardown.
- Number representation:
  - `float` and `double` are modelled as exact `real`, with no rounding;
  - `long long` and `long` are unbounded integers, so counter overflow in the deltas is not modelled;
  - `Bar.Trunc` models only the truncation of the `(int)` conversion.
- Disk.DiskPercent: the model requires `freeBlocks <= blocks`. It does not model the 64-bit unsigned wrap of `f_blocks * f_frsize` or of `total - free`.
- Cpu.CpuSampler.Sample: a snapshot with more entries than a non-empty baseline reads past the end of the baseline. The model rules it out by a precondition.
- Processes.TopProcesses: `topN` is a `nat` (the program passes 5). With a negative `topN`, `resize` would fail.
- `clkTck` is required to be positive, as `sysconf(_SC_CLK_TCK)` is.
- `Processes.SortByCpu` is an insertion sort. It stands in for `std::sort` by its contract (sorted and a permutation). That this particular sort keeps ties in order is not promised and nothing relies on it.

## Findings

| source | as written | input that shows it | evidently intended | confidence | as-written member | corrected member |
|---|---|---|---|---|---|---|
| minihtop.cpp:34-36 | After the literal `cpu`, the `%*s` conversion skips blanks and discards one word. On the aggregate line, whose label is `cpu` alone, that word is the user counter, so every field gets the next counter. The "CPU Total" busy figure then includes the idle delta. | aggregate line `cpu  100 0 50 900 0 0 0 0 0 0` reads user 0, nice 50, system 900, idle 0 | read user 100, nice 0, system 50, idle 900, as on the per-core lines | high (not executed) | `CpuStat.ScanAsWrittenAggregateShifted` | `CpuStat.ScanCpuLineRoundTrip` |

`CpuStat.ScanCpuLineAsWritten` models the format as written, and `CpuStat.ReadCpuStats` reads every line with it, as `readCPUStats` does. `CpuStat.ScanCpuLine` is the corrected reading: skip the label word, then read eight counters. `CpuStat.ReadCpuStatsCorrected` reads every line with it.
