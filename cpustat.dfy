/** readCPUStats: selecting the cpu lines of /proc/stat and reading their
    counters.

    Linux writes the aggregate line as "cpu" followed by one blank and then
    " <n>" per counter (so two blanks before the first number), and each
    per-core line as "cpu<k>" followed by " <n>" per counter: ten counters on
    current kernels, of which the first eight are read.
 */
module CpuStat {
  import opened Cpu

  /** The characters sscanf treats as white space. */
  predicate IsSpace(c: char) {
    c == ' ' || c == '\t' || c == '\n' || c == '\r' || c == '\U{0B}' || c == '\U{0C}'
  }

  predicate NoSpace(w: string) {
    forall i :: 0 <= i < |w| ==> !IsSpace(w[i])
  }

  /** line.rfind("cpu", 0) == 0: the line starts with "cpu". */
  predicate StartsWithCpu(line: string) {
    |line| >= 3 && line[..3] == "cpu"
  }

  /** Length of the run of lines from the start that begin with "cpu". */
  function CpuPrefixLength(lines: seq<string>): (n: nat)
    ensures n <= |lines|
    ensures forall i :: 0 <= i < n ==> StartsWithCpu(lines[i])
    ensures n < |lines| ==> !StartsWithCpu(lines[n])
  {
    if lines == [] || !StartsWithCpu(lines[0]) then 0
    else 1 + CpuPrefixLength(lines[1..])
  }

  // ---------------------------------------------------------------- words

  /** Length of the leading run of non-blank characters. */
  function WordEnd(s: string): (n: nat)
    ensures n <= |s|
    ensures forall i :: 0 <= i < n ==> !IsSpace(s[i])
    ensures n < |s| ==> IsSpace(s[n])
  {
    if s == [] || IsSpace(s[0]) then 0 else 1 + WordEnd(s[1..])
  }

  /** The blank-separated words of a string, in order. */
  function Words(s: string): (ws: seq<string>)
    ensures forall i :: 0 <= i < |ws| ==> ws[i] != [] && NoSpace(ws[i])
    decreases |s|
  {
    if s == [] then []
    else if IsSpace(s[0]) then Words(s[1..])
    else
      var n := WordEnd(s);
      assert NoSpace(s[..n]);
      [s[..n]] + Words(s[n..])
  }

  lemma {:induction false} WordEndOf(w: string, rest: string)
    requires NoSpace(w)
    requires rest == [] || IsSpace(rest[0])
    ensures WordEnd(w + rest) == |w|
  {
    if w != [] {
      assert (w + rest)[1..] == w[1..] + rest;
      WordEndOf(w[1..], rest);
    }
  }

  /** A word followed by a blank (or by nothing) is the first word. */
  lemma WordsCons(w: string, rest: string)
    requires w != [] && NoSpace(w)
    requires rest == [] || IsSpace(rest[0])
    ensures Words(w + rest) == [w] + Words(rest)
  {
    WordEndOf(w, rest);
    var s := w + rest;
    assert s[..|w|] == w && s[|w|..] == rest;
  }

  // ------------------------------------------------------------- numbers

  predicate IsDigit(c: char) {
    '0' <= c <= '9'
  }

  predicate IsNumeral(w: string) {
    w != [] && forall i :: 0 <= i < |w| ==> IsDigit(w[i])
  }

  /** The value of a string of decimal digits. */
  function NumeralValue(w: string): (n: nat)
    requires forall i :: 0 <= i < |w| ==> IsDigit(w[i])
  {
    if w == [] then 0
    else NumeralValue(w[..|w| - 1]) * 10 + DigitValue(w[|w| - 1])
  }

  function DigitValue(c: char): (d: nat)
    requires IsDigit(c)
    ensures d < 10
  {
    c as int - '0' as int
  }

  function DigitChar(d: nat): (c: char)
    requires d < 10
    ensures IsDigit(c) && DigitValue(c) == d
  {
    ('0' as int + d) as char
  }

  /** The decimal numeral of n, as the kernel prints it. */
  function Numeral(n: nat): (w: string)
    ensures IsNumeral(w)
    ensures NumeralValue(w) == n
  {
    if n < 10 then [DigitChar(n)]
    else
      var w := Numeral(n / 10) + [DigitChar(n % 10)];
      assert w[..|w| - 1] == Numeral(n / 10);
      w
  }

  /** Numbers read into `count` targets from successive words, as a run of
      %lld conversions: the first word that is not a number ends the run, and
      the targets not reached keep their initial 0. */
  /** Number of leading words that are numbers. */
  function NumeralRun(ws: seq<string>): (n: nat)
    ensures n <= |ws|
    ensures forall i :: 0 <= i < n ==> IsNumeral(ws[i])
    ensures n < |ws| ==> !IsNumeral(ws[n])
  {
    if ws == [] || !IsNumeral(ws[0]) then 0 else 1 + NumeralRun(ws[1..])
  }

  function ScanValues(ws: seq<string>, count: nat): (vs: seq<int>)
    ensures |vs| == count
    ensures forall i :: 0 <= i < count ==> vs[i] >= 0
  {
    if count == 0 then []
    else if ws != [] && IsNumeral(ws[0]) then [NumeralValue(ws[0]) as int] + ScanValues(ws[1..], count - 1)
    else seq(count, _ => 0)
  }

  /** The run of conversions stores the value of each leading number word,
      and every target from the first word that is not a number on (or past
      the last word) keeps its 0. */
  lemma {:induction false} ScanValuesRun(ws: seq<string>, count: nat)
    ensures forall i :: 0 <= i < count && i < NumeralRun(ws) ==> ScanValues(ws, count)[i] == NumeralValue(ws[i]) as int
    ensures forall i :: 0 <= i < count && NumeralRun(ws) <= i ==> ScanValues(ws, count)[i] == 0
  {
    if count > 0 && ws != [] && IsNumeral(ws[0]) {
      ScanValuesRun(ws[1..], count - 1);
      forall i | 0 < i < count
        ensures ScanValues(ws, count)[i] == ScanValues(ws[1..], count - 1)[i - 1]
        ensures i < |ws| ==> ws[1..][i - 1] == ws[i]
      {
      }
    }
  }

  function Counters(vs: seq<int>): (c: CPUData)
    requires |vs| >= 8
  {
    CPUData(vs[0], vs[1], vs[2], vs[3], vs[4], vs[5], vs[6], vs[7])
  }

  /** The eight counters read from a sequence of words. */
  function ScanFields(ws: seq<string>): (c: CPUData) {
    Counters(ScanValues(ws, 8))
  }

  function AfterFirst(ws: seq<string>): (rest: seq<string>) {
    if ws == [] then [] else ws[1..]
  }

  /** No counter is negative: sscanf only ever stores a run of digits, and a
      field it does not reach keeps its 0. */
  predicate NonNegative(c: CPUData) {
    c.user >= 0 && c.nice >= 0 && c.sys >= 0 && c.idle >= 0
    && c.iowait >= 0 && c.irq >= 0 && c.softirq >= 0 && c.steal >= 0
  }

  /** A word that goes on past index j ends where the word starting at j does. */
  lemma {:induction false} WordEndAt(s: string, j: nat)
    requires j < |s| && !IsSpace(s[j])
    requires forall i :: 0 <= i < j ==> !IsSpace(s[i])
    ensures WordEnd(s) == j + WordEnd(s[j..])
  {
    if j > 0 {
      assert s[1..][j - 1..] == s[j..];
      WordEndAt(s[1..], j - 1);
    }
  }

  /** Splitting the first word of s at j leaves the words after it unchanged. */
  lemma AfterFirstWordsAt(s: string, j: nat)
    requires j < |s| && !IsSpace(s[j])
    requires forall i :: 0 <= i < j ==> !IsSpace(s[i])
    ensures AfterFirst(Words(s)) == AfterFirst(Words(s[j..]))
  {
    if j == 0 {
      assert s[j..] == s;
    } else {
      WordEndAt(s, j);
      var t := s[j..];
      WordsUnfold(s);
      WordsUnfold(t);
      assert t[WordEnd(t)..] == s[WordEnd(s)..];
    }
  }

  /** A string that starts with a non-blank begins with its first word. */
  lemma WordsUnfold(s: string)
    requires s != [] && !IsSpace(s[0])
    ensures AfterFirst(Words(s)) == Words(s[WordEnd(s)..])
  {
  }

  // ------------------------------------------------------------ one line

  /** The sscanf format of readCPUStats as written: the literal "cpu", then
      a discarded %*s conversion, then eight %lld. After "cpu" is matched,
      %*s skips blanks and discards ONE word of what follows it. On a per-core line that word is
      the core number; on the aggregate line, whose label is "cpu" alone, it
      is the first counter. */
  function ScanCpuLineAsWritten(line: string): (c: CPUData)
    requires StartsWithCpu(line)
    ensures NonNegative(c)
    ensures |line| > 3 && !IsSpace(line[3]) ==> c == ScanCpuLine(line)
  {
    if |line| > 3 && !IsSpace(line[3]) then
      AfterFirstWordsAt(line, 3);
      ScanFields(AfterFirst(Words(line[3..])))
    else
      ScanFields(AfterFirst(Words(line[3..])))
  }

  /** The intended reading: skip the label word ("cpu" or "cpu<k>") and read
      the eight counters that follow it. */
  function ScanCpuLine(line: string): (c: CPUData)
    ensures NonNegative(c)
  {
    ScanFields(AfterFirst(Words(line)))
  }

  // ------------------------------------------------ lines as Linux writes them

  /** " <n>" per counter. */
  function FieldsText(vs: seq<nat>): (text: string) {
    if vs == [] then "" else " " + Numeral(vs[0]) + FieldsText(vs[1..])
  }

  function Numerals(vs: seq<nat>): (ws: seq<string>)
    ensures |ws| == |vs|
  {
    if vs == [] then [] else [Numeral(vs[0])] + Numerals(vs[1..])
  }

  /** The aggregate line: "cpu", a blank, then the counters. */
  function AggregateLine(vs: seq<nat>): (line: string) {
    "cpu " + FieldsText(vs)
  }

  /** The line of core `k`: "cpu<k>", then the counters. */
  function CoreLine(k: nat, vs: seq<nat>): (line: string) {
    "cpu" + Numeral(k) + FieldsText(vs)
  }

  lemma {:induction false} WordsOfFields(vs: seq<nat>)
    ensures Words(FieldsText(vs)) == Numerals(vs)
  {
    if vs != [] {
      var rest := FieldsText(vs[1..]);
      assert FieldsText(vs) == " " + (Numeral(vs[0]) + rest);
      assert (" " + (Numeral(vs[0]) + rest))[1..] == Numeral(vs[0]) + rest;
      WordsCons(Numeral(vs[0]), rest);
      WordsOfFields(vs[1..]);
    }
  }

  lemma {:induction false} ScanValuesOfNumerals(vs: seq<nat>, count: nat)
    requires count <= |vs|
    ensures ScanValues(Numerals(vs), count) == vs[..count]
  {
    if count > 0 {
      ScanValuesOfNumerals(vs[1..], count - 1);
      assert vs[..count] == [vs[0]] + vs[1..][..count - 1];
    }
  }

  lemma ScanFieldsOfNumerals(vs: seq<nat>)
    requires |vs| >= 8
    ensures ScanFields(Numerals(vs)) == Counters(vs)
  {
    ScanValuesOfNumerals(vs, 8);
  }

  /** The intended reading recovers the first eight counters of every cpu
      line, aggregate or per-core. */
  lemma ScanCpuLineRoundTrip(k: nat, vs: seq<nat>)
    requires |vs| >= 8
    ensures StartsWithCpu(AggregateLine(vs)) && ScanCpuLine(AggregateLine(vs)) == Counters(vs)
    ensures StartsWithCpu(CoreLine(k, vs)) && ScanCpuLine(CoreLine(k, vs)) == Counters(vs)
  {
    AggregateLineRoundTrip(vs);
    CoreLineRoundTrip(k, vs);
  }

  lemma AggregateLineRoundTrip(vs: seq<nat>)
    requires |vs| >= 8
    ensures StartsWithCpu(AggregateLine(vs)) && ScanCpuLine(AggregateLine(vs)) == Counters(vs)
  {
    var f := FieldsText(vs);
    assert AggregateLine(vs) == "cpu" + (" " + f);
    SplitAfterCpu(" " + f);
    WordsCons("cpu", " " + f);
    WordsAfterBlank(f);
    WordsOfFields(vs);
    ScanFieldsOfNumerals(vs);
  }

  lemma CoreLineRoundTrip(k: nat, vs: seq<nat>)
    requires |vs| >= 8
    ensures StartsWithCpu(CoreLine(k, vs)) && ScanCpuLine(CoreLine(k, vs)) == Counters(vs)
  {
    var f := FieldsText(vs);
    var name := "cpu" + Numeral(k);
    assert CoreLine(k, vs) == name + f == "cpu" + (Numeral(k) + f);
    SplitAfterCpu(Numeral(k) + f);
    assert NoSpace(name);
    FieldsTextStartsBlank(vs);
    WordsCons(name, f);
    WordsOfFields(vs);
    ScanFieldsOfNumerals(vs);
  }

  /** The format as written reads per-core lines right... */
  lemma ScanAsWrittenCoreLine(k: nat, vs: seq<nat>)
    requires |vs| >= 8
    ensures StartsWithCpu(CoreLine(k, vs)) && ScanCpuLineAsWritten(CoreLine(k, vs)) == Counters(vs)
  {
    var f := FieldsText(vs);
    assert CoreLine(k, vs) == "cpu" + (Numeral(k) + f);
    SplitAfterCpu(Numeral(k) + f);
    FieldsTextStartsBlank(vs);
    WordsCons(Numeral(k), f);
    WordsOfFields(vs);
    ScanFieldsOfNumerals(vs);
  }

  /** A line built as "cpu" followed by some text starts with "cpu", and
      dropping those three characters gives the text back. */
  lemma SplitAfterCpu(rest: string)
    ensures StartsWithCpu("cpu" + rest) && ("cpu" + rest)[3..] == rest
  {
    assert ("cpu" + rest)[..3] == "cpu";
  }

  lemma FieldsTextStartsBlank(vs: seq<nat>)
    requires vs != []
    ensures FieldsText(vs) != [] && IsSpace(FieldsText(vs)[0])
  {
  }

  lemma WordsAfterBlank(s: string)
    ensures Words(" " + s) == Words(s)
  {
    assert (" " + s)[1..] == s;
  }

  /** ...but on the aggregate line it drops the user counter and reads every
      field from the next one: user gets nice, nice gets system, and so on,
      steal getting the ninth counter (guest). */
  lemma ScanAsWrittenAggregateShifted(vs: seq<nat>)
    requires |vs| >= 9
    ensures StartsWithCpu(AggregateLine(vs))
    ensures ScanCpuLineAsWritten(AggregateLine(vs)) == Counters(vs[1..])
  {
    var f := FieldsText(vs);
    assert AggregateLine(vs) == "cpu" + (" " + f);
    SplitAfterCpu(" " + f);
    WordsAfterBlank(f);
    WordsOfFields(vs);
    assert Numerals(vs)[1..] == Numerals(vs[1..]);
    ScanFieldsOfNumerals(vs[1..]);
  }

  /** "cpu  100 0 50 900 0 0 0 0 0 0": readCPUStats as written gets user = 0, nice = 50,
      system = 900, where the line says user = 100, nice = 0, system = 50. */
  lemma ScanAsWrittenAggregateExample()
    ensures ScanCpuLineAsWritten(AggregateLine([100, 0, 50, 900, 0, 0, 0, 0, 0, 0]))
      == CPUData(0, 50, 900, 0, 0, 0, 0, 0)
    ensures ScanCpuLine(AggregateLine([100, 0, 50, 900, 0, 0, 0, 0, 0, 0]))
      == CPUData(100, 0, 50, 900, 0, 0, 0, 0)
  {
    var vs: seq<nat> := [100, 0, 50, 900, 0, 0, 0, 0, 0, 0];
    ScanAsWrittenAggregateShifted(vs);
    ScanCpuLineRoundTrip(0, vs);
    assert vs[1..] == [0, 50, 900, 0, 0, 0, 0, 0, 0];
  }

  // --------------------------------------------------------- readCPUStats

  /** The loop of readCPUStats over the lines of /proc/stat: each line that
      starts with "cpu" contributes one entry, read with the format as
      written, and the first line that does not ends the reading. */
  method ReadCpuStats(lines: seq<string>) returns (cpus: seq<CPUData>)
    ensures |cpus| == CpuPrefixLength(lines)
    ensures forall i {:trigger cpus[i]} :: 0 <= i < |cpus| ==> cpus[i] == ScanCpuLineAsWritten(lines[i])
  {
    ghost var n := CpuPrefixLength(lines);
    cpus := [];
    var i := 0;
    while i < |lines|
      invariant 0 <= i <= n
      invariant |cpus| == i
      invariant forall j {:trigger cpus[j]} :: 0 <= j < i ==> cpus[j] == ScanCpuLineAsWritten(lines[j])
    {
      if StartsWithCpu(lines[i]) {
        var cpu := ScanCpuLineAsWritten(lines[i]);
        cpus := cpus + [cpu];
        i := i + 1;
      } else {
        assert i == n;
        break;
      }
    }
  }

  /** The same loop with the intended reading of each line. */
  method ReadCpuStatsCorrected(lines: seq<string>) returns (cpus: seq<CPUData>)
    ensures |cpus| == CpuPrefixLength(lines)
    ensures forall i {:trigger cpus[i]} :: 0 <= i < |cpus| ==> cpus[i] == ScanCpuLine(lines[i])
  {
    ghost var n := CpuPrefixLength(lines);
    cpus := [];
    var i := 0;
    while i < |lines|
      invariant 0 <= i <= n
      invariant |cpus| == i
      invariant forall j {:trigger cpus[j]} :: 0 <= j < i ==> cpus[j] == ScanCpuLine(lines[j])
    {
      if StartsWithCpu(lines[i]) {
        var cpu := ScanCpuLine(lines[i]);
        cpus := cpus + [cpu];
        i := i + 1;
      } else {
        assert i == n;
        break;
      }
    }
  }
}
