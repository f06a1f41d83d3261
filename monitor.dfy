/**
 * The device monitor of modules/monitor.py: the shape of a monitoring
 * result, the exact-case vendor dispatch, the arithmetic that turns matched
 * memory figures into a percentage, the line scans over Windows and Linux
 * command output, and the cap on the interface list.  Commands run over SSH
 * are not modelled: a command's output is a parameter, and where the source
 * applies a regular expression, the first match is a parameter too.
 */
module Monitor {
  import opened Wrappers
  import opened Text

  // ---------------------------------------------------------------------
  // Vendor dispatch and result shape
  // ---------------------------------------------------------------------

  /** The branches of the _get_* helpers. */
  datatype Family = HuaweiLike | CiscoIos | CiscoNxos | Linux | Windows

  /** vendor in ['huawei', 'h3c'], == 'Cisco(IOS)', ...: exact spelling, no case folding. */
  function FamilyOf(vendor: string): (f: Option<Family>)
    ensures f == Some(HuaweiLike) <==> vendor == "huawei" || vendor == "h3c"
    ensures f == Some(CiscoIos) <==> vendor == "Cisco(IOS)"
    ensures f == Some(CiscoNxos) <==> vendor == "Cisco(NX-OS)"
    ensures f == Some(Linux) <==> vendor == "linux"
    ensures f == Some(Windows) <==> vendor == "windows"
  {
    if vendor == "huawei" || vendor == "h3c" then Some(HuaweiLike)
    else if vendor == "Cisco(IOS)" then Some(CiscoIos)
    else if vendor == "Cisco(NX-OS)" then Some(CiscoNxos)
    else if vendor == "linux" then Some(Linux)
    else if vendor == "windows" then Some(Windows)
    else None
  }

  /** device_info.get('vendor', 'huawei') */
  function VendorOf(stored: Option<string>): (vendor: string)
    ensures stored.Some? ==> vendor == stored.value
    ensures stored.None? ==> vendor == "huawei" && FamilyOf(vendor) == Some(HuaweiLike)
  {
    stored.GetOr("huawei")
  }

  /**
   * _get_cpu_usage: the vendor's pattern match for the network families, the
   * first numeric line for Windows, and None for any other spelling.
   * `matched` is the pattern's first match, already converted by int().
   */
  function CpuUsage(vendor: string, matched: Option<int>, windowsOutput: string): (r: Option<int>)
    ensures FamilyOf(vendor).None? ==> r.None?
    ensures FamilyOf(vendor) == Some(Windows) ==> r == WindowsCpu(windowsOutput)
    ensures FamilyOf(vendor).Some? && FamilyOf(vendor) != Some(Windows) ==> r == matched
  {
    match FamilyOf(vendor)
    case None => None
    case Some(Windows) => WindowsCpu(windowsOutput)
    case Some(_) => matched
  }

  /** Capitalised spellings fall outside every branch. */
  lemma DispatchIsCaseSensitive(matched: Option<int>, output: string)
    ensures CpuUsage("Huawei", matched, output).None?
    ensures CpuUsage("H3C", matched, output).None?
    ensures CpuUsage("Linux", matched, output).None?
    ensures CpuUsage("cisco(ios)", matched, output).None?
  {
  }

  /** _get_temperature: servers never report a temperature; network families report the pattern's match. */
  function Temperature(vendor: string, matched: Option<int>): (r: Option<int>)
    ensures FamilyOf(vendor) == Some(Linux) || FamilyOf(vendor) == Some(Windows) || FamilyOf(vendor).None? ==> r.None?
    ensures FamilyOf(vendor) in {Some(HuaweiLike), Some(CiscoIos), Some(CiscoNxos)} ==> r == matched
  {
    match FamilyOf(vendor)
    case Some(HuaweiLike) => matched
    case Some(CiscoIos) => matched
    case Some(CiscoNxos) => matched
    case _ => None
  }

  /** One entry of the interface list. */
  datatype PortState = PortState(name: string, adminStatus: string, operStatus: string)

  /** interfaces[:5] if interfaces else []: at most the first five, in order. */
  function FirstFive(interfaces: seq<PortState>): (r: seq<PortState>)
    ensures |r| <= 5 && |r| <= |interfaces| && r == interfaces[..|r|]
    ensures |interfaces| <= 5 ==> r == interfaces
    ensures |interfaces| > 5 ==> |r| == 5
  {
    if |interfaces| <= 5 then interfaces else interfaces[..5]
  }

  /** How the SSH connection attempt ended. */
  datatype Connect = Connected | Failed | Raised(message: string)

  datatype MonitorResult =
    | Offline(error: string)
    | Online(cpu: Option<int>, memory: Option<int>, temperature: Option<int>, interfaces: seq<PortState>)
    | Error(error: string)

  /**
   * monitor_device: offline when the connection fails, error when it (or
   * the disconnect) raises, otherwise online with the four readings and at
   * most five interfaces.
   */
  function MonitorDevice(connect: Connect, disconnectError: Option<string>,
                         cpu: Option<int>, memory: Option<int>, temperature: Option<int>,
                         collected: seq<PortState>): (r: MonitorResult)
    ensures connect == Failed <==> r.Offline?
    ensures r.Error? <==> connect.Raised? || (connect == Connected && disconnectError.Some?)
    ensures r.Online? ==> r == Online(cpu, memory, temperature, FirstFive(collected))
    ensures r.Online? ==> |r.interfaces| <= 5
  {
    match connect
    case Failed => Offline("连接失败")
    case Raised(message) => Error(message)
    case Connected =>
      if disconnectError.Some? then Error(disconnectError.value)
      else Online(cpu, memory, temperature, FirstFive(collected))
  }

  // ---------------------------------------------------------------------
  // Numbers
  // ---------------------------------------------------------------------

  function DigitValue(c: char): nat
    requires IsAsciiDigit(c)
  {
    c as int - '0' as int
  }

  predicate AllDigits(s: string) {
    forall j :: 0 <= j < |s| ==> IsAsciiDigit(s[j])
  }

  /** The decimal value of a string of digits. */
  function DigitsValue(s: string): (n: nat)
    requires AllDigits(s)
  {
    if s == [] then 0 else DigitsValue(s[..|s| - 1]) * 10 + DigitValue(s[|s| - 1])
  }

  /** int(s) on an unsigned decimal numeral with optional surrounding whitespace; None where int() raises. */
  function ParseInt(s: string): (r: Option<nat>)
    ensures r.Some? <==> Strip(s) != "" && AllDigits(Strip(s))
    ensures r.Some? ==> r.value == DigitsValue(Strip(s))
  {
    var t := Strip(s);
    if t != "" && AllDigits(t) then Some(DigitsValue(t)) else None
  }

  /**
   * Python's int() of a quotient: truncation toward zero.  The bounds say
   * q is a/b rounded toward zero, for either sign of a.
   */
  function TruncDiv(a: int, b: int): (q: int)
    requires b > 0
    ensures a >= 0 ==> q * b <= a < (q + 1) * b
    ensures a < 0 ==> (q - 1) * b < a <= q * b
  {
    if a >= 0 then
      var q := a / b;
      assert a == q * b + a % b;
      assert (q + 1) * b == q * b + b;
      q
    else
      var m := (-a) / b;
      assert -a == m * b + (-a) % b;
      assert (m + 1) * b == m * b + b;
      assert (-m - 1) * b == -((m + 1) * b);
      assert -m * b == -(m * b);
      -m
  }

  /**
   * int((used / total) * 100), computed on exact rationals: 100·used/total
   * truncated toward zero, for a used figure of either sign.
   */
  function Percent(used: int, total: int): (p: int)
    requires total > 0
    ensures used >= 0 ==> p * total <= used * 100 < (p + 1) * total
    ensures used < 0 ==> (p - 1) * total < used * 100 <= p * total
  {
    TruncDiv(used * 100, total)
  }

  /** A share of the total is a percentage between 0 and 100, within one point below the exact value. */
  lemma PercentBounds(used: int, total: int)
    requires 0 <= used <= total && total > 0
    ensures 0 <= Percent(used, total) <= 100
    ensures Percent(used, total) * total <= used * 100 < (Percent(used, total) + 1) * total
  {
    var a := used * 100;
    var p := a / total;
    assert a == p * total + a % total;
    assert (p + 1) * total == p * total + total;
    assert a <= 100 * total;
    NotAboveBound(p, total, 100);
  }

  /** x * t <= m * t with t > 0 bounds x by m. */
  lemma NotAboveBound(x: int, t: int, m: int)
    requires t > 0 && x * t <= m * t
    ensures x <= m
  {
    assert (x - m) * t <= 0;
  }

  // ---------------------------------------------------------------------
  // Memory
  // ---------------------------------------------------------------------

  /**
   * The Cisco IOS memory branch: with a Total figure, used is the Used
   * figure, or Total - Free, or 0; a percentage comes from these only when
   * total > 0, otherwise the first N% in the output is taken.  Each
   * argument is the matching pattern's first match.
   */
  function IosMemory(total: Option<nat>, used: Option<nat>, free: Option<nat>, percent: Option<int>): (r: Option<int>)
    ensures total.Some? && total.value > 0 ==>
      r == Some(Percent(if used.Some? then used.value else if free.Some? then total.value - free.value else 0, total.value))
    ensures total.None? || total.value == 0 ==> r == percent
  {
    if total.Some? && total.value > 0 then
      var u := if used.Some? then used.value else if free.Some? then total.value - free.value else 0;
      Some(Percent(u, total.value))
    else percent
  }

  /** A Used figure, when matched, wins over Total - Free. */
  lemma IosUsedWins(total: nat, used: nat, free: Option<nat>, percent: Option<int>)
    requires total > 0 && used <= total
    ensures IosMemory(Some(total), Some(used), free, percent) == Some(Percent(used, total))
    ensures 0 <= IosMemory(Some(total), Some(used), free, percent).value <= 100
  {
    PercentBounds(used, total);
  }

  /** The NX-OS branch: the shared-memory totals line first, then separate Size and Used figures (in MB). */
  function NxosMemory(totals: Option<(nat, nat)>, size: Option<nat>, used: Option<nat>): (r: Option<int>)
    ensures totals.Some? && totals.value.0 > 0 ==> r == Some(Percent(totals.value.1, totals.value.0))
    ensures !(totals.Some? && totals.value.0 > 0) && size.Some? && used.Some? && size.value > 0 ==>
      r == Some(Percent(used.value, size.value))
    ensures r.Some? <==> (totals.Some? && totals.value.0 > 0) || (size.Some? && used.Some? && size.value > 0)
  {
    if totals.Some? && totals.value.0 > 0 then Some(Percent(totals.value.1, totals.value.0))
    else if size.Some? && used.Some? && size.value > 0 then Some(Percent(used.value, size.value))
    else None
  }

  /** The Linux branch over `free | grep Mem`: the second and third columns of a line of at least seven words. */
  function LinuxMemory(output: string): (r: Option<int>)
    ensures |Words(output)| < 7 ==> r.None?
    ensures r.Some? ==>
      var parts := Words(output);
      && ParseInt(parts[1]).Some? && ParseInt(parts[2]).Some? && ParseInt(parts[1]).value > 0
      && r.value == Percent(ParseInt(parts[2]).value, ParseInt(parts[1]).value)
    ensures |Words(output)| >= 7 ==>
      var parts := Words(output);
      ParseInt(parts[1]).Some? && ParseInt(parts[2]).Some? && ParseInt(parts[1]).value > 0 ==>
      r == Some(Percent(ParseInt(parts[2]).value, ParseInt(parts[1]).value))
  {
    var parts := Words(output);
    if |parts| < 7 then None
    else
      var total := ParseInt(parts[1]);
      var used := ParseInt(parts[2]);
      if total.None? || used.None? then None
      else if total.value > 0 then Some(Percent(used.value, total.value))
      else None
  }

  /** The Windows scan's state: the figures seen so far, or an int() that raised. */
  datatype MemoryScan = ScanRaised | Scanned(total: Option<nat>, free: Option<nat>)

  const TOTAL_KEY: string := "TotalVisibleMemorySize="
  const FREE_KEY: string := "FreePhysicalMemory="

  /** The value after the first '=' of a line: int(line.split('=')[1]). */
  function ValueAfterEquals(line: string): Option<nat> {
    var parts := SplitOn(line, '=');
    if |parts| < 2 then None else ParseInt(parts[1])
  }

  /** One line of the wmic output: a later figure replaces an earlier one. */
  function ScanLine(st: MemoryScan, line: string): (r: MemoryScan)
    ensures st.ScanRaised? ==> r.ScanRaised?
  {
    match st
    case ScanRaised => ScanRaised
    case Scanned(total, free) =>
      if Contains(line, TOTAL_KEY) then
        (match ValueAfterEquals(line) case None => ScanRaised case Some(v) => Scanned(Some(v), free))
      else if Contains(line, FREE_KEY) then
        (match ValueAfterEquals(line) case None => ScanRaised case Some(v) => Scanned(total, Some(v)))
      else st
  }

  function ScanLines(lines: seq<string>): MemoryScan {
    if lines == [] then Scanned(None, None)
    else ScanLine(ScanLines(lines[..|lines| - 1]), lines[|lines| - 1])
  }

  /** The last TotalVisibleMemorySize line is the one that counts. */
  lemma {:induction false} LastTotalWins(lines: seq<string>, line: string, v: nat)
    requires ScanLines(lines).Scanned?
    requires Contains(line, TOTAL_KEY) && ValueAfterEquals(line) == Some(v)
    ensures ScanLines(lines + [line]).Scanned?
    ensures ScanLines(lines + [line]).total == Some(v)
    ensures ScanLines(lines + [line]).free == ScanLines(lines).free
  {
    assert (lines + [line])[..|lines|] == lines;
  }

  /** The Windows branch's reading: the percentage of the scan of the stripped output's lines. */
  function WindowsMemorySpec(output: string): Option<int>
  {
    ScanPercent(ScanLines(Lines(Strip(output))))
  }

  /** The percentage a finished scan yields: only when both figures were found and are non-zero. */
  function ScanPercent(st: MemoryScan): (r: Option<int>)
    ensures r.Some? ==>
      && st.Scanned? && st.total.Some? && st.free.Some? && st.total.value != 0 && st.free.value != 0
      && r.value == Percent(st.total.value - st.free.value, st.total.value)
    ensures st.Scanned? && st.total.Some? && st.free.Some? && st.total.value != 0 && st.free.value != 0 ==>
      r == Some(Percent(st.total.value - st.free.value, st.total.value))
  {
    if st.Scanned? && st.total.Some? && st.total.value != 0 && st.free.Some? && st.free.value != 0 then
      Some(Percent(st.total.value - st.free.value, st.total.value))
    else None
  }

  /** The loop of the Windows memory branch over the wmic lines: a raising int() ends it. */
  method ScanMemoryLines(lines: seq<string>) returns (st: MemoryScan)
    ensures st == ScanLines(lines)
  {
    var totalMemory: Option<nat> := None;
    var freeMemory: Option<nat> := None;
    for i := 0 to |lines|
      invariant ScanLines(lines[..i]) == Scanned(totalMemory, freeMemory)
    {
      assert lines[..i + 1][..i] == lines[..i];
      var line := lines[i];
      if Contains(line, TOTAL_KEY) {
        var v := ValueAfterEquals(line);
        if v.None? {
          ScanRaisedStays(lines, i + 1);
          return ScanRaised;
        }
        totalMemory := v;
      } else if Contains(line, FREE_KEY) {
        var v := ValueAfterEquals(line);
        if v.None? {
          ScanRaisedStays(lines, i + 1);
          return ScanRaised;
        }
        freeMemory := v;
      }
    }
    assert lines[..|lines|] == lines;
    st := Scanned(totalMemory, freeMemory);
  }

  /** The Windows branch of _get_memory_usage. */
  method WindowsMemory(output: string) returns (r: Option<int>)
    ensures r == WindowsMemorySpec(output)
  {
    var lines := Lines(Strip(output));
    var st := ScanMemoryLines(lines);
    r := ScanPercent(st);
  }

  /** Once an int() has raised, the scan stays raised. */
  lemma {:induction false} ScanRaisedStays(lines: seq<string>, i: nat)
    requires i <= |lines| && ScanLines(lines[..i]).ScanRaised?
    ensures ScanLines(lines).ScanRaised?
    decreases |lines| - i
  {
    if i < |lines| {
      assert lines[..i + 1][..i] == lines[..i];
      ScanRaisedStays(lines, i + 1);
    } else {
      assert lines[..i] == lines;
    }
  }

  // ---------------------------------------------------------------------
  // Windows CPU
  // ---------------------------------------------------------------------

  /** A stripped line that is non-empty and all digits (str.isdigit on ASCII). */
  predicate IsNumericLine(line: string) {
    ParseInt(line).Some?
  }

  /** int() of each stripped line, where it is all digits. */
  function ParsedLines(lines: seq<string>): (vals: seq<Option<nat>>)
    ensures |vals| == |lines|
    ensures forall k :: 0 <= k < |lines| ==> vals[k] == ParseInt(lines[k])
  {
    seq(|lines|, k requires 0 <= k < |lines| => ParseInt(lines[k]))
  }

  /** The first value present, if any. */
  function FirstSome(vals: seq<Option<nat>>): Option<int> {
    if vals == [] then None
    else match vals[0]
      case Some(v) => Some(v)
      case None => FirstSome(vals[1..])
  }

  /** The value of the first numeric line, if any. */
  function FirstNumericValue(lines: seq<string>): Option<int> {
    FirstSome(ParsedLines(lines))
  }

  /** The first value present is the one at the first position holding one. */
  lemma {:induction false} FirstSomeIsFirst(vals: seq<Option<nat>>, i: nat)
    requires i < |vals| && vals[i].Some?
    requires forall j :: 0 <= j < i ==> vals[j].None?
    ensures FirstSome(vals) == Some(vals[i].value)
  {
    if i > 0 {
      var tail := vals[1..];
      forall j | 0 <= j < i - 1
        ensures tail[j].None?
      {
        assert tail[j] == vals[j + 1];
      }
      FirstSomeIsFirst(tail, i - 1);
    }
  }

  /** No value is found exactly when none is present. */
  lemma {:induction false} FirstSomeNone(vals: seq<Option<nat>>)
    ensures FirstSome(vals).None? <==> forall j :: 0 <= j < |vals| ==> vals[j].None?
  {
    if vals != [] {
      var tail := vals[1..];
      FirstSomeNone(tail);
      assert forall j :: 1 <= j < |vals| ==> vals[j] == tail[j - 1];
    }
  }

  /** The reading is the value of the first numeric line, whatever follows it. */
  lemma FirstNumericValueIsFirst(lines: seq<string>, i: nat)
    requires i < |lines| && IsNumericLine(lines[i])
    requires forall j :: 0 <= j < i ==> !IsNumericLine(lines[j])
    ensures FirstNumericValue(lines) == Some(ParseInt(lines[i]).value)
  {
    var vals := ParsedLines(lines);
    forall j | 0 <= j < i
      ensures vals[j].None?
    {
      assert !IsNumericLine(lines[j]);
    }
    FirstSomeIsFirst(vals, i);
  }

  /** No reading exactly when no line is numeric. */
  lemma FirstNumericValueNone(lines: seq<string>)
    ensures FirstNumericValue(lines).None? <==> forall j :: 0 <= j < |lines| ==> !IsNumericLine(lines[j])
  {
    var vals := ParsedLines(lines);
    FirstSomeNone(vals);
    assert (forall j :: 0 <= j < |vals| ==> vals[j].None?) <==> forall j :: 0 <= j < |lines| ==> !IsNumericLine(lines[j]);
  }

  /** The Windows CPU reading: the value of the first stripped line that is all digits, else None. */
  function WindowsCpu(output: string): Option<int> {
    FirstNumericValue(Lines(Strip(output)))
  }

  /** The loop of the Windows CPU branch, returning at the first numeric line. */
  method ScanNumericLines(lines: seq<string>) returns (r: Option<int>)
    ensures r == FirstNumericValue(lines)
  {
    ghost var vals := ParsedLines(lines);
    for i := 0 to |lines|
      invariant FirstNumericValue(lines) == FirstSome(vals[i..])
    {
      var value := ParseInt(lines[i]);
      assert vals[i..][0] == value;
      assert vals[i..][1..] == vals[i + 1..];
      if value.Some? {
        return Some(value.value);
      }
    }
    assert vals[|lines|..] == [];
    r := None;
  }

  /** The Windows branch of _get_cpu_usage. */
  method ScanWindowsCpu(output: string) returns (r: Option<int>)
    ensures r == WindowsCpu(output)
  {
    r := ScanNumericLines(Lines(Strip(output)));
  }

  // ---------------------------------------------------------------------
  // Linux interfaces
  // ---------------------------------------------------------------------

  /** What one line of `ip -s link show` does to the collection. */
  datatype Step = Skip | Emit(port: PortState) | Raise

  /**
   * A line with ':' and '<' names an interface: the first word after the
   * first ':'; status 'up' iff the line contains "UP".  An empty name
   * position raises IndexError.
   */
  function LinuxStep(line: string): Step {
    if !(Contains(line, ":") && Contains(line, "<")) then Skip
    else
      var parts := SplitOn(line, ':');
      if |parts| < 2 then Skip
      else
        var words := Words(Strip(parts[1]));
        if words == [] then Raise
        else
          var status := if Contains(line, "UP") then "up" else "down";
          Emit(PortState(words[0], status, status))
  }

  /** A line names an interface only with ':' and '<'; the name is a word; the status follows "UP". */
  lemma LinuxStepShape(line: string)
    ensures var s := LinuxStep(line);
      && (!(Contains(line, ":") && Contains(line, "<")) ==> s == Skip)
      && (s.Emit? ==> s.port.name != "" && forall j :: 0 <= j < |s.port.name| ==> !IsSpace(s.port.name[j]))
      && (s.Emit? ==> (s.port.adminStatus == "up" <==> Contains(line, "UP")))
      && (s.Emit? ==> s.port.adminStatus in {"up", "down"} && s.port.operStatus == s.port.adminStatus)
  {
  }

  /** What each line contributes, in order. */
  function LinuxSteps(lines: seq<string>): (steps: seq<Step>)
    ensures |steps| == |lines|
    ensures forall k :: 0 <= k < |lines| ==> steps[k] == LinuxStep(lines[k])
  {
    seq(|lines|, k requires 0 <= k < |lines| => LinuxStep(lines[k]))
  }

  /** The interfaces emitted by the steps, up to the first step that raises. */
  function Collect(steps: seq<Step>): seq<PortState> {
    if steps == [] then []
    else match steps[0]
      case Skip => Collect(steps[1..])
      case Emit(p) => [p] + Collect(steps[1..])
      case Raise => []
  }

  /** The interfaces collected from the lines, up to the first line that raises. */
  function LinuxScan(lines: seq<string>): seq<PortState> {
    Collect(LinuxSteps(lines))
  }

  /** The collection loop of the Linux branch: until the lines run out or one raises. */
  method CollectLinux(lines: seq<string>) returns (interfaces: seq<PortState>)
    ensures interfaces == LinuxScan(lines)
  {
    ghost var steps := LinuxSteps(lines);
    interfaces := [];
    var i := 0;
    while i < |lines|
      invariant i <= |lines|
      invariant LinuxScan(lines) == interfaces + Collect(steps[i..])
    {
      var step := LinuxStep(lines[i]);
      assert steps[i..][0] == step;
      assert steps[i..][1..] == steps[i + 1..];
      match step {
        case Skip =>
        case Emit(p) =>
          assert interfaces + ([p] + Collect(steps[i + 1..])) == (interfaces + [p]) + Collect(steps[i + 1..]);
          interfaces := interfaces + [p];
        case Raise =>
          assert interfaces + [] == interfaces;
          return;
      }
      i := i + 1;
    }
    assert steps[i..] == [];
    assert interfaces + [] == interfaces;
  }

  /** The Linux branch of _get_interface_status: the collected interfaces, first five kept. */
  method LinuxInterfaces(output: string) returns (r: seq<PortState>)
    ensures r == FirstFive(LinuxScan(Lines(output)))
  {
    var interfaces := CollectLinux(Lines(output));
    r := FirstFive(interfaces);
  }

  /** Every collected Linux interface has a name and an up/down status. */
  lemma LinuxScanWellFormed(lines: seq<string>)
    ensures forall k :: 0 <= k < |LinuxScan(lines)| ==>
      LinuxScan(lines)[k].name != "" && LinuxScan(lines)[k].adminStatus in {"up", "down"}
  {
    var steps := LinuxSteps(lines);
    forall k | 0 <= k < |steps|
      ensures steps[k].Emit? ==> steps[k].port.name != "" && steps[k].port.adminStatus in {"up", "down"}
    {
      LinuxStepShape(lines[k]);
    }
    CollectWellFormed(steps);
  }

  /** Collecting keeps only emitted interfaces, so it keeps what all of them share. */
  lemma {:induction false} CollectWellFormed(steps: seq<Step>)
    requires forall k :: 0 <= k < |steps| && steps[k].Emit? ==>
      steps[k].port.name != "" && steps[k].port.adminStatus in {"up", "down"}
    ensures forall k :: 0 <= k < |Collect(steps)| ==>
      Collect(steps)[k].name != "" && Collect(steps)[k].adminStatus in {"up", "down"}
  {
    if steps != [] {
      CollectWellFormed(steps[1..]);
    }
  }
}
