/**
 * The vendor CLI output parsers of ai_monitor_app.py: the command each
 * vendor is asked to run, the exact-case dispatch to a parser, and the
 * line-oriented tokenisers for Huawei/H3C, Cisco NX-OS, Juniper and the
 * generic fallback.
 *
 * Each parser strips the whole output, splits it on '\n', strips each line,
 * skips header and separator lines, splits the rest on whitespace and emits
 * one record per line with enough tokens.  A parser's per-line rule is a
 * function (HuaweiLine, ...); the parser is a loop proved to collect exactly
 * what that rule yields, line by line and in order.
 */
module InterfaceParsers {
  import opened Wrappers
  import opened Text

  /** One entry of the interface list; the byte and error counters are always 0 in these parsers. */
  datatype Interface = Interface(
    name: string,
    status: string,
    speed: string,
    rxBytes: int,
    txBytes: int,
    errors: int,
    description: string)

  /** The byte and error counters these parsers leave at 0. */
  predicate ZeroCounters(i: Interface) {
    i.rxBytes == 0 && i.txBytes == 0 && i.errors == 0
  }

  const DEFAULT_INTERFACE_COMMAND := "display interface brief"

  /** The vendor-to-command table of get_interface_command. */
  const INTERFACE_COMMANDS: map<string, string> := map[
    "Cisco(IOS)" := "show ip interface brief",
    "Cisco(NX-OS)" := "show interface brief",
    "Huawei" := "display interface brief",
    "H3C" := "display interface brief",
    "Juniper" := "show interfaces terse",
    "Fortinet" := "get system interface",
    "Arista" := "show interfaces status",
    "Dell" := "show interfaces status",
    "HP" := "display interface brief",
    "Linux" := "ip -s link show",
    "Windows" := "ipconfig /all"
  ]

  /** get_interface_command: the table entry, or the Huawei-style default for any other spelling. */
  function InterfaceCommand(vendor: string): (cmd: string)
    ensures vendor in INTERFACE_COMMANDS ==> cmd == INTERFACE_COMMANDS[vendor]
    ensures vendor !in INTERFACE_COMMANDS ==> cmd == DEFAULT_INTERFACE_COMMAND
  {
    if vendor in INTERFACE_COMMANDS then INTERFACE_COMMANDS[vendor] else DEFAULT_INTERFACE_COMMAND
  }

  /** The lookup is exact-case: a lower-case spelling of a listed vendor gets the default. */
  lemma InterfaceCommandExamples()
    ensures InterfaceCommand("Juniper") == "show interfaces terse"
    ensures InterfaceCommand("Windows") == "ipconfig /all"
    ensures InterfaceCommand("juniper") == DEFAULT_INTERFACE_COMMAND
    ensures InterfaceCommand("") == DEFAULT_INTERFACE_COMMAND
  {
  }

  // ---------------------------------------------------------------------
  // Collecting per-line records
  // ---------------------------------------------------------------------

  /** The records a per-line rule yields for the lines, in line order. */
  function Collect(lines: seq<string>, rule: string -> Option<Interface>): (r: seq<Interface>)
    ensures |r| <= |lines|
  {
    if lines == [] then []
    else
      var last := rule(lines[|lines| - 1]);
      Collect(lines[..|lines| - 1], rule) + (if last.Some? then [last.value] else [])
  }

  /** The list a rule's outcome contributes. */
  function Emitted(o: Option<Interface>): seq<Interface> {
    if o.Some? then [o.value] else []
  }

  /** The loop step: the records of the first i + 1 lines extend those of the first i. */
  lemma CollectStep(lines: seq<string>, i: nat, rule: string -> Option<Interface>)
    requires i < |lines|
    ensures Collect(lines[..i + 1], rule) == Collect(lines[..i], rule) + Emitted(rule(lines[i]))
  {
    assert lines[..i + 1][..i] == lines[..i];
  }

  /** The loop every parser runs: each line through the parser's rule, records appended in line order. */
  method CollectRecords(lines: seq<string>, rule: string -> Option<Interface>) returns (interfaces: seq<Interface>)
    ensures interfaces == Collect(lines, rule)
  {
    interfaces := [];
    for i := 0 to |lines|
      invariant interfaces == Collect(lines[..i], rule)
    {
      CollectStep(lines, i, rule);
      var row := rule(lines[i]);
      if row.Some? {
        interfaces := interfaces + [row.value];
      }
    }
    assert lines[..|lines|] == lines;
  }

  /** Collecting over two blocks of lines is collecting each block, in order. */
  lemma {:induction false} CollectAppend(a: seq<string>, b: seq<string>, rule: string -> Option<Interface>)
    ensures Collect(a + b, rule) == Collect(a, rule) + Collect(b, rule)
    decreases |b|
  {
    if b == [] {
      assert a + b == a;
    } else {
      var b' := b[..|b| - 1];
      assert (a + b)[..|a + b| - 1] == a + b';
      CollectAppend(a, b', rule);
    }
  }

  /** Lines the rule rejects contribute nothing. */
  lemma {:induction false} CollectNone(lines: seq<string>, rule: string -> Option<Interface>)
    requires forall k :: 0 <= k < |lines| ==> rule(lines[k]).None?
    ensures Collect(lines, rule) == []
  {
    if lines != [] {
      CollectNone(lines[..|lines| - 1], rule);
    }
  }

  /** Whatever holds of every record the rule can yield holds of every collected record. */
  lemma {:induction false} CollectAll(lines: seq<string>, rule: string -> Option<Interface>, P: Interface -> bool)
    requires forall l :: rule(l).Some? ==> P(rule(l).value)
    ensures forall k :: 0 <= k < |Collect(lines, rule)| ==> P(Collect(lines, rule)[k])
  {
    if lines != [] {
      CollectAll(lines[..|lines| - 1], rule, P);
    }
  }

  /** output.strip().split('\n') */
  function OutputLines(output: string): (lines: seq<string>)
    ensures |lines| >= 1
  {
    Lines(Strip(output))
  }

  /** Lowered equality with "up", as in `x.lower() == 'up'`. */
  predicate IsUp(token: string) {
    Lower(token) == "up"
  }

  // ---------------------------------------------------------------------
  // Huawei / H3C
  // ---------------------------------------------------------------------

  /** The lines parse_huawei_interfaces skips (after stripping). */
  predicate HuaweiSkipped(line: string) {
    line == [] || Contains(line, "Interface") || Contains(line, "---") || StartsWith(line, "*")
  }

  /** One Huawei line: name, PHY and protocol columns, up iff both columns are up. */
  function HuaweiLine(raw: string): (r: Option<Interface>)
    ensures r.Some? <==> !HuaweiSkipped(Strip(raw)) && |Words(Strip(raw))| >= 3
    ensures r.Some? ==>
      var parts := Words(Strip(raw));
      && r.value.name == parts[0]
      && r.value.speed == parts[1]
      && (r.value.status == "up" <==> IsUp(parts[1]) && IsUp(parts[2]))
      && (r.value.status == "up" || r.value.status == "down")
      && r.value.description == "PHY: " + parts[1] + ", Protocol: " + parts[2]
      && ZeroCounters(r.value)
  {
    var line := Strip(raw);
    if HuaweiSkipped(line) then None
    else
      var parts := Words(line);
      if |parts| >= 3 then
        var phy := parts[1];
        var protocol := parts[2];
        Some(Interface(parts[0], if IsUp(phy) && IsUp(protocol) then "up" else "down", phy, 0, 0, 0,
                       "PHY: " + phy + ", Protocol: " + protocol))
      else None
  }

  /** HuaweiLine by cases: skipped, too few tokens, or the three-column record. */
  lemma HuaweiLineCases(raw: string, parts: seq<string>)
    requires parts == Words(Strip(raw))
    ensures HuaweiSkipped(Strip(raw)) ==> HuaweiLine(raw) == None
    ensures !HuaweiSkipped(Strip(raw)) && |parts| < 3 ==> HuaweiLine(raw) == None
    ensures !HuaweiSkipped(Strip(raw)) && |parts| >= 3 ==> HuaweiLine(raw) == Some(Interface(parts[0],
      if IsUp(parts[1]) && IsUp(parts[2]) then "up" else "down", parts[1], 0, 0, 0,
      "PHY: " + parts[1] + ", Protocol: " + parts[2]))
  {
  }

  function HuaweiInterfaces(output: string): seq<Interface> {
    Collect(OutputLines(output), HuaweiLine)
  }

  /** The body of the Huawei loop for one line; `continue` is an early None. */
  method HuaweiRow(raw: string) returns (row: Option<Interface>)
    ensures row == HuaweiLine(raw)
  {
    var line := Strip(raw);
    HuaweiLineCases(raw, Words(line));
    if line == [] || Contains(line, "Interface") || Contains(line, "---") || StartsWith(line, "*") {
      return None;
    }
    var parts := Words(line);
    if |parts| < 3 {
      return None;
    }
    var interfaceName := parts[0];
    var phyStatus := parts[1];
    var protocolStatus := parts[2];
    var status := if IsUp(phyStatus) && IsUp(protocolStatus) then "up" else "down";
    row := Some(Interface(interfaceName, status, phyStatus, 0, 0, 0,
                          "PHY: " + phyStatus + ", Protocol: " + protocolStatus));
  }

  /** parse_huawei_interfaces: the lines of the stripped output through the loop, with the rule HuaweiRow computes. */
  method ParseHuawei(output: string) returns (interfaces: seq<Interface>)
    ensures interfaces == HuaweiInterfaces(output)
  {
    interfaces := CollectRecords(OutputLines(output), HuaweiLine);
  }

  /** Every Huawei record is named by a whitespace-free token and is either up or down. */
  lemma HuaweiRecordsWellFormed(output: string)
    ensures forall k :: 0 <= k < |HuaweiInterfaces(output)| ==>
      var r := HuaweiInterfaces(output)[k];
      r.name != [] && (r.status == "up" || r.status == "down")
  {
    CollectAll(OutputLines(output), HuaweiLine,
               (r: Interface) => r.name != [] && (r.status == "up" || r.status == "down"));
  }

  // ---------------------------------------------------------------------
  // Juniper
  // ---------------------------------------------------------------------

  predicate JuniperSkipped(line: string) {
    line == [] || Contains(line, "Interface")
  }

  /** One Juniper line: name, admin and link columns, up iff both are up. */
  function JuniperLine(raw: string): (r: Option<Interface>)
    ensures r.Some? <==> !JuniperSkipped(Strip(raw)) && |Words(Strip(raw))| >= 3
    ensures r.Some? ==>
      var parts := Words(Strip(raw));
      && r.value.name == parts[0]
      && (r.value.status == "up" <==> IsUp(parts[1]) && IsUp(parts[2]))
      && (r.value.status == "up" || r.value.status == "down")
      && r.value.description == "Admin: " + parts[1] + ", Link: " + parts[2]
      && r.value.speed == "-" && ZeroCounters(r.value)
  {
    var line := Strip(raw);
    if JuniperSkipped(line) then None
    else
      var parts := Words(line);
      if |parts| >= 3 then
        var admin := parts[1];
        var link := parts[2];
        Some(Interface(parts[0], if IsUp(admin) && IsUp(link) then "up" else "down", "-", 0, 0, 0,
                       "Admin: " + admin + ", Link: " + link))
      else None
  }

  function JuniperInterfaces(output: string): seq<Interface> {
    Collect(OutputLines(output), JuniperLine)
  }

  /** The body of the Juniper loop for one line. */
  method JuniperRow(raw: string) returns (row: Option<Interface>)
    ensures row == JuniperLine(raw)
  {
    var line := Strip(raw);
    if line == [] || Contains(line, "Interface") {
      assert JuniperLine(raw) == None by {
        assert JuniperSkipped(Strip(raw));
      }
      return None;
    }
    var parts := Words(line);
    if |parts| < 3 {
      return None;
    }
    var adminStatus := parts[1];
    var linkStatus := parts[2];
    var status := if IsUp(adminStatus) && IsUp(linkStatus) then "up" else "down";
    row := Some(Interface(parts[0], status, "-", 0, 0, 0, "Admin: " + adminStatus + ", Link: " + linkStatus));
  }

  /** parse_juniper_interfaces: the lines of the stripped output through the loop, with the rule JuniperRow computes. */
  method ParseJuniper(output: string) returns (interfaces: seq<Interface>)
    ensures interfaces == JuniperInterfaces(output)
  {
    interfaces := CollectRecords(OutputLines(output), JuniperLine);
  }

  // ---------------------------------------------------------------------
  // Generic (best effort)
  // ---------------------------------------------------------------------

  predicate GenericSkipped(line: string) {
    line == [] || Contains(line, "Interface") || Contains(line, "---")
  }

  /** 'up' in line.lower() */
  predicate MentionsUp(line: string) {
    Contains(Lower(line), "up")
  }

  /** s[:n] */
  function Prefix(s: string, n: nat): (r: string)
    ensures |r| <= n && |r| <= |s| && r == s[..|r|]
    ensures |s| <= n ==> r == s
  {
    if |s| <= n then s else s[..n]
  }

  /** One generic line: the first token names it, up iff "up" occurs anywhere in the lowered line. */
  function GenericLine(raw: string): (r: Option<Interface>)
    ensures r.Some? <==> !GenericSkipped(Strip(raw)) && |Words(Strip(raw))| >= 2
    ensures r.Some? ==>
      && r.value.name == Words(Strip(raw))[0]
      && (r.value.status == "up" <==> MentionsUp(Strip(raw)))
      && r.value.description == Prefix(Join(Words(Strip(raw))[1..], " "), 50)
      && |r.value.description| <= 50
      && r.value.speed == "-" && ZeroCounters(r.value)
  {
    var line := Strip(raw);
    if GenericSkipped(line) then None
    else
      var parts := Words(line);
      if |parts| >= 2 then
        Some(Interface(parts[0], if MentionsUp(line) then "up" else "down", "-", 0, 0, 0,
                       Prefix(Join(parts[1..], " "), 50)))
      else None
  }

  function GenericInterfaces(output: string): seq<Interface> {
    Collect(OutputLines(output), GenericLine)
  }

  /** The body of the generic loop for one line. */
  method GenericRow(raw: string) returns (row: Option<Interface>)
    ensures row == GenericLine(raw)
  {
    var line := Strip(raw);
    if line == [] || Contains(line, "Interface") || Contains(line, "---") {
      assert GenericLine(raw) == None by {
        assert GenericSkipped(Strip(raw));
      }
      return None;
    }
    var parts := Words(line);
    if |parts| < 2 {
      return None;
    }
    var status := if MentionsUp(line) then "up" else "down";
    row := Some(Interface(parts[0], status, "-", 0, 0, 0, Prefix(Join(parts[1..], " "), 50)));
  }

  /** parse_generic_interfaces: the lines of the stripped output through the loop, with the rule GenericRow computes. */
  method ParseGeneric(output: string) returns (interfaces: seq<Interface>)
    ensures interfaces == GenericInterfaces(output)
  {
    interfaces := CollectRecords(OutputLines(output), GenericLine);
  }

  /** Every generic description is at most 50 characters. */
  lemma GenericDescriptionsBounded(output: string)
    ensures forall k :: 0 <= k < |GenericInterfaces(output)| ==> |GenericInterfaces(output)[k].description| <= 50
  {
    CollectAll(OutputLines(output), GenericLine, (r: Interface) => |r.description| <= 50);
  }

  // ---------------------------------------------------------------------
  // Cisco NX-OS
  // ---------------------------------------------------------------------

  /** Drops control characters: code points below 32 and 127 (this also removes backspace). */
  function RemoveControl(s: string): (r: string)
    ensures |r| <= |s|
    ensures forall j :: 0 <= j < |r| ==> r[j] as int >= 32 && r[j] as int != 127
  {
    FilterChars(s, c => c as int >= 32 && c as int != 127)
  }

  /** s.replace('  ', ' '): each non-overlapping pair of spaces, left to right, becomes one space. */
  function ReplaceDoubleSpace(s: string): (r: string)
    ensures |r| <= |s|
    ensures Contains(s, "  ") ==> |r| < |s|
    decreases |s|
  {
    if StartsWith(s, "  ") then " " + ReplaceDoubleSpace(s[2..])
    else if s == [] then []
    else [s[0]] + ReplaceDoubleSpace(s[1..])
  }

  /** Every run of spaces reduced to a single space: the intended result of the collapsing loop. */
  function SingleSpaced(s: string): (r: string)
    ensures |r| <= |s|
    ensures s != [] ==> r != [] && r[0] == s[0]
    decreases |s|
  {
    if StartsWith(s, "  ") then SingleSpaced(s[1..])
    else if s == [] then []
    else [s[0]] + SingleSpaced(s[1..])
  }

  function SpaceThen(s: string): string {
    if s != [] && s[0] == ' ' then s else " " + s
  }

  lemma SingleSpacedAfterSpace(x: string)
    ensures SingleSpaced(" " + x) == SpaceThen(SingleSpaced(x))
  {
    var s := " " + x;
    assert s[1..] == x;
    if x != [] && x[0] == ' ' {
      assert StartsWith(s, "  ");
    } else {
      assert !StartsWith(s, "  ");
    }
  }

  /** One round of replace() does not change the single-spaced form. */
  lemma {:induction false} ReplaceKeepsSingleSpaced(s: string)
    ensures SingleSpaced(ReplaceDoubleSpace(s)) == SingleSpaced(s)
    decreases |s|
  {
    if StartsWith(s, "  ") {
      ReplaceKeepsSingleSpaced(s[2..]);
      SingleSpacedAfterSpace(ReplaceDoubleSpace(s[2..]));
      SingleSpacedAfterSpace(s[2..]);
      assert s[1..] == " " + s[2..];
    } else if s != [] {
      ReplaceKeepsSingleSpaced(s[1..]);
      if s[0] == ' ' {
        SingleSpacedAfterSpace(ReplaceDoubleSpace(s[1..]));
        SingleSpacedAfterSpace(s[1..]);
        assert s == " " + s[1..];
      } else {
        var r := [s[0]] + ReplaceDoubleSpace(s[1..]);
        assert r[1..] == ReplaceDoubleSpace(s[1..]);
        assert !StartsWith(r, "  ");
      }
    }
  }

  /** A string with no two adjacent spaces is already single-spaced. */
  lemma {:induction false} SingleSpacedFixpoint(s: string)
    requires !Contains(s, "  ")
    ensures SingleSpaced(s) == s
    decreases |s|
  {
    if s != [] {
      SingleSpacedFixpoint(s[1..]);
    }
  }

  /** `while '  ' in s: s = s.replace('  ', ' ')` */
  method CollapseSpaces(s: string) returns (r: string)
    ensures r == SingleSpaced(s)
    ensures !Contains(r, "  ")
  {
    r := s;
    while Contains(r, "  ")
      invariant SingleSpaced(r) == SingleSpaced(s)
      decreases |r|
    {
      ReplaceKeepsSingleSpaced(r);
      r := ReplaceDoubleSpace(r);
    }
    SingleSpacedFixpoint(r);
  }

  /** The "7mm" terminal-noise prefix is dropped only when something follows it. */
  function DropNoisePrefix(s: string): (r: string)
    ensures StartsWith(s, "7mm") && |s| > 3 ==> r == s[3..]
    ensures !(StartsWith(s, "7mm") && |s| > 3) ==> r == s
  {
    if StartsWith(s, "7mm") && |s| > 3 then s[3..] else s
  }

  /** The characters an NX-OS interface name keeps: alphanumerics and / . - _ */
  predicate IsNameChar(c: char) {
    IsAsciiAlnum(c) || c == '/' || c == '.' || c == '-' || c == '_'
  }

  function SanitizeName(name: string): (r: string)
    ensures |r| <= |name|
    ensures forall j :: 0 <= j < |r| ==> IsNameChar(r[j])
  {
    FilterChars(name, IsNameChar)
  }

  predicate NxosSkipped(line: string) {
    line == [] || Contains(line, "Interface") || Contains(line, "---")
  }

  /** The cleaned line that NX-OS splits: control characters removed, spaces collapsed, "7mm" dropped. */
  function NxosCleaned(line: string): string {
    DropNoisePrefix(SingleSpaced(RemoveControl(line)))
  }

  /**
   * One NX-OS line: name, status, and the remaining columns as description
   * (or "-" when there are only two tokens); up iff the status column is up.
   */
  function NxosLine(raw: string): (r: Option<Interface>)
    ensures r.Some? <==> !NxosSkipped(Strip(raw)) && |Words(NxosCleaned(Strip(raw)))| >= 2
    ensures r.Some? ==>
      var parts := Words(NxosCleaned(Strip(raw)));
      && r.value.name == SanitizeName(parts[0])
      && (r.value.status == "up" <==> IsUp(parts[1]))
      && (r.value.status == "up" || r.value.status == "down")
      && (|parts| == 2 ==> r.value.description == "-")
      && (|parts| >= 3 ==> r.value.description == Join(parts[2..], " "))
      && r.value.speed == "-" && ZeroCounters(r.value)
  {
    var line := Strip(raw);
    if NxosSkipped(line) then None
    else
      var parts := Words(NxosCleaned(line));
      if |parts| < 2 then None
      else
        var status := if IsUp(parts[1]) then "up" else "down";
        var description := if |parts| >= 3 then Join(parts[2..], " ") else "-";
        Some(Interface(SanitizeName(parts[0]), status, "-", 0, 0, 0, description))
  }

  /** NxosLine once the line is known not to be skipped, by the number of tokens. */
  lemma NxosLineCases(raw: string, parts: seq<string>)
    requires !NxosSkipped(Strip(raw)) && parts == Words(NxosCleaned(Strip(raw)))
    ensures |parts| < 2 ==> NxosLine(raw) == None
    ensures |parts| == 2 ==> NxosLine(raw) == Some(Interface(SanitizeName(parts[0]),
      if IsUp(parts[1]) then "up" else "down", "-", 0, 0, 0, "-"))
    ensures |parts| >= 3 ==> NxosLine(raw) == Some(Interface(SanitizeName(parts[0]),
      if IsUp(parts[1]) then "up" else "down", "-", 0, 0, 0, Join(parts[2..], " ")))
  {
  }

  function NxosInterfaces(output: string): seq<Interface> {
    Collect(OutputLines(output), NxosLine)
  }

  /** Control characters removed, runs of spaces collapsed by the replace loop, "7mm" dropped. */
  method CleanNxosLine(line: string) returns (filtered: string)
    ensures filtered == NxosCleaned(line)
  {
    filtered := RemoveControl(line);
    filtered := CollapseSpaces(filtered);
    if StartsWith(filtered, "7mm") && |filtered| > 3 {
      filtered := filtered[3..];
    }
  }

  /**
   * The body of the NX-OS loop for one line: filter control characters,
   * collapse runs of spaces with the replace loop, drop the "7mm" prefix,
   * then emit a three-column or a two-column record.
   */
  method NxosRow(raw: string) returns (row: Option<Interface>)
    ensures row == NxosLine(raw)
  {
    var line := Strip(raw);
    if line == [] || Contains(line, "Interface") || Contains(line, "---") {
      return None;
    }
    var filtered := CleanNxosLine(line);
    var parts := Words(filtered);
    NxosLineCases(raw, parts);
    if |parts| >= 3 {
      var status := if IsUp(parts[1]) then "up" else "down";
      row := Some(Interface(SanitizeName(parts[0]), status, "-", 0, 0, 0, Join(parts[2..], " ")));
    } else if |parts| >= 2 {
      var status := if IsUp(parts[1]) then "up" else "down";
      row := Some(Interface(SanitizeName(parts[0]), status, "-", 0, 0, 0, "-"));
    } else {
      row := None;
    }
  }

  /** parse_cisco_nxos_interfaces: the lines of the stripped output through the loop, with the rule NxosRow computes. */
  method ParseNxos(output: string) returns (interfaces: seq<Interface>)
    ensures interfaces == NxosInterfaces(output)
  {
    interfaces := CollectRecords(OutputLines(output), NxosLine);
  }

  /** Every NX-OS interface name consists of alphanumerics and / . - _ only. */
  lemma NxosNamesSanitized(output: string)
    ensures forall k, j :: 0 <= k < |NxosInterfaces(output)| && 0 <= j < |NxosInterfaces(output)[k].name| ==>
      IsNameChar(NxosInterfaces(output)[k].name[j])
  {
    CollectAll(OutputLines(output), NxosLine,
               (r: Interface) => forall j :: 0 <= j < |r.name| ==> IsNameChar(r.name[j]));
  }

  // ---------------------------------------------------------------------
  // Dispatch
  // ---------------------------------------------------------------------

  datatype Parser = HuaweiParser | CiscoIosParser | NxosParser | LinuxParser | WindowsParser | JuniperParser | GenericParser

  /** The branch parse_interface_output takes: exact-case comparison, anything else is generic. */
  function ParserFor(vendor: string): (p: Parser)
    ensures p == HuaweiParser <==> vendor == "Huawei" || vendor == "H3C"
    ensures p == CiscoIosParser <==> vendor == "Cisco(IOS)"
    ensures p == NxosParser <==> vendor == "Cisco(NX-OS)"
    ensures p == LinuxParser <==> vendor == "Linux"
    ensures p == WindowsParser <==> vendor == "Windows"
    ensures p == JuniperParser <==> vendor == "Juniper"
  {
    if vendor == "Huawei" || vendor == "H3C" then HuaweiParser
    else if vendor == "Cisco(IOS)" then CiscoIosParser
    else if vendor == "Cisco(NX-OS)" then NxosParser
    else if vendor == "Linux" then LinuxParser
    else if vendor == "Windows" then WindowsParser
    else if vendor == "Juniper" then JuniperParser
    else GenericParser
  }

  /**
   * parse_interface_output for the parsers in this model; None when the
   * vendor selects the Cisco IOS, Linux or Windows parser, which are not
   * part of this model.
   */
  function ParseInterfaceOutput(output: string, vendor: string): (r: Option<seq<Interface>>)
    ensures r.None? <==> ParserFor(vendor) in {CiscoIosParser, LinuxParser, WindowsParser}
    ensures (vendor == "Huawei" || vendor == "H3C") ==> r == Some(HuaweiInterfaces(output))
    ensures vendor == "Juniper" ==> r == Some(JuniperInterfaces(output))
    ensures vendor == "Cisco(NX-OS)" ==> r == Some(NxosInterfaces(output))
    ensures ParserFor(vendor) == GenericParser ==> r == Some(GenericInterfaces(output))
  {
    match ParserFor(vendor)
    case HuaweiParser => Some(HuaweiInterfaces(output))
    case NxosParser => Some(NxosInterfaces(output))
    case JuniperParser => Some(JuniperInterfaces(output))
    case GenericParser => Some(GenericInterfaces(output))
    case _ => None
  }
}
