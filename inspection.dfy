/**
 * The inspection manager (modules/inspection.py) and the vendor read-back
 * of ai_monitor_app.py: report file naming, the header written at the top
 * of an inspection report, the stages reported through the progress
 * callback, the report listings and file deletion.  The SSH session, the AI
 * call and the disk are outside the model: their outcomes are parameters,
 * and a directory is the list of entries os.listdir and os.stat report.
 */
module Inspection {
  import opened Wrappers
  import opened Text
  import MainView

  // ---------------------------------------------------------------------
  // Paths and file names
  // ---------------------------------------------------------------------

  /** os.path.join(directory, name) on POSIX for a relative name. */
  function PathJoin(directory: string, name: string): (path: string)
    ensures EndsWith(path, name)
  {
    if directory == [] || EndsWith(directory, "/") then directory + name
    else directory + "/" + name
  }

  /** The position just after the last '/' of path, or 0 when it has none. */
  function AfterLastSlash(path: string): (i: nat)
    ensures i <= |path|
    ensures i > 0 ==> path[i - 1] == '/'
    ensures forall j :: i <= j < |path| ==> path[j] != '/'
  {
    if path == [] then 0
    else if path[|path| - 1] == '/' then |path|
    else AfterLastSlash(path[..|path| - 1])
  }

  /** os.path.basename: everything after the last '/'. */
  function Basename(path: string): (r: string)
    ensures '/' !in r
    ensures EndsWith(path, r)
    ensures |r| < |path| ==> path[|path| - |r| - 1] == '/'
  {
    var i := AfterLastSlash(path);
    assert forall k :: 0 <= k < |path| - i ==> path[i..][k] == path[i + k];
    path[i..]
  }

  /** The base name of a path ending in a slash-free name is that name. */
  lemma BasenameOfJoin(directory: string, name: string)
    requires '/' !in name
    ensures Basename(PathJoin(directory, name)) == name
  {
    if directory == [] || EndsWith(directory, "/") {
      BasenameAfterSlash(directory, name);
    } else {
      assert directory + "/" + name == (directory + "/") + name;
      BasenameAfterSlash(directory + "/", name);
    }
  }

  /** A slash-free name after a slash (or alone) is the base name. */
  lemma BasenameAfterSlash(prefix: string, name: string)
    requires prefix == [] || prefix[|prefix| - 1] == '/'
    requires '/' !in name
    ensures Basename(prefix + name) == name
  {
    var p := prefix + name;
    var i := AfterLastSlash(p);
    forall j | |prefix| <= j < |p|
      ensures p[j] != '/'
    {
      assert p[j] == name[j - |prefix|];
    }
    assert prefix != [] ==> p[|prefix| - 1] == '/';
    assert i == |prefix|;
    assert p[i..] == name;
  }

  /** perform_inspection's report name "{hostname}_{ip}_{timestamp}.txt". */
  function InspectionFileName(hostname: string, ip: string, timestamp: string): (name: string)
    ensures EndsWith(name, ".txt")
    ensures StartsWith(name, hostname + "_" + ip + "_")
    ensures ('/' !in hostname && '/' !in ip && '/' !in timestamp) ==> '/' !in name
  {
    hostname + "_" + ip + "_" + timestamp + ".txt"
  }

  const ANALYSIS_PREFIX: string := "AI_Analytics_"

  /** analyze_inspection's report name: the prefix and the inspection report's base name. */
  function AnalysisFileName(inspectionFile: string): (name: string)
    ensures StartsWith(name, ANALYSIS_PREFIX)
    ensures EndsWith(inspectionFile, name[|ANALYSIS_PREFIX|..])
    ensures '/' !in name[|ANALYSIS_PREFIX|..]
  {
    ANALYSIS_PREFIX + Basename(inspectionFile)
  }

  /**
   * The analysis of a report written by perform_inspection is named after
   * that report, and is listed beside it (both end in ".txt").
   */
  lemma AnalysisOfInspection(directory: string, hostname: string, ip: string, timestamp: string)
    requires '/' !in hostname && '/' !in ip && '/' !in timestamp
    ensures var name := InspectionFileName(hostname, ip, timestamp);
      && AnalysisFileName(PathJoin(directory, name)) == ANALYSIS_PREFIX + name
      && EndsWith(AnalysisFileName(PathJoin(directory, name)), ".txt")
  {
    var name := InspectionFileName(hostname, ip, timestamp);
    AnalysisOfReport(directory, name);
  }

  /** The analysis name of a slash-free ".txt" report name under any directory. */
  lemma AnalysisOfReport(directory: string, name: string)
    requires '/' !in name && EndsWith(name, ".txt")
    ensures AnalysisFileName(PathJoin(directory, name)) == ANALYSIS_PREFIX + name
    ensures EndsWith(ANALYSIS_PREFIX + name, ".txt")
  {
    BasenameOfJoin(directory, name);
    EndsWithAfterPrefix(ANALYSIS_PREFIX, name, ".txt");
  }

  // ---------------------------------------------------------------------
  // The report header and the vendor read back from it
  // ---------------------------------------------------------------------

  /** '=' * 60 */
  function Rule(): (r: string)
    ensures |r| == 60 && forall i :: 0 <= i < |r| ==> r[i] == '='
  {
    seq(60, _ => '=')
  }

  /** The header lines written before the vendor line. */
  function HeaderBeforeVendor(ip: string, hostname: string): string {
    Rule() + "\n" + "设备巡检报告\n" + Rule() + "\n" + "设备IP: " + ip + "\n" + "主机名: " + hostname + "\n"
  }

  /** What follows "厂商:" in the report: the vendor line's rest, the time line, the closing rule and the output. */
  function AfterVendorLabel(vendor: string, time: string, output: string): string {
    " " + vendor + "\n" + "巡检时间: " + time + "\n" + Rule() + "\n\n" + output
  }

  /** The text perform_inspection writes to the report file. */
  function ReportText(ip: string, hostname: string, vendor: string, time: string, output: string): string {
    HeaderBeforeVendor(ip, hostname) + VENDOR_LABEL + AfterVendorLabel(vendor, time, output)
  }

  /** The report is perform_inspection's writes, in order, with the vendor line "厂商: <vendor>". */
  lemma ReportTextLayout(ip: string, hostname: string, vendor: string, time: string, output: string)
    ensures ReportText(ip, hostname, vendor, time, output)
      == Rule() + "\n" + "设备巡检报告\n" + Rule() + "\n" + "设备IP: " + ip + "\n" + "主机名: " + hostname + "\n"
         + "厂商: " + vendor + "\n" + "巡检时间: " + time + "\n" + Rule() + "\n\n" + output
  {
  }

  const VENDOR_LABEL: string := "厂商:"

  /**
   * What `\s*(.+)` captures right after the label, with Python's
   * backtracking: `\s*` takes the longest run of whitespace, newlines
   * included; if text follows, `.+` captures it up to the end of its line;
   * if the rest is all whitespace, `\s*` gives characters back until `.+`
   * can take one that is not a newline.
   */
  function CaptureAfterLabel(s: string): (r: Option<string>)
    ensures r.Some? ==> r.value != [] && '\n' !in r.value
  {
    var t := TrimLeft(s);
    if t != [] then
      var line := t[..IndexOf(t, '\n')];
      assert line != [] by { assert t[0] != '\n'; }
      Some(line)
    else LastNonNewline(s)
  }

  /** The last character of s that is not a newline, as a one-character string. */
  function LastNonNewline(s: string): (r: Option<string>)
    ensures r.Some? ==> |r.value| == 1 && r.value[0] != '\n'
  {
    if s == [] then None
    else if s[|s| - 1] != '\n' then Some([s[|s| - 1]])
    else LastNonNewline(s[..|s| - 1])
  }

  /** re.search(r'厂商:\s*(.+)', content).group(1): the leftmost position where the pattern matches. */
  function SearchVendor(content: string): (r: Option<string>)
    ensures !Contains(content, VENDOR_LABEL) ==> r.None?
    ensures r.Some? ==> r.value != [] && '\n' !in r.value
    decreases |content|
  {
    if content == [] then None
    else if StartsWith(content, VENDOR_LABEL) && CaptureAfterLabel(content[|VENDOR_LABEL|..]).Some? then
      CaptureAfterLabel(content[|VENDOR_LABEL|..])
    else SearchVendor(content[1..])
  }

  /**
   * extract_vendor_from_inspection_file as written: the stripped capture,
   * or 'Huawei' when the pattern does not match anywhere.
   */
  function ExtractVendor(content: string): (vendor: string)
    ensures SearchVendor(content).None? ==> vendor == "Huawei"
  {
    match SearchVendor(content)
    case Some(g) => Strip(g)
    case None => "Huawei"
  }

  /** No label starts at a character other than '厂'. */
  lemma NotAtLabel(prefix: string, rest: string)
    requires prefix != [] && prefix[0] != '厂'
    ensures prefix + rest != [] && !StartsWith(prefix + rest, VENDOR_LABEL)
  {
    var s := prefix + rest;
    assert s[0] == prefix[0];
    if |VENDOR_LABEL| <= |s| {
      assert s[..|VENDOR_LABEL|][0] == s[0];
      assert VENDOR_LABEL[0] == '厂';
    }
  }

  /** The search passes over text in which the label's first character does not occur. */
  lemma {:induction false} SearchSkipsPrefix(prefix: string, rest: string)
    requires '厂' !in prefix
    ensures SearchVendor(prefix + rest) == SearchVendor(rest)
  {
    if prefix != [] {
      var s := prefix + rest;
      assert prefix[0] in prefix;
      NotAtLabel(prefix, rest);
      assert s[1..] == prefix[1..] + rest;
      assert '厂' !in prefix[1..] by { assert forall c :: c in prefix[1..] ==> c in prefix; }
      SearchSkipsPrefix(prefix[1..], rest);
    } else {
      assert prefix + rest == rest;
    }
  }

  /** The first "厂商:" of a report is the one of its vendor line. */
  lemma SearchFromVendorLine(ip: string, hostname: string, vendor: string, time: string, output: string)
    requires '厂' !in ip && '厂' !in hostname
    ensures SearchVendor(ReportText(ip, hostname, vendor, time, output))
         == SearchVendor(VENDOR_LABEL + AfterVendorLabel(vendor, time, output))
  {
    var pre := HeaderBeforeVendor(ip, hostname);
    assert '厂' !in Rule();
    assert '厂' !in pre;
    assert ReportText(ip, hostname, vendor, time, output) == pre + (VENDOR_LABEL + AfterVendorLabel(vendor, time, output));
    SearchSkipsPrefix(pre, VENDOR_LABEL + AfterVendorLabel(vendor, time, output));
  }

  /** A search that starts at a label whose capture exists returns that capture. */
  lemma SearchAtLabel(rest: string)
    requires CaptureAfterLabel(rest).Some?
    ensures SearchVendor(VENDOR_LABEL + rest) == CaptureAfterLabel(rest)
  {
    var s := VENDOR_LABEL + rest;
    assert StartsWith(s, VENDOR_LABEL);
    assert s[|VENDOR_LABEL|..] == rest;
  }

  /** The capture is the first line of what remains once the leading whitespace is gone. */
  lemma CaptureOfLine(lead: string, line: string, tail: string)
    requires IsBlank(lead) && line != [] && !IsSpace(line[0]) && '\n' !in line
    ensures CaptureAfterLabel(lead + line + "\n" + tail) == Some(line)
  {
    var s := lead + line + "\n" + tail;
    var t := line + "\n" + tail;
    assert s == lead + t;
    assert TrimLeft(lead + t) == t by {
      assert t[0] == line[0];
      SkipBlank(lead, t);
    }
    assert t[..IndexOf(t, '\n')] == line by {
      FirstLine(line, tail);
    }
  }

  /** The first line of a text is what precedes its first newline. */
  lemma FirstLine(line: string, tail: string)
    requires '\n' !in line
    ensures var t := line + "\n" + tail; IndexOf(t, '\n') == |line| && t[..|line|] == line
  {
    var t := line + "\n" + tail;
    var i := IndexOf(t, '\n');
    assert t[|line|] == '\n';
    assert forall j :: 0 <= j < |line| ==> t[j] == line[j] && line[j] in line;
    assert t[..|line|] == line;
  }

  /** TrimLeft drops a whitespace prefix when what follows starts with text. */
  lemma {:induction false} SkipBlank(lead: string, rest: string)
    requires IsBlank(lead) && rest != [] && !IsSpace(rest[0])
    ensures TrimLeft(lead + rest) == rest
  {
    if lead != [] {
      assert (lead + rest)[1..] == lead[1..] + rest;
      assert (lead + rest)[0] == lead[0];
      SkipBlank(lead[1..], rest);
    } else {
      assert lead + rest == rest;
    }
  }

  /**
   * The round trip: the vendor written to a report is read back, for a
   * vendor that is non-empty, has no newline and no whitespace at either
   * end, provided the IP address and host name do not contain '厂'.
   */
  lemma VendorRoundTrip(ip: string, hostname: string, vendor: string, time: string, output: string)
    requires '厂' !in ip && '厂' !in hostname
    requires vendor != [] && '\n' !in vendor && !IsSpace(vendor[0]) && !IsSpace(vendor[|vendor| - 1])
    ensures ExtractVendor(ReportText(ip, hostname, vendor, time, output)) == vendor
  {
    var tail := "巡检时间: " + time + "\n" + Rule() + "\n\n" + output;
    var after := AfterVendorLabel(vendor, time, output);
    assert CaptureAfterLabel(after) == Some(vendor) by {
      assert after == " " + vendor + "\n" + tail;
      CaptureOfLine(" ", vendor, tail);
    }
    assert SearchVendor(ReportText(ip, hostname, vendor, time, output)) == Some(vendor) by {
      SearchAtLabel(after);
      SearchFromVendorLine(ip, hostname, vendor, time, output);
    }
    assert Strip(vendor) == vendor by {
      StripTrimmed(vendor);
    }
  }

  /**
   * The regular expression lets `\s*` run past the end of the vendor line:
   * a report written for an empty vendor reads back the next header line,
   * "巡检时间: <time>", instead of the empty vendor the caller rejects.
   */
  lemma EmptyVendorReadsTimeLine(ip: string, hostname: string, time: string, output: string)
    requires '厂' !in ip && '厂' !in hostname
    requires time != [] && '\n' !in time && !IsSpace(time[|time| - 1])
    ensures ExtractVendor(ReportText(ip, hostname, "", time, output)) == "巡检时间: " + time
  {
    var line := "巡检时间: " + time;
    var tail := Rule() + "\n\n" + output;
    var after := AfterVendorLabel("", time, output);
    assert CaptureAfterLabel(after) == Some(line) by {
      assert after == " \n" + line + "\n" + tail;
      assert '\n' !in line;
      CaptureOfLine(" \n", line, tail);
    }
    assert SearchVendor(ReportText(ip, hostname, "", time, output)) == Some(line) by {
      SearchAtLabel(after);
      SearchFromVendorLine(ip, hostname, "", time, output);
    }
    assert Strip(line) == line by {
      assert line[|line| - 1] == time[|time| - 1];
      StripTrimmed(line);
    }
  }

  /**
   * The corrected extraction: the rest of the label's own line, stripped
   * (the pattern `厂商:[^\S\n]*(.*)`); None when no line carries the label.
   */
  function SearchVendorLine(content: string): (r: Option<string>)
    ensures r.Some? ==> '\n' !in r.value
    decreases |content|
  {
    if content == [] then None
    else if StartsWith(content, VENDOR_LABEL) then
      var rest := content[|VENDOR_LABEL|..];
      Some(Strip(rest[..IndexOf(rest, '\n')]))
    else SearchVendorLine(content[1..])
  }

  /** The corrected search passes over text without the label's first character. */
  lemma {:induction false} SearchLineSkipsPrefix(prefix: string, rest: string)
    requires '厂' !in prefix
    ensures SearchVendorLine(prefix + rest) == SearchVendorLine(rest)
  {
    if prefix != [] {
      var s := prefix + rest;
      assert prefix[0] in prefix;
      NotAtLabel(prefix, rest);
      assert s[1..] == prefix[1..] + rest;
      assert '厂' !in prefix[1..] by { assert forall c :: c in prefix[1..] ==> c in prefix; }
      SearchLineSkipsPrefix(prefix[1..], rest);
    } else {
      assert prefix + rest == rest;
    }
  }

  /** Stripping one leading space off a trimmed text gives the text. */
  lemma StripPadded(v: string)
    requires v == [] || (!IsSpace(v[0]) && !IsSpace(v[|v| - 1]))
    ensures Strip(" " + v) == v
  {
    var s := " " + v;
    assert s[1..] == v;
    if v == [] {
      assert IsBlank(s);
    } else {
      SkipBlank(" ", v);
      StripTrimmed(v);
    }
  }

  /**
   * The corrected round trip holds for every newline-free vendor without
   * whitespace at its ends, the empty vendor included: it reads back as "".
   */
  lemma VendorLineRoundTrip(ip: string, hostname: string, vendor: string, time: string, output: string)
    requires '厂' !in ip && '厂' !in hostname
    requires '\n' !in vendor && (vendor == [] || (!IsSpace(vendor[0]) && !IsSpace(vendor[|vendor| - 1])))
    ensures SearchVendorLine(ReportText(ip, hostname, vendor, time, output)) == Some(vendor)
  {
    var after := AfterVendorLabel(vendor, time, output);
    SearchLineFromVendorLine(ip, hostname, vendor, time, output);
    SearchLineAtLabel(after);
    VendorLineOfAfter(vendor, time, output);
    StripPadded(vendor);
  }

  /** The line after the label is a space and the vendor. */
  lemma VendorLineOfAfter(vendor: string, time: string, output: string)
    requires '\n' !in vendor
    ensures var after := AfterVendorLabel(vendor, time, output);
      after[..IndexOf(after, '\n')] == " " + vendor
  {
    var line := " " + vendor;
    var tail := "巡检时间: " + time + "\n" + Rule() + "\n\n" + output;
    assert AfterVendorLabel(vendor, time, output) == line + "\n" + tail;
    assert '\n' !in line by {
      assert forall j :: 1 <= j < |line| ==> line[j] == vendor[j - 1];
    }
    FirstLine(line, tail);
  }

  /** The corrected search, too, finds its first label on the vendor line. */
  lemma SearchLineFromVendorLine(ip: string, hostname: string, vendor: string, time: string, output: string)
    requires '厂' !in ip && '厂' !in hostname
    ensures SearchVendorLine(ReportText(ip, hostname, vendor, time, output))
         == SearchVendorLine(VENDOR_LABEL + AfterVendorLabel(vendor, time, output))
  {
    var pre := HeaderBeforeVendor(ip, hostname);
    HeaderWithoutLabel(ip, hostname);
    assert ReportText(ip, hostname, vendor, time, output) == pre + (VENDOR_LABEL + AfterVendorLabel(vendor, time, output));
    SearchLineSkipsPrefix(pre, VENDOR_LABEL + AfterVendorLabel(vendor, time, output));
  }

  /** At the label, the corrected search reads the rest of that line. */
  lemma SearchLineAtLabel(rest: string)
    ensures SearchVendorLine(VENDOR_LABEL + rest) == Some(Strip(rest[..IndexOf(rest, '\n')]))
  {
    var s := VENDOR_LABEL + rest;
    assert StartsWith(s, VENDOR_LABEL);
    assert s[|VENDOR_LABEL|..] == rest;
  }

  /** The header before the vendor line holds no '厂', so no label. */
  lemma HeaderWithoutLabel(ip: string, hostname: string)
    requires '厂' !in ip && '厂' !in hostname
    ensures '厂' !in HeaderBeforeVendor(ip, hostname)
  {
    assert '厂' !in Rule();
  }

  // ---------------------------------------------------------------------
  // Progress stages
  // ---------------------------------------------------------------------

  /** The part of perform_inspection during which an exception is raised. */
  datatype InspectionPhase = Setup | Hostname | Commands | Writing

  /**
   * The callbacks of one perform_inspection run: connecting 10, then
   * either an error at 0 (connection refused or an exception) or
   * getting_hostname 20, executing 30, saving 70 and completed 100.
   */
  function InspectionEvents(connected: bool, raised: Option<InspectionPhase>): (events: seq<MainView.Progress>)
    ensures |events| >= 2 && events[0] == MainView.Progress("connecting", 10)
    ensures MainView.StopsPolling(Some(events[|events| - 1]))
    ensures forall k :: 0 <= k < |events| - 1 ==> !MainView.StopsPolling(Some(events[k]))
    ensures forall k :: 0 < k < |events| - 1 ==> events[k - 1].percent < events[k].percent
    ensures events[|events| - 1].stage == "completed" <==> connected && raised.None?
    ensures events[|events| - 1].stage == "error" ==> events[|events| - 1].percent == 0
    ensures events[|events| - 1].stage == "completed" ==> events[|events| - 1].percent == 100
  {
    var connecting := MainView.Progress("connecting", 10);
    var error := MainView.Progress("error", 0);
    var hostname := MainView.Progress("getting_hostname", 20);
    var executing := MainView.Progress("executing", 30);
    var saving := MainView.Progress("saving", 70);
    if raised == Some(Setup) || !connected then [connecting, error]
    else match raised
      case Some(Hostname) => [connecting, hostname, error]
      case Some(Commands) => [connecting, hostname, executing, error]
      case Some(Writing) => [connecting, hostname, executing, saving, error]
      case _ => [connecting, hostname, executing, saving, MainView.Progress("completed", 100)]
  }

  /** The outcome of one perform_inspection call. */
  datatype InspectionRun = InspectionRun(path: Option<string>, events: seq<MainView.Progress>, report: Option<string>)

  /**
   * perform_inspection: reports each stage through the callback when one is
   * given, and on success returns the path of the report, whose text is
   * the header and the command output.
   */
  method PerformInspection(inspectionDir: string, ip: string, vendor: Option<string>, reporting: bool,
                           connected: bool, raised: Option<InspectionPhase>,
                           hostname: string, output: string, timestamp: string, time: string)
    returns (run: InspectionRun)
    ensures run.events == (if reporting then InspectionEvents(connected, raised) else [])
    ensures run.path.Some? <==> connected && raised.None?
    ensures run.path.Some? ==> run.path.value == PathJoin(inspectionDir, InspectionFileName(hostname, ip, timestamp))
    ensures run.path.Some? ==> run.report == Some(ReportText(ip, hostname, vendor.GetOr("Unknown"), time, output))
    ensures run.path.None? ==> run.report.None?
  {
    // The stages in the order perform_inspection reaches them; the callback
    // sees them only when one was given.
    var trace := [MainView.Progress("connecting", 10)];
    var path: Option<string> := None;
    var report: Option<string> := None;
    if raised == Some(Setup) || !connected {
      trace := trace + [MainView.Progress("error", 0)];
      assert trace == InspectionEvents(connected, raised);
    } else {
      trace := trace + [MainView.Progress("getting_hostname", 20)];
      if raised == Some(Hostname) {
        trace := trace + [MainView.Progress("error", 0)];
        assert trace == InspectionEvents(connected, raised);
      } else {
        trace := trace + [MainView.Progress("executing", 30)];
        if raised == Some(Commands) {
          trace := trace + [MainView.Progress("error", 0)];
          assert trace == InspectionEvents(connected, raised);
        } else {
          trace := trace + [MainView.Progress("saving", 70)];
          if raised.Some? {
            // the exception is raised while the report is written
            trace := trace + [MainView.Progress("error", 0)];
            assert trace == InspectionEvents(connected, raised);
          } else {
            var filename := InspectionFileName(hostname, ip, timestamp);
            report := Some(ReportText(ip, hostname, vendor.GetOr("Unknown"), time, output));
            trace := trace + [MainView.Progress("completed", 100)];
            assert trace == InspectionEvents(connected, raised);
            path := Some(PathJoin(inspectionDir, filename));
          }
        }
      }
    }
    run := InspectionRun(path, if reporting then trace else [], report);
  }

  /** The part of analyze_inspection during which an exception is raised. */
  datatype AnalysisPhase = Reading | Saving

  /** The callbacks of one analyze_inspection run: reading 10, analyzing 30, saving 80, completed 100. */
  function AnalysisEvents(raised: Option<AnalysisPhase>): (events: seq<MainView.Progress>)
    ensures |events| >= 2 && events[0] == MainView.Progress("reading", 10)
    ensures MainView.StopsPolling(Some(events[|events| - 1]))
    ensures forall k :: 0 <= k < |events| - 1 ==> !MainView.StopsPolling(Some(events[k]))
    ensures forall k :: 0 < k < |events| - 1 ==> events[k - 1].percent < events[k].percent
    ensures events[|events| - 1].stage == "completed" <==> raised.None?
    ensures events[|events| - 1].stage == "error" ==> events[|events| - 1].percent == 0
  {
    var reading := MainView.Progress("reading", 10);
    var error := MainView.Progress("error", 0);
    match raised
    case Some(Reading) => [reading, error]
    case Some(Saving) => [reading, MainView.Progress("analyzing", 30), MainView.Progress("saving", 80), error]
    case None => [reading, MainView.Progress("analyzing", 30), MainView.Progress("saving", 80), MainView.Progress("completed", 100)]
  }

  /** The path analyze_inspection returns: the analysis directory and the derived name, unless it raised. */
  function AnalyzeInspection(analysisDir: string, inspectionFile: string, raised: Option<AnalysisPhase>): (path: Option<string>)
    ensures path.Some? <==> raised.None?
    ensures path.Some? ==> EndsWith(path.value, AnalysisFileName(inspectionFile))
  {
    if raised.Some? then None else Some(PathJoin(analysisDir, AnalysisFileName(inspectionFile)))
  }

  // ---------------------------------------------------------------------
  // Report listings
  // ---------------------------------------------------------------------

  /** One name of os.listdir with the size and formatted mtime os.stat gives for it. */
  datatype DirEntry = DirEntry(name: string, size: nat, modified: string)

  /** One row of get_inspection_files / get_analysis_files. */
  datatype FileInfo = FileInfo(name: string, path: string, size: nat, modified: string)

  /** Python's string comparison a <= b: lexicographic on code points. */
  predicate LexLe(a: string, b: string)
    decreases |a|
  {
    a == [] || (b != [] && (a[0] < b[0] || (a[0] == b[0] && LexLe(a[1..], b[1..]))))
  }

  lemma {:induction false} LexLeTotal(a: string, b: string)
    ensures LexLe(a, b) || LexLe(b, a)
    decreases |a|
  {
    if a != [] && b != [] && a[0] == b[0] {
      LexLeTotal(a[1..], b[1..]);
    }
  }

  lemma {:induction false} LexLeTransitive(a: string, b: string, c: string)
    requires LexLe(a, b) && LexLe(b, c)
    ensures LexLe(a, c)
    decreases |a|
  {
    if a != [] && b != [] && c != [] && a[0] == b[0] && b[0] == c[0] {
      LexLeTransitive(a[1..], b[1..], c[1..]);
    }
  }

  /** Newest first: each row's modified string is at least the next one's. */
  predicate SortedDescending(files: seq<FileInfo>) {
    forall i, j :: 0 <= i < j < |files| ==> LexLe(files[j].modified, files[i].modified)
  }

  /**
   * Places f after every row whose modified string is at least its own, so
   * rows with equal times keep their order (sort with reverse=True is stable).
   */
  function InsertByModified(sorted: seq<FileInfo>, f: FileInfo): (r: seq<FileInfo>)
    ensures multiset(r) == multiset(sorted) + multiset{f}
    ensures |r| == |sorted| + 1
  {
    if sorted == [] then [f]
    else if LexLe(f.modified, sorted[0].modified) then
      assert sorted == [sorted[0]] + sorted[1..];
      [sorted[0]] + InsertByModified(sorted[1..], f)
    else [f] + sorted
  }

  /** Inserting into a list sorted newest first keeps it sorted. */
  lemma {:induction false} InsertKeepsSorted(sorted: seq<FileInfo>, f: FileInfo)
    requires SortedDescending(sorted)
    ensures SortedDescending(InsertByModified(sorted, f))
  {
    var r := InsertByModified(sorted, f);
    if sorted != [] {
      if LexLe(f.modified, sorted[0].modified) {
        var rest := InsertByModified(sorted[1..], f);
        InsertKeepsSorted(sorted[1..], f);
        assert r == [sorted[0]] + rest;
        forall j | 0 < j < |r|
          ensures LexLe(r[j].modified, r[0].modified)
        {
          assert r[j] in multiset(rest);
          assert r[j] in multiset(sorted[1..]) || r[j] == f;
          if r[j] != f {
            var k :| 0 <= k < |sorted[1..]| && sorted[1..][k] == r[j];
            assert sorted[k + 1] == r[j];
          }
        }
      } else {
        assert r == [f] + sorted;
        LexLeTotal(f.modified, sorted[0].modified);
        forall j | 0 < j < |r|
          ensures LexLe(r[j].modified, r[0].modified)
        {
          if j > 1 {
            assert r[j] == sorted[j - 1];
            LexLeTransitive(sorted[j - 1].modified, sorted[0].modified, f.modified);
          }
        }
      }
    }
  }

  /** files.sort(key=modified, reverse=True), as a stable insertion sort. */
  function SortByModified(files: seq<FileInfo>): (r: seq<FileInfo>)
    ensures multiset(r) == multiset(files)
    ensures SortedDescending(r)
  {
    if files == [] then []
    else
      var init := files[..|files| - 1];
      var last := files[|files| - 1];
      var sorted := SortByModified(init);
      assert multiset(files) == multiset(init) + multiset{last} by {
        assert files == init + [last];
      }
      InsertKeepsSorted(sorted, last);
      InsertByModified(sorted, last)
  }

  /** The rows for the ".txt" names of a directory listing, in listing order. */
  function TxtRows(directory: string, listing: seq<DirEntry>): (rows: seq<FileInfo>)
    ensures |rows| <= |listing|
  {
    if listing == [] then []
    else
      var e := listing[|listing| - 1];
      var init := TxtRows(directory, listing[..|listing| - 1]);
      if EndsWith(e.name, ".txt") then init + [FileInfo(e.name, PathJoin(directory, e.name), e.size, e.modified)]
      else init
  }

  /** Exactly the ".txt" names of the listing appear among the rows. */
  lemma {:induction false} TxtRowsNames(directory: string, listing: seq<DirEntry>)
    ensures forall f :: f in TxtRows(directory, listing) ==> EndsWith(f.name, ".txt") && f.path == PathJoin(directory, f.name)
    ensures forall e :: e in listing && EndsWith(e.name, ".txt") ==> FileInfo(e.name, PathJoin(directory, e.name), e.size, e.modified) in TxtRows(directory, listing)
  {
    if listing != [] {
      var init := listing[..|listing| - 1];
      TxtRowsNames(directory, init);
      assert listing == init + [listing[|listing| - 1]];
      forall e | e in listing
        ensures e in init || e == listing[|listing| - 1]
      {
      }
    }
  }

  /**
   * get_inspection_files / get_analysis_files: the ".txt" entries of the
   * directory, newest first; nothing when the directory does not exist.
   */
  method ListReportFiles(directory: string, dirExists: bool, listing: seq<DirEntry>) returns (files: seq<FileInfo>)
    ensures !dirExists ==> files == []
    ensures dirExists ==> multiset(files) == multiset(TxtRows(directory, listing))
    ensures forall f :: f in files ==> EndsWith(f.name, ".txt") && f.path == PathJoin(directory, f.name)
    ensures SortedDescending(files)
  {
    files := [];
    if dirExists {
      for i := 0 to |listing|
        invariant files == TxtRows(directory, listing[..i])
      {
        assert listing[..i + 1][..i] == listing[..i];
        var e := listing[i];
        if EndsWith(e.name, ".txt") {
          files := files + [FileInfo(e.name, PathJoin(directory, e.name), e.size, e.modified)];
        }
      }
      assert listing[..|listing|] == listing;
      TxtRowsNames(directory, listing);
    }
    var unsorted := files;
    files := SortByModified(files);
    forall f | f in files
      ensures f in unsorted
    {
      assert f in multiset(files);
    }
  }

  // ---------------------------------------------------------------------
  // Deleting a report
  // ---------------------------------------------------------------------

  /**
   * delete_file over the set of existing paths: True and the path gone
   * when it existed and os.remove succeeded; False and nothing changed
   * otherwise.
   */
  function DeleteFile(existing: set<string>, path: string, removeFails: bool): (r: (bool, set<string>))
    ensures r.0 <==> path in existing && !removeFails
    ensures r.0 ==> r.1 == existing - {path} && path !in r.1
    ensures !r.0 ==> r.1 == existing
  {
    if path in existing && !removeFails then (true, existing - {path}) else (false, existing)
  }

  /** A second deletion of the same path reports False. */
  lemma DeleteTwice(existing: set<string>, path: string, fails: bool)
    ensures !DeleteFile(DeleteFile(existing, path, false).1, path, fails).0
  {
  }
}
