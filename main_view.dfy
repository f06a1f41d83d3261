/**
 * The rules of the main page script (static/js/main.js): the dashboard
 * counters, the severity classes of a monitoring result, which metric tiles
 * are shown, the validation and splitting of an inspection request, the
 * condition that ends progress polling, the tab switch's effect on the
 * dashboard scheduler, and the add-device modal's required fields.
 */
module MainView {
  import opened Wrappers
  import opened Text
  import Dashboard

  /** The number of devices whose status is exactly `status`. */
  function CountWith(statuses: seq<string>, status: string): (n: nat)
    ensures n <= |statuses|
  {
    if statuses == [] then 0
    else CountWith(statuses[..|statuses| - 1], status) + (if statuses[|statuses| - 1] == status then 1 else 0)
  }

  datatype Metrics = Metrics(total: nat, online: nat, offline: nat)

  /** updateDashboardMetrics: the total, and the devices whose status is exactly 'online' or 'offline'. */
  function DashboardMetrics(statuses: seq<string>): (m: Metrics)
    ensures m.total == |statuses|
  {
    Metrics(|statuses|, CountWith(statuses, "online"), CountWith(statuses, "offline"))
  }

  /** The number of devices with neither status: they appear in the total only. */
  function CountOther(statuses: seq<string>): (n: nat)
  {
    if statuses == [] then 0
    else
      var last := statuses[|statuses| - 1];
      CountOther(statuses[..|statuses| - 1]) + (if last != "online" && last != "offline" then 1 else 0)
  }

  /** Every device is counted online, offline or only in the total; the two counters add up exactly when none is 'unknown'. */
  lemma {:induction false} MetricsPartition(statuses: seq<string>)
    ensures DashboardMetrics(statuses).online + DashboardMetrics(statuses).offline + CountOther(statuses) == |statuses|
    ensures CountOther(statuses) == 0 <==> forall k :: 0 <= k < |statuses| ==> statuses[k] in {"online", "offline"}
  {
    if statuses != [] {
      var init := statuses[..|statuses| - 1];
      MetricsPartition(init);
      assert forall k :: 0 <= k < |init| ==> init[k] == statuses[k];
    }
  }

  datatype Level = Normal | Warning | Danger

  function Rank(l: Level): nat {
    match l
    case Normal => 0
    case Warning => 1
    case Danger => 2
  }

  /** `v > high ? 'danger' : (v > mid ? 'warning' : '')` */
  function Severity(v: int, high: int, mid: int): (l: Level)
    requires mid <= high
    ensures l == Danger <==> v > high
    ensures l == Warning <==> mid < v <= high
    ensures l == Normal <==> v <= mid
  {
    if v > high then Danger else if v > mid then Warning else Normal
  }

  /** CPU and memory: danger above 80, warning above 60. */
  function UsageClass(v: int): (l: Level)
    ensures l == Severity(v, 80, 60)
  {
    Severity(v, 80, 60)
  }

  /** Temperature: danger above 70, warning above 50. */
  function TemperatureClass(v: int): (l: Level)
    ensures l == Severity(v, 70, 50)
  {
    Severity(v, 70, 50)
  }

  /** A higher reading never gets a milder class. */
  lemma SeverityMonotone(v: int, w: int, high: int, mid: int)
    requires mid <= high && v <= w
    ensures Rank(Severity(v, high, mid)) <= Rank(Severity(w, high, mid))
  {
  }

  datatype Metric = Cpu | Memory | Temperature
  datatype Tile = Tile(metric: Metric, value: int, level: Level)

  /** The tile of one metric: none without a reading, otherwise the reading with its class. */
  function TileOf(metric: Metric, v: Option<int>): (r: seq<Tile>)
    ensures |r| <= 1 && (r != [] <==> v.Some?)
    ensures v.Some? ==> r[0].metric == metric && r[0].value == v.value
    ensures v.Some? && metric == Temperature ==> r[0].level == TemperatureClass(v.value)
    ensures v.Some? && metric != Temperature ==> r[0].level == UsageClass(v.value)
  {
    match v
    case None => []
    case Some(x) => [Tile(metric, x, if metric == Temperature then TemperatureClass(x) else UsageClass(x))]
  }

  /** displayMonitorResult: metric tiles only for an online device, one per reported metric, in order. */
  function MetricTiles(status: string, cpu: Option<int>, memory: Option<int>, temperature: Option<int>): (tiles: seq<Tile>)
    ensures status != "online" ==> tiles == []
    ensures status == "online" ==>
      |tiles| == (if cpu.Some? then 1 else 0) + (if memory.Some? then 1 else 0) + (if temperature.Some? then 1 else 0)
    ensures status == "online" ==>
      tiles == TileOf(Cpu, cpu) + TileOf(Memory, memory) + TileOf(Temperature, temperature)
    ensures forall k :: 0 <= k < |tiles| ==>
      tiles[k].level == if tiles[k].metric == Temperature then TemperatureClass(tiles[k].value) else UsageClass(tiles[k].value)
  {
    if status != "online" then []
    else TileOf(Cpu, cpu) + TileOf(Memory, memory) + TileOf(Temperature, temperature)
  }

  /** commandsText.split('\n').filter(cmd => cmd.trim()): the non-blank lines, untrimmed, in order. */
  function NonBlankLines(lines: seq<string>): (cmds: seq<string>)
    ensures |cmds| <= |lines|
    ensures forall k :: 0 <= k < |cmds| ==> !IsBlank(cmds[k]) && cmds[k] in lines
    ensures forall l :: l in lines && !IsBlank(l) ==> l in cmds
  {
    if lines == [] then []
    else (if IsBlank(lines[0]) then [] else [lines[0]]) + NonBlankLines(lines[1..])
  }

  /** One line is kept exactly when it is not blank. */
  lemma NonBlankLinesOne(line: string)
    ensures NonBlankLines([line]) == if IsBlank(line) then [] else [line]
  {
    assert [line][1..] == [];
  }

  /** The filter distributes over concatenation, so the kept lines stay in their order. */
  lemma {:induction false} NonBlankLinesAppend(a: seq<string>, b: seq<string>)
    ensures NonBlankLines(a + b) == NonBlankLines(a) + NonBlankLines(b)
  {
    if a == [] {
      assert a + b == b;
    } else {
      assert (a + b)[1..] == a[1..] + b;
      NonBlankLinesAppend(a[1..], b);
    }
  }

  /** Only blank lines leave nothing. */
  lemma {:induction false} NonBlankLinesEmpty(lines: seq<string>)
    requires NonBlankLines(lines) == []
    ensures forall k :: 0 <= k < |lines| ==> IsBlank(lines[k])
  {
    if lines != [] {
      NonBlankLinesEmpty(lines[1..]);
      assert forall k :: 1 <= k < |lines| ==> lines[k] == lines[1..][k - 1];
    }
  }

  datatype InspectionRequest = InspectionRequest(deviceId: string, commands: seq<string>)

  /** startInspection: no request without a device or with blank commands; otherwise the non-blank lines. */
  function StartInspection(deviceId: string, commandsText: string): (r: Result<InspectionRequest, string>)
    ensures r.Err? <==> deviceId == "" || IsBlank(commandsText)
    ensures r.Ok? ==> r.value.deviceId == deviceId && r.value.commands == NonBlankLines(Lines(commandsText))
  {
    if deviceId == "" then Err("请先选择设备")
    else if Strip(commandsText) == "" then Err("请先生成巡检命令")
    else Ok(InspectionRequest(deviceId, NonBlankLines(Lines(commandsText))))
  }

  /** An accepted request always carries at least one command. */
  lemma AcceptedInspectionHasCommands(deviceId: string, commandsText: string)
    requires StartInspection(deviceId, commandsText).Ok?
    ensures |StartInspection(deviceId, commandsText).value.commands| >= 1
  {
    var lines := Lines(commandsText);
    if NonBlankLines(lines) == [] {
      NonBlankLinesEmpty(lines);
      JoinSplit(commandsText, '\n');
      JoinBlank(lines, "\n");
      assert false;
    }
  }

  /** One answer of the progress endpoint: None when the request failed or carried no progress. */
  datatype Progress = Progress(stage: string, percent: int)

  /** The polling interval is cleared exactly on a 'completed' or 'error' stage. */
  predicate StopsPolling(reply: Option<Progress>) {
    reply.Some? && (reply.value.stage == "completed" || reply.value.stage == "error")
  }

  /**
   * monitorInspectionProgress: one reply per tick of the 2-second interval;
   * the interval is cleared on the first reply that ends the task.  Returns
   * how many ticks ran and whether the interval was cleared.
   */
  method MonitorInspectionProgress(replies: seq<Option<Progress>>) returns (ticks: nat, cleared: bool)
    ensures ticks <= |replies|
    ensures cleared ==> ticks >= 1 && StopsPolling(replies[ticks - 1])
    ensures !cleared ==> ticks == |replies|
    ensures forall k :: 0 <= k < ticks - (if cleared then 1 else 0) ==> !StopsPolling(replies[k])
  {
    ticks, cleared := 0, false;
    while ticks < |replies| && !cleared
      invariant ticks <= |replies|
      invariant cleared ==> ticks >= 1 && StopsPolling(replies[ticks - 1])
      invariant forall k :: 0 <= k < ticks - (if cleared then 1 else 0) ==> !StopsPolling(replies[k])
      decreases |replies| - ticks, if cleared then 0 else 1
    {
      var reply := replies[ticks];
      ticks := ticks + 1;
      if reply.Some? && (reply.value.stage == "completed" || reply.value.stage == "error") {
        cleared := true;
      }
    }
  }

  /**
   * switchTab's effect on the dashboard refresh: the dashboard tab restarts
   * it, the device detail tab stops it, other tabs leave it alone.  The
   * clock reading and the stored rates are parameters.
   */
  method SwitchTab(scheduler: Dashboard.Scheduler, tabId: string,
                   storedCpu: Option<int>, storedStatus: Option<int>, seconds: int, millis: int)
    requires scheduler.Valid()
    requires 0 <= seconds < 60 && 0 <= millis < 1000
    modifies scheduler
    ensures scheduler.Valid()
    ensures tabId == "dashboard" ==>
      scheduler.State() == Dashboard.RestartSpec(old(scheduler.State()),
        Dashboard.RefreshRate(storedCpu, Dashboard.DEFAULT_CPU_REFRESH),
        Dashboard.RefreshRate(storedStatus, Dashboard.DEFAULT_DEVICE_STATUS_REFRESH), seconds, millis)
    ensures tabId == "device-detail" ==> scheduler.State() == Dashboard.StopSpec(old(scheduler.State()))
    ensures tabId != "dashboard" && tabId != "device-detail" ==> scheduler.State() == old(scheduler.State())
  {
    if tabId == "dashboard" {
      scheduler.Restart(storedCpu, storedStatus, seconds, millis);
    } else if tabId == "device-detail" {
      scheduler.Stop();
    }
  }

  datatype AddForm = AddForm(name: string, ip: string, port: string, username: string, password: string, vendor: string)

  /** addDeviceFromModal: ip, username, password and vendor are required; the name may be left empty. */
  function AddDeviceRequest(form: AddForm): (r: Option<AddForm>)
    ensures r.None? <==> form.ip == "" || form.username == "" || form.password == "" || form.vendor == ""
    ensures r.Some? ==> r.value == form
  {
    if form.ip == "" || form.username == "" || form.password == "" || form.vendor == "" then None
    else Some(form)
  }
}
