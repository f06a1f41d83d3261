/**
 * The dashboard refresh scheduler and its bounded chart history
 * (static/js/dashboard.js).
 *
 * The page keeps three parallel arrays of chart samples (CPU, memory, time
 * label) capped at MAX_DATA_POINTS, feeds them one averaged sample per tick,
 * and drives two timers: a slow device-status interval and a fast CPU/memory
 * interval whose start is delayed to the next :00 or :30 wall-clock second.
 */
module Dashboard {
  import opened Wrappers

  const MAX_DATA_POINTS: nat := 20
  const DEFAULT_CPU_REFRESH: int := 10000
  const DEFAULT_DEVICE_STATUS_REFRESH: int := 1800000

  // ---------------------------------------------------------------------
  // Aggregation: one sample from the device snapshot list
  // ---------------------------------------------------------------------

  /** The part of a device snapshot that the chart update reads. */
  datatype DeviceSnapshot = DeviceSnapshot(status: string, cpu: Option<int>, memory: Option<int>)

  datatype Sample = Sample(cpu: int, memory: int)

  /** devices.filter(d => d.status === 'online' && d.cpu !== null) */
  function Charted(devices: seq<DeviceSnapshot>): (r: seq<DeviceSnapshot>)
    ensures |r| <= |devices|
    ensures forall k :: 0 <= k < |r| ==> r[k].status == "online" && r[k].cpu.Some?
    ensures forall d :: d in devices && d.status == "online" && d.cpu.Some? <==> d in r
  {
    if devices == [] then []
    else
      var d := devices[0];
      (if d.status == "online" && d.cpu.Some? then [d] else []) + Charted(devices[1..])
  }

  /** The sum of the CPU values; only called on charted devices, whose cpu is present. */
  function CpuSum(ds: seq<DeviceSnapshot>): int {
    if ds == [] then 0 else ds[0].cpu.GetOr(0) + CpuSum(ds[1..])
  }

  /** The sum of the memory values, a missing value counting as 0 (`d.memory || 0`). */
  function MemorySum(ds: seq<DeviceSnapshot>): int {
    if ds == [] then 0 else ds[0].memory.GetOr(0) + MemorySum(ds[1..])
  }

  /**
   * Math.round(sum / n): the integer nearest to sum / n, halves rounded up.
   * The two inequalities say sum/n - 1/2 < r <= sum/n + 1/2, which fixes r.
   */
  function RoundedMean(sum: int, n: nat): (r: int)
    requires n > 0
    ensures 2 * n * r - n <= 2 * sum < 2 * n * r + n
  {
    var q := (2 * sum + n) / (2 * n);
    assert 2 * sum + n == 2 * n * q + (2 * sum + n) % (2 * n);
    q
  }

  /** The averaged sample of updateCharts, or None when no device is charted. */
  function Aggregate(devices: seq<DeviceSnapshot>): (r: Option<Sample>)
    ensures r.None? <==> Charted(devices) == []
    ensures r.Some? ==>
      var n := |Charted(devices)|;
      && 2 * n * r.value.cpu - n <= 2 * CpuSum(Charted(devices)) < 2 * n * r.value.cpu + n
      && 2 * n * r.value.memory - n <= 2 * MemorySum(Charted(devices)) < 2 * n * r.value.memory + n
  {
    var online := Charted(devices);
    if online == [] then None
    else Some(Sample(RoundedMean(CpuSum(online), |online|), RoundedMean(MemorySum(online), |online|)))
  }

  /** One device is charted exactly when it is online with a CPU reading. */
  lemma ChartedOne(d: DeviceSnapshot)
    ensures Charted([d]) == if d.status == "online" && d.cpu.Some? then [d] else []
  {
    assert [d][1..] == [];
  }

  /** Filtering distributes over concatenation, so the charted devices keep their order. */
  lemma {:induction false} ChartedAppend(a: seq<DeviceSnapshot>, b: seq<DeviceSnapshot>)
    ensures Charted(a + b) == Charted(a) + Charted(b)
  {
    if a == [] {
      assert a + b == b;
    } else {
      assert (a + b)[1..] == a[1..] + b;
      ChartedAppend(a[1..], b);
    }
  }

  /** Offline devices do not take part in the average, whatever their readings. */
  lemma {:induction false} OfflineDevicesIgnored(devices: seq<DeviceSnapshot>, d: DeviceSnapshot)
    requires d.status != "online"
    ensures Charted(devices + [d]) == Charted(devices)
  {
    if devices == [] {
      assert Charted([d]) == [] + Charted([]);
    } else {
      assert (devices + [d])[1..] == devices[1..] + [d];
      OfflineDevicesIgnored(devices[1..], d);
    }
  }

  /**
   * The worked example: two online devices at 50 and 51, one offline at 90.
   * Both means are halves (50.5 and 20.5) and round up.
   */
  lemma AggregateExample()
    ensures Aggregate([DeviceSnapshot("online", Some(50), Some(41)),
                       DeviceSnapshot("online", Some(51), None),
                       DeviceSnapshot("offline", Some(90), Some(90))])
            == Some(Sample(51, 21))
  {
  }

  // ---------------------------------------------------------------------
  // The bounded history
  // ---------------------------------------------------------------------

  /** The last n elements of s (all of s when it is shorter). */
  function LastN<T>(s: seq<T>, n: nat): (r: seq<T>)
    ensures |r| == if |s| <= n then |s| else n
    ensures r == s[|s| - |r|..]
  {
    if |s| <= n then s else s[|s| - n..]
  }

  /** Taking the window twice is taking it once on the concatenation. */
  lemma LastNOfLastN<T>(a: seq<T>, b: seq<T>, n: nat)
    ensures LastN(LastN(a, n) + b, n) == LastN(a + b, n)
  {
    var la := LastN(a, n);
    if |la + b| > n {
      assert (la + b)[|la + b| - n..] == (a + b)[|a + b| - n..];
    } else {
      assert la + b == (a + b)[|a + b| - |la + b|..];
    }
  }

  /** The history after feeding it the samples xs one at a time (what repeated updateCharts does). */
  function Fed<T>(s: seq<T>, xs: seq<T>): seq<T>
    decreases |xs|
  {
    if xs == [] then s else Fed(LastN(s + [xs[0]], MAX_DATA_POINTS), xs[1..])
  }

  /** FIFO eviction law: the history always holds the most recent MAX_DATA_POINTS samples, in order. */
  lemma {:induction false} FifoLaw<T>(s: seq<T>, xs: seq<T>)
    requires |s| <= MAX_DATA_POINTS
    ensures Fed(s, xs) == LastN(s + xs, MAX_DATA_POINTS)
    decreases |xs|
  {
    if xs == [] {
      assert s + xs == s;
    } else {
      var s' := LastN(s + [xs[0]], MAX_DATA_POINTS);
      FifoLaw(s', xs[1..]);
      LastNOfLastN(s + [xs[0]], xs[1..], MAX_DATA_POINTS);
      assert s + [xs[0]] + xs[1..] == s + xs;
    }
  }

  /** Feeding more than MAX_DATA_POINTS samples keeps exactly the last MAX_DATA_POINTS of them. */
  lemma FeedingManyKeepsLatest<T>(s: seq<T>, xs: seq<T>)
    requires |s| <= MAX_DATA_POINTS <= |xs|
    ensures Fed(s, xs) == xs[|xs| - MAX_DATA_POINTS..]
  {
    FifoLaw(s, xs);
    assert (s + xs)[|s + xs| - MAX_DATA_POINTS..] == xs[|xs| - MAX_DATA_POINTS..];
  }

  /** One append: the new sample is last, and a full buffer loses exactly its oldest element. */
  lemma AppendOne<T>(s: seq<T>, x: T)
    requires |s| <= MAX_DATA_POINTS
    ensures var r := LastN(s + [x], MAX_DATA_POINTS);
      && |r| <= MAX_DATA_POINTS
      && r[|r| - 1] == x
      && (|s| < MAX_DATA_POINTS ==> r == s + [x])
      && (|s| == MAX_DATA_POINTS ==> r == s[1..] + [x])
  {
  }

  /** The three parallel arrays cpuHistory, memoryHistory and timeLabels. */
  class History {
    var cpuHistory: seq<int>
    var memoryHistory: seq<int>
    var timeLabels: seq<string>

    /** The arrays stay parallel and bounded. */
    ghost predicate Valid()
      reads this
    {
      |cpuHistory| == |memoryHistory| == |timeLabels| <= MAX_DATA_POINTS
    }

    constructor ()
      ensures Valid()
      ensures cpuHistory == [] && memoryHistory == [] && timeLabels == []
    {
      cpuHistory, memoryHistory, timeLabels := [], [], [];
    }

    /** push onto the three arrays, then shift all three when the cap is exceeded. */
    method Append(cpu: int, memory: int, timeLabel: string)
      requires Valid()
      modifies this
      ensures Valid()
      ensures cpuHistory == LastN(old(cpuHistory) + [cpu], MAX_DATA_POINTS)
      ensures memoryHistory == LastN(old(memoryHistory) + [memory], MAX_DATA_POINTS)
      ensures timeLabels == LastN(old(timeLabels) + [timeLabel], MAX_DATA_POINTS)
    {
      cpuHistory := cpuHistory + [cpu];
      memoryHistory := memoryHistory + [memory];
      timeLabels := timeLabels + [timeLabel];
      if |cpuHistory| > MAX_DATA_POINTS {
        cpuHistory := cpuHistory[1..];
        memoryHistory := memoryHistory[1..];
        timeLabels := timeLabels[1..];
      }
    }

    /**
     * updateCharts(devices): appends the averaged sample, or leaves the
     * history alone when no online device reports a CPU value.  The time
     * timeLabel comes from the clock and is a parameter here.
     */
    method UpdateCharts(devices: seq<DeviceSnapshot>, timeLabel: string)
      requires Valid()
      modifies this
      ensures Valid()
      ensures Aggregate(devices).None? ==>
        cpuHistory == old(cpuHistory) && memoryHistory == old(memoryHistory) && timeLabels == old(timeLabels)
      ensures Aggregate(devices).Some? ==>
        var s := Aggregate(devices).value;
        && cpuHistory == LastN(old(cpuHistory) + [s.cpu], MAX_DATA_POINTS)
        && memoryHistory == LastN(old(memoryHistory) + [s.memory], MAX_DATA_POINTS)
        && timeLabels == LastN(old(timeLabels) + [timeLabel], MAX_DATA_POINTS)
    {
      var sample := Aggregate(devices);
      if sample.None? {
        return;
      }
      Append(sample.value.cpu, sample.value.memory, timeLabel);
    }
  }

  // ---------------------------------------------------------------------
  // Wall-clock alignment of the fast cycle
  // ---------------------------------------------------------------------

  /**
   * delayToNextSync in initDashboard: the milliseconds from now (seconds and
   * milliseconds within the current minute) to the next :00 or :30 second.
   * On an exact boundary it waits a full 30 s rather than 0.
   */
  function DelayToNextSync(seconds: int, millis: int): (delay: int)
    requires 0 <= seconds < 60 && 0 <= millis < 1000
    ensures 1 <= delay <= 30000
    ensures (seconds * 1000 + millis + delay) % 30000 == 0
    ensures delay == 30000 - (seconds * 1000 + millis) % 30000
  {
    var targetSecond := if seconds < 30 then 30 else 60;
    (targetSecond - seconds) * 1000 - millis
  }

  /** parseInt(localStorage.getItem(key) || default): a stored rate, or the default. */
  function RefreshRate(stored: Option<int>, default: int): (rate: int)
    ensures stored.None? ==> rate == default
    ensures stored.Some? ==> rate == stored.value
  {
    stored.GetOr(default)
  }

  // ---------------------------------------------------------------------
  // Timer handles
  // ---------------------------------------------------------------------

  /** A live browser timer: the two intervals and the one-shot alignment timeout. */
  datatype Timer = CpuTick(rate: int) | StatusTick(rate: int) | Alignment(rate: int, delay: int)

  /**
   * The scheduler's stored handles and the browser's table of live timers.
   * Handles are positive, as the browser's are, and never reused.
   */
  datatype SchedulerState = SchedulerState(
    cpuRefreshInterval: Option<nat>,
    deviceStatusRefreshInterval: Option<nat>,
    live: map<nat, Timer>,
    nextHandle: nat)

  ghost predicate WellFormed(st: SchedulerState) {
    && st.nextHandle >= 1
    && (forall h :: h in st.live ==> 1 <= h < st.nextHandle)
    && (st.cpuRefreshInterval.Some? ==>
          st.cpuRefreshInterval.value in st.live && st.live[st.cpuRefreshInterval.value].CpuTick?)
    && (st.deviceStatusRefreshInterval.Some? ==>
          st.deviceStatusRefreshInterval.value in st.live && st.live[st.deviceStatusRefreshInterval.value].StatusTick?)
  }

  function InitialState(): (st: SchedulerState)
    ensures WellFormed(st) && st.live == map[]
  {
    SchedulerState(None, None, map[], 1)
  }

  /**
   * initDashboard: schedules the alignment timeout (its handle is dropped)
   * and installs the device-status interval, storing its handle.
   */
  function InitSpec(st: SchedulerState, cpuRate: int, statusRate: int, seconds: int, millis: int): (r: SchedulerState)
    requires 0 <= seconds < 60 && 0 <= millis < 1000
    requires WellFormed(st)
    ensures WellFormed(r)
    ensures r.deviceStatusRefreshInterval == Some(st.nextHandle + 1)
    ensures r.cpuRefreshInterval == st.cpuRefreshInterval
    ensures r.live == st.live[st.nextHandle := Alignment(cpuRate, DelayToNextSync(seconds, millis))]
                              [st.nextHandle + 1 := StatusTick(statusRate)]
  {
    var a := st.nextHandle;
    SchedulerState(st.cpuRefreshInterval, Some(a + 1),
                   st.live[a := Alignment(cpuRate, DelayToNextSync(seconds, millis))][a + 1 := StatusTick(statusRate)],
                   a + 2)
  }

  /** stopDashboardRefresh: clears each stored interval that is set and nulls both handles. */
  function StopSpec(st: SchedulerState): (r: SchedulerState)
    requires WellFormed(st)
    ensures WellFormed(r)
    ensures r.cpuRefreshInterval.None? && r.deviceStatusRefreshInterval.None?
    ensures r.live.Keys == st.live.Keys - StoredHandles(st)
    ensures forall h :: h in r.live ==> r.live[h] == st.live[h]
  {
    var live1 := if st.cpuRefreshInterval.Some? then st.live - {st.cpuRefreshInterval.value} else st.live;
    var live2 := if st.deviceStatusRefreshInterval.Some? then live1 - {st.deviceStatusRefreshInterval.value} else live1;
    SchedulerState(None, None, live2, st.nextHandle)
  }

  function StoredHandles(st: SchedulerState): set<nat> {
    (if st.cpuRefreshInterval.Some? then {st.cpuRefreshInterval.value} else {})
    + (if st.deviceStatusRefreshInterval.Some? then {st.deviceStatusRefreshInterval.value} else {})
  }

  /** The alignment timeout fires: it installs the CPU interval and stores its handle. */
  function FireAlignmentSpec(st: SchedulerState, h: nat): (r: SchedulerState)
    requires WellFormed(st) && h in st.live && st.live[h].Alignment?
    ensures WellFormed(r)
    ensures r.cpuRefreshInterval == Some(st.nextHandle)
    ensures r.live == (st.live - {h})[st.nextHandle := CpuTick(st.live[h].rate)]
  {
    var c := st.nextHandle;
    SchedulerState(Some(c), st.deviceStatusRefreshInterval, (st.live - {h})[c := CpuTick(st.live[h].rate)], c + 1)
  }

  /** restartDashboardRefresh: stop, then init. */
  function RestartSpec(st: SchedulerState, cpuRate: int, statusRate: int, seconds: int, millis: int): (r: SchedulerState)
    requires 0 <= seconds < 60 && 0 <= millis < 1000
    requires WellFormed(st)
    ensures WellFormed(r)
    ensures r.deviceStatusRefreshInterval.Some? && r.cpuRefreshInterval.None?
  {
    InitSpec(StopSpec(st), cpuRate, statusRate, seconds, millis)
  }

  /** Stopping twice is stopping once. */
  lemma StopIdempotent(st: SchedulerState)
    requires WellFormed(st)
    ensures StopSpec(StopSpec(st)) == StopSpec(st)
  {
  }

  /** The CPU intervals that are live. */
  function CpuTicks(live: map<nat, Timer>): set<nat> {
    set h | h in live && live[h].CpuTick?
  }

  /**
   * The alignment timeout outlives stop(): after restart and an immediate
   * stop, the pending timeout still fires and installs a CPU interval
   * that is live and stored although the dashboard was stopped.
   */
  lemma StopDuringAlignmentLeavesTimer(st: SchedulerState, cpuRate: int, statusRate: int, seconds: int, millis: int)
    requires WellFormed(st)
    requires 0 <= seconds < 60 && 0 <= millis < 1000
    ensures var stopped := StopSpec(RestartSpec(st, cpuRate, statusRate, seconds, millis));
      var pending := st.nextHandle;
      && pending in stopped.live && stopped.live[pending].Alignment?
      && var fired := FireAlignmentSpec(stopped, pending);
         fired.cpuRefreshInterval.Some? && fired.cpuRefreshInterval.value in CpuTicks(fired.live)
  {
  }

  /**
   * A start followed by a restart inside one alignment delay leaves two
   * pending timeouts; once both fire, two CPU intervals are live but only
   * one handle is stored, so a later stop() leaves one interval polling
   * for good.
   */
  lemma DoubleRestartLeaksInterval(cpuRate: int, statusRate: int, seconds: int, millis: int)
    requires 0 <= seconds < 60 && 0 <= millis < 1000
    ensures
      var s1 := RestartSpec(InitSpec(InitialState(), cpuRate, statusRate, seconds, millis),
                            cpuRate, statusRate, seconds, millis);
      && 1 in s1.live && s1.live[1].Alignment? && 3 in s1.live && s1.live[3].Alignment?
      && var s2 := FireAlignmentSpec(FireAlignmentSpec(s1, 1), 3);
         && CpuTicks(s2.live) == {5, 6}
         && CpuTicks(StopSpec(s2).live) == {5}
  {
    var s0 := InitSpec(InitialState(), cpuRate, statusRate, seconds, millis);
    var s1 := RestartSpec(s0, cpuRate, statusRate, seconds, millis);
    var s2 := FireAlignmentSpec(FireAlignmentSpec(s1, 1), 3);
    assert s2.live.Keys == {4, 5, 6};
    assert StopSpec(s2).live.Keys == {5};
  }

  // ---------------------------------------------------------------------
  // The scheduler as the page runs it
  // ---------------------------------------------------------------------

  /** The module-level handles of dashboard.js together with the browser's live timers. */
  class Scheduler {
    var cpuRefreshInterval: Option<nat>
    var deviceStatusRefreshInterval: Option<nat>
    var live: map<nat, Timer>
    var nextHandle: nat

    function State(): SchedulerState
      reads this
    {
      SchedulerState(cpuRefreshInterval, deviceStatusRefreshInterval, live, nextHandle)
    }

    ghost predicate Valid()
      reads this
    {
      WellFormed(State())
    }

    constructor ()
      ensures Valid() && State() == InitialState()
    {
      cpuRefreshInterval, deviceStatusRefreshInterval := None, None;
      live, nextHandle := map[], 1;
    }

    /** setTimeout / setInterval: registers a live timer under a fresh handle. */
    method SetTimer(t: Timer) returns (h: nat)
      requires Valid()
      modifies this
      ensures h == old(nextHandle) && nextHandle == h + 1
      ensures live == old(live)[h := t]
      ensures cpuRefreshInterval == old(cpuRefreshInterval)
      ensures deviceStatusRefreshInterval == old(deviceStatusRefreshInterval)
    {
      h := nextHandle;
      live := live[h := t];
      nextHandle := nextHandle + 1;
    }

    /** clearInterval: the timer stops being live. */
    method ClearTimer(h: nat)
      modifies this
      ensures live == old(live) - {h}
      ensures nextHandle == old(nextHandle)
      ensures cpuRefreshInterval == old(cpuRefreshInterval)
      ensures deviceStatusRefreshInterval == old(deviceStatusRefreshInterval)
    {
      live := live - {h};
    }

    /** initDashboard, with the clock reading and the stored rates as parameters. */
    method InitDashboard(storedCpu: Option<int>, storedStatus: Option<int>, seconds: int, millis: int) returns (delay: int)
      requires Valid()
      requires 0 <= seconds < 60 && 0 <= millis < 1000
      modifies this
      ensures Valid()
      ensures delay == DelayToNextSync(seconds, millis)
      ensures State() == InitSpec(old(State()), RefreshRate(storedCpu, DEFAULT_CPU_REFRESH), RefreshRate(storedStatus, DEFAULT_DEVICE_STATUS_REFRESH), seconds, millis)
    {
      var cpuRate := RefreshRate(storedCpu, DEFAULT_CPU_REFRESH);
      var statusRate := RefreshRate(storedStatus, DEFAULT_DEVICE_STATUS_REFRESH);
      delay := DelayToNextSync(seconds, millis);
      var _ := SetTimer(Alignment(cpuRate, delay));
      var s := SetTimer(StatusTick(statusRate));
      deviceStatusRefreshInterval := Some(s);
    }

    /** stopDashboardRefresh */
    method Stop()
      requires Valid()
      modifies this
      ensures Valid()
      ensures State() == StopSpec(old(State()))
    {
      if cpuRefreshInterval.Some? {
        ClearTimer(cpuRefreshInterval.value);
        cpuRefreshInterval := None;
      }
      if deviceStatusRefreshInterval.Some? {
        ClearTimer(deviceStatusRefreshInterval.value);
        deviceStatusRefreshInterval := None;
      }
    }

    /** restartDashboardRefresh */
    method Restart(storedCpu: Option<int>, storedStatus: Option<int>, seconds: int, millis: int)
      requires Valid()
      requires 0 <= seconds < 60 && 0 <= millis < 1000
      modifies this
      ensures Valid()
      ensures State() == RestartSpec(old(State()), RefreshRate(storedCpu, DEFAULT_CPU_REFRESH), RefreshRate(storedStatus, DEFAULT_DEVICE_STATUS_REFRESH), seconds, millis)
    {
      Stop();
      var _ := InitDashboard(storedCpu, storedStatus, seconds, millis);
    }

    /** The browser runs the alignment timeout h: it is consumed and the CPU interval installed. */
    method FireAlignment(h: nat)
      requires Valid()
      requires h in live && live[h].Alignment?
      modifies this
      ensures Valid()
      ensures State() == FireAlignmentSpec(old(State()), h)
    {
      var rate := live[h].rate;
      live := live - {h};
      var c := SetTimer(CpuTick(rate));
      cpuRefreshInterval := Some(c);
    }
  }

  // ---------------------------------------------------------------------
  // The intended scheduler: the alignment handle is stored and cleared too
  // ---------------------------------------------------------------------

  datatype FixedState = FixedState(timers: SchedulerState, alignmentTimeout: Option<nat>)

  /** Every live timer is one of the three stored handles, each of its own kind. */
  ghost predicate Tracked(fs: FixedState) {
    var st := fs.timers;
    && WellFormed(st)
    && (fs.alignmentTimeout.Some? ==>
          fs.alignmentTimeout.value in st.live && st.live[fs.alignmentTimeout.value].Alignment?)
    && (forall h :: h in st.live ==>
          Some(h) == st.cpuRefreshInterval || Some(h) == st.deviceStatusRefreshInterval
          || Some(h) == fs.alignmentTimeout)
  }

  function FixedInit(fs: FixedState, cpuRate: int, statusRate: int, seconds: int, millis: int): (r: FixedState)
    requires 0 <= seconds < 60 && 0 <= millis < 1000
    requires WellFormed(fs.timers)
  {
    FixedState(InitSpec(fs.timers, cpuRate, statusRate, seconds, millis), Some(fs.timers.nextHandle))
  }

  function FixedStop(fs: FixedState): (r: FixedState)
    requires WellFormed(fs.timers)
  {
    var st := StopSpec(fs.timers);
    var live := if fs.alignmentTimeout.Some? then st.live - {fs.alignmentTimeout.value} else st.live;
    FixedState(SchedulerState(None, None, live, st.nextHandle), None)
  }

  function FixedFire(fs: FixedState): (r: FixedState)
    requires WellFormed(fs.timers)
    requires fs.alignmentTimeout.Some?
    requires fs.alignmentTimeout.value in fs.timers.live && fs.timers.live[fs.alignmentTimeout.value].Alignment?
  {
    FixedState(FireAlignmentSpec(fs.timers, fs.alignmentTimeout.value), None)
  }

  function FixedRestart(fs: FixedState, cpuRate: int, statusRate: int, seconds: int, millis: int): (r: FixedState)
    requires 0 <= seconds < 60 && 0 <= millis < 1000
    requires WellFormed(fs.timers)
  {
    FixedInit(FixedStop(fs), cpuRate, statusRate, seconds, millis)
  }

  /** With every handle stored, stop() leaves no live timer at all. */
  lemma FixedStopCancelsEverything(fs: FixedState)
    requires Tracked(fs)
    ensures FixedStop(fs).timers.live == map[]
    ensures Tracked(FixedStop(fs))
  {
    var r := FixedStop(fs);
    forall h | h in r.timers.live ensures false {
    }
  }

  /** Restarting and firing keep every live timer tracked, so at most one CPU interval is ever live. */
  lemma FixedSchedulerTracked(fs: FixedState, cpuRate: int, statusRate: int, seconds: int, millis: int)
    requires Tracked(fs)
    requires 0 <= seconds < 60 && 0 <= millis < 1000
    ensures Tracked(FixedRestart(fs, cpuRate, statusRate, seconds, millis))
    ensures var r := FixedRestart(fs, cpuRate, statusRate, seconds, millis);
      Tracked(FixedFire(r)) && |CpuTicks(FixedFire(r).timers.live)| <= 1
  {
    FixedStopCancelsEverything(fs);
    var r := FixedRestart(fs, cpuRate, statusRate, seconds, millis);
    var f := FixedFire(r);
    var c := f.timers.cpuRefreshInterval.value;
    var ticks := CpuTicks(f.timers.live);
    assert ticks <= {c} && c in ticks;
    assert ticks == {c};
  }

  // ---------------------------------------------------------------------
  // The counter animation
  // ---------------------------------------------------------------------

  /**
   * animateNumber: the values written on successive 50 ms ticks, starting
   * from the shown number (parseInt(...) || 0, None standing for NaN) and
   * stepping by one toward the target until it is reached.
   */
  method AnimateNumber(shown: Option<int>, target: int) returns (frames: seq<int>)
    ensures var start := if shown.Some? then shown.value else 0;
      && (start == target ==> frames == [])
      && |frames| == (if target >= start then target - start else start - target)
      && (forall k :: 0 <= k < |frames| ==>
            frames[k] == (if target > start then start + k + 1 else start - k - 1))
      && (frames != [] ==> frames[|frames| - 1] == target)
  {
    var currentValue := if shown.Some? && shown.value != 0 then shown.value else 0;
    frames := [];
    if currentValue == target {
      return;
    }
    var step := if target > currentValue then 1 else -1;
    var current := currentValue;
    while current != target
      invariant step == 1 ==> currentValue <= current <= target
      invariant step == -1 ==> target <= current <= currentValue
      invariant |frames| == (current - currentValue) * step
      invariant forall k :: 0 <= k < |frames| ==> frames[k] == currentValue + (k + 1) * step
      invariant frames != [] ==> frames[|frames| - 1] == current
      decreases (target - current) * step
    {
      current := current + step;
      frames := frames + [current];
    }
  }
}
