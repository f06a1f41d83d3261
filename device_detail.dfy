/**
 * The device detail page of static/js/device-detail.js: the module state
 * `currentDeviceId` and `deviceDataRefreshInterval` with the 30-second
 * reload interval, the badge classes of the status panel, the online/offline
 * label, and the defaults applied to the history before charting.  Timers
 * are handles and a set of live intervals; elapsed time is not modelled.
 */
module DeviceDetail {
  import opened Wrappers
  import Dashboard
  import MainView

  const DETAIL_REFRESH_MS: nat := 30000

  class DetailView {
    var currentDeviceId: Option<string>
    var deviceDataRefreshInterval: Option<nat>
    /** The detail intervals the browser is running. */
    var live: set<nat>
    var nextHandle: nat

    /** The only running detail interval, if any, is the stored one. */
    ghost predicate Valid()
      reads this
    {
      && nextHandle >= 1
      && (deviceDataRefreshInterval.None? ==> live == {})
      && (deviceDataRefreshInterval.Some? ==>
            live == {deviceDataRefreshInterval.value} && 1 <= deviceDataRefreshInterval.value < nextHandle)
    }

    constructor ()
      ensures Valid() && currentDeviceId.None? && deviceDataRefreshInterval.None? && live == {}
    {
      currentDeviceId, deviceDataRefreshInterval := None, None;
      live, nextHandle := {}, 1;
    }

    /**
     * viewDeviceDetails: remembers the device, stops the dashboard refresh,
     * loads once, and replaces any previous detail interval by a new one.
     * Returns the device whose detail is loaded.
     */
    method ViewDeviceDetails(scheduler: Dashboard.Scheduler, deviceId: string) returns (loaded: string)
      requires Valid() && scheduler.Valid()
      modifies this, scheduler
      ensures Valid() && scheduler.Valid()
      ensures currentDeviceId == Some(deviceId) && loaded == deviceId
      ensures deviceDataRefreshInterval == Some(old(nextHandle)) && live == {old(nextHandle)}
      ensures scheduler.State() == Dashboard.StopSpec(old(scheduler.State()))
    {
      currentDeviceId := Some(deviceId);
      MainView.SwitchTab(scheduler, "device-detail", None, None, 0, 0);
      loaded := deviceId;
      if deviceDataRefreshInterval.Some? {
        live := live - {deviceDataRefreshInterval.value};
      }
      var h := nextHandle;
      nextHandle := nextHandle + 1;
      live := live + {h};
      deviceDataRefreshInterval := Some(h);
    }

    /** backToDashboard: the interval is cleared, both variables become null, and the dashboard refresh restarts. */
    method BackToDashboard(scheduler: Dashboard.Scheduler,
                           storedCpu: Option<int>, storedStatus: Option<int>, seconds: int, millis: int)
      requires Valid() && scheduler.Valid()
      requires 0 <= seconds < 60 && 0 <= millis < 1000
      modifies this, scheduler
      ensures Valid() && scheduler.Valid()
      ensures currentDeviceId.None? && deviceDataRefreshInterval.None? && live == {}
      ensures scheduler.State() == Dashboard.RestartSpec(old(scheduler.State()),
        Dashboard.RefreshRate(storedCpu, Dashboard.DEFAULT_CPU_REFRESH),
        Dashboard.RefreshRate(storedStatus, Dashboard.DEFAULT_DEVICE_STATUS_REFRESH), seconds, millis)
    {
      if deviceDataRefreshInterval.Some? {
        live := live - {deviceDataRefreshInterval.value};
        deviceDataRefreshInterval := None;
      }
      currentDeviceId := None;
      MainView.SwitchTab(scheduler, "dashboard", storedCpu, storedStatus, seconds, millis);
    }

    /** A tick of the live interval h reloads the current device, and nothing when there is none. */
    method Tick(h: nat) returns (reload: Option<string>)
      requires Valid() && h in live
      ensures reload == currentDeviceId
    {
      if currentDeviceId.Some? {
        reload := Some(currentDeviceId.value);
      } else {
        reload := None;
      }
    }
  }

  /** The status panel's badge: the main view's classes, with 'success' in place of the empty class. */
  datatype Badge = Success | Warning | Danger

  function BadgeOf(level: MainView.Level): (b: Badge)
    ensures b == Success <==> level == MainView.Normal
    ensures b == Danger <==> level == MainView.Danger
  {
    match level
    case Normal => Success
    case Warning => Warning
    case Danger => Danger
  }

  /** CPU and memory badges: danger above 80, warning above 60, success otherwise. */
  function UsageBadge(v: int): (b: Badge)
    ensures b == Danger <==> v > 80
    ensures b == Warning <==> 60 < v <= 80
    ensures b == Success <==> v <= 60
  {
    BadgeOf(MainView.UsageClass(v))
  }

  /** Temperature badges: danger above 70, warning above 50, success otherwise. */
  function TemperatureBadge(v: int): (b: Badge)
    ensures b == Danger <==> v > 70
    ensures b == Warning <==> 50 < v <= 70
    ensures b == Success <==> v <= 50
  {
    BadgeOf(MainView.TemperatureClass(v))
  }

  datatype Shown = ShownOnline | ShownOffline

  /** updateDeviceBasicInfo: anything but 'online' (offline, unknown, error) is shown as offline. */
  function StatusShown(status: string): (s: Shown)
    ensures s == ShownOnline <==> status == "online"
  {
    if status == "online" then ShownOnline else ShownOffline
  }

  /** The history object of the detail response; each array may be missing. */
  datatype History = History(timestamps: Option<seq<string>>, cpu: Option<seq<Option<int>>>, memory: Option<seq<Option<int>>>)

  datatype ChartData = ChartData(labels: seq<string>, cpu: seq<Option<int>>, memory: seq<Option<int>>)

  /** updateDeviceCharts: no history leaves the charts as they are; a missing array charts as empty. */
  function ChartUpdate(history: Option<History>): (r: Option<ChartData>)
    ensures r.None? <==> history.None?
    ensures r.Some? ==>
      && (history.value.timestamps.Some? ==> r.value.labels == history.value.timestamps.value)
      && (history.value.timestamps.None? ==> r.value.labels == [])
      && (history.value.cpu.Some? ==> r.value.cpu == history.value.cpu.value)
      && (history.value.cpu.None? ==> r.value.cpu == [])
      && (history.value.memory.Some? ==> r.value.memory == history.value.memory.value)
      && (history.value.memory.None? ==> r.value.memory == [])
  {
    match history
    case None => None
    case Some(h) => Some(ChartData(h.timestamps.GetOr([]), h.cpu.GetOr([]), h.memory.GetOr([])))
  }
}
