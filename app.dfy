/**
 * The record logic of the Flask application (ai_monitor_app.py): the
 * online/offline tally behind the dashboard data, the field merge of the
 * device update route, and the synthetic 20-point history of the device
 * detail route.  TCP probes, monitoring calls and random offsets are inputs.
 */
module MonitorApp {
  import opened Wrappers
  import opened DeviceInventory

  // ---------------------------------------------------------------------
  // Dashboard tally
  // ---------------------------------------------------------------------

  /** The outcome of the TCP connect probe for one device. */
  datatype Probe = Connected | Refused | ProbeError

  /** What monitor_device reported, as far as the tally reads it. */
  datatype Reading = Reading(status: string, cpu: Option<int>, memory: Option<int>, temperature: Option<int>)

  /** One entry of the dashboard's device list. */
  datatype DeviceInfo = DeviceInfo(
    id: Value, name: Value, vendor: Value, ip: Value, port: Value,
    status: string, cpu: Option<int>, memory: Option<int>, temperature: Option<int>)

  /**
   * The entry for one device: online when the probe connected (with the
   * monitor's metrics only if the monitor also says online), offline when
   * the probe was refused or raised.  `reading` is None when the monitor
   * call raised or returned nothing.
   */
  function Classify(device: Device, probe: Probe, reading: Option<Reading>): (info: DeviceInfo)
    requires IsRecord(device)
    ensures info.status == "online" <==> probe == Connected
    ensures info.status == "offline" <==> probe != Connected
    ensures info.cpu.Some? ==> probe == Connected && reading.Some? && reading.value.status == "online"
    ensures info.id == device["id"] && info.name == device["name"] && info.vendor == device["vendor"]
    ensures info.ip == device["ip"] && info.port == device["port"]
    ensures probe == Connected && reading.Some? && reading.value.status == "online" ==>
      info.cpu == reading.value.cpu && info.memory == reading.value.memory
      && info.temperature == reading.value.temperature
    ensures !(probe == Connected && reading.Some? && reading.value.status == "online") ==>
      info.cpu.None? && info.memory.None? && info.temperature.None?
  {
    var base := DeviceInfo(device["id"], device["name"], device["vendor"], device["ip"], device["port"],
                           "unknown", None, None, None);
    if probe == Connected then
      if reading.Some? && reading.value.status == "online" then
        base.(status := "online", cpu := reading.value.cpu, memory := reading.value.memory,
              temperature := reading.value.temperature)
      else base.(status := "online")
    else base.(status := "offline")
  }

  /** The number of entries shown with the status. */
  function CountStatus(details: seq<DeviceInfo>, status: string): (n: nat)
    ensures n <= |details|
  {
    if details == [] then 0
    else CountStatus(details[..|details| - 1], status) + (if details[|details| - 1].status == status then 1 else 0)
  }

  /** Appending an entry adds one to the count of its own status only. */
  lemma CountStatusAppend(details: seq<DeviceInfo>, info: DeviceInfo, status: string)
    ensures CountStatus(details + [info], status) == CountStatus(details, status) + (if info.status == status then 1 else 0)
  {
    assert (details + [info])[..|details|] == details;
  }

  /**
   * The tally loop of get_dashboard_data: every device is classified once,
   * and the online and offline counters count the entries shown that way.
   */
  method Tally(devices: seq<Device>, probes: seq<Probe>, readings: seq<Option<Reading>>)
    returns (total: nat, online: nat, offline: nat, details: seq<DeviceInfo>)
    requires AllRecords(devices)
    requires |probes| == |devices| && |readings| == |devices|
    ensures total == |devices|
    ensures total == online + offline
    ensures |details| == |devices|
    ensures forall k :: 0 <= k < |details| ==> details[k] == Classify(devices[k], probes[k], readings[k])
    ensures online == CountStatus(details, "online") && offline == CountStatus(details, "offline")
  {
    total := |devices|;
    online, offline := 0, 0;
    details := [];
    for i := 0 to |devices|
      invariant online + offline == i
      invariant |details| == i
      invariant forall k :: 0 <= k < i ==> details[k] == Classify(devices[k], probes[k], readings[k])
      invariant online == CountStatus(details, "online") && offline == CountStatus(details, "offline")
    {
      var info := Classify(devices[i], probes[i], readings[i]);
      CountStatusAppend(details, info, "online");
      CountStatusAppend(details, info, "offline");
      if probes[i] == Connected {
        online := online + 1;
      } else {
        offline := offline + 1;
      }
      details := details + [info];
    }
  }

  // ---------------------------------------------------------------------
  // Device update route
  // ---------------------------------------------------------------------

  /** The keys the route copies from the request when present (data.get(key, old)). */
  const COPIED_KEYS: set<string> := {"name", "vendor", "ip", "port", "username", "model", "serial_number", "version"}

  /** The value a key of the merged record takes: copied keys from the request, the password only when truthy. */
  function MergedValue(device: Device, data: map<string, Value>, key: string): Value
    requires key in device || (key in COPIED_KEYS && key in data)
  {
    if key in COPIED_KEYS && key in data then data[key]
    else if key == "password" && key in data && Truthy(data[key]) then data[key]
    else device[key]
  }

  /** The record after the update route's assignments. */
  function MergeUpdate(device: Device, data: map<string, Value>): (r: Device)
    requires IsRecord(device)
    ensures IsRecord(r)
    ensures r.Keys == device.Keys + (data.Keys * COPIED_KEYS)
    ensures r["id"] == device["id"] && r["status"] == device["status"]
    ensures forall k :: k in data.Keys * COPIED_KEYS ==> r[k] == data[k]
    ensures forall k :: k in device && k !in data.Keys * COPIED_KEYS && k != "password" ==> r[k] == device[k]
    ensures r["password"] == if "password" in data && Truthy(data["password"]) then data["password"] else device["password"]
  {
    map key | key in device.Keys + (data.Keys * COPIED_KEYS) :: MergedValue(device, data, key)
  }

  /** An empty request changes nothing, and applying the same request twice is applying it once. */
  lemma MergeUpdateLaws(device: Device, data: map<string, Value>)
    requires IsRecord(device)
    ensures MergeUpdate(device, map[]) == device
    ensures MergeUpdate(MergeUpdate(device, data), data) == MergeUpdate(device, data)
  {
    var once := MergeUpdate(device, data);
    assert MergeUpdate(once, data).Keys == once.Keys;
    assert MergeUpdate(device, map[]).Keys == device.Keys;
  }

  /** An empty or null password in the request keeps the stored one. */
  lemma BlankPasswordKept(device: Device, data: map<string, Value>)
    requires IsRecord(device)
    requires "password" in data && (data["password"] == Str("") || data["password"] == Null)
    ensures MergeUpdate(device, data)["password"] == device["password"]
  {
  }

  /** `d[key] = data.get(key, d[key])`, and `if key in data: d[key] = data[key]`: the request's value when present. */
  function Put(d: Device, data: map<string, Value>, key: string): Device {
    if key in data then d[key := data[key]] else d
  }

  /** The password assignment: only a present, truthy password is taken. */
  function PutPassword(d: Device, data: map<string, Value>): Device {
    if "password" in data && Truthy(data["password"]) then d["password" := data["password"]] else d
  }

  /** d is the fetched record after the assignments to the keys in `done` (and to the password, if `password`). */
  ghost predicate Agrees(d: Device, device: Device, data: map<string, Value>, done: set<string>, password: bool) {
    && d.Keys == device.Keys + (data.Keys * done)
    && forall k :: k in d ==>
         d[k] == if k in done && k in data then data[k]
                 else if password && k == "password" && k in data && Truthy(data[k]) then data[k]
                 else device[k]
  }

  lemma PutStep(d: Device, device: Device, data: map<string, Value>, done: set<string>, password: bool, key: string)
    requires Agrees(d, device, data, done, password) && key != "password"
    ensures Agrees(Put(d, data, key), device, data, done + {key}, password)
  {
  }

  lemma PasswordStep(d: Device, device: Device, data: map<string, Value>, done: set<string>)
    requires Agrees(d, device, data, done, false) && "password" in device && "password" !in done
    ensures Agrees(PutPassword(d, data), device, data, done, true)
  {
  }

  lemma AgreesAll(d: Device, device: Device, data: map<string, Value>)
    requires IsRecord(device) && Agrees(d, device, data, COPIED_KEYS, true)
    ensures d == MergeUpdate(device, data)
  {
    assert d.Keys == MergeUpdate(device, data).Keys;
  }

  /** The keys update_device reads with `data.get(key, device[key])`. */
  const BASIC_KEYS: set<string> := {"name", "vendor", "ip", "port", "username"}

  /** The basic keys' assignments. */
  method ApplyBasic(device: Device, data: map<string, Value>) returns (d: Device)
    ensures Agrees(d, device, data, BASIC_KEYS, false)
  {
    d := device;
    ghost var done: set<string> := {};
    assert Agrees(d, device, data, done, false);
    PutStep(d, device, data, done, false, "name");
    d, done := Put(d, data, "name"), done + {"name"};
    PutStep(d, device, data, done, false, "vendor");
    d, done := Put(d, data, "vendor"), done + {"vendor"};
    PutStep(d, device, data, done, false, "ip");
    d, done := Put(d, data, "ip"), done + {"ip"};
    PutStep(d, device, data, done, false, "port");
    d, done := Put(d, data, "port"), done + {"port"};
    PutStep(d, device, data, done, false, "username");
    d, done := Put(d, data, "username"), done + {"username"};
    assert done == BASIC_KEYS;
  }

  /** The password assignment and the three `if key in data` keys. */
  method ApplyRest(d0: Device, device: Device, data: map<string, Value>) returns (d: Device)
    requires "password" in device && Agrees(d0, device, data, BASIC_KEYS, false)
    ensures Agrees(d, device, data, COPIED_KEYS, true)
  {
    PasswordStep(d0, device, data, BASIC_KEYS);
    d := PutPassword(d0, data);
    ghost var done := BASIC_KEYS;
    PutStep(d, device, data, done, true, "model");
    d, done := Put(d, data, "model"), done + {"model"};
    PutStep(d, device, data, done, true, "serial_number");
    d, done := Put(d, data, "serial_number"), done + {"serial_number"};
    PutStep(d, device, data, done, true, "version");
    d, done := Put(d, data, "version"), done + {"version"};
    assert done == COPIED_KEYS;
  }

  /** The route's in-place assignments to the fetched record, in source order: the request's merge. */
  method ApplyRequest(device: Device, data: map<string, Value>) returns (d: Device)
    requires IsRecord(device)
    ensures d == MergeUpdate(device, data)
  {
    d := ApplyBasic(device, data);
    d := ApplyRest(d, device, data);
    AgreesAll(d, device, data);
  }

  /**
   * update_device (PUT /api/devices/<id>): 404 when the id is unknown;
   * otherwise the merged record replaces the first record with the id, and
   * 200 is returned with it.  Saving is taken to succeed.
   */
  method UpdateDeviceRoute(manager: DeviceManager, id: string, data: map<string, Value>)
    returns (code: int, updated: Option<Device>)
    requires manager.Valid()
    modifies manager
    ensures manager.Valid()
    ensures code == 404 <==> !HasId(old(manager.devices), id)
    ensures code == 404 ==> updated.None? && manager.devices == old(manager.devices)
    ensures code != 404 ==>
      var i := FindId(old(manager.devices), id);
      && code == 200
      && updated == Some(MergeUpdate(old(manager.devices)[i], data))
      && manager.devices == old(manager.devices)[i := updated.value]
  {
    var device := manager.GetDevice(id);
    if device.None? {
      return 404, None;
    }
    var merged := ApplyRequest(device.value, data);
    var devices := manager.devices;
    for i := 0 to |devices|
      invariant forall j :: 0 <= j < i ==> devices[j]["id"] != Str(id)
      invariant devices == manager.devices
    {
      if devices[i]["id"] == Str(id) {
        devices := devices[i := merged];
        break;
      }
    }
    manager.devices := devices;
    code, updated := 200, Some(merged);
  }

  // ---------------------------------------------------------------------
  // Synthetic detail history
  // ---------------------------------------------------------------------

  const HISTORY_POINTS: nat := 20
  const HISTORY_STEP_SECONDS: int := 30

  /** max(0, min(100, x)) */
  function Clamp(x: int): (r: int)
    ensures 0 <= r <= 100
    ensures 0 <= x <= 100 ==> r == x
    ensures x < 0 ==> r == 0
    ensures x > 100 ==> r == 100
  {
    if x < 0 then 0 else if x > 100 then 100 else x
  }

  /** The base value of a metric: its number, or the fallback when it is not numeric. */
  function BaseValue(v: Value, fallback: int): (r: int)
    ensures v.Num? ==> r == v.n
    ensures !v.Num? ==> r == fallback
  {
    if v.Num? then v.n else fallback
  }

  /**
   * The history block of get_device_detail: 20 time stamps 30 s apart
   * ending now, and CPU/memory points jittered around the current values
   * and clamped to [0, 100] when the device is online with a CPU value,
   * otherwise None.  `cpuNoise` and `memoryNoise` are the randint draws.
   */
  method DetailHistory(now: int, status: string, cpu: Value, memory: Value,
                       cpuNoise: seq<int>, memoryNoise: seq<int>)
    returns (timestamps: seq<int>, cpuHistory: seq<Option<int>>, memoryHistory: seq<Option<int>>)
    requires |cpuNoise| == HISTORY_POINTS && |memoryNoise| == HISTORY_POINTS
    ensures |timestamps| == |cpuHistory| == |memoryHistory| == HISTORY_POINTS
    ensures forall i :: 0 <= i < HISTORY_POINTS ==>
      timestamps[i] == now - (HISTORY_POINTS - 1 - i) * HISTORY_STEP_SECONDS
    ensures forall i :: 0 <= i < HISTORY_POINTS ==>
      if status == "online" && cpu != Null then
        && cpuHistory[i] == Some(Clamp(BaseValue(cpu, 0) + cpuNoise[i]))
        && memoryHistory[i] == Some(Clamp(BaseValue(memory, 50) + memoryNoise[i]))
      else cpuHistory[i].None? && memoryHistory[i].None?
  {
    timestamps, cpuHistory, memoryHistory := [], [], [];
    for i := 0 to HISTORY_POINTS
      invariant |timestamps| == |cpuHistory| == |memoryHistory| == i
      invariant forall j :: 0 <= j < i ==> timestamps[j] == now - (HISTORY_POINTS - 1 - j) * HISTORY_STEP_SECONDS
      invariant forall j :: 0 <= j < i ==>
        if status == "online" && cpu != Null then
          && cpuHistory[j] == Some(Clamp(BaseValue(cpu, 0) + cpuNoise[j]))
          && memoryHistory[j] == Some(Clamp(BaseValue(memory, 50) + memoryNoise[j]))
        else cpuHistory[j].None? && memoryHistory[j].None?
    {
      timestamps := timestamps + [now - (HISTORY_POINTS - 1 - i) * HISTORY_STEP_SECONDS];
      if status == "online" && cpu != Null {
        var baseCpu := if cpu.Num? then cpu.n else 0;
        var baseMemory := if memory.Num? then memory.n else 50;
        cpuHistory := cpuHistory + [Some(Clamp(baseCpu + cpuNoise[i]))];
        memoryHistory := memoryHistory + [Some(Clamp(baseMemory + memoryNoise[i]))];
      } else {
        cpuHistory := cpuHistory + [None];
        memoryHistory := memoryHistory + [None];
      }
    }
  }

  /** Jitter within the randint ranges keeps an in-range reading within 10 (CPU) and 5 (memory) points. */
  lemma ClampedJitterBounded(base: int, noise: int, spread: nat)
    requires 0 <= base <= 100 && -(spread as int) <= noise <= spread
    ensures -(spread as int) <= Clamp(base + noise) - base <= spread
  {
  }
}
