/**
 * The device inventory of modules/device_manager.py: a list of device
 * records kept in config/devices.json and edited by add, delete, get, update
 * and status update.  The JSON file is the field `devices` here; loading and
 * saving are taken to succeed.  A record is a JSON object, a map from key to
 * value, because update_device writes whatever keys its caller passes.
 */
module DeviceInventory {
  import opened Wrappers

  /** A JSON scalar as stored in the inventory. */
  datatype Value = Null | Str(s: string) | Num(n: int)

  /** Python truthiness of a stored value: null, "" and 0 are false. */
  predicate Truthy(v: Value) {
    match v
    case Null => false
    case Str(s) => s != ""
    case Num(n) => n != 0
  }

  type Device = map<string, Value>

  /** The keys every record written by add_device carries. */
  const RECORD_KEYS: set<string> := {"id", "name", "ip", "port", "username", "password", "vendor", "status"}

  predicate IsRecord(d: Device) {
    RECORD_KEYS <= d.Keys
  }

  predicate AllRecords(devices: seq<Device>) {
    forall k :: 0 <= k < |devices| ==> IsRecord(devices[k])
  }

  /** No two records share an IP address. */
  predicate UniqueIps(devices: seq<Device>)
    requires AllRecords(devices)
  {
    forall j, k :: 0 <= j < k < |devices| ==> devices[j]["ip"] != devices[k]["ip"]
  }

  /** True when some record has the IP. */
  predicate HasIp(devices: seq<Device>, ip: string)
    requires AllRecords(devices)
  {
    exists k :: 0 <= k < |devices| && devices[k]["ip"] == Str(ip)
  }

  /** True when some record has the id. */
  predicate HasId(devices: seq<Device>, id: string)
    requires AllRecords(devices)
  {
    exists k :: 0 <= k < |devices| && devices[k]["id"] == Str(id)
  }

  /** The position of the first record with the id, or |devices| when there is none. */
  function FindId(devices: seq<Device>, id: string): (i: nat)
    requires AllRecords(devices)
    ensures i <= |devices|
    ensures i < |devices| ==> devices[i]["id"] == Str(id)
    ensures forall j :: 0 <= j < i ==> devices[j]["id"] != Str(id)
    ensures i == |devices| <==> !HasId(devices, id)
  {
    if devices == [] then 0
    else if devices[0]["id"] == Str(id) then 0
    else
      var i := 1 + FindId(devices[1..], id);
      assert forall j :: 1 <= j < |devices| ==> devices[1..][j - 1] == devices[j];
      i
  }

  /**
   * The name a new record gets: the given name if non-empty, otherwise the
   * probed hostname if there is one other than "" and "unknown", otherwise
   * "{vendor}_{ip}".  `hostname` is None when the SSH probe fails.
   */
  function ResolveName(name: string, vendor: string, ip: string, hostname: Option<string>): (r: string)
    ensures r != ""
    ensures name != "" ==> r == name
    ensures name == "" && hostname.Some? && hostname.value != "" && hostname.value != "unknown" ==> r == hostname.value
    ensures name == "" && (hostname.None? || hostname.value == "" || hostname.value == "unknown") ==>
      r == vendor + "_" + ip
  {
    if name != "" then name
    else if hostname.Some? && hostname.value != "" && hostname.value != "unknown" then hostname.value
    else vendor + "_" + ip
  }

  /** The record add_device appends. */
  function NewDevice(id: string, name: string, ip: string, port: Value, username: string, password: string, vendor: string): (d: Device)
    ensures IsRecord(d) && d.Keys == RECORD_KEYS
    ensures d["id"] == Str(id) && d["ip"] == Str(ip) && d["status"] == Str("unknown")
  {
    map["id" := Str(id), "name" := Str(name), "ip" := Str(ip), "port" := port, "username" := Str(username),
        "password" := Str(password), "vendor" := Str(vendor), "status" := Str("unknown")]
  }

  /** [d for d in devices if d['id'] != device_id] */
  function WithoutId(devices: seq<Device>, id: string): (r: seq<Device>)
    requires AllRecords(devices)
    ensures AllRecords(r)
    ensures |r| <= |devices|
    ensures forall k :: 0 <= k < |r| ==> r[k]["id"] != Str(id)
  {
    if devices == [] then []
    else (if devices[0]["id"] == Str(id) then [] else [devices[0]]) + WithoutId(devices[1..], id)
  }

  /** Filtering distributes over concatenation, so the kept records keep their order. */
  lemma {:induction false} WithoutIdAppend(a: seq<Device>, b: seq<Device>, id: string)
    requires AllRecords(a) && AllRecords(b)
    ensures AllRecords(a + b)
    ensures WithoutId(a + b, id) == WithoutId(a, id) + WithoutId(b, id)
  {
    if a != [] {
      assert (a + b)[1..] == a[1..] + b;
      WithoutIdAppend(a[1..], b, id);
    } else {
      assert a + b == b;
    }
  }

  /** The filter shortens the list exactly when some record has the id; otherwise it changes nothing. */
  lemma {:induction false} WithoutIdShrinks(devices: seq<Device>, id: string)
    requires AllRecords(devices)
    ensures |WithoutId(devices, id)| < |devices| <==> HasId(devices, id)
    ensures !HasId(devices, id) ==> WithoutId(devices, id) == devices
  {
    if devices != [] {
      WithoutIdShrinks(devices[1..], id);
      if HasId(devices[1..], id) {
        var k :| 0 <= k < |devices[1..]| && devices[1..][k]["id"] == Str(id);
        assert devices[k + 1]["id"] == Str(id);
      }
      if devices[0]["id"] != Str(id) && HasId(devices, id) {
        var k :| 0 <= k < |devices| && devices[k]["id"] == Str(id);
        assert devices[1..][k - 1]["id"] == Str(id);
      }
    }
  }

  /** Every record without the id survives the filter. */
  lemma {:induction false} WithoutIdKeepsOthers(devices: seq<Device>, id: string, k: nat)
    requires AllRecords(devices)
    requires k < |devices| && devices[k]["id"] != Str(id)
    ensures devices[k] in WithoutId(devices, id)
  {
    if k > 0 {
      WithoutIdKeepsOthers(devices[1..], id, k - 1);
    }
  }

  /** The JSON-file-backed manager; the file contents are the field `devices`. */
  class DeviceManager {
    var devices: seq<Device>

    ghost predicate Valid()
      reads this
    {
      AllRecords(devices)
    }

    /** A manager over the stored list (an empty list when the file is first created). */
    constructor (stored: seq<Device>)
      requires AllRecords(stored)
      ensures Valid() && devices == stored
    {
      devices := stored;
    }

    /** get_device: the first record with the id, or None. */
    function GetDevice(id: string): (r: Option<Device>)
      requires Valid()
      reads this
      ensures r.None? <==> !HasId(devices, id)
      ensures r.Some? ==> r.value == devices[FindId(devices, id)] && r.value["id"] == Str(id)
    {
      var i := FindId(devices, id);
      if i < |devices| then Some(devices[i]) else None
    }

    /**
     * add_device: None and no change when the IP is taken; otherwise the new
     * record (status "unknown") is appended.  The uuid and the outcome of the
     * SSH hostname probe are parameters.
     */
    method AddDevice(id: string, ip: string, username: string, password: string, vendor: string,
                     port: Value, name: string, hostname: Option<string>)
      returns (r: Option<Device>)
      requires Valid()
      modifies this
      ensures Valid()
      ensures r.None? <==> HasIp(old(devices), ip)
      ensures r.None? ==> devices == old(devices)
      ensures r.Some? ==>
        && r.value == NewDevice(id, ResolveName(name, vendor, ip, hostname), ip, port, username, password, vendor)
        && devices == old(devices) + [r.value]
    {
      for i := 0 to |devices|
        invariant forall j :: 0 <= j < i ==> devices[j]["ip"] != Str(ip)
      {
        if devices[i]["ip"] == Str(ip) {
          return None;
        }
      }
      var deviceName := ResolveName(name, vendor, ip, hostname);
      var newDevice := NewDevice(id, deviceName, ip, port, username, password, vendor);
      devices := devices + [newDevice];
      r := Some(newDevice);
    }

    /** delete_device: False when no record has the id, otherwise the filtered list is saved. */
    method DeleteDevice(id: string) returns (ok: bool)
      requires Valid()
      modifies this
      ensures Valid()
      ensures ok <==> HasId(old(devices), id)
      ensures ok ==> devices == WithoutId(old(devices), id)
      ensures !ok ==> devices == old(devices)
    {
      var updated := WithoutId(devices, id);
      WithoutIdShrinks(devices, id);
      if |updated| == |devices| {
        return false;
      }
      devices := updated;
      ok := true;
    }

    /** update_device(**kwargs): the first record with the id gets the given keys; False when absent. */
    method UpdateDevice(id: string, kwargs: map<string, Value>) returns (ok: bool)
      requires Valid()
      modifies this
      ensures Valid()
      ensures ok <==> HasId(old(devices), id)
      ensures ok ==> var i := FindId(old(devices), id);
        devices == old(devices)[i := old(devices)[i] + kwargs]
      ensures !ok ==> devices == old(devices)
    {
      for i := 0 to |devices|
        invariant forall j :: 0 <= j < i ==> devices[j]["id"] != Str(id)
      {
        if devices[i]["id"] == Str(id) {
          devices := devices[i := devices[i] + kwargs];
          return true;
        }
      }
      ok := false;
    }

    /** update_device_status: only the status of the first record with the id changes. */
    method UpdateDeviceStatus(id: string, status: Value) returns (ok: bool)
      requires Valid()
      modifies this
      ensures Valid()
      ensures ok <==> HasId(old(devices), id)
      ensures ok ==> var i := FindId(old(devices), id);
        devices == old(devices)[i := old(devices)[i]["status" := status]]
      ensures !ok ==> devices == old(devices)
    {
      for i := 0 to |devices|
        invariant forall j :: 0 <= j < i ==> devices[j]["id"] != Str(id)
      {
        if devices[i]["id"] == Str(id) {
          devices := devices[i := devices[i]["status" := status]];
          return true;
        }
      }
      ok := false;
    }
  }

  /** A successful add keeps IPs unique, since the new IP was not taken. */
  lemma AddKeepsIpsUnique(devices: seq<Device>, d: Device)
    requires AllRecords(devices) && IsRecord(d)
    requires UniqueIps(devices)
    requires forall k :: 0 <= k < |devices| ==> devices[k]["ip"] != d["ip"]
    ensures AllRecords(devices + [d]) && UniqueIps(devices + [d])
  {
  }

  /** update_device touches only the given keys of one record; every other record and key is as before. */
  lemma UpdateFrame(devices: seq<Device>, id: string, kwargs: map<string, Value>)
    requires AllRecords(devices) && HasId(devices, id)
    ensures var i := FindId(devices, id);
      var r := devices[i := devices[i] + kwargs];
      && |r| == |devices|
      && (forall k :: 0 <= k < |r| && k != i ==> r[k] == devices[k])
      && (forall key :: key in devices[i] && key !in kwargs ==> r[i][key] == devices[i][key])
      && (forall key :: key in kwargs ==> r[i][key] == kwargs[key])
  {
  }
}
