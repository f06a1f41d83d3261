/**
 * The device management tab of static/js/device-management.js: the
 * selection Set behind the row checkboxes, the tri-state select-all box,
 * single and batch deletion, and the validation of the edit form.  The
 * table's checkboxes are two parallel sequences (`rows` holds each row's
 * device id, `checked` its box); confirmation dialogs and server answers are
 * inputs.
 */
module DeviceManagement {
  import opened Wrappers
  import opened DeviceInventory
  import opened MonitorApp
  import Text

  /** The number of ticked boxes. */
  function CountChecked(checked: seq<bool>): (n: nat)
    ensures n <= |checked|
  {
    if checked == [] then 0
    else CountChecked(checked[..|checked| - 1]) + (if checked[|checked| - 1] then 1 else 0)
  }

  /** All boxes are ticked exactly when the count reaches the number of boxes. */
  lemma {:induction false} CountCheckedAll(checked: seq<bool>)
    ensures CountChecked(checked) == |checked| <==> forall k :: 0 <= k < |checked| ==> checked[k]
  {
    if checked != [] {
      var init := checked[..|checked| - 1];
      CountCheckedAll(init);
      assert forall k :: 0 <= k < |init| ==> init[k] == checked[k];
    }
  }

  /** No box is ticked exactly when the count is zero. */
  lemma {:induction false} CountCheckedNone(checked: seq<bool>)
    ensures CountChecked(checked) == 0 <==> forall k :: 0 <= k < |checked| ==> !checked[k]
  {
    if checked != [] {
      var init := checked[..|checked| - 1];
      CountCheckedNone(init);
      assert forall k :: 0 <= k < |init| ==> init[k] == checked[k];
    }
  }

  /** The select-all box: its checked flag and its indeterminate flag. */
  datatype Master = Master(checked: bool, indeterminate: bool)

  /** updateSelectAllState's decision on the number of boxes and of ticked boxes. */
  function SelectAllState(checked: seq<bool>): (m: Master)
    ensures m.checked <==> |checked| > 0 && CountChecked(checked) == |checked|
    ensures m.indeterminate <==> 0 < CountChecked(checked) < |checked|
  {
    var n := CountChecked(checked);
    if |checked| == 0 then Master(false, false)
    else if n == |checked| then Master(true, false)
    else if n > 0 then Master(false, true)
    else Master(false, false)
  }

  /**
   * The select-all box is checked exactly when there are rows and all are
   * ticked, indeterminate exactly when some but not all are ticked, and
   * never both.
   */
  lemma SelectAllMeaning(checked: seq<bool>)
    ensures SelectAllState(checked).checked <==> |checked| > 0 && forall k :: 0 <= k < |checked| ==> checked[k]
    ensures SelectAllState(checked).indeterminate <==>
      (exists k :: 0 <= k < |checked| && checked[k]) && (exists k :: 0 <= k < |checked| && !checked[k])
    ensures !(SelectAllState(checked).checked && SelectAllState(checked).indeterminate)
  {
    CountCheckedAll(checked);
    CountCheckedNone(checked);
  }

  /** The ids of the rendered rows. */
  function RowIds(rows: seq<string>): (ids: set<string>)
    ensures forall id :: id in ids <==> id in rows
  {
    set id | id in rows
  }

  /** The ids in reverse order: the order in which pop() hands them out. */
  function Reversed(s: seq<string>): (r: seq<string>)
    ensures |r| == |s|
    ensures forall k :: 0 <= k < |s| ==> r[k] == s[|s| - 1 - k]
  {
    if s == [] then [] else Reversed(s[1..]) + [s[0]]
  }

  /** How many of the requests were for ids whose deletion succeeds. */
  function CountIn(requests: seq<string>, succeeded: set<string>): (n: nat)
    ensures n <= |requests|
  {
    if requests == [] then 0
    else CountIn(requests[..|requests| - 1], succeeded) + (if requests[|requests| - 1] in succeeded then 1 else 0)
  }

  /** Walking the list from its end: one more element taken is that element appended. */
  lemma ReversedStep(order: seq<string>, n: nat)
    requires 0 < n <= |order|
    ensures Reversed(order[n - 1..]) == Reversed(order[n..]) + [order[n - 1]]
  {
    assert order[n - 1..][1..] == order[n..];
  }

  /** One more request adds one to the count exactly when its id succeeds. */
  lemma CountInAppend(requests: seq<string>, id: string, succeeded: set<string>)
    ensures CountIn(requests + [id], succeeded) == CountIn(requests, succeeded) + (if id in succeeded then 1 else 0)
  {
    assert (requests + [id])[..|requests|] == requests;
  }

  class SelectionView {
    /** The device id of each rendered row, in table order. */
    var rows: seq<string>
    /** The state of each row's checkbox. */
    var checked: seq<bool>
    /** selectedDeviceIds */
    var selected: set<string>
    var master: Master

    ghost predicate Valid()
      reads this
    {
      |rows| == |checked|
    }

    /** A freshly rendered table: no box ticked, nothing selected. */
    constructor (rows: seq<string>)
      ensures Valid() && this.rows == rows && selected == {} && master == Master(false, false)
      ensures forall k :: 0 <= k < |checked| ==> !checked[k]
    {
      this.rows := rows;
      checked := seq(|rows|, _ => false);
      selected := {};
      master := Master(false, false);
    }

    /** The number of ticked boxes, counted over the table. */
    method CountCheckedBoxes() returns (n: nat)
      requires Valid()
      ensures n == CountChecked(checked)
    {
      n := 0;
      for i := 0 to |checked|
        invariant n == CountChecked(checked[..i])
      {
        assert checked[..i + 1][..i] == checked[..i];
        if checked[i] {
          n := n + 1;
        }
      }
      assert checked[..|checked|] == checked;
    }

    /** updateSelectAllState: only the select-all box changes. */
    method UpdateSelectAllState()
      requires Valid()
      modifies this
      ensures Valid() && master == SelectAllState(checked)
      ensures rows == old(rows) && checked == old(checked) && selected == old(selected)
    {
      var total := |checked|;
      var ticked := CountCheckedBoxes();
      if total == 0 {
        master := Master(false, false);
      } else if ticked == total {
        master := Master(true, false);
      } else if ticked > 0 {
        master := Master(false, true);
      } else {
        master := Master(false, false);
      }
    }

    /** toggleDeviceSelection: the id is selected exactly when its (first) box is ticked. */
    method ToggleDeviceSelection(id: string)
      requires Valid()
      modifies this
      ensures Valid() && rows == old(rows) && checked == old(checked)
      ensures var i := Text.IndexOf(rows, id);
        id in selected <==> i < |rows| && checked[i]
      ensures selected - {id} == old(selected) - {id}
      ensures master == SelectAllState(checked)
    {
      var i := Text.IndexOf(rows, id);
      if i < |rows| && checked[i] {
        selected := selected + {id};
      } else {
        selected := selected - {id};
      }
      UpdateSelectAllState();
    }

    /** toggleSelectAll: every box takes the master state, and all row ids join or leave the selection. */
    method ToggleSelectAll()
      requires Valid()
      modifies this
      ensures Valid() && rows == old(rows) && master == old(master)
      ensures forall k :: 0 <= k < |checked| ==> checked[k] == master.checked
      ensures master.checked ==> selected == old(selected) + RowIds(rows)
      ensures !master.checked ==> selected == old(selected) - RowIds(rows)
    {
      var on := master.checked;
      for i := 0 to |rows|
        invariant Valid() && rows == old(rows) && master == old(master)
        invariant forall k :: 0 <= k < i ==> checked[k] == on
        invariant on ==> selected == old(selected) + RowIds(rows[..i])
        invariant !on ==> selected == old(selected) - RowIds(rows[..i])
      {
        assert rows[..i + 1] == rows[..i] + [rows[i]];
        checked := checked[i := on];
        if on {
          selected := selected + {rows[i]};
        } else {
          selected := selected - {rows[i]};
        }
      }
      assert rows[..|rows|] == rows;
    }

    /**
     * deleteDevice: a declined confirmation resolves false without a request;
     * otherwise one DELETE is sent and a success drops the id from the
     * selection.
     */
    method DeleteDevice(id: string, showConfirm: bool, confirmed: bool, success: bool)
      returns (ok: bool, requested: bool)
      modifies this
      ensures requested <==> !showConfirm || confirmed
      ensures ok <==> requested && success
      ensures ok ==> selected == old(selected) - {id}
      ensures !ok ==> selected == old(selected)
      ensures rows == old(rows) && checked == old(checked) && master == old(master)
    {
      if showConfirm && !confirmed {
        return false, false;
      }
      requested := true;
      if success {
        selected := selected - {id};
        ok := true;
      } else {
        ok := false;
      }
    }

    /**
     * deleteSelectedDevices: nothing is sent for an empty selection or a
     * declined confirmation; otherwise the ids are popped one at a time from
     * Array.from(selectedDeviceIds) (`order`), each gets one request, every
     * answer counts as a deletion or an error, and the selection is cleared.
     */
    method DeleteSelectedDevices(order: seq<string>, confirmed: bool, succeeded: set<string>)
      returns (requests: seq<string>, deleteCount: nat, errorCount: nat)
      requires Valid()
      requires forall id :: id in order <==> id in selected
      requires forall j, k :: 0 <= j < k < |order| ==> order[j] != order[k]
      modifies this
      ensures Valid() && rows == old(rows) && checked == old(checked)
      ensures old(selected) == {} || !confirmed ==>
        requests == [] && deleteCount == 0 && errorCount == 0 && selected == old(selected) && master == old(master)
      ensures old(selected) != {} && confirmed ==>
        && requests == Reversed(order)
        && deleteCount + errorCount == |order|
        && deleteCount == CountIn(requests, succeeded)
        && selected == {}
        && master == SelectAllState(checked)
    {
      requests, deleteCount, errorCount := [], 0, 0;
      if selected == {} || !confirmed {
        return;
      }
      var ids := order;
      while ids != []
        invariant Valid() && rows == old(rows) && checked == old(checked)
        invariant |ids| <= |order| && ids == order[..|ids|]
        invariant requests == Reversed(order[|ids|..])
        invariant deleteCount + errorCount == |requests|
        invariant deleteCount == CountIn(requests, succeeded)
        decreases |ids|
      {
        var n := |ids|;
        var id := ids[n - 1];
        ids := ids[..n - 1];
        ReversedStep(order, n);
        CountInAppend(requests, id, succeeded);
        var ok, _ := DeleteDevice(id, false, true, id in succeeded);
        requests := requests + [id];
        if ok {
          deleteCount := deleteCount + 1;
        } else {
          errorCount := errorCount + 1;
        }
      }
      assert order[0..] == order;
      selected := {};
      UpdateSelectAllState();
    }
  }

  /** parseInt(port) || 22: a missing, unparsable or zero port becomes 22. `parsed` is None for NaN. */
  function PortOrDefault(parsed: Option<int>): (port: int)
    ensures port != 0
    ensures parsed.Some? && parsed.value != 0 ==> port == parsed.value
    ensures parsed.None? || parsed.value == 0 ==> port == 22
  {
    if parsed.Some? && parsed.value != 0 then parsed.value else 22
  }

  /** The edit modal's fields as typed; the password field starts blank. */
  datatype EditForm = EditForm(
    name: string, vendor: string, ip: string, port: Option<int>, username: string,
    model: string, serialNumber: string, version: string, password: string)

  /**
   * saveDeviceChanges: no request when name, vendor, ip or username is
   * empty; otherwise the PUT body, whose password key is present only when
   * a password was typed.
   */
  function EditRequest(form: EditForm): (data: Option<map<string, Value>>)
    ensures data.None? <==> form.name == "" || form.vendor == "" || form.ip == "" || form.username == ""
    ensures data.Some? ==>
      && data.value.Keys == COPIED_KEYS + (if form.password != "" then {"password"} else {})
      && data.value["port"] == Num(PortOrDefault(form.port))
      && data.value["name"] == Str(form.name) && data.value["vendor"] == Str(form.vendor)
      && data.value["ip"] == Str(form.ip) && data.value["username"] == Str(form.username)
      && data.value["model"] == Str(form.model) && data.value["serial_number"] == Str(form.serialNumber)
      && data.value["version"] == Str(form.version)
      && (form.password != "" ==> data.value["password"] == Str(form.password))
  {
    var body := map[
      "name" := Str(form.name), "vendor" := Str(form.vendor), "ip" := Str(form.ip),
      "port" := Num(PortOrDefault(form.port)), "username" := Str(form.username),
      "model" := Str(form.model), "serial_number" := Str(form.serialNumber), "version" := Str(form.version)];
    var body := if form.password != "" then body["password" := Str(form.password)] else body;
    if form.name == "" || form.vendor == "" || form.ip == "" || form.username == "" then None
    else Some(body)
  }

  /**
   * An edit saved with the password field left blank keeps the stored
   * password on the server; a typed password replaces it.  The identity and
   * status are never touched.
   */
  lemma EditKeepsOrReplacesPassword(device: Device, form: EditForm)
    requires IsRecord(device) && EditRequest(form).Some?
    ensures var merged := MergeUpdate(device, EditRequest(form).value);
      && (form.password == "" ==> merged["password"] == device["password"])
      && (form.password != "" ==> merged["password"] == Str(form.password))
      && merged["id"] == device["id"] && merged["status"] == device["status"]
      && merged["name"] == Str(form.name) && merged["port"] == Num(PortOrDefault(form.port))
  {
    var data := EditRequest(form).value;
    assert "name" in COPIED_KEYS && "port" in COPIED_KEYS && "password" !in COPIED_KEYS;
  }
}
