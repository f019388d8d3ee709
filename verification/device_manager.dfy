/** The registry object (source/DeviceManager.cpp). */
module DeviceManagers {
  import opened Protocol
  import opened Lanes
  import opened MonitorDevices

  /** State by hash; of several entries with one hash the last counts. */
  ghost function StatesOf(devices: seq<MonitorDevice>): map<string, DeviceState>
    reads devices
  {
    if devices == [] then map[]
    else StatesOf(devices[..|devices| - 1])[devices[|devices| - 1].data.hash := devices[|devices| - 1].state]
  }

  /** The last entry with the hash. */
  ghost predicate LastWith(devices: seq<MonitorDevice>, hash: string, device: MonitorDevice) {
    device.data.hash == hash
    && exists k: nat :: k < |devices| && devices[k] == device && forall j | k < j < |devices| :: devices[j].data.hash != hash
  }

  lemma LastWithMore(devices: seq<MonitorDevice>, hash: string, device: MonitorDevice, next: MonitorDevice)
    requires LastWith(devices, hash, device) && next.data.hash != hash
    ensures LastWith(devices + [next], hash, device)
  {
    var k: nat :| k < |devices| && devices[k] == device && forall j | k < j < |devices| :: devices[j].data.hash != hash;
    assert (devices + [next])[k] == device;
  }

  class DeviceManager {
    const devices: SafeList<MonitorDevice>

    ghost predicate Valid()
      reads devices
    {
      devices.added == [] && devices.removed == []
    }

    ghost function States(): map<string, DeviceState>
      reads devices, devices.items
    {
      StatesOf(devices.items)
    }

    constructor ()
      ensures Valid() && devices.items == [] && fresh(devices)
    {
      devices := new SafeList();
    }

    /** The last entry with the hash, or null exactly when there is none. */
    method GetDevice(hash: string) returns (found: MonitorDevice?)
      ensures found == null <==> hash !in States()
      ensures found != null ==> LastWith(devices.items, hash, found) && States()[hash] == found.state
    {
      found := null;
      var items := devices.items;
      for i := 0 to |items|
        invariant found == null <==> hash !in StatesOf(items[..i])
        invariant found != null ==> LastWith(items[..i], hash, found) && StatesOf(items[..i])[hash] == found.state
      {
        assert items[..i + 1][..i] == items[..i];
        assert items[..i + 1] == items[..i] + [items[i]];
        if found != null && items[i].data.hash != hash {
          LastWithMore(items[..i], hash, found, items[i]);
        }
        if items[i].data.hash == hash {
          found := items[i];
          assert items[..i + 1][i] == found;
        }
      }
      assert items[..|items|] == items;
    }

    /** An entry is added behind the others exactly when its hash is new. */
    method AddDevice(device: MonitorDevice) returns (added: bool)
      requires Valid()
      modifies devices
      ensures Valid() && added == (device.data.hash !in old(States()))
      ensures devices.items == old(devices.items) + if added then [device] else []
    {
      var present := false;
      var items := devices.items;
      for i := 0 to |items|
        invariant present == (device.data.hash in StatesOf(items[..i]))
      {
        assert items[..i + 1][..i] == items[..i];
        if items[i].data.hash == device.data.hash {
          present := true;
        }
      }
      assert items[..|items|] == items;
      if !present {
        devices.Append(device);
        WithoutNone(devices.items);
        devices.Commit();
      }
      return !present;
    }
  }
}
