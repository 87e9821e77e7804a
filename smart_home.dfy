/**
 * `Home` of smart_home/src/smart_home.rs: a house whose rooms map device
 * names to device identifiers, and the report that resolves those
 * identifiers through a `DeviceInfoProvider`.
 */
module SmartHome {
  import opened Wrappers
  import opened DeviceInfo
  import opened Registry
  import Keys
  import Decimal
  import BoxedHome

  // The report, as a function of the registry, the queries and the provider.

  /** The line reporting that the home lists `id` under `name` but the provider cannot resolve it. */
  function DesyncLine(id: DeviceId, name: string): string
  {
    "- рассинхронизация данных: устройство с идентификатором " + Decimal.Format(id.handle)
    + " не зарегистрировано среди " + id.category + ", но числиться как " + name + "\n"
  }

  /** What follows "<room>:\n" for a device of an existing room. */
  function DeviceLine(devices: map<string, DeviceId>, name: string, info: InfoSource): string
  {
    if name !in devices then "- " + name + ": не зарегистрировано"
    else match info(devices[name])
      case None => DesyncLine(devices[name], name)
      case Some(status) => "- " + name + ": " + status + "\n"
  }

  /** The part of the report one query contributes. */
  function Segment(rooms: Rooms<DeviceId>, p: ReportParam, info: InfoSource): string
  {
    p.roomName + ":"
    + if p.roomName !in rooms then " нет в доме\n"
      else "\n" + DeviceLine(rooms[p.roomName], p.deviceName, info)
  }

  /** The whole report: the segments of the queries, in query order. */
  function ReportText(rooms: Rooms<DeviceId>, filter: seq<ReportParam>, info: InfoSource): string
    decreases |filter|
  {
    if filter == [] then ""
    else ReportText(rooms, filter[..|filter| - 1], info) + Segment(rooms, filter[|filter| - 1], info)
  }

  // What the report promises.

  /**
   * The four forms of a segment, first match wins: the room is missing; the
   * device is missing (the only form without a trailing newline); the
   * provider cannot resolve the stored identifier; the status line.
   */
  lemma SegmentForms(rooms: Rooms<DeviceId>, p: ReportParam, info: InfoSource)
    ensures p.roomName !in rooms ==>
              Segment(rooms, p, info) == p.roomName + ": нет в доме\n"
    ensures p.roomName in rooms && p.deviceName !in rooms[p.roomName] ==>
              Segment(rooms, p, info) == p.roomName + ":\n- " + p.deviceName + ": не зарегистрировано"
    ensures p.roomName in rooms && p.deviceName in rooms[p.roomName] && info(rooms[p.roomName][p.deviceName]).None? ==>
              Segment(rooms, p, info) == p.roomName + ":\n" + DesyncLine(rooms[p.roomName][p.deviceName], p.deviceName)
    ensures p.roomName in rooms && p.deviceName in rooms[p.roomName] && info(rooms[p.roomName][p.deviceName]).Some? ==>
              Segment(rooms, p, info)
              == p.roomName + ":\n- " + p.deviceName + ": " + info(rooms[p.roomName][p.deviceName]).value + "\n"
  {
  }

  /** The report of two query lists run one after the other is the two reports concatenated. */
  lemma {:induction false} ReportConcat(rooms: Rooms<DeviceId>, f: seq<ReportParam>, g: seq<ReportParam>, info: InfoSource)
    ensures ReportText(rooms, f + g, info) == ReportText(rooms, f, info) + ReportText(rooms, g, info)
    decreases |g|
  {
    if g == [] {
      assert f + g == f;
    } else {
      var g' := g[..|g| - 1];
      ReportConcat(rooms, f, g', info);
      assert (f + g)[..|f + g| - 1] == f + g';
      assert (f + g)[|f + g| - 1] == g[|g| - 1];
    }
  }

  /** The segment of the i-th query stands in the report between those of the queries before and after it. */
  lemma ReportSegmentAt(rooms: Rooms<DeviceId>, filter: seq<ReportParam>, i: nat, info: InfoSource)
    requires i < |filter|
    ensures ReportText(rooms, filter, info)
            == ReportText(rooms, filter[..i], info) + Segment(rooms, filter[i], info)
               + ReportText(rooms, filter[i + 1..], info)
  {
    assert filter == filter[..i] + [filter[i]] + filter[i + 1..];
    ReportConcat(rooms, filter[..i] + [filter[i]], filter[i + 1..], info);
    ReportConcat(rooms, filter[..i], [filter[i]], info);
    assert ReportText(rooms, [filter[i]], info) == Segment(rooms, filter[i], info) by {
      assert [filter[i]][..0] == [];
    }
  }

  /**
   * The provider is consulted only for identifiers the home stores: two
   * providers that agree on those give the same report.
   */
  lemma {:induction false} ReportReadsOnlyStoredIds(rooms: Rooms<DeviceId>, filter: seq<ReportParam>, info1: InfoSource, info2: InfoSource)
    requires forall r, d :: r in rooms && d in rooms[r] ==> info1(rooms[r][d]) == info2(rooms[r][d])
    ensures ReportText(rooms, filter, info1) == ReportText(rooms, filter, info2)
    decreases |filter|
  {
    if filter != [] {
      ReportReadsOnlyStoredIds(rooms, filter[..|filter| - 1], info1, info2);
      var p := filter[|filter| - 1];
      assert Segment(rooms, p, info1) == Segment(rooms, p, info2);
    }
  }

  /**
   * When the provider resolves every identifier the home stores, this report
   * is exactly the three-outcome report of src/lib.rs over a home that holds
   * the resolved status texts in place of the identifiers.
   */
  lemma {:induction false} ReportWithoutDesync(rooms: Rooms<DeviceId>, filter: seq<ReportParam>, info: InfoSource)
    requires forall r, d :: r in rooms && d in rooms[r] ==> info(rooms[r][d]).Some?
    ensures ReportText(rooms, filter, info)
            == BoxedHome.ReportText(rooms, filter, (id: DeviceId) => match info(id) case Some(s) => s case None => "")
    decreases |filter|
  {
    if filter != [] {
      ReportWithoutDesync(rooms, filter[..|filter| - 1], info);
    }
  }

  class Home {
    const name: string
    var rooms: Rooms<DeviceId>

    constructor (name: string)
      ensures GetName() == name && rooms == map[]
    {
      this.name := name;
      rooms := map[];
    }

    /** The name given at construction; `name` is a `const`, so no room or device operation changes it. */
    function GetName(): (r: string)
      ensures r == name
    {
      name
    }

    /** The room names, each once, in some order. */
    method RoomList() returns (r: seq<string>)
      ensures |r| == |rooms|
      ensures forall k :: k in r <==> k in rooms
      ensures Keys.Distinct(r)
    {
      r := Keys.KeyList(rooms);
    }

    method RoomAdd(roomName: string) returns (r: Result<(), string>)
      modifies this
      ensures r.Err? <==> roomName in old(rooms)
      ensures r.Err? ==> r.error == RoomDuplicated(roomName)
      ensures rooms == WithRoom(old(rooms), roomName)
    {
      if roomName in rooms {
        r := Err(RoomDuplicated(roomName));
      } else {
        rooms := rooms[roomName := map[]];
        r := Ok(());
      }
    }

    method RoomRemove(roomName: string)
      modifies this
      ensures rooms == WithoutRoom(old(rooms), roomName)
    {
      rooms := rooms - {roomName};
    }

    /**
     * Fails exactly when the room is absent. On an existing room it lists
     * the keys of `rooms`, not of the room's devices, as the source does.
     */
    method DeviceList(roomName: string) returns (r: Result<seq<string>, string>)
      ensures roomName !in rooms ==> r == Err(RoomMissing(roomName))
      ensures roomName in rooms ==>
                && r.Ok?
                && |r.value| == |rooms|
                && (forall k :: k in r.value <==> k in rooms)
                && Keys.Distinct(r.value)
    {
      if roomName !in rooms {
        r := Err(RoomMissing(roomName));
      } else {
        var result := Keys.KeyList(rooms);
        r := Ok(result);
      }
    }

    method DeviceAdd(roomName: string, deviceName: string, deviceId: DeviceId) returns (r: Result<(), string>)
      modifies this
      ensures roomName !in old(rooms) ==> r == Err(RoomMissing(roomName))
      ensures roomName in old(rooms) && deviceName in old(rooms)[roomName] ==>
                r == Err(DeviceDuplicated(roomName, deviceName))
      ensures roomName in old(rooms) && deviceName !in old(rooms)[roomName] ==> r == Ok(())
      ensures rooms == WithDevice(old(rooms), roomName, deviceName, deviceId)
    {
      if roomName !in rooms {
        r := Err(RoomMissing(roomName));
      } else {
        var devices := rooms[roomName];
        if deviceName !in devices {
          rooms := rooms[roomName := devices[deviceName := deviceId]];
          r := Ok(());
        } else {
          r := Err(DeviceDuplicated(roomName, deviceName));
        }
      }
    }

    method DeviceRemove(roomName: string, deviceName: string)
      modifies this
      ensures rooms == WithoutDevice(old(rooms), roomName, deviceName)
    {
      if roomName in rooms {
        var devices := rooms[roomName];
        rooms := rooms[roomName := devices - {deviceName}];
      }
    }

    /** Appends one segment per query, in query order; the home is only read. */
    method Report(filter: seq<ReportParam>, provider: InfoSource) returns (r: string)
      ensures r == ReportText(rooms, filter, provider)
    {
      var builder := "";
      for i := 0 to |filter|
        invariant builder == ReportText(rooms, filter[..i], provider)
      {
        var param := filter[i];
        var segment;
        if param.roomName !in rooms {
          segment := param.roomName + ":" + " нет в доме\n";
        } else {
          var devices := rooms[param.roomName];
          if param.deviceName !in devices {
            segment := param.roomName + ":" + ("\n" + ("- " + param.deviceName + ": не зарегистрировано"));
          } else {
            var device := devices[param.deviceName];
            match provider(device)
            case None =>
              segment := param.roomName + ":" + ("\n" + DesyncLine(device, param.deviceName));
            case Some(info) =>
              segment := param.roomName + ":" + ("\n" + ("- " + param.deviceName + ": " + info + "\n"));
          }
        }
        assert filter[..i + 1][..i] == filter[..i];
        builder := builder + segment;
      }
      assert filter[..|filter|] == filter;
      r := builder;
    }
  }

  /**
   * The unit test `device_remove`: after adding a device to the only room
   * and removing it, the device list still has one entry (the room name).
   */
  method DeviceListAfterRemove() returns (count: nat)
    ensures count == 1
  {
    var home := new Home("test");
    var ok := home.RoomAdd("кухня");
    ok := home.DeviceAdd("кухня", "device", DeviceId("type", 0));
    home.DeviceRemove("кухня", "device");
    var result := home.DeviceList("кухня");
    assert home.rooms.Keys == {"кухня"};
    count := |result.value|;
  }
}
