/**
 * The older `Home` of src/lib.rs (its `SmartHome` trait implementation):
 * the same registry, but each room holds the device objects themselves, and
 * the report asks each device for its status with `Device::report`, passed
 * here as `describe`.
 */
module BoxedHome {
  import opened Wrappers
  import opened Registry
  import Keys

  /** The part of the report one query contributes; there is no provider, so no desync form. */
  function Segment<D>(rooms: Rooms<D>, p: ReportParam, describe: D -> string): string
  {
    p.roomName + ":"
    + if p.roomName !in rooms then " нет в доме\n"
      else if p.deviceName !in rooms[p.roomName] then "\n- " + p.deviceName + ": не зарегистрировано"
      else "\n- " + p.deviceName + ": " + describe(rooms[p.roomName][p.deviceName]) + "\n"
  }

  /** The whole report: the segments of the queries, in query order. */
  function ReportText<D>(rooms: Rooms<D>, filter: seq<ReportParam>, describe: D -> string): string
    decreases |filter|
  {
    if filter == [] then ""
    else ReportText(rooms, filter[..|filter| - 1], describe) + Segment(rooms, filter[|filter| - 1], describe)
  }

  /** The three forms of a segment, first match wins. */
  lemma SegmentForms<D>(rooms: Rooms<D>, p: ReportParam, describe: D -> string)
    ensures p.roomName !in rooms ==>
              Segment(rooms, p, describe) == p.roomName + ": нет в доме\n"
    ensures p.roomName in rooms && p.deviceName !in rooms[p.roomName] ==>
              Segment(rooms, p, describe) == p.roomName + ":\n- " + p.deviceName + ": не зарегистрировано"
    ensures p.roomName in rooms && p.deviceName in rooms[p.roomName] ==>
              Segment(rooms, p, describe)
              == p.roomName + ":\n- " + p.deviceName + ": " + describe(rooms[p.roomName][p.deviceName]) + "\n"
  {
  }

  /** The report of two query lists run one after the other is the two reports concatenated. */
  lemma {:induction false} ReportConcat<D>(rooms: Rooms<D>, f: seq<ReportParam>, g: seq<ReportParam>, describe: D -> string)
    ensures ReportText(rooms, f + g, describe) == ReportText(rooms, f, describe) + ReportText(rooms, g, describe)
    decreases |g|
  {
    if g == [] {
      assert f + g == f;
    } else {
      var g' := g[..|g| - 1];
      ReportConcat(rooms, f, g', describe);
      assert (f + g)[..|f + g| - 1] == f + g';
      assert (f + g)[|f + g| - 1] == g[|g| - 1];
    }
  }

  /** Only the devices a query names are asked for their status. */
  lemma {:induction false} ReportReadsOnlyQueriedDevices<D>(rooms: Rooms<D>, filter: seq<ReportParam>, d1: D -> string, d2: D -> string)
    requires forall i :: 0 <= i < |filter| && filter[i].roomName in rooms && filter[i].deviceName in rooms[filter[i].roomName] ==>
               d1(rooms[filter[i].roomName][filter[i].deviceName]) == d2(rooms[filter[i].roomName][filter[i].deviceName])
    ensures ReportText(rooms, filter, d1) == ReportText(rooms, filter, d2)
    decreases |filter|
  {
    if filter != [] {
      var n := |filter| - 1;
      ReportReadsOnlyQueriedDevices(rooms, filter[..n], d1, d2);
      assert Segment(rooms, filter[n], d1) == Segment(rooms, filter[n], d2);
    }
  }

  class Home<D> {
    const name: string
    var rooms: Rooms<D>

    /** The struct literal the crate's own test builds: a name and no rooms. */
    constructor (name: string)
      ensures this.name == name && rooms == map[]
    {
      this.name := name;
      rooms := map[];
    }

    /** The room names, each once, in some order. */
    method RoomsList() returns (r: seq<string>)
      ensures |r| == |rooms|
      ensures forall k :: k in r <==> k in rooms
      ensures Keys.Distinct(r)
    {
      r := Keys.KeyList(rooms);
    }

    method AddRoom(roomName: string) returns (r: Result<(), string>)
      modifies this
      ensures r.Err? <==> roomName in old(rooms)
      ensures r.Err? ==> r.error == RoomDuplicated(roomName)
      ensures rooms == WithRoom(old(rooms), roomName)
    {
      if roomName in rooms {
        r := Err(RoomDuplicated(roomName));
      } else {
        rooms := rooms[roomName := map[]];
        r := Ok(());
      }
    }

    method RemoveRoom(roomName: string)
      modifies this
      ensures rooms == WithoutRoom(old(rooms), roomName)
    {
      rooms := rooms - {roomName};
    }

    /**
     * Fails exactly when the room is absent. On an existing room it lists
     * the keys of `rooms`, not the room's device names, as the source does.
     */
    method DevicesList(roomName: string) returns (r: Result<seq<string>, string>)
      ensures roomName !in rooms ==> r == Err(RoomMissing(roomName))
      ensures roomName in rooms ==>
                && r.Ok?
                && |r.value| == |rooms|
                && (forall k :: k in r.value <==> k in rooms)
                && Keys.Distinct(r.value)
    {
      if roomName !in rooms {
        r := Err(RoomMissing(roomName));
      } else {
        var result := Keys.KeyList(rooms);
        r := Ok(result);
      }
    }

    method AddDevice(roomName: string, deviceName: string, device: D) returns (r: Result<(), string>)
      modifies this
      ensures roomName !in old(rooms) ==> r == Err(RoomMissing(roomName))
      ensures roomName in old(rooms) && deviceName in old(rooms)[roomName] ==>
                r == Err(DeviceDuplicated(roomName, deviceName))
      ensures roomName in old(rooms) && deviceName !in old(rooms)[roomName] ==> r == Ok(())
      ensures rooms == WithDevice(old(rooms), roomName, deviceName, device)
    {
      if roomName !in rooms {
        r := Err(RoomMissing(roomName));
      } else {
        var devices := rooms[roomName];
        if deviceName !in devices {
          rooms := rooms[roomName := devices[deviceName := device]];
          r := Ok(());
        } else {
          r := Err(DeviceDuplicated(roomName, deviceName));
        }
      }
    }

    method RemoveDevice(roomName: string, deviceName: string)
      modifies this
      ensures rooms == WithoutDevice(old(rooms), roomName, deviceName)
    {
      if roomName in rooms {
        var devices := rooms[roomName];
        rooms := rooms[roomName := devices - {deviceName}];
      }
    }

    /** Appends one segment per query, in query order; the home is only read. */
    method Report(filter: seq<ReportParam>, describe: D -> string) returns (r: string)
      ensures r == ReportText(rooms, filter, describe)
    {
      var builder := "";
      for i := 0 to |filter|
        invariant builder == ReportText(rooms, filter[..i], describe)
      {
        var param := filter[i];
        var segment;
        if param.roomName !in rooms {
          segment := param.roomName + ":" + " нет в доме\n";
        } else {
          var devices := rooms[param.roomName];
          if param.deviceName !in devices {
            segment := param.roomName + ":" + ("\n- " + param.deviceName + ": не зарегистрировано");
          } else {
            segment := param.roomName + ":" + ("\n- " + param.deviceName + ": " + describe(devices[param.deviceName]) + "\n");
          }
        }
        assert filter[..i + 1][..i] == filter[..i];
        builder := builder + segment;
      }
      assert filter[..|filter|] == filter;
      r := builder;
    }
  }
}
