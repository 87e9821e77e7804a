/**
 * The name-keyed registry contract both `Home` types implement: a map from
 * room name to a map from device name to whatever the home stores for a
 * device (a `DeviceId` in smart_home/src/smart_home.rs, the device object
 * itself in src/lib.rs). The functions below give the new contents of the
 * map after each mutating operation; the two `Home` classes are proved
 * against them, and the lemmas state what the operations promise.
 */
module Registry {
  import opened Wrappers

  type Rooms<V> = map<string, map<string, V>>

  /** One (room, device) query of a report. */
  datatype ReportParam = ReportParam(roomName: string, deviceName: string)

  // The error texts the registry operations return.

  function RoomDuplicated(room: string): string
  {
    "Комната " + room + " уже зарегистрирована"
  }

  function RoomMissing(room: string): string
  {
    "Комната " + room + " не зарегистрирована"
  }

  function DeviceDuplicated(room: string, device: string): string
  {
    "В комнате " + room + " уже зарегистрировано устройство " + device
  }

  // The contents after each mutating operation.

  /** `room_add`: a new, empty room unless the name is taken. */
  function WithRoom<V>(rooms: Rooms<V>, name: string): Rooms<V>
  {
    if name in rooms then rooms else rooms[name := map[]]
  }

  /** `room_remove`: the room and all its devices are dropped. */
  function WithoutRoom<V>(rooms: Rooms<V>, name: string): Rooms<V>
  {
    rooms - {name}
  }

  /** `device_add`: the device is registered if its room exists and the name is free there. */
  function WithDevice<V>(rooms: Rooms<V>, room: string, device: string, v: V): Rooms<V>
  {
    if room in rooms && device !in rooms[room] then rooms[room := rooms[room][device := v]] else rooms
  }

  /** `device_remove`: the device is dropped from its room if both exist. */
  function WithoutDevice<V>(rooms: Rooms<V>, room: string, device: string): Rooms<V>
  {
    if room in rooms then rooms[room := rooms[room] - {device}] else rooms
  }

  /** Two maps that differ at most in the entry for `name`. */
  ghost predicate SameExcept<V>(a: map<string, V>, b: map<string, V>, name: string)
  {
    && (forall n :: n != name ==> (n in a <==> n in b))
    && (forall n :: n != name && n in a ==> a[n] == b[n])
  }

  // What the operations promise.

  /**
   * Adding a room that exists changes nothing and keeps the room count;
   * adding a fresh one creates it empty, adds one to the count and leaves
   * every other room as it was.
   */
  lemma RoomAddEffect<V>(rooms: Rooms<V>, name: string)
    ensures name in WithRoom(rooms, name)
    ensures name in rooms ==> WithRoom(rooms, name) == rooms
    ensures name !in rooms ==> WithRoom(rooms, name)[name] == map[] && |WithRoom(rooms, name)| == |rooms| + 1
    ensures SameExcept(rooms, WithRoom(rooms, name), name)
  {
  }

  /**
   * Afterwards the room is gone and every other room, with its devices, is
   * untouched; removing an absent room is a no-op, and removing twice is
   * removing once.
   */
  lemma RoomRemoveEffect<V>(rooms: Rooms<V>, name: string)
    ensures name !in WithoutRoom(rooms, name)
    ensures SameExcept(rooms, WithoutRoom(rooms, name), name)
    ensures name !in rooms ==> WithoutRoom(rooms, name) == rooms
    ensures WithoutRoom(WithoutRoom(rooms, name), name) == WithoutRoom(rooms, name)
  {
    if name !in rooms {
      assert WithoutRoom(rooms, name).Keys == rooms.Keys;
    }
  }

  /** Removing a room just added gives back the registry as it was. */
  lemma RoomAddRemoveRoundTrip<V>(rooms: Rooms<V>, name: string)
    requires name !in rooms
    ensures WithoutRoom(WithRoom(rooms, name), name) == rooms
  {
    assert WithoutRoom(WithRoom(rooms, name), name).Keys == rooms.Keys;
  }

  /**
   * The three outcomes of adding a device: no room, nothing changes; a
   * taken name, the stored value stays; otherwise the name maps to the new
   * value and no other room or device changes.
   */
  lemma DeviceAddEffect<V>(rooms: Rooms<V>, room: string, device: string, v: V)
    ensures room !in rooms ==> WithDevice(rooms, room, device, v) == rooms
    ensures room in rooms && device in rooms[room] ==>
              WithDevice(rooms, room, device, v) == rooms
    ensures room in rooms && device !in rooms[room] ==>
              && room in WithDevice(rooms, room, device, v)
              && WithDevice(rooms, room, device, v)[room] == rooms[room][device := v]
              && |WithDevice(rooms, room, device, v)[room]| == |rooms[room]| + 1
    ensures SameExcept(rooms, WithDevice(rooms, room, device, v), room)
    ensures room in rooms ==> SameExcept(rooms[room], WithDevice(rooms, room, device, v)[room], device)
  {
  }

  /**
   * Removing a device never fails: it is a no-op when the room or the device
   * is absent, it takes out only the named device, and removing twice is
   * removing once.
   */
  lemma DeviceRemoveEffect<V>(rooms: Rooms<V>, room: string, device: string)
    ensures room !in rooms ==> WithoutDevice(rooms, room, device) == rooms
    ensures room in rooms && device !in rooms[room] ==> WithoutDevice(rooms, room, device) == rooms
    ensures room in rooms ==>
              && room in WithoutDevice(rooms, room, device)
              && device !in WithoutDevice(rooms, room, device)[room]
              && SameExcept(rooms[room], WithoutDevice(rooms, room, device)[room], device)
    ensures SameExcept(rooms, WithoutDevice(rooms, room, device), room)
    ensures WithoutDevice(WithoutDevice(rooms, room, device), room, device) == WithoutDevice(rooms, room, device)
  {
    if room in rooms && device !in rooms[room] {
      assert rooms[room] - {device} == rooms[room];
      assert rooms[room := rooms[room]] == rooms;
    }
    if room in rooms {
      var once := WithoutDevice(rooms, room, device);
      assert once[room] - {device} == once[room];
    }
  }

  /** Removing a device just added gives back the registry as it was. */
  lemma DeviceAddRemoveRoundTrip<V>(rooms: Rooms<V>, room: string, device: string, v: V)
    requires room in rooms && device !in rooms[room]
    ensures WithoutDevice(WithDevice(rooms, room, device, v), room, device) == rooms
  {
    assert rooms[room][device := v] - {device} == rooms[room];
  }
}
