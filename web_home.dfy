/**
 * The example web server of smart_home/examples/home.rs, without its HTTP
 * layer: the device info provider built from one `Provider` per device
 * category, the shared state of the handlers, its initial contents, and the
 * `device_add` handler, each handler being one atomic step on that state.
 */
module WebHome {
  import opened Wrappers
  import opened DeviceInfo
  import opened Registry
  import SmartHome
  import Provider

  // The two device types. Their `f32` readings are modelled as reals.

  datatype PowerSocket = PowerSocket(active: bool, value: real)

  datatype Thermometer = Thermometer(value: real)

  const DefaultPowerSocket := PowerSocket(false, 0.0)

  const DefaultThermometer := Thermometer(0.0)

  /** The `Display` implementations of the two device types, whose number formatting is not modelled. */
  datatype Display = Display(socket: PowerSocket -> string, thermometer: Thermometer -> string)

  const ThermometerGroup := "thermometer"

  const PowerSocketGroup := "power_socket"

  // The names `main` registers.

  const LivingRoom := "гостиная"

  const ThermometerDevice := "термометр"

  const BacklightDevice := "подсветка"

  /** The body of the error response of `device_add`. */
  const AddDeviceFailed := "There were problems when adding the device"

  /** The status text of the device stored under `handle`, if there is one. */
  function Lookup<T>(store: map<U8, T>, show: T -> string, handle: U8): Option<string>
  {
    if handle in store then Some(show(store[handle])) else None
  }

  /**
   * `get_info` over the names and stores of the two providers: the category
   * is compared with the power-socket provider's name first and the
   * thermometer provider's second; the matching provider alone answers, and
   * an unknown category resolves to nothing.
   */
  function Resolve(socketName: string, sockets: map<U8, PowerSocket>,
                   thermometerName: string, thermometers: map<U8, Thermometer>,
                   show: Display, id: DeviceId): (r: Option<string>)
    ensures r.Some? <==> || (id.category == socketName && id.handle in sockets)
                         || (id.category != socketName && id.category == thermometerName && id.handle in thermometers)
    ensures r.Some? && id.category == socketName ==> r.value == show.socket(sockets[id.handle])
    ensures r.Some? && id.category != socketName ==> r.value == show.thermometer(thermometers[id.handle])
  {
    if id.category == socketName then Lookup(sockets, show.socket, id.handle)
    else if id.category == thermometerName then Lookup(thermometers, show.thermometer, id.handle)
    else None
  }

  // An independent reference for Resolve: a list of (category name, lookup) pairs searched in order.

  datatype Category = Category(name: string, lookup: U8 -> Option<string>)

  function ResolveIn(table: seq<Category>, id: DeviceId): Option<string>
    decreases |table|
  {
    if table == [] then None
    else if table[0].name == id.category then table[0].lookup(id.handle)
    else ResolveIn(table[1..], id)
  }

  /** The first entry whose name is the category answers. */
  lemma {:induction false} ResolveInFirstMatch(table: seq<Category>, id: DeviceId, k: nat)
    requires k < |table| && table[k].name == id.category
    requires forall j :: 0 <= j < k ==> table[j].name != id.category
    ensures ResolveIn(table, id) == table[k].lookup(id.handle)
    decreases k
  {
    if k > 0 {
      ResolveInFirstMatch(table[1..], id, k - 1);
    }
  }

  /** With no entry of that name, nothing answers. */
  lemma {:induction false} ResolveInNoMatch(table: seq<Category>, id: DeviceId)
    requires forall j :: 0 <= j < |table| ==> table[j].name != id.category
    ensures ResolveIn(table, id) == None
    decreases |table|
  {
    if table != [] {
      ResolveInNoMatch(table[1..], id);
    }
  }

  /** The two-branch dispatch is the table search over the power-socket entry followed by the thermometer entry. */
  lemma ResolveIsTableSearch(socketName: string, sockets: map<U8, PowerSocket>,
                             thermometerName: string, thermometers: map<U8, Thermometer>,
                             show: Display, id: DeviceId)
    ensures Resolve(socketName, sockets, thermometerName, thermometers, show, id)
            == ResolveIn([Category(socketName, (h: U8) => Lookup(sockets, show.socket, h)),
                          Category(thermometerName, (h: U8) => Lookup(thermometers, show.thermometer, h))], id)
  {
    var table := [Category(socketName, (h: U8) => Lookup(sockets, show.socket, h)),
                  Category(thermometerName, (h: U8) => Lookup(thermometers, show.thermometer, h))];
    if id.category == socketName {
      ResolveInFirstMatch(table, id, 0);
    } else if id.category == thermometerName {
      ResolveInFirstMatch(table, id, 1);
    } else {
      ResolveInNoMatch(table, id);
    }
  }

  /** `SmartHomeDeviceProvider`: one provider per device category. */
  class SmartHomeDeviceProvider {
    const sockets: Provider.Provider<PowerSocket>
    const thermometers: Provider.Provider<Thermometer>

    ghost predicate Valid()
      reads sockets, thermometers
    {
      sockets.Valid() && thermometers.Valid()
    }

    constructor (socketName: string, thermometerName: string)
      ensures Valid() && fresh(sockets) && fresh(thermometers)
      ensures sockets.GetName() == socketName && sockets.counter == 0 && sockets.store == map[]
      ensures thermometers.GetName() == thermometerName && thermometers.counter == 0 && thermometers.store == map[]
    {
      sockets := new Provider.Provider(socketName);
      thermometers := new Provider.Provider(thermometerName);
    }

    /** `get_info`: it depends only on the names and current stores of the two providers. */
    function GetInfo(id: DeviceId, show: Display): (r: Option<string>)
      reads sockets, thermometers
      ensures r == Resolve(sockets.GetName(), sockets.store, thermometers.GetName(), thermometers.store, show, id)
    {
      if id.category == sockets.GetName() then
        match sockets.Get(id.handle)
        case None => None
        case Some(res) => Some(show.socket(res))
      else if id.category == thermometers.GetName() then
        match thermometers.Get(id.handle)
        case None => None
        case Some(res) => Some(show.thermometer(res))
      else None
    }

    /** The provider as `Home::report` receives it, by value: it answers as `get_info` does now. */
    function InfoSource(show: Display): (info: InfoSource)
      reads sockets, thermometers
      ensures forall id :: info(id) == GetInfo(id, show)
    {
      var socketName, socketStore := sockets.GetName(), sockets.store;
      var thermometerName, thermometerStore := thermometers.GetName(), thermometers.store;
      id => Resolve(socketName, socketStore, thermometerName, thermometerStore, show, id)
    }
  }

  /**
   * `Shared`: the home and the device providers behind the lock of one
   * worker. The application factory builds a separate `Shared` for each
   * worker thread.
   */
  class Shared {
    const home: SmartHome.Home
    const provider: SmartHomeDeviceProvider

    ghost predicate Valid()
      reads provider, provider.sockets, provider.thermometers
    {
      provider.Valid()
    }

    /**
     * The state `main` builds: one default power socket and one default
     * thermometer, each at handle 0 of its provider, registered in room
     * LivingRoom as BacklightDevice and ThermometerDevice. The source tags the
     * thermometer's identifier with the power-socket provider's name;
     * `thermometerCategory` is the name it is tagged with.
     */
    constructor Setup(thermometerCategory: string)
      ensures Valid()
      ensures fresh(home) && fresh(provider) && fresh(provider.sockets) && fresh(provider.thermometers)
      ensures home.GetName() == "Квартира"
      ensures home.rooms == map[LivingRoom := map[ThermometerDevice := DeviceId(thermometerCategory, 0),
                                                  BacklightDevice := DeviceId(PowerSocketGroup, 0)]]
      ensures provider.sockets.GetName() == PowerSocketGroup
      ensures provider.sockets.store == map[0 := DefaultPowerSocket] && provider.sockets.counter == 1
      ensures provider.thermometers.GetName() == ThermometerGroup
      ensures provider.thermometers.store == map[0 := DefaultThermometer] && provider.thermometers.counter == 1
    {
      var p := new SmartHomeDeviceProvider(PowerSocketGroup, ThermometerGroup);
      var socketHandle := p.sockets.Add(DefaultPowerSocket);
      var thermometerHandle := p.thermometers.Add(DefaultThermometer);
      var h := new SmartHome.Home("Квартира");
      var ok := h.RoomAdd(LivingRoom);
      assert ok.Ok?;
      ok := h.DeviceAdd(LivingRoom, ThermometerDevice, DeviceId(thermometerCategory, thermometerHandle));
      assert ok.Ok?;
      ok := h.DeviceAdd(LivingRoom, BacklightDevice, DeviceId(PowerSocketGroup, socketHandle));
      assert ok.Ok?;
      home := h;
      provider := p;
    }

    /**
     * The `device_add` handler. Kind 1 adds a default thermometer to the
     * thermometer provider, kind 2 a default power socket to the power-socket
     * provider, and the identifier is built from that provider's name and the
     * new handle; then the home registers it. Any other kind changes nothing.
     * The provider entry is made before the home is asked, so when the home
     * refuses (no such room, or the name is taken) it stays behind, unused.
     */
    method DeviceAdd(roomName: string, deviceName: string, kind: U8) returns (r: Result<(), string>)
      requires Valid()
      requires kind == 1 ==> provider.thermometers.counter < Provider.MaxCounter
      requires kind == 2 ==> provider.sockets.counter < Provider.MaxCounter
      modifies home, provider.sockets, provider.thermometers
      ensures Valid()
      ensures r.Err? ==> r.error == AddDeviceFailed
      ensures r.Ok? <==> (kind == 1 || kind == 2) && roomName in old(home.rooms) && deviceName !in old(home.rooms)[roomName]
      ensures kind != 1 && kind != 2 ==>
                unchanged(home) && unchanged(provider.sockets) && unchanged(provider.thermometers)
      ensures kind == 1 ==>
                && unchanged(provider.sockets)
                && provider.thermometers.store == old(provider.thermometers.store)[old(provider.thermometers.counter) := DefaultThermometer]
                && provider.thermometers.counter == old(provider.thermometers.counter) + 1
                && home.rooms == WithDevice(old(home.rooms), roomName, deviceName,
                                            DeviceId(provider.thermometers.GetName(), old(provider.thermometers.counter)))
      ensures kind == 2 ==>
                && unchanged(provider.thermometers)
                && provider.sockets.store == old(provider.sockets.store)[old(provider.sockets.counter) := DefaultPowerSocket]
                && provider.sockets.counter == old(provider.sockets.counter) + 1
                && home.rooms == WithDevice(old(home.rooms), roomName, deviceName,
                                            DeviceId(provider.sockets.GetName(), old(provider.sockets.counter)))
    {
      var id: Option<DeviceId>;
      if kind == 1 {
        var handle := provider.thermometers.Add(DefaultThermometer);
        id := Some(DeviceId(provider.thermometers.GetName(), handle));
      } else if kind == 2 {
        var handle := provider.sockets.Add(DefaultPowerSocket);
        id := Some(DeviceId(provider.sockets.GetName(), handle));
      } else {
        id := None;
      }
      match id
      case Some(deviceId) =>
        var added := home.DeviceAdd(roomName, deviceName, deviceId);
        r := if added.Ok? then Ok(()) else Err(AddDeviceFailed);
      case None =>
        r := Err(AddDeviceFailed);
    }

  }

  /**
   * As written, ThermometerDevice is tagged with the power-socket category, so
   * its status is that of the power socket at handle 0.
   */
  method ThermometerStatusAsWritten(show: Display) returns (status: Option<string>)
    ensures status == Some(show.socket(DefaultPowerSocket))
  {
    var shared := new Shared.Setup(PowerSocketGroup);
    status := shared.provider.GetInfo(shared.home.rooms[LivingRoom][ThermometerDevice], show);
  }

  /** Tagged with the thermometer category, ThermometerDevice reports the thermometer. */
  method ThermometerStatusIntended(show: Display) returns (status: Option<string>)
    ensures status == Some(show.thermometer(DefaultThermometer))
  {
    var shared := new Shared.Setup(ThermometerGroup);
    status := shared.provider.GetInfo(shared.home.rooms[LivingRoom][ThermometerDevice], show);
  }

  /** The rooms `main` registers, with the thermometer tagged `thermometerCategory`. */
  function InitialRooms(thermometerCategory: string): Rooms<DeviceId>
  {
    map[LivingRoom := map[ThermometerDevice := DeviceId(thermometerCategory, 0), BacklightDevice := DeviceId(PowerSocketGroup, 0)]]
  }

  /** With both identifiers pointing at power socket 0, the report shows that socket's status twice. */
  lemma InitialReportText(info: InfoSource, status: string)
    requires info(DeviceId(PowerSocketGroup, 0)) == Some(status)
    ensures SmartHome.ReportText(InitialRooms(PowerSocketGroup),
                                 [ReportParam(LivingRoom, ThermometerDevice), ReportParam(LivingRoom, BacklightDevice)], info)
            == LivingRoom + ":\n- " + ThermometerDevice + ": " + status + "\n"
               + (LivingRoom + ":\n- " + BacklightDevice + ": " + status + "\n")
  {
    var rooms := InitialRooms(PowerSocketGroup);
    var filter := [ReportParam(LivingRoom, ThermometerDevice), ReportParam(LivingRoom, BacklightDevice)];
    SmartHome.SegmentForms(rooms, filter[0], info);
    SmartHome.SegmentForms(rooms, filter[1], info);
    assert filter[..1] == [filter[0]] && filter[..1][..0] == [];
    assert SmartHome.ReportText(rooms, filter[..1], info) == SmartHome.Segment(rooms, filter[0], info);
    assert SmartHome.ReportText(rooms, filter, info)
           == SmartHome.Segment(rooms, filter[0], info) + SmartHome.Segment(rooms, filter[1], info);
  }

  /** The report of the initial state for both devices shows the power socket twice. */
  method InitialReport(show: Display) returns (r: string)
    ensures r == LivingRoom + ":\n- " + ThermometerDevice + ": " + show.socket(DefaultPowerSocket) + "\n"
                 + (LivingRoom + ":\n- " + BacklightDevice + ": " + show.socket(DefaultPowerSocket) + "\n")
  {
    var shared := new Shared.Setup(PowerSocketGroup);
    var info := shared.provider.InfoSource(show);
    assert shared.home.rooms == InitialRooms(PowerSocketGroup);
    r := shared.home.Report([ReportParam(LivingRoom, ThermometerDevice), ReportParam(LivingRoom, BacklightDevice)], info);
    InitialReportText(info, show.socket(DefaultPowerSocket));
  }

  /**
   * Once the power socket is removed from its provider while the home still
   * lists it, its report segment is the desync line.
   */
  method DesyncAfterProviderRemove(show: Display) returns (r: string)
    ensures r == LivingRoom + ":\n" + SmartHome.DesyncLine(DeviceId(PowerSocketGroup, 0), BacklightDevice)
  {
    var shared := new Shared.Setup(PowerSocketGroup);
    shared.provider.sockets.Remove(0);
    r := shared.home.Report([ReportParam(LivingRoom, BacklightDevice)], shared.provider.InfoSource(show));
  }

  /**
   * Adding a thermometer under a name the room already has is refused, but
   * the thermometer stays in its provider at the next handle.
   */
  method OrphanOnRefusedAdd() returns (r: Result<(), string>, orphan: Option<Thermometer>)
    ensures r == Err(AddDeviceFailed) && orphan == Some(DefaultThermometer)
  {
    var shared := new Shared.Setup(PowerSocketGroup);
    r := shared.DeviceAdd(LivingRoom, ThermometerDevice, 1);
    orphan := shared.provider.thermometers.Get(1);
  }
}
