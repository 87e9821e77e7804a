# Smart home registry and report, modelled in Dafny

This project models the core of a small Rust smart-home library: a home, its rooms, and the devices in each room, plus the text report rendered for a list of (room, device) queries.

There are two `Home` types:

- `smart_home::Home` stores, for each device name, only a `DeviceId`: a category name and a `u8` handle. At report time it resolves that identifier through a `DeviceInfoProvider`.
- The older `Home` of the root crate stores the device objects themselves. Its report asks each device for its status.

The identifiers are handed out by `Provider<T>`, a per-category store with a counter that only goes up. The example web server puts one provider per category behind a `DeviceInfoProvider` and adds devices through its `device_add` handler.

Modules, one per source file plus shared helpers:

- `Wrappers` (wrappers.dfy): `Option` and `Result`.
- `Keys` (keys.dfy): the loop that copies a hash map's keys into a vector.
- `Decimal` (decimal.dfy): `{}` formatting of the `u8` handle that appears in the desync line.
- `DeviceInfo` (device_info.dfy): `U8`, `DeviceId`, and `InfoSource`, which is what `get_info` computes.
- `Registry` (registry.dfy): the registry contract both homes share. It has the new room map after each mutating operation, the error texts, and the lemmas about them.
- `SmartHome` (smart_home.dfy): `smart_home::Home` as a class, and its four-outcome report.
- `BoxedHome` (boxed_home.dfy): the older `Home<D>` as a class, and its three-outcome report.
- `Provider` (provider.dfy): `Provider<T>` as a class.
- `WebHome` (web_home.dfy): `SmartHomeDeviceProvider::get_info`, the state one server worker shares among its handlers, the start-up contents built by `main`, and the `device_add` handler.

How each part is modelled:

- **Homes and provider:** each is a class whose methods update a `map` field, as the Rust methods update a `HashMap`. Each method is proved against a function in `Registry`, or states its new state directly.
- **Reports:** each report is a loop that appends one segment per query. It is proved equal to a recursive function.
- **Properties:** the promised behaviour is proved as lemmas about the `Registry` and report functions. This covers errors on duplicates, silent no-op removal, idempotence, add/remove round trips, report order, and the segment forms.

Two behaviours of the source are kept as written:

- `device_list`/`devices_list` returns the keys of `rooms`, not the room's device names.
- The "не зарегистрировано" line has no trailing newline.

## Model

| member | source | states |
|---|---|---|
| SmartHome.Home.GetName | smart_home/src/smart_home.rs:24-26 | Returns the name the home was constructed with. `name` is a `const`, so no room or device operation can change it |
| Provider.Provider.GetName | provider/src/lib.rs:18-20 | Returns the name the provider was constructed with. `name` is a `const`, so `add` and `remove` cannot change it |
| Provider.AddThenGet | provider/src/lib.rs:22-31 | On any valid provider with handles left, `get` of the handle `add` just returned yields the added item |
| Keys.KeyList | smart_home/src/smart_home.rs:27-32 | The list holds every key of the map exactly once and nothing else, in some order, so its length is the key count |
| Decimal.Format | smart_home/src/smart_home.rs:100 | `{}` of the handle: at least one decimal digit, no leading zero |
| Decimal.FormatRoundTrip | smart_home/src/smart_home.rs:100 | Reading the formatted digits back gives the number, so the desync line names the handle exactly |
| Decimal.FormatInjective | smart_home/src/smart_home.rs:100 | Different handles give different texts |
| Registry.RoomAddEffect | smart_home/src/smart_home.rs:34-41 | Duplicate name: no change, same room count. Fresh name: the room exists, is empty, the count grows by one, and the other rooms are unchanged |
| Registry.RoomRemoveEffect | smart_home/src/smart_home.rs:42-44 | Afterwards the name is absent and every other room and its devices is unchanged. Removing an absent name is a no-op. Removing twice is removing once |
| Registry.RoomAddRemoveRoundTrip | smart_home/src/smart_home.rs:34-44 | Removing a freshly added room restores the registry exactly |
| Registry.DeviceAddEffect | smart_home/src/smart_home.rs:57-76 | Room absent: no change. Name taken: the stored value stays. Otherwise the name maps to the new value, and no other room or device changes |
| Registry.DeviceRemoveEffect | smart_home/src/smart_home.rs:77-84 | No-op when the room or the device is absent. Removes only the named device. Removing twice is removing once |
| Registry.DeviceAddRemoveRoundTrip | smart_home/src/smart_home.rs:57-84 | Removing a freshly added device restores the registry exactly |
| SmartHome.SegmentForms | smart_home/src/smart_home.rs:88-109 | Each segment starts `"<room>:"` and takes one of four forms, first match wins: room missing; device missing (no trailing newline); provider returns `None` (the desync line); provider returns the status |
| SmartHome.ReportConcat | smart_home/src/smart_home.rs:86-111 | The report over the queries of `f` followed by those of `g` is report(f) followed by report(g) |
| SmartHome.ReportSegmentAt | smart_home/src/smart_home.rs:86-111 | The i-th query's segment sits between the report of the earlier queries and that of the later ones: one segment per query, in query order |
| SmartHome.ReportReadsOnlyStoredIds | smart_home/src/smart_home.rs:98 | The provider is asked only about identifiers the home stores: two providers that agree on those give the same report |
| SmartHome.ReportWithoutDesync | smart_home/src/smart_home.rs:86-111 | If the provider resolves every stored identifier, the report equals the older three-outcome report run on the resolved statuses |
| SmartHome.Home.constructor | smart_home/src/smart_home.rs:18-26 | The new home has the given name and no rooms |
| SmartHome.Home.RoomList | smart_home/src/smart_home.rs:27-33 | Every room name exactly once, in some order |
| SmartHome.Home.RoomAdd | smart_home/src/smart_home.rs:34-41 | Returns `Err` with the "уже зарегистрирована" text exactly when the room exists. The new rooms are `WithRoom` of the old |
| SmartHome.Home.RoomRemove | smart_home/src/smart_home.rs:42-44 | Never fails. The new rooms are the old ones without that name |
| SmartHome.Home.DeviceList | smart_home/src/smart_home.rs:45-56 | `Err` with the "не зарегистрирована" text exactly when the room is absent. Otherwise the room names, each once, so the length is the room count |
| SmartHome.Home.DeviceAdd | smart_home/src/smart_home.rs:57-76 | Room absent: `Err`. Name taken: `Err` with the duplicate-device text. Otherwise `Ok`. The new rooms are `WithDevice` of the old |
| SmartHome.Home.DeviceRemove | smart_home/src/smart_home.rs:77-84 | Never fails. The new rooms are `WithoutDevice` of the old |
| SmartHome.Home.Report | smart_home/src/smart_home.rs:86-112 | The appending loop produces exactly `ReportText` of the rooms, queries and provider, and the home is only read |
| SmartHome.DeviceListAfterRemove | smart_home/src/smart_home.rs:208-218 | After adding a device to the only room and removing it, the device list still has length 1 |
| BoxedHome.SegmentForms | src/lib.rs:137-155 | Each segment takes one of three forms: room missing; device missing (no trailing newline); `"<room>:\n- <dev>: <device.report()>\n"` |
| BoxedHome.ReportConcat | src/lib.rs:135-157 | The report is the segments in query order: report(f + g) is report(f) followed by report(g) |
| BoxedHome.ReportReadsOnlyQueriedDevices | src/lib.rs:147-151 | Only the devices the queries name are asked for their status |
| BoxedHome.Home.constructor | src/lib.rs:181-184 | Named home with no rooms |
| BoxedHome.Home.RoomsList | src/lib.rs:76-82 | Every room name exactly once, in some order |
| BoxedHome.Home.AddRoom | src/lib.rs:83-90 | `Err` exactly on a duplicate name, with rooms unchanged. Otherwise an empty room is inserted |
| BoxedHome.Home.RemoveRoom | src/lib.rs:91-93 | Never fails. Afterwards the name is absent |
| BoxedHome.Home.DevicesList | src/lib.rs:94-105 | `Err` exactly when the room is absent. Otherwise the room names, not the device names |
| BoxedHome.Home.AddDevice | src/lib.rs:106-125 | Room absent: `Err`. Duplicate name: `Err`, existing device kept. Otherwise inserted |
| BoxedHome.Home.RemoveDevice | src/lib.rs:126-133 | No-op on a missing room or device. Otherwise removes only the named device |
| BoxedHome.Home.Report | src/lib.rs:135-157 | The appending loop produces exactly the three-outcome `ReportText`, and the home is only read |
| Provider.Provider.constructor | provider/src/lib.rs:10-16 | Counter 0, empty store, the given name |
| Provider.Provider.Add | provider/src/lib.rs:22-27 | Needs the counter below 255. Returns the pre-increment counter, which is a handle not in the store. Stores the item under it, leaves every other entry unchanged, and raises the counter by exactly 1 |
| Provider.Provider.Get | provider/src/lib.rs:29-31 | `Some` exactly for a stored handle, with the stored item |
| Provider.Provider.Remove | provider/src/lib.rs:33-35 | The handle is no longer stored and the counter is untouched. Removing an absent handle changes nothing |
| Provider.Provider.AddWrapping | provider/src/lib.rs:22-27 | `add` with the `u8` addition wrapping as in a build without overflow checks: the counter goes from 255 to 0 |
| Provider.AddGetRemove | provider/src/lib.rs:42-79 | The unit tests: the name is kept, the first handle is 0, `get` returns the item, and after `remove` `get` returns `None` |
| Provider.RemoveThenAdd | provider/src/lib.rs:22-35 | After an issued handle is removed, the next `add` returns a different handle and `get` of the removed one stays `None`. The counter rises by exactly one and stays above the removed handle, so no later `add` can return it either |
| Provider.WrappedCounterReusesHandle | provider/src/lib.rs:22-27 | With a wrapping counter, the 257th `add` returns handle 0 again and overwrites the first item |
| WebHome.Resolve | smart_home/examples/home.rs:19-29 | Resolves exactly when the category is the power-socket provider's name and the handle is stored there, or else is the thermometer provider's name and the handle is stored there. A matched provider that lacks the handle gives `None`, with no fall-through |
| WebHome.ResolveIsTableSearch | smart_home/examples/home.rs:19-29 | The two-branch dispatch equals searching an ordered (category, lookup) table: power socket first, thermometer second |
| WebHome.ResolveInFirstMatch | smart_home/examples/home.rs:20-25 | A table search returns the lookup of the first category whose name matches, even when that lookup finds nothing |
| WebHome.ResolveInNoMatch | smart_home/examples/home.rs:26-28 | When no category matches, the answer is `None` |
| WebHome.SmartHomeDeviceProvider.constructor | smart_home/examples/home.rs:49-52 | Two fresh, empty providers with the given names |
| WebHome.SmartHomeDeviceProvider.GetInfo | smart_home/examples/home.rs:19-29 | `get_info` depends only on the two providers' names and current stores |
| WebHome.SmartHomeDeviceProvider.InfoSource | smart_home/examples/home.rs:18-30 | The provider as an `InfoSource` value, the form `Home::report` takes, answers every identifier as `get_info` does. No handler of the example server calls `report`; this is the value such a call would use |
| WebHome.Shared.Setup | smart_home/examples/home.rs:46-73 | The start-up state: one default device at handle 0 of each provider, and room "гостиная" holding both devices with their identifiers. Every `unwrap` succeeds |
| WebHome.Shared.DeviceAdd | smart_home/examples/home.rs:141-175 | Kind 1: a default thermometer goes to the thermometer provider, tagged with its name. Kind 2: the same for the power-socket provider. Any other kind: nothing changes. The provider's `add` happens before the home is asked, so a refused add leaves an orphan. The response is `Ok` exactly when the kind is known and the home accepts |
| WebHome.InitialReportText | smart_home/examples/home.rs:58-73 | With both identifiers at power socket 0, the report for both devices shows that socket's status twice |
| WebHome.InitialReport | smart_home/examples/home.rs:58-73 | A report over the start-up state, resolved through this provider, would show the default power socket's status for "термометр" and for "подсветка". No route of the example server builds this report |
| WebHome.ThermometerStatusAsWritten | smart_home/examples/home.rs:63-66 | As written, "термометр" resolves through the power-socket provider at handle 0 |
| WebHome.ThermometerStatusIntended | smart_home/examples/home.rs:63-66 | Tagged with the thermometer category, "термометр" resolves to the default thermometer |
| WebHome.DesyncAfterProviderRemove | smart_home/src/smart_home.rs:98-100 | After the power socket is removed from its provider while the home still lists it, its segment is the desync line for handle 0 of "power_socket" |
| WebHome.OrphanOnRefusedAdd | smart_home/examples/home.rs:148-170 | Adding thermometer "термометр" again is refused with the error text, yet a new thermometer now sits at handle 1 of its provider |

## Left out

- The HTTP layer of smart_home/examples/home.rs is not modelled: actix-web routing, `HttpServer`, JSON (de)serialization of `Device`, and `HttpResponse`. A response is a `Result` carrying the error body. The one-call handlers `detail`, `rooms`, `room_add`, `room_remove`, `devices` and `device_remove` are direct calls to the `Home` operations above.
- The `tokio::sync::Mutex` around `Shared` is not modelled. Each handler is one atomic step on one state.
- The model has a single `Shared`. The closure passed to `HttpServer::new` (smart_home/examples/home.rs:45-98) is an application factory, and actix calls it once per worker thread. So the server builds one `Shared`, with its own providers, home and lock, per worker, and a device added through one worker is not seen by requests another worker serves. The model covers the state of one worker.
- How `PowerSocket` and `Thermometer` format their `f32` readings (their `Display` and `report` bodies) is not modelled. Their status texts are the parameters `Display` (web_home.dfy) and `describe` (boxed_home.dfy). `f32` is `real`.
- `turn_on`/`turn_off` of the power socket and the `println!` demo in src/main.rs are not modelled: they have no registry logic.
- The `DeviceError`/`RoomError` enums of smart_home/src/error.rs are not used by the modelled code, which returns `String` errors. The model returns the same texts.
- Hash-map iteration order is not modelled. Key lists come out in an arbitrary order, so only their contents and length are specified. `string_builder::Builder` is string concatenation; its `string().unwrap()` cannot fail on text built from strings.
- Within one report iteration the loop builds the segment first and then appends it. The Rust code appends `"<room>:"` and the branch text separately. The resulting text is the same.
- Provider.Provider.Add: the 256th `add` overflows the `u8` counter. The model forbids that call by precondition instead of modelling the panic; `AddWrapping` models the wrapping behaviour.
- `get` returns a reference in Rust; the model returns the stored value.

## Findings

| source | as written | input that shows it | evidently intended | confidence | as-written member | corrected member |
|---|---|---|---|---|---|---|
| smart_home/examples/home.rs:63-66 | `thermometer_info` is built from `group_power_socket_name`, although the thermometer was added to `provider_thermometer` | After start-up, `get_info` of the identifier of "термометр" (category "power_socket", handle 0) | The identifier carries `group_thermometer_name`, so "термометр" reports the thermometer. The mis-tag is latent in the example server, since no route calls `report` or `get_info`. It would show in any `report` that uses this provider | high (not executed) | WebHome.ThermometerStatusAsWritten | WebHome.ThermometerStatusIntended |
| provider/src/lib.rs:4, 25 | `common_counter += 1` on a `u8` with no bound: a debug build panics on the 256th `add`, and a wrapping build hands out handle 0 again, overwriting the first item | 257 calls of `add` on a fresh provider | `add` is refused once the counter is exhausted, so handles are never reused | medium (not executed) | Provider.WrappedCounterReusesHandle | Provider.Provider.Add |
