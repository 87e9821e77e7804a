/**
 * The identifier of a device and the interface that resolves it to a
 * status text (smart_home/src/device_info_provider.rs).
 */
module DeviceInfo {
  import opened Wrappers

  /** Rust's `u8`. */
  type U8 = x: int | 0 <= x < 256

  /** `DeviceId(pub String, pub u8)`: the provider's category name (`.0`) and the handle it gave out (`.1`). */
  datatype DeviceId = DeviceId(category: string, handle: U8)

  /**
   * `DeviceInfoProvider::get_info`: the status text of the device an
   * identifier names, or `None` when it names no device. `Home::report`
   * takes the provider by value, so a fixed function is all it sees.
   */
  type InfoSource = DeviceId -> Option<string>
}
