/** Fixed-width integer types of the plugin's C interface, and an optional value. */
module Types {

  /** `uint8` / `uint8_t`: one byte of a payload, a light mode, a scan switch. */
  newtype uint8 = x: int | 0 <= x < 0x100

  /** `uint32`: the length the driver reports with a payload. */
  newtype uint32 = x: int | 0 <= x < 0x1_0000_0000

  /** `unsigned long long`: a millisecond timestamp. */
  newtype uint64 = x: int | 0 <= x < 0x1_0000_0000_0000_0000

  datatype Option<+T> = None | Some(value: T)
}
