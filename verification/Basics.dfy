/** Small shared vocabulary: optional values and the fixed-width counters of the Controller. */
module Basics {
  datatype Option<+T> = None | Some(value: T)

  const U64_MAX: nat := 0xFFFF_FFFF_FFFF_FFFF
  const U32_MAX: nat := 0xFFFF_FFFF
  const U16_MAX: nat := 0xFFFF

  /** `x.saturating_add(1)` on a counter whose largest value is `max`. */
  function SaturatingSucc(x: nat, max: nat): nat {
    if x < max then x + 1 else max
  }
}
