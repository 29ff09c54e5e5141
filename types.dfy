// The fixed-width integer type that the click event stores its coordinates
// and force in.

module Types {
  const INT16_MIN: int := -0x8000
  const INT16_MAX: int := 0x7FFF

  /** A signed 16-bit integer (C's `int16_t`). The event never converts,
      clamps or wraps such a value: it only stores and returns it. */
  newtype Int16 = v: int | INT16_MIN <= v <= INT16_MAX
}
