/** Machine integer widths, byte buffers, and the optional and error results used by
    the font model. */
module Base {
  /** Rust `u16`: glyph ids, units per em, weight and width classes. */
  newtype u16 = x: int | 0 <= x < 0x1_0000

  /** Rust `u32`: the face index inside a font collection. */
  newtype u32 = x: int | 0 <= x < 0x1_0000_0000

  /** Rust `i16`: the font-design-unit coordinates ttf-parser reports. */
  newtype i16 = x: int | -0x8000 <= x < 0x8000

  type byte = bv8

  const U16_MAX: u16 := 0xFFFF

  datatype Option<+T> = None | Some(value: T)

  datatype Result<+T, +E> = Ok(value: T) | Err(error: E)

  /** The one error kind the font code raises. */
  datatype ErrorKind = FontParseError
}
