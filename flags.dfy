/** The five style flags of a font, packed into one byte. */
module Flags {
  const REGULAR: bv8 := 0x1
  const ITALIC: bv8 := 0x2
  const BOLD: bv8 := 0x4
  const OBLIQUE: bv8 := 0x8
  const VARIABLE: bv8 := 0x10

  /** The bits no flag uses. */
  const UNUSED: bv8 := 0xE0

  datatype FontFlags = FontFlags(bits: bv8) {
    predicate Regular() { bits & REGULAR > 0 }
    predicate Italic() { bits & ITALIC > 0 }
    predicate Bold() { bits & BOLD > 0 }
    predicate Oblique() { bits & OBLIQUE > 0 }
    predicate Variable() { bits & VARIABLE > 0 }
  }

  /** The byte that `New` builds: each flag that holds contributes its mask. Reading
      the byte back through the accessors gives the five arguments, and no bit
      outside the five masks is ever set. */
  function FlagBits(regular: bool, italic: bool, bold: bool, oblique: bool, variable: bool): (b: bv8)
    ensures FontFlags(b).Regular() == regular
    ensures FontFlags(b).Italic() == italic
    ensures FontFlags(b).Bold() == bold
    ensures FontFlags(b).Oblique() == oblique
    ensures FontFlags(b).Variable() == variable
    ensures b & UNUSED == 0
  {
    (if regular then REGULAR else 0) | (if italic then ITALIC else 0) | (if bold then BOLD else 0)
    | (if oblique then OBLIQUE else 0) | (if variable then VARIABLE else 0)
  }

  /** The other half of the round trip: a flag byte with no unused bit set is
      rebuilt exactly from what its five accessors report. */
  lemma FlagsFromAccessors(f: FontFlags)
    requires f.bits & UNUSED == 0
    ensures FlagBits(f.Regular(), f.Italic(), f.Bold(), f.Oblique(), f.Variable()) == f.bits
  {
  }

  /** `FontFlags::new`: starts from an empty byte and sets one mask per flag. */
  method New(regular: bool, italic: bool, bold: bool, oblique: bool, variable: bool) returns (f: FontFlags)
    ensures f.bits == FlagBits(regular, italic, bold, oblique, variable)
  {
    var flags: bv8 := 0;
    if regular {
      flags := flags | REGULAR;
    }
    if italic {
      flags := flags | ITALIC;
    }
    if bold {
      flags := flags | BOLD;
    }
    if oblique {
      flags := flags | OBLIQUE;
    }
    if variable {
      flags := flags | VARIABLE;
    }
    f := FontFlags(flags);
  }
}
