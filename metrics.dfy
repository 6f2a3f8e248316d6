/** Font-wide metrics in font design units, and their scaling to a point size. */
module Metrics {
  import opened Base
  import opened Flags

  /** `f32::round`: the nearest integer, halfway cases rounded away from zero. */
  function Round(x: real): (n: int)
    ensures x - 0.5 <= n as real <= x + 0.5
    ensures n as real - x == 0.5 ==> x >= 0.0
    ensures x - n as real == 0.5 ==> x < 0.0
  {
    if x >= 0.0 then (x + 0.5).Floor else -((0.5 - x).Floor)
  }

  /** Information about a font: lengths (ascender, descender, height) and the
      classification (style flags, weight class, width class). */
  datatype FontMetrics = FontMetrics(
    ascender: real,
    descender: real,
    height: real,
    flags: FontFlags,
    weight: u16,
    width: u16)
  {
    /** `height()`: the line height, rounded to a whole number of units. */
    function Height(): (h: real)
      ensures h == h.Floor as real
      ensures height - 0.5 <= h <= height + 0.5
    {
      Round(height) as real
    }

    predicate Regular() { flags.Regular() }
    predicate Italic() { flags.Italic() }
    predicate Bold() { flags.Bold() }
    predicate Oblique() { flags.Oblique() }
    predicate Variable() { flags.Variable() }
  }

  /** `FontMetrics::scale`: multiplies the three lengths in place by `factor`; the
      classification fields are not lengths and are left as they were. */
  method ScaleMetrics(m: FontMetrics, factor: real) returns (r: FontMetrics)
    ensures r.ascender == m.ascender * factor
    ensures r.descender == m.descender * factor
    ensures r.height == m.height * factor
    ensures r.flags == m.flags && r.weight == m.weight && r.width == m.width
  {
    r := m;
    r := r.(ascender := r.ascender * factor);
    r := r.(descender := r.descender * factor);
    r := r.(height := r.height * factor);
  }
}
