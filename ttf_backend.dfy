/** The outline backend (the `textlayout` feature): a face parsed by ttf-parser.
    The parser itself is not part of this model; a parsed face is the data it reports,
    and its per-glyph queries are functions of the glyph id. */
module TtfBackend {
  import opened Base
  import opened Flags
  import opened Metrics
  import opened Paths
  import opened Glyphs

  /** A glyph bounding box in font design units. */
  datatype Rect = Rect(xMin: i16, yMin: i16, xMax: i16, yMax: i16) {
    function Width(): int { xMax as int - xMin as int }
    function Height(): int { yMax as int - yMin as int }
  }

  /** Only PNG strikes are used; the uncompressed bitmap formats are all `Bitmap`. */
  datatype RasterImageFormat = Png | Bitmap

  /** An embedded raster strike: placement in pixels of a strike drawn for
      `pixelsPerEm`, and the encoded image bytes. */
  datatype RasterGlyphImage = RasterGlyphImage(
    x: i16,
    y: i16,
    width: u16,
    height: u16,
    pixelsPerEm: u16,
    format: RasterImageFormat,
    data: seq<byte>)

  /** What `outline_glyph` yields: the outline appended to a path, and its bounding box. */
  datatype Outline = Outline(path: Path, bbox: Rect)

  /** A parsed face. `height` is ttf-parser's line height, already combining the
      ascender, the (negative) descender and the line gap. `glyphRasterImage(id, ppem)`
      picks the strike for a requested pixels-per-em. */
  datatype Face = Face(
    unitsPerEm: u16,
    ascender: i16,
    descender: i16,
    height: i16,
    isRegular: bool,
    isItalic: bool,
    isBold: bool,
    isOblique: bool,
    isVariable: bool,
    weight: u16,
    width: u16,
    glyphRasterImage: (u16, u16) -> Option<RasterGlyphImage>,
    outlineGlyph: u16 -> Option<Outline>)

  /** The stored metrics of a font built from `face`: every field is the face's own
      report, unscaled, and the flag byte carries nothing but the five flags. */
  ghost predicate TtfDerived(face: Face, m: FontMetrics) {
    && m.ascender == face.ascender as real
    && m.descender == face.descender as real
    && m.height == face.height as real
    && m.Regular() == face.isRegular
    && m.Italic() == face.isItalic
    && m.Bold() == face.isBold
    && m.Oblique() == face.isOblique
    && m.Variable() == face.isVariable
    && m.flags.bits & UNUSED == 0
    && m.weight == face.weight
    && m.width == face.width
  }

  /** The metrics computation of the outline backend's `Font::new_with_data`. */
  method DeriveMetrics(face: Face) returns (m: FontMetrics)
    ensures TtfDerived(face, m)
  {
    var flags := New(face.isRegular, face.isItalic, face.isBold, face.isOblique, face.isVariable);
    m := FontMetrics(face.ascender as real, face.descender as real, face.height as real, flags, face.weight, face.width);
  }

  /** The largest strike of glyph `id`, if it is a PNG. */
  function PngStrike(face: Face, id: u16): Option<RasterGlyphImage> {
    match face.glyphRasterImage(id, U16_MAX)
    case Some(image) => if image.format == Png then Some(image) else None
    case None => None
  }

  /** The factor that takes strike pixels to font design units: one em is
      `pixelsPerEm` pixels and `unitsPerEm` units. A strike that reports 0 pixels
      per em is taken as already being in font units. */
  function StrikeScale(unitsPerEm: u16, image: RasterGlyphImage): (s: real)
    ensures image.pixelsPerEm != 0 ==> s * image.pixelsPerEm as real == unitsPerEm as real
    ensures image.pixelsPerEm == 0 ==> s == 1.0
  {
    if image.pixelsPerEm != 0 then unitsPerEm as real / image.pixelsPerEm as real else 1.0
  }

  /** What `Font::glyph` builds on a cache miss with this backend. A PNG strike
      takes precedence: it gives a glyph with no path whose metrics are the strike's
      box, from (x, y) to (x + width, y + height), scaled into font units. Without
      one, the outline gives a glyph with its path whose metrics are its bounding
      box. Without either there is no glyph. */
  function GlyphOf(face: Face, unitsPerEm: u16, id: u16): (r: Option<Glyph>)
    ensures (r.Some? && r.value.path.None?) <==> PngStrike(face, id).Some?
    ensures PngStrike(face, id).Some? ==>
      var image, s := PngStrike(face, id).value, StrikeScale(unitsPerEm, PngStrike(face, id).value);
      r.Some? && DescribesBox(r.value.metrics,
        image.x as real * s, image.y as real * s,
        (image.x as real + image.width as real) * s, (image.y as real + image.height as real) * s)
    ensures PngStrike(face, id).None? ==> (r.Some? <==> face.outlineGlyph(id).Some?)
    ensures PngStrike(face, id).None? && r.Some? ==>
      var o := face.outlineGlyph(id).value;
      r.value.path == Some(o.path)
      && DescribesBox(r.value.metrics, o.bbox.xMin as real, o.bbox.yMin as real, o.bbox.xMax as real, o.bbox.yMax as real)
  {
    match PngStrike(face, id)
    case Some(image) =>
      var scale := StrikeScale(unitsPerEm, image);
      Some(Glyph(None, GlyphMetrics(
        image.width as real * scale,
        image.height as real * scale,
        image.x as real * scale,
        (image.y as real + image.height as real) * scale)))
    case None =>
      match face.outlineGlyph(id)
      case Some(o) =>
        Some(Glyph(Some(o.path), GlyphMetrics(o.bbox.Width() as real, o.bbox.Height() as real, o.bbox.xMin as real, o.bbox.yMax as real)))
      case None => None
  }
}
