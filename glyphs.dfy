/** Glyphs as the cache stores them and the two ways a glyph can be rendered. */
module Glyphs {
  import opened Base
  import opened Paths

  /** Placement of a glyph: its extent and the offset of its top-left corner from
      the pen position, in the units of the glyph's representation. */
  datatype GlyphMetrics = GlyphMetrics(width: real, height: real, bearingX: real, bearingY: real)

  /** A glyph with `path == None` is rendered from an embedded image. */
  datatype Glyph = Glyph(path: Option<Path>, metrics: GlyphMetrics)

  /** A decoded raster image, produced by the image library; its pixels are opaque here. */
  datatype DecodedImage = DecodedImage(width: nat, height: nat, pixels: seq<byte>)

  datatype GlyphRendering = RenderAsPath(path: Path) | RenderAsImage(image: DecodedImage)

  /** The metrics `m` describe exactly the box from (xMin, yMin) to (xMax, yMax):
      the bearing is its top-left corner and width/height its extents. */
  ghost predicate DescribesBox(m: GlyphMetrics, xMin: real, yMin: real, xMax: real, yMax: real) {
    && m.bearingX == xMin
    && m.bearingX + m.width == xMax
    && m.bearingY == yMax
    && m.bearingY - m.height == yMin
  }
}
