/** A font: its bytes, face index, units per em and stored metrics, fixed at
    construction, and a glyph cache filled lazily by glyph id. */
module Fonts {
  import opened Base
  import opened Metrics
  import opened Glyphs
  import Ttf = TtfBackend
  import Swash = SwashBackend

  /** The font backend the build selects. With `textlayout` the faces are parsed by
      ttf-parser, and `loadPng` is the PNG decoder when the `image-loading` feature
      is on; with only `swash` they are parsed by swash; with neither no font can be
      built. */
  datatype Backend =
    | TextLayout(parse: (seq<byte>, u32) -> Option<Ttf.Face>, loadPng: Option<seq<byte> -> Option<DecodedImage>>)
    | Swash(fromIndex: (seq<byte>, u32) -> Option<Swash.FontRef>)
    | NoBackend

  /** The parsed face callers hand to the glyph queries: a ttf-parser face with
      `textlayout`, nothing otherwise. */
  datatype FaceRef = TtfFaceRef(face: Ttf.Face) | NoFaceRef

  /** `m` only ever gains entries: every entry of `m` is in `m'` with the same glyph. */
  ghost predicate Extends(m: map<u16, Glyph>, m': map<u16, Glyph>) {
    forall id :: id in m ==> id in m' && m'[id] == m[id]
  }

  /** A sequence of cache updates never loses or changes an entry. */
  lemma ExtendsTransitive(m1: map<u16, Glyph>, m2: map<u16, Glyph>, m3: map<u16, Glyph>)
    requires Extends(m1, m2) && Extends(m2, m3)
    ensures Extends(m1, m3)
  {
  }

  class Font {
    const data: seq<byte>
    const faceIndex: u32
    const unitsPerEm: u16
    const metrics: FontMetrics
    const backend: Backend
    var glyphs: map<u16, Glyph>

    /** What the backend yields for glyph `id` of this font on a cache miss. */
    function Fetch(id: u16): Option<Glyph> {
      match backend
      case TextLayout(parse, _) =>
        (match parse(data, faceIndex)
         case Some(face) => Ttf.GlyphOf(face, unitsPerEm, id)
         case None => None)
      case Swash(fromIndex) =>
        (match fromIndex(data, faceIndex)
         case Some(font) => Swash.GlyphOf(font, unitsPerEm, id)
         case None => None)
      case NoBackend => None
    }

    /** The cache is coherent: every entry is what the backend yields for its id.
        With `textlayout` the font's bytes parse (they did when it was built). */
    ghost predicate Valid()
      reads this
    {
      && (backend.TextLayout? ==> backend.parse(data, faceIndex).Some?)
      && forall id :: id in glyphs ==> Fetch(id) == Some(glyphs[id])
    }

    /** `face` is this font's own parsed face, as callers obtain it from the font. */
    ghost predicate OwnFace(face: FaceRef) {
      backend.TextLayout? ==> face.TtfFaceRef? && backend.parse(data, faceIndex) == Some(face.face)
    }

    constructor Init(data: seq<byte>, faceIndex: u32, unitsPerEm: u16, metrics: FontMetrics, backend: Backend)
      requires backend.TextLayout? ==> backend.parse(data, faceIndex).Some?
      ensures this.data == data && this.faceIndex == faceIndex && this.unitsPerEm == unitsPerEm
      ensures this.metrics == metrics && this.backend == backend
      ensures glyphs == map[]
      ensures Valid()
    {
      this.data := data;
      this.faceIndex := faceIndex;
      this.unitsPerEm := unitsPerEm;
      this.metrics := metrics;
      this.backend := backend;
      glyphs := map[];
    }

    /** `Font::new_with_data`: parses the bytes once with the selected backend and
        derives the stored metrics; fails with `FontParseError` when they do not
        parse or no backend is selected. A units-per-em of 0 is not rejected. */
    static method NewWithData(data: seq<byte>, faceIndex: u32, backend: Backend) returns (r: Result<Font, ErrorKind>)
      ensures r.Err? ==> r.error == FontParseError
      ensures backend.TextLayout? ==> (r.Ok? <==> backend.parse(data, faceIndex).Some?)
      ensures backend.Swash? ==> (r.Ok? <==> backend.fromIndex(data, faceIndex).Some?)
      ensures backend.NoBackend? ==> r.Err?
      ensures r.Ok? ==>
        && fresh(r.value) && r.value.Valid() && r.value.glyphs == map[]
        && r.value.data == data && r.value.faceIndex == faceIndex && r.value.backend == backend
      ensures r.Ok? && backend.TextLayout? ==>
        var face := backend.parse(data, faceIndex).value;
        r.value.unitsPerEm == face.unitsPerEm && Ttf.TtfDerived(face, r.value.metrics)
      ensures r.Ok? && backend.Swash? ==>
        var font := backend.fromIndex(data, faceIndex).value;
        r.value.unitsPerEm == font.metrics.unitsPerEm && Swash.SwashDerived(font, r.value.metrics)
    {
      if backend.TextLayout? {
        var parsed := backend.parse(data, faceIndex);
        if parsed.None? {
          return Err(FontParseError);
        }
        var face := parsed.value;
        var m := Ttf.DeriveMetrics(face);
        var font := new Font.Init(data, faceIndex, face.unitsPerEm, m, backend);
        r := Ok(font);
      } else if backend.Swash? {
        var parsed := backend.fromIndex(data, faceIndex);
        if parsed.None? {
          return Err(FontParseError);
        }
        var swashFont := parsed.value;
        var m := Swash.DeriveMetrics(swashFont);
        var font := new Font.Init(data, faceIndex, swashFont.metrics.unitsPerEm, m, backend);
        r := Ok(font);
      } else {
        r := Err(FontParseError);
      }
    }

    /** `Font::scale`: the factor from font units to a font `size`; one em of
        `unitsPerEm` units becomes `size`. */
    function Scale(size: real): (s: real)
      requires unitsPerEm > 0
      ensures s * unitsPerEm as real == size
    {
      size / unitsPerEm as real
    }

    /** `Font::metrics`: a copy of the stored metrics with the three lengths scaled
        to `size`, so that each is to `size` what the stored length is to one em;
        the classification is copied unchanged. The stored metrics are constant. */
    method Metrics(size: real) returns (m: FontMetrics)
      requires unitsPerEm > 0
      ensures m.ascender * unitsPerEm as real == metrics.ascender * size
      ensures m.descender * unitsPerEm as real == metrics.descender * size
      ensures m.height * unitsPerEm as real == metrics.height * size
      ensures m.flags == metrics.flags && m.weight == metrics.weight && m.width == metrics.width
    {
      var scale := Scale(size);
      m := ScaleMetrics(metrics, scale);
      assert m.ascender * unitsPerEm as real == metrics.ascender * (scale * unitsPerEm as real);
      assert m.descender * unitsPerEm as real == metrics.descender * (scale * unitsPerEm as real);
      assert m.height * unitsPerEm as real == metrics.height * (scale * unitsPerEm as real);
    }

    /** `Font::glyph`: the glyph `id` from the cache, extracting it from the backend
        and inserting it on a miss. A hit leaves the cache alone; a miss adds the
        extracted glyph under `id` and nothing else, or, when the backend yields no
        glyph, nothing at all (so a later lookup asks the backend again). Either way
        the answer is the backend's glyph for `id`. */
    method GlyphFor(face: FaceRef, id: u16) returns (g: Option<Glyph>)
      requires Valid() && OwnFace(face)
      modifies this
      ensures Valid()
      ensures g == Fetch(id)
      ensures glyphs == if g.Some? then old(glyphs)[id := g.value] else old(glyphs)
      ensures id in old(glyphs) ==> glyphs == old(glyphs)
      ensures Extends(old(glyphs), glyphs)
      ensures g.Some? <==> id in glyphs
      ensures g.Some? ==> g.value == glyphs[id]
    {
      if id !in glyphs {
        var maybeGlyph: Option<Glyph>;
        match backend {
          case TextLayout(_, _) =>
            maybeGlyph := Ttf.GlyphOf(face.face, unitsPerEm, id);
          case Swash(fromIndex) =>
            var fontRef := fromIndex(data, faceIndex);
            if fontRef.None? {
              return None;
            }
            var outline := fontRef.value.scaleOutline(unitsPerEm as real, false, id);
            if outline.Some? {
              var bounds := outline.value.bounds;
              var path := Swash.ConvertOutline(outline.value.commands);
              maybeGlyph := Some(Glyph(Some(path),
                GlyphMetrics(bounds.Width(), bounds.Height(), bounds.min.x, bounds.max.y)));
            } else {
              maybeGlyph := None;
            }
          case NoBackend =>
            return None;
        }
        if maybeGlyph.Some? {
          glyphs := glyphs[id := maybeGlyph.value];
        }
      }
      g := if id in glyphs then Some(glyphs[id]) else None;
    }

    /** The decoded embedded image the rendering selector finds for glyph `id` at
        `pixelsPerEm`: only with `textlayout` and `image-loading`, and only when the
        strike's bytes decode as PNG. */
    function DecodedStrike(face: FaceRef, id: u16, pixelsPerEm: u16): Option<DecodedImage> {
      match backend
      case TextLayout(_, Some(loadPng)) =>
        if face.TtfFaceRef? then
          match face.face.glyphRasterImage(id, pixelsPerEm)
          case Some(image) => loadPng(image.data)
          case None => None
        else None
      case _ => None
    }

    /** `Font::glyph_rendering_representation`: a decodable embedded image comes first
        and is returned without consulting the cache; otherwise the glyph is looked up
        as `GlyphFor` does, and its path is returned when it has one. A glyph that is
        missing, or that exists only as an image, gives nothing. */
    method GlyphRenderingRepresentation(face: FaceRef, id: u16, pixelsPerEm: u16) returns (r: Option<GlyphRendering>)
      requires Valid() && OwnFace(face)
      modifies this
      ensures Valid()
      ensures DecodedStrike(face, id, pixelsPerEm).Some? ==>
        r == Some(RenderAsImage(DecodedStrike(face, id, pixelsPerEm).value)) && glyphs == old(glyphs)
      ensures DecodedStrike(face, id, pixelsPerEm).None? ==>
        && (r.Some? <==> Fetch(id).Some? && Fetch(id).value.path.Some?)
        && (r.Some? ==> r.value == RenderAsPath(Fetch(id).value.path.value))
        && glyphs == (if Fetch(id).Some? then old(glyphs)[id := Fetch(id).value] else old(glyphs))
      ensures Extends(old(glyphs), glyphs)
    {
      var image := DecodedStrike(face, id, pixelsPerEm);
      if image.Some? {
        return Some(RenderAsImage(image.value));
      }
      var g := GlyphFor(face, id);
      if g.Some? && g.value.path.Some? {
        r := Some(RenderAsPath(g.value.path.value));
      } else {
        r := None;
      }
    }
  }
}
