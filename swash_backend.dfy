/** The scaling backend (the `swash` feature without `textlayout`): a font reference
    parsed by swash. The library is not part of this model; a font reference is the
    data it reports, and its scaler is a function of the requested size, the hinting
    switch and the glyph id. */
module SwashBackend {
  import opened Base
  import opened Flags
  import opened Metrics
  import opened Paths
  import opened Glyphs
  import Zeno

  /** swash's visual width of a font, counted in half-percent steps above 50%. */
  datatype Stretch = Stretch(raw: u16)

  const ULTRA_CONDENSED := Stretch(0)
  const EXTRA_CONDENSED := Stretch(25)
  const CONDENSED := Stretch(50)
  const SEMI_CONDENSED := Stretch(75)
  const NORMAL := Stretch(100)
  const SEMI_EXPANDED := Stretch(125)
  const EXPANDED := Stretch(150)
  const EXTRA_EXPANDED := Stretch(200)
  const ULTRA_EXPANDED := Stretch(300)

  datatype Style = Normal | Italic | Oblique(angle: real)

  datatype Attributes = Attributes(weight: u16, stretch: Stretch, style: Style)

  /** Vertical metrics in font units; `ascent` and `descent` are both distances from
      the baseline, so neither carries a sign. */
  datatype SwashMetrics = SwashMetrics(unitsPerEm: u16, ascent: real, descent: real, leading: real)

  datatype Outline = Outline(commands: seq<Zeno.Command>, bounds: Zeno.Bounds)

  /** A parsed font reference. `scaleOutline(size, hint, id)` is the outline a scaler
      built for `size` pixels per em, with or without hinting, gives for glyph `id`. */
  datatype FontRef = FontRef(
    metrics: SwashMetrics,
    attributes: Attributes,
    variationCount: nat,
    scaleOutline: (real, bool, u16) -> Option<Outline>)

  /** The stretch a width class names (the usWidthClass field of the OS/2 table
      in the OpenType specification). */
  function NamedStretch(widthClass: u16): Stretch
    requires 1 <= widthClass <= 9
  {
    [ULTRA_CONDENSED, EXTRA_CONDENSED, CONDENSED, SEMI_CONDENSED, NORMAL,
     SEMI_EXPANDED, EXPANDED, EXTRA_EXPANDED, ULTRA_EXPANDED][widthClass - 1]
  }

  /** One of the nine named stretches. */
  predicate IsNamed(stretch: Stretch) {
    stretch.raw in {0, 25, 50, 75, 100, 125, 150, 200, 300}
  }

  /** The width class of a stretch: the named stretch it is, or 5 (medium) for any
      stretch that is not named. */
  function WidthClass(stretch: Stretch): (w: u16)
    ensures 1 <= w <= 9
    ensures IsNamed(stretch) ==> NamedStretch(w) == stretch
    ensures !IsNamed(stretch) ==> w == 5
  {
    if stretch == ULTRA_CONDENSED then 1
    else if stretch == EXTRA_CONDENSED then 2
    else if stretch == CONDENSED then 3
    else if stretch == SEMI_CONDENSED then 4
    else if stretch == NORMAL then 5
    else if stretch == SEMI_EXPANDED then 6
    else if stretch == EXPANDED then 7
    else if stretch == EXTRA_EXPANDED then 8
    else if stretch == ULTRA_EXPANDED then 9
    else 5
  }

  /** Every width class is the width class of the stretch it names. */
  lemma WidthClassOfNamed(widthClass: u16)
    requires 1 <= widthClass <= 9
    ensures IsNamed(NamedStretch(widthClass))
    ensures WidthClass(NamedStretch(widthClass)) == widthClass
  {
  }

  /** The table keeps the order of the named stretches: a wider named stretch has a
      larger width class. */
  lemma WidthClassMonotone(a: Stretch, b: Stretch)
    requires IsNamed(a) && IsNamed(b) && a.raw < b.raw
    ensures WidthClass(a) < WidthClass(b)
  {
  }

  /** The stored metrics of a font built from `font`, as the scaling backend derives
      them from weight, style, stretch and variation axes. */
  ghost predicate SwashDerived(font: FontRef, m: FontMetrics) {
    var a := font.attributes;
    && (m.Bold() <==> a.weight >= 700)
    && (m.Italic() <==> a.style.Italic?)
    && (m.Oblique() <==> a.style.Oblique?)
    && (m.Variable() <==> font.variationCount > 0)
    && (m.Regular() <==> a.weight == 400 && a.style.Normal? && a.stretch == NORMAL)
    && m.flags.bits & UNUSED == 0
    && m.weight == a.weight
    && m.width == WidthClass(a.stretch)
    && m.ascender == font.metrics.ascent
    && m.descender == -font.metrics.descent
    && m.height == font.metrics.ascent + font.metrics.descent + font.metrics.leading
  }

  /** The metrics computation of the scaling backend's `Font::new_with_data`. */
  method DeriveMetrics(font: FontRef) returns (m: FontMetrics)
    ensures SwashDerived(font, m)
  {
    var swashMetrics := font.metrics;
    var weight := font.attributes.weight;
    var stretch := font.attributes.stretch;
    var style := font.attributes.style;

    var isBold := weight >= 700;
    var isItalic := style.Italic?;
    var isOblique := style.Oblique?;
    var isVariable := font.variationCount > 0;
    var isRegular := weight == 400 && style.Normal? && stretch == NORMAL;

    var width := WidthClass(stretch);
    var flags := New(isRegular, isItalic, isBold, isOblique, isVariable);
    m := FontMetrics(
      swashMetrics.ascent,
      -swashMetrics.descent,
      swashMetrics.ascent + swashMetrics.descent + swashMetrics.leading,
      flags,
      weight,
      width);
  }

  /** What the derivation guarantees: a font is never both italic and oblique; a
      regular font is neither bold, italic nor oblique and has the medium width
      class; the width class is always 1 to 9; and with the descender stored as a
      signed (non-positive for a non-negative descent) value the height is the
      usual ascender - descender + line gap. */
  lemma SwashDerivedConsistent(font: FontRef, m: FontMetrics)
    requires SwashDerived(font, m)
    ensures !(m.Italic() && m.Oblique())
    ensures m.Regular() ==> !m.Bold() && !m.Italic() && !m.Oblique() && m.width == 5
    ensures 1 <= m.width <= 9
    ensures font.metrics.descent >= 0.0 ==> m.descender <= 0.0
    ensures m.height == m.ascender - m.descender + font.metrics.leading
  {
  }

  /** The derivation is deterministic: a font reference determines its stored metrics. */
  lemma SwashDerivedUnique(font: FontRef, m1: FontMetrics, m2: FontMetrics)
    requires SwashDerived(font, m1) && SwashDerived(font, m2)
    ensures m1 == m2
  {
  }

  /** The path command that `Font::glyph` appends for one swash outline command. */
  function PathCommandOf(c: Zeno.Command): PathCommand {
    match c
    case MoveTo(p) => PathCommand.MoveTo(p.x, p.y)
    case LineTo(p) => PathCommand.LineTo(p.x, p.y)
    case QuadTo(c, p) => PathCommand.QuadTo(c.x, c.y, p.x, p.y)
    case CurveTo(c1, c2, p) => PathCommand.BezierTo(c1.x, c1.y, c2.x, c2.y, p.x, p.y)
    case Close => PathCommand.Close
  }

  /** The commands appended for a whole outline, in order. */
  function PathCommandsOf(cmds: seq<Zeno.Command>): seq<PathCommand> {
    if |cmds| == 0 then [] else PathCommandsOf(cmds[..|cmds| - 1]) + [PathCommandOf(cmds[|cmds| - 1])]
  }

  /** One path command per outline command, each the translation of the command at
      the same position. */
  lemma {:induction false} PathCommandsOfTranslates(cmds: seq<Zeno.Command>)
    ensures |PathCommandsOf(cmds)| == |cmds|
    ensures forall k :: 0 <= k < |cmds| ==> PathCommandsOf(cmds)[k] == PathCommandOf(cmds[k])
  {
    if |cmds| > 0 {
      PathCommandsOfTranslates(cmds[..|cmds| - 1]);
    }
  }

  /** The translation loses nothing: two outlines that give the same path commands
      are the same outline. */
  lemma PathCommandsOfInjective(a: seq<Zeno.Command>, b: seq<Zeno.Command>)
    requires PathCommandsOf(a) == PathCommandsOf(b)
    ensures a == b
  {
    PathCommandsOfTranslates(a);
    PathCommandsOfTranslates(b);
    forall k | 0 <= k < |a|
      ensures a[k] == b[k]
    {
      assert PathCommandOf(a[k]) == PathCommandOf(b[k]);
    }
  }

  /** The loop of the scaling backend's `Font::glyph` that appends the outline's
      commands to a new path. */
  method ConvertOutline(cmds: seq<Zeno.Command>) returns (path: Path)
    ensures path.commands == PathCommandsOf(cmds)
  {
    path := Path([]);
    for i := 0 to |cmds|
      invariant path.commands == PathCommandsOf(cmds[..i])
    {
      assert cmds[..i + 1][..i] == cmds[..i];
      path := Path(path.commands + [PathCommandOf(cmds[i])]);
    }
    assert cmds[..|cmds|] == cmds;
  }

  /** What `Font::glyph` builds on a cache miss with this backend, given the font
      reference it re-parses: the outline of a scaler built for the font's own units
      per em without hinting (so in font units), as a path that translates every
      command, with the outline's bounds as metrics. Without an outline there is no
      glyph. */
  function GlyphOf(font: FontRef, unitsPerEm: u16, id: u16): (r: Option<Glyph>)
    ensures r.Some? <==> font.scaleOutline(unitsPerEm as real, false, id).Some?
    ensures r.Some? ==>
      var o := font.scaleOutline(unitsPerEm as real, false, id).value;
      && r.value.path.Some?
      && |r.value.path.value.commands| == |o.commands|
      && (forall k :: 0 <= k < |o.commands| ==> r.value.path.value.commands[k] == PathCommandOf(o.commands[k]))
      && DescribesBox(r.value.metrics, o.bounds.min.x, o.bounds.min.y, o.bounds.max.x, o.bounds.max.y)
  {
    match font.scaleOutline(unitsPerEm as real, false, id)
    case Some(o) =>
      PathCommandsOfTranslates(o.commands);
      Some(Glyph(Some(Path(PathCommandsOf(o.commands))),
        GlyphMetrics(o.bounds.Width(), o.bounds.Height(), o.bounds.min.x, o.bounds.max.y)))
    case None => None
  }
}
