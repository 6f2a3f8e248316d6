# femtovg font faces and glyph cache, in Dafny

This project models the font layer of femtovg's text rendering (`src/text/font.rs`).
A `Font` owns a font file's bytes, a face index, its units per em and its unscaled
metrics. It answers three kinds of question:

- the font metrics scaled to a point size;
- the glyph for a glyph id, filled lazily into a cache;
- how a glyph is to be rendered: as a vector path or as a decoded embedded image.

The build selects one of two parsing backends:

- `textlayout`: ttf-parser. It reports the style flags and classes itself, and offers embedded PNG strikes.
- `swash`: swash. The style flags and the width class are derived from weight, style and stretch.

When neither is selected, no font can be built.

The modules follow the parts of the file:

- `Flags`: the style-flag byte (`FontFlags`). `New` packs five booleans with the masks 0x1, 0x2, 0x4, 0x8 and 0x10. It is proved against `FlagBits`, whose accessors give the booleans back.
- `Metrics`: `FontMetrics`, its in-place scaling, and `f32::round` as used by `height()`.
- `Paths`, `Zeno`, `Glyphs`: the renderer's path (the list of commands appended to it), swash's outline commands, and glyphs with their metrics and renderings.
- `TtfBackend`: a ttf-parser face, the metrics the font stores for it, and the glyph built on a cache miss. A PNG strike takes precedence over the outline.
- `SwashBackend`: a swash font reference, the stretch-to-`usWidthClass` table, the derived metrics, the loop that copies an outline into a path, and the glyph built on a cache miss.
- `Fonts`: the `Font` class. Its `glyphs` map is the cache. `Valid()` states that every cached entry is what the backend yields for its id.

The parsing libraries are not part of this model: ttf-parser, swash and the image crate's PNG decoder. Each is a function-valued field of a datatype (`Face`, `FontRef`, `Backend`). A parsed face is the data the library reports, and its per-glyph queries are fixed functions of the glyph id. That they are deterministic is what makes a cached glyph valid forever.

The swash stretch constants use that library's encoding: half-percent steps above 50%. So ULTRA_CONDENSED … ULTRA_EXPANDED are 0, 25, 50, 75, 100, 125, 150, 200 and 300. The proofs rely only on the nine values being distinct and increasing.

The code does not reject a font whose units per em is 0, and neither does `NewWithData`. `Scale` and `Metrics` divide by it, so they require it to be positive.

## Model

| member | source | states |
|---|---|---|
| `Flags.FlagBits` | src/text/font.rs:46-89 | each of the five accessors reads back its own argument from the packed byte, and no bit outside 0x1F is set |
| `Flags.FlagsFromAccessors` | src/text/font.rs:66-89 | a flag byte with no bit outside 0x1F is rebuilt exactly from its five accessors (the other half of the round trip) |
| `Flags.New` | src/text/font.rs:46-64 | `FontFlags::new`, setting one mask per true flag on a byte that starts at 0, yields exactly `FlagBits` of its arguments |
| `Metrics.Round` | src/text/font.rs:120-123 | `height()` rounds to an integer within 1/2 of the stored height; ties go away from zero |
| `Metrics.FontMetrics.Height` | src/text/font.rs:120-123 | `height()` returns a whole number within 1/2 of the stored height (by `Round`) |
| `Metrics.ScaleMetrics` | src/text/font.rs:104-108 | `FontMetrics::scale` multiplies ascender, descender and height by the factor; flags, weight and width are unchanged |
| `TtfBackend.DeriveMetrics` | src/text/font.rs:192-207 | the outline backend stores ttf-parser's ascender, descender and height unscaled, its five style booleans as flags (nothing outside 0x1F), and its weight and width numbers |
| `TtfBackend.StrikeScale` | src/text/font.rs:342-346 | the strike scale times pixels-per-em is units-per-em; a strike reporting 0 pixels per em has scale 1 |
| `TtfBackend.GlyphOf` | src/text/font.rs:333-366 | a PNG strike at the largest size takes precedence: the glyph has no path exactly when there is such a strike, and its metrics are the strike box from (x, y) to (x+w, y+h) scaled into font units (so bearing_y = (y+h)·s). Otherwise there is a glyph exactly when there is an outline; it carries that path, and its metrics are exactly the outline's bounding box. The strike is the helper `PngStrike`: the raster image at u16::MAX pixels per em, kept only when its format is PNG (src/text/font.rs:337-340) |
| `SwashBackend.WidthClass` | src/text/font.rs:243-256 | the width class is always 1..9; a named stretch maps to the class that names it; any other stretch maps to 5 |
| `SwashBackend.WidthClassOfNamed` | src/text/font.rs:245-254 | each class 1..9 is the width class of the stretch it names (the table is a bijection on the named stretches) |
| `SwashBackend.WidthClassMonotone` | src/text/font.rs:245-254 | of two named stretches, the wider one has the larger width class |
| `SwashBackend.DeriveMetrics` | src/text/font.rs:230-267 | bold iff weight ≥ 700; regular iff weight is 400, the style is Normal and the stretch is NORMAL; italic and oblique from the style; variable iff there is a variation axis; width is the table's class; descender = −descent; height = ascent + descent + leading |
| `SwashBackend.SwashDerivedConsistent` | src/text/font.rs:236-263 | under that derivation a font is never both italic and oblique; a regular font is not bold, italic or oblique and has width 5; the width is in 1..9; and height = ascender − descender + leading in the stored (signed) terms |
| `SwashBackend.SwashDerivedUnique` | src/text/font.rs:236-267 | the derivation determines the stored metrics uniquely from the font reference |
| `SwashBackend.PathCommandsOfTranslates` | src/text/font.rs:397-405 | the appended path has one command per outline command, each the translation of the command at the same position. The translation of one command is the helper `PathCommandOf`, the five-armed match of src/text/font.rs:398-404 (move, line, quad, curve to bezier, close); `PathCommandsOf` applies it to a whole outline in order |
| `SwashBackend.PathCommandsOfInjective` | src/text/font.rs:397-405 | the translation loses nothing: equal paths come from equal outlines |
| `SwashBackend.ConvertOutline` | src/text/font.rs:396-405 | the loop that appends move/line/quad/curve/close commands yields exactly the translated command list |
| `SwashBackend.GlyphOf` | src/text/font.rs:387-417 | there is a glyph exactly when the scaler (built for units-per-em, unhinted) gives an outline; its path translates every outline command in order; its metrics are exactly the outline's bounds |
| `Fonts.ExtendsTransitive` | src/text/font.rs:368-370 | `Extends` (every entry of the earlier cache is in the later one, unchanged) is transitive, so the per-call guarantee `Extends(old(glyphs), glyphs)` of `GlyphFor` composes over successive cache states |
| `Fonts.Font.Init` | src/text/font.rs:209-215 | a new font holds the given bytes, index, units per em, metrics and backend, and its cache is empty |
| `Fonts.Font.NewWithData` | src/text/font.rs:184-286 | succeeds exactly when the selected backend parses the bytes at the face index; it fails with FontParseError otherwise and always when no backend is selected; on success the cache is empty and the metrics are the backend's derivation |
| `Fonts.Font.Scale` | src/text/font.rs:326-328 | the scale times units-per-em is the requested size |
| `Fonts.Font.Metrics` | src/text/font.rs:318-324 | each scaled length is to the size what the stored length is to one em; flags, weight and width are copied unchanged; the stored metrics are constant |
| `Fonts.Font.GlyphFor` | src/text/font.rs:330-425 | the answer is always the backend's glyph for the id, whether from the cache or not. That glyph is the helper `Fetch`: `TtfBackend.GlyphOf` of the font's parsed face (src/text/font.rs:333-366), `SwashBackend.GlyphOf` of the re-parsed font reference or none when the re-parse fails (src/text/font.rs:384-417), and none with no backend (src/text/font.rs:376-379). A hit leaves the cache unchanged. A miss adds only that glyph under the id. When the backend gives no glyph (no outline, no strike, or a failed swash re-parse), nothing is added. Entries are never overwritten or removed; the result is present exactly when the id is cached afterwards, and equals that entry |
| `Fonts.Font.GlyphRenderingRepresentation` | src/text/font.rs:427-464 | a decodable raster image for the requested pixels-per-em is returned first, and the cache is not touched. That image is the helper `DecodedStrike`: with `textlayout` and `image-loading`, the strike for the requested pixels per em whose bytes the PNG decoder accepts (src/text/font.rs:434-441); none otherwise. Otherwise the lookup behaves as `GlyphFor`, and a path is returned exactly when the backend's glyph has one. A missing or image-only glyph gives nothing |

## Left out

- Floating point: lengths are `real`. f32 rounding of the products and quotients is not modelled; `height()`'s own rounding is.
- Aliasing: `RefCell` borrow checking, `Ref` lifetimes and the shared `Rc<RefCell<ScaleContext>>` are not modelled. The cache is a map field, and `GlyphFor` returns a copy of the entry. Hinting state and the reuse of the scale context across fonts are not modelled either.
- External libraries: parsing (`ttf_parser::Face::parse`, `swash::FontRef::from_index`) and the per-glyph queries (`glyph_raster_image`, `outline_glyph`, `scale_outline`) are abstract functions. The same goes for ttf-parser's `width()`/`weight()` numbers and `is_*` style tests, and for PNG decoding. The renderer's `Path` type is not part of this model; a path is the list of commands appended to it.
- `TtfBackend.GlyphOf`: the outline's bounding-box extents are exact integer differences, so the 16-bit wrap-around of ttf-parser's `Rect::width`/`height` on boxes wider than 32767 units is not modelled.
- `Fonts.Font.GlyphFor`: the face argument must be the font's own parsed face, which is what `face_ref()` produces. `face_ref()` itself, which re-parses and unwraps, is not modelled.
- The `Debug` impl and the `data()` and `face_index()` accessors are not modelled: they only format or expose stored fields.
- The getters of `FontMetrics` other than `height()` return a stored field or a flag accessor. They appear only as helpers of the datatype.
