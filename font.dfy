/** The glyph cache of `sogl::Font` (src/Font.cpp, include/sogl/Font.hpp): one
    atlas page per pixel size, created on first use; glyphs rendered on first
    request, placed at the page's cursor, uploaded as RGBA, and the cursor
    advanced left to right and wrapped to the next row. The font backend (what a
    glyph renders to) and the texture limit are given, not computed. */
module Fonts {
  import opened Wrappers

  type Byte = b: int | 0 <= b < 256

  /** `std::uint32_t` codepoints. */
  type Codepoint = c: int | 0 <= c < 0x1_0000_0000

  /** What the font backend renders a glyph to at the current pixel size: an
      8-bit coverage bitmap of `width` columns (pitch equal to width) and `rows`
      rows, and the advance and bearings in 26.6 fixed point. */
  datatype RenderedGlyph = RenderedGlyph(width: nat, rows: nat, buffer: seq<Byte>, advance: int, bearingX: int, bearingY: int)

  /** Rendered glyphs whose buffer holds at least one byte per pixel. */
  type Rendering = r: RenderedGlyph | |r.buffer| >= r.width * r.rows witness RenderedGlyph(0, 0, [], 0, 0, 0)

  /** `sogl::Glyph`: metrics (still in 26.6 units) and where the bitmap sits in
      the page's texture. */
  datatype Glyph = Glyph(advance: int, bearingX: int, bearingY: int, texPos: (int, int), texSize: (int, int))

  /** One `texture.copy(pixels, x, y, w, h)` into a page's texture. */
  datatype Upload = Upload(x: int, y: int, w: int, h: int, pixels: seq<Byte>)

  /** `GlyphPage`: the cached glyphs of one pixel size, its texture (its extent
      and the uploads made into it) and the cursor `next_pos`. */
  datatype GlyphPage = GlyphPage(glyphs: map<Codepoint, Glyph>, texSize: (int, int), uploads: seq<Upload>, nextPos: (int, int))

  function Min(a: int, b: int): int
  {
    if a <= b then a else b
  }

  /** The page made on the first request at `size`: no glyphs, a texture of side
      `11 * size` clamped to the maximum texture size on each axis, cursor at the
      origin. */
  function NewPage(size: int, maxTexture: (int, int)): (p: GlyphPage)
    ensures p.glyphs == map[] && p.uploads == [] && p.nextPos == (0, 0)
    ensures p.texSize.0 <= 11 * size && p.texSize.0 <= maxTexture.0
    ensures p.texSize.0 == 11 * size || p.texSize.0 == maxTexture.0
    ensures p.texSize.1 <= 11 * size && p.texSize.1 <= maxTexture.1
    ensures p.texSize.1 == 11 * size || p.texSize.1 == maxTexture.1
  {
    GlyphPage(map[], (Min(11 * size, maxTexture.0), Min(11 * size, maxTexture.1)), [], (0, 0))
  }

  /** The page a request at `size` works on: the cached one, or a new one. */
  function PageFor(pages: map<int, GlyphPage>, size: int, maxTexture: (int, int)): GlyphPage
  {
    if size in pages then pages[size] else NewPage(size, maxTexture)
  }

  /** The pixel buffer uploaded for a bitmap of `count` pixels: each coverage
      byte becomes four bytes, white with the coverage as alpha. */
  function Rgba(bitmap: seq<Byte>, count: nat): (pixels: seq<Byte>)
    requires count <= |bitmap|
    ensures |pixels| == 4 * count
    ensures forall i :: 0 <= i < count ==>
      pixels[4 * i] == 0xff && pixels[4 * i + 1] == 0xff && pixels[4 * i + 2] == 0xff && pixels[4 * i + 3] == bitmap[i]
  {
    if count == 0 then [] else Rgba(bitmap, count - 1) + [0xff, 0xff, 0xff, bitmap[count - 1]]
  }

  /** The glyph a miss records: the rendered metrics, placed at the cursor, with
      the bitmap's extent. */
  function PlacedGlyph(p: GlyphPage, r: Rendering): Glyph
  {
    Glyph(r.advance, r.bearingX, r.bearingY, p.nextPos, (r.width, r.rows))
  }

  /** The cursor after placing a glyph `width` wide: advance by the width, and
      start a new row `size` lower when the advanced cursor plus `size` reaches
      the texture width. */
  function Advanced(p: GlyphPage, width: nat, size: int): (c: (int, int))
    ensures c == (p.nextPos.0 + width, p.nextPos.1) || c == (0, p.nextPos.1 + size)
    ensures c.0 == 0 || c.0 + size < p.texSize.0
  {
    var x := p.nextPos.0 + width;
    if x + size >= p.texSize.0 then (0, p.nextPos.1 + size) else (x, p.nextPos.1)
  }

  /** A miss at `codepoint`: record the placed glyph, upload its RGBA pixels at
      the cursor, advance the cursor. */
  function Place(p: GlyphPage, codepoint: Codepoint, r: Rendering, size: int): (q: GlyphPage)
    ensures q.glyphs.Keys == p.glyphs.Keys + {codepoint} && q.glyphs[codepoint] == PlacedGlyph(p, r)
    ensures q.texSize == p.texSize && |q.uploads| == |p.uploads| + 1
  {
    var n := r.width * r.rows;
    p.(glyphs := p.glyphs[codepoint := PlacedGlyph(p, r)],
       uploads := p.uploads + [Upload(p.nextPos.0, p.nextPos.1, r.width, r.rows, Rgba(r.buffer, n))],
       nextPos := Advanced(p, r.width, size))
  }

  /** What a miss does: the new glyph sits at the old cursor with the bitmap's
      extent, every glyph cached before keeps its entry, one upload of 4*w*h bytes
      lands at the old cursor, and the cursor moves right by the width, or wraps
      to x = 0 one `size` lower when x + width + size reaches the texture width
      (the test looks at `size`, not at the next glyph's width). */
  lemma PlaceEffect(p: GlyphPage, codepoint: Codepoint, r: Rendering, size: int)
    ensures var q := Place(p, codepoint, r, size);
      && q.glyphs.Keys == p.glyphs.Keys + {codepoint}
      && q.glyphs[codepoint].texPos == p.nextPos
      && q.glyphs[codepoint].texSize == (r.width, r.rows)
      && (forall c :: c in p.glyphs && c != codepoint ==> q.glyphs[c] == p.glyphs[c])
      && q.texSize == p.texSize
      && |q.uploads| == |p.uploads| + 1 && q.uploads[..|p.uploads|] == p.uploads
      && q.uploads[|p.uploads|].x == p.nextPos.0 && q.uploads[|p.uploads|].y == p.nextPos.1
      && |q.uploads[|p.uploads|].pixels| == 4 * r.width * r.rows
      && (p.nextPos.0 + r.width + size >= p.texSize.0 ==> q.nextPos == (0, p.nextPos.1 + size))
      && (p.nextPos.0 + r.width + size < p.texSize.0 ==> q.nextPos == (p.nextPos.0 + r.width, p.nextPos.1))
  {
  }

  /** Row packing: the cursor is never left of the texture origin, every cached
      glyph lies in an earlier row or left of the cursor in the current row, and
      two glyphs in the same row do not overlap horizontally. */
  ghost predicate Packed(p: GlyphPage)
  {
    && p.nextPos.0 >= 0
    && (forall c :: c in p.glyphs ==>
          var g := p.glyphs[c];
          g.texPos.1 < p.nextPos.1 || (g.texPos.1 == p.nextPos.1 && g.texPos.0 + g.texSize.0 <= p.nextPos.0))
    && (forall c, d :: c in p.glyphs && d in p.glyphs && c != d && p.glyphs[c].texPos.1 == p.glyphs[d].texPos.1 ==>
          var g, h := p.glyphs[c], p.glyphs[d];
          g.texPos.0 + g.texSize.0 <= h.texPos.0 || h.texPos.0 + h.texSize.0 <= g.texPos.0)
    && (forall c :: c in p.glyphs ==> p.glyphs[c].texPos.0 >= 0 && p.glyphs[c].texSize.0 >= 0)
  }

  lemma NewPagePacked(size: int, maxTexture: (int, int))
    ensures Packed(NewPage(size, maxTexture))
  {
  }

  /** Placing a new glyph keeps the page packed, for any positive pixel size:
      glyphs placed in one row never overlap, and a placed glyph is never
      overwritten by a later one in its row. */
  lemma PlaceKeepsPacked(p: GlyphPage, codepoint: Codepoint, r: Rendering, size: int)
    requires size > 0
    requires Packed(p) && codepoint !in p.glyphs
    ensures Packed(Place(p, codepoint, r, size))
  {
    var q := Place(p, codepoint, r, size);
    var g := PlacedGlyph(p, r);
    assert q.glyphs == p.glyphs[codepoint := g] && q.nextPos == Advanced(p, r.width, size);
    forall c | c in q.glyphs
      ensures var h := q.glyphs[c];
        h.texPos.1 < q.nextPos.1 || (h.texPos.1 == q.nextPos.1 && h.texPos.0 + h.texSize.0 <= q.nextPos.0)
    {
      if c != codepoint {
        assert q.glyphs[c] == p.glyphs[c];
      }
    }
    forall c, d | c in q.glyphs && d in q.glyphs && c != d && q.glyphs[c].texPos.1 == q.glyphs[d].texPos.1
      ensures var h, k := q.glyphs[c], q.glyphs[d];
        h.texPos.0 + h.texSize.0 <= k.texPos.0 || k.texPos.0 + k.texSize.0 <= h.texPos.0
    {
      if c == codepoint {
        assert q.glyphs[d] == p.glyphs[d];
      } else if d == codepoint {
        assert q.glyphs[c] == p.glyphs[c];
      } else {
        assert q.glyphs[c] == p.glyphs[c] && q.glyphs[d] == p.glyphs[d];
      }
    }
  }

  /** The cursor leaves room for a glyph of width `size`: it is at the start of a
      row, or `size` more columns still fit before the texture's edge. */
  ghost predicate InWidth(p: GlyphPage, size: int)
  {
    && (p.nextPos.0 == 0 || p.nextPos.0 + size < p.texSize.0)
    && (forall c :: c in p.glyphs ==> p.glyphs[c].texPos.0 + p.glyphs[c].texSize.0 <= p.texSize.0)
  }

  /** The wrap test only guards glyphs no wider than `size`: as long as every
      rendered glyph is at most `size` (and the texture) wide, every glyph lies
      inside the texture horizontally. */
  lemma PlaceStaysInWidth(p: GlyphPage, codepoint: Codepoint, r: Rendering, size: int)
    requires InWidth(p, size) && p.nextPos.0 >= 0
    requires r.width <= size && r.width <= p.texSize.0
    ensures InWidth(Place(p, codepoint, r, size), size)
  {
    var q := Place(p, codepoint, r, size);
    forall c | c in q.glyphs
      ensures q.glyphs[c].texPos.0 + q.glyphs[c].texSize.0 <= q.texSize.0
    {
      if c != codepoint {
        assert q.glyphs[c] == p.glyphs[c];
      }
    }
  }

  /** A glyph wider than `size` can be placed across the right edge: on a page of
      width 110 for size 10, a cursor at x = 90 passes the wrap test, and a glyph
      25 wide then spans columns 90 to 115. */
  lemma WideGlyphCrossesEdge()
    ensures var p := GlyphPage(map[], (110, 110), [], (90, 0));
      var q := Place(p, 65, RenderedGlyph(25, 1, seq(25, _ => 0), 0, 0, 0), 10);
      InWidth(p, 10) && q.glyphs[65].texPos.0 + q.glyphs[65].texSize.0 > q.texSize.0
  {
  }

  /** The cache invariant: each page of a positive size is packed; a pair was
      rendered exactly when it is cached, and never twice; every cached glyph
      has the extent the backend rendered it with. */
  ghost predicate CacheValid(pages: map<int, GlyphPage>, loads: seq<(Codepoint, int)>, render: (Codepoint, int) -> Rendering)
  {
    && (forall s :: s in pages && s > 0 ==> Packed(pages[s]))
    && (forall i, j :: 0 <= i < j < |loads| ==> loads[i] != loads[j])
    && (forall c, s :: (c, s) in loads <==> s in pages && c in pages[s].glyphs)
    && (forall s, c :: s in pages && c in pages[s].glyphs ==>
          pages[s].glyphs[c].texSize == (render(c, s).width, render(c, s).rows))
  }

  /** Creating the empty page for a size keeps the cache invariant. */
  lemma NewPageKeepsValid(pages: map<int, GlyphPage>, loads: seq<(Codepoint, int)>, render: (Codepoint, int) -> Rendering,
                          size: int, maxTexture: (int, int))
    requires CacheValid(pages, loads, render) && size !in pages
    ensures CacheValid(pages[size := NewPage(size, maxTexture)], loads, render)
  {
    var q := pages[size := NewPage(size, maxTexture)];
    forall c, s | (c, s) in loads
      ensures s in q && c in q[s].glyphs
    {
      assert s in pages && s != size;
    }
  }

  /** A miss (render once, place, record the load) keeps the cache invariant. */
  lemma MissKeepsValid(pages: map<int, GlyphPage>, loads: seq<(Codepoint, int)>, render: (Codepoint, int) -> Rendering,
                       codepoint: Codepoint, size: int)
    requires CacheValid(pages, loads, render)
    requires size in pages && codepoint !in pages[size].glyphs
    ensures CacheValid(pages[size := Place(pages[size], codepoint, render(codepoint, size), size)],
                       loads + [(codepoint, size)], render)
  {
    var p := pages[size];
    var q := pages[size := Place(p, codepoint, render(codepoint, size), size)];
    var loads' := loads + [(codepoint, size)];
    if size > 0 {
      PlaceKeepsPacked(p, codepoint, render(codepoint, size), size);
    }
    assert (codepoint, size) !in loads;
    forall i, j | 0 <= i < j < |loads'|
      ensures loads'[i] != loads'[j]
    {
      if j == |loads| {
        assert loads'[i] == loads[i] && loads[i] in loads;
      }
    }
    forall c, s
      ensures (c, s) in loads' <==> s in q && c in q[s].glyphs
    {
      if s == size {
        assert q[size].glyphs.Keys == p.glyphs.Keys + {codepoint};
      }
    }
    forall s, c | s in q && c in q[s].glyphs
      ensures q[s].glyphs[c].texSize == (render(c, s).width, render(c, s).rows)
    {
      if s == size && c != codepoint {
        assert q[s].glyphs[c] == p.glyphs[c];
      }
    }
  }

  /** What one `getGlyph` call does to the cache: the glyph it returns, the
      pages afterwards, and whether the backend had to render the glyph. */
  datatype Outcome = Outcome(glyph: Glyph, pages: map<int, GlyphPage>, rendered: bool)

  /** The cache side of `getGlyph(codepoint, size)`: the page for `size` (made
      if missing), the cached entry on a hit, the placed glyph on a miss. */
  function Request(pages: map<int, GlyphPage>, codepoint: Codepoint, size: int, maxTexture: (int, int),
                   render: (Codepoint, int) -> Rendering): (o: Outcome)
    ensures o.rendered <==> !(size in pages && codepoint in pages[size].glyphs)
    ensures o.pages.Keys == pages.Keys + {size}
  {
    var p := PageFor(pages, size, maxTexture);
    if codepoint in p.glyphs then Outcome(p.glyphs[codepoint], pages[size := p], false)
    else
      var r := render(codepoint, size);
      Outcome(PlacedGlyph(p, r), pages[size := Place(p, codepoint, r, size)], true)
  }

  /** A request leaves the glyph cached under its size and returns that entry;
      the backend renders only on a miss; pages of other sizes are untouched and
      glyphs already cached at this size keep their entries; a hit changes
      nothing at all (no entry, no upload, no cursor move). */
  lemma RequestCaches(pages: map<int, GlyphPage>, codepoint: Codepoint, size: int, maxTexture: (int, int),
                      render: (Codepoint, int) -> Rendering)
    ensures var o := Request(pages, codepoint, size, maxTexture, render);
      && size in o.pages && codepoint in o.pages[size].glyphs && o.pages[size].glyphs[codepoint] == o.glyph
      && (o.rendered <==> !(size in pages && codepoint in pages[size].glyphs))
      && o.pages.Keys == pages.Keys + {size}
      && (forall s :: s in pages && s != size ==> o.pages[s] == pages[s])
      && (size in pages ==> forall c :: c in pages[size].glyphs ==> o.pages[size].glyphs[c] == pages[size].glyphs[c])
      && (size in pages && codepoint in pages[size].glyphs ==>
            !o.rendered && o.pages == pages && o.glyph == pages[size].glyphs[codepoint])
  {
  }

  /** Asking again for the same glyph at the same size is a hit: the same glyph
      comes back, nothing is rendered and the cache does not change. */
  lemma RequestAgainHits(pages: map<int, GlyphPage>, codepoint: Codepoint, size: int, maxTexture: (int, int),
                         render: (Codepoint, int) -> Rendering)
    ensures var o := Request(pages, codepoint, size, maxTexture, render);
      var o2 := Request(o.pages, codepoint, size, maxTexture, render);
      o2.glyph == o.glyph && !o2.rendered && o2.pages == o.pages
  {
    RequestCaches(pages, codepoint, size, maxTexture, render);
  }

  /** A request keeps the cache invariant, the load being recorded exactly when
      the backend rendered. */
  lemma RequestKeepsValid(pages: map<int, GlyphPage>, loads: seq<(Codepoint, int)>, codepoint: Codepoint, size: int,
                          maxTexture: (int, int), render: (Codepoint, int) -> Rendering)
    requires CacheValid(pages, loads, render)
    ensures var o := Request(pages, codepoint, size, maxTexture, render);
      CacheValid(o.pages, loads + (if o.rendered then [(codepoint, size)] else []), render)
  {
    var o := Request(pages, codepoint, size, maxTexture, render);
    var q := pages;
    if size !in pages {
      NewPageKeepsValid(pages, loads, render, size, maxTexture);
      q := pages[size := NewPage(size, maxTexture)];
    }
    var p := q[size];
    assert p == PageFor(pages, size, maxTexture);
    if codepoint !in p.glyphs {
      MissKeepsValid(q, loads, render, codepoint, size);
      assert o.pages == q[size := Place(p, codepoint, render(codepoint, size), size)] && o.rendered;
    } else {
      assert o.pages == q[size := p] == q && !o.rendered;
      assert loads + [] == loads;
    }
  }

  /** Copying a bitmap into an RGBA buffer, pixel by pixel, as the upload loop of
      `getGlyph` does. */
  method ExpandToRgba(bitmap: seq<Byte>, count: nat) returns (pixels: seq<Byte>)
    requires count <= |bitmap|
    ensures |pixels| == 4 * count
    ensures forall i :: 0 <= i < count ==>
      pixels[4 * i] == 0xff && pixels[4 * i + 1] == 0xff && pixels[4 * i + 2] == 0xff && pixels[4 * i + 3] == bitmap[i]
    ensures pixels == Rgba(bitmap, count)
  {
    pixels := [];
    for i := 0 to count
      invariant pixels == Rgba(bitmap, i)
    {
      pixels := pixels + [0xff, 0xff, 0xff, bitmap[i]];
    }
  }

  /** The miss path of `getGlyph` on one page: record the glyph at the cursor,
      upload its RGBA pixels there, then advance or wrap the cursor. */
  method AddGlyph(page: GlyphPage, codepoint: Codepoint, r: Rendering, size: int) returns (glyph: Glyph, next: GlyphPage)
    ensures glyph == PlacedGlyph(page, r) && next == Place(page, codepoint, r, size)
  {
    glyph := Glyph(r.advance, r.bearingX, r.bearingY, page.nextPos, (r.width, r.rows));
    var pixels := ExpandToRgba(r.buffer, r.width * r.rows);
    next := page.(glyphs := page.glyphs[codepoint := glyph]);
    next := next.(uploads := next.uploads + [Upload(glyph.texPos.0, glyph.texPos.1, r.width, r.rows, pixels)]);
    var x := next.nextPos.0 + r.width;
    if x + size >= next.texSize.0 {
      next := next.(nextPos := (0, next.nextPos.1 + size));
    } else {
      next := next.(nextPos := (x, next.nextPos.1));
    }
  }

  /** What the face size is: unset until the first size change, then the last
      size set. Each load happened at its requested size, except a load at 16
      while the face had no size yet, since `m_last_size` starts at 16 without
      telling the face. */
  ghost predicate FaceValid(sizeCalls: seq<int>, lastSize: int, faceSize: Option<int>,
                            loads: seq<(Codepoint, int)>, loadSizes: seq<Option<int>>)
  {
    && (sizeCalls == [] ==> lastSize == 16 && faceSize == None)
    && (sizeCalls != [] ==> faceSize == Some(lastSize))
    && |loadSizes| == |loads|
    && (forall i :: 0 <= i < |loads| ==>
          loadSizes[i] == Some(loads[i].1) || (loadSizes[i] == None && loads[i].1 == 16))
  }

  /** Setting the pixel size and then loading (or not) at that size keeps the
      face-size invariant. */
  lemma RequestKeepsFaceValid(sizeCalls: seq<int>, lastSize: int, faceSize: Option<int>,
                              loads: seq<(Codepoint, int)>, loadSizes: seq<Option<int>>,
                              codepoint: Codepoint, size: int, rendered: bool)
    requires FaceValid(sizeCalls, lastSize, faceSize, loads, loadSizes)
    ensures var changed := size != lastSize;
      var face := if changed then Some(size) else faceSize;
      FaceValid(sizeCalls + (if changed then [size] else []), size, face,
                loads + (if rendered then [(codepoint, size)] else []),
                loadSizes + (if rendered then [face] else []))
  {
  }

  /** `sogl::Font`, glyph-cache side. */
  class Font {
    /** `m_glyphpages`, by pixel size. */
    var pages: map<int, GlyphPage>
    /** `m_last_size`: the pixel size last set on the backend. */
    var lastSize: int
    /** The pixel sizes set on the backend, in order. */
    var sizeCalls: seq<int>
    /** The pixel size the face was last given, none before the first
        `FT_Set_Pixel_Sizes`. */
    var faceSize: Option<int>
    /** The (codepoint, size) pairs the backend was asked to render, in order. */
    var loads: seq<(Codepoint, int)>
    /** The face size in effect at each of those loads. */
    var loadSizes: seq<Option<int>>
    /** What the backend renders a codepoint to at a pixel size. */
    const render: (Codepoint, int) -> Rendering
    /** `Texture::getMaximumSize()`. */
    const maxTexture: (int, int)

    /** The cache invariant and the face-size invariant, on this font's state. */
    ghost predicate Valid()
      reads this
    {
      CacheValid(pages, loads, render) && FaceValid(sizeCalls, lastSize, faceSize, loads, loadSizes)
    }

    /** `Font()`: no pages, last size 16, nothing asked of the backend yet. */
    constructor (render: (Codepoint, int) -> Rendering, maxTexture: (int, int))
      ensures Valid()
      ensures pages == map[] && lastSize == 16 && sizeCalls == [] && loads == []
      ensures faceSize == None && loadSizes == []
      ensures this.render == render && this.maxTexture == maxTexture
    {
      this.render := render;
      this.maxTexture := maxTexture;
      pages := map[];
      lastSize := 16;
      sizeCalls := [];
      faceSize := None;
      loads := [];
      loadSizes := [];
    }

    /** `setPixelSize`: tells the backend only when the size changes. */
    method SetPixelSize(size: int)
      modifies this`lastSize, this`sizeCalls, this`faceSize
      ensures lastSize == size
      ensures sizeCalls == old(sizeCalls) + (if size != old(lastSize) then [size] else [])
      ensures faceSize == if size != old(lastSize) then Some(size) else old(faceSize)
    {
      if size != lastSize {
        sizeCalls := sizeCalls + [size];
        faceSize := Some(size);
        lastSize := size;
      }
    }

    /** `getGlyph(codepoint, size)`: sets the pixel size, then looks the glyph up
        in the page for `size`, rendering and placing it on a miss. */
    method GetGlyph(codepoint: Codepoint, size: int) returns (glyph: Glyph)
      requires Valid()
      modifies this`pages, this`lastSize, this`sizeCalls, this`faceSize, this`loads, this`loadSizes
      ensures Valid()
      ensures lastSize == size
      ensures sizeCalls == old(sizeCalls) + (if size != old(lastSize) then [size] else [])
      ensures faceSize == if old(sizeCalls) == [] && size == 16 then None else Some(size)
      ensures var o := Request(old(pages), codepoint, size, maxTexture, render);
        && glyph == o.glyph && pages == o.pages
        && loads == old(loads) + (if o.rendered then [(codepoint, size)] else [])
        && loadSizes == old(loadSizes) + (if o.rendered then [faceSize] else [])
    {
      RequestKeepsValid(pages, loads, codepoint, size, maxTexture, render);
      RequestKeepsFaceValid(sizeCalls, lastSize, faceSize, loads, loadSizes, codepoint, size,
                            Request(pages, codepoint, size, maxTexture, render).rendered);
      SetPixelSize(size);
      glyph := CacheGlyph(codepoint, size);
    }

    /** The page work of `getGlyph`: creates the page for `size` if there is
        none, returns the cached glyph on a hit, and on a miss renders the glyph
        once, places and uploads it and advances the cursor. */
    method CacheGlyph(codepoint: Codepoint, size: int) returns (glyph: Glyph)
      modifies this`pages, this`loads, this`loadSizes
      ensures var o := Request(old(pages), codepoint, size, maxTexture, render);
        && glyph == o.glyph && pages == o.pages
        && loads == old(loads) + (if o.rendered then [(codepoint, size)] else [])
        && loadSizes == old(loadSizes) + (if o.rendered then [faceSize] else [])
    {
      if size !in pages {
        var tex := 11 * size;
        pages := pages[size := GlyphPage(map[], (Min(tex, maxTexture.0), Min(tex, maxTexture.1)), [], (0, 0))];
      }
      var page := pages[size];
      if codepoint in page.glyphs {
        glyph := page.glyphs[codepoint];
        assert pages[size := page] == pages;
      } else {
        var r := render(codepoint, size);
        loads := loads + [(codepoint, size)];
        loadSizes := loadSizes + [faceSize];
        glyph, page := AddGlyph(page, codepoint, r, size);
        pages := pages[size := page];
      }
    }

    /** Two requests for the same glyph at the same size give the same glyph, and
        the backend renders it at most once. */
    method GetGlyphTwice(codepoint: Codepoint, size: int) returns (first: Glyph, second: Glyph)
      requires Valid()
      modifies this`pages, this`lastSize, this`sizeCalls, this`faceSize, this`loads, this`loadSizes
      ensures Valid()
      ensures first == second
      ensures |loads| <= |old(loads)| + 1
    {
      RequestAgainHits(pages, codepoint, size, maxTexture, render);
      first := GetGlyph(codepoint, size);
      second := GetGlyph(codepoint, size);
    }
  }

  /** A fresh font asked for a glyph at 16 renders it on a face that was never
      given a size: 16 is already the last size, so no size is set first. */
  method FirstGlyphAtDefaultSize(render: (Codepoint, int) -> Rendering, maxTexture: (int, int), codepoint: Codepoint)
    returns (font: Font)
    ensures font.sizeCalls == [] && font.loads == [(codepoint, 16)] && font.loadSizes == [None]
  {
    font := new Font(render, maxTexture);
    var _ := font.GetGlyph(codepoint, 16);
  }
}
