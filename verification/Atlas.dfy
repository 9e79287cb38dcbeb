/** renderer/text_gl.cpp: glyph bitmaps packed into one square texture, shelf by shelf, and the
    cache that remembers where each glyph went. */
module Atlas {
  import opened Wrappers

  datatype Rect = Rect(x: int, y: int, w: int, h: int)

  /** A cached glyph: its bitmap size, and where in the atlas the bitmap is, if anywhere. */
  datatype Glyph = Glyph(bw: int, bh: int, place: Option<Rect>)

  /** What the font rasterizer returns. */
  datatype Baked = Baked(bitmap: bool, w: int, h: int)

  predicate InAtlas(r: Rect, dim: int) {
    0 <= r.x && 0 <= r.y && 0 < r.w && 0 < r.h && r.x + r.w <= dim && r.y + r.h <= dim
  }

  /** Disjoint, with at least one unused pixel between. */
  predicate Apart(r: Rect, s: Rect) {
    r.x + r.w + 1 <= s.x || s.x + s.w + 1 <= r.x || r.y + r.h + 1 <= s.y || s.y + s.h + 1 <= r.y
  }

  /** A point belongs to a rectangle. */
  predicate Has(r: Rect, x: int, y: int) { r.x <= x < r.x + r.w && r.y <= y < r.y + r.h }

  /** Rectangles that are apart share no pixel, and no pixel of one touches one of the other. */
  lemma ApartIsDisjoint(r: Rect, s: Rect, x: int, y: int, u: int, v: int)
    requires Apart(r, s) && Has(r, x, y) && Has(s, u, v)
    ensures x - u < -1 || x - u > 1 || y - v < -1 || y - v > 1
  {}

  /** On an earlier shelf, or on the current one to the left of the pen. */
  predicate Behind(r: Rect, penX: int, penY: int, rowH: int) {
    r.y + r.h + 1 <= penY || (r.y == penY && r.h <= rowH && r.x + r.w + 1 <= penX)
  }

  /** The rectangles placed since the last wipe lie in the atlas, apart from each other and
      behind the pen. */
  ghost predicate Packed(placed: seq<Rect>, dim: int, penX: int, penY: int, rowH: int) {
    penX >= 0 && penY >= 0 && rowH >= 0 &&
    (forall i :: 0 <= i < |placed| ==> InAtlas(placed[i], dim) && Behind(placed[i], penX, penY, rowH)) &&
    (forall i, j :: 0 <= i < j < |placed| ==> Apart(placed[i], placed[j]))
  }

  /** Wrapping to a new shelf leaves everything behind. */
  lemma Wrapped(placed: seq<Rect>, dim: int, penX: int, penY: int, rowH: int)
    requires Packed(placed, dim, penX, penY, rowH)
    ensures Packed(placed, dim, 0, penY + rowH + 1, 0)
  {}

  /** A rectangle at the pen is apart from everything behind it. */
  lemma Placed(placed: seq<Rect>, dim: int, r: Rect, rowH: int)
    requires Packed(placed, dim, r.x, r.y, rowH) && InAtlas(r, dim)
    ensures Packed(placed + [r], dim, r.x + r.w + 1, r.y, if rowH < r.h then r.h else rowH)
  {}

  class Atlas {
    const dim: int
    var penX: int
    var penY: int
    var rowH: int
    var cache: map<int, Glyph>
    ghost var placed: seq<Rect>      // since the last wipe

    /** Every cached glyph that has a place has one that is still there and is its size. */
    ghost predicate Valid()
      reads this
    {
      dim > 0 && Packed(placed, dim, penX, penY, rowH) &&
      forall k :: k in cache && cache[k].place.Some? ==>
        cache[k].place.value in placed && cache[k].place.value.w == cache[k].bw && cache[k].place.value.h == cache[k].bh
    }

    constructor (dim: int)
      requires dim > 0
      ensures Valid() && placed == [] && cache == map[] && this.dim == dim
    {
      this.dim := dim;
      penX, penY, rowH, cache, placed := 0, 0, 0, map[], [];
    }

    /** Everything is thrown away: the cache with the picture. */
    method Wipe()
      requires dim > 0
      modifies this
      ensures Valid() && placed == [] && cache == map[] && penX == 0 && penY == 0 && rowH == 0
    {
      cache := map[];
      penX, penY, rowH, placed := 0, 0, 0, [];
    }

    /** There is room on this shelf, or on a new one below it. */
    predicate HasRoom(w: int, h: int)
      reads this
    {
      if penX + w <= dim then penY + h <= dim else penY + rowH + 1 + h <= dim
    }

    /** pack_glyph: at the pen, on the next shelf if the row is full, in a wiped atlas if the
        whole is full; not at all if the bitmap is larger than the atlas. */
    method PackGlyph(w: int, h: int) returns (ok: bool, place: Option<Rect>, wiped: bool)
      requires Valid()
      modifies this
      ensures Valid()
      ensures ok <==> w <= 0 || h <= 0 || (w <= dim && h <= dim)
      ensures place.Some? <==> 0 < w <= dim && 0 < h <= dim
      ensures place.None? ==> placed == old(placed) && cache == old(cache)
      ensures place.Some? ==> place.value.w == w && place.value.h == h
      ensures place.Some? ==> (wiped <==> !old(HasRoom(w, h)))
      ensures place.Some? && wiped ==> placed == [place.value] && cache == map[]
      ensures place.Some? && !wiped ==> placed == old(placed) + [place.value] && cache == old(cache)
    {
      wiped := false;
      if w <= 0 || h <= 0 { return true, None, wiped; }
      if w > dim || h > dim { return false, None, wiped; }
      if penX + w > dim {
        Wrapped(placed, dim, penX, penY, rowH);
        penX := 0;
        penY := penY + rowH + 1;
        rowH := 0;
      }
      if penY + h > dim {
        Wipe();
        wiped := true;
      }
      var r := Rect(penX, penY, w, h);
      Placed(placed, dim, r, rowH);
      placed := placed + [r];
      penX := penX + w + 1;
      rowH := if rowH < h then h else rowH;
      ok, place := true, Some(r);
    }

    /** glyph_for: from the cache, or baked, packed and cached.  A glyph that finds no room
        counts as blank. */
    method GlyphFor(key: int, baked: Baked) returns (g: Glyph)
      requires Valid()
      modifies this
      ensures Valid() && key in cache && cache[key] == g
      ensures key in old(cache) ==> g == old(cache)[key] && cache == old(cache) && placed == old(placed)
      ensures key !in old(cache) ==>
                (g.place.Some? <==> baked.bitmap && 0 < baked.w <= dim && 0 < baked.h <= dim) &&
                (g.bw, g.bh) == (if baked.bitmap && 0 < baked.w && 0 < baked.h && (baked.w > dim || baked.h > dim)
                                 then (0, 0) else (baked.w, baked.h))
    {
      if key in cache { return cache[key]; }
      g := Glyph(baked.w, baked.h, None);
      if baked.bitmap && baked.w > 0 && baked.h > 0 {
        var ok, place, _ := PackGlyph(baked.w, baked.h);
        g := if ok then g.(place := place) else Glyph(0, 0, None);
      }
      cache := cache[key := g];
    }

    /** Any sequence of glyph requests and font changes. */
    method Draw(requests: seq<Request>)
      requires Valid()
      modifies this
      ensures Valid()
    {
      var i := 0;
      while i < |requests|
        invariant Valid()
      {
        match requests[i] {
          case Show(key, baked) => var _ := GlyphFor(key, baked);
          case LoadFont => Wipe();
        }
        i := i + 1;
      }
    }
  }

  datatype Request = Show(key: int, baked: Baked) | LoadFont
}
