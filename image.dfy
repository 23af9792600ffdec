/** Images: refcounted pixel grids with an optional parent (for subimages)
    and an optional cache of packed pixel words.

    The Allegro bitmap is a grid `pixels[x, y]` of RGBA colours; a locked
    region in `ALLEGRO_PIXEL_FORMAT_ABGR_8888` on a little-endian host holds
    the bytes R, G, B, A in order, which are the four channels of `Color`.
    Whether a lock or an allocation succeeds is an input. The pixel cache
    holds one 32-bit word per pixel, row after row, and the class invariant
    says it always agrees with the grid: every path that changes the grid
    drops the cache first. */
module Images {
  import opened Common

  // ---------------------------------------------------------------------
  // Pixel words
  // ---------------------------------------------------------------------

  /** The 32-bit word of an `ABGR_8888` pixel: alpha in bits 24-31, blue in
      16-23, green in 8-15 and red in 0-7. */
  function PackColor(c: Color): (w: int)
    ensures 0 <= w < 0x1_0000_0000
  {
    c.alpha * 0x100_0000 + c.b * 0x1_0000 + c.g * 0x100 + c.r
  }

  /** Bits `8*k .. 8*k+7` of a word. */
  function ByteOf(w: int, k: nat): Byte
    requires 0 <= w && k < 4
  {
    if k == 0 then w % 0x100
    else if k == 1 then (w / 0x100) % 0x100
    else if k == 2 then (w / 0x1_0000) % 0x100
    else (w / 0x100_0000) % 0x100
  }

  /** The cached read of `get_image_pixel` as written: red from bits 16-23,
      green from 8-15, blue from 0-7 and alpha from 24-31. */
  function UnpackPixelAsWritten(w: int): Color
    requires 0 <= w < 0x1_0000_0000
  {
    Color(ByteOf(w, 2), ByteOf(w, 1), ByteOf(w, 0), ByteOf(w, 3))
  }

  /** The read that matches the cache's pixel format. */
  function UnpackPixel(w: int): Color
    requires 0 <= w < 0x1_0000_0000
  {
    Color(ByteOf(w, 0), ByteOf(w, 1), ByteOf(w, 2), ByteOf(w, 3))
  }

  function SwapRedBlue(c: Color): Color {
    Color(c.b, c.g, c.r, c.alpha)
  }

  lemma PackedBytes(c: Color)
    ensures ByteOf(PackColor(c), 0) == c.r && ByteOf(PackColor(c), 1) == c.g
    ensures ByteOf(PackColor(c), 2) == c.b && ByteOf(PackColor(c), 3) == c.alpha
  {
    var w := PackColor(c);
    assert w == ((c.alpha * 0x100 + c.b) * 0x100 + c.g) * 0x100 + c.r;
    assert w / 0x100 == (c.alpha * 0x100 + c.b) * 0x100 + c.g;
    assert w / 0x1_0000 == c.alpha * 0x100 + c.b;
    assert w / 0x100_0000 == c.alpha;
  }

  /** Unpacking inverts packing, so the cache loses nothing. */
  lemma UnpackPixelRoundTrip(c: Color)
    ensures UnpackPixel(PackColor(c)) == c
  {
    PackedBytes(c);
  }

  /** The cached read as written returns the pixel with red and blue
      exchanged. */
  lemma CachedReadSwapsRedBlue(c: Color)
    ensures UnpackPixelAsWritten(PackColor(c)) == SwapRedBlue(c)
  {
    PackedBytes(c);
  }

  /** An opaque red pixel reads back from the cache as opaque blue. */
  lemma OpaqueRedReadsAsBlue()
    ensures UnpackPixelAsWritten(PackColor(Color(255, 0, 0, 255))) == Color(0, 0, 255, 255)
  {
    CachedReadSwapsRedBlue(Color(255, 0, 0, 255));
  }

  // ---------------------------------------------------------------------
  // The packed cache of a grid
  // ---------------------------------------------------------------------

  /** The words of row `y`. */
  function Row(p: array2<Color>, y: int): (r: seq<int>)
    requires 0 <= y < p.Length1
    reads p
    ensures |r| == p.Length0
    ensures forall x :: 0 <= x < p.Length0 ==> r[x] == PackColor(p[x, y])
  {
    seq(p.Length0, x requires 0 <= x < p.Length0 reads p => PackColor(p[x, y]))
  }

  /** The words of the first `n` rows, row after row. */
  function PackedRows(p: array2<Color>, n: nat): seq<int>
    requires n <= p.Length1
    reads p
  {
    if n == 0 then [] else PackedRows(p, n - 1) + Row(p, n - 1)
  }

  /** Pixel (x, y) is word `x + y * width` of the cache. */
  lemma {:induction false} PackedRowsIndex(p: array2<Color>, n: nat, x: int, y: int)
    requires n <= p.Length1 && 0 <= x < p.Length0 && 0 <= y < n
    ensures |PackedRows(p, n)| == n * p.Length0
    ensures x + y * p.Length0 < |PackedRows(p, n)|
    ensures PackedRows(p, n)[x + y * p.Length0] == PackColor(p[x, y])
  {
    PackedRowsLength(p, n - 1);
    assert n * p.Length0 == (n - 1) * p.Length0 + p.Length0;
    if y < n - 1 {
      PackedRowsIndex(p, n - 1, x, y);
    } else {
      assert x + y * p.Length0 == (n - 1) * p.Length0 + x;
    }
  }

  lemma {:induction false} PackedRowsLength(p: array2<Color>, n: nat)
    requires n <= p.Length1
    ensures |PackedRows(p, n)| == n * p.Length0
  {
    if n > 0 {
      PackedRowsLength(p, n - 1);
      assert n * p.Length0 == (n - 1) * p.Length0 + p.Length0;
    }
  }

  // ---------------------------------------------------------------------
  // Pixel maps
  // ---------------------------------------------------------------------

  /** The four 256-entry channel lookup tables of `apply_image_lookup`. */
  datatype Lookup = Lookup(red: seq<Byte>, green: seq<Byte>, blue: seq<Byte>, alpha: seq<Byte>)

  predicate ValidLookup(lut: Lookup) {
    |lut.red| == 256 && |lut.green| == 256 && |lut.blue| == 256 && |lut.alpha| == 256
  }

  function LookupColor(c: Color, lut: Lookup): Color
    requires ValidLookup(lut)
  {
    Color(lut.red[c.r], lut.green[c.g], lut.blue[c.b], lut.alpha[c.alpha])
  }

  /** Applying `l1` and then `l2` is applying their composition. */
  function ComposeLookup(l1: Lookup, l2: Lookup): (l: Lookup)
    requires ValidLookup(l1) && ValidLookup(l2)
    ensures ValidLookup(l)
  {
    Lookup(seq(256, i requires 0 <= i < 256 => l2.red[l1.red[i]]),
           seq(256, i requires 0 <= i < 256 => l2.green[l1.green[i]]),
           seq(256, i requires 0 <= i < 256 => l2.blue[l1.blue[i]]),
           seq(256, i requires 0 <= i < 256 => l2.alpha[l1.alpha[i]]))
  }

  lemma LookupComposes(c: Color, l1: Lookup, l2: Lookup)
    requires ValidLookup(l1) && ValidLookup(l2)
    ensures LookupColor(LookupColor(c, l1), l2) == LookupColor(c, ComposeLookup(l1, l2))
  {
  }

  /** The identity table leaves every colour as it is. */
  function IdentityLookup(): (l: Lookup)
    ensures ValidLookup(l)
  {
    var id := seq(256, i requires 0 <= i < 256 => i as Byte);
    Lookup(id, id, id, id)
  }

  lemma IdentityLookupKeepsColor(c: Color)
    ensures LookupColor(c, IdentityLookup()) == c
  {
  }

  /** The per-pixel effect of `replace_image_color`: a pixel matching `from`
      in all four channels becomes `to`. */
  function ReplacedColor(c: Color, from: Color, to: Color): Color {
    if c.r == from.r && c.g == from.g && c.b == from.b && c.alpha == from.alpha then to else c
  }

  /** Replacing a colour a second time changes nothing more. */
  lemma ReplaceIsIdempotent(c: Color, from: Color, to: Color)
    ensures ReplacedColor(ReplacedColor(c, from, to), from, to) == ReplacedColor(c, from, to)
  {
  }

  /** A colour other than the one replaced is never produced from a
      different colour. */
  lemma ReplaceKeepsOthers(c: Color, from: Color, to: Color)
    ensures ReplacedColor(c, from, to) != to ==> ReplacedColor(c, from, to) == c && c != from
  {
  }

  // ---------------------------------------------------------------------
  // Flip flags
  // ---------------------------------------------------------------------

  const FLIP_HORIZONTAL: bv32 := 1
  const FLIP_VERTICAL: bv32 := 2

  /** The flags `flip_image` builds as written: `&=` on a zero word. */
  function DrawFlagsAsWritten(h: bool, v: bool): bv32 {
    var f: bv32 := 0;
    var f := if h then f & FLIP_HORIZONTAL else f;
    if v then f & FLIP_VERTICAL else f
  }

  /** Whatever flips are asked for, the draw flags stay zero, so the new
      bitmap is an unflipped copy. */
  lemma DrawFlagsAsWrittenAreZero(h: bool, v: bool)
    ensures DrawFlagsAsWritten(h, v) == 0
  {
  }

  /** The flags built with `|=`. */
  function DrawFlags(h: bool, v: bool): bv32 {
    var f: bv32 := 0;
    var f := if h then f | FLIP_HORIZONTAL else f;
    if v then f | FLIP_VERTICAL else f
  }

  /** Each requested flip sets its own flag and no other. */
  lemma DrawFlagsSelectFlips(h: bool, v: bool)
    ensures (DrawFlags(h, v) & FLIP_HORIZONTAL != 0) == h
    ensures (DrawFlags(h, v) & FLIP_VERTICAL != 0) == v
    ensures DrawFlags(h, v) & !(FLIP_HORIZONTAL | FLIP_VERTICAL) == 0
  {
  }

  /** The source pixel `al_draw_bitmap` takes for (x, y) under `flags`. */
  function FlipSource(flags: bv32, x: int, y: int, w: int, h: int): (int, int) {
    (if flags & FLIP_HORIZONTAL != 0 then w - 1 - x else x,
     if flags & FLIP_VERTICAL != 0 then h - 1 - y else y)
  }

  /** With the intended flags a double flip restores every pixel position. */
  lemma FlipIsInvolution(hf: bool, vf: bool, x: int, y: int, w: int, h: int)
    ensures var s := FlipSource(DrawFlags(hf, vf), x, y, w, h);
      FlipSource(DrawFlags(hf, vf), s.0, s.1, w, h) == (x, y)
  {
  }

  // ---------------------------------------------------------------------
  // Images
  // ---------------------------------------------------------------------

  class Image {
    var refcount: int
    /** False once `free_image` has destroyed the bitmap and the record. */
    var live: bool
    var pixels: array2<Color>
    var width: int
    var height: int
    var pixelCache: Option<seq<int>>
    const parent: Image?
    /** The parent chain, for termination and framing. */
    ghost const ancestors: set<Image>
    ghost const depth: nat

    /** The chain above this image is finite and `ancestors` is exactly it. */
    ghost predicate Chained()
      decreases depth
    {
      if parent == null then ancestors == {} && depth == 0
      else parent.depth < depth && ancestors == {parent} + parent.ancestors && parent.Chained()
    }

    ghost predicate Valid()
      reads this, pixels
    {
      pixels.Length0 == width && pixels.Length1 == height &&
      (pixelCache.Some? ==> pixelCache.value == PackedRows(pixels, height))
    }

    /** `create_image` once the bitmap exists; its initial contents are left
        unspecified. */
    constructor Create(w: int, h: int)
      requires w >= 0 && h >= 0
      ensures Valid() && Chained() && refcount == 1 && live
      ensures width == w && height == h && pixelCache == None && parent == null && fresh(pixels)
    {
      refcount := 1;
      live := true;
      pixels := new Color[w, h];
      width, height := w, h;
      pixelCache := None;
      parent := null;
      ancestors := {};
      depth := 0;
    }

    /** The record of `create_subimage`, holding the reference on `p`. */
    constructor Sub(p: Image, w: int, h: int)
      requires p.Chained() && w >= 0 && h >= 0
      ensures Valid() && Chained() && refcount == 1 && live
      ensures width == w && height == h && pixelCache == None && parent == p && fresh(pixels)
      ensures ancestors == {p} + p.ancestors
    {
      refcount := 1;
      live := true;
      pixels := new Color[w, h];
      width, height := w, h;
      pixelCache := None;
      parent := p;
      ancestors := {p} + p.ancestors;
      depth := p.depth + 1;
    }

    /** `ref_image`. */
    method Ref()
      modifies this`refcount
      ensures refcount == old(refcount) + 1
    {
      refcount := refcount + 1;
    }

    /** `uncache_pixels`. */
    method Uncache()
      requires Valid()
      modifies this`pixelCache
      ensures Valid() && pixelCache == None
    {
      pixelCache := None;
    }

    /** `cache_pixels`: fills the cache row by row unless it is already
        there; `ok` says whether the lock and the allocation succeed. */
    method CachePixels(ok: bool)
      requires Valid()
      modifies this`pixelCache
      ensures Valid()
      ensures pixelCache.Some? <==> old(pixelCache).Some? || ok
    {
      if pixelCache == None && ok {
        var cache: seq<int> := [];
        var i := 0;
        while i < height
          invariant 0 <= i <= height && cache == PackedRows(pixels, i)
        {
          cache := cache + Row(pixels, i);
          i := i + 1;
        }
        pixelCache := Some(cache);
      }
    }

    /** `get_image_bitmap`: handing out the bitmap drops the cache. */
    method GetBitmap() returns (b: array2<Color>)
      requires Valid()
      modifies this`pixelCache
      ensures Valid() && pixelCache == None && b == pixels
    {
      Uncache();
      b := pixels;
    }

    /** `get_image_pixel`. The read goes through the cache whenever there is
        one after `cache_pixels`, and the cached read exchanges red and blue. */
    method GetPixel(x: int, y: int, cacheOk: bool) returns (c: Color)
      requires Valid() && 0 <= x < width && 0 <= y < height
      modifies this`pixelCache
      ensures Valid()
      ensures pixelCache.Some? <==> old(pixelCache).Some? || cacheOk
      ensures c == if pixelCache.Some? then SwapRedBlue(pixels[x, y]) else pixels[x, y]
    {
      CachePixels(cacheOk);
      if pixelCache == None {
        c := pixels[x, y];
      } else {
        PackedRowsIndex(pixels, height, x, y);
        c := UnpackPixelAsWritten(pixelCache.value[x + y * width]);
        CachedReadSwapsRedBlue(pixels[x, y]);
      }
    }

    /** `set_image_pixel`. Allegro clips the write, so a position outside
        the image changes no pixel (the cache is dropped all the same). */
    method SetPixel(x: int, y: int, color: Color)
      requires Valid()
      modifies this`pixelCache, pixels
      ensures Valid() && pixelCache == None
      ensures forall a, b :: 0 <= a < width && 0 <= b < height ==>
        pixels[a, b] == if a == x && b == y then color else old(pixels[a, b])
    {
      Uncache();
      if 0 <= x < width && 0 <= y < height {
        pixels[x, y] := color;
      }
    }

    /** `apply_image_lookup`: every pixel of the rectangle is mapped channel
        by channel, column after column; nothing else changes. The cache is
        dropped even when the lock fails. An empty rectangle (a width or
        height of zero or less) is a success that changes no pixel, wherever
        it lies. */
    method ApplyLookup(x: int, y: int, w: int, h: int, lut: Lookup, lockOk: bool) returns (ok: bool)
      requires Valid() && ValidLookup(lut)
      requires w <= 0 || h <= 0 || (0 <= x && 0 <= y && x + w <= width && y + h <= height)
      modifies this`pixelCache, pixels
      ensures Valid() && pixelCache == None && ok == lockOk
      ensures forall a, b :: 0 <= a < width && 0 <= b < height ==>
        pixels[a, b] == if ok && x <= a < x + w && y <= b < y + h then LookupColor(old(pixels[a, b]), lut) else old(pixels[a, b])
    {
      var bitmap := GetBitmap();
      if !lockOk {
        return false;
      }
      Uncache();
      if w <= 0 || h <= 0 {
        return true;
      }
      var ix := x;
      while ix < x + w
        invariant x <= ix <= x + w && Valid() && pixelCache == None
        invariant forall a, b :: 0 <= a < width && 0 <= b < height ==>
          pixels[a, b] == if x <= a < ix && y <= b < y + h then LookupColor(old(pixels[a, b]), lut) else old(pixels[a, b])
      {
        LookupColumn(ix, y, h, lut);
        ix := ix + 1;
      }
      ok := true;
    }

    /** The inner loop of `apply_image_lookup` over one column. */
    method LookupColumn(ix: int, y: int, h: int, lut: Lookup)
      requires Valid() && ValidLookup(lut) && pixelCache == None
      requires 0 <= ix < width && 0 <= y && 0 <= h && y + h <= height
      modifies pixels
      ensures Valid()
      ensures forall a, b :: 0 <= a < width && 0 <= b < height ==>
        pixels[a, b] == if a == ix && y <= b < y + h then LookupColor(old(pixels[a, b]), lut) else old(pixels[a, b])
    {
      var iy := y;
      while iy < y + h
        invariant y <= iy <= y + h
        invariant forall a, b :: 0 <= a < width && 0 <= b < height ==>
          pixels[a, b] == if a == ix && y <= b < iy then LookupColor(old(pixels[a, b]), lut) else old(pixels[a, b])
      {
        pixels[ix, iy] := LookupColor(pixels[ix, iy], lut);
        iy := iy + 1;
      }
    }

    /** `replace_image_color`: every pixel equal to `color` becomes
        `newColor`; the cache is dropped even when the lock fails. */
    method ReplaceColor(color: Color, newColor: Color, lockOk: bool) returns (ok: bool)
      requires Valid()
      modifies this`pixelCache, pixels
      ensures Valid() && pixelCache == None && ok == lockOk
      ensures forall a, b :: 0 <= a < width && 0 <= b < height ==>
        pixels[a, b] == if ok then ReplacedColor(old(pixels[a, b]), color, newColor) else old(pixels[a, b])
    {
      var bitmap := GetBitmap();
      if !lockOk {
        return false;
      }
      Uncache();
      var ix := 0;
      while ix < width
        invariant 0 <= ix <= width && Valid() && pixelCache == None
        invariant forall a, b :: 0 <= a < width && 0 <= b < height ==>
          pixels[a, b] == if a < ix then ReplacedColor(old(pixels[a, b]), color, newColor) else old(pixels[a, b])
      {
        ReplaceInColumn(ix, color, newColor);
        ix := ix + 1;
      }
      ok := true;
    }

    /** The inner loop of `replace_image_color` over one column. */
    method ReplaceInColumn(ix: int, color: Color, newColor: Color)
      requires Valid() && pixelCache == None && 0 <= ix < width
      modifies pixels
      ensures Valid()
      ensures forall a, b :: 0 <= a < width && 0 <= b < height ==>
        pixels[a, b] == if a == ix then ReplacedColor(old(pixels[a, b]), color, newColor) else old(pixels[a, b])
    {
      var iy := 0;
      while iy < height
        invariant 0 <= iy <= height
        invariant forall a, b :: 0 <= a < width && 0 <= b < height ==>
          pixels[a, b] == if a == ix && b < iy then ReplacedColor(old(pixels[a, b]), color, newColor) else old(pixels[a, b])
      {
        var p := pixels[ix, iy];
        if p.r == color.r && p.g == color.g && p.b == color.b && p.alpha == color.alpha {
          pixels[ix, iy] := newColor;
        }
        iy := iy + 1;
      }
    }

    /** `fill_image`: the clipping rectangle is reset before the image
        becomes the target, so the reset applies to the previous target and
        the image's own clipping rectangle, taken to be the whole image,
        bounds the clear. */
    method Fill(color: Color)
      requires Valid()
      modifies this`pixelCache, pixels
      ensures Valid() && pixelCache == None
      ensures forall a, b :: 0 <= a < width && 0 <= b < height ==> pixels[a, b] == color
    {
      Uncache();
      forall a, b | 0 <= a < width && 0 <= b < height {
        pixels[a, b] := color;
      }
    }

    /** `flip_image` as written. With neither flag it returns true and
        touches nothing; otherwise it drops the cache, and when the new
        bitmap is allocated the old one is drawn onto it with
        `DrawFlagsAsWritten`, which is zero, so nothing is flipped. The new
        bitmap starts with undefined contents and the draw blends, so only
        the opaque pixels are certain to come through unchanged; the model
        copies every pixel, and its contract promises only the opaque ones. */
    method Flip(h: bool, v: bool, allocOk: bool) returns (ok: bool)
      requires Valid()
      modifies this`pixels, this`pixelCache
      ensures Valid() && ok == (!(h || v) || allocOk)
      ensures !(h || v) ==> pixels == old(pixels) && pixelCache == old(pixelCache)
      ensures h || v ==> pixelCache == None
      ensures h || v ==> ok == fresh(pixels)
      ensures !ok ==> pixels == old(pixels)
      ensures forall a, b :: 0 <= a < width && 0 <= b < height && old(pixels[a, b]).alpha == 255 ==>
        pixels[a, b] == old(pixels[a, b])
    {
      if !h && !v {
        return true;
      }
      Uncache();
      if !allocOk {
        return false;
      }
      var flags := DrawFlagsAsWritten(h, v);
      DrawFlagsAsWrittenAreZero(h, v);
      var grid := new Color[width, height];
      forall a, b | 0 <= a < width && 0 <= b < height {
        grid[a, b] := pixels[FlipSource(flags, a, b, width, height).0, FlipSource(flags, a, b, width, height).1];
      }
      pixels := grid;
      ok := true;
    }

    /** `rescale_image`. The current size is a no-op that succeeds. Otherwise
        the new bitmap is allocated first; on failure nothing changes, and on
        success the cache is dropped and the image has the new size (the
        scaled contents are left unspecified). */
    method Rescale(w: int, h: int, allocOk: bool) returns (ok: bool)
      requires Valid() && w >= 0 && h >= 0
      modifies this`pixels, this`pixelCache, this`width, this`height
      ensures Valid()
      ensures w == old(width) && h == old(height) ==>
        ok && pixels == old(pixels) && pixelCache == old(pixelCache)
      ensures !(w == old(width) && h == old(height)) ==> ok == allocOk
      ensures !ok ==> pixels == old(pixels) && pixelCache == old(pixelCache) && width == old(width) && height == old(height)
      ensures ok ==> width == w && height == h
      ensures ok && !(w == old(width) && h == old(height)) ==> pixelCache == None && fresh(pixels)
    {
      if w == width && h == height {
        return true;
      }
      if !allocOk {
        return false;
      }
      Uncache();
      var grid := new Color[w, h];
      pixels := grid;
      width, height := w, h;
      ok := true;
    }
  }

  /** Every image on the chain from `img` up is live and holds a reference. */
  ghost predicate LiveChain(img: Image)
    requires img.Chained()
    reads {img} + img.ancestors
    decreases img.depth
  {
    img.live && img.refcount >= 1 && (img.parent != null ==> LiveChain(img.parent))
  }

  /** Every ancestor is itself chained and strictly shallower, so an image
      is never its own ancestor. */
  lemma {:induction false} AncestorsAreAbove(img: Image)
    requires img.Chained()
    ensures forall a :: a in img.ancestors ==> a.Chained() && a.depth < img.depth
    ensures img !in img.ancestors
    decreases img.depth
  {
    if img.parent != null {
      AncestorsAreAbove(img.parent);
    }
  }

  /** `create_image`: a new image with one reference, or null when the
      allocation fails. */
  method CreateImage(w: int, h: int, allocOk: bool) returns (img: Image?)
    requires w >= 0 && h >= 0
    ensures (img != null) == allocOk
    ensures img != null ==>
      fresh(img) && img.Valid() && img.Chained() && img.refcount == 1 && img.live &&
      img.width == w && img.height == h && img.parent == null && img.pixelCache == None
  {
    if !allocOk {
      return null;
    }
    img := new Image.Create(w, h);
  }

  /** `create_subimage`: on success the new image holds one reference on
      its parent; on failure the parent is untouched. */
  method CreateSubimage(p: Image, w: int, h: int, allocOk: bool) returns (img: Image?)
    requires p.Chained() && w >= 0 && h >= 0
    modifies p`refcount
    ensures (img != null) == allocOk
    ensures p.refcount == old(p.refcount) + (if allocOk then 1 else 0)
    ensures img != null ==>
      fresh(img) && img.Valid() && img.Chained() && img.refcount == 1 && img.live &&
      img.width == w && img.height == h && img.parent == p && img.pixelCache == None
  {
    if !allocOk {
      return null;
    }
    img := new Image.Sub(p, w, h);
    p.Ref();
  }

  /** `free_image`: drops one reference; at zero the image is destroyed and
      its parent released once, which may cascade up the chain. */
  method FreeImage(img: Image?)
    requires img != null ==> img.Chained() && LiveChain(img)
    modifies if img == null then {} else {img} + img.ancestors
    ensures img != null ==> img.refcount == old(img.refcount) - 1 && img.live == (img.refcount > 0)
    ensures img != null && img.parent != null ==>
      img.parent.refcount == old(img.parent.refcount) - (if img.refcount > 0 then 0 else 1)
    ensures img != null && img.refcount > 0 ==> forall a :: a in img.ancestors ==> unchanged(a)
    decreases if img == null then 0 else img.depth + 1
  {
    if img == null {
      return;
    }
    AncestorsAreAbove(img);
    img.refcount := img.refcount - 1;
    if img.refcount > 0 {
      return;
    }
    img.live := false;
    FreeImage(img.parent);
  }
}
