/** Integer bounding boxes, their overlap, and the decoding of detector output into boxes. */
module Boxes {

  /** The box covers the pixels x .. x + width - 1, y .. y + height - 1. */
  datatype Box = Box(x: int, y: int, width: int, height: int)

  predicate Proper(b: Box) {
    b.width > 0 && b.height > 0
  }

  function Min(a: int, b: int): int {
    if a <= b then a else b
  }

  function Max(a: int, b: int): int {
    if a >= b then a else b
  }

  function Inter(a: Box, b: Box): int {
    var iw := Max(0, Min(a.x + a.width, b.x + b.width) - Max(a.x, b.x));
    var ih := Max(0, Min(a.y + a.height, b.y + b.height) - Max(a.y, b.y));
    iw * ih
  }

  function Union(a: Box, b: Box): int {
    a.width * a.height + b.width * b.height - Inter(a, b)
  }

  function IoU(a: Box, b: Box): real {
    if Union(a, b) > 0 then Inter(a, b) as real / Union(a, b) as real else 0.0
  }

  // ---------------------------------------------------------------- pixels

  ghost function Pixels(b: Box): set<(int, int)> {
    set x, y | b.x <= x < b.x + b.width && b.y <= y < b.y + b.height :: (x, y)
  }

  ghost function Row(x: int, y: int, width: int): set<(int, int)> {
    set i | x <= i < x + width :: (i, y)
  }

  lemma {:induction false} RowSize(x: int, y: int, width: int)
    ensures |Row(x, y, width)| == Max(0, width)
    decreases Max(0, width)
  {
    if width > 0 {
      RowSize(x, y, width - 1);
      assert Row(x, y, width) == Row(x, y, width - 1) + {(x + width - 1, y)};
    } else {
      assert Row(x, y, width) == {};
    }
  }

  /** The pixels of a box are those of the box one row lower and its last row. */
  lemma LastRow(b: Box)
    requires b.height > 0
    ensures Pixels(b) == Pixels(b.(height := b.height - 1)) + Row(b.x, b.y + b.height - 1, b.width)
    ensures Pixels(b.(height := b.height - 1)) !! Row(b.x, b.y + b.height - 1, b.width)
  {
    var upper, last := Pixels(b.(height := b.height - 1)), Row(b.x, b.y + b.height - 1, b.width);
    forall x, y ensures (x, y) in Pixels(b) <==> (x, y) in upper + last {
    }
    forall p ensures p in Pixels(b) <==> p in upper + last {
      assert (p.0, p.1) == p;
    }
  }

  /** A box has width times height pixels, none if either is not positive. */
  lemma {:induction false} BoxSize(b: Box)
    ensures |Pixels(b)| == Max(0, b.width) * Max(0, b.height)
    decreases Max(0, b.height)
  {
    if b.height > 0 {
      BoxSize(b.(height := b.height - 1));
      LastRow(b);
      RowSize(b.x, b.y + b.height - 1, b.width);
      OneMore(Max(0, b.width), b.height);
    } else {
      assert Pixels(b) == {};
    }
  }

  lemma OneMore(w: int, h: int)
    ensures w * h == w * (h - 1) + w
  {}

  /** The common part of two boxes, as a box that may be empty. */
  function Overlap(a: Box, b: Box): Box {
    var x, y := Max(a.x, b.x), Max(a.y, b.y);
    Box(x, y, Min(a.x + a.width, b.x + b.width) - x, Min(a.y + a.height, b.y + b.height) - y)
  }

  /** `Inter` and `Union` count the pixels of the intersection and of the union. */
  lemma OverlapCountsPixels(a: Box, b: Box)
    requires Proper(a) && Proper(b)
    ensures Inter(a, b) == |Pixels(a) * Pixels(b)|
    ensures Union(a, b) == |Pixels(a) + Pixels(b)|
    ensures Union(a, b) > 0
  {
    CommonPixels(a, b);
    BoxSize(a);
    BoxSize(b);
    assert |Pixels(a) + Pixels(b)| == |Pixels(a)| + |Pixels(b)| - |Pixels(a) * Pixels(b)|;
    assert (a.x, a.y) in Pixels(a) + Pixels(b);
  }

  lemma CommonPixels(a: Box, b: Box)
    ensures Inter(a, b) == |Pixels(a) * Pixels(b)|
  {
    SamePixels(a, b);
    BoxSize(Overlap(a, b));
  }

  lemma SamePixels(a: Box, b: Box)
    ensures Pixels(a) * Pixels(b) == Pixels(Overlap(a, b))
  {
    forall p ensures p in Pixels(a) * Pixels(b) <==> p in Pixels(Overlap(a, b)) {
      assert p == (p.0, p.1);
    }
  }

  lemma SameWhenNested(a: set<(int, int)>, b: set<(int, int)>)
    requires |a * b| == |a + b|
    ensures a == b
  {
    assert a * b <= a + b;
    assert |(a + b) - (a * b)| == |a + b| - |a * b|;
    assert (a + b) - (a * b) == {};
  }

  lemma PixelsDetermineBox(a: Box, b: Box)
    requires Proper(a) && Proper(b) && Pixels(a) == Pixels(b)
    ensures a == b
  {
    assert (a.x, a.y) in Pixels(b) && (b.x, b.y) in Pixels(a);
    assert (a.x + a.width - 1, a.y + a.height - 1) in Pixels(b);
    assert (b.x + b.width - 1, b.y + b.height - 1) in Pixels(a);
  }

  /** The extremes of the overlap ratio, in terms of the counts. */
  lemma CountsAtExtremes(a: Box, b: Box)
    requires Proper(a) && Proper(b)
    ensures 0 <= Inter(a, b) <= Union(a, b) && Union(a, b) > 0
    ensures Inter(a, b) == 0 <==> Pixels(a) !! Pixels(b)
    ensures Inter(a, b) == Union(a, b) <==> a == b
  {
    OverlapCountsPixels(a, b);
    Smaller(Pixels(a) * Pixels(b), Pixels(a) + Pixels(b));
    if Inter(a, b) == Union(a, b) {
      SameWhenNested(Pixels(a), Pixels(b));
      PixelsDetermineBox(a, b);
    }
    if a == b {
      assert Pixels(a) * Pixels(a) == Pixels(a) + Pixels(a);
    }
  }

  /** On boxes of positive size the overlap ratio is the ratio of the pixel counts of intersection
      and union; it is symmetric, lies between 0 and 1, is 0 exactly for boxes without a common
      pixel and 1 exactly for equal boxes. */
  lemma IoUIsARatioOfPixels(a: Box, b: Box)
    requires Proper(a) && Proper(b)
    ensures IoU(a, b) == IoU(b, a)
    ensures 0.0 <= IoU(a, b) <= 1.0
    ensures |Pixels(a) + Pixels(b)| > 0
    ensures IoU(a, b) == |Pixels(a) * Pixels(b)| as real / |Pixels(a) + Pixels(b)| as real
    ensures IoU(a, b) == 0.0 <==> Pixels(a) !! Pixels(b)
    ensures IoU(a, b) == 1.0 <==> a == b
  {
    Symmetric(a, b);
    OverlapCountsPixels(a, b);
    CountsAtExtremes(a, b);
    RatioOfCounts(a, b, |Pixels(a) * Pixels(b)|, |Pixels(a) + Pixels(b)|);
  }

  /** The two boxes have at least this share of all their pixels in common. */
  ghost predicate ShareAtLeast(a: Box, b: Box, share: real) {
    |Pixels(a) * Pixels(b)| as real >= share * |Pixels(a) + Pixels(b)| as real
  }

  lemma IoUIsShare(a: Box, b: Box, share: real)
    requires Proper(a) && Proper(b)
    ensures IoU(a, b) < share <==> !ShareAtLeast(a, b, share)
  {
    IoUIsARatioOfPixels(a, b);
    RatioReaches(IoU(a, b), |Pixels(a) * Pixels(b)| as real, |Pixels(a) + Pixels(b)| as real, share);
  }

  lemma RatioReaches(q: real, i: real, u: real, share: real)
    requires u > 0.0 && q == i / u
    ensures q < share <==> i < share * u
  {
    assert q * u == i;
    if q < share {
      Scaled(q, share, u);
    } else {
      Stretch(u, share, q);
    }
  }

  lemma Symmetric(a: Box, b: Box)
    ensures IoU(a, b) == IoU(b, a)
  {
    assert Inter(a, b) == Inter(b, a) && Union(a, b) == Union(b, a);
  }

  lemma RatioOfCounts(a: Box, b: Box, inter: int, union: int)
    requires inter == Inter(a, b) && union == Union(a, b) && 0 <= inter <= union && union > 0
    ensures 0.0 <= IoU(a, b) <= 1.0
    ensures IoU(a, b) == inter as real / union as real
    ensures IoU(a, b) == 0.0 <==> inter == 0
    ensures IoU(a, b) == 1.0 <==> inter == union
  {
    Quotient(inter, union);
  }

  lemma Smaller(a: set<(int, int)>, b: set<(int, int)>)
    requires a <= b
    ensures |a| <= |b|
  {
    assert |b - a| == |b| - |a|;
  }

  lemma Quotient(i: int, u: int)
    requires 0 <= i <= u && u > 0
    ensures 0.0 <= i as real / u as real <= 1.0
    ensures i as real / u as real == 0.0 <==> i == 0
    ensures i as real / u as real == 1.0 <==> i == u
    ensures (i as real / u as real) * u as real == i as real
  {
    var q := i as real / u as real;
    assert q * u as real == i as real;
  }

  // ---------------------------------------------------------------- decoding

  /** Python's int() on a float: the fraction is dropped. */
  function Truncate(r: real): int {
    if r >= 0.0 then r.Floor else -((-r).Floor)
  }

  /** A detector row that passed the confidence and size filters: centre and size in the pixels of
      the letterboxed input. */
  datatype Anchor = Anchor(cx: real, cy: real, bw: real, bh: real, name: string, confidence: real)

  function Decode(a: Anchor, width: int, height: int, ratio: real): Box
    requires ratio > 0.0
  {
    var x := Max(0, Min(Truncate(a.cx / ratio - (a.bw / 2.0) / ratio), width - 1));
    var y := Max(0, Min(Truncate(a.cy / ratio - (a.bh / 2.0) / ratio), height - 1));
    var w := Max(1, Min(Truncate(a.bw / ratio), width - x));
    var h := Max(1, Min(Truncate(a.bh / ratio), height - y));
    Box(x, y, w, h)
  }

  predicate Inside(b: Box, width: int, height: int) {
    0 <= b.x && b.x + b.width <= width && 0 <= b.y && b.y + b.height <= height
  }

  /** Whatever the detector emits, the decoded box has positive area and lies in the image, so its
      pixels are pixels of the image. */
  lemma DecodedInside(a: Anchor, width: int, height: int, ratio: real)
    requires ratio > 0.0 && width >= 1 && height >= 1
    ensures Proper(Decode(a, width, height, ratio)) && Inside(Decode(a, width, height, ratio), width, height)
    ensures Pixels(Decode(a, width, height, ratio)) <= Pixels(Box(0, 0, width, height))
  {}

  /** A clamped coordinate in terms of the input's pixels: `edge` is the box's edge there, `size` the side of the
      image. An edge within the image is off by less than one pixel of the image, one outside is moved to the
      first or the last pixel. */
  predicate Placed(c: int, edge: real, size: int, ratio: real) {
    if edge < 0.0 then c == 0
    else if edge >= size as real * ratio then c == size - 1
    else c as real * ratio <= edge < (c as real + 1.0) * ratio
  }

  /** A side likewise: `most` is the room left in the image. */
  predicate Sized(c: int, side: real, most: int, ratio: real) {
    if side < ratio then c == 1
    else if side >= most as real * ratio then c == most
    else c as real * ratio <= side < (c as real + 1.0) * ratio
  }

  lemma Divided(edge: real, ratio: real, q: real, n: int)
    requires ratio > 0.0 && q == edge / ratio
    ensures n as real <= q <==> n as real * ratio <= edge
    ensures q < n as real <==> edge < n as real * ratio
  {
    assert q * ratio == edge;
    if q < n as real {
      Scaled(q, n as real, ratio);
    } else if q > n as real {
      Scaled(n as real, q, ratio);
    }
  }

  lemma PlacedBy(edge: real, size: int, ratio: real)
    requires ratio > 0.0 && size >= 1
    ensures Placed(Max(0, Min(Truncate(edge / ratio), size - 1)), edge, size, ratio)
  {
    var q := edge / ratio;
    var c := Max(0, Min(Truncate(q), size - 1));
    Divided(edge, ratio, q, 0);
    Divided(edge, ratio, q, size);
    Divided(edge, ratio, q, c);
    Divided(edge, ratio, q, c + 1);
    assert (c + 1) as real == c as real + 1.0;
  }

  lemma SizedBy(side: real, most: int, ratio: real)
    requires ratio > 0.0 && most >= 1
    ensures Sized(Max(1, Min(Truncate(side / ratio), most)), side, most, ratio)
  {
    var q := side / ratio;
    var c := Max(1, Min(Truncate(q), most));
    Divided(side, ratio, q, 1);
    Divided(side, ratio, q, most);
    Divided(side, ratio, q, c);
    Divided(side, ratio, q, c + 1);
    assert (c + 1) as real == c as real + 1.0;
  }

  lemma EdgeDivided(c: real, side: real, ratio: real)
    requires ratio > 0.0
    ensures c / ratio - (side / 2.0) / ratio == (c - side / 2.0) / ratio
  {
    var p, q := c / ratio, (side / 2.0) / ratio;
    assert p * ratio == c && q * ratio == side / 2.0;
    assert (p - q) * ratio == c - side / 2.0;
  }

  /** Where a decoded box lies: its left and upper edge are those of the anchor, divided by the ratio and rounded
      down to a pixel of the image, and so are its sides, with at least one pixel and at most what is left. */
  lemma DecodedWhere(a: Anchor, width: int, height: int, ratio: real)
    requires ratio > 0.0 && width >= 1 && height >= 1
    ensures var b := Decode(a, width, height, ratio);
            && Placed(b.x, a.cx - a.bw / 2.0, width, ratio) && Placed(b.y, a.cy - a.bh / 2.0, height, ratio)
            && Sized(b.width, a.bw, width - b.x, ratio) && Sized(b.height, a.bh, height - b.y, ratio)
  {
    var b := Decode(a, width, height, ratio);
    EdgeDivided(a.cx, a.bw, ratio);
    EdgeDivided(a.cy, a.bh, ratio);
    PlacedBy(a.cx - a.bw / 2.0, width, ratio);
    PlacedBy(a.cy - a.bh / 2.0, height, ratio);
    SizedBy(a.bw, width - b.x, ratio);
    SizedBy(a.bh, height - b.y, ratio);
  }

  lemma Beyond(c: int, d: int, edge: real, ratio: real)
    requires ratio > 0.0 && d < c && edge < (d as real + 1.0) * ratio
    ensures edge < c as real * ratio
  {
    Stretch(ratio, d as real + 1.0, c as real);
  }

  /** There is only one such place and one such side. */
  lemma PlacedOnce(c: int, d: int, edge: real, size: int, ratio: real)
    requires ratio > 0.0
    ensures Placed(c, edge, size, ratio) && Placed(d, edge, size, ratio) ==> c == d
    ensures Sized(c, edge, size, ratio) && Sized(d, edge, size, ratio) ==> c == d
  {
    if c < d && edge < (c as real + 1.0) * ratio {
      Beyond(d, c, edge, ratio);
    } else if d < c && edge < (d as real + 1.0) * ratio {
      Beyond(c, d, edge, ratio);
    }
  }

  /** Where a box lies in the input if its coordinates are multiplied by the ratio. */
  function Stretched(b: Box, ratio: real, name: string, confidence: real): Anchor {
    var w, h := b.width as real, b.height as real;
    Anchor((b.x as real + w / 2.0) * ratio, (b.y as real + h / 2.0) * ratio, w * ratio, h * ratio, name, confidence)
  }

  lemma Unstretched(p: real, w: real, ratio: real)
    requires ratio > 0.0
    ensures (p * ratio) / ratio == p && ((w * ratio) / 2.0) / ratio == w / 2.0
  {
    var q, h := (p * ratio) / ratio, ((w * ratio) / 2.0) / ratio;
    assert q * ratio == p * ratio && h * ratio == (w / 2.0) * ratio;
  }

  lemma StretchedSide(c: real, side: real, p: int, w: int, ratio: real)
    requires ratio > 0.0 && c == (p as real + w as real / 2.0) * ratio && side == w as real * ratio
    ensures c / ratio - (side / 2.0) / ratio == p as real && side / ratio == w as real
  {
    Unstretched(p as real + w as real / 2.0, w as real, ratio);
    Unstretched(w as real, w as real, ratio);
  }

  lemma QuotientsDecode(a: Anchor, b: Box, width: int, height: int, ratio: real)
    requires ratio > 0.0 && Proper(b) && Inside(b, width, height)
    requires a.cx / ratio - (a.bw / 2.0) / ratio == b.x as real && a.bw / ratio == b.width as real
    requires a.cy / ratio - (a.bh / 2.0) / ratio == b.y as real && a.bh / ratio == b.height as real
    ensures Decode(a, width, height, ratio) == b
  {}

  /** A box of the image, stretched by the ratio, decodes to itself. */
  lemma StretchedBoxDecodes(b: Box, width: int, height: int, ratio: real, name: string, confidence: real)
    requires ratio > 0.0 && Proper(b) && Inside(b, width, height)
    ensures Decode(Stretched(b, ratio, name, confidence), width, height, ratio) == b
  {
    var a := Stretched(b, ratio, name, confidence);
    StretchedSide(a.cx, a.bw, b.x, b.width, ratio);
    StretchedSide(a.cy, a.bh, b.y, b.height, ratio);
    QuotientsDecode(a, b, width, height, ratio);
  }

  // ---------------------------------------------------------------- letterboxing

  /** By how much a width x height image is shrunk to fit a tw x th input. */
  function Ratio(width: int, height: int, tw: int, th: int): (r: real)
    requires width >= 1 && height >= 1 && tw >= 1 && th >= 1
    ensures r > 0.0
  {
    var rh, rw := height as real / th as real, width as real / tw as real;
    if rh >= rw then rh else rw
  }

  /** The shrunken image fits the input and fills it in one direction. */
  lemma RatioFits(width: int, height: int, tw: int, th: int)
    requires width >= 1 && height >= 1 && tw >= 1 && th >= 1
    ensures var r := Ratio(width, height, tw, th);
            && width as real <= tw as real * r && height as real <= th as real * r
            && (width as real == tw as real * r || height as real == th as real * r)
  {
    var rh, rw := height as real / th as real, width as real / tw as real;
    assert rh * th as real == height as real && rw * tw as real == width as real;
    Stretch(th as real, rh, Ratio(width, height, tw, th));
    Stretch(tw as real, rw, Ratio(width, height, tw, th));
  }

  /** Where a box of the image ends up in the input. */
  function Letterboxed(b: Box, ratio: real): Anchor
    requires ratio > 0.0
  {
    Anchor((b.x as real + b.width as real / 2.0) / ratio, (b.y as real + b.height as real / 2.0) / ratio,
           b.width as real / ratio, b.height as real / ratio, "", 1.0)
  }

  function RoundTrip(b: Box, width: int, height: int, ratio: real): Box
    requires ratio > 0.0
  {
    Decode(Letterboxed(b, ratio), width, height, ratio)
  }

  ghost predicate AllComeBack(width: int, height: int, ratio: real)
    requires ratio > 0.0
  {
    forall b | Proper(b) && Inside(b, width, height) :: RoundTrip(b, width, height, ratio) == b
  }

  /** A box in the corner stays in the corner. */
  lemma CornerStays(size: real, ratio: real)
    requires ratio > 0.0
    ensures ((0.0 + size / 2.0) / ratio) / ratio - ((size / ratio) / 2.0) / ratio == 0.0
  {
    var q := size / ratio;
    assert q * ratio == size;
    var h := (0.0 + size / 2.0) / ratio;
    assert h * ratio == size / 2.0;
    assert (h - q / 2.0) * ratio == 0.0;
    assert h == q / 2.0;
  }

  // Real arithmetic the solver does not do unaided.

  lemma Scaled(a: real, b: real, c: real)
    requires a < b && c > 0.0
    ensures a * c < b * c
  {}

  lemma Stretch(q: real, a: real, b: real)
    requires q >= 0.0 && a <= b
    ensures q * a <= q * b
  {}

  lemma Cancel(a: real, b: real, c: real)
    requires c > 0.0 && a * c <= b * c
    ensures a <= b
  {}

  lemma Cubic(d: real)
    requires d >= 2.0
    ensures d * (d * d) <= (d - 1.0) * ((d + 1.0) * (d + 1.0))
  {
    assert d * d >= 2.0 * d;
    assert (d - 1.0) * ((d + 1.0) * (d + 1.0)) == d * (d * d) + d * d - d - 1.0;
  }

  lemma Shrunk(d: real, ratio: real)
    requires d > 0.0 && ratio > 1.0
    ensures 0.0 < d / ratio < d
  {
    var q := d / ratio;
    assert q * ratio == d;
    Cancel(0.0, q, ratio);
    assert q > 0.0;
    Scaled(1.0, ratio, q);
  }

  /** Dividing twice by a ratio above 1 makes a side shorter. */
  lemma ShrunkTwice(side: int, ratio: real)
    requires side >= 2 && ratio > 1.0
    ensures Max(1, Min(Truncate((side as real / ratio) / ratio), side)) < side
  {
    Shrunk(side as real, ratio);
    Shrunk(side as real / ratio, ratio);
  }

  /** Dividing twice by a ratio below 1 stretches all but the whole side to the whole side. */
  lemma StretchedTwice(d: real, ratio: real)
    requires d >= 2.0 && 0.0 < ratio && ratio * (d + 1.0) <= d
    ensures ((d - 1.0) / ratio) / ratio >= d
  {
    var q := (d - 1.0) / ratio;
    var p := q / ratio;
    var k, t, n := ratio * ratio, ratio * (d + 1.0), (d + 1.0) * (d + 1.0);
    assert p * k == (p * ratio) * ratio == d - 1.0;
    Stretch(t, t, d);
    Stretch(d, t, d);
    assert t * t == k * n;
    Stretch(d, t * t, d * d);
    Cubic(d);
    assert (d * k) * n == d * (k * n);
    Cancel(d * k, d - 1.0, n);
    Cancel(d, p, k);
  }

  /** A side that is shorter than the input's falls short by at least the largest side's share. */
  lemma BelowOne(q: real, size: real, t: real, side: real)
    requires 1.0 <= size <= side && size + 1.0 <= t && q * t == size
    ensures q * (side + 1.0) <= side
  {
    Cancel(0.0, q, t);
    Stretch(q, size + 1.0, t);
    Cancel(q, 1.0, size + 1.0);
    Stretch(side - size, q, 1.0);
    assert q * (side + 1.0) == q * (size + 1.0) + (side - size) * q;
  }

  lemma ShorterSide(size: int, t: int)
    requires size >= 1 && t >= 1 && size as real / t as real < 1.0
    ensures size + 1 <= t && (size as real / t as real) * t as real == size as real
  {
    Scaled(size as real / t as real, 1.0, t as real);
  }

  lemma UnitRatio(width: int, height: int)
    ensures AllComeBack(width, height, 1.0)
  {
    forall b | Proper(b) && Inside(b, width, height) ensures RoundTrip(b, width, height, 1.0) == b {
      assert b.x as real + b.width as real / 2.0 - b.width as real / 2.0 == b.x as real;
    }
  }

  lemma RatioBelowOne(width: int, height: int, tw: int, th: int)
    requires width >= 1 && height >= 1 && tw >= 1 && th >= 1 && Ratio(width, height, tw, th) < 1.0
    ensures Ratio(width, height, tw, th) * (Max(width, height) as real + 1.0) <= Max(width, height) as real
  {
    var side := Max(width, height) as real;
    ShorterSide(width, tw);
    ShorterSide(height, th);
    BelowOne(width as real / tw as real, width as real, tw as real, side);
    BelowOne(height as real / th as real, height as real, th as real, side);
  }

  /** Decoding makes a side one short of the whole the whole. */
  lemma AlmostWholeSide(side: int, ratio: real)
    requires side >= 2 && ratio > 0.0 && ratio * (side as real + 1.0) <= side as real
    ensures Truncate(((side - 1) as real / ratio) / ratio) >= side
  {
    assert (side - 1) as real == side as real - 1.0;
    StretchedTwice(side as real, ratio);
  }

  lemma RoundTripAtCorner(w: int, h: int, width: int, height: int, ratio: real)
    requires ratio > 0.0 && width >= 1 && height >= 1
    ensures RoundTrip(Box(0, 0, w, h), width, height, ratio)
            == Box(0, 0, Max(1, Min(Truncate((w as real / ratio) / ratio), width)),
                   Max(1, Min(Truncate((h as real / ratio) / ratio), height)))
  {
    CornerStays(w as real, ratio);
    CornerStays(h as real, ratio);
  }

  lemma SmallImageFails(width: int, height: int, ratio: real)
    requires width >= 1 && height >= 1 && Max(width, height) >= 2 && ratio > 0.0
    requires ratio * (Max(width, height) as real + 1.0) <= Max(width, height) as real
    ensures !AllComeBack(width, height, ratio)
  {
    AlmostWholeSide(Max(width, height), ratio);
    if width >= height {
      RoundTripAtCorner(width - 1, height, width, height, ratio);
      NotAllComeBack(Box(0, 0, width - 1, height), width, height, ratio);
    } else {
      RoundTripAtCorner(width, height - 1, width, height, ratio);
      NotAllComeBack(Box(0, 0, width, height - 1), width, height, ratio);
    }
  }

  lemma NotAllComeBack(b: Box, width: int, height: int, ratio: real)
    requires ratio > 0.0 && Proper(b) && Inside(b, width, height) && RoundTrip(b, width, height, ratio) != b
    ensures !AllComeBack(width, height, ratio)
  {}

  lemma LargeImageFails(width: int, height: int, ratio: real)
    requires width >= 1 && height >= 1 && Max(width, height) >= 2 && ratio > 1.0
    ensures !AllComeBack(width, height, ratio)
  {
    RoundTripAtCorner(width, height, width, height, ratio);
    ShrunkTwice(Max(width, height), ratio);
    NotAllComeBack(Box(0, 0, width, height), width, height, ratio);
  }

  lemma SinglePixel(ratio: real)
    requires ratio > 0.0
    ensures AllComeBack(1, 1, ratio)
  {
    forall b | Proper(b) && Inside(b, 1, 1) ensures RoundTrip(b, 1, 1, ratio) == b {
      assert b == Box(0, 0, 1, 1);
    }
  }

  /** Decoding divides by the very ratio letterboxing has divided by, so it gives the boxes of an
      image back exactly when the image fits the input as it is (or has a single pixel). */
  lemma DecodeUndoesLetterboxExactlyWhen(width: int, height: int, tw: int, th: int)
    requires width >= 1 && height >= 1 && tw >= 1 && th >= 1
    ensures AllComeBack(width, height, Ratio(width, height, tw, th))
            <==> Ratio(width, height, tw, th) == 1.0 || (width == 1 && height == 1)
  {
    var ratio := Ratio(width, height, tw, th);
    if ratio == 1.0 {
      UnitRatio(width, height);
    } else if width == 1 && height == 1 {
      SinglePixel(ratio);
    } else if ratio > 1.0 {
      LargeImageFails(width, height, ratio);
    } else {
      RatioBelowOne(width, height, tw, th);
      SmallImageFails(width, height, ratio);
    }
  }
}
