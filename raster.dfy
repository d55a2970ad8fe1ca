/**
 * Flattened storage of an image, as `image.reshape(-1)` exposes it in
 * runx/draw.py: a CHW image keeps pixel (c, y, x) at c*H*W + y*W + x, an HWC
 * image at (y*W + x)*C + c. The lemmas show that these positions fill
 * [0, C*H*W) exactly once, and name the pixel behind each position.
 */
module Raster {
  import opened Wrappers
  import opened Shapes

  /** The two memory layouts `draw.py` accepts. */
  datatype Layout = CHW | HWC

  /** `"CHW"` and `"HWC"`; any other format string is refused. */
  function ParseFormat(format: string): (r: Option<Layout>)
    ensures r == Some(CHW) <==> format == "CHW"
    ensures r == Some(HWC) <==> format == "HWC"
  {
    if format == "CHW" then Some(CHW) else if format == "HWC" then Some(HWC) else None
  }

  /** An image's layout and its channel, height and width sizes. */
  datatype Geometry = Geometry(layout: Layout, channels: nat, height: nat, width: nat)

  /** The geometry of a three-dimensional image of size `shape` under `layout`. */
  function GeometryOf(layout: Layout, shape: seq<nat>): (g: Geometry)
    requires |shape| == 3
    ensures g.layout == layout
    ensures layout == CHW ==> g.channels == shape[0] && g.height == shape[1] && g.width == shape[2]
    ensures layout == HWC ==> g.height == shape[0] && g.width == shape[1] && g.channels == shape[2]
  {
    match layout
    case CHW => Geometry(CHW, shape[0], shape[1], shape[2])
    case HWC => Geometry(HWC, shape[2], shape[0], shape[1])
  }

  /** The number of elements of the image. */
  function Size(g: Geometry): nat
  {
    g.channels * (g.height * g.width)
  }

  /** Either layout of a three-dimensional image covers all of its elements. */
  lemma SizeOf(layout: Layout, shape: seq<nat>)
    requires |shape| == 3
    ensures Size(GeometryOf(layout, shape)) == Numel(shape)
  {
    Numel3(shape);
    if layout == HWC {
      assert shape[2] * (shape[0] * shape[1]) == shape[0] * (shape[1] * shape[2]);
    }
  }

  /** Every dimension is at least one. */
  predicate NonEmpty(g: Geometry)
  {
    g.channels > 0 && g.height > 0 && g.width > 0
  }

  /** (c, y, x) names a pixel channel of the image. */
  predicate InPlane(g: Geometry, c: int, y: int, x: int)
  {
    0 <= c < g.channels && 0 <= y < g.height && 0 <= x < g.width
  }

  /** The flat position of channel `c` of pixel (y, x). */
  function Idx(g: Geometry, c: int, y: int, x: int): int
  {
    match g.layout
    case CHW => c * (g.height * g.width) + (y * g.width + x)
    case HWC => (y * g.width + x) * g.channels + c
  }

  /** The channel stored at flat position `r`. */
  function Channel(g: Geometry, r: int): int
    requires NonEmpty(g)
  {
    match g.layout
    case CHW => r / (g.height * g.width)
    case HWC => r % g.channels
  }

  /** The row of the pixel stored at flat position `r`. */
  function Row(g: Geometry, r: int): int
    requires NonEmpty(g)
  {
    match g.layout
    case CHW => (r % (g.height * g.width)) / g.width
    case HWC => (r / g.channels) / g.width
  }

  /** The column of the pixel stored at flat position `r`. */
  function Col(g: Geometry, r: int): int
    requires NonEmpty(g)
  {
    match g.layout
    case CHW => (r % (g.height * g.width)) % g.width
    case HWC => (r / g.channels) % g.width
  }

  lemma MulNonNegative(a: int, b: int)
    requires 0 <= a && 0 <= b
    ensures 0 <= a * b
  {
  }

  /** Multiplying by a positive number keeps the order. */
  lemma MulOrder(a: int, b: int, d: int)
    requires d > 0
    ensures a < b <==> a * d < b * d
  {
    assert b * d - a * d == (b - a) * d;
    if a < b {
      MulNonNegative(b - a - 1, d);
      assert (b - a) * d == (b - a - 1) * d + d;
    } else {
      MulNonNegative(a - b, d);
    }
  }

  /** A multiple of d strictly between -d and d is zero. */
  lemma SmallMultiple(k: int, d: int)
    requires d > 0 && -d < k * d < d
    ensures k == 0
  {
    MulOrder(k, 1, d);
    MulOrder(-1, k, d);
  }

  /** Quotient and remainder of q*d + r by d, for a digit 0 <= r < d. */
  lemma MixedRadix(q: int, r: int, d: int)
    requires d > 0 && 0 <= r < d
    ensures (q * d + r) / d == q && (q * d + r) % d == r
  {
    var n := q * d + r;
    var q', r' := n / d, n % d;
    assert n == q' * d + r';
    assert (q - q') * d == r' - r;
    SmallMultiple(q - q', d);
  }

  /** Mixed-radix digits a < A and b < B give a number below A*B. */
  lemma MixedBound(a: int, b: int, A: int, B: int)
    requires 0 <= a < A && 0 <= b < B
    ensures 0 <= a * B + b < A * B
  {
    MulNonNegative(a, B);
    MulNonNegative(A - a - 1, B);
    assert A * B == a * B + B + (A - a - 1) * B;
  }

  /** The leading digit of a number below A*B is below A. */
  lemma LeadingDigit(n: int, A: int, B: int)
    requires 0 <= n < A * B && B > 0
    ensures 0 <= n / B < A
  {
    var q := n / B;
    assert n == q * B + n % B;
    MulOrder(q, A, B);
    MulOrder(-1, q, B);
  }

  /** Every pixel channel has a flat position inside the image. */
  lemma IdxInRange(g: Geometry, c: int, y: int, x: int)
    requires InPlane(g, c, y, x)
    ensures 0 <= Idx(g, c, y, x) < Size(g)
  {
    var H, W, C := g.height, g.width, g.channels;
    MixedBound(y, x, H, W);
    match g.layout
    case CHW =>
      MixedBound(c, y * W + x, C, H * W);
    case HWC =>
      MixedBound(y * W + x, c, H * W, C);
      assert (H * W) * C == Size(g);
  }

  /** Reading a flat position back names the pixel channel stored there. */
  lemma DecodeIdx(g: Geometry, c: int, y: int, x: int)
    requires InPlane(g, c, y, x)
    ensures NonEmpty(g)
    ensures Channel(g, Idx(g, c, y, x)) == c && Row(g, Idx(g, c, y, x)) == y && Col(g, Idx(g, c, y, x)) == x
  {
    var H, W, C := g.height, g.width, g.channels;
    MixedBound(y, x, H, W);
    MixedRadix(y, x, W);
    match g.layout
    case CHW =>
      MixedRadix(c, y * W + x, H * W);
    case HWC =>
      MixedRadix(y * W + x, c, C);
  }

  /** Every flat position inside a CHW image holds one pixel channel. */
  lemma IdxDecodeChw(g: Geometry, r: int)
    requires g.layout == CHW && NonEmpty(g) && 0 <= r < Size(g)
    ensures InPlane(g, Channel(g, r), Row(g, r), Col(g, r))
    ensures Idx(g, Channel(g, r), Row(g, r), Col(g, r)) == r
  {
    var H, W, C := g.height, g.width, g.channels;
    MulNonNegative(H, W);
    LeadingDigit(r, C, H * W);
    var rem := r % (H * W);
    LeadingDigit(rem, H, W);
    assert rem == (rem / W) * W + rem % W;
    assert r == (r / (H * W)) * (H * W) + rem;
  }

  /** Every flat position inside an HWC image holds one pixel channel. */
  lemma IdxDecodeHwc(g: Geometry, r: int)
    requires g.layout == HWC && NonEmpty(g) && 0 <= r < Size(g)
    ensures InPlane(g, Channel(g, r), Row(g, r), Col(g, r))
    ensures Idx(g, Channel(g, r), Row(g, r), Col(g, r)) == r
  {
    var H, W, C := g.height, g.width, g.channels;
    MulNonNegative(H, W);
    assert Size(g) == (H * W) * C;
    LeadingDigit(r, H * W, C);
    var p := r / C;
    LeadingDigit(p, H, W);
    assert p == (p / W) * W + p % W;
    assert r == p * C + r % C;
  }

  /** Every flat position inside the image holds one pixel channel. */
  lemma IdxDecode(g: Geometry, r: int)
    requires NonEmpty(g) && 0 <= r < Size(g)
    ensures InPlane(g, Channel(g, r), Row(g, r), Col(g, r))
    ensures Idx(g, Channel(g, r), Row(g, r), Col(g, r)) == r
  {
    if g.layout == CHW {
      IdxDecodeChw(g, r);
    } else {
      IdxDecodeHwc(g, r);
    }
  }

  /** Two pixel channels share a flat position only when they are the same. */
  lemma IdxInjective(g: Geometry, c: int, y: int, x: int, c': int, y': int, x': int)
    requires InPlane(g, c, y, x) && InPlane(g, c', y', x')
    requires Idx(g, c, y, x) == Idx(g, c', y', x')
    ensures c == c' && y == y' && x == x'
  {
    DecodeIdx(g, c, y, x);
    DecodeIdx(g, c', y', x');
  }
}
