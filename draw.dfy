/**
 * runx/draw.py: boxes and points drawn in place into an image or a batch of
 * images. The image is the flat array `image.reshape(-1)` exposes; a batch
 * item k of size S occupies positions [k*S, (k+1)*S).
 */
module Draw {
  import opened Wrappers
  import opened Shapes
  import opened Raster

  /** The colour `(r, g, b)`, one value per channel. */
  datatype Color = Color(r: int, g: int, b: int)

  /** The value the colour gives channel `c` (0, 1 or 2). */
  function ColorAt(color: Color, c: int): int
  {
    if c == 0 then color.r else if c == 1 then color.g else color.b
  }

  /** A box `(x0, y0, x1, y1)` in integer pixel coordinates. */
  datatype Box = Box(x0: int, y0: int, x1: int, y1: int)

  /** A point `(x, y)` in integer pixel coordinates. */
  datatype Point = Point(x: int, y: int)

  /**
   * The exceptions: the two messages `draw.py` raises, the shape error torch
   * raises when the colour cannot be broadcast onto a box line, and the index
   * error of a line index clamped to -1 on an empty image side.
   */
  datatype DrawError = InvalidDataFormat | InvalidImageDataFormat | ShapeMismatch | IndexOutOfRange

  /** An argument that is one item for a single image or one item per batch entry. */
  datatype Batched<T> = Unbatched(x: T) | Batched(xs: seq<T>)

  /** What drawing into one image does, once the flags and the format have been looked at. */
  datatype Plan<T> = Plan(g: Geometry, items: seq<T>)

  function Min(a: int, b: int): int { if a <= b then a else b }

  function Max(a: int, b: int): int { if a <= b then b else a }

  /** `torch.clamp(v, lo, hi)`: min(max(v, lo), hi), which is `hi` when lo > hi. */
  function Clamp(v: int, lo: int, hi: int): (r: int)
    ensures lo <= hi ==> lo <= r <= hi
    ensures lo <= v <= hi ==> r == v
    ensures hi < lo ==> r == hi
  {
    Min(Max(v, lo), hi)
  }

  /** `items[flags]`: the items whose flag is set, in order. */
  function Selected<T>(items: seq<T>, flags: seq<bool>): (r: seq<T>)
    requires |flags| == |items|
    ensures |r| <= |items|
    decreases |items|
  {
    if items == [] then []
    else (if flags[0] then [items[0]] else []) + Selected(items[1..], flags[1..])
  }

  /** The selection holds exactly the flagged items. */
  lemma {:induction false} SelectedMembers<T>(items: seq<T>, flags: seq<bool>, v: T)
    requires |flags| == |items|
    ensures v in Selected(items, flags) <==> exists i :: 0 <= i < |items| && flags[i] && items[i] == v
    decreases |items|
  {
    if items != [] {
      SelectedMembers(items[1..], flags[1..], v);
      assert forall i :: 0 < i < |items| ==> items[1..][i - 1] == items[i] && flags[1..][i - 1] == flags[i];
      if v in Selected(items[1..], flags[1..]) {
        var i :| 0 <= i < |items[1..]| && flags[1..][i] && items[1..][i] == v;
        assert flags[i + 1] && items[i + 1] == v;
      }
    }
  }

  /** Some item is selected exactly when some flag is set (`valid_flags.any()`). */
  lemma {:induction false} SelectedEmpty<T>(items: seq<T>, flags: seq<bool>)
    requires |flags| == |items|
    ensures Selected(items, flags) == [] <==> true !in flags
    decreases |items|
  {
    if items != [] {
      SelectedEmpty(items[1..], flags[1..]);
      assert flags == [flags[0]] + flags[1..];
    }
  }

  /** The boxes `single_draw_box` goes on with: all of them, or the flagged ones. */
  function Chosen<T>(items: seq<T>, flags: Option<seq<bool>>): seq<T>
    requires flags.Some? ==> |flags.value| == |items|
  {
    if flags.Some? then Selected(items, flags.value) else items
  }

  // ---------------------------------------------------------------------------
  // Boxes
  // ---------------------------------------------------------------------------

  /** Lines 18-21: each coordinate clamped to [0, width-1] or [0, height-1]. */
  function ClampBox(b: Box, width: int, height: int): (r: Box)
    ensures width >= 1 ==> 0 <= r.x0 < width && 0 <= r.x1 < width
    ensures height >= 1 ==> 0 <= r.y0 < height && 0 <= r.y1 < height
    ensures 0 <= b.x0 < width && 0 <= b.x1 < width && 0 <= b.y0 < height && 0 <= b.y1 < height ==> r == b
  {
    Box(Clamp(b.x0, 0, width - 1), Clamp(b.y0, 0, height - 1), Clamp(b.x1, 0, width - 1), Clamp(b.y1, 0, height - 1))
  }

  function ClampBoxes(bs: seq<Box>, width: int, height: int): (r: seq<Box>)
    ensures |r| == |bs| && forall i :: 0 <= i < |bs| ==> r[i] == ClampBox(bs[i], width, height)
  {
    seq(|bs|, i requires 0 <= i < |bs| => ClampBox(bs[i], width, height))
  }

  /** Clamping twice is clamping once. */
  lemma ClampBoxIdempotent(b: Box, width: int, height: int)
    requires width >= 1 && height >= 1
    ensures ClampBox(ClampBox(b, width, height), width, height) == ClampBox(b, width, height)
  {
  }

  /** Every corner of the box is a pixel of the image. */
  predicate Inside(b: Box, g: Geometry)
  {
    0 <= b.x0 < g.width && 0 <= b.x1 < g.width && 0 <= b.y0 < g.height && 0 <= b.y1 < g.height
  }

  /**
   * The pixels a box colours (lines 27-30): rows y0 and y1 over columns
   * x0..x1-1, and columns x0 and x1 over rows y0..y1-1.
   */
  predicate OnBox(b: Box, y: int, x: int)
  {
    || ((y == b.y0 || y == b.y1) && b.x0 <= x < b.x1)
    || ((x == b.x0 || x == b.x1) && b.y0 <= y < b.y1)
  }

  predicate OnSomeBox(bs: seq<Box>, y: int, x: int)
  {
    exists i :: 0 <= i < |bs| && OnBox(bs[i], y, x)
  }

  /** Flat position `j` belongs to the image stored from `base`. */
  predicate InItem(g: Geometry, base: int, j: int)
  {
    NonEmpty(g) && base <= j < base + Size(g)
  }

  /**
   * `single_draw_box` up to the drawing loop: `None` when flags are given and
   * none is set; otherwise the geometry and the clamped boxes to draw, or the
   * error raised before anything is drawn.
   */
  function BoxPlan(shape: seq<nat>, boxes: seq<Box>, flags: Option<seq<bool>>, format: string): (r: Result<Option<Plan<Box>>, DrawError>)
    requires |shape| == 3 && (flags.Some? ==> |flags.value| == |boxes|)
    ensures flags.Some? && true !in flags.value ==> r == Ok(None)
    ensures !(flags.Some? && true !in flags.value) && ParseFormat(format).None? ==> r == Err(InvalidDataFormat)
    ensures r.Ok? && r.value.Some? ==>
      var p := r.value.value;
      && ParseFormat(format) == Some(p.g.layout) && p.g == GeometryOf(p.g.layout, shape)
      && p.items == ClampBoxes(Chosen(boxes, flags), p.g.width, p.g.height)
      && (p.items != [] ==> p.g.channels == 3 && NonEmpty(p.g))
      && (forall i :: 0 <= i < |p.items| ==> Inside(p.items[i], p.g))
  {
    if flags.Some? && true !in flags.value then Ok(None)
    else
      match ParseFormat(format)
      case None => Err(InvalidDataFormat)
      case Some(layout) =>
        var g := GeometryOf(layout, shape);
        var bs := ClampBoxes(Chosen(boxes, flags), g.width, g.height);
        if bs != [] && BoxShapeError(g).Some? then Err(BoxShapeError(g).value)
        else Ok(Some(Plan(g, bs)))
  }

  /**
   * A box plan that fails for a reason other than the format has boxes left
   * after the flags, and fails with the error the first box line raises.
   */
  lemma BoxPlanShapeError(shape: seq<nat>, boxes: seq<Box>, flags: Option<seq<bool>>, format: string)
    requires |shape| == 3 && (flags.Some? ==> |flags.value| == |boxes|)
    ensures var r := BoxPlan(shape, boxes, flags, format);
      r.Err? && r.error != InvalidDataFormat ==>
        Chosen(boxes, flags) != [] && BoxShapeError(GeometryOf(ParseFormat(format).value, shape)) == Some(r.error)
  {
  }

  /**
   * The error the first box line raises on an image with an empty side or
   * without 3 channels. With no rows, the row index clamps to -1, which is out
   * of range. Otherwise, without 3 channels the colour does not broadcast onto
   * the top line. With no columns but 3 channels, the top line is empty and
   * the left line's column index -1 is out of range.
   */
  function BoxShapeError(g: Geometry): (r: Option<DrawError>)
    ensures r.None? <==> g.channels == 3 && NonEmpty(g)
    ensures r.Some? ==> r.value == ShapeMismatch || r.value == IndexOutOfRange
    ensures g.height == 0 ==> r == Some(IndexOutOfRange)
    ensures g.height > 0 && g.channels != 3 ==> r == Some(ShapeMismatch)
    ensures g.height > 0 && g.channels == 3 && g.width == 0 ==> r == Some(IndexOutOfRange)
  {
    if g.height == 0 then Some(IndexOutOfRange)
    else if g.channels != 3 then Some(ShapeMismatch)
    else if g.width == 0 then Some(IndexOutOfRange)
    else None
  }

  /**
   * Errors do not depend on which boxes an image has beyond whether it has
   * any: when one image of a batch fails, any other image that passed drew nothing.
   */
  lemma BoxPlanUniform(shape: seq<nat>, b1: seq<Box>, f1: Option<seq<bool>>, b2: seq<Box>, f2: Option<seq<bool>>, format: string)
    requires |shape| == 3 && (f1.Some? ==> |f1.value| == |b1|) && (f2.Some? ==> |f2.value| == |b2|)
    requires BoxPlan(shape, b1, f1, format).Ok? && BoxPlan(shape, b2, f2, format).Err?
    ensures BoxPlan(shape, b1, f1, format).value.None? || BoxPlan(shape, b1, f1, format).value.value.items == []
  {
  }

  /** The value of flat position `j` after drawing `plan` into the image stored from `base`. */
  function BoxPixel(plan: Option<Plan<Box>>, base: int, color: Color, before: int, j: int): int
  {
    if plan.Some? && InItem(plan.value.g, base, j)
       && OnSomeBox(plan.value.items, Row(plan.value.g, j - base), Col(plan.value.g, j - base))
    then ColorAt(color, Channel(plan.value.g, j - base))
    else before
  }

  /** Colours the three channels of pixel (y, x). */
  method Paint(a: array<int>, g: Geometry, base: nat, y: int, x: int, color: Color)
    requires g.channels == 3 && InPlane(g, 0, y, x) && base + Size(g) <= a.Length
    modifies a
    ensures forall j :: 0 <= j < a.Length ==>
      a[j] == if InItem(g, base, j) && Row(g, j - base) == y && Col(g, j - base) == x
              then ColorAt(color, Channel(g, j - base)) else old(a[j])
  {
    IdxInRange(g, 0, y, x);
    IdxInRange(g, 1, y, x);
    IdxInRange(g, 2, y, x);
    DecodeIdx(g, 0, y, x);
    DecodeIdx(g, 1, y, x);
    DecodeIdx(g, 2, y, x);
    a[base + Idx(g, 0, y, x)] := color.r;
    a[base + Idx(g, 1, y, x)] := color.g;
    a[base + Idx(g, 2, y, x)] := color.b;
    forall j | 0 <= j < a.Length && InItem(g, base, j)
      ensures Row(g, j - base) == y && Col(g, j - base) == x ==>
        0 <= Channel(g, j - base) < 3 && j == base + Idx(g, Channel(g, j - base), y, x)
    {
      IdxDecode(g, j - base);
    }
  }

  /** `image[:, y, x0:x1] = color`: row y over columns x0..x1-1. */
  method HLine(a: array<int>, g: Geometry, base: nat, y: int, x0: int, x1: int, color: Color)
    requires g.channels == 3 && NonEmpty(g) && 0 <= y < g.height && 0 <= x0 && x1 <= g.width
    requires base + Size(g) <= a.Length
    modifies a
    ensures forall j :: 0 <= j < a.Length ==>
      a[j] == if InItem(g, base, j) && Row(g, j - base) == y && x0 <= Col(g, j - base) < x1
              then ColorAt(color, Channel(g, j - base)) else old(a[j])
  {
    var x := x0;
    while x < x1
      invariant x0 <= x <= Max(x0, x1)
      invariant forall j :: 0 <= j < a.Length ==>
        a[j] == if InItem(g, base, j) && Row(g, j - base) == y && x0 <= Col(g, j - base) < x
                then ColorAt(color, Channel(g, j - base)) else old(a[j])
    {
      Paint(a, g, base, y, x, color);
      x := x + 1;
    }
  }

  /** `image[:, y0:y1, x] = color`: column x over rows y0..y1-1. */
  method VLine(a: array<int>, g: Geometry, base: nat, x: int, y0: int, y1: int, color: Color)
    requires g.channels == 3 && NonEmpty(g) && 0 <= x < g.width && 0 <= y0 && y1 <= g.height
    requires base + Size(g) <= a.Length
    modifies a
    ensures forall j :: 0 <= j < a.Length ==>
      a[j] == if InItem(g, base, j) && Col(g, j - base) == x && y0 <= Row(g, j - base) < y1
              then ColorAt(color, Channel(g, j - base)) else old(a[j])
  {
    var y := y0;
    while y < y1
      invariant y0 <= y <= Max(y0, y1)
      invariant forall j :: 0 <= j < a.Length ==>
        a[j] == if InItem(g, base, j) && Col(g, j - base) == x && y0 <= Row(g, j - base) < y
                then ColorAt(color, Channel(g, j - base)) else old(a[j])
    {
      Paint(a, g, base, y, x, color);
      y := y + 1;
    }
  }

  /** Lines 25-30: the four edges of one box. */
  method Outline(a: array<int>, g: Geometry, base: nat, b: Box, color: Color)
    requires g.channels == 3 && NonEmpty(g) && Inside(b, g) && base + Size(g) <= a.Length
    modifies a
    ensures forall j :: 0 <= j < a.Length ==>
      a[j] == if InItem(g, base, j) && OnBox(b, Row(g, j - base), Col(g, j - base))
              then ColorAt(color, Channel(g, j - base)) else old(a[j])
  {
    HLine(a, g, base, b.y0, b.x0, b.x1, color);
    HLine(a, g, base, b.y1, b.x0, b.x1, color);
    VLine(a, g, base, b.x0, b.y0, b.y1, color);
    VLine(a, g, base, b.x1, b.y0, b.y1, color);
  }

  lemma OnSomeBoxSnoc(bs: seq<Box>, k: nat, y: int, x: int)
    requires k < |bs|
    ensures OnSomeBox(bs[..k + 1], y, x) <==> OnSomeBox(bs[..k], y, x) || OnBox(bs[k], y, x)
  {
    if OnSomeBox(bs[..k + 1], y, x) {
      var i :| 0 <= i < k + 1 && OnBox(bs[..k + 1][i], y, x);
      if i < k {
        assert bs[..k][i] == bs[i];
      }
    }
    if OnSomeBox(bs[..k], y, x) {
      var i :| 0 <= i < k && OnBox(bs[..k][i], y, x);
      assert bs[..k + 1][i] == bs[i];
    }
    if OnBox(bs[k], y, x) {
      assert bs[..k + 1][k] == bs[k];
    }
  }

  /** Lines 24-35: every box in turn. */
  method Outlines(a: array<int>, g: Geometry, base: nat, bs: seq<Box>, color: Color)
    requires bs != [] ==> g.channels == 3 && NonEmpty(g)
    requires forall i :: 0 <= i < |bs| ==> Inside(bs[i], g)
    requires base + Size(g) <= a.Length
    modifies a
    ensures forall j :: 0 <= j < a.Length ==>
      a[j] == if InItem(g, base, j) && OnSomeBox(bs, Row(g, j - base), Col(g, j - base))
              then ColorAt(color, Channel(g, j - base)) else old(a[j])
  {
    for k := 0 to |bs|
      invariant forall j :: 0 <= j < a.Length ==>
        a[j] == if InItem(g, base, j) && OnSomeBox(bs[..k], Row(g, j - base), Col(g, j - base))
                then ColorAt(color, Channel(g, j - base)) else old(a[j])
    {
      Outline(a, g, base, bs[k], color);
      forall j | 0 <= j < a.Length && InItem(g, base, j)
        ensures OnSomeBox(bs[..k + 1], Row(g, j - base), Col(g, j - base)) <==>
          OnSomeBox(bs[..k], Row(g, j - base), Col(g, j - base)) || OnBox(bs[k], Row(g, j - base), Col(g, j - base))
      {
        OnSomeBoxSnoc(bs, k, Row(g, j - base), Col(g, j - base));
      }
    }
    assert bs[..|bs|] == bs;
  }

  /** `single_draw_box(image, boxes, color, valid_flags, format)` on the image stored from `base`. */
  method SingleDrawBox(a: array<int>, base: nat, shape: seq<nat>, boxes: seq<Box>, color: Color,
                       flags: Option<seq<bool>>, format: string) returns (err: Option<DrawError>)
    requires |shape| == 3 && (flags.Some? ==> |flags.value| == |boxes|) && base + Numel(shape) <= a.Length
    modifies a
    ensures var plan := BoxPlan(shape, boxes, flags, format);
      && (plan.Err? ==> err == Some(plan.error) && a[..] == old(a[..]))
      && (plan.Ok? ==> err == None && forall j :: 0 <= j < a.Length ==> a[j] == BoxPixel(plan.value, base, color, old(a[j]), j))
  {
    var bs := boxes;
    if flags.Some? {
      if true in flags.value {
        bs := Selected(boxes, flags.value);
      } else {
        return None;
      }
    }
    var layout := ParseFormat(format);
    if layout.None? {
      return Some(InvalidDataFormat);
    }
    var g := GeometryOf(layout.value, shape);
    SizeOf(layout.value, shape);
    bs := ClampBoxes(bs, g.width, g.height);
    var shapeError := BoxShapeError(g);
    if bs != [] && shapeError.Some? {
      return shapeError;
    }
    Outlines(a, g, base, bs, color);
    err := None;
  }

  // ---------------------------------------------------------------------------
  // Line assignments as the tensor library broadcasts them
  // ---------------------------------------------------------------------------

  /**
   * Assigning a tensor of shape `src` to a slice of shape `dst` of the same
   * rank succeeds when every dimension of `src` equals that of `dst` or is 1.
   */
  predicate BroadcastsTo(src: seq<nat>, dst: seq<nat>)
  {
    |src| == |dst| && forall i :: 0 <= i < |src| ==> src[i] == dst[i] || src[i] == 1
  }

  /**
   * Lines 27-30: `image[:, y, x0:x1] = color.view(3, 1)` writes `n` pixels of
   * a `channels`-deep CHW image. It succeeds exactly when there are three
   * channels, and then channel `c` of every pixel receives colour component `c`.
   */
  function ChwLine(color: Color, channels: nat, n: nat): (r: Option<seq<seq<int>>>)
    ensures r.Some? <==> BroadcastsTo([3, 1], [channels, n])
    ensures r.Some? <==> channels == 3
    ensures r.Some? ==>
      && |r.value| == channels
      && forall c :: 0 <= c < channels ==> |r.value[c]| == n && forall i :: 0 <= i < n ==> r.value[c][i] == ColorAt(color, c)
  {
    assert BroadcastsTo([3, 1], [channels, n]) <==> [3, 1][0] == channels;
    if channels == 3 then Some(seq(3, c requires 0 <= c < 3 => seq(n, i => ColorAt(color, c)))) else None
  }

  /**
   * Lines 32-35 as written: `image[y, x0:x1, :] = color.view(3, 1)` aims the
   * same (3, 1) colour at an `n` by `channels` HWC slice. The pixel count `n`
   * has to be 3, and pixel `i` then receives component `i` in every channel.
   */
  function HwcLineAsWritten(color: Color, n: nat, channels: nat): (r: Option<seq<seq<int>>>)
    ensures r.Some? <==> BroadcastsTo([3, 1], [n, channels])
    ensures r.Some? <==> n == 3
    ensures r.Some? ==>
      && |r.value| == n
      && forall i :: 0 <= i < n ==> |r.value[i]| == channels && forall c :: 0 <= c < channels ==> r.value[i][c] == ColorAt(color, i)
  {
    assert BroadcastsTo([3, 1], [n, channels]) <==> [3, 1][0] == n;
    if n == 3 then Some(seq(3, i requires 0 <= i < 3 => seq(channels, c => ColorAt(color, i)))) else None
  }

  /**
   * An HWC image of 10 by 10 pixels with the box (0, 0, 5, 5): its top line
   * covers five pixels, so the assignment cannot broadcast and raises.
   */
  lemma HwcFiveWideBoxRaises(color: Color)
    ensures ClampBox(Box(0, 0, 5, 5), 10, 10) == Box(0, 0, 5, 5)
    ensures HwcLineAsWritten(color, 5, 3).None?
  {
  }

  /**
   * Where the HWC line does broadcast, the first pixel's green channel gets the
   * red component, whereas the CHW branch gives channel 1 the green one.
   */
  lemma HwcThreeWideMixesChannels(color: Color)
    requires color.r != color.g
    ensures HwcLineAsWritten(color, 3, 3).Some? && ChwLine(color, 3, 3).Some?
    ensures HwcLineAsWritten(color, 3, 3).value[0][1] == color.r
    ensures HwcLineAsWritten(color, 3, 3).value[0][1] != ChwLine(color, 3, 3).value[1][0]
  {
  }

  /** The flags of batch item `k`, or `None` when no flags were given. */
  function ItemFlags(flags: Option<Batched<seq<bool>>>, k: nat): Option<seq<bool>>
    requires flags.Some? ==> flags.value.Batched? && k < |flags.value.xs|
  {
    if flags.None? then None else Some(flags.value.xs[k])
  }

  /** A one-image call passes one list of boxes (and of flags) of the same length. */
  predicate SingleArgs<T>(items: Batched<seq<T>>, flags: Option<Batched<seq<bool>>>)
  {
    items.Unbatched? && (flags.Some? ==> flags.value.Unbatched? && |flags.value.x| == |items.x|)
  }

  /** A batch call passes one list of boxes (and of flags) per batch item. */
  predicate BatchArgs<T>(n: nat, items: Batched<seq<T>>, flags: Option<Batched<seq<bool>>>)
  {
    && items.Batched? && n <= |items.xs|
    && (flags.Some? ==>
          && flags.value.Batched? && n <= |flags.value.xs|
          && forall k :: 0 <= k < n ==> |flags.value.xs[k]| == |items.xs[k]|)
  }

  /** The arguments fit the image: one entry for a single image, one per batch item for a batch. */
  predicate ArgsFit<T>(shape: seq<nat>, format: string, items: Batched<seq<T>>, flags: Option<Batched<seq<bool>>>)
  {
    && (|shape| == 3 && |format| == 3 ==> SingleArgs(items, flags))
    && (|shape| == 4 && |format| == 4 ==> BatchArgs(shape[0], items, flags))
  }

  /** What `single_draw_box(image[k], boxes[k], color, valid_flags[k], format[1:])` plans for item k. */
  function ItemBoxPlan(shape: seq<nat>, boxes: Batched<seq<Box>>, flags: Option<Batched<seq<bool>>>, format: string, k: nat): Result<Option<Plan<Box>>, DrawError>
    requires |shape| == 4 && |format| == 4 && k < shape[0] && BatchArgs(shape[0], boxes, flags)
  {
    BoxPlan(shape[1..], boxes.xs[k], ItemFlags(flags, k), format[1..])
  }

  /** The error of the first failing plan of `rs` from `k` on. */
  function FirstError<T>(rs: seq<Result<T, DrawError>>, k: nat): (r: Option<DrawError>)
    requires k <= |rs|
    ensures r.None? <==> forall i :: k <= i < |rs| ==> rs[i].Ok?
    ensures k < |rs| && rs[k].Err? ==> r == Some(rs[k].error)
    decreases |rs| - k
  {
    if k == |rs| then None
    else if rs[k].Err? then Some(rs[k].error)
    else FirstError(rs, k + 1)
  }

  /** Plans that pass do not change the first error. */
  lemma {:induction false} FirstErrorSkips<T>(rs: seq<Result<T, DrawError>>, i: nat, k: nat)
    requires i <= k <= |rs|
    requires forall m :: i <= m < k ==> rs[m].Ok?
    ensures FirstError(rs, i) == FirstError(rs, k)
    decreases k - i
  {
    if i < k {
      FirstErrorSkips(rs, i + 1, k);
    }
  }

  /** The plans of all the items of a box batch. */
  function BoxPlans(shape: seq<nat>, boxes: Batched<seq<Box>>, flags: Option<Batched<seq<bool>>>, format: string): (r: seq<Result<Option<Plan<Box>>, DrawError>>)
    requires |shape| == 4 && |format| == 4 && BatchArgs(shape[0], boxes, flags)
    ensures |r| == shape[0]
    ensures forall k {:trigger r[k]} {:trigger ItemBoxPlan(shape, boxes, flags, format, k)} :: 0 <= k < shape[0] ==> r[k] == ItemBoxPlan(shape, boxes, flags, format, k)
  {
    seq(shape[0], k requires 0 <= k < shape[0] => ItemBoxPlan(shape, boxes, flags, format, k))
  }

  /** The error of the first batch item from `k` on whose plan fails. */
  function FirstBoxError(shape: seq<nat>, boxes: Batched<seq<Box>>, flags: Option<Batched<seq<bool>>>, format: string, k: nat): (r: Option<DrawError>)
    requires |shape| == 4 && |format| == 4 && k <= shape[0] && BatchArgs(shape[0], boxes, flags)
    ensures r.None? <==> forall i :: k <= i < shape[0] ==> ItemBoxPlan(shape, boxes, flags, format, i).Ok?
    ensures k < shape[0] && ItemBoxPlan(shape, boxes, flags, format, k).Err? ==> r == Some(ItemBoxPlan(shape, boxes, flags, format, k).error)
  {
    FirstError(BoxPlans(shape, boxes, flags, format), k)
  }

  /** Item k of a batch of n items of size S lies inside the batch. */
  lemma ItemRange(k: nat, n: nat, S: nat)
    requires k < n
    ensures k * S + S == (k + 1) * S <= n * S
  {
    MulNonNegative(n - k - 1, S);
    assert n * S == (k + 1) * S + (n - k - 1) * S;
  }

  /** Items before k lie before position k*S. */
  lemma ItemBefore(i: nat, k: nat, S: nat)
    requires i < k
    ensures (i + 1) * S <= k * S
  {
    MulNonNegative(k - i - 1, S);
    assert k * S == (i + 1) * S + (k - i - 1) * S;
  }

  lemma PositiveFactor(k: nat, S: nat)
    requires k * S > 0
    ensures S > 0
  {
  }

  /** A position before item k lies in one of the items before it. */
  lemma ItemOf(j: nat, k: nat, S: nat) returns (i: nat)
    requires j < k * S
    ensures i < k && i * S <= j < (i + 1) * S
  {
    PositiveFactor(k, S);
    i := j / S;
    assert j == i * S + j % S;
    MulOrder(i, k, S);
  }

  /** A box plan that draws nothing: skipped by its flags, or left with no boxes. */
  predicate DrawsNoBox(r: Result<Option<Plan<Box>>, DrawError>)
  {
    r.Ok? && (r.value.None? || r.value.value.items == [])
  }

  /** When batch item k fails, every item that passed draws nothing. */
  lemma BoxItemsBlank(shape: seq<nat>, boxes: Batched<seq<Box>>, flags: Option<Batched<seq<bool>>>, format: string, k: nat)
    requires |shape| == 4 && |format| == 4 && k < shape[0] && BatchArgs(shape[0], boxes, flags)
    requires ItemBoxPlan(shape, boxes, flags, format, k).Err?
    ensures forall i :: 0 <= i < shape[0] && ItemBoxPlan(shape, boxes, flags, format, i).Ok? ==>
      DrawsNoBox(ItemBoxPlan(shape, boxes, flags, format, i))
  {
    forall i | 0 <= i < shape[0] && ItemBoxPlan(shape, boxes, flags, format, i).Ok?
      ensures DrawsNoBox(ItemBoxPlan(shape, boxes, flags, format, i))
    {
      BoxPlanUniform(shape[1..], boxes.xs[i], ItemFlags(flags, i), boxes.xs[k], ItemFlags(flags, k), format[1..]);
    }
  }

  /**
   * After the first k of the batch items planned by `ps`, each of size S:
   * they all planned successfully, each position of those items holds what
   * its item's plan draws over `orig`, and the rest still holds `orig`.
   */
  ghost predicate BoxesDrawn(ps: seq<Result<Option<Plan<Box>>, DrawError>>, S: nat, k: nat, color: Color, cur: seq<int>, orig: seq<int>)
    requires k <= |ps|
  {
    && |cur| == |orig| == |ps| * S
    && (forall i :: 0 <= i < k ==> ps[i].Ok?)
    && (forall i, j :: 0 <= i < k && 0 <= j < |cur| && i * S <= j < (i + 1) * S ==>
          cur[j] == BoxPixel(ps[i].value, i * S, color, orig[j], j))
    && (forall j :: k * S <= j < |cur| ==> cur[j] == orig[j])
  }

  /** Outside the item stored from `base`, a box plan leaves the image as it was. */
  lemma BoxPixelOutside(plan: Option<Plan<Box>>, base: int, S: int, color: Color, before: int, j: int)
    requires plan.Some? ==> Size(plan.value.g) == S
    requires j < base || base + S <= j
    ensures BoxPixel(plan, base, color, before, j) == before
  {
  }

  /** The plan of a batch item covers exactly one item of the batch. */
  lemma ItemBoxPlanSize(shape: seq<nat>, boxes: Batched<seq<Box>>, flags: Option<Batched<seq<bool>>>, format: string, k: nat)
    requires |shape| == 4 && |format| == 4 && k < shape[0] && BatchArgs(shape[0], boxes, flags)
    ensures var r := ItemBoxPlan(shape, boxes, flags, format, k);
      r.Ok? && r.value.Some? ==> Size(r.value.value.g) == Numel(shape[1..])
  {
    SizeOf(CHW, shape[1..]);
    SizeOf(HWC, shape[1..]);
  }

  /** Drawing item k over `prev` moves the batch from k items drawn to k + 1. */
  lemma BoxesDrawnStep(ps: seq<Result<Option<Plan<Box>>, DrawError>>, S: nat, k: nat, color: Color,
                       prev: seq<int>, cur: seq<int>, orig: seq<int>)
    requires k < |ps| && BoxesDrawn(ps, S, k, color, prev, orig)
    requires ps[k].Ok? && (ps[k].value.Some? ==> Size(ps[k].value.value.g) == S) && |cur| == |prev|
    requires forall j :: 0 <= j < |cur| ==> cur[j] == BoxPixel(ps[k].value, k * S, color, prev[j], j)
    ensures BoxesDrawn(ps, S, k + 1, color, cur, orig)
  {
    ItemRange(k, |ps|, S);
    forall i, j | 0 <= i < k + 1 && 0 <= j < |cur| && i * S <= j < (i + 1) * S
      ensures cur[j] == BoxPixel(ps[i].value, i * S, color, orig[j], j)
    {
      if i < k {
        ItemBefore(i, k, S);
        BoxPixelOutside(ps[k].value, k * S, S, color, prev[j], j);
      }
    }
    forall j | (k + 1) * S <= j < |cur| ensures cur[j] == orig[j] {
      BoxPixelOutside(ps[k].value, k * S, S, color, prev[j], j);
    }
  }

  /** When the items drawn so far draw nothing, the image is still the original. */
  lemma BoxesDrawnBlank(ps: seq<Result<Option<Plan<Box>>, DrawError>>, S: nat, k: nat, color: Color, cur: seq<int>, orig: seq<int>)
    requires k < |ps| && BoxesDrawn(ps, S, k, color, cur, orig)
    requires forall i :: 0 <= i < k ==> DrawsNoBox(ps[i])
    ensures cur == orig
  {
    ItemRange(k, |ps|, S);
    forall j | 0 <= j < k * S ensures cur[j] == orig[j] {
      var i := ItemOf(j, k, S);
      assert cur[j] == BoxPixel(ps[i].value, i * S, color, orig[j], j);
    }
  }

  /** Lines 45-47, one pass of the loop: batch item k is drawn from offset k * S with its own boxes and flags. */
  method DrawBoxItem(a: array<int>, shape: seq<nat>, boxes: Batched<seq<Box>>, color: Color,
                     flags: Option<Batched<seq<bool>>>, format: string, k: nat, ghost orig: seq<int>) returns (err: Option<DrawError>)
    requires |shape| == 4 && |format| == 4 && k < shape[0] && BatchArgs(shape[0], boxes, flags)
    requires BoxesDrawn(BoxPlans(shape, boxes, flags, format), Numel(shape[1..]), k, color, a[..], orig)
    modifies a
    ensures err == (if ItemBoxPlan(shape, boxes, flags, format, k).Err? then Some(ItemBoxPlan(shape, boxes, flags, format, k).error) else None)
    ensures err.Some? ==> a[..] == orig && err == FirstBoxError(shape, boxes, flags, format, 0)
    ensures err.None? ==> BoxesDrawn(BoxPlans(shape, boxes, flags, format), Numel(shape[1..]), k + 1, color, a[..], orig)
  {
    var S := Numel(shape[1..]);
    ghost var ps := BoxPlans(shape, boxes, flags, format);
    ItemRange(k, shape[0], S);
    ghost var before := a[..];
    err := SingleDrawBox(a, k * S, shape[1..], boxes.xs[k], color, ItemFlags(flags, k), format[1..]);
    if err.Some? {
      assert a[..] == before;
      BoxItemsBlank(shape, boxes, flags, format, k);
      BoxesDrawnBlank(ps, S, k, color, a[..], orig);
      FirstErrorSkips(ps, 0, k);
      return;
    }
    ItemBoxPlanSize(shape, boxes, flags, format, k);
    assert forall j :: 0 <= j < a.Length ==> a[..][j] == BoxPixel(ps[k].value, k * S, color, before[j], j);
    BoxesDrawnStep(ps, S, k, color, before, a[..], orig);
  }

  /** Lines 43-47: item k of a batch of `shape[0]` items is drawn with its own boxes and flags and `format[1:]`. */
  method DrawBoxBatch(a: array<int>, shape: seq<nat>, boxes: Batched<seq<Box>>, color: Color,
                      flags: Option<Batched<seq<bool>>>, format: string) returns (err: Option<DrawError>)
    requires |shape| == 4 && |format| == 4 && a.Length == Numel(shape) && BatchArgs(shape[0], boxes, flags)
    modifies a
    ensures err == FirstBoxError(shape, boxes, flags, format, 0)
    ensures err.Some? ==> a[..] == old(a[..])
    ensures err.None? ==> forall k, j :: 0 <= k < shape[0] && 0 <= j < a.Length && k * Numel(shape[1..]) <= j < (k + 1) * Numel(shape[1..]) ==>
      a[j] == BoxPixel(ItemBoxPlan(shape, boxes, flags, format, k).value, k * Numel(shape[1..]), color, old(a[j]), j)
  {
    ghost var orig := a[..];
    for k := 0 to shape[0]
      invariant BoxesDrawn(BoxPlans(shape, boxes, flags, format), Numel(shape[1..]), k, color, a[..], orig)
    {
      err := DrawBoxItem(a, shape, boxes, color, flags, format, k, orig);
      if err.Some? {
        return;
      }
    }
    FirstErrorSkips(BoxPlans(shape, boxes, flags, format), 0, shape[0]);
    err := None;
  }

  /**
   * `draw_box`: draws into a three-dimensional image once, or into each item
   * of a four-dimensional one; any other combination of image and format
   * raises. A batch that raises has changed nothing.
   */
  method DrawBox(a: array<int>, shape: seq<nat>, boxes: Batched<seq<Box>>, color: Color,
                 flags: Option<Batched<seq<bool>>>, format: string) returns (err: Option<DrawError>)
    requires a.Length == Numel(shape) && ArgsFit(shape, format, boxes, flags)
    modifies a
    ensures !(|shape| == 3 && |format| == 3) && !(|shape| == 4 && |format| == 4) ==>
      err == Some(InvalidImageDataFormat) && a[..] == old(a[..])
    ensures |shape| == 3 && |format| == 3 ==>
      var plan := BoxPlan(shape, boxes.x, if flags.Some? then Some(flags.value.x) else None, format);
      && (plan.Err? ==> err == Some(plan.error) && a[..] == old(a[..]))
      && (plan.Ok? ==> err == None && forall j :: 0 <= j < a.Length ==> a[j] == BoxPixel(plan.value, 0, color, old(a[j]), j))
    ensures |shape| == 4 && |format| == 4 ==>
      && err == FirstBoxError(shape, boxes, flags, format, 0)
      && (err.Some? ==> a[..] == old(a[..]))
      && (err.None? ==> forall k, j :: 0 <= k < shape[0] && 0 <= j < a.Length && k * Numel(shape[1..]) <= j < (k + 1) * Numel(shape[1..]) ==>
            a[j] == BoxPixel(ItemBoxPlan(shape, boxes, flags, format, k).value, k * Numel(shape[1..]), color, old(a[j]), j))
  {
    if |shape| == 3 && |format| == 3 {
      err := SingleDrawBox(a, 0, shape, boxes.x, color, if flags.Some? then Some(flags.value.x) else None, format);
    } else if |shape| == 4 && |format| == 4 {
      err := DrawBoxBatch(a, shape, boxes, color, flags, format);
    } else {
      err := Some(InvalidImageDataFormat);
    }
  }

  // ---------------------------------------------------------------------------
  // Points
  // ---------------------------------------------------------------------------

  /** A point as `draw_point` receives it: coordinates normalised to [-1, 1]. */
  datatype Coord = Coord(x: real, y: real)

  /** `.long()` on a float: truncation toward zero. */
  function Trunc(v: real): (r: int)
    ensures 0.0 <= v ==> r as real <= v < r as real + 1.0
    ensures v <= 0.0 ==> r as real - 1.0 < v <= r as real
  {
    if v >= 0.0 then v.Floor else -((-v).Floor)
  }

  /** Lines 68-69: `(0.5 * (pts + 1) * [width, height]).long()`. */
  function ToPixel(c: Coord, width: int, height: int): Point
  {
    Point(Trunc(0.5 * (c.x + 1.0) * width as real), Trunc(0.5 * (c.y + 1.0) * height as real))
  }

  function ToPixels(cs: seq<Coord>, width: int, height: int): (r: seq<Point>)
    ensures |r| == |cs| && forall i :: 0 <= i < |cs| ==> r[i] == ToPixel(cs[i], width, height)
  {
    seq(|cs|, i requires 0 <= i < |cs| => ToPixel(cs[i], width, height))
  }

  /** A fraction t of a whole n, with 0 <= t < 1, is at least 0 and below n. */
  lemma FractionBelow(t: real, n: nat)
    requires 0.0 <= t < 1.0 && n > 0
    ensures 0.0 <= t * n as real < n as real
  {
    assert t * n as real <= 1.0 * n as real - (1.0 - t) * n as real;
    assert (1.0 - t) * n as real > 0.0;
  }

  /** A normalised coordinate in [-1, 1) lands on a pixel of the image, before any clamping. */
  lemma ToPixelInImage(c: Coord, width: nat, height: nat)
    requires -1.0 <= c.x < 1.0 && -1.0 <= c.y < 1.0 && width > 0 && height > 0
    ensures 0 <= ToPixel(c, width, height).x < width && 0 <= ToPixel(c, width, height).y < height
  {
    ColumnInImage(c, width, height);
    RowInImage(c, width, height);
  }

  /** The column half of `ToPixelInImage`. */
  lemma ColumnInImage(c: Coord, width: nat, height: nat)
    requires -1.0 <= c.x < 1.0 && width > 0
    ensures 0 <= ToPixel(c, width, height).x < width
  {
    AxisInImage(c.x, width);
  }

  /** The row half of `ToPixelInImage`. */
  lemma RowInImage(c: Coord, width: nat, height: nat)
    requires -1.0 <= c.y < 1.0 && height > 0
    ensures 0 <= ToPixel(c, width, height).y < height
  {
    AxisInImage(c.y, height);
  }

  /** One axis of `ToPixelInImage`. */
  lemma AxisInImage(v: real, n: nat)
    requires -1.0 <= v < 1.0 && n > 0
    ensures 0 <= Trunc(0.5 * (v + 1.0) * n as real) < n
  {
    var t := 0.5 * (v + 1.0);
    FractionBelow(t, n);
    TruncBelow(t * n as real, n);
  }

  /** Truncating a number in [0, n) gives a whole number in [0, n). */
  lemma TruncBelow(v: real, n: nat)
    requires 0.0 <= v < n as real
    ensures 0 <= Trunc(v) < n
  {
  }

  /** The centre of the normalised square lands on pixel (width / 2, height / 2). */
  lemma ToPixelCentre(width: nat, height: nat)
    ensures ToPixel(Coord(0.0, 0.0), width, height) == Point(width / 2, height / 2)
  {
    var w, h := 0.5 * width as real, 0.5 * height as real;
    assert 0.5 * (0.0 + 1.0) * width as real == w;
    assert 0.5 * (0.0 + 1.0) * height as real == h;
    assert (width / 2) as real <= w < (width / 2) as real + 1.0;
    assert (height / 2) as real <= h < (height / 2) as real + 1.0;
  }

  /** Lines 70-71: x clamped to [1, width-2] and y to [1, height-2]. */
  function ClampPoint(p: Point, width: int, height: int): (r: Point)
    ensures width >= 3 ==> 1 <= r.x <= width - 2
    ensures height >= 3 ==> 1 <= r.y <= height - 2
    ensures 1 <= p.x <= width - 2 && 1 <= p.y <= height - 2 ==> r == p
  {
    Point(Clamp(p.x, 1, width - 2), Clamp(p.y, 1, height - 2))
  }

  function ClampPoints(ps: seq<Point>, width: int, height: int): (r: seq<Point>)
    ensures |r| == |ps| && forall i :: 0 <= i < |ps| ==> r[i] == ClampPoint(ps[i], width, height)
  {
    seq(|ps|, i requires 0 <= i < |ps| => ClampPoint(ps[i], width, height))
  }

  /** The row of the q-th pixel of the plus around p: above, centre, below, left, right. */
  function PlusY(p: Point, q: int): int
  {
    if q == 0 then p.y - 1 else if q == 2 then p.y + 1 else p.y
  }

  /** The column of the q-th pixel of the plus around p. */
  function PlusX(p: Point, q: int): int
  {
    if q == 3 then p.x - 1 else if q == 4 then p.x + 1 else p.x
  }

  /** The five pixels of the plus around p: its centre and the four pixels next to it. */
  predicate OnPlus(p: Point, y: int, x: int)
  {
    || (x == p.x && p.y - 1 <= y <= p.y + 1)
    || (y == p.y && (x == p.x - 1 || x == p.x + 1))
  }

  predicate OnSomePlus(ps: seq<Point>, y: int, x: int)
  {
    exists i :: 0 <= i < |ps| && OnPlus(ps[i], y, x)
  }

  /** The five offsets q name exactly the pixels of the plus. */
  lemma OnPlusOffsets(p: Point, y: int, x: int)
    ensures OnPlus(p, y, x) <==> exists q :: 0 <= q < 5 && PlusY(p, q) == y && PlusX(p, q) == x
  {
    if OnPlus(p, y, x) {
      var q := if x == p.x - 1 then 3 else if x == p.x + 1 then 4 else if y == p.y - 1 then 0 else if y == p.y then 1 else 2;
      assert PlusY(p, q) == y && PlusX(p, q) == x;
    }
  }

  /** One of the five blocks of line 73: the q-th plus pixel of every point, as y*width + x. */
  function Group(g: Geometry, ps: seq<Point>, q: int): (r: seq<int>)
    ensures |r| == |ps|
  {
    seq(|ps|, i requires 0 <= i < |ps| => PlusY(ps[i], q) * g.width + PlusX(ps[i], q))
  }

  /** Line 73: `indices0` before any channel offset, the five blocks one after another. */
  function Indices0(g: Geometry, ps: seq<Point>): (r: seq<int>)
    ensures |r| == 5 * |ps|
  {
    Group(g, ps, 0) + Group(g, ps, 1) + Group(g, ps, 2) + Group(g, ps, 3) + Group(g, ps, 4)
  }

  function Shift(s: seq<int>, d: int): (r: seq<int>)
    ensures |r| == |s| && forall k :: 0 <= k < |s| ==> r[k] == s[k] + d
  {
    seq(|s|, k requires 0 <= k < |s| => s[k] + d)
  }

  function Scale(s: seq<int>, m: int): (r: seq<int>)
    ensures |r| == |s| && forall k :: 0 <= k < |s| ==> r[k] == s[k] * m
  {
    seq(|s|, k requires 0 <= k < |s| => s[k] * m)
  }

  /**
   * Lines 72-80: the positions filled with channel c's colour. CHW adds
   * width*height once per channel; HWC multiplies by the channel count and adds c.
   */
  function Indices(g: Geometry, ps: seq<Point>, c: int): seq<int>
  {
    match g.layout
    case CHW =>
      var i1 := Shift(Indices0(g, ps), g.width * g.height);
      if c == 0 then Indices0(g, ps) else if c == 1 then i1 else Shift(i1, g.width * g.height)
    case HWC =>
      var i0 := Scale(Indices0(g, ps), g.channels);
      if c == 0 then i0 else if c == 1 then Shift(i0, 1) else Shift(i0, 2)
  }

  /** `r` is channel c of some plus pixel of some point. */
  predicate IsPlusIndex(g: Geometry, ps: seq<Point>, c: int, r: int)
  {
    exists q, i :: 0 <= q < 5 && 0 <= i < |ps| && r == Idx(g, c, PlusY(ps[i], q), PlusX(ps[i], q))
  }

  /** The offset line 74-80 gives to channel c; position for position it turns a pixel into channel c of it. */
  function ChannelOffset(g: Geometry, c: int, v: int): int
  {
    match g.layout
    case CHW => v + c * (g.height * g.width)
    case HWC => v * g.channels + c
  }

  lemma IndicesOffsets(g: Geometry, ps: seq<Point>, c: int)
    requires 0 <= c < 3
    ensures |Indices(g, ps, c)| == |Indices0(g, ps)|
    ensures forall k :: 0 <= k < |Indices0(g, ps)| ==> Indices(g, ps, c)[k] == ChannelOffset(g, c, Indices0(g, ps)[k])
  {
    assert g.width * g.height == g.height * g.width;
  }

  lemma Indices0Members(g: Geometry, ps: seq<Point>, v: int)
    ensures v in Indices0(g, ps) <==> exists q, i :: 0 <= q < 5 && 0 <= i < |ps| && v == PlusY(ps[i], q) * g.width + PlusX(ps[i], q)
  {
    if v in Indices0(g, ps) {
      var q :| 0 <= q < 5 && v in Group(g, ps, q);
      var i :| 0 <= i < |ps| && Group(g, ps, q)[i] == v;
    }
    if exists q, i :: 0 <= q < 5 && 0 <= i < |ps| && v == PlusY(ps[i], q) * g.width + PlusX(ps[i], q) {
      var q, i :| 0 <= q < 5 && 0 <= i < |ps| && v == PlusY(ps[i], q) * g.width + PlusX(ps[i], q);
      assert Group(g, ps, q)[i] == v;
    }
  }

  lemma OffsetIsIdx(g: Geometry, c: int, y: int, x: int)
    ensures ChannelOffset(g, c, y * g.width + x) == Idx(g, c, y, x)
  {
  }

  lemma IndicesArePlusIndices(g: Geometry, ps: seq<Point>, c: int, r: int)
    requires 0 <= c < 3 && r in Indices(g, ps, c)
    ensures IsPlusIndex(g, ps, c, r)
  {
    IndicesOffsets(g, ps, c);
    var I, I0 := Indices(g, ps, c), Indices0(g, ps);
    var k :| 0 <= k < |I| && I[k] == r;
    Indices0Members(g, ps, I0[k]);
    var q, i :| 0 <= q < 5 && 0 <= i < |ps| && I0[k] == PlusY(ps[i], q) * g.width + PlusX(ps[i], q);
    OffsetIsIdx(g, c, PlusY(ps[i], q), PlusX(ps[i], q));
    assert r == ChannelOffset(g, c, I0[k]);
    assert r == Idx(g, c, PlusY(ps[i], q), PlusX(ps[i], q));
  }

  lemma PlusIndicesAreIndices(g: Geometry, ps: seq<Point>, c: int, r: int)
    requires 0 <= c < 3 && IsPlusIndex(g, ps, c, r)
    ensures r in Indices(g, ps, c)
  {
    IndicesOffsets(g, ps, c);
    var I, I0 := Indices(g, ps, c), Indices0(g, ps);
    var q, i :| 0 <= q < 5 && 0 <= i < |ps| && r == Idx(g, c, PlusY(ps[i], q), PlusX(ps[i], q));
    var v := PlusY(ps[i], q) * g.width + PlusX(ps[i], q);
    Indices0Members(g, ps, v);
    var k :| 0 <= k < |I0| && I0[k] == v;
    OffsetIsIdx(g, c, PlusY(ps[i], q), PlusX(ps[i], q));
    assert I[k] == r;
  }

  /** The positions of channel c are exactly channel c of the plus pixels. */
  lemma IndicesMembers(g: Geometry, ps: seq<Point>, c: int, r: int)
    requires 0 <= c < 3
    ensures r in Indices(g, ps, c) <==> IsPlusIndex(g, ps, c, r)
  {
    if r in Indices(g, ps, c) {
      IndicesArePlusIndices(g, ps, c, r);
    }
    if IsPlusIndex(g, ps, c, r) {
      PlusIndicesAreIndices(g, ps, c, r);
    }
  }

  /** Points inside the clamping window of an image of at least 3 x 3 pixels and 3 channels. */
  predicate PointsInside(g: Geometry, ps: seq<Point>)
  {
    && g.width >= 3 && g.height >= 3 && g.channels >= 3
    && forall i :: 0 <= i < |ps| ==> 1 <= ps[i].x <= g.width - 2 && 1 <= ps[i].y <= g.height - 2
  }

  /** A position is channel c of a plus pixel exactly when it lies in the image and decodes to one. */
  lemma PlusIndexDecode(g: Geometry, ps: seq<Point>, c: int, r: int)
    requires PointsInside(g, ps) && 0 <= c < 3
    ensures IsPlusIndex(g, ps, c, r) <==>
      0 <= r < Size(g) && Channel(g, r) == c && OnSomePlus(ps, Row(g, r), Col(g, r))
  {
    if IsPlusIndex(g, ps, c, r) {
      var q, i :| 0 <= q < 5 && 0 <= i < |ps| && r == Idx(g, c, PlusY(ps[i], q), PlusX(ps[i], q));
      IdxInRange(g, c, PlusY(ps[i], q), PlusX(ps[i], q));
      DecodeIdx(g, c, PlusY(ps[i], q), PlusX(ps[i], q));
      OnPlusOffsets(ps[i], Row(g, r), Col(g, r));
    }
    if 0 <= r < Size(g) && Channel(g, r) == c && OnSomePlus(ps, Row(g, r), Col(g, r)) {
      var i :| 0 <= i < |ps| && OnPlus(ps[i], Row(g, r), Col(g, r));
      OnPlusOffsets(ps[i], Row(g, r), Col(g, r));
      var q :| 0 <= q < 5 && PlusY(ps[i], q) == Row(g, r) && PlusX(ps[i], q) == Col(g, r);
      IdxDecode(g, r);
    }
  }

  /**
   * Bounds of the flattened indices: with the points clamped into an image of
   * at least 3 x 3 pixels and 3 channels, every position filled lies in [0, C*H*W).
   */
  lemma PointIndicesInRange(g: Geometry, ps: seq<Point>, c: int)
    requires PointsInside(g, ps) && 0 <= c < 3
    ensures forall k :: 0 <= k < |Indices(g, ps, c)| ==> 0 <= Indices(g, ps, c)[k] < Size(g)
  {
    forall k | 0 <= k < |Indices(g, ps, c)| ensures 0 <= Indices(g, ps, c)[k] < Size(g) {
      IndicesMembers(g, ps, c, Indices(g, ps, c)[k]);
      PlusIndexDecode(g, ps, c, Indices(g, ps, c)[k]);
    }
  }

  /**
   * `single_draw_point` up to the fills: `None` when flags are given and none
   * is set; otherwise the geometry and the clamped points, or the format error.
   */
  function PointPlan(shape: seq<nat>, pts: seq<Coord>, flags: Option<seq<bool>>, format: string): (r: Result<Option<Plan<Point>>, DrawError>)
    requires |shape| == 3 && (flags.Some? ==> |flags.value| == |pts|)
    ensures flags.Some? && true !in flags.value ==> r == Ok(None)
    ensures r.Err? <==> !(flags.Some? && true !in flags.value) && ParseFormat(format).None?
    ensures r.Err? ==> r.error == InvalidImageDataFormat
    ensures r.Ok? && r.value.Some? ==>
      var p := r.value.value;
      && ParseFormat(format) == Some(p.g.layout) && p.g == GeometryOf(p.g.layout, shape)
      && p.items == ClampPoints(ToPixels(Chosen(pts, flags), p.g.width, p.g.height), p.g.width, p.g.height)
  {
    if flags.Some? && true !in flags.value then Ok(None)
    else
      match ParseFormat(format)
      case None => Err(InvalidImageDataFormat)
      case Some(layout) =>
        var g := GeometryOf(layout, shape);
        Ok(Some(Plan(g, ClampPoints(ToPixels(Chosen(pts, flags), g.width, g.height), g.width, g.height))))
  }

  /**
   * What the model requires of a point drawing: when there are points to draw,
   * the image has at least 3 x 3 pixels and 3 channels.
   */
  predicate PointsFit(plan: Result<Option<Plan<Point>>, DrawError>)
  {
    plan.Ok? && plan.value.Some? && plan.value.value.items != [] ==>
      var g := plan.value.value.g;
      g.width >= 3 && g.height >= 3 && g.channels >= 3
  }

  /** With enough room, the clamped points lie inside the clamping window. */
  lemma PlanPointsInside(shape: seq<nat>, pts: seq<Coord>, flags: Option<seq<bool>>, format: string)
    requires |shape| == 3 && (flags.Some? ==> |flags.value| == |pts|)
    requires PointsFit(PointPlan(shape, pts, flags, format))
    ensures var plan := PointPlan(shape, pts, flags, format);
      plan.Ok? && plan.value.Some? && plan.value.value.items != [] ==> PointsInside(plan.value.value.g, plan.value.value.items)
  {
  }

  /** The value of flat position `j` after drawing the points of `plan` into the image stored from `base`. */
  function PointPixel(plan: Option<Plan<Point>>, base: int, color: Color, before: int, j: int): int
  {
    if plan.Some? && InItem(plan.value.g, base, j) && Channel(plan.value.g, j - base) < 3
       && OnSomePlus(plan.value.items, Row(plan.value.g, j - base), Col(plan.value.g, j - base))
    then ColorAt(color, Channel(plan.value.g, j - base))
    else before
  }

  /** `image.index_fill_(0, idxs, v)` on the image stored from `base`. */
  method IndexFill(a: array<int>, base: nat, idxs: seq<int>, v: int)
    requires forall k :: 0 <= k < |idxs| ==> 0 <= base + idxs[k] < a.Length
    modifies a
    ensures forall j :: 0 <= j < a.Length ==> a[j] == if j - base in idxs then v else old(a[j])
  {
    for k := 0 to |idxs|
      invariant forall j :: 0 <= j < a.Length ==> a[j] == if j - base in idxs[..k] then v else old(a[j])
    {
      a[base + idxs[k]] := v;
      assert idxs[..k + 1] == idxs[..k] + [idxs[k]];
    }
    assert idxs[..|idxs|] == idxs;
  }

  /** A position lies in the fill list of channel c exactly when `PointPixel` gives it channel c's colour. */
  lemma FillMembers(g: Geometry, ps: seq<Point>, base: int, j: int, c: int)
    requires ps != [] ==> PointsInside(g, ps)
    requires 0 <= c < 3
    ensures j - base in Indices(g, ps, c) <==>
      InItem(g, base, j) && Channel(g, j - base) == c && OnSomePlus(ps, Row(g, j - base), Col(g, j - base))
  {
    IndicesMembers(g, ps, c, j - base);
    if ps != [] {
      PlusIndexDecode(g, ps, c, j - base);
    }
  }

  /** The three fills together colour each plus pixel with its channel of the colour and leave the rest. */
  lemma FillsGivePixel(g: Geometry, ps: seq<Point>, base: int, color: Color, j: int, before: int)
    requires ps != [] ==> PointsInside(g, ps)
    ensures (if j - base in Indices(g, ps, 2) then color.b
             else if j - base in Indices(g, ps, 1) then color.g
             else if j - base in Indices(g, ps, 0) then color.r
             else before) == PointPixel(Some(Plan(g, ps)), base, color, before, j)
  {
    FillMembers(g, ps, base, j, 0);
    FillMembers(g, ps, base, j, 1);
    FillMembers(g, ps, base, j, 2);
    var inItem := InItem(g, base, j);
    if inItem {
      IdxDecode(g, j - base);
      var c := Channel(g, j - base);
      var on := OnSomePlus(ps, Row(g, j - base), Col(g, j - base));
      assert (j - base in Indices(g, ps, 0)) == (c == 0 && on);
      assert (j - base in Indices(g, ps, 1)) == (c == 1 && on);
      assert (j - base in Indices(g, ps, 2)) == (c == 2 && on);
    }
  }

  /** `single_draw_point(image, pts, color, valid_flags, format)` on the image stored from `base`. */
  method SingleDrawPoint(a: array<int>, base: nat, shape: seq<nat>, pts: seq<Coord>, color: Color,
                         flags: Option<seq<bool>>, format: string) returns (err: Option<DrawError>)
    requires |shape| == 3 && (flags.Some? ==> |flags.value| == |pts|) && base + Numel(shape) <= a.Length
    requires PointsFit(PointPlan(shape, pts, flags, format))
    modifies a
    ensures var plan := PointPlan(shape, pts, flags, format);
      && (plan.Err? ==> err == Some(plan.error) && a[..] == old(a[..]))
      && (plan.Ok? ==> err == None && forall j :: 0 <= j < a.Length ==> a[j] == PointPixel(plan.value, base, color, old(a[j]), j))
  {
    PlanPointsInside(shape, pts, flags, format);
    var cs := pts;
    if flags.Some? {
      if true in flags.value {
        cs := Selected(pts, flags.value);
      } else {
        return None;
      }
    }
    var layout := ParseFormat(format);
    if layout.None? {
      return Some(InvalidImageDataFormat);
    }
    var g := GeometryOf(layout.value, shape);
    SizeOf(layout.value, shape);
    var ps := ClampPoints(ToPixels(cs, g.width, g.height), g.width, g.height);
    var indices0, indices1, indices2 := Indices(g, ps, 0), Indices(g, ps, 1), Indices(g, ps, 2);
    if ps != [] {
      PointIndicesInRange(g, ps, 0);
      PointIndicesInRange(g, ps, 1);
      PointIndicesInRange(g, ps, 2);
    }
    ghost var s0 := a[..];
    IndexFill(a, base, indices0, color.r);
    ghost var s1 := a[..];
    IndexFill(a, base, indices1, color.g);
    ghost var s2 := a[..];
    IndexFill(a, base, indices2, color.b);
    forall j | 0 <= j < a.Length
      ensures a[j] == PointPixel(Some(Plan(g, ps)), base, color, old(a[j]), j)
    {
      assert s1[j] == if j - base in indices0 then color.r else s0[j];
      assert s2[j] == if j - base in indices1 then color.g else s1[j];
      FillsGivePixel(g, ps, base, color, j, old(a[j]));
    }
    err := None;
  }

  /** What `single_draw_point(image[k], pts[k], color, valid_flags[k], format[1:])` plans for item k. */
  function ItemPointPlan(shape: seq<nat>, pts: Batched<seq<Coord>>, flags: Option<Batched<seq<bool>>>, format: string, k: nat): Result<Option<Plan<Point>>, DrawError>
    requires |shape| == 4 && |format| == 4 && k < shape[0] && BatchArgs(shape[0], pts, flags)
  {
    PointPlan(shape[1..], pts.xs[k], ItemFlags(flags, k), format[1..])
  }

  /** The plans of all the items of a point batch. */
  function PointPlans(shape: seq<nat>, pts: Batched<seq<Coord>>, flags: Option<Batched<seq<bool>>>, format: string): (r: seq<Result<Option<Plan<Point>>, DrawError>>)
    requires |shape| == 4 && |format| == 4 && BatchArgs(shape[0], pts, flags)
    ensures |r| == shape[0]
    ensures forall k {:trigger r[k]} {:trigger ItemPointPlan(shape, pts, flags, format, k)} :: 0 <= k < shape[0] ==> r[k] == ItemPointPlan(shape, pts, flags, format, k)
  {
    seq(shape[0], k requires 0 <= k < shape[0] => ItemPointPlan(shape, pts, flags, format, k))
  }

  /** The error of the first batch item from `k` on whose plan fails. */
  function FirstPointError(shape: seq<nat>, pts: Batched<seq<Coord>>, flags: Option<Batched<seq<bool>>>, format: string, k: nat): (r: Option<DrawError>)
    requires |shape| == 4 && |format| == 4 && k <= shape[0] && BatchArgs(shape[0], pts, flags)
    ensures r.None? <==> forall i :: k <= i < shape[0] ==> ItemPointPlan(shape, pts, flags, format, i).Ok?
    ensures k < shape[0] && ItemPointPlan(shape, pts, flags, format, k).Err? ==> r == Some(ItemPointPlan(shape, pts, flags, format, k).error)
  {
    FirstError(PointPlans(shape, pts, flags, format), k)
  }

  /** When batch item k fails (an unknown format), every item that passed was skipped by its flags. */
  lemma PointItemsBlank(shape: seq<nat>, pts: Batched<seq<Coord>>, flags: Option<Batched<seq<bool>>>, format: string, k: nat)
    requires |shape| == 4 && |format| == 4 && k < shape[0] && BatchArgs(shape[0], pts, flags)
    requires ItemPointPlan(shape, pts, flags, format, k).Err?
    ensures forall i :: 0 <= i < shape[0] && ItemPointPlan(shape, pts, flags, format, i).Ok? ==>
      ItemPointPlan(shape, pts, flags, format, i).value.None?
  {
  }

  /** Every item of the batch has room for the points it draws. */
  predicate BatchPointsFit(shape: seq<nat>, pts: Batched<seq<Coord>>, flags: Option<Batched<seq<bool>>>, format: string)
    requires |shape| == 4 && |format| == 4 && BatchArgs(shape[0], pts, flags)
  {
    forall k :: 0 <= k < shape[0] ==> PointsFit(ItemPointPlan(shape, pts, flags, format, k))
  }

  /** After the first k of the point batch items planned by `ps`; see `BoxesDrawn`. */
  ghost predicate PointsDrawn(ps: seq<Result<Option<Plan<Point>>, DrawError>>, S: nat, k: nat, color: Color, cur: seq<int>, orig: seq<int>)
    requires k <= |ps|
  {
    && |cur| == |orig| == |ps| * S
    && (forall i :: 0 <= i < k ==> ps[i].Ok?)
    && (forall i, j :: 0 <= i < k && 0 <= j < |cur| && i * S <= j < (i + 1) * S ==>
          cur[j] == PointPixel(ps[i].value, i * S, color, orig[j], j))
    && (forall j :: k * S <= j < |cur| ==> cur[j] == orig[j])
  }

  /** Outside the item stored from `base`, a point plan leaves the image as it was. */
  lemma PointPixelOutside(plan: Option<Plan<Point>>, base: int, S: int, color: Color, before: int, j: int)
    requires plan.Some? ==> Size(plan.value.g) == S
    requires j < base || base + S <= j
    ensures PointPixel(plan, base, color, before, j) == before
  {
  }

  /** The plan of a batch item covers exactly one item of the batch. */
  lemma ItemPointPlanSize(shape: seq<nat>, pts: Batched<seq<Coord>>, flags: Option<Batched<seq<bool>>>, format: string, k: nat)
    requires |shape| == 4 && |format| == 4 && k < shape[0] && BatchArgs(shape[0], pts, flags)
    ensures var r := ItemPointPlan(shape, pts, flags, format, k);
      r.Ok? && r.value.Some? ==> Size(r.value.value.g) == Numel(shape[1..])
  {
    SizeOf(CHW, shape[1..]);
    SizeOf(HWC, shape[1..]);
  }

  /** Drawing item k over `prev` moves the point batch from k items drawn to k + 1. */
  lemma PointsDrawnStep(ps: seq<Result<Option<Plan<Point>>, DrawError>>, S: nat, k: nat, color: Color,
                        prev: seq<int>, cur: seq<int>, orig: seq<int>)
    requires k < |ps| && PointsDrawn(ps, S, k, color, prev, orig)
    requires ps[k].Ok? && (ps[k].value.Some? ==> Size(ps[k].value.value.g) == S) && |cur| == |prev|
    requires forall j :: 0 <= j < |cur| ==> cur[j] == PointPixel(ps[k].value, k * S, color, prev[j], j)
    ensures PointsDrawn(ps, S, k + 1, color, cur, orig)
  {
    ItemRange(k, |ps|, S);
    forall i, j | 0 <= i < k + 1 && 0 <= j < |cur| && i * S <= j < (i + 1) * S
      ensures cur[j] == PointPixel(ps[i].value, i * S, color, orig[j], j)
    {
      if i < k {
        ItemBefore(i, k, S);
        PointPixelOutside(ps[k].value, k * S, S, color, prev[j], j);
      }
    }
    forall j | (k + 1) * S <= j < |cur| ensures cur[j] == orig[j] {
      PointPixelOutside(ps[k].value, k * S, S, color, prev[j], j);
    }
  }

  /** When the point items drawn so far were all skipped, the image is still the original. */
  lemma PointsDrawnBlank(ps: seq<Result<Option<Plan<Point>>, DrawError>>, S: nat, k: nat, color: Color, cur: seq<int>, orig: seq<int>)
    requires k < |ps| && PointsDrawn(ps, S, k, color, cur, orig)
    requires forall i :: 0 <= i < k ==> ps[i].value.None?
    ensures cur == orig
  {
    ItemRange(k, |ps|, S);
    forall j | 0 <= j < k * S ensures cur[j] == orig[j] {
      var i := ItemOf(j, k, S);
      assert cur[j] == PointPixel(ps[i].value, i * S, color, orig[j], j);
    }
  }

  /** Lines 95-97, one pass of the loop: batch item k is drawn from offset k * S with its own points and flags. */
  method DrawPointItem(a: array<int>, shape: seq<nat>, pts: Batched<seq<Coord>>, color: Color,
                       flags: Option<Batched<seq<bool>>>, format: string, k: nat, ghost orig: seq<int>) returns (err: Option<DrawError>)
    requires |shape| == 4 && |format| == 4 && k < shape[0] && BatchArgs(shape[0], pts, flags)
    requires PointsFit(ItemPointPlan(shape, pts, flags, format, k))
    requires PointsDrawn(PointPlans(shape, pts, flags, format), Numel(shape[1..]), k, color, a[..], orig)
    modifies a
    ensures err == (if ItemPointPlan(shape, pts, flags, format, k).Err? then Some(ItemPointPlan(shape, pts, flags, format, k).error) else None)
    ensures err.Some? ==> a[..] == orig && err == FirstPointError(shape, pts, flags, format, 0)
    ensures err.None? ==> PointsDrawn(PointPlans(shape, pts, flags, format), Numel(shape[1..]), k + 1, color, a[..], orig)
  {
    var S := Numel(shape[1..]);
    ghost var ps := PointPlans(shape, pts, flags, format);
    ItemRange(k, shape[0], S);
    ghost var before := a[..];
    err := SingleDrawPoint(a, k * S, shape[1..], pts.xs[k], color, ItemFlags(flags, k), format[1..]);
    if err.Some? {
      assert a[..] == before;
      PointItemsBlank(shape, pts, flags, format, k);
      PointsDrawnBlank(ps, S, k, color, a[..], orig);
      FirstErrorSkips(ps, 0, k);
      return;
    }
    ItemPointPlanSize(shape, pts, flags, format, k);
    assert forall j :: 0 <= j < a.Length ==> a[..][j] == PointPixel(ps[k].value, k * S, color, before[j], j);
    PointsDrawnStep(ps, S, k, color, before, a[..], orig);
  }

  /** Lines 93-97: item k of a batch is drawn with its own points and flags and `format[1:]`. */
  method DrawPointBatch(a: array<int>, shape: seq<nat>, pts: Batched<seq<Coord>>, color: Color,
                        flags: Option<Batched<seq<bool>>>, format: string) returns (err: Option<DrawError>)
    requires |shape| == 4 && |format| == 4 && a.Length == Numel(shape) && BatchArgs(shape[0], pts, flags)
    requires BatchPointsFit(shape, pts, flags, format)
    modifies a
    ensures err == FirstPointError(shape, pts, flags, format, 0)
    ensures err.Some? ==> a[..] == old(a[..])
    ensures err.None? ==> forall k, j :: 0 <= k < shape[0] && 0 <= j < a.Length && k * Numel(shape[1..]) <= j < (k + 1) * Numel(shape[1..]) ==>
      a[j] == PointPixel(ItemPointPlan(shape, pts, flags, format, k).value, k * Numel(shape[1..]), color, old(a[j]), j)
  {
    ghost var orig := a[..];
    for k := 0 to shape[0]
      invariant PointsDrawn(PointPlans(shape, pts, flags, format), Numel(shape[1..]), k, color, a[..], orig)
    {
      assert PointsFit(ItemPointPlan(shape, pts, flags, format, k));
      err := DrawPointItem(a, shape, pts, color, flags, format, k, orig);
      if err.Some? {
        return;
      }
    }
    FirstErrorSkips(PointPlans(shape, pts, flags, format), 0, shape[0]);
    err := None;
  }

  /**
   * `draw_point`: draws into a three-dimensional image once, or into each
   * item of a four-dimensional one; any other combination raises. A batch
   * that raises has changed nothing.
   */
  method DrawPoint(a: array<int>, shape: seq<nat>, pts: Batched<seq<Coord>>, color: Color,
                   flags: Option<Batched<seq<bool>>>, format: string) returns (err: Option<DrawError>)
    requires a.Length == Numel(shape) && ArgsFit(shape, format, pts, flags)
    requires |shape| == 3 && |format| == 3 ==>
      PointsFit(PointPlan(shape, pts.x, if flags.Some? then Some(flags.value.x) else None, format))
    requires |shape| == 4 && |format| == 4 ==> BatchPointsFit(shape, pts, flags, format)
    modifies a
    ensures !(|shape| == 3 && |format| == 3) && !(|shape| == 4 && |format| == 4) ==>
      err == Some(InvalidImageDataFormat) && a[..] == old(a[..])
    ensures |shape| == 3 && |format| == 3 ==>
      var plan := PointPlan(shape, pts.x, if flags.Some? then Some(flags.value.x) else None, format);
      && (plan.Err? ==> err == Some(plan.error) && a[..] == old(a[..]))
      && (plan.Ok? ==> err == None && forall j :: 0 <= j < a.Length ==> a[j] == PointPixel(plan.value, 0, color, old(a[j]), j))
    ensures |shape| == 4 && |format| == 4 ==>
      && err == FirstPointError(shape, pts, flags, format, 0)
      && (err.Some? ==> a[..] == old(a[..]))
      && (err.None? ==> forall k, j :: 0 <= k < shape[0] && 0 <= j < a.Length && k * Numel(shape[1..]) <= j < (k + 1) * Numel(shape[1..]) ==>
            a[j] == PointPixel(ItemPointPlan(shape, pts, flags, format, k).value, k * Numel(shape[1..]), color, old(a[j]), j))
  {
    if |shape| == 3 && |format| == 3 {
      err := SingleDrawPoint(a, 0, shape, pts.x, color, if flags.Some? then Some(flags.value.x) else None, format);
    } else if |shape| == 4 && |format| == 4 {
      err := DrawPointBatch(a, shape, pts, color, flags, format);
    } else {
      err := Some(InvalidImageDataFormat);
    }
  }
}
