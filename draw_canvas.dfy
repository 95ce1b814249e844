/**
 * The Paint app's pixel buffer (src/apps/Draw/Draw.tsx): the RGBA byte
 * layout of an ImageData, reading and writing one pixel, and the
 * stack-driven 4-connected flood fill of the bucket tool.
 */
module DrawCanvas {
  import opened Wrappers
  import opened DrawColor

  type Point = (int, int)

  // ===========================================================================
  // Pixel layout
  // ===========================================================================

  /** The first of the four bytes of pixel (x, y) in a row-major RGBA buffer. */
  function PixelIndex(x: int, y: int, width: int): int {
    (y * width + x) * 4
  }

  /** The pixel whose group holds byte i. */
  function PixelOf(i: int, width: int): Point {
    if width <= 0 then (-1, -1) else ((i / 4) % width, (i / 4) / width)
  }

  predicate InCanvas(p: Point, width: int, height: int) {
    0 <= p.0 < width && 0 <= p.1 < height
  }

  lemma {:induction false} MulAtLeast(a: int, d: int)
    requires 1 <= a && 0 < d
    ensures d <= a * d
    decreases a
  {
    if a > 1 {
      MulAtLeast(a - 1, d);
      assert a * d == (a - 1) * d + d;
    }
  }

  /** Euclidean division has one quotient and one remainder. */
  lemma DivModUnique(n: int, d: int, q: int, r: int)
    requires 0 < d && 0 <= r < d && n == q * d + r
    ensures n / d == q && n % d == r
  {
    var q', r' := n / d, n % d;
    assert n == q' * d + r';
    if q > q' {
      MulAtLeast(q - q', d);
    } else if q < q' {
      MulAtLeast(q' - q, d);
    }
  }

  /** The row-major offset of an in-canvas pixel is below width * height. */
  lemma OffsetBelowArea(x: int, y: int, width: int, height: int)
    requires InCanvas((x, y), width, height)
    ensures 0 <= y * width + x < width * height
  {
    if y < height - 1 {
      MulAtLeast(height - 1 - y, width);
    }
    assert (height - 1 - y) * width == height * width - y * width - width;
  }

  /**
   * An in-canvas pixel owns the four bytes from PixelIndex: they lie inside
   * a buffer of 4 * width * height bytes, and they are exactly the bytes
   * PixelOf maps back to that pixel, channel i % 4.
   */
  lemma PixelGroup(x: int, y: int, width: int, height: int, i: int)
    requires InCanvas((x, y), width, height) && 0 <= i
    ensures 0 <= PixelIndex(x, y, width) && PixelIndex(x, y, width) + 4 <= 4 * width * height
    ensures PixelIndex(x, y, width) <= i < PixelIndex(x, y, width) + 4 <==> PixelOf(i, width) == (x, y)
    ensures PixelIndex(x, y, width) <= i < PixelIndex(x, y, width) + 4 ==> i - PixelIndex(x, y, width) == i % 4
  {
    var n := y * width + x;
    OffsetBelowArea(x, y, width, height);
    DivModUnique(i, 4, i / 4, i % 4);
    if 4 * n <= i < 4 * n + 4 {
      DivModUnique(i, 4, n, i - 4 * n);
      DivModUnique(n, width, y, x);
    }
    if PixelOf(i, width) == (x, y) {
      assert i / 4 == (i / 4) / width * width + (i / 4) % width;
    }
  }

  /** Distinct in-canvas pixels own disjoint byte groups. */
  lemma PixelGroupsDisjoint(p: Point, q: Point, width: int, height: int, i: int)
    requires InCanvas(p, width, height) && InCanvas(q, width, height) && p != q
    requires PixelIndex(p.0, p.1, width) <= i < PixelIndex(p.0, p.1, width) + 4
    ensures !(PixelIndex(q.0, q.1, width) <= i < PixelIndex(q.0, q.1, width) + 4)
  {
    PixelGroup(p.0, p.1, width, height, i);
    PixelGroup(q.0, q.1, width, height, i);
  }

  // ===========================================================================
  // getPixelColor / setPixelColor
  // ===========================================================================

  /**
   * getPixelColor: the four channels at PixelIndex, or None where the index
   * is outside the buffer (the reads give `undefined` there).
   */
  function GetPixelColor(data: seq<Byte>, x: int, y: int, width: int): (c: Option<Rgba>)
    ensures c.Some? <==> 0 <= PixelIndex(x, y, width) && PixelIndex(x, y, width) + 4 <= |data|
  {
    var index := PixelIndex(x, y, width);
    if 0 <= index && index + 4 <= |data| then
      Some(Rgba(data[index], data[index + 1], data[index + 2], data[index + 3]))
    else None
  }

  /** Every in-canvas pixel of a full image buffer can be read. */
  lemma InCanvasIsReadable(data: seq<Byte>, p: Point, width: int, height: int)
    requires |data| == 4 * width * height && InCanvas(p, width, height)
    ensures GetPixelColor(data, p.0, p.1, width).Some?
  {
    PixelGroup(p.0, p.1, width, height, 0);
  }

  /** A Uint8ClampedArray stores an assigned number rounded into 0..255. */
  function Clamp(v: int): (b: Byte)
    ensures 0 <= v < 256 ==> b == v
    ensures v < 0 ==> b == 0
    ensures 256 <= v ==> b == 255
  {
    if v < 0 then 0 else if v > 255 then 255 else v
  }

  /** Channel k of an opaque pixel painted with c. */
  function FillByte(c: Rgb, k: int): Byte {
    if k == 0 then Clamp(c.r) else if k == 1 then Clamp(c.g) else if k == 2 then Clamp(c.b) else 255
  }

  /** Byte i of a buffer after the four bytes from index are painted with c. */
  function WrittenByte(buffer: seq<Byte>, index: int, c: Rgb, i: int): Byte
    requires 0 <= i < |buffer|
  {
    if index <= i < index + 4 then FillByte(c, i - index) else buffer[i]
  }

  /** A buffer after the four bytes from index are painted with c, writes outside the buffer dropped. */
  function Written(buffer: seq<Byte>, index: int, c: Rgb): (after: seq<Byte>)
    ensures |after| == |buffer|
    ensures forall i | 0 <= i < |buffer| :: after[i] == WrittenByte(buffer, index, c, i)
  {
    seq(|buffer|, i requires 0 <= i < |buffer| => WrittenByte(buffer, index, c, i))
  }

  /** Two buffers agreeing byte for byte with a write are that write. */
  lemma WrittenExt(before: seq<Byte>, after: seq<Byte>, index: int, c: Rgb)
    requires |after| == |before|
    requires forall i | 0 <= i < |after| :: after[i] == WrittenByte(before, index, c, i)
    ensures after == Written(before, index, c)
  {
  }

  /**
   * setPixelColor: the four bytes from PixelIndex become the colour with
   * alpha 255; a write outside the buffer is dropped, as a typed array does,
   * and no other byte changes.
   */
  method SetPixelColor(data: array<Byte>, x: int, y: int, width: int, c: Rgb)
    modifies data
    ensures data[..] == Written(old(data[..]), PixelIndex(x, y, width), c)
  {
    var index := (y * width + x) * 4;
    if 0 <= index < data.Length { data[index] := Clamp(c.r); }
    if 0 <= index + 1 < data.Length { data[index + 1] := Clamp(c.g); }
    if 0 <= index + 2 < data.Length { data[index + 2] := Clamp(c.b); }
    if 0 <= index + 3 < data.Length { data[index + 3] := 255; }
    WrittenExt(old(data[..]), data[..], index, c);
  }

  // ===========================================================================
  // floodFill
  // ===========================================================================

  /** The four points the fill pushes after painting p. */
  function Neighbours(p: Point): set<Point> {
    {(p.0 + 1, p.1), (p.0 - 1, p.1), (p.0, p.1 + 1), (p.0, p.1 - 1)}
  }

  /** An in-canvas pixel of the image whose RGB is t. */
  predicate Fillable(image: seq<Byte>, width: int, height: int, t: Rgb, p: Point) {
    InCanvas(p, width, height)
    && var c := GetPixelColor(image, p.0, p.1, width);
    c.Some? && ColorsMatch(c.value, t)
  }

  /** All pixels of the image whose RGB is t. */
  ghost function Matching(image: seq<Byte>, width: int, height: int, t: Rgb): (region: set<Point>)
    ensures forall p :: p in region <==> Fillable(image, width, height, t, p)
  {
    set px: int, py: int | 0 <= px < width && 0 <= py < height && Fillable(image, width, height, t, (px, py)) :: (px, py)
  }

  /** A 4-connected walk inside region. */
  ghost predicate IsPath(region: set<Point>, path: seq<Point>) {
    && |path| > 0
    && (forall k | 0 <= k < |path| :: path[k] in region)
    && (forall k | 0 <= k < |path| - 1 :: path[k + 1] in Neighbours(path[k]))
  }

  /** p can be reached from s by a 4-connected walk inside region. */
  ghost predicate Connected(region: set<Point>, s: Point, p: Point) {
    exists path :: IsPath(region, path) && path[0] == s && path[|path| - 1] == p
  }

  /**
   * The pixels a bucket fill at (x, y) with colour fill repaints: nothing
   * when the start is off the canvas or already has the fill's RGB, and
   * otherwise the 4-connected region of the start pixel's RGB around it.
   */
  ghost predicate Recoloured(image: seq<Byte>, width: int, height: int, x: int, y: int, fill: Rgb, p: Point) {
    && InCanvas((x, y), width, height)
    && var target := GetPixelColor(image, x, y, width);
    && target.Some?
    && RgbOf(target.value) != fill
    && Connected(Matching(image, width, height, RgbOf(target.value)), (x, y), p)
  }

  lemma ConnectedToSelf(region: set<Point>, s: Point)
    requires s in region
    ensures Connected(region, s, s)
  {
    assert IsPath(region, [s]);
  }

  /** A walk extended by one more neighbour inside the region is a walk. */
  lemma ExtendComponent(region: set<Point>, s: Point, q: Point, p: Point)
    requires Connected(region, s, q)
    requires p in Neighbours(q) && p in region
    ensures Connected(region, s, p)
  {
    var path :| IsPath(region, path) && path[0] == s && path[|path| - 1] == q;
    assert IsPath(region, path + [p]);
  }

  /** A set closed under neighbours inside region holds every walk that starts in it. */
  lemma {:induction false} ClosedHoldsPath(region: set<Point>, closed: set<Point>, path: seq<Point>)
    requires IsPath(region, path) && path[0] in closed
    requires forall v, q | v in closed && q in Neighbours(v) && q in region :: q in closed
    ensures path[|path| - 1] in closed
    decreases |path|
  {
    if |path| > 1 {
      var prefix := path[..|path| - 1];
      assert IsPath(region, prefix);
      ClosedHoldsPath(region, closed, prefix);
      assert path[|path| - 1] in Neighbours(prefix[|prefix| - 1]);
    }
  }

  /**
   * Only pixels that had the target RGB are repainted, the start pixel is
   * repainted whenever anything is, and the repainted region is closed under
   * target-coloured neighbours (it is a whole component, not part of one).
   */
  lemma {:induction false} RecolouredIsRegion(image: seq<Byte>, width: int, height: int, x: int, y: int, fill: Rgb, p: Point)
    requires Recoloured(image, width, height, x, y, fill, p)
    ensures var t := RgbOf(GetPixelColor(image, x, y, width).value);
            && Fillable(image, width, height, t, p)
            && t != fill
            && Recoloured(image, width, height, x, y, fill, (x, y))
            && forall q | q in Neighbours(p) && Fillable(image, width, height, t, q) :: Recoloured(image, width, height, x, y, fill, q)
  {
    var t := RgbOf(GetPixelColor(image, x, y, width).value);
    var region := Matching(image, width, height, t);
    var path :| IsPath(region, path) && path[0] == (x, y) && path[|path| - 1] == p;
    assert path[|path| - 1] in region;
    ConnectedToSelf(region, (x, y));
    forall q | q in Neighbours(p) && Fillable(image, width, height, t, q)
      ensures Recoloured(image, width, height, x, y, fill, q)
    {
      ExtendComponent(region, (x, y), p, q);
    }
  }

  /** Every in-canvas point, the bound on what the fill can visit. */
  function AllCells(width: int, height: int): set<Point> {
    set px: int, py: int | 0 <= px < width && 0 <= py < height :: (px, py)
  }

  /** The buffer holds the fill on the pixels of painted and the original image elsewhere. */
  predicate Painted(buffer: seq<Byte>, image: seq<Byte>, width: int, painted: set<Point>, fill: Rgb) {
    && |buffer| == |image|
    && forall i | 0 <= i < |buffer| ::
         buffer[i] == if PixelOf(i, width) in painted then FillByte(fill, i % 4) else image[i]
  }

  /** A pixel the fill has not painted still reads its original colour. */
  lemma UnpaintedReadsOriginal(buffer: seq<Byte>, image: seq<Byte>, width: int, height: int, painted: set<Point>, fill: Rgb, p: Point)
    requires |image| == 4 * width * height && Painted(buffer, image, width, painted, fill)
    requires InCanvas(p, width, height) && p !in painted
    ensures GetPixelColor(buffer, p.0, p.1, width) == GetPixelColor(image, p.0, p.1, width)
  {
    var index := PixelIndex(p.0, p.1, width);
    PixelGroup(p.0, p.1, width, height, index);
    PixelGroup(p.0, p.1, width, height, index + 1);
    PixelGroup(p.0, p.1, width, height, index + 2);
    PixelGroup(p.0, p.1, width, height, index + 3);
  }

  /** Painting one more in-canvas pixel with setPixelColor extends the painted set by it. */
  lemma PaintOne(before: seq<Byte>, image: seq<Byte>, width: int, height: int, painted: set<Point>, fill: Rgb, p: Point)
    requires |image| == 4 * width * height && Painted(before, image, width, painted, fill)
    requires InCanvas(p, width, height)
    ensures Painted(Written(before, PixelIndex(p.0, p.1, width), fill), image, width, painted + {p}, fill)
  {
    var after := Written(before, PixelIndex(p.0, p.1, width), fill);
    forall i | 0 <= i < |after|
      ensures after[i] == if PixelOf(i, width) in painted + {p} then FillByte(fill, i % 4) else image[i]
    {
      PixelGroup(p.0, p.1, width, height, i);
    }
  }

  /** The RGB the fill matches against; no byte is negative, so a missing target matches nothing. */
  function TargetRgb(image: seq<Byte>, x: int, y: int, width: int): (t: Rgb)
    ensures t.r < 0 <==> GetPixelColor(image, x, y, width).None?
  {
    var target := GetPixelColor(image, x, y, width);
    if target.Some? then RgbOf(target.value) else Rgb(-1, -1, -1)
  }

  /**
   * Once the fill is under way (it did not return early), the pixels to
   * repaint are exactly those connected to the start through pixels of the
   * target RGB.
   */
  lemma RecolouredIsConnected(image: seq<Byte>, width: int, height: int, x: int, y: int, fill: Rgb, p: Point)
    requires |image| == 4 * width * height
    requires var target := GetPixelColor(image, x, y, width); !(target.Some? && ColorsMatch(target.value, fill))
    ensures Recoloured(image, width, height, x, y, fill, p)
            <==> Connected(Matching(image, width, height, TargetRgb(image, x, y, width)), (x, y), p)
  {
    var region := Matching(image, width, height, TargetRgb(image, x, y, width));
    if Connected(region, (x, y), p) {
      var path :| IsPath(region, path) && path[0] == (x, y) && path[|path| - 1] == p;
      assert (x, y) in region;
    }
  }

  /**
   * What the fill loop keeps about its stack and visited set, over the
   * region of target-coloured pixels: every visited point, and every stacked
   * point in the region, is connected to the start; and no region neighbour
   * of a visited point (nor the start) has been lost.
   */
  ghost predicate Frontier(region: set<Point>, s: Point, stack: seq<Point>, visited: set<Point>) {
    && (forall v | v in visited :: Connected(region, s, v))
    && (forall k | 0 <= k < |stack| && stack[k] in region :: Connected(region, s, stack[k]))
    && (forall v, q | v in visited && q in Neighbours(v) && q in region :: q in visited || q in stack)
    && (s in region ==> s in visited || s in stack)
  }

  /** The fill starts with only the start point on the stack. */
  lemma FrontierStart(region: set<Point>, s: Point)
    ensures Frontier(region, s, [s], {})
  {
    if s in region {
      ConnectedToSelf(region, s);
    }
  }

  /** Popping a point the fill skips (already visited, or outside the region) keeps the frontier. */
  lemma FrontierSkip(region: set<Point>, s: Point, stack: seq<Point>, visited: set<Point>)
    requires |stack| > 0 && Frontier(region, s, stack, visited)
    requires stack[|stack| - 1] in visited || stack[|stack| - 1] !in region
    ensures Frontier(region, s, stack[..|stack| - 1], visited)
  {
    var rest := stack[..|stack| - 1];
    forall q | q in stack && q != stack[|stack| - 1]
      ensures q in rest
    {
      var k :| 0 <= k < |stack| && stack[k] == q;
    }
  }

  /**
   * Visiting a popped point of the region: marking it visited and pushing
   * its four neighbours keeps the frontier.
   */
  lemma FrontierVisit(region: set<Point>, s: Point, stack: seq<Point>, visited: set<Point>)
    requires |stack| > 0 && Frontier(region, s, stack, visited)
    requires stack[|stack| - 1] in region
    ensures var p := stack[|stack| - 1];
            Frontier(region, s, stack[..|stack| - 1] + [(p.0 + 1, p.1), (p.0 - 1, p.1), (p.0, p.1 + 1), (p.0, p.1 - 1)],
                     visited + {p})
  {
    var p := stack[|stack| - 1];
    var rest := stack[..|stack| - 1];
    var pushed := [(p.0 + 1, p.1), (p.0 - 1, p.1), (p.0, p.1 + 1), (p.0, p.1 - 1)];
    var stack' := rest + pushed;
    var visited' := visited + {p};
    assert Connected(region, s, p);
    forall q | q in stack && q != p
      ensures q in stack'
    {
      var k :| 0 <= k < |stack| && stack[k] == q;
      assert stack'[k] == q;
    }
    forall k | 0 <= k < |stack'| && stack'[k] in region
      ensures Connected(region, s, stack'[k])
    {
      if k < |rest| {
        assert stack'[k] == stack[k];
      } else {
        assert stack'[k] == pushed[k - |rest|];
        ExtendComponent(region, s, p, stack'[k]);
      }
    }
    forall v, q | v in visited' && q in Neighbours(v) && q in region
      ensures q in visited' || q in stack'
    {
      if v == p {
        assert q in pushed;
      } else {
        assert q in visited || q in stack;
      }
    }
  }

  /** With the stack empty, the visited set holds every point connected to the start. */
  lemma FrontierDone(region: set<Point>, s: Point, visited: set<Point>, p: Point)
    requires Frontier(region, s, [], visited)
    requires Connected(region, s, p)
    ensures p in visited
  {
    var path :| IsPath(region, path) && path[0] == s && path[|path| - 1] == p;
    ClosedHoldsPath(region, visited, path);
  }

  /**
   * One pass of the fill loop: pop the top point and, when it is an
   * unvisited in-canvas pixel that still has the target colour, mark it
   * visited, paint it and push its four neighbours.
   */
  method FillStep(data: array<Byte>, ghost image: seq<Byte>, ghost region: set<Point>, width: int, height: int,
                  x: int, y: int, target: Option<Rgba>, fill: Rgb, stack: seq<Point>, visited: set<Point>)
    returns (stack': seq<Point>, visited': set<Point>)
    requires 0 <= width && 0 <= height && |image| == data.Length == 4 * width * height
    requires target == GetPixelColor(image, x, y, width)
    requires region == Matching(image, width, height, TargetRgb(image, x, y, width))
    requires |stack| > 0
    requires Frontier(region, (x, y), stack, visited)
    requires Painted(data[..], image, width, visited, fill)
    modifies data
    ensures Frontier(region, (x, y), stack', visited')
    ensures Painted(data[..], image, width, visited', fill)
    ensures (visited' == visited && |stack'| < |stack|)
            || (|AllCells(width, height) - visited'| < |AllCells(width, height) - visited|)
  {
    var point := stack[|stack| - 1];
    if point in visited {
      FrontierSkip(region, (x, y), stack, visited);
      return stack[..|stack| - 1], visited;
    }
    if point.0 < 0 || point.0 >= width || point.1 < 0 || point.1 >= height {
      FrontierSkip(region, (x, y), stack, visited);
      return stack[..|stack| - 1], visited;
    }
    var current := GetPixelColor(data[..], point.0, point.1, width);
    UnpaintedReadsOriginal(data[..], image, width, height, visited, fill, point);
    // colorsMatch(currentColor, targetColor) fails when the target was read outside the buffer.
    if !(current.Some? && target.Some? && ColorsMatch(current.value, RgbOf(target.value))) {
      FrontierSkip(region, (x, y), stack, visited);
      return stack[..|stack| - 1], visited;
    }
    assert point in region;
    FrontierVisit(region, (x, y), stack, visited);
    stack', visited' := Visit(data, image, width, height, fill, stack, visited);
  }

  /** The visiting half of a fill step: paint the popped in-canvas point, mark it visited, push its neighbours. */
  method Visit(data: array<Byte>, ghost image: seq<Byte>, width: int, height: int,
               fill: Rgb, stack: seq<Point>, visited: set<Point>)
    returns (stack': seq<Point>, visited': set<Point>)
    requires 0 <= width && 0 <= height && |image| == data.Length == 4 * width * height
    requires |stack| > 0 && stack[|stack| - 1] !in visited
    requires InCanvas(stack[|stack| - 1], width, height)
    requires Painted(data[..], image, width, visited, fill)
    modifies data
    ensures Painted(data[..], image, width, visited', fill)
    ensures visited' == visited + {stack[|stack| - 1]}
    ensures stack' == stack[..|stack| - 1] + [(stack[|stack| - 1].0 + 1, stack[|stack| - 1].1), (stack[|stack| - 1].0 - 1, stack[|stack| - 1].1),
                                             (stack[|stack| - 1].0, stack[|stack| - 1].1 + 1), (stack[|stack| - 1].0, stack[|stack| - 1].1 - 1)]
    ensures |AllCells(width, height) - visited'| < |AllCells(width, height) - visited|
  {
    var point := stack[|stack| - 1];
    assert point in AllCells(width, height);
    assert (AllCells(width, height) - (visited + {point})) == (AllCells(width, height) - visited) - {point};
    ghost var before := data[..];
    SetPixelColor(data, point.0, point.1, width, fill);
    PaintOne(before, image, width, height, visited, fill, point);
    visited' := visited + {point};
    stack' := stack[..|stack| - 1] + [(point.0 + 1, point.1), (point.0 - 1, point.1), (point.0, point.1 + 1), (point.0, point.1 - 1)];
  }

  /**
   * floodFill at (x, y) with the colour string `color`: afterwards exactly the
   * pixels of the start pixel's 4-connected same-RGB region carry the fill's
   * RGB with alpha 255, and every other byte is as before.
   */
  method FloodFill(data: array<Byte>, width: int, height: int, x: int, y: int, color: string)
    requires 0 <= width && 0 <= height && data.Length == 4 * width * height
    modifies data
    ensures forall i | 0 <= i < data.Length ::
      data[i] == if Recoloured(old(data[..]), width, height, x, y, HexToRgb(color), PixelOf(i, width))
                 then FillByte(HexToRgb(color), i % 4) else old(data[i])
    ensures !InCanvas((x, y), width, height) ==> data[..] == old(data[..])
    ensures (var target := GetPixelColor(old(data[..]), x, y, width);
             target.Some? && ColorsMatch(target.value, HexToRgb(color))) ==> data[..] == old(data[..])
  {
    ghost var image := data[..];
    var target := GetPixelColor(data[..], x, y, width);
    var fill := HexToRgb(color);
    if target.Some? && ColorsMatch(target.value, fill) {
      return;
    }
    ghost var region := Matching(image, width, height, TargetRgb(image, x, y, width));
    var stack: seq<Point> := [(x, y)];
    var visited: set<Point> := {};
    FrontierStart(region, (x, y));
    while |stack| > 0
      invariant Frontier(region, (x, y), stack, visited)
      invariant Painted(data[..], image, width, visited, fill)
      decreases |AllCells(width, height) - visited|, |stack|
    {
      stack, visited := FillStep(data, image, region, width, height, x, y, target, fill, stack, visited);
    }
    forall p | Recoloured(image, width, height, x, y, fill, p)
      ensures p in visited
    {
      RecolouredIsConnected(image, width, height, x, y, fill, p);
      FrontierDone(region, (x, y), visited, p);
    }
    forall p | p in visited
      ensures Recoloured(image, width, height, x, y, fill, p)
    {
      RecolouredIsConnected(image, width, height, x, y, fill, p);
    }
  }
}
