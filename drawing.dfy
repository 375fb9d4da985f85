/**
 * The depth-tested scanline rasteriser (drawing.py).
 *
 * `draw_triangle` truncates its nine coordinates to integers, sorts the
 * three vertices by y, and fills the triangle one horizontal span per row:
 * the rows from the top vertex to the middle one, then the rows from the
 * middle vertex to the bottom one (the middle row is drawn by both loops).
 * Each span interpolates x and z along the triangle's edges, and
 * `draw_horizontal_line` interpolates z along the span and writes a cell only
 * when the new z is strictly below the depth stored there.
 *
 * The depth buffer is an `array2<real>` indexed [x, y] and the screen an
 * `array2<Color>` of the same shape.  What a triangle does to the buffers is
 * specified cell by cell: `ApplySpans` gives the final depth and colour of
 * one cell from its initial ones and the list of spans drawn.
 */
module Drawing {
  import opened Vectors

  datatype Color = Color(r: int, g: int, b: int)

  /** A vertex after `int()`: pixel coordinates and a truncated depth. */
  datatype Vertex = Vertex(x: int, y: int, z: int)

  /** One call of `draw_horizontal_line`: a row, two x ends and the depths at them. */
  datatype Span = Span(y: int, xStart: int, xEnd: int, zStart: real, zEnd: real)

  /** The contents of one buffer position: its depth and its pixel. */
  datatype Cell = Cell(depth: real, color: Color)

  function Abs(n: int): int
  {
    if n < 0 then -n else n
  }

  /** Python's `int()` on a float: truncation toward zero. */
  function Trunc(r: real): (n: int)
    ensures r >= 0.0 ==> n as real <= r < n as real + 1.0
    ensures r < 0.0 ==> n as real - 1.0 < r <= n as real
  {
    if r >= 0.0 then r.Floor else -((-r).Floor)
  }

  /** Truncation never leaves an interval whose ends are integers. */
  lemma TruncBetween(r: real, lo: int, hi: int)
    requires lo as real <= r <= hi as real
    ensures lo <= Trunc(r) <= hi
  {
  }

  function Min(a: int, b: int): int
  {
    if a < b then a else b
  }

  function Max(a: int, b: int): int
  {
    if a < b then b else a
  }

  /**
   * The three conditional swaps of `draw_triangle`: the vertices in order of
   * y, each keeping its own x and z.
   */
  function SortByY(p: Vertex, q: Vertex, r: Vertex): (s: (Vertex, Vertex, Vertex))
    ensures s.0.y <= s.1.y <= s.2.y
    ensures multiset{s.0, s.1, s.2} == multiset{p, q, r}
  {
    var (a, b) := if q.y < p.y then (q, p) else (p, q);
    var (a', c) := if r.y < a.y then (r, a) else (a, r);
    var (b', c') := if c.y < b.y then (c, b) else (b, c);
    (a', b', c')
  }

  /**
   * The start of `draw_horizontal_line`: the span with its ends swapped, the
   * depths with them, so that it runs from left to right.
   */
  function Ordered(s: Span): (o: Span)
    ensures o.y == s.y && o.xStart <= o.xEnd
    ensures multiset{(o.xStart, o.zStart), (o.xEnd, o.zEnd)} == multiset{(s.xStart, s.zStart), (s.xEnd, s.zEnd)}
  {
    if s.xStart > s.xEnd then Span(s.y, s.xEnd, s.xStart, s.zEnd, s.zStart) else s
  }

  /** The increment of t per pixel: 1 / (x_end - x_start), or the sentinel -1000 for a one-pixel span. */
  function TStep(o: Span): real
  {
    if o.xEnd != o.xStart then 1.0 / (o.xEnd - o.xStart) as real else -1000.0
  }

  /** The depth a left-to-right span interpolates at column x: t has grown by one step per pixel. */
  function DepthAt(o: Span, x: int): real
  {
    var t := (x - o.xStart) as real * TStep(o);
    (1.0 - t) * o.zStart + t * o.zEnd
  }

  /**
   * The interpolation starts at z_start, and ends at z_end when the span has
   * more than one pixel; a one-pixel span, whose step is the sentinel, is
   * tested with z_start.
   */
  lemma DepthAtEnds(o: Span)
    ensures DepthAt(o, o.xStart) == o.zStart
    ensures o.xStart != o.xEnd ==> DepthAt(o, o.xEnd) == o.zEnd
  {
    if o.xStart != o.xEnd {
      var d := (o.xEnd - o.xStart) as real;
      assert d * (1.0 / d) == 1.0;
    }
  }

  /** Inside the span the interpolated depth lies between the two end depths. */
  lemma DepthAtBetween(o: Span, x: int)
    requires o.xStart <= x <= o.xEnd
    ensures o.zStart <= o.zEnd ==> o.zStart <= DepthAt(o, x) <= o.zEnd
    ensures o.zEnd <= o.zStart ==> o.zEnd <= DepthAt(o, x) <= o.zStart
  {
    if o.xStart != o.xEnd {
      var d := (o.xEnd - o.xStart) as real;
      var k := (x - o.xStart) as real;
      var t := k * (1.0 / d);
      assert t == k / d;
      Fraction(k, d);
      assert DepthAt(o, x) == o.zStart + t * (o.zEnd - o.zStart);
      ScaledGap(t, o.zStart, o.zEnd);
    }
  }

  lemma Fraction(k: real, d: real)
    requires 0.0 <= k <= d && d > 0.0
    ensures 0.0 <= k / d <= 1.0
  {
  }

  lemma ScaledGap(t: real, a: real, b: real)
    requires 0.0 <= t <= 1.0
    ensures a <= b ==> 0.0 <= t * (b - a) <= b - a
    ensures b <= a ==> b - a <= t * (b - a) <= 0.0
  {
    var d := if a <= b then b - a else a - b;
    MulNonNegative(t, d);
    MulNonNegative(1.0 - t, d);
    assert t * d + (1.0 - t) * d == d;
    if b < a {
      assert t * (b - a) == -(t * d);
    }
  }

  lemma MulNonNegative(x: real, y: real)
    requires x >= 0.0 && y >= 0.0
    ensures x * y >= 0.0
  {
  }

  /** What one span does to the cell at (x, y): it writes its depth and colour there only when that depth is strictly smaller. */
  function ApplySpan(s: Span, x: int, y: int, cell: Cell, color: Color): (r: Cell)
    ensures r == cell || (r == Cell(DepthAt(Ordered(s), x), color) && r.depth < cell.depth)
    ensures r != cell ==> s.y == y && Ordered(s).xStart <= x <= Ordered(s).xEnd
  {
    var o := Ordered(s);
    if o.y == y && o.xStart <= x <= o.xEnd && DepthAt(o, x) < cell.depth then Cell(DepthAt(o, x), color) else cell
  }

  /** What a list of spans, drawn in order, does to the cell at (x, y). */
  function ApplySpans(spans: seq<Span>, x: int, y: int, cell: Cell, color: Color): Cell
    decreases |spans|
  {
    if spans == [] then cell
    else ApplySpan(spans[|spans| - 1], x, y, ApplySpans(spans[..|spans| - 1], x, y, cell, color), color)
  }

  /**
   * The depth of a cell never increases, and a cell that changes ends up
   * with the drawing colour and a depth strictly below its initial one.
   */
  lemma {:induction false} ApplySpansLowers(spans: seq<Span>, x: int, y: int, cell: Cell, color: Color)
    ensures ApplySpans(spans, x, y, cell, color).depth <= cell.depth
    ensures ApplySpans(spans, x, y, cell, color) == cell
         || (ApplySpans(spans, x, y, cell, color).color == color && ApplySpans(spans, x, y, cell, color).depth < cell.depth)
    decreases |spans|
  {
    if spans != [] {
      ApplySpansLowers(spans[..|spans| - 1], x, y, cell, color);
    }
  }

  /** A cell in a row that no span lies on is left as it was. */
  lemma {:induction false} ApplySpansOtherRows(spans: seq<Span>, x: int, y: int, cell: Cell, color: Color)
    requires forall i | 0 <= i < |spans| :: spans[i].y != y
    ensures ApplySpans(spans, x, y, cell, color) == cell
    decreases |spans|
  {
    if spans != [] {
      ApplySpansOtherRows(spans[..|spans| - 1], x, y, cell, color);
    }
  }

  /** Span `s` lies on row y and covers column x. */
  predicate Covers(s: Span, x: int, y: int)
  {
    s.y == y && Ordered(s).xStart <= x <= Ordered(s).xEnd
  }

  /**
   * The depth a cell ends with is no greater than what any covering span
   * interpolates there: the nearest surface wins.
   */
  lemma {:induction false} ApplySpansNearest(spans: seq<Span>, x: int, y: int, cell: Cell, color: Color)
    ensures forall i | 0 <= i < |spans| && Covers(spans[i], x, y) ::
      ApplySpans(spans, x, y, cell, color).depth <= DepthAt(Ordered(spans[i]), x)
    decreases |spans|
  {
    if spans != [] {
      var init := spans[..|spans| - 1];
      ApplySpansNearest(init, x, y, cell, color);
      var prev := ApplySpans(init, x, y, cell, color);
      var r := ApplySpans(spans, x, y, cell, color);
      assert r.depth <= prev.depth;
      forall i | 0 <= i < |spans| && Covers(spans[i], x, y)
        ensures r.depth <= DepthAt(Ordered(spans[i]), x)
      {
        if i < |spans| - 1 {
          assert spans[i] == init[i];
        }
      }
    }
  }

  /** A cell that changes ends up holding the depth some span interpolates there. */
  lemma {:induction false} ApplySpansFromSpan(spans: seq<Span>, x: int, y: int, cell: Cell, color: Color)
    ensures ApplySpans(spans, x, y, cell, color) != cell ==>
      exists i | 0 <= i < |spans| :: ApplySpans(spans, x, y, cell, color).depth == DepthAt(Ordered(spans[i]), x)
    decreases |spans|
  {
    if spans != [] {
      var init := spans[..|spans| - 1];
      ApplySpansFromSpan(init, x, y, cell, color);
      var prev := ApplySpans(init, x, y, cell, color);
      var r := ApplySpans(spans, x, y, cell, color);
      if r != cell {
        if r != prev {
          assert r.depth == DepthAt(Ordered(spans[|spans| - 1]), x);
        } else {
          var i :| 0 <= i < |init| && prev.depth == DepthAt(Ordered(init[i]), x);
          assert init[i] == spans[i];
        }
      }
    }
  }

  /** `dx / abs(dy)`, or 0 for an edge with no vertical extent. */
  function Step(dx: int, dy: int): real
  {
    if dy != 0 then dx as real / Abs(dy) as real else 0.0
  }

  /** The value k rows past `start`, moving by `step` per row. */
  function Lerp(start: int, k: int, step: real): real
  {
    start as real + k as real * step
  }

  /** `a + k * step` for k between 0 and dy stays between a and b: the interpolation does not overshoot. */
  lemma StepBetween(a: int, b: int, k: int, dy: int)
    requires 0 <= k <= dy
    ensures Min(a, b) as real <= Lerp(a, k, Step(b - a, dy)) <= Max(a, b) as real
  {
    if dy != 0 {
      var t := k as real / dy as real;
      Fraction(k as real, dy as real);
      assert k as real * Step(b - a, dy) == t * (b - a) as real;
      ScaledGap(t, a as real, b as real);
    }
  }

  /** A truncated interpolation from a toward b over dy rows stays between a and b. */
  lemma TruncStepBetween(a: int, b: int, k: int, dy: int)
    requires 0 <= k <= dy
    ensures Min(a, b) <= Trunc(Lerp(a, k, Step(b - a, dy))) <= Max(a, b)
  {
    StepBetween(a, b, k, dy);
    TruncBetween(Lerp(a, k, Step(b - a, dy)), Min(a, b), Max(a, b));
  }

  /** The span of the first loop at row i, for vertices already sorted by y. */
  function UpperSpan(a: Vertex, b: Vertex, c: Vertex, i: int): Span
  {
    Span(i,
         Trunc(Lerp(a.x, i - a.y, Step(b.x - a.x, b.y - a.y))),
         Trunc(Lerp(a.x, i - a.y, Step(c.x - a.x, c.y - a.y))),
         Lerp(a.z, i - a.y, Step(b.z - a.z, b.y - a.y)),
         Lerp(a.z, i - a.y, Step(c.z - a.z, c.y - a.y)))
  }

  /** The span of the second loop at row i, for vertices already sorted by y. */
  function LowerSpan(a: Vertex, b: Vertex, c: Vertex, i: int): Span
  {
    Span(i,
         Trunc(Lerp(b.x, i - b.y, Step(c.x - b.x, c.y - b.y))),
         Trunc(Lerp(a.x, i - a.y, Step(c.x - a.x, c.y - a.y))),
         Lerp(b.z, i - b.y, Step(c.z - b.z, c.y - b.y)),
         Lerp(a.z, i - a.y, Step(c.z - a.z, c.y - a.y)))
  }

  function UpperSpans(a: Vertex, b: Vertex, c: Vertex, n: nat): seq<Span>
  {
    seq(n, k => UpperSpan(a, b, c, a.y + k))
  }

  function LowerSpans(a: Vertex, b: Vertex, c: Vertex, n: nat): seq<Span>
  {
    seq(n, k => LowerSpan(a, b, c, b.y + k))
  }

  /** The spans `draw_triangle` draws, in order: rows y1..y2, then rows y2..y3 of the sorted vertices. */
  function TriangleSpans(p: Vertex, q: Vertex, r: Vertex): seq<Span>
  {
    var s := SortByY(p, q, r);
    SortedSpans(s.0, s.1, s.2)
  }

  /** The spans of a triangle whose vertices are already sorted by y. */
  function SortedSpans(a: Vertex, b: Vertex, c: Vertex): seq<Span>
    requires a.y <= b.y <= c.y
  {
    UpperSpans(a, b, c, b.y - a.y + 1) + LowerSpans(a, b, c, c.y - b.y + 1)
  }

  predicate InBox(v: Vertex, width: int, height: int)
  {
    0 <= v.x < width && 0 <= v.y < height
  }

  /** The rows a list of spans lies on. */
  function RowsOf(spans: seq<Span>): set<int>
  {
    set i | 0 <= i < |spans| :: spans[i].y
  }

  /** Span i of a sorted triangle: an upper span for the first rows, a lower span after them. */
  lemma SortedSpanAt(a: Vertex, b: Vertex, c: Vertex, i: int)
    requires a.y <= b.y <= c.y
    ensures |SortedSpans(a, b, c)| == (b.y - a.y + 1) + (c.y - b.y + 1)
    ensures 0 <= i < b.y - a.y + 1 ==> SortedSpans(a, b, c)[i] == UpperSpan(a, b, c, a.y + i)
    ensures var nu := b.y - a.y + 1;
      nu <= i < |SortedSpans(a, b, c)| ==> SortedSpans(a, b, c)[i] == LowerSpan(a, b, c, b.y + (i - nu))
  {
    var u := UpperSpans(a, b, c, b.y - a.y + 1);
    var l := LowerSpans(a, b, c, c.y - b.y + 1);
    assert SortedSpans(a, b, c) == u + l;
    if 0 <= i < |u| {
      assert (u + l)[i] == u[i];
    } else if |u| <= i < |u| + |l| {
      assert (u + l)[i] == l[i - |u|];
    }
  }

  /** Span i of a triangle, in terms of its vertices sorted by y. */
  lemma TriangleSpanAt(p: Vertex, q: Vertex, r: Vertex, i: int)
    ensures var s := SortByY(p, q, r);
      |TriangleSpans(p, q, r)| == (s.1.y - s.0.y + 1) + (s.2.y - s.1.y + 1)
    ensures var s := SortByY(p, q, r); var nu := s.1.y - s.0.y + 1;
      0 <= i < nu ==> TriangleSpans(p, q, r)[i] == UpperSpan(s.0, s.1, s.2, s.0.y + i)
    ensures var s := SortByY(p, q, r); var nu := s.1.y - s.0.y + 1;
      nu <= i < |TriangleSpans(p, q, r)| ==> TriangleSpans(p, q, r)[i] == LowerSpan(s.0, s.1, s.2, s.1.y + (i - nu))
  {
    var s := SortByY(p, q, r);
    SortedSpanAt(s.0, s.1, s.2, i);
  }

  /** The rows drawn are exactly those from the lowest to the highest vertex y. */
  lemma TriangleRows(p: Vertex, q: Vertex, r: Vertex)
    ensures var s := SortByY(p, q, r);
      forall y :: y in RowsOf(TriangleSpans(p, q, r)) <==> s.0.y <= y <= s.2.y
  {
    var spans, s := TriangleSpans(p, q, r), SortByY(p, q, r);
    var a, b, c := s.0, s.1, s.2;
    var nu := b.y - a.y + 1;
    forall i | 0 <= i < |spans| ensures a.y <= spans[i].y <= c.y {
      TriangleSpanAt(p, q, r, i);
    }
    forall y | a.y <= y <= c.y ensures y in RowsOf(spans) {
      if y <= b.y {
        TriangleSpanAt(p, q, r, y - a.y);
        assert spans[y - a.y].y == y;
      } else {
        TriangleSpanAt(p, q, r, nu + (y - b.y));
        assert spans[nu + (y - b.y)].y == y;
      }
    }
  }

  /** The sorted vertices are the original ones, so they share any box the originals lie in. */
  lemma SortedInBox(p: Vertex, q: Vertex, r: Vertex, width: int, height: int)
    requires InBox(p, width, height) && InBox(q, width, height) && InBox(r, width, height)
    ensures var s := SortByY(p, q, r); InBox(s.0, width, height) && InBox(s.1, width, height) && InBox(s.2, width, height)
  {
    var s := SortByY(p, q, r);
    assert s.0 in multiset{p, q, r} && s.1 in multiset{p, q, r} && s.2 in multiset{p, q, r};
  }

  /** With all three vertices inside a box, every span's row and ends are inside it as well. */
  lemma TriangleSpansInBox(p: Vertex, q: Vertex, r: Vertex, width: int, height: int)
    requires InBox(p, width, height) && InBox(q, width, height) && InBox(r, width, height)
    ensures var spans := TriangleSpans(p, q, r);
      forall i | 0 <= i < |spans| :: 0 <= spans[i].y < height && 0 <= spans[i].xStart < width && 0 <= spans[i].xEnd < width
  {
    var spans, s := TriangleSpans(p, q, r), SortByY(p, q, r);
    var a, b, c := s.0, s.1, s.2;
    var nu := b.y - a.y + 1;
    SortedInBox(p, q, r, width, height);
    forall i | 0 <= i < |spans|
      ensures 0 <= spans[i].y < height && 0 <= spans[i].xStart < width && 0 <= spans[i].xEnd < width
    {
      TriangleSpanAt(p, q, r, i);
      if i < nu {
        UpperSpanInBox(a, b, c, i);
      } else {
        LowerSpanInBox(a, b, c, i - nu);
      }
    }
  }

  lemma UpperSpanInBox(a: Vertex, b: Vertex, c: Vertex, k: int)
    requires a.y <= b.y <= c.y && 0 <= k <= b.y - a.y
    ensures var sp := UpperSpan(a, b, c, a.y + k);
      Min(a.x, Min(b.x, c.x)) <= sp.xStart <= Max(a.x, Max(b.x, c.x))
      && Min(a.x, Min(b.x, c.x)) <= sp.xEnd <= Max(a.x, Max(b.x, c.x))
  {
    TruncStepBetween(a.x, b.x, a.y + k - a.y, b.y - a.y);
    TruncStepBetween(a.x, c.x, a.y + k - a.y, c.y - a.y);
  }

  lemma LowerSpanInBox(a: Vertex, b: Vertex, c: Vertex, k: int)
    requires a.y <= b.y <= c.y && 0 <= k <= c.y - b.y
    ensures var sp := LowerSpan(a, b, c, b.y + k);
      Min(a.x, Min(b.x, c.x)) <= sp.xStart <= Max(a.x, Max(b.x, c.x))
      && Min(a.x, Min(b.x, c.x)) <= sp.xEnd <= Max(a.x, Max(b.x, c.x))
  {
    TruncStepBetween(b.x, c.x, b.y + k - b.y, c.y - b.y);
    TruncStepBetween(a.x, c.x, b.y + k - a.y, c.y - a.y);
  }

  /** Extending a prefix by the next element gives the next prefix. */
  lemma PrefixStep<T>(s: seq<T>, k: int)
    requires 0 <= k < |s|
    ensures s[..k] + [s[k]] == s[..k + 1]
  {
  }

  /** A triangle leaves every cell outside the rows it spans as it was. */
  lemma TriangleKeepsOtherRows(p: Vertex, q: Vertex, r: Vertex, x: int, y: int, cell: Cell, color: Color)
    requires var s := SortByY(p, q, r); y < s.0.y || s.2.y < y
    ensures ApplySpans(TriangleSpans(p, q, r), x, y, cell, color) == cell
  {
    var spans := TriangleSpans(p, q, r);
    TriangleRows(p, q, r);
    forall i | 0 <= i < |spans| ensures spans[i].y != y {
      assert spans[i].y in RowsOf(spans);
    }
    ApplySpansOtherRows(spans, x, y, cell, color);
  }

  /** The whole buffers as cells: depth and pixel at each position. */
  predicate SameShape(depth: array2<real>, pixels: array2<Color>)
  {
    depth.Length0 == pixels.Length0 && depth.Length1 == pixels.Length1
  }

  /**
   * `draw_horizontal_line`: orders the span, then walks it from left to
   * right with t growing by the step, writing depth and colour where the
   * interpolated depth is strictly below the stored one.
   */
  method DrawHorizontalLine(depth: array2<real>, pixels: array2<Color>, y: int,
                            xStart: int, xEnd: int, zStart: real, zEnd: real, color: Color)
    requires SameShape(depth, pixels)
    requires 0 <= y < depth.Length1 && 0 <= xStart < depth.Length0 && 0 <= xEnd < depth.Length0
    modifies depth, pixels
    ensures forall x, yy | 0 <= x < depth.Length0 && 0 <= yy < depth.Length1 ::
      Cell(depth[x, yy], pixels[x, yy])
        == ApplySpan(Span(y, xStart, xEnd, zStart, zEnd), x, yy, Cell(old(depth[x, yy]), old(pixels[x, yy])), color)
  {
    var xs, xe, zs, ze := xStart, xEnd, zStart, zEnd;
    if xs > xe {
      xs, xe := xe, xs;
      zs, ze := ze, zs;
    }
    ghost var o := Span(y, xs, xe, zs, ze);
    assert o == Ordered(Span(y, xStart, xEnd, zStart, zEnd));
    var tStep := if xe != xs then 1.0 / (xe - xs) as real else -1000.0;
    var t := 0.0;
    for x := xs to xe + 1
      invariant t == (x - xs) as real * tStep
      invariant forall x', yy | 0 <= x' < depth.Length0 && 0 <= yy < depth.Length1 ::
        Cell(depth[x', yy], pixels[x', yy])
          == if yy == y && x' < x then ApplySpan(o, x', yy, Cell(old(depth[x', yy]), old(pixels[x', yy])), color)
             else Cell(old(depth[x', yy]), old(pixels[x', yy]))
    {
      var z := (1.0 - t) * zs + t * ze;
      assert z == DepthAt(o, x);
      if z < depth[x, y] {
        pixels[x, y] := color;
        depth[x, y] := z;
      }
      t := t + tStep;
    }
  }

  /** Drawing one more span extends the fold of the spans drawn so far by that span. */
  method DrawSpan(depth: array2<real>, pixels: array2<Color>, ghost drawn: seq<Span>, s: Span, color: Color,
                  ghost d0: seq<seq<real>>, ghost p0: seq<seq<Color>>)
    requires SameShape(depth, pixels)
    requires 0 <= s.y < depth.Length1 && 0 <= s.xStart < depth.Length0 && 0 <= s.xEnd < depth.Length0
    requires |d0| == |p0| == depth.Length0
    requires forall x | 0 <= x < depth.Length0 :: |d0[x]| == |p0[x]| == depth.Length1
    requires forall x, y | 0 <= x < depth.Length0 && 0 <= y < depth.Length1 ::
      Cell(depth[x, y], pixels[x, y]) == ApplySpans(drawn, x, y, Cell(d0[x][y], p0[x][y]), color)
    modifies depth, pixels
    ensures forall x, y | 0 <= x < depth.Length0 && 0 <= y < depth.Length1 ::
      Cell(depth[x, y], pixels[x, y]) == ApplySpans(drawn + [s], x, y, Cell(d0[x][y], p0[x][y]), color)
  {
    DrawHorizontalLine(depth, pixels, s.y, s.xStart, s.xEnd, s.zStart, s.zEnd, color);
    forall x, y | 0 <= x < depth.Length0 && 0 <= y < depth.Length1
      ensures ApplySpans(drawn + [s], x, y, Cell(d0[x][y], p0[x][y]), color)
              == ApplySpan(s, x, y, ApplySpans(drawn, x, y, Cell(d0[x][y], p0[x][y]), color), color)
    {
      assert (drawn + [s])[..|drawn|] == drawn;
    }
  }

  /**
   * `draw_triangle` on vertices already truncated to integers and inside
   * the buffers (numpy would wrap a negative index).  Every cell ends as the
   * spans of `TriangleSpans` leave it.
   */
  method DrawTriangle(depth: array2<real>, pixels: array2<Color>, p: Vertex, q: Vertex, r: Vertex, color: Color)
    requires SameShape(depth, pixels)
    requires InBox(p, depth.Length0, depth.Length1) && InBox(q, depth.Length0, depth.Length1) && InBox(r, depth.Length0, depth.Length1)
    modifies depth, pixels
    ensures forall x, y | 0 <= x < depth.Length0 && 0 <= y < depth.Length1 ::
      Cell(depth[x, y], pixels[x, y])
        == ApplySpans(TriangleSpans(p, q, r), x, y, Cell(old(depth[x, y]), old(pixels[x, y])), color)
  {
    var x1, y1, z1 := p.x, p.y, p.z;
    var x2, y2, z2 := q.x, q.y, q.z;
    var x3, y3, z3 := r.x, r.y, r.z;
    if y2 < y1 {
      y1, y2 := y2, y1;
      x1, x2 := x2, x1;
      z1, z2 := z2, z1;
    }
    if y3 < y1 {
      y1, y3 := y3, y1;
      x1, x3 := x3, x1;
      z1, z3 := z3, z1;
    }
    if y3 < y2 {
      y2, y3 := y3, y2;
      x2, x3 := x3, x2;
      z2, z3 := z3, z2;
    }
    assert (Vertex(x1, y1, z1), Vertex(x2, y2, z2), Vertex(x3, y3, z3)) == SortByY(p, q, r);
    SortedInBox(p, q, r, depth.Length0, depth.Length1);
    DrawSorted(depth, pixels, Vertex(x1, y1, z1), Vertex(x2, y2, z2), Vertex(x3, y3, z3), color);
  }

  /** The contents of a two-dimensional array, row by row. */
  ghost function Snapshot<T>(g: array2<T>): (r: seq<seq<T>>)
    reads g
    ensures |r| == g.Length0 && forall x | 0 <= x < g.Length0 :: |r[x]| == g.Length1
    ensures forall x, y | 0 <= x < g.Length0 && 0 <= y < g.Length1 :: r[x][y] == g[x, y]
  {
    seq(g.Length0, x requires 0 <= x < g.Length0 reads g =>
      seq(g.Length1, y requires 0 <= y < g.Length1 reads g => g[x, y]))
  }

  /** The two loops of `draw_triangle`, after the swaps: rows a.y..b.y, then rows b.y..c.y. */
  method DrawSorted(depth: array2<real>, pixels: array2<Color>, a: Vertex, b: Vertex, c: Vertex, color: Color)
    requires SameShape(depth, pixels) && a.y <= b.y <= c.y
    requires InBox(a, depth.Length0, depth.Length1) && InBox(b, depth.Length0, depth.Length1) && InBox(c, depth.Length0, depth.Length1)
    modifies depth, pixels
    ensures forall x, y | 0 <= x < depth.Length0 && 0 <= y < depth.Length1 ::
      Cell(depth[x, y], pixels[x, y])
        == ApplySpans(SortedSpans(a, b, c), x, y, Cell(old(depth[x, y]), old(pixels[x, y])), color)
  {
    ghost var d0, p0 := Snapshot(depth), Snapshot(pixels);
    var dy2, dx2, dz2 := c.y - a.y, c.x - a.x, c.z - a.z;
    var dbxStep := Step(dx2, dy2);
    var dz2Step := Step(dz2, dy2);
    DrawUpper(depth, pixels, a, b, c, dbxStep, dz2Step, color, d0, p0);
    DrawLower(depth, pixels, a, b, c, dbxStep, dz2Step, color, UpperSpans(a, b, c, b.y - a.y + 1), d0, p0);
  }

  /**
   * The first loop of `draw_triangle`: rows a.y to b.y, between the edge
   * a-b and the long edge a-c, whose steps the caller has computed.
   */
  method DrawUpper(depth: array2<real>, pixels: array2<Color>, a: Vertex, b: Vertex, c: Vertex,
                   dbxStep: real, dz2Step: real, color: Color, ghost d0: seq<seq<real>>, ghost p0: seq<seq<Color>>)
    requires SameShape(depth, pixels) && a.y <= b.y <= c.y
    requires InBox(a, depth.Length0, depth.Length1) && InBox(b, depth.Length0, depth.Length1) && InBox(c, depth.Length0, depth.Length1)
    requires dbxStep == Step(c.x - a.x, c.y - a.y) && dz2Step == Step(c.z - a.z, c.y - a.y)
    requires |d0| == |p0| == depth.Length0
    requires forall x | 0 <= x < depth.Length0 :: |d0[x]| == |p0[x]| == depth.Length1
    requires forall x, y | 0 <= x < depth.Length0 && 0 <= y < depth.Length1 ::
      Cell(depth[x, y], pixels[x, y]) == Cell(d0[x][y], p0[x][y])
    modifies depth, pixels
    ensures forall x, y | 0 <= x < depth.Length0 && 0 <= y < depth.Length1 ::
      Cell(depth[x, y], pixels[x, y]) == ApplySpans(UpperSpans(a, b, c, b.y - a.y + 1), x, y, Cell(d0[x][y], p0[x][y]), color)
  {
    ghost var all := UpperSpans(a, b, c, b.y - a.y + 1);
    var x1, y1, z1 := a.x, a.y, a.z;
    var x2, y2, z2 := b.x, b.y, b.z;
    var dy1, dx1, dz1 := y2 - y1, x2 - x1, z2 - z1;
    var daxStep := Step(dx1, dy1);
    var dz1Step := Step(dz1, dy1);

    ghost var drawn: seq<Span> := [];
    for i := y1 to y2 + 1
      invariant drawn == all[..i - y1]
      invariant forall x, y | 0 <= x < depth.Length0 && 0 <= y < depth.Length1 ::
        Cell(depth[x, y], pixels[x, y]) == ApplySpans(drawn, x, y, Cell(d0[x][y], p0[x][y]), color)
    {
      var ax := Trunc(Lerp(x1, i - y1, daxStep));
      var bx := Trunc(Lerp(x1, i - y1, dbxStep));
      var zs := Lerp(z1, i - y1, dz1Step);
      var ze := Lerp(z1, i - y1, dz2Step);
      UpperSpanInBox(a, b, c, i - y1);
      assert Span(i, ax, bx, zs, ze) == UpperSpan(a, b, c, i) == all[i - y1];
      DrawSpan(depth, pixels, drawn, Span(i, ax, bx, zs, ze), color, d0, p0);
      PrefixStep(all, i - y1);
      drawn := drawn + [all[i - y1]];
    }
    assert drawn == all;
  }

  /**
   * The second loop of `draw_triangle`: rows b.y to c.y, between the edge
   * b-c and the long edge a-c, drawn over what the first loop left.
   */
  method DrawLower(depth: array2<real>, pixels: array2<Color>, a: Vertex, b: Vertex, c: Vertex,
                   dbxStep: real, dz2Step: real, color: Color,
                   ghost before: seq<Span>, ghost d0: seq<seq<real>>, ghost p0: seq<seq<Color>>)
    requires SameShape(depth, pixels) && a.y <= b.y <= c.y
    requires InBox(a, depth.Length0, depth.Length1) && InBox(b, depth.Length0, depth.Length1) && InBox(c, depth.Length0, depth.Length1)
    requires dbxStep == Step(c.x - a.x, c.y - a.y) && dz2Step == Step(c.z - a.z, c.y - a.y)
    requires |d0| == |p0| == depth.Length0
    requires forall x | 0 <= x < depth.Length0 :: |d0[x]| == |p0[x]| == depth.Length1
    requires forall x, y | 0 <= x < depth.Length0 && 0 <= y < depth.Length1 ::
      Cell(depth[x, y], pixels[x, y]) == ApplySpans(before, x, y, Cell(d0[x][y], p0[x][y]), color)
    modifies depth, pixels
    ensures forall x, y | 0 <= x < depth.Length0 && 0 <= y < depth.Length1 ::
      Cell(depth[x, y], pixels[x, y])
        == ApplySpans(before + LowerSpans(a, b, c, c.y - b.y + 1), x, y, Cell(d0[x][y], p0[x][y]), color)
  {
    ghost var all := before + LowerSpans(a, b, c, c.y - b.y + 1);
    ghost var nu := |before|;
    var x1, y1, z1 := a.x, a.y, a.z;
    var x2, y2, z2 := b.x, b.y, b.z;
    var x3, y3, z3 := c.x, c.y, c.z;
    var dy1, dx1, dz1 := y3 - y2, x3 - x2, z3 - z2;
    var daxStep := Step(dx1, dy1);
    var dz1Step := Step(dz1, dy1);

    ghost var drawn := before;
    assert drawn == all[..nu];
    for i := y2 to y3 + 1
      invariant drawn == all[..nu + (i - y2)]
      invariant forall x, y | 0 <= x < depth.Length0 && 0 <= y < depth.Length1 ::
        Cell(depth[x, y], pixels[x, y]) == ApplySpans(drawn, x, y, Cell(d0[x][y], p0[x][y]), color)
    {
      var ax := Trunc(Lerp(x2, i - y2, daxStep));
      var bx := Trunc(Lerp(x1, i - y1, dbxStep));
      var zs := Lerp(z2, i - y2, dz1Step);
      var ze := Lerp(z1, i - y1, dz2Step);
      LowerSpanInBox(a, b, c, i - y2);
      assert Span(i, ax, bx, zs, ze) == LowerSpan(a, b, c, i) == all[nu + (i - y2)];
      DrawSpan(depth, pixels, drawn, Span(i, ax, bx, zs, ze), color, d0, p0);
      PrefixStep(all, nu + (i - y2));
      drawn := drawn + [all[nu + (i - y2)]];
    }
    assert drawn == all;
  }

  /** The NDC-to-pixel mapping of `draw_shape`: (c + 1) * dim / 2. */
  function ToScreen(c: real, dim: int): (r: real)
    ensures -1.0 <= c <= 1.0 && dim >= 0 ==> 0.0 <= r <= dim as real
  {
    ScreenRange(c, dim);
    (c + 1.0) * dim as real / 2.0
  }

  lemma ScreenRange(c: real, dim: int)
    ensures -1.0 <= c <= 1.0 && dim >= 0 ==> 0.0 <= (c + 1.0) * dim as real / 2.0 <= dim as real
  {
    if -1.0 <= c <= 1.0 && dim >= 0 {
      assert (c + 1.0) * dim as real <= 2.0 * dim as real;
    }
  }

  /** A screen coordinate of a point with NDC coordinate in [-1, 1] truncates into [0, dim]. */
  lemma TruncScreen(c: real, dim: int)
    ensures -1.0 <= c <= 1.0 && dim >= 0 ==> 0 <= Trunc(ToScreen(c, dim)) <= dim
  {
    if -1.0 <= c <= 1.0 && dim >= 0 {
      TruncBetween(ToScreen(c, dim), 0, dim);
    }
  }

  /** A projected point as `draw_triangle` sees it: x and y on the screen, truncated; the depth is w, truncated. */
  function ScreenVertex(v: Vec4, width: int, height: int): (s: Vertex)
    ensures -1.0 <= v.x <= 1.0 && -1.0 <= v.y <= 1.0 && width >= 0 && height >= 0 ==>
      0 <= s.x <= width && 0 <= s.y <= height
  {
    TruncScreen(v.x, width);
    TruncScreen(v.y, height);
    Vertex(Trunc(ToScreen(v.x, width)), Trunc(ToScreen(v.y, height)), Trunc(v.w))
  }

  /**
   * One triangle of `draw_shape`: maps the three projected points to the
   * screen and draws them.  The depth buffer is one larger than the screen
   * in each direction, so points with x and y in [-1, 1] always fall inside.
   */
  method DrawShapeTriangle(depth: array2<real>, pixels: array2<Color>, width: int, height: int,
                           p0: Vec4, p1: Vec4, p2: Vec4, color: Color)
    requires SameShape(depth, pixels)
    requires width >= 0 && height >= 0 && depth.Length0 == width + 1 && depth.Length1 == height + 1
    requires -1.0 <= p0.x <= 1.0 && -1.0 <= p0.y <= 1.0
    requires -1.0 <= p1.x <= 1.0 && -1.0 <= p1.y <= 1.0
    requires -1.0 <= p2.x <= 1.0 && -1.0 <= p2.y <= 1.0
    modifies depth, pixels
    ensures forall x, y | 0 <= x < depth.Length0 && 0 <= y < depth.Length1 ::
      Cell(depth[x, y], pixels[x, y])
        == ApplySpans(TriangleSpans(ScreenVertex(p0, width, height), ScreenVertex(p1, width, height), ScreenVertex(p2, width, height)),
                      x, y, Cell(old(depth[x, y]), old(pixels[x, y])), color)
  {
    var a := ScreenVertex(p0, width, height);
    var b := ScreenVertex(p1, width, height);
    var c := ScreenVertex(p2, width, height);
    DrawTriangle(depth, pixels, a, b, c, color);
  }
}
