/**
 * Target point sets of the morphing animation: the generators behind
 * `getShapePoints` and the 5 x 7 letter bitmaps of `getLetterPatterns`
 * (js/main.js).
 *
 * The grid and the text are modelled point by point. The silhouette,
 * kidney, galaxy and scattered shapes are built from trigonometry and
 * Math.random; their points come from a `Sampler` parameter, and only how
 * many points they produce, and in which loop, is modelled.
 */
module Geometry {

  /** A point on the canvas, in pixels. */
  datatype Point = Point(x: real, y: real)

  /** The cases of `getShapePoints`. */
  datatype Shape = Grid | Pregnant | Kidney | Galaxy | Text | Scattered

  /** The animation's shape sequence, in order (`this.shapes`). */
  const Shapes: seq<Shape> := [Grid, Pregnant, Kidney, Galaxy, Text]

  /** The point that a trigonometric shape's loop pushes at output position i
      (its Math.cos/Math.sin/Math.log/Math.random arithmetic, not modelled). */
  type Sampler = (Shape, nat) -> Point

  /** The two Math.random() values (each in [0, 1)) drawn for text point i. */
  type Jitter = nat -> Point

  // ---------------------------------------------------------------------
  // Grid
  // ---------------------------------------------------------------------

  /** The column count Math.ceil(Math.sqrt(n)): the least c with n <= c * c. */
  function CeilSqrt(n: nat): (c: nat)
    ensures n <= c * c
    ensures c > 0 ==> (c - 1) * (c - 1) < n
  {
    CeilSqrtFrom(n, 0)
  }

  /** Searches upward from c, every smaller candidate being too small. */
  function CeilSqrtFrom(n: nat, c: nat): (r: nat)
    requires c > 0 ==> (c - 1) * (c - 1) < n
    ensures n <= r * r
    ensures r > 0 ==> (r - 1) * (r - 1) < n
    decreases n - c
  {
    if n <= c * c then c
    else
      LeSquare(c);
      var d := c + 1;
      assert (d - 1) * (d - 1) == c * c;
      CeilSqrtFrom(n, d)
  }

  lemma LeSquare(c: nat)
    ensures c <= c * c
  {
    if c > 0 {
      assert c * c == c * (c - 1) + c;
    }
  }

  /** Grid point i: column i % cols, row i / cols, cells 2 * scale / cols
      wide, the point in the middle of its cell. */
  function GridPoint(i: nat, cols: nat, cx: real, cy: real, scale: real): Point
    requires cols > 0
  {
    var spacing := scale * 2.0 / cols as real;
    Point(cx - scale + (i % cols) as real * spacing + spacing / 2.0,
          cy - scale + (i / cols) as real * spacing + spacing / 2.0)
  }

  /** The `grid` shape: `count` lattice points on CeilSqrt(count) columns. */
  function GridPoints(count: nat, cx: real, cy: real, scale: real): (pts: seq<Point>)
    ensures |pts| == count
  {
    var cols := CeilSqrt(count);
    if cols == 0 then []
    else seq(count, i requires 0 <= i < count => GridPoint(i, cols, cx, cy, scale))
  }

  /** The `grid` case of getShapePoints, one push per index. */
  method GridShape(count: nat, cx: real, cy: real, scale: real) returns (points: seq<Point>)
    ensures points == GridPoints(count, cx, cy, scale)
  {
    points := [];
    var cols := CeilSqrt(count);
    if cols == 0 {
      // count == 0: the spacing would be a division by zero, and no point is pushed
      return;
    }
    for i := 0 to count
      invariant |points| == i
      invariant forall k :: 0 <= k < i ==> points[k] == GridPoint(k, cols, cx, cy, scale)
    {
      points := points + [GridPoint(i, cols, cx, cy, scale)];
    }
  }

  /** A lattice index below count <= cols * cols has its row inside the lattice. */
  lemma RowFits(i: nat, cols: nat, count: nat)
    requires cols > 0 && i < count <= cols * cols
    ensures i / cols < cols
  {
  }

  /** The centre of cell k of cols lies between 0 and 2 * scale. */
  lemma CellWithin(k: nat, cols: nat, scale: real)
    requires k < cols && 0.0 <= scale
    ensures var s := scale * 2.0 / cols as real;
      0.0 <= k as real * s + s / 2.0 <= 2.0 * scale
  {
    var s := scale * 2.0 / cols as real;
    assert s * cols as real == 2.0 * scale;
    assert 0.0 <= s;
    assert k as real * s <= (cols - 1) as real * s;
    assert (cols - 1) as real * s == cols as real * s - s;
  }

  /** Every grid point lies in the square of half-width `scale` around the centre. */
  lemma GridWithinBounds(count: nat, cx: real, cy: real, scale: real, i: nat)
    requires 0.0 <= scale && i < count
    ensures var p := GridPoints(count, cx, cy, scale)[i];
      cx - scale <= p.x <= cx + scale && cy - scale <= p.y <= cy + scale
  {
    var cols := CeilSqrt(count);
    assert GridPoints(count, cx, cy, scale)[i] == GridPoint(i, cols, cx, cy, scale);
    RowFits(i, cols, count);
    GridPointWithin(i, cols, cx, cy, scale);
  }

  lemma GridPointWithin(i: nat, cols: nat, cx: real, cy: real, scale: real)
    requires 0.0 <= scale && cols > 0 && i / cols < cols
    ensures var p := GridPoint(i, cols, cx, cy, scale);
      cx - scale <= p.x <= cx + scale && cy - scale <= p.y <= cy + scale
  {
    var s := scale * 2.0 / cols as real;
    var p := GridPoint(i, cols, cx, cy, scale);
    var c, r := i % cols, i / cols;
    assert p.x == cx - scale + (c as real * s + s / 2.0);
    assert p.y == cy - scale + (r as real * s + s / 2.0);
    CellWithin(c, cols, scale);
    CellWithin(r, cols, scale);
  }

  /** With a positive scale no two particles share a grid point. */
  lemma GridPointsDistinct(count: nat, cx: real, cy: real, scale: real, i: nat, j: nat)
    requires 0.0 < scale && i < count && j < count && i != j
    ensures GridPoints(count, cx, cy, scale)[i] != GridPoints(count, cx, cy, scale)[j]
  {
    var cols := CeilSqrt(count);
    assert GridPoints(count, cx, cy, scale)[i] == GridPoint(i, cols, cx, cy, scale);
    assert GridPoints(count, cx, cy, scale)[j] == GridPoint(j, cols, cx, cy, scale);
    GridPointInjective(i, j, cols, cx, cy, scale);
  }

  lemma GridPointInjective(i: nat, j: nat, cols: nat, cx: real, cy: real, scale: real)
    requires 0.0 < scale && cols > 0 && i != j
    ensures GridPoint(i, cols, cx, cy, scale) != GridPoint(j, cols, cx, cy, scale)
  {
    var s := scale * 2.0 / cols as real;
    SpacingPositive(scale, cols);
    var p, q := GridPoint(i, cols, cx, cy, scale), GridPoint(j, cols, cx, cy, scale);
    var ci, cj, ri, rj := i % cols, j % cols, i / cols, j / cols;
    if ci != cj {
      CellOffsetDiffers(cx - scale, ci, cj, s);
      assert p.x == cx - scale + ci as real * s + s / 2.0;
      assert q.x == cx - scale + cj as real * s + s / 2.0;
    } else {
      SplitIndex(i, j, cols);
      CellOffsetDiffers(cy - scale, ri, rj, s);
      assert p.y == cy - scale + ri as real * s + s / 2.0;
      assert q.y == cy - scale + rj as real * s + s / 2.0;
    }
  }

  lemma SpacingPositive(scale: real, cols: nat)
    requires 0.0 < scale && cols > 0
    ensures 0.0 < scale * 2.0 / cols as real
  {
  }

  lemma CellOffsetDiffers(base: real, a: nat, b: nat, s: real)
    requires 0.0 < s && a != b
    ensures base + a as real * s + s / 2.0 != base + b as real * s + s / 2.0
  {
    assert a as real * s - b as real * s == (a - b) as real * s;
  }

  /** Different indices in the same column lie in different rows. */
  lemma SplitIndex(i: nat, j: nat, cols: nat)
    requires cols > 0 && i != j && i % cols == j % cols
    ensures i / cols != j / cols
  {
    assert i == cols * (i / cols) + i % cols;
    assert j == cols * (j / cols) + j % cols;
  }


  // ---------------------------------------------------------------------
  // Text
  // ---------------------------------------------------------------------

  const LetterWidth := 5
  const LetterHeight := 7
  const LetterSpacing := 1
  const LineSpacing := 2
  const TopText := "REAL"
  const BottomText := "AI"
  /** Pixels per bitmap cell, as a fraction of `scale`. */
  const TextScaleFactor := 0.045
  /** Jitter amplitude, as a fraction of one bitmap cell. */
  const TextJitter := 0.3

  const PatternR: seq<seq<nat>> :=
    [[1,1,1,1,0],
     [1,0,0,0,1],
     [1,0,0,0,1],
     [1,1,1,1,0],
     [1,0,1,0,0],
     [1,0,0,1,0],
     [1,0,0,0,1]]
  const PatternE: seq<seq<nat>> :=
    [[1,1,1,1,1],
     [1,0,0,0,0],
     [1,0,0,0,0],
     [1,1,1,1,0],
     [1,0,0,0,0],
     [1,0,0,0,0],
     [1,1,1,1,1]]
  const PatternA: seq<seq<nat>> :=
    [[0,0,1,0,0],
     [0,1,0,1,0],
     [1,0,0,0,1],
     [1,0,0,0,1],
     [1,1,1,1,1],
     [1,0,0,0,1],
     [1,0,0,0,1]]
  const PatternL: seq<seq<nat>> :=
    [[1,0,0,0,0],
     [1,0,0,0,0],
     [1,0,0,0,0],
     [1,0,0,0,0],
     [1,0,0,0,0],
     [1,0,0,0,0],
     [1,1,1,1,1]]
  const PatternI: seq<seq<nat>> :=
    [[1,1,1,1,1],
     [0,0,1,0,0],
     [0,0,1,0,0],
     [0,0,1,0,0],
     [0,0,1,0,0],
     [0,0,1,0,0],
     [1,1,1,1,1]]

  /** getLetterPatterns: the bitmaps by letter, 7 rows of 5 cells, 1 = pixel on. */
  function LetterPatterns(): (m: map<char, seq<seq<nat>>>)
    ensures m.Keys == {'R', 'E', 'A', 'L', 'I'}
  {
    map['R' := PatternR, 'E' := PatternE, 'A' := PatternA, 'L' := PatternL, 'I' := PatternI]
  }

  /** The "on" cells among the first n of one bitmap row, left to right. */
  function RowPixels(bits: seq<nat>, n: nat, x0: real, y: real): seq<Point>
    requires n <= |bits|
  {
    if n == 0 then []
    else RowPixels(bits, n - 1, x0, y)
         + (if bits[n - 1] != 0 then [Point(x0 + (n - 1) as real, y)] else [])
  }

  /** The "on" cells of the first n rows of a bitmap, row by row. */
  function GlyphPixels(rows: seq<seq<nat>>, n: nat, x0: real, y0: real): seq<Point>
    requires n <= |rows|
  {
    if n == 0 then []
    else GlyphPixels(rows, n - 1, x0, y0)
         + RowPixels(rows[n - 1], |rows[n - 1]|, x0, y0 + (n - 1) as real)
  }

  /** The "on" cells of the first n letters of a line; letters without a
      bitmap are skipped but still take their place. */
  function LinePixels(text: string, n: nat, startX: real, y: real,
                      patterns: map<char, seq<seq<nat>>>): seq<Point>
    requires n <= |text|
  {
    if n == 0 then []
    else
      LinePixels(text, n - 1, startX, y, patterns)
      + (if text[n - 1] in patterns
         then GlyphPixels(patterns[text[n - 1]], |patterns[text[n - 1]]|,
                          startX + ((n - 1) * (LetterWidth + LetterSpacing)) as real, y)
         else [])
  }

  /** Width of a line of letters, in bitmap cells. */
  function LineWidth(text: string): int
  {
    |text| * (LetterWidth + LetterSpacing) - LetterSpacing
  }

  /** Height of the two-line text block, in bitmap cells. */
  const TotalHeight := LetterHeight * 2 + LineSpacing

  const TopStartX: real := -(LineWidth(TopText) as real) / 2.0
  const TopY: real := -(TotalHeight as real) / 2.0
  const BottomStartX: real := -(LineWidth(BottomText) as real) / 2.0
  const BottomY: real := -(TotalHeight as real) / 2.0 + (LetterHeight + LineSpacing) as real

  /** The pool of "on" pixels: "REAL" on the top line, then "AI" below it,
      in bitmap cells around the origin. */
  function TextPool(patterns: map<char, seq<seq<nat>>>): seq<Point>
  {
    LinePixels(TopText, |TopText|, TopStartX, TopY, patterns)
    + LinePixels(BottomText, |BottomText|, BottomStartX, BottomY, patterns)
  }

  /** Text output i: pool point i % |pool| scaled around the centre, moved by
      (u - 0.5) * textScale * TextJitter on each axis. */
  function TextPoint(pt: Point, cx: real, cy: real, textScale: real, u: Point): Point
  {
    Point(cx + pt.x * textScale + (u.x - 0.5) * textScale * TextJitter,
          cy + pt.y * textScale + (u.y - 0.5) * textScale * TextJitter)
  }

  /** Cyclic assignment of `count` outputs to the pool; nothing at all when
      the pool is empty. */
  function Distribute(pool: seq<Point>, count: nat, cx: real, cy: real, textScale: real,
                      jitter: Jitter): (pts: seq<Point>)
    ensures |pts| == if |pool| > 0 then count else 0
    ensures forall i | 0 <= i < |pts| ::
      pts[i] == TextPoint(pool[i % |pool|], cx, cy, textScale, jitter(i))
  {
    if |pool| == 0 then []
    else seq(count, i requires 0 <= i < count =>
               TextPoint(pool[i % |pool|], cx, cy, textScale, jitter(i)))
  }

  /** The `text` shape. */
  function TextPoints(count: nat, cx: real, cy: real, scale: real, jitter: Jitter): (pts: seq<Point>)
    ensures |pts| == count
  {
    TextPoolSize();
    Distribute(TextPool(LetterPatterns()), count, cx, cy, scale * TextScaleFactor, jitter)
  }

  /** Appends the "on" pixels of one line to the pool, as the outer loop of
      the `text` case does letter by letter. */
  method CollectLine(pool: seq<Point>, text: string, startX: real, y: real,
                     patterns: map<char, seq<seq<nat>>>) returns (out: seq<Point>)
    ensures out == pool + LinePixels(text, |text|, startX, y, patterns)
  {
    out := pool;
    for i := 0 to |text|
      invariant out == pool + LinePixels(text, i, startX, y, patterns)
    {
      var letter := text[i];
      var offsetX := startX + (i * (LetterWidth + LetterSpacing)) as real;
      if letter in patterns {
        out := CollectGlyph(out, patterns[letter], offsetX, y);
      }
    }
  }

  /** The row loop over one letter's bitmap. */
  method CollectGlyph(pool: seq<Point>, pattern: seq<seq<nat>>, offsetX: real, y: real)
    returns (out: seq<Point>)
    ensures out == pool + GlyphPixels(pattern, |pattern|, offsetX, y)
  {
    out := pool;
    for row := 0 to |pattern|
      invariant out == pool + GlyphPixels(pattern, row, offsetX, y)
    {
      out := CollectRow(out, pattern[row], offsetX, y + row as real);
    }
  }

  /** The column loop over one bitmap row: one point per "on" cell. */
  method CollectRow(pool: seq<Point>, bits: seq<nat>, offsetX: real, y: real)
    returns (out: seq<Point>)
    ensures out == pool + RowPixels(bits, |bits|, offsetX, y)
  {
    out := pool;
    for col := 0 to |bits|
      invariant out == pool + RowPixels(bits, col, offsetX, y)
    {
      if bits[col] != 0 {
        out := out + [Point(offsetX + col as real, y)];
      }
    }
  }

  /** The final loop of the `text` case: one jittered point per output
      index, taken cyclically from the pool, while the pool is non-empty. */
  method DistributeShape(pool: seq<Point>, count: nat, cx: real, cy: real, textScale: real,
                         jitter: Jitter) returns (points: seq<Point>)
    ensures points == Distribute(pool, count, cx, cy, textScale, jitter)
  {
    points := [];
    for i := 0 to count
      invariant |pool| > 0 ==> |points| == i
      invariant |pool| == 0 ==> points == []
      invariant forall k | 0 <= k < |points| ::
        points[k] == TextPoint(pool[k % |pool|], cx, cy, textScale, jitter(k))
    {
      if |pool| > 0 {
        var pt := pool[i % |pool|];
        points := points + [TextPoint(pt, cx, cy, textScale, jitter(i))];
      }
    }
  }

  /** The `text` case of getShapePoints: collect the pool line by line, then
      distribute the outputs over it. */
  method TextShape(count: nat, cx: real, cy: real, scale: real, jitter: Jitter) returns (points: seq<Point>)
    ensures points == TextPoints(count, cx, cy, scale, jitter)
  {
    var patterns := LetterPatterns();
    var top := CollectLine([], TopText, TopStartX, TopY, patterns);
    var pool := CollectLine(top, BottomText, BottomStartX, BottomY, patterns);
    PoolOfLines(top, pool, patterns);
    points := DistributeShape(pool, count, cx, cy, scale * TextScaleFactor, jitter);
  }

  /** The two collected lines, one after the other, are the pool. */
  lemma PoolOfLines(top: seq<Point>, pool: seq<Point>, patterns: map<char, seq<seq<nat>>>)
    requires top == [] + LinePixels(TopText, |TopText|, TopStartX, TopY, patterns)
    requires pool == top + LinePixels(BottomText, |BottomText|, BottomStartX, BottomY, patterns)
    ensures pool == TextPool(patterns)
  {
    assert top == LinePixels(TopText, |TopText|, TopStartX, TopY, patterns);
  }

  /** Number of "on" cells among bits[..n]. */
  function OnCells(bits: seq<nat>, n: nat): nat
    requires n <= |bits|
  {
    if n == 0 then 0 else OnCells(bits, n - 1) + (if bits[n - 1] != 0 then 1 else 0)
  }

  /** Number of "on" cells in the first n rows of a bitmap. */
  function GlyphOnCells(rows: seq<seq<nat>>, n: nat): nat
    requires n <= |rows|
  {
    if n == 0 then 0 else GlyphOnCells(rows, n - 1) + OnCells(rows[n - 1], |rows[n - 1]|)
  }

  /** Number of "on" cells in the first n letters of a line. */
  function LineOnCells(text: string, n: nat, patterns: map<char, seq<seq<nat>>>): nat
    requires n <= |text|
  {
    if n == 0 then 0
    else LineOnCells(text, n - 1, patterns)
         + (if text[n - 1] in patterns
            then GlyphOnCells(patterns[text[n - 1]], |patterns[text[n - 1]]|)
            else 0)
  }

  lemma {:induction false} RowPixelsCount(bits: seq<nat>, n: nat, x0: real, y: real)
    requires n <= |bits|
    ensures |RowPixels(bits, n, x0, y)| == OnCells(bits, n)
  {
    if n > 0 {
      RowPixelsCount(bits, n - 1, x0, y);
    }
  }

  lemma {:induction false} GlyphPixelsCount(rows: seq<seq<nat>>, n: nat, x0: real, y0: real)
    requires n <= |rows|
    ensures |GlyphPixels(rows, n, x0, y0)| == GlyphOnCells(rows, n)
  {
    if n > 0 {
      GlyphPixelsCount(rows, n - 1, x0, y0);
      RowPixelsCount(rows[n - 1], |rows[n - 1]|, x0, y0 + (n - 1) as real);
    }
  }

  lemma {:induction false} LinePixelsCount(text: string, n: nat, startX: real, y: real,
                                           patterns: map<char, seq<seq<nat>>>)
    requires n <= |text|
    ensures |LinePixels(text, n, startX, y, patterns)| == LineOnCells(text, n, patterns)
  {
    if n > 0 {
      LinePixelsCount(text, n - 1, startX, y, patterns);
      var c := text[n - 1];
      if c in patterns {
        var p := patterns[c];
        GlyphPixelsCount(p, |p|, startX + ((n - 1) * (LetterWidth + LetterSpacing)) as real, y);
      }
    }
  }

  /** The number of "on" cells of each bitmap. */
  lemma PatternRCells(p: seq<seq<nat>>)
    requires p == PatternR
    ensures GlyphOnCells(p, |p|) == 18
  {
    assert GlyphOnCells(PatternR, 7) == 18;
  }

  lemma PatternECells(p: seq<seq<nat>>)
    requires p == PatternE
    ensures GlyphOnCells(p, |p|) == 18
  {
    assert GlyphOnCells(PatternE, 7) == 18;
  }

  lemma PatternACells(p: seq<seq<nat>>)
    requires p == PatternA
    ensures GlyphOnCells(p, |p|) == 16
  {
    assert GlyphOnCells(PatternA, 7) == 16;
  }

  lemma PatternLCells(p: seq<seq<nat>>)
    requires p == PatternL
    ensures GlyphOnCells(p, |p|) == 11
  {
    assert GlyphOnCells(PatternL, 7) == 11;
  }

  lemma PatternICells(p: seq<seq<nat>>)
    requires p == PatternI
    ensures GlyphOnCells(p, |p|) == 15
  {
    assert GlyphOnCells(PatternI, 7) == 15;
  }

  /** The pool holds 63 pixels for "REAL" and 31 for "AI": 94 in all, fewer
      than the 400 particles, so the text shape reuses pool points. */
  lemma TextPoolSize()
    ensures |TextPool(LetterPatterns())| == 94
  {
    var m := LetterPatterns();
    LinePixelsCount(TopText, |TopText|, TopStartX, TopY, m);
    LinePixelsCount(BottomText, |BottomText|, BottomStartX, BottomY, m);
    TopLineCells(m);
    BottomLineCells(m);
  }

  lemma TopLineCells(m: map<char, seq<seq<nat>>>)
    requires m == LetterPatterns()
    ensures LineOnCells(TopText, |TopText|, m) == 63
  {
    PatternRCells(m['R']);
    PatternECells(m['E']);
    PatternACells(m['A']);
    PatternLCells(m['L']);
    assert TopText[0] == 'R' && TopText[1] == 'E' && TopText[2] == 'A' && TopText[3] == 'L';
    assert LineOnCells(TopText, 1, m) == 18;
    assert LineOnCells(TopText, 2, m) == 36;
    assert LineOnCells(TopText, 3, m) == 52;
  }

  lemma BottomLineCells(m: map<char, seq<seq<nat>>>)
    requires m == LetterPatterns()
    ensures LineOnCells(BottomText, |BottomText|, m) == 31
  {
    PatternACells(m['A']);
    PatternICells(m['I']);
    assert BottomText[0] == 'A' && BottomText[1] == 'I';
    assert LineOnCells(BottomText, 1, m) == 16;
  }

  /** Distributed point i lies within TextJitter / 2 cells (times the pixel
      scale) of the scaled pool point i % |pool|. */
  lemma DistributeNear(pool: seq<Point>, count: nat, cx: real, cy: real, ts: real, jitter: Jitter, i: nat)
    requires |pool| > 0 && i < count && 0.0 <= ts
    requires 0.0 <= jitter(i).x < 1.0 && 0.0 <= jitter(i).y < 1.0
    ensures var p := Distribute(pool, count, cx, cy, ts, jitter)[i];
      var q := pool[i % |pool|];
      && -(ts * TextJitter / 2.0) <= p.x - (cx + q.x * ts) <= ts * TextJitter / 2.0
      && -(ts * TextJitter / 2.0) <= p.y - (cy + q.y * ts) <= ts * TextJitter / 2.0
  {
    var p := Distribute(pool, count, cx, cy, ts, jitter)[i];
    var q := pool[i % |pool|];
    var u := jitter(i);
    assert p == TextPoint(q, cx, cy, ts, u);
    assert p.x - (cx + q.x * ts) == (u.x - 0.5) * ts * TextJitter;
    assert p.y - (cy + q.y * ts) == (u.y - 0.5) * ts * TextJitter;
    JitterBound(u.x, ts);
    JitterBound(u.y, ts);
  }

  /** Every text point is derived from pool point i % 94 and lies within
      TextJitter / 2 cells of it. */
  lemma TextPointNearPool(count: nat, cx: real, cy: real, scale: real, jitter: Jitter, i: nat)
    requires i < count && 0.0 <= scale
    requires 0.0 <= jitter(i).x < 1.0 && 0.0 <= jitter(i).y < 1.0
    ensures var pool := TextPool(LetterPatterns());
      var ts := scale * TextScaleFactor;
      var p := TextPoints(count, cx, cy, scale, jitter)[i];
      var q := pool[i % |pool|];
      && |pool| == 94
      && -(ts * TextJitter / 2.0) <= p.x - (cx + q.x * ts) <= ts * TextJitter / 2.0
      && -(ts * TextJitter / 2.0) <= p.y - (cy + q.y * ts) <= ts * TextJitter / 2.0
  {
    TextPoolSize();
    DistributeNear(TextPool(LetterPatterns()), count, cx, cy, scale * TextScaleFactor, jitter, i);
  }

  lemma JitterBound(u: real, ts: real)
    requires 0.0 <= u < 1.0 && 0.0 <= ts
    ensures -(ts * TextJitter / 2.0) <= (u - 0.5) * ts * TextJitter <= ts * TextJitter / 2.0
  {
    assert (u - 0.5) * ts * TextJitter == (u - 0.5) * (ts * TextJitter);
    assert 0.0 <= ts * TextJitter;
  }

  // ---------------------------------------------------------------------
  // Trigonometric shapes: only the number of points
  // ---------------------------------------------------------------------

  /** A shape whose loop pushes exactly one sampled point per output index. */
  function SampledPoints(shape: Shape, count: nat, sample: Sampler): (pts: seq<Point>)
    ensures |pts| == count
  {
    seq(count, i requires 0 <= i < count => sample(shape, i))
  }

  /** The `pregnant`, `kidney` and `scattered` cases: one loop over count. */
  method SampledShape(shape: Shape, count: nat, sample: Sampler) returns (points: seq<Point>)
    ensures points == SampledPoints(shape, count, sample)
  {
    points := [];
    for i := 0 to count
      invariant |points| == i
      invariant forall k :: 0 <= k < i ==> points[k] == sample(shape, k)
    {
      points := points + [sample(shape, i)];
    }
  }

  /** Number of spiral-arm points of the galaxy, Math.floor(count * 0.7). */
  function ArmCount(count: nat): (arms: nat)
    ensures arms <= count
    ensures arms as real <= count as real * 0.7 < arms as real + 1.0
  {
    count * 7 / 10
  }

  /** The `galaxy` case: core points first, then the arm points; together
      exactly `count`. */
  method GalaxyShape(count: nat, sample: Sampler) returns (points: seq<Point>)
    ensures points == SampledPoints(Galaxy, count, sample)
  {
    var arms := ArmCount(count);
    var core := count - arms;
    points := [];
    for i := 0 to core
      invariant |points| == i
      invariant forall k :: 0 <= k < i ==> points[k] == sample(Galaxy, k)
    {
      points := points + [sample(Galaxy, i)];
    }
    for i := 0 to arms
      invariant |points| == core + i
      invariant forall k :: 0 <= k < core + i ==> points[k] == sample(Galaxy, k)
    {
      points := points + [sample(Galaxy, core + i)];
    }
  }

  // ---------------------------------------------------------------------
  // getShapePoints
  // ---------------------------------------------------------------------

  /** The point set of a shape: always exactly `count` points. */
  function ShapePoints(shape: Shape, count: nat, cx: real, cy: real, scale: real,
                       sample: Sampler, jitter: Jitter): (pts: seq<Point>)
    ensures |pts| == count
  {
    match shape
    case Grid => GridPoints(count, cx, cy, scale)
    case Text => TextPoints(count, cx, cy, scale, jitter)
    case _ => SampledPoints(shape, count, sample)
  }

  /** getShapePoints: dispatch on the shape name. */
  method GetShapePoints(shape: Shape, count: nat, cx: real, cy: real, scale: real,
                        sample: Sampler, jitter: Jitter) returns (points: seq<Point>)
    ensures points == ShapePoints(shape, count, cx, cy, scale, sample, jitter)
  {
    match shape {
      case Grid => points := GridShape(count, cx, cy, scale);
      case Text => points := TextShape(count, cx, cy, scale, jitter);
      case Galaxy => points := GalaxyShape(count, sample);
      case _ => points := SampledShape(shape, count, sample);
    }
  }
}
