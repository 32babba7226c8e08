/**
 * What the image generators share: the map from pixel to drawing coordinates,
 * the row-major enumeration of an image's pixels, and the commands they emit.
 *
 * A generator's output is a list of command lines. The model builds it as a
 * list of Cmd values and renders each with the command encoders, so that
 * properties about the order of moves and pen changes can be stated on the
 * values, and carried over to the lines by RenderPens.
 */
module Generators {
  import opened Common
  import opened GCode

  /** `px2Scr`: scale a pixel position and shift it by the offset. */
  function Px2Scr(p: Point, scale: real, offset: Point): Point
  {
    Point(p.x * scale + offset.x, p.y * scale + offset.y)
  }

  /** The drawing-to-pixel map, for a non-zero scale. */
  function Scr2Px(q: Point, scale: real, offset: Point): Point
    requires scale != 0.0
  {
    Point((q.x - offset.x) / scale, (q.y - offset.y) / scale)
  }

  /** With a non-zero scale no two pixels land on the same drawing point. */
  lemma Px2ScrInverts(p: Point, q: Point, scale: real, offset: Point)
    requires scale != 0.0
    ensures Scr2Px(Px2Scr(p, scale, offset), scale, offset) == p
    ensures Px2Scr(Scr2Px(q, scale, offset), scale, offset) == q
  {
    assert p.x * scale / scale == p.x && p.y * scale / scale == p.y;
    assert (q.x - offset.x) / scale * scale == q.x - offset.x;
    assert (q.y - offset.y) / scale * scale == q.y - offset.y;
  }

  // ------------------------------------------------------------ images

  /** An image: rows of grey values, the pixel at column x of row y being `img[y][x]`. */
  type Image = seq<seq<real>>

  /** One entry of `np.ndenumerate`: the index (y, x) and the value. */
  datatype Pixel = Pixel(y: int, x: int, value: real)

  function Width(img: Image): nat
  {
    if img == [] then 0 else |img[0]|
  }

  /** An image array: every row has the width of the first. */
  predicate Rectangular(img: Image)
  {
    forall y :: 0 <= y < |img| ==> |img[y]| == Width(img)
  }

  /** The pixels of the first n entries of row y, left to right. */
  function RowPixels(img: Image, y: nat, n: nat): seq<Pixel>
    requires y < |img| && n <= |img[y]|
  {
    if n == 0 then [] else RowPixels(img, y, n - 1) + [Pixel(y, n - 1, img[y][n - 1])]
  }

  /** The pixels of the first n rows, row by row. */
  function RowsPixels(img: Image, n: nat): seq<Pixel>
    requires n <= |img|
  {
    if n == 0 then [] else RowsPixels(img, n - 1) + RowPixels(img, n - 1, |img[n - 1]|)
  }

  /** `np.ndenumerate`: all pixels, row by row, each row left to right. */
  function Enumerate(img: Image): seq<Pixel>
  {
    RowsPixels(img, |img|)
  }

  lemma {:induction false} RowPixelsIndex(img: Image, y: nat, n: nat)
    requires y < |img| && n <= |img[y]|
    ensures |RowPixels(img, y, n)| == n
    ensures forall x :: 0 <= x < n ==> RowPixels(img, y, n)[x] == Pixel(y, x, img[y][x])
  {
    if n > 0 {
      RowPixelsIndex(img, y, n - 1);
    }
  }

  lemma {:induction false} RowsPixelsLength(img: Image, n: nat)
    requires Rectangular(img) && n <= |img|
    ensures |RowsPixels(img, n)| == n * Width(img)
  {
    if n > 0 {
      RowsPixelsLength(img, n - 1);
      RowPixelsIndex(img, n - 1, Width(img));
      MulSucc(n - 1, Width(img));
    }
  }

  lemma {:induction false} RowsPixelsCell(img: Image, n: nat, y: nat, x: nat)
    requires Rectangular(img) && n <= |img| && y < n && x < Width(img)
    ensures y * Width(img) + x < |RowsPixels(img, n)|
    ensures RowsPixels(img, n)[y * Width(img) + x] == Pixel(y, x, img[y][x])
  {
    var w := Width(img);
    RowsPixelsLength(img, n - 1);
    RowPixelsIndex(img, n - 1, w);
    var front, row := RowsPixels(img, n - 1), RowPixels(img, n - 1, w);
    assert RowsPixels(img, n) == front + row;
    var k := y * w + x;
    if y < n - 1 {
      RowsPixelsCell(img, n - 1, y, x);
      assert (front + row)[k] == front[k];
    } else {
      assert k == |front| + x;
      assert (front + row)[k] == row[x];
    }
  }

  /** Cell (y, x) of a block of rows of width w lies before the block's end. */
  lemma BlockBound(y: int, x: int, n: int, w: int)
    requires 0 <= y < n && 0 <= x < w
    ensures 0 <= y * w + x < n * w
  {
    assert y * w <= (n - 1) * w by {
      assert (n - 1) * w - y * w == (n - 1 - y) * w;
      ProductNonNegative(n - 1 - y, w);
    }
    assert (n - 1) * w + w == n * w;
    ProductNonNegative(y, w);
  }

  lemma MulSucc(a: int, b: int)
    ensures (a + 1) * b == a * b + b
  {
  }

  lemma ProductNonNegative(a: int, b: int)
    requires a >= 0 && b >= 0
    ensures a * b >= 0
  {
  }

  /**
   * Row-major order: of a W-wide image, entry y·W + x of the enumeration is
   * the pixel at row y, column x; every pixel appears exactly once.
   */
  lemma EnumerateRowMajor(img: Image)
    requires Rectangular(img)
    ensures |Enumerate(img)| == |img| * Width(img)
    ensures forall y, x :: 0 <= y < |img| && 0 <= x < Width(img) ==>
      Enumerate(img)[y * Width(img) + x] == Pixel(y, x, img[y][x])
  {
    RowsPixelsLength(img, |img|);
    forall y, x | 0 <= y < |img| && 0 <= x < Width(img)
      ensures y * Width(img) + x < |Enumerate(img)| && Enumerate(img)[y * Width(img) + x] == Pixel(y, x, img[y][x])
    {
      RowsPixelsCell(img, |img|, y, x);
    }
  }

  // ------------------------------------------------------------ commands

  /** A command a generator emits. */
  datatype Cmd =
    | Move(to: Point, speed: Option<real>)
    | Pen(down: bool)
    | Home

  /** The command line of a command. */
  function Render(c: Cmd): string
  {
    match c
    case Move(p, s) => GoTo(p, s)
    case Pen(down) => PenLine(down)
    case Home => HomeLine
  }

  function RenderAll(cs: seq<Cmd>): seq<string>
  {
    if cs == [] then [] else [Render(cs[0])] + RenderAll(cs[1..])
  }

  lemma {:induction false} RenderLength(cs: seq<Cmd>)
    ensures |RenderAll(cs)| == |cs|
  {
    if cs != [] {
      RenderLength(cs[1..]);
    }
  }

  lemma RenderOne(c: Cmd)
    ensures RenderAll([c]) == [Render(c)]
  {
    assert [c][1..] == [];
  }

  lemma {:induction false} RenderAppend(a: seq<Cmd>, b: seq<Cmd>)
    ensures RenderAll(a + b) == RenderAll(a) + RenderAll(b)
  {
    if a != [] {
      assert (a + b)[1..] == a[1..] + b;
      RenderAppend(a[1..], b);
    } else {
      assert a + b == b;
    }
  }

  /** The pen changes among the commands, true for down. */
  function Pens(cs: seq<Cmd>): seq<bool>
  {
    if cs == [] then []
    else (if cs[0].Pen? then [cs[0].down] else []) + Pens(cs[1..])
  }

  lemma {:induction false} PensAppend(a: seq<Cmd>, b: seq<Cmd>)
    ensures Pens(a + b) == Pens(a) + Pens(b)
  {
    if a != [] {
      assert (a + b)[1..] == a[1..] + b;
      PensAppend(a[1..], b);
    } else {
      assert a + b == b;
    }
  }

  /** Each rendered command is of its own kind: moves are move lines, pen changes pen lines, home the home line. */
  lemma RenderKind(c: Cmd)
    ensures IsMove(Render(c)) <==> c.Move?
    ensures IsHome(Render(c)) <==> c.Home?
    ensures IsPenDown(Render(c)) <==> c == Pen(true)
    ensures IsPenUp(Render(c)) <==> c == Pen(false)
  {
    match c
    case Move(p, s) => GoToKind(p, s);
    case Pen(down) => PenLineKind(down);
    case Home => assert HomeLine[1] == '2';
  }

  /** The pen commands among the rendered lines are the pen changes of the commands. */
  lemma {:induction false} RenderPens(cs: seq<Cmd>)
    ensures PenCommands(RenderAll(cs)) == Pens(cs)
  {
    if cs != [] {
      RenderKind(cs[0]);
      RenderPens(cs[1..]);
      assert RenderAll(cs)[1..] == RenderAll(cs[1..]);
    }
  }

  // ------------------------------------------------------------ strokes

  /** The pen changes of n strokes: down, up, n times. */
  function Strokes(n: nat): seq<bool>
  {
    if n == 0 then [] else Strokes(n - 1) + [true, false]
  }

  lemma {:induction false} StrokesIndex(n: nat)
    ensures |Strokes(n)| == 2 * n
    ensures forall i :: 0 <= i < 2 * n ==> Strokes(n)[i] == (i % 2 == 0)
  {
    if n > 0 {
      StrokesIndex(n - 1);
    }
  }

  /** After an initial "pen up", strokes keep the pen commands alternating. */
  lemma StrokesAlternate(n: nat)
    ensures Alternating([false] + Strokes(n))
  {
    StrokesIndex(n);
    var bs := [false] + Strokes(n);
    forall i | 0 < i < |bs| ensures bs[i] != bs[i - 1] {
      assert bs[i] == Strokes(n)[i - 1];
      if i > 1 {
        assert bs[i - 1] == Strokes(n)[i - 2];
      }
    }
  }

  lemma {:induction false} StrokesAdd(m: nat, n: nat)
    ensures Strokes(m) + Strokes(n) == Strokes(m + n)
    decreases n
  {
    if n == 0 {
      assert Strokes(m) + [] == Strokes(m);
    } else {
      StrokesAdd(m, n - 1);
      assert Strokes(m) + (Strokes(n - 1) + [true, false]) == (Strokes(m) + Strokes(n - 1)) + [true, false];
    }
  }
}
