/**
 * The box generator: every pixel with a positive value becomes a square,
 * centred on the pixel, whose side is the pixel value over 255 (one pixel
 * for white). Each square is one stroke: move to the first corner, pen down,
 * round the four sides, pen up.
 */
module BoxGenerator {
  import opened Common
  import opened GCode
  import opened Generators

  /** The corners of a unit square around the origin, in drawing order; the last closes the path. */
  const Corners: seq<Point> := [Point(-0.5, -0.5), Point(-0.5, 0.5), Point(0.5, 0.5), Point(0.5, -0.5), Point(-0.5, -0.5)]

  /** Corner k of the box of size v around c, in pixel coordinates (`p*v + c`, the same affine map as `px2Scr`). */
  function BoxCorner(k: nat, c: Point, v: real): Point
    requires k < 5
  {
    Px2Scr(Corners[k], v, c)
  }

  /** The move to corner k of the box, in drawing coordinates and without a speed. */
  function CornerMove(k: nat, c: Point, v: real, scale: real, offset: Point): Cmd
    requires k < 5
  {
    Move(Px2Scr(BoxCorner(k, c, v), scale, offset), None)
  }

  /** The commands of a box after its first k corners: each corner's move, the first followed by "pen down". */
  function BoxPath(k: nat, c: Point, v: real, scale: real, offset: Point): seq<Cmd>
    requires k <= 5
  {
    if k == 0 then []
    else BoxPath(k - 1, c, v, scale, offset) + [CornerMove(k - 1, c, v, scale, offset)] + (if k == 1 then [Pen(true)] else [])
  }

  /** The commands of one box: its path round all five corners, then "pen up". */
  function BoxCmds(c: Point, v: real, scale: real, offset: Point): seq<Cmd>
  {
    BoxPath(5, c, v, scale, offset) + [Pen(false)]
  }

  /**
   * One stroke of seven commands: the pen goes down right after the first
   * move and up after the last; the moves carry no speed; the path is closed.
   */
  lemma BoxShape(c: Point, v: real, scale: real, offset: Point)
    ensures var b := BoxCmds(c, v, scale, offset);
      |b| == 7 && Pens(b) == [true, false] && b[1] == Pen(true) && b[6] == Pen(false)
      && (forall i :: 0 <= i < 7 && i != 1 && i != 6 ==> b[i].Move? && b[i].speed == None)
      && b[0] == b[5]
  {
    BoxCmdsLiteral(c, v, scale, offset);
    BoxPathPens(5, c, v, scale, offset);
    PensAppend(BoxPath(5, c, v, scale, offset), [Pen(false)]);
    assert Pens([Pen(false)]) == [false] by {
      assert [Pen(false)][1..] == [];
    }
  }

  /** The seven commands of a box, written out. */
  lemma BoxCmdsLiteral(c: Point, v: real, scale: real, offset: Point)
    ensures BoxCmds(c, v, scale, offset) == [CornerMove(0, c, v, scale, offset), Pen(true),
      CornerMove(1, c, v, scale, offset), CornerMove(2, c, v, scale, offset), CornerMove(3, c, v, scale, offset),
      CornerMove(4, c, v, scale, offset), Pen(false)]
  {
    var m0, m1, m2 := CornerMove(0, c, v, scale, offset), CornerMove(1, c, v, scale, offset), CornerMove(2, c, v, scale, offset);
    var m3, m4 := CornerMove(3, c, v, scale, offset), CornerMove(4, c, v, scale, offset);
    assert BoxPath(1, c, v, scale, offset) == [m0, Pen(true)];
    assert BoxPath(2, c, v, scale, offset) == [m0, Pen(true), m1];
    assert BoxPath(3, c, v, scale, offset) == [m0, Pen(true), m1, m2];
    assert BoxPath(4, c, v, scale, offset) == [m0, Pen(true), m1, m2, m3];
    assert BoxPath(5, c, v, scale, offset) == [m0, Pen(true), m1, m2, m3, m4];
  }

  /** The path of a box lowers the pen once, after its first corner. */
  lemma {:induction false} BoxPathPens(k: nat, c: Point, v: real, scale: real, offset: Point)
    requires k <= 5
    ensures Pens(BoxPath(k, c, v, scale, offset)) == if k == 0 then [] else [true]
  {
    if k > 0 {
      BoxPathPens(k - 1, c, v, scale, offset);
      var m := CornerMove(k - 1, c, v, scale, offset);
      var tail: seq<Cmd> := if k == 1 then [Pen(true)] else [];
      PensAppend(BoxPath(k - 1, c, v, scale, offset), [m]);
      PensAppend(BoxPath(k - 1, c, v, scale, offset) + [m], tail);
      assert Pens([m]) == [] by {
        assert [m][1..] == [];
      }
      assert Pens([Pen(true)]) == [true] by {
        assert [Pen(true)][1..] == [];
      }
    }
  }

  /**
   * The corners are those of a square of side |v| centred on c: each side is
   * parallel to an axis and |v| long, and corners 0 and 2 are opposite about c.
   */
  lemma BoxSquare(c: Point, v: real)
    ensures forall k :: 0 <= k < 4 ==>
      var p, q := BoxCorner(k, c, v), BoxCorner(k + 1, c, v);
      (p.x == q.x && Abs(q.y - p.y) == Abs(v)) || (p.y == q.y && Abs(q.x - p.x) == Abs(v))
    ensures var p := BoxCorner(0, c, v); var q := BoxCorner(2, c, v);
      (p.x + q.x) / 2.0 == c.x && (p.y + q.y) / 2.0 == c.y
  {
    assert 0.5 * v - (-0.5) * v == v && (-0.5) * v - 0.5 * v == -v;
  }

  /** `drawBox`: the box of size v around pixel position c, in command lines. */
  method DrawBox(c: Point, v: real, scale: real, offset: Point) returns (gcode: seq<string>)
    ensures gcode == RenderAll(BoxCmds(c, v, scale, offset))
  {
    gcode := [];
    var k := 0;
    while k < |Corners|
      invariant 0 <= k <= 5
      invariant gcode == RenderAll(BoxPath(k, c, v, scale, offset))
      invariant gcode == [] <==> k == 0
    {
      var pScreen := Px2Scr(Px2Scr(Corners[k], v, c), scale, offset);
      BoxPathStep(k, c, v, scale, offset);
      gcode := gcode + [GoTo(pScreen, None)];
      if |gcode| == 1 {
        gcode := gcode + [PenLine(true)];
      }
      k := k + 1;
    }
    RenderAppend(BoxPath(5, c, v, scale, offset), [Pen(false)]);
    RenderOne(Pen(false));
    gcode := gcode + [PenLine(false)];
  }

  /** Corner k adds its move line, and after the first corner the "pen down" line. */
  lemma BoxPathStep(k: nat, c: Point, v: real, scale: real, offset: Point)
    requires k < 5
    ensures RenderAll(BoxPath(k + 1, c, v, scale, offset)) == RenderAll(BoxPath(k, c, v, scale, offset))
      + [GoTo(Px2Scr(Px2Scr(Corners[k], v, c), scale, offset), None)] + (if k == 0 then [PenLine(true)] else [])
  {
    var path := BoxPath(k, c, v, scale, offset);
    var m := CornerMove(k, c, v, scale, offset);
    var tail: seq<Cmd> := if k == 0 then [Pen(true)] else [];
    RenderAppend(path, [m]);
    RenderAppend(path + [m], tail);
    RenderOne(m);
    RenderOne(Pen(true));
    assert RenderAll([]) == [];
  }

  /** The boxes of the pixels with a positive value, in the order of the pixels. */
  function Boxes(ps: seq<Pixel>, scale: real, offset: Point): seq<Cmd>
  {
    if ps == [] then []
    else
      Boxes(ps[..|ps| - 1], scale, offset) + PixelBox(ps[|ps| - 1], scale, offset)
  }

  /** The box of one pixel: none for a pixel that is not positive. */
  function PixelBox(p: Pixel, scale: real, offset: Point): seq<Cmd>
  {
    if p.value > 0.0 then BoxCmds(Point(p.x as real, p.y as real), p.value / 255.0, scale, offset) else []
  }

  /** The number of pixels with a positive value. */
  function Positive(ps: seq<Pixel>): nat
  {
    if ps == [] then 0 else Positive(ps[..|ps| - 1]) + (if ps[|ps| - 1].value > 0.0 then 1 else 0)
  }

  /** One box of seven commands per positive pixel, each a stroke: pen down then up. */
  lemma {:induction false} BoxesStrokes(ps: seq<Pixel>, scale: real, offset: Point)
    ensures |Boxes(ps, scale, offset)| == 7 * Positive(ps)
    ensures Pens(Boxes(ps, scale, offset)) == Strokes(Positive(ps))
  {
    if ps != [] {
      var p := ps[|ps| - 1];
      BoxesStrokes(ps[..|ps| - 1], scale, offset);
      var front, box := Boxes(ps[..|ps| - 1], scale, offset), PixelBox(p, scale, offset);
      assert Boxes(ps, scale, offset) == front + box;
      PensAppend(front, box);
      if p.value > 0.0 {
        BoxShape(Point(p.x as real, p.y as real), p.value / 255.0, scale, offset);
      }
    }
  }

  /** The commands of `convertImage`: pen up, home, then the boxes in row-major order. */
  function ImageCmds(img: Image, scale: real, offset: Point): seq<Cmd>
  {
    [Pen(false), Home] + Boxes(Enumerate(img), scale, offset)
  }

  /** `convertImage` on a grey image. */
  method ConvertImage(img: Image, scale: real, offset: Point) returns (gcode: seq<string>)
    ensures gcode == RenderAll(ImageCmds(img, scale, offset))
  {
    var pixels := Enumerate(img);
    gcode := [PenLine(false), HomeLine];
    assert gcode == RenderAll([Pen(false), Home]);
    var i := 0;
    while i < |pixels|
      invariant 0 <= i <= |pixels|
      invariant gcode == RenderAll([Pen(false), Home] + Boxes(pixels[..i], scale, offset))
    {
      ImageStep(pixels, i, scale, offset);
      var lines := PixelLines(pixels[i], scale, offset);
      gcode := gcode + lines;
      i := i + 1;
    }
    assert pixels[..i] == pixels;
  }

  /** The lines one pixel adds: its box when its value is positive, else none. */
  method PixelLines(p: Pixel, scale: real, offset: Point) returns (lines: seq<string>)
    ensures lines == RenderAll(PixelBox(p, scale, offset))
    ensures p.value <= 0.0 ==> lines == []
  {
    if p.value > 0.0 {
      lines := DrawBox(Point(p.x as real, p.y as real), p.value / 255.0, scale, offset);
    } else {
      lines := [];
    }
  }

  /** One more pixel adds the lines of its box. */
  lemma ImageStep(ps: seq<Pixel>, i: nat, scale: real, offset: Point)
    requires i < |ps|
    ensures RenderAll([Pen(false), Home] + Boxes(ps[..i + 1], scale, offset))
      == RenderAll([Pen(false), Home] + Boxes(ps[..i], scale, offset)) + RenderAll(PixelBox(ps[i], scale, offset))
  {
    var pre := [Pen(false), Home] + Boxes(ps[..i], scale, offset);
    assert ps[..i + 1][..i] == ps[..i];
    assert [Pen(false), Home] + Boxes(ps[..i + 1], scale, offset) == pre + PixelBox(ps[i], scale, offset);
    RenderAppend(pre, PixelBox(ps[i], scale, offset));
  }

  /**
   * The output starts with pen up and home, has seven lines per pixel with a
   * positive value and nothing for the others, and its pen commands
   * alternate, starting with "pen up".
   */
  lemma ImageCmdsShape(img: Image, scale: real, offset: Point)
    ensures var cs := ImageCmds(img, scale, offset);
      cs[..2] == [Pen(false), Home] && |cs| == 2 + 7 * Positive(Enumerate(img))
      && Alternating(PenCommands(RenderAll(cs)))
  {
    var ps := Enumerate(img);
    var cs := ImageCmds(img, scale, offset);
    BoxesStrokes(ps, scale, offset);
    PensAppend([Pen(false), Home], Boxes(ps, scale, offset));
    assert Pens([Pen(false), Home]) == [false] by {
      assert [Pen(false), Home][1..] == [Home];
      assert [Home][1..] == [];
    }
    StrokesAlternate(Positive(ps));
    RenderPens(cs);
  }
}
