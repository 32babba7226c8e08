/**
 * The straight-line generator: for each direction asked for, it walks the
 * pixels of a grey image in that direction's order and draws a straight run
 * of the pen over each stretch of consecutive, neighbouring pixels whose grey
 * value passes the threshold. Each further pass narrows the threshold band,
 * so darker areas get more passes over them.
 *
 * The four orders: 1 row by row, 2 column by column, 3 and 4 along the
 * diagonals, by the explicit nested loops of the generator. Those loops index
 * the pixel array with numpy's rules: a negative index counts from the end,
 * and one outside the array raises IndexError.
 */
module StraightLineGenerator {
  import opened Common
  import opened GCode
  import opened Generators

  /** The generator's parameters: the pixel map, the two speeds, the threshold band and the directions. */
  datatype Params = Params(
    scale: real, offset: Point,
    speedDraw: Option<real>, speedNodraw: Option<real>,
    thresholdMin: int, thresholdMax: int, thresholdInv: bool,
    dirs: seq<int>)

  /**
   * How `convert` can fail: an index outside the image in a diagonal walk, or
   * a direction other than 1 to 4, whose pixel list stays `None`.
   */
  datatype ConvertError = IndexError | NotIterable

  // ------------------------------------------------------------ column order

  /** The value at row y, column x; in a rectangular image every index below its shape is present. */
  function At(img: Image, y: nat, x: nat): real
  {
    if y < |img| && x < |img[y]| then img[y][x] else 0.0
  }

  /** The first n pixels of column x, top to bottom. */
  function ColPixels(img: Image, x: nat, n: nat): seq<Pixel>
  {
    if n == 0 then [] else ColPixels(img, x, n - 1) + [Pixel(n - 1, x, At(img, n - 1, x))]
  }

  /** The pixels of the first n columns, column by column. */
  function ColsPixels(img: Image, n: nat): seq<Pixel>
  {
    if n == 0 then [] else ColsPixels(img, n - 1) + ColPixels(img, n - 1, |img|)
  }

  /** `np.reshape(pixels, [-1, 2], order='F')`: the pixels column by column. */
  function ColumnMajor(img: Image): seq<Pixel>
    requires Rectangular(img)
  {
    ColsPixels(img, Width(img))
  }

  lemma {:induction false} ColPixelsIndex(img: Image, x: nat, n: nat)
    ensures |ColPixels(img, x, n)| == n
    ensures forall y :: 0 <= y < n ==> ColPixels(img, x, n)[y] == Pixel(y, x, At(img, y, x))
  {
    if n > 0 {
      ColPixelsIndex(img, x, n - 1);
    }
  }

  /** Where column x starts among the pixels of columns h high: x·h, counted column by column. */
  function ColStart(x: nat, h: nat): nat
  {
    if x == 0 then 0 else ColStart(x - 1, h) + h
  }

  lemma {:induction false} ColStartIsProduct(x: nat, h: nat)
    ensures ColStart(x, h) == x * h
  {
    if x > 0 {
      ColStartIsProduct(x - 1, h);
      MulSucc(x - 1, h);
    }
  }

  lemma {:induction false} ColsPixelsLength(img: Image, n: nat)
    ensures |ColsPixels(img, n)| == ColStart(n, |img|)
  {
    if n > 0 {
      ColsPixelsLength(img, n - 1);
      ColPixelsIndex(img, n - 1, |img|);
    }
  }

  lemma ColsPixelsCell(img: Image, n: nat, y: nat, x: nat)
    requires x < n && y < |img|
    ensures ColStart(x, |img|) + y < |ColsPixels(img, n)|
    ensures ColsPixels(img, n)[ColStart(x, |img|) + y] == Pixel(y, x, At(img, y, x))
  {
    LastColumnCell(img, y, x);
    ColsPixelsPrefix(img, x + 1, n);
    PrefixAt(ColsPixels(img, x + 1), ColsPixels(img, n), ColStart(x, |img|) + y);
  }

  /** Row y of column x comes right after the first x columns. */
  lemma LastColumnCell(img: Image, y: nat, x: nat)
    requires y < |img|
    ensures ColStart(x, |img|) + y < |ColsPixels(img, x + 1)|
    ensures ColsPixels(img, x + 1)[ColStart(x, |img|) + y] == Pixel(y, x, At(img, y, x))
  {
    var h := |img|;
    ColsPixelsLength(img, x);
    ColPixelsIndex(img, x, h);
    var front, col := ColsPixels(img, x), ColPixels(img, x, h);
    assert ColsPixels(img, x + 1) == front + col;
    CellInBack(front, col, ColStart(x, h) + y, y);
  }

  lemma PrefixAt(a: seq<Pixel>, b: seq<Pixel>, k: int)
    requires a <= b && 0 <= k < |a|
    ensures k < |b| && b[k] == a[k]
  {
    assert b[..|a|] == a;
  }

  /** Fewer columns give a prefix of the pixels of more. */
  lemma {:induction false} ColsPixelsPrefix(img: Image, m: nat, n: nat)
    requires m <= n
    ensures ColsPixels(img, m) <= ColsPixels(img, n)
    decreases n
  {
    if m < n {
      ColsPixelsPrefix(img, m, n - 1);
      PrefixExtends(ColsPixels(img, m), ColsPixels(img, n - 1), ColPixels(img, n - 1, |img|));
    }
  }

  lemma PrefixExtends(a: seq<Pixel>, b: seq<Pixel>, c: seq<Pixel>)
    requires a <= b
    ensures a <= b + c
  {
    assert (b + c)[..|b|] == b;
  }

  lemma MulCommutes(a: int, b: int)
    ensures a * b == b * a
  {
  }

  lemma CellInBack(front: seq<Pixel>, back: seq<Pixel>, k: int, j: int)
    requires 0 <= j < |back| && k == |front| + j
    ensures k < |front + back| && (front + back)[k] == back[j]
  {
  }

  /**
   * Column-major order: of an H-high image, entry x·H + y of direction 2 is
   * the pixel at row y, column x; every pixel appears exactly once.
   */
  lemma ColumnMajorIndex(img: Image)
    requires Rectangular(img)
    ensures |ColumnMajor(img)| == Width(img) * |img|
    ensures forall y, x :: 0 <= y < |img| && 0 <= x < Width(img) ==>
      ColumnMajor(img)[x * |img| + y] == Pixel(y, x, img[y][x])
  {
    ColsPixelsLength(img, Width(img));
    ColStartIsProduct(Width(img), |img|);
    MulCommutes(Width(img), |img|);
    forall y, x | 0 <= y < |img| && 0 <= x < Width(img)
      ensures x * |img| + y < |ColumnMajor(img)| && ColumnMajor(img)[x * |img| + y] == Pixel(y, x, img[y][x])
    {
      ColumnMajorCell(img, y, x);
    }
  }

  lemma ColumnMajorCell(img: Image, y: nat, x: nat)
    requires Rectangular(img) && y < |img| && x < Width(img)
    ensures x * |img| + y < |ColumnMajor(img)| && ColumnMajor(img)[x * |img| + y] == Pixel(y, x, img[y][x])
  {
    ColsPixelsCell(img, Width(img), y, x);
    ColStartIsProduct(x, |img|);
  }

  // ------------------------------------------------------------ diagonal order

  /** A (row, column) index into the pixel array, possibly negative or too large. */
  datatype Cell = Cell(r: int, c: int)

  /** The four nested loops of the diagonal directions: two for direction 3, two for direction 4. */
  datatype Part = D3Left | D3Bottom | D4Left | D4Top

  function Min(a: int, b: int): int
  {
    if a <= b then a else b
  }

  /** The number of values of `range(n)`: none for a negative n. */
  function Range(n: int): nat
  {
    if n < 0 then 0 else n
  }

  /** The first value of the outer loop variable of a part. */
  function OuterStart(part: Part): nat
  {
    if part.D3Left? || part.D4Left? then 0 else 1
  }

  /** The number of rounds of the outer loop: `range(H)` or `range(1, W)`. */
  function OuterCount(part: Part, h: nat, w: nat): nat
  {
    if part.D3Left? || part.D4Left? then h else Range(w - 1)
  }

  /** The number of rounds of the inner loop for outer value a. */
  function InnerCount(part: Part, a: int, h: nat, w: nat): nat
  {
    match part
    case D3Left => Range(Min(a, w - 1))
    case D3Bottom => Range(w - a)
    case D4Left => Range(Min(w - a, w - 1))
    case D4Top => Range(Min(w - a, w - 1))
  }

  /** The index the inner loop looks up for outer value a and inner value b. */
  function CellAt(part: Part, a: int, b: int, h: nat, w: nat): Cell
  {
    match part
    case D3Left => Cell(a - b, b)
    case D3Bottom => Cell(h - 1 - b, a + b)
    case D4Left => Cell(a + b, b)
    case D4Top => Cell(b, a + b)
  }

  /** The indices of the first n rounds of the inner loop for outer value a. */
  function InnerCells(part: Part, a: int, n: nat, h: nat, w: nat): seq<Cell>
  {
    if n == 0 then [] else InnerCells(part, a, n - 1, h, w) + [CellAt(part, a, n - 1, h, w)]
  }

  /** The indices one round of the outer loop, for outer value a, looks up. */
  function RoundCells(part: Part, a: int, h: nat, w: nat): seq<Cell>
  {
    InnerCells(part, a, InnerCount(part, a, h, w), h, w)
  }

  /** The indices of the first k rounds of the outer loop. */
  function PartCells(part: Part, k: nat, h: nat, w: nat): seq<Cell>
  {
    if k == 0 then []
    else
      var a := OuterStart(part) + k - 1;
      PartCells(part, k - 1, h, w) + RoundCells(part, a, h, w)
  }

  /** One more round of the outer loop appends the indices of its inner loop. */
  lemma PartCellsStep(part: Part, k: nat, h: nat, w: nat)
    ensures var a := OuterStart(part) + k;
      PartCells(part, k + 1, h, w) == PartCells(part, k, h, w) + RoundCells(part, a, h, w)
  {
  }

  /** All indices a part looks up. */
  function Cells(part: Part, h: nat, w: nat): seq<Cell>
  {
    PartCells(part, OuterCount(part, h, w), h, w)
  }

  /** numpy's index on an axis of length n: a negative index counts from the end. */
  function Wrap(i: int, n: nat): (r: Option<nat>)
    ensures r.Some? <==> -(n as int) <= i < n
    ensures r.Some? ==> r.value < n && (r.value == i || r.value == i + n)
  {
    if 0 <= i < n then Some(i) else if -(n as int) <= i < 0 then Some(i + n) else None
  }

  /** `pixels[r, c, :]`: the index and value stored at that position, or IndexError. */
  function Lookup(img: Image, cell: Cell): (r: Result<Pixel, ConvertError>)
    requires Rectangular(img)
    ensures r.Ok? <==> -|img| <= cell.r < |img| && -(Width(img) as int) <= cell.c < Width(img)
    ensures r.Ok? && 0 <= cell.r && 0 <= cell.c ==> r.value == Pixel(cell.r, cell.c, img[cell.r][cell.c])
  {
    match (Wrap(cell.r, |img|), Wrap(cell.c, Width(img)))
    case (Some(y), Some(x)) => Ok(Pixel(y, x, img[y][x]))
    case _ => Err(IndexError)
  }

  /** One more lookup after r: none once a lookup has failed, as the raised IndexError ends the walk. */
  function Next(img: Image, r: Result<seq<Pixel>, ConvertError>, cell: Cell): Result<seq<Pixel>, ConvertError>
    requires Rectangular(img)
  {
    match r
    case Err(e) => Err(e)
    case Ok(ps) =>
      match Lookup(img, cell)
      case Err(e) => Err(e)
      case Ok(q) => Ok(ps + [q])
  }

  /** The lookups of a list of indices, in order, after r. */
  function Extend(img: Image, r: Result<seq<Pixel>, ConvertError>, cells: seq<Cell>): Result<seq<Pixel>, ConvertError>
    requires Rectangular(img)
  {
    if cells == [] then r else Next(img, Extend(img, r, cells[..|cells| - 1]), cells[|cells| - 1])
  }

  /** The lookups of a list of indices, in order; the first that fails ends the walk. */
  function Lookups(img: Image, cells: seq<Cell>): Result<seq<Pixel>, ConvertError>
    requires Rectangular(img)
  {
    Extend(img, Ok([]), cells)
  }

  /** Looking up two lists of indices is looking up the first, then continuing with the second. */
  lemma {:induction false} ExtendAppend(img: Image, r: Result<seq<Pixel>, ConvertError>, a: seq<Cell>, b: seq<Cell>)
    requires Rectangular(img)
    ensures Extend(img, r, a + b) == Extend(img, Extend(img, r, a), b)
    decreases |b|
  {
    if b == [] {
      assert a + b == a;
    } else {
      assert (a + b)[..|a + b| - 1] == a + b[..|b| - 1];
      ExtendAppend(img, r, a, b[..|b| - 1]);
    }
  }

  /** A failed lookup is never undone. */
  lemma {:induction false} ExtendErr(img: Image, r: Result<seq<Pixel>, ConvertError>, cells: seq<Cell>)
    requires Rectangular(img) && r.Err?
    ensures Extend(img, r, cells) == r
    decreases |cells|
  {
    if cells != [] {
      ExtendErr(img, r, cells[..|cells| - 1]);
    }
  }

  /** An index inside the image, without wrapping. */
  predicate Inside(cell: Cell, h: nat, w: nat)
  {
    0 <= cell.r < h && 0 <= cell.c < w
  }

  /** Indices inside the image are looked up one for one. */
  lemma {:induction false} LookupsInside(img: Image, cells: seq<Cell>)
    requires Rectangular(img)
    requires forall k :: 0 <= k < |cells| ==> Inside(cells[k], |img|, Width(img))
    ensures Lookups(img, cells).Ok?
    ensures |Lookups(img, cells).value| == |cells|
    ensures forall k :: 0 <= k < |cells| ==>
      Inside(cells[k], |img|, Width(img)) && cells[k].c < |img[cells[k].r]| && Lookups(img, cells).value[k] == Pixel(cells[k].r, cells[k].c, img[cells[k].r][cells[k].c])
  {
    if cells != [] {
      var front := cells[..|cells| - 1];
      forall k | 0 <= k < |front| ensures Inside(front[k], |img|, Width(img)) {
        assert front[k] == cells[k];
      }
      LookupsInside(img, front);
      assert cells == front + [cells[|cells| - 1]];
    }
  }

  /** The pixels of a direction, in the order `convert` visits them. */
  function Traversal(img: Image, d: int): Result<seq<Pixel>, ConvertError>
    requires Rectangular(img)
  {
    if d == 1 then Ok(Enumerate(img))
    else if d == 2 then Ok(ColumnMajor(img))
    else if d == 3 then Lookups(img, Cells(D3Left, |img|, Width(img)) + Cells(D3Bottom, |img|, Width(img)))
    else if d == 4 then Lookups(img, Cells(D4Left, |img|, Width(img)) + Cells(D4Top, |img|, Width(img)))
    else Err(NotIterable)
  }

  /**
   * Of an image no wider than it is tall, every index of the diagonal loops
   * lies inside the image; the indices of direction 3 are never in row 0.
   */
  lemma CellInside(part: Part, a: int, b: int, h: nat, w: nat)
    requires w <= h
    requires OuterStart(part) <= a < OuterStart(part) + OuterCount(part, h, w)
    requires 0 <= b < InnerCount(part, a, h, w)
    ensures Inside(CellAt(part, a, b, h, w), h, w)
    ensures (part.D3Left? || part.D3Bottom?) ==> CellAt(part, a, b, h, w).r >= 1
  {
  }

  lemma {:induction false} PartCellsInside(part: Part, k: nat, h: nat, w: nat)
    requires w <= h && k <= OuterCount(part, h, w)
    ensures forall i :: 0 <= i < |PartCells(part, k, h, w)| ==>
      Inside(PartCells(part, k, h, w)[i], h, w)
      && ((part.D3Left? || part.D3Bottom?) ==> PartCells(part, k, h, w)[i].r >= 1)
  {
    if k > 0 {
      PartCellsInside(part, k - 1, h, w);
      var a := OuterStart(part) + k - 1;
      var front, inner := PartCells(part, k - 1, h, w), InnerCells(part, a, InnerCount(part, a, h, w), h, w);
      InnerCellsIndex(part, a, InnerCount(part, a, h, w), h, w);
      forall i | 0 <= i < |front + inner|
        ensures Inside((front + inner)[i], h, w) && ((part.D3Left? || part.D3Bottom?) ==> (front + inner)[i].r >= 1)
      {
        if i >= |front| {
          CellInside(part, a, i - |front|, h, w);
        }
      }
    }
  }

  lemma {:induction false} InnerCellsIndex(part: Part, a: int, n: nat, h: nat, w: nat)
    ensures |InnerCells(part, a, n, h, w)| == n
    ensures forall b :: 0 <= b < n ==> InnerCells(part, a, n, h, w)[b] == CellAt(part, a, b, h, w)
  {
    if n > 0 {
      InnerCellsIndex(part, a, n - 1, h, w);
    }
  }

  /**
   * Directions 3 and 4 raise no IndexError on an image no wider than it is
   * tall: they visit the pixels of their loops' indices one for one, and the
   * pixels of direction 3 all lie below row 0.
   */
  lemma DiagonalsInside(img: Image, d: int)
    requires Rectangular(img) && Width(img) <= |img| && (d == 3 || d == 4)
    ensures Traversal(img, d).Ok?
    ensures var cells := if d == 3 then Cells(D3Left, |img|, Width(img)) + Cells(D3Bottom, |img|, Width(img))
                         else Cells(D4Left, |img|, Width(img)) + Cells(D4Top, |img|, Width(img));
      |Traversal(img, d).value| == |cells|
      && forall k :: 0 <= k < |cells| ==>
           0 <= cells[k].r < |img| && 0 <= cells[k].c < |img[cells[k].r]|
           && Traversal(img, d).value[k] == Pixel(cells[k].r, cells[k].c, img[cells[k].r][cells[k].c])
    ensures d == 3 ==> forall k :: 0 <= k < |Traversal(img, d).value| ==> Traversal(img, d).value[k].y >= 1
  {
    var h, w := |img|, Width(img);
    var first, second := if d == 3 then D3Left else D4Left, if d == 3 then D3Bottom else D4Top;
    PartCellsInside(first, OuterCount(first, h, w), h, w);
    PartCellsInside(second, OuterCount(second, h, w), h, w);
    var cells := Cells(first, h, w) + Cells(second, h, w);
    forall k | 0 <= k < |cells|
      ensures Inside(cells[k], h, w) && (d == 3 ==> cells[k].r >= 1)
    {
      if k >= |Cells(first, h, w)| {
        assert cells[k] == Cells(second, h, w)[k - |Cells(first, h, w)|];
      }
    }
    LookupsInside(img, cells);
  }

  /**
   * The nested loops of one diagonal part, continuing the lookups in r0: each
   * index is looked up and its pixel appended.
   */
  method CollectPart(img: Image, part: Part, r0: Result<seq<Pixel>, ConvertError>)
    returns (r: Result<seq<Pixel>, ConvertError>)
    requires Rectangular(img)
    ensures r == Extend(img, r0, Cells(part, |img|, Width(img)))
  {
    r := r0;
    for i := 0 to OuterCount(part, |img|, Width(img))
      invariant r == Extend(img, r0, PartCells(part, i, |img|, Width(img)))
    {
      r := CollectNextRound(img, part, r0, i, r);
    }
  }

  /** Round i of the outer loop, continuing the lookups of the rounds before it. */
  method CollectNextRound(img: Image, part: Part, r0: Result<seq<Pixel>, ConvertError>, i: nat,
                          r: Result<seq<Pixel>, ConvertError>)
    returns (r': Result<seq<Pixel>, ConvertError>)
    requires Rectangular(img) && r == Extend(img, r0, PartCells(part, i, |img|, Width(img)))
    ensures r' == Extend(img, r0, PartCells(part, i + 1, |img|, Width(img)))
  {
    OuterStep(img, r0, part, i);
    r' := CollectRound(img, part, OuterStart(part) + i, r);
  }

  /** One more round of the outer loop continues the lookups with those of its inner loop. */
  lemma OuterStep(img: Image, r0: Result<seq<Pixel>, ConvertError>, part: Part, i: nat)
    requires Rectangular(img)
    ensures var h, w, a := |img|, Width(img), OuterStart(part) + i;
      Extend(img, r0, PartCells(part, i + 1, h, w))
      == Extend(img, Extend(img, r0, PartCells(part, i, h, w)), RoundCells(part, a, h, w))
  {
    var h, w, a := |img|, Width(img), OuterStart(part) + i;
    PartCellsStep(part, i, h, w);
    ExtendAppend(img, r0, PartCells(part, i, h, w), RoundCells(part, a, h, w));
  }

  /** The inner loop of a part for outer value a, continuing the lookups in r0. */
  method CollectRound(img: Image, part: Part, a: int, r0: Result<seq<Pixel>, ConvertError>)
    returns (r: Result<seq<Pixel>, ConvertError>)
    requires Rectangular(img)
    ensures r == Extend(img, r0, RoundCells(part, a, |img|, Width(img)))
  {
    var h, w := |img|, Width(img);
    var n := InnerCount(part, a, h, w);
    r := r0;
    for j := 0 to n
      invariant r == Extend(img, r0, InnerCells(part, a, j, h, w))
    {
      InnerStep(img, r0, part, a, j);
      r := Append(img, r, CellAt(part, a, j, h, w));
    }
  }

  /** `indices.append(pixels[r, c, :])`: the first index out of range raises IndexError, which ends `convert`. */
  method Append(img: Image, r0: Result<seq<Pixel>, ConvertError>, cell: Cell) returns (r: Result<seq<Pixel>, ConvertError>)
    requires Rectangular(img)
    ensures r == Next(img, r0, cell)
  {
    r := r0;
    if r.Ok? {
      var q := Lookup(img, cell);
      if q.Ok? {
        r := Ok(r.value + [q.value]);
      } else {
        r := Err(q.error);
      }
    }
  }

  /** One more round of the inner loop looks up one more index. */
  lemma InnerStep(img: Image, r0: Result<seq<Pixel>, ConvertError>, part: Part, a: int, j: nat)
    requires Rectangular(img)
    ensures var h, w := |img|, Width(img);
      Extend(img, r0, InnerCells(part, a, j + 1, h, w))
      == Next(img, Extend(img, r0, InnerCells(part, a, j, h, w)), CellAt(part, a, j, h, w))
  {
    var h, w := |img|, Width(img);
    var seen, cell := InnerCells(part, a, j, h, w), CellAt(part, a, j, h, w);
    assert InnerCells(part, a, j + 1, h, w) == seen + [cell];
    assert (seen + [cell])[..|seen + [cell]| - 1] == seen;
  }

  /** The pixel list of one direction: a reshape for 1 and 2, the two diagonal parts for 3 and 4. */
  method Indices(img: Image, d: int) returns (r: Result<seq<Pixel>, ConvertError>)
    requires Rectangular(img)
    ensures r == Traversal(img, d)
  {
    var h, w := |img|, Width(img);
    if d == 1 {
      r := Ok(Enumerate(img));
    } else if d == 2 {
      r := Ok(ColumnMajor(img));
    } else if d == 3 || d == 4 {
      var first, second := if d == 3 then D3Left else D4Left, if d == 3 then D3Bottom else D4Top;
      var r1 := CollectPart(img, first, Ok([]));
      r := CollectPart(img, second, r1);
      ExtendAppend(img, Ok([]), Cells(first, h, w), Cells(second, h, w));
    } else {
      r := Err(NotIterable);
    }
  }

  // ------------------------------------------------------------ runs

  /**
   * The threshold test of a pass: the value lies in [lo, hi] and in the first
   * 1/(passes + 1) of that band, passes being the number of passes already drawn.
   */
  predicate Admit(v: real, lo: int, hi: int, passes: nat)
  {
    v >= lo as real && v <= hi as real && v - lo as real <= (hi - lo) as real / (passes + 1) as real
  }

  /** The grey value the threshold sees: 255 − v when the threshold is inverted. */
  function Shade(v: real, inv: bool): real
  {
    if inv then 255.0 - v else v
  }

  predicate Admitted(p: Params, passes: nat, px: Pixel)
  {
    Admit(Shade(px.value, p.thresholdInv), p.thresholdMin, p.thresholdMax, passes)
  }

  /** The pixel position (x, y) of a pixel. */
  function Position(px: Pixel): Point
  {
    Point(px.x as real, px.y as real)
  }

  /** Start a run: a non-drawing move to the pixel, then pen down. */
  function Open(p: Params, at: Point): seq<Cmd>
  {
    [Move(Px2Scr(at, p.scale, p.offset), p.speedNodraw), Pen(true)]
  }

  /** Close a run: a drawing move to its last pixel, then pen up. */
  function Close(p: Params, at: Point): seq<Cmd>
  {
    [Move(Px2Scr(at, p.scale, p.offset), p.speedDraw), Pen(false)]
  }

  /** The state of a pass between pixels. */
  datatype Run = Run(drawing: bool, lastDraw: Point, lastX: int, lastY: int)

  /** The state at the start of every pass. */
  const Fresh: Run := Run(false, Point(0.0, 0.0), 0, 0)

  /** The state after a pixel, and the commands it adds. */
  datatype Step = Step(run: Run, cmds: seq<Cmd>)

  /** Whether a pixel is one of the 8 neighbours of (x, y), or (x, y) itself. */
  predicate Adjacent(px: Pixel, x: int, y: int)
  {
    -1 <= px.x - x <= 1 && -1 <= px.y - y <= 1
  }

  /** A pixel that is not next to the previous one closes the open run. */
  function Break(p: Params, s: Run, px: Pixel): Step
  {
    if s.drawing && !Adjacent(px, s.lastX, s.lastY) then Step(s.(drawing := false), Close(p, s.lastDraw))
    else Step(s, [])
  }

  /**
   * The threshold test of a pixel: an admitted pixel opens a run if none is
   * open and becomes the last drawn one; one that is not admitted closes the
   * open run. The pixel becomes the previous one.
   */
  function Threshold(p: Params, passes: nat, s: Run, px: Pixel): Step
  {
    if Admitted(p, passes, px) then
      Step(Run(true, Position(px), px.x, px.y), if s.drawing then [] else Open(p, Position(px)))
    else
      Step(Run(false, s.lastDraw, px.x, px.y), if s.drawing then Close(p, s.lastDraw) else [])
  }

  /** One pixel of a pass: the break test, then the threshold test. */
  function Visit(p: Params, passes: nat, s: Run, px: Pixel): Step
  {
    var b := Break(p, s, px);
    var t := Threshold(p, passes, b.run, px);
    Step(t.run, b.cmds + t.cmds)
  }

  /** The state and commands after the pixels of a pass, from the fresh state. */
  function Scan(p: Params, passes: nat, pixels: seq<Pixel>): Step
  {
    if pixels == [] then Step(Fresh, [])
    else
      var before := Scan(p, passes, pixels[..|pixels| - 1]);
      var v := Visit(p, passes, before.run, pixels[|pixels| - 1]);
      Step(v.run, before.cmds + v.cmds)
  }

  /** The commands of one pass: its pixels, then closing the run still open. */
  function PassCmds(p: Params, passes: nat, pixels: seq<Pixel>): seq<Cmd>
  {
    var s := Scan(p, passes, pixels);
    s.cmds + (if s.run.drawing then Close(p, s.run.lastDraw) else [])
  }

  /** The commands of `convert` after the first k directions, or the error that ends it. */
  function Passes(img: Image, p: Params, k: nat): Result<seq<Cmd>, ConvertError>
    requires Rectangular(img) && k <= |p.dirs|
  {
    if k == 0 then Ok([Pen(false), Home])
    else
      match Passes(img, p, k - 1)
      case Err(e) => Err(e)
      case Ok(cs) =>
        match Traversal(img, p.dirs[k - 1])
        case Err(e) => Err(e)
        case Ok(pixels) => Ok(cs + PassCmds(p, k - 1, pixels))
  }

  /** The commands of `convert` on a grey image. */
  function ConvertSpec(img: Image, p: Params): Result<seq<Cmd>, ConvertError>
    requires Rectangular(img)
  {
    Passes(img, p, |p.dirs|)
  }

  function Rendered(r: Result<seq<Cmd>, ConvertError>): Result<seq<string>, ConvertError>
  {
    match r
    case Ok(cs) => Ok(RenderAll(cs))
    case Err(e) => Err(e)
  }

  /** The lines of two commands. */
  lemma RenderTwo(a: Cmd, b: Cmd)
    ensures RenderAll([a, b]) == [Render(a), Render(b)]
  {
    assert [b][1..] == [];
    assert RenderAll([b]) == [Render(b)] + RenderAll([]);
    assert [a, b][1..] == [b];
    assert RenderAll([a, b]) == [Render(a)] + RenderAll([b]);
  }

  lemma RenderOpen(p: Params, at: Point)
    ensures RenderAll(Open(p, at)) == [GoTo(Px2Scr(at, p.scale, p.offset), p.speedNodraw), PenLine(true)]
  {
    RenderTwo(Move(Px2Scr(at, p.scale, p.offset), p.speedNodraw), Pen(true));
  }

  lemma RenderClose(p: Params, at: Point)
    ensures RenderAll(Close(p, at)) == [GoTo(Px2Scr(at, p.scale, p.offset), p.speedDraw), PenLine(false)]
  {
    RenderTwo(Move(Px2Scr(at, p.scale, p.offset), p.speedDraw), Pen(false));
  }

  /** The break test of `convert`, on its loop variables. */
  method BreakRun(p: Params, drawing: bool, lastDrawPos: Point, lastX: int, lastY: int, px: Pixel)
    returns (drawing': bool, lines: seq<string>)
    ensures var b := Break(p, Run(drawing, lastDrawPos, lastX, lastY), px);
      b.run == Run(drawing', lastDrawPos, lastX, lastY) && lines == RenderAll(b.cmds)
  {
    drawing' := drawing;
    lines := [];
    var sameLine := -1 <= px.x - lastX <= 1 && -1 <= px.y - lastY <= 1;
    if !sameLine && drawing {
      var pScreen := Px2Scr(lastDrawPos, p.scale, p.offset);
      lines := lines + [GoTo(pScreen, p.speedDraw), PenLine(false)];
      RenderClose(p, lastDrawPos);
      drawing' := false;
    }
  }

  /** The threshold test of `convert`, on its loop variables. */
  method ThresholdPixel(p: Params, passes: nat, drawing: bool, lastDrawPos: Point, px: Pixel)
    returns (drawing': bool, lastDrawPos': Point, lastX': int, lastY': int, lines: seq<string>)
    ensures var t := Threshold(p, passes, Run(drawing, lastDrawPos, lastX', lastY'), px);
      t.run == Run(drawing', lastDrawPos', lastX', lastY') && lines == RenderAll(t.cmds)
  {
    drawing', lastDrawPos' := drawing, lastDrawPos;
    lines := [];
    lastY', lastX' := px.y, px.x;
    var pImg := Position(px);
    var pixel := Shade(px.value, p.thresholdInv);
    if Admit(pixel, p.thresholdMin, p.thresholdMax, passes) {
      if !drawing' {
        var pScreen := Px2Scr(pImg, p.scale, p.offset);
        lines := lines + [GoTo(pScreen, p.speedNodraw), PenLine(true)];
        RenderOpen(p, pImg);
        drawing' := true;
      }
    } else {
      if drawing' {
        var pScreen := Px2Scr(lastDrawPos', p.scale, p.offset);
        lines := lines + [GoTo(pScreen, p.speedDraw), PenLine(false)];
        RenderClose(p, lastDrawPos');
        drawing' := false;
      }
    }
    if drawing' {
      lastDrawPos' := pImg;
    }
  }

  /** One pass of `convert` over the pixels of one direction. */
  method DrawPass(p: Params, passes: nat, pixels: seq<Pixel>) returns (lines: seq<string>)
    ensures lines == RenderAll(PassCmds(p, passes, pixels))
  {
    var drawing := false;
    var lastDrawPos := Point(0.0, 0.0);
    var lastY, lastX := 0, 0;
    lines := [];
    var i := 0;
    while i < |pixels|
      invariant 0 <= i <= |pixels|
      invariant Scan(p, passes, pixels[..i]) == Step(Run(drawing, lastDrawPos, lastX, lastY), Scan(p, passes, pixels[..i]).cmds)
      invariant lines == RenderAll(Scan(p, passes, pixels[..i]).cmds)
    {
      ghost var before := Scan(p, passes, pixels[..i]);
      ghost var b := Break(p, before.run, pixels[i]);
      var closing, more;
      drawing, closing := BreakRun(p, drawing, lastDrawPos, lastX, lastY, pixels[i]);
      drawing, lastDrawPos, lastX, lastY, more := ThresholdPixel(p, passes, drawing, lastDrawPos, pixels[i]);
      assert pixels[..i + 1][..i] == pixels[..i];
      RenderAppend(b.cmds, Threshold(p, passes, b.run, pixels[i]).cmds);
      RenderAppend(before.cmds, Visit(p, passes, before.run, pixels[i]).cmds);
      lines := lines + (closing + more);
      i := i + 1;
    }
    assert pixels[..i] == pixels;
    ghost var last: seq<Cmd> := [];
    if drawing {
      var pScreen := Px2Scr(lastDrawPos, p.scale, p.offset);
      lines := lines + [GoTo(pScreen, p.speedDraw), PenLine(false)];
      last := Close(p, lastDrawPos);
      RenderClose(p, lastDrawPos);
    }
    RenderAppend(Scan(p, passes, pixels).cmds, last);
  }

  /** `convert` on a grey image: pen up, home, then one pass per direction. */
  method Convert(img: Image, p: Params) returns (r: Result<seq<string>, ConvertError>)
    requires Rectangular(img)
    ensures r == Rendered(ConvertSpec(img, p))
  {
    var gcode := StartLines(img, p);
    for dirsDrawn := 0 to |p.dirs|
      invariant Rendered(Passes(img, p, dirsDrawn)) == Ok(gcode)
    {
      var next := Direction(img, p, dirsDrawn, gcode);
      if next.Err? {
        return next;
      }
      gcode := next.value;
    }
    r := Ok(gcode);
  }

  /** The lines `convert` starts with: pen up, then home. */
  method StartLines(img: Image, p: Params) returns (gcode: seq<string>)
    requires Rectangular(img)
    ensures Rendered(Passes(img, p, 0)) == Ok(gcode)
  {
    gcode := [PenLine(false), HomeLine];
    RenderTwo(Pen(false), Home);
  }

  /** One round of the loop over the directions: the pixels of direction k, then its pass. */
  method Direction(img: Image, p: Params, k: nat, gcode: seq<string>) returns (r: Result<seq<string>, ConvertError>)
    requires Rectangular(img) && k < |p.dirs| && Rendered(Passes(img, p, k)) == Ok(gcode)
    ensures r == Rendered(Passes(img, p, k + 1))
    ensures r.Err? ==> r == Rendered(ConvertSpec(img, p))
  {
    var indices := Indices(img, p.dirs[k]);
    PassesStep(img, p, k);
    if indices.Err? {
      PassesErr(img, p, k + 1, |p.dirs|);
      return Err(indices.error);
    }
    var lines := DrawPass(p, k, indices.value);
    RenderAppend(Passes(img, p, k).value, PassCmds(p, k, indices.value));
    r := Ok(gcode + lines);
  }

  /** One more direction: its pass is appended, or its error ends `convert`. */
  lemma PassesStep(img: Image, p: Params, k: nat)
    requires Rectangular(img) && k < |p.dirs| && Passes(img, p, k).Ok?
    ensures Passes(img, p, k + 1) == match Traversal(img, p.dirs[k])
      case Err(e) => Err(e)
      case Ok(pixels) => Ok(Passes(img, p, k).value + PassCmds(p, k, pixels))
  {
  }

  /** Once a direction has failed, `convert` fails with its error. */
  lemma {:induction false} PassesErr(img: Image, p: Params, k: nat, m: nat)
    requires Rectangular(img) && k <= m <= |p.dirs| && Passes(img, p, k).Err?
    ensures Passes(img, p, m) == Passes(img, p, k)
    decreases m
  {
    if m > k {
      PassesErr(img, p, k, m - 1);
    }
  }

  // ------------------------------------------------------------ properties

  /** A later pass admits no pixel an earlier one did not: the band only narrows. */
  lemma AdmitNarrows(v: real, lo: int, hi: int, passes: nat)
    ensures Admit(v, lo, hi, passes + 1) ==> Admit(v, lo, hi, passes)
  {
    if Admit(v, lo, hi, passes + 1) {
      var band := (hi - lo) as real;
      var k := (passes + 1) as real;
      assert band >= 0.0;
      assert band / (k + 1.0) <= band / k by {
        assert band / (k + 1.0) * (k + 1.0) == band;
        assert band / k * k == band;
        assert band / (k + 1.0) * k <= band / (k + 1.0) * (k + 1.0);
      }
    }
  }

  /** After a pass, the pen is down exactly when the last pixel was admitted, and then it was the last drawn. */
  lemma ScanDrawing(p: Params, passes: nat, pixels: seq<Pixel>)
    ensures var run := Scan(p, passes, pixels).run;
      run.drawing ==> pixels != [] && Admitted(p, passes, pixels[|pixels| - 1])
                      && run.lastDraw == Position(pixels[|pixels| - 1])
    ensures pixels != [] && Admitted(p, passes, pixels[|pixels| - 1]) ==> Scan(p, passes, pixels).run.drawing
  {
  }

  lemma PensOf(p: Params, at: Point)
    ensures Pens(Open(p, at)) == [true] && Pens(Close(p, at)) == [false] && Pens([]) == []
  {
    var o, c := Open(p, at), Close(p, at);
    assert o[1..][1..] == [] && c[1..][1..] == [];
    assert Pens(o[1..]) == [true] + Pens(o[1..][1..]);
    assert Pens(c[1..]) == [false] + Pens(c[1..][1..]);
  }

  /**
   * The pen changes of the pixels of a pass so far: whole strokes, down then
   * up, and one more "down" while a run is open.
   */
  lemma {:induction false} ScanPens(p: Params, passes: nat, pixels: seq<Pixel>) returns (n: nat)
    ensures Pens(Scan(p, passes, pixels).cmds) == Strokes(n) + (if Scan(p, passes, pixels).run.drawing then [true] else [])
  {
    if pixels == [] {
      n := 0;
    } else {
      var front := pixels[..|pixels| - 1];
      var n0 := ScanPens(p, passes, front);
      var before := Scan(p, passes, front);
      var v := Visit(p, passes, before.run, pixels[|pixels| - 1]);
      VisitPens(p, passes, before.run, pixels[|pixels| - 1]);
      PensAppend(before.cmds, v.cmds);
      n := if before.run.drawing && v.cmds != [] then n0 + 1 else n0;
      if before.run.drawing && v.cmds != [] {
        StrokeClosed(n0, if v.run.drawing then [true] else []);
      }
    }
  }

  /**
   * The pen changes of one pixel: from an open run, none (the run goes on)
   * or "up", followed by "down" when a new run opens; from no run, "down"
   * exactly when a run opens.
   */
  lemma VisitPens(p: Params, passes: nat, s: Run, px: Pixel)
    ensures var v := Visit(p, passes, s, px);
      Pens(v.cmds) == (if s.drawing && v.cmds != [] then [false] else []) + (if v.run.drawing && (v.cmds != [] || !s.drawing) then [true] else [])
    ensures var v := Visit(p, passes, s, px);
      s.drawing && v.cmds == [] ==> v.run.drawing
  {
    var b := Break(p, s, px);
    var t := Threshold(p, passes, b.run, px);
    PensAppend(b.cmds, t.cmds);
    PensOf(p, s.lastDraw);
    PensOf(p, Position(px));
  }

  lemma StrokeClosed(n: nat, tail: seq<bool>)
    ensures Strokes(n) + [true] + ([false] + tail) == Strokes(n + 1) + tail
  {
    assert Strokes(n + 1) == Strokes(n) + [true, false];
  }

  /** The pen changes of a pass are whole strokes: down then up, so every pass ends with the pen up. */
  lemma PassPens(p: Params, passes: nat, pixels: seq<Pixel>)
    ensures exists n: nat :: Pens(PassCmds(p, passes, pixels)) == Strokes(n)
  {
    var n := ScanPens(p, passes, pixels);
    var s := Scan(p, passes, pixels);
    PensAppend(s.cmds, if s.run.drawing then Close(p, s.run.lastDraw) else []);
    PensOf(p, s.run.lastDraw);
    if s.run.drawing {
      assert Strokes(n) + [true] + [false] == Strokes(n + 1);
    } else {
      assert Strokes(n) + [] + [] == Strokes(n);
    }
  }

  /** Pair i of a command list is a move followed by a pen change, the move at the speed the change calls for. */
  predicate PairAt(cs: seq<Cmd>, p: Params, i: nat)
    requires 2 * i + 1 < |cs|
  {
    cs[2 * i].Move? && cs[2 * i + 1].Pen?
    && cs[2 * i].speed == (if cs[2 * i + 1].down then p.speedNodraw else p.speedDraw)
  }

  /**
   * The commands come in pairs: a move then a pen change. Lowering the pen
   * follows a move at the non-drawing speed, lifting it a move at the drawing
   * speed.
   */
  predicate MovePenPairs(cs: seq<Cmd>, p: Params)
  {
    |cs| % 2 == 0 && forall i: nat :: i < |cs| / 2 ==> PairAt(cs, p, i)
  }

  lemma PairsAppend(a: seq<Cmd>, b: seq<Cmd>, p: Params)
    requires MovePenPairs(a, p) && MovePenPairs(b, p)
    ensures MovePenPairs(a + b, p)
  {
    var h := |a| / 2;
    forall i: nat | i < |a + b| / 2 ensures PairAt(a + b, p, i) {
      if i < h {
        assert PairAt(a, p, i);
      } else {
        assert PairAt(b, p, i - h);
        assert (a + b)[2 * i] == b[2 * (i - h)] && (a + b)[2 * i + 1] == b[2 * (i - h) + 1];
      }
    }
  }

  lemma PairsOf(p: Params, at: Point)
    ensures MovePenPairs(Open(p, at), p) && MovePenPairs(Close(p, at), p) && MovePenPairs([], p)
  {
    assert PairAt(Open(p, at), p, 0) && PairAt(Close(p, at), p, 0);
  }

  lemma {:induction false} ScanPairs(p: Params, passes: nat, pixels: seq<Pixel>)
    ensures MovePenPairs(Scan(p, passes, pixels).cmds, p)
  {
    if pixels == [] {
      PairsOf(p, Origin);
    } else {
      var front, px := pixels[..|pixels| - 1], pixels[|pixels| - 1];
      ScanPairs(p, passes, front);
      var before := Scan(p, passes, front);
      var b := Break(p, before.run, px);
      var t := Threshold(p, passes, b.run, px);
      PairsOf(p, before.run.lastDraw);
      PairsOf(p, Position(px));
      PairsAppend(b.cmds, t.cmds, p);
      PairsAppend(before.cmds, b.cmds + t.cmds, p);
    }
  }

  /**
   * A pass emits moves and pen changes in pairs: each run starts with a
   * non-drawing move and "pen down", and ends with a drawing move and "pen up".
   */
  lemma PassPairs(p: Params, passes: nat, pixels: seq<Pixel>)
    ensures MovePenPairs(PassCmds(p, passes, pixels), p)
  {
    var s := Scan(p, passes, pixels);
    ScanPairs(p, passes, pixels);
    PairsOf(p, s.run.lastDraw);
    PairsAppend(s.cmds, if s.run.drawing then Close(p, s.run.lastDraw) else [], p);
  }

  /** Every move goes to (the drawing position of) a pixel the pass admits. */
  predicate MovesToAdmitted(cs: seq<Cmd>, p: Params, passes: nat, pixels: seq<Pixel>)
  {
    forall i :: 0 <= i < |cs| && cs[i].Move? ==>
      exists k :: 0 <= k < |pixels| && Admitted(p, passes, pixels[k])
                  && cs[i].to == Px2Scr(Position(pixels[k]), p.scale, p.offset)
  }

  lemma {:induction false} ScanMoves(p: Params, passes: nat, pixels: seq<Pixel>)
    ensures MovesToAdmitted(Scan(p, passes, pixels).cmds, p, passes, pixels)
  {
    if pixels != [] {
      var n := |pixels| - 1;
      var front, px := pixels[..n], pixels[n];
      ScanMoves(p, passes, front);
      ScanDrawing(p, passes, front);
      var before := Scan(p, passes, front);
      var v := Visit(p, passes, before.run, px);
      VisitMoves(p, passes, before.run, px);
      var cs := before.cmds + v.cmds;
      forall i | 0 <= i < |cs| && cs[i].Move?
        ensures exists k :: 0 <= k < |pixels| && Admitted(p, passes, pixels[k])
                            && cs[i].to == Px2Scr(Position(pixels[k]), p.scale, p.offset)
      {
        if i < |before.cmds| {
          assert cs[i] == before.cmds[i];
          var k :| 0 <= k < |front| && Admitted(p, passes, front[k])
                   && before.cmds[i].to == Px2Scr(Position(front[k]), p.scale, p.offset);
          assert pixels[k] == front[k];
        } else {
          assert cs[i] == v.cmds[i - |before.cmds|];
          if cs[i].to == Px2Scr(Position(px), p.scale, p.offset) && Admitted(p, passes, px) {
            assert pixels[n] == px;
          } else {
            assert pixels[n - 1] == front[|front| - 1];
          }
        }
      }
    }
  }

  /**
   * A move made at one pixel goes to that pixel, when it is admitted, or
   * closes the open run at its last drawn pixel.
   */
  lemma VisitMoves(p: Params, passes: nat, s: Run, px: Pixel)
    ensures var cs := Visit(p, passes, s, px).cmds;
      forall i :: 0 <= i < |cs| && cs[i].Move? ==>
        (Admitted(p, passes, px) && cs[i].to == Px2Scr(Position(px), p.scale, p.offset))
        || (s.drawing && cs[i].to == Px2Scr(s.lastDraw, p.scale, p.offset))
  {
    var b := Break(p, s, px);
    var t := Threshold(p, passes, b.run, px);
    var cs := b.cmds + t.cmds;
    forall i | 0 <= i < |cs| && cs[i].Move?
      ensures (Admitted(p, passes, px) && cs[i].to == Px2Scr(Position(px), p.scale, p.offset))
              || (s.drawing && cs[i].to == Px2Scr(s.lastDraw, p.scale, p.offset))
    {
      if i < |b.cmds| {
        assert cs[i] == b.cmds[i];
      } else {
        assert cs[i] == t.cmds[i - |b.cmds|];
      }
    }
  }

  /** Every move of a pass, opening or closing a run, goes to a pixel that pass admits. */
  lemma PassMoves(p: Params, passes: nat, pixels: seq<Pixel>)
    ensures MovesToAdmitted(PassCmds(p, passes, pixels), p, passes, pixels)
  {
    var s := Scan(p, passes, pixels);
    ScanMoves(p, passes, pixels);
    ScanDrawing(p, passes, pixels);
    var cs := PassCmds(p, passes, pixels);
    forall i | 0 <= i < |cs| && cs[i].Move?
      ensures exists k :: 0 <= k < |pixels| && Admitted(p, passes, pixels[k])
                          && cs[i].to == Px2Scr(Position(pixels[k]), p.scale, p.offset)
    {
      if i < |s.cmds| {
        assert cs[i] == s.cmds[i];
      } else {
        assert Admitted(p, passes, pixels[|pixels| - 1]);
      }
    }
  }

  /** A pass that admits no pixel emits nothing. */
  lemma {:induction false} NothingAdmitted(p: Params, passes: nat, pixels: seq<Pixel>)
    requires forall k :: 0 <= k < |pixels| ==> !Admitted(p, passes, pixels[k])
    ensures PassCmds(p, passes, pixels) == []
  {
    NothingScanned(p, passes, pixels);
  }

  lemma {:induction false} NothingScanned(p: Params, passes: nat, pixels: seq<Pixel>)
    requires forall k :: 0 <= k < |pixels| ==> !Admitted(p, passes, pixels[k])
    ensures Scan(p, passes, pixels).cmds == [] && !Scan(p, passes, pixels).run.drawing
  {
    if pixels != [] {
      var front := pixels[..|pixels| - 1];
      forall k | 0 <= k < |front| ensures !Admitted(p, passes, front[k]) {
        assert front[k] == pixels[k];
      }
      NothingScanned(p, passes, front);
    }
  }

  /** After "pen up" and "home", the output is made of move/pen pairs. */
  lemma {:induction false} PassesPairs(img: Image, p: Params, k: nat)
    requires Rectangular(img) && k <= |p.dirs| && Passes(img, p, k).Ok?
    ensures StartThenPairs(Passes(img, p, k).value, p)
  {
    if k == 0 {
      PairsOf(p, Origin);
      assert Passes(img, p, k).value[2..] == [];
    } else {
      PassesPairs(img, p, k - 1);
      PassesStep(img, p, k - 1);
      var pixels := Traversal(img, p.dirs[k - 1]).value;
      PassPairs(p, k - 1, pixels);
      PairsJoin(Passes(img, p, k - 1).value, PassCmds(p, k - 1, pixels), p);
    }
  }

  /** "Pen up" and "home", then move/pen pairs. */
  predicate StartThenPairs(cs: seq<Cmd>, p: Params)
  {
    |cs| >= 2 && cs[..2] == [Pen(false), Home] && MovePenPairs(cs[2..], p)
  }

  lemma PairsJoin(front: seq<Cmd>, pass: seq<Cmd>, p: Params)
    requires StartThenPairs(front, p) && MovePenPairs(pass, p)
    ensures StartThenPairs(front + pass, p)
  {
    var cs := front + pass;
    assert cs[2..] == front[2..] + pass;
    assert cs[..2] == front[..2];
    PairsAppend(front[2..], pass, p);
  }

  /** The pen changes of the output are "up" followed by whole strokes. */
  lemma {:induction false} PassesPens(img: Image, p: Params, k: nat)
    requires Rectangular(img) && k <= |p.dirs| && Passes(img, p, k).Ok?
    ensures exists n: nat :: Pens(Passes(img, p, k).value) == [false] + Strokes(n)
  {
    if k == 0 {
      StartPens();
    } else {
      PassesPens(img, p, k - 1);
      PassesStep(img, p, k - 1);
      var pixels := Traversal(img, p.dirs[k - 1]).value;
      PassPens(p, k - 1, pixels);
      var n0: nat :| Pens(Passes(img, p, k - 1).value) == [false] + Strokes(n0);
      var n1: nat :| Pens(PassCmds(p, k - 1, pixels)) == Strokes(n1);
      PensJoin(Passes(img, p, k - 1).value, PassCmds(p, k - 1, pixels), n0, n1);
    }
  }

  lemma StartPens()
    ensures Pens([Pen(false), Home]) == [false] + Strokes(0)
  {
    assert [Pen(false), Home][1..] == [Home] && [Home][1..] == [];
  }

  lemma PensJoin(front: seq<Cmd>, pass: seq<Cmd>, n0: nat, n1: nat)
    requires Pens(front) == [false] + Strokes(n0) && Pens(pass) == Strokes(n1)
    ensures Pens(front + pass) == [false] + Strokes(n0 + n1)
  {
    PensAppend(front, pass);
    StrokesAdd(n0, n1);
  }

  /**
   * `convert`'s lines start with pen up and home, and their pen commands
   * alternate, starting and ending with "pen up".
   */
  lemma ConvertShape(img: Image, p: Params)
    requires Rectangular(img) && ConvertSpec(img, p).Ok?
    ensures var cs := ConvertSpec(img, p).value;
      var lines := RenderAll(cs);
      |lines| >= 2 && lines[0] == PenLine(false) && lines[1] == HomeLine
      && Alternating(PenCommands(lines))
      && PenCommands(lines)[|PenCommands(lines)| - 1] == false
  {
    var cs := ConvertSpec(img, p).value;
    PassesPairs(img, p, |p.dirs|);
    PassesPens(img, p, |p.dirs|);
    var n: nat :| Pens(cs) == [false] + Strokes(n);
    RenderPens(cs);
    RenderLength(cs);
    assert cs[0] == Pen(false) && cs[1] == Home by {
      assert cs[..2][0] == cs[0] && cs[..2][1] == cs[1];
    }
    assert RenderAll(cs)[1..] == RenderAll(cs[1..]);
    StrokesAlternate(n);
    StrokesIndex(n);
  }
}
