/**
 * The simulation plotter: instead of driving motors it records what the pen
 * would draw. Every hook appends the current position in anchor coordinates
 * (the plotter position plus the calibrated origin) to one of the trace lists:
 * the drawn trace while the pen is down, the trace of non-drawing moves while
 * it is up (when those are shown), and one marker per pen change. A break
 * (`np.nan` in both coordinate lists) ends a drawn stroke.
 *
 * Each trace is kept as two lists, x and y, as the plotting library wants
 * them; the class invariant Valid says they stay in step, and ties the
 * number of strokes to the pen markers.
 */
module Simulation {
  import opened Common
  import opened Kinematics
  import opened PlotterConfig
  import opened PlotterBase

  /** One entry of a coordinate list: a value, or the `nan` that breaks the line. */
  datatype Sample = Value(v: real) | Break

  /** The number of breaks in a coordinate list. */
  function Breaks(s: seq<Sample>): nat
  {
    if s == [] then 0 else Breaks(s[..|s| - 1]) + (if s[|s| - 1].Break? then 1 else 0)
  }

  /** Appending a list adds its breaks. */
  lemma {:induction false} BreaksAppend(s: seq<Sample>, t: seq<Sample>)
    ensures Breaks(s + t) == Breaks(s) + Breaks(t)
    decreases |t|
  {
    if t == [] {
      assert s + t == s;
    } else {
      var t' := t[..|t| - 1];
      assert (s + t)[..|s + t| - 1] == s + t';
      BreaksAppend(s, t');
    }
  }

  /** Two coordinate lists of one trace: equally long, with their breaks in the same places. */
  predicate Paired(xs: seq<Sample>, ys: seq<Sample>)
  {
    |xs| == |ys| && forall k :: 0 <= k < |xs| ==> (xs[k].Break? <==> ys[k].Break?)
  }

  lemma PairedAppend(xs: seq<Sample>, ys: seq<Sample>, a: seq<Sample>, b: seq<Sample>)
    requires Paired(xs, ys) && Paired(a, b)
    ensures Paired(xs + a, ys + b)
  {
    forall k | 0 <= k < |xs + a| ensures ((xs + a)[k].Break? <==> (ys + b)[k].Break?) {
      if k >= |xs| {
        assert (xs + a)[k] == a[k - |xs|] && (ys + b)[k] == b[k - |xs|];
      }
    }
  }

  /** A list without breaks. */
  predicate NoBreaks(s: seq<Sample>)
  {
    forall k :: 0 <= k < |s| ==> s[k].Value?
  }

  /** Only breaks are counted. */
  lemma {:induction false} NoBreaksCount(s: seq<Sample>)
    ensures NoBreaks(s) <==> Breaks(s) == 0
    decreases |s|
  {
    if s != [] {
      NoBreaksCount(s[..|s| - 1]);
      if NoBreaks(s[..|s| - 1]) && s[|s| - 1].Value? {
        forall k | 0 <= k < |s| ensures s[k].Value? {
          if k < |s| - 1 {
            assert s[k] == s[..|s| - 1][k];
          }
        }
      }
      if NoBreaks(s) {
        var front := s[..|s| - 1];
        forall k | 0 <= k < |front| ensures front[k].Value? {
          assert front[k] == s[k];
        }
      }
    }
  }

  /** The lists a simulation records: the drawn trace, the non-drawing trace, and where the pen was lifted and lowered. */
  datatype Record = Record(pointsX: seq<Sample>, pointsY: seq<Sample>, nodrawX: seq<Sample>, nodrawY: seq<Sample>,
                           penUpX: seq<real>, penUpY: seq<real>, penDownX: seq<real>, penDownY: seq<real>)

  /**
   * The lists stay in step, breaks included; every stroke of the drawn trace
   * ends in one break, made when the pen was lifted; the pen has been lowered
   * once more than lifted exactly while it is down; and non-drawing moves are
   * recorded only when they are shown.
   */
  predicate Consistent(rec: Record, down: bool, shown: bool)
  {
    Paired(rec.pointsX, rec.pointsY) && Paired(rec.nodrawX, rec.nodrawY)
    && |rec.penUpX| == |rec.penUpY| && |rec.penDownX| == |rec.penDownY|
    && Breaks(rec.pointsX) == |rec.penUpX|
    && |rec.penDownX| == |rec.penUpX| + (if down then 1 else 0)
    && (!shown ==> rec.nodrawX == [] && rec.nodrawY == [])
  }

  /** `moveToPos` records the point h it leaves: on the drawn trace while the pen is down, else on the non-drawing trace when shown. */
  function AfterMove(rec: Record, h: Point, down: bool, shown: bool): Record
  {
    if down then rec.(pointsX := rec.pointsX + [Value(h.x)], pointsY := rec.pointsY + [Value(h.y)])
    else if shown then rec.(nodrawX := rec.nodrawX + [Value(h.x)], nodrawY := rec.nodrawY + [Value(h.y)])
    else rec
  }

  /** `penUp` at h: a lowered pen ends its stroke with h and a break and marks the lift; a raised one records h as a non-drawing point when shown. */
  function AfterPenUp(rec: Record, h: Point, down: bool, shown: bool): Record
  {
    if down then
      rec.(pointsX := rec.pointsX + [Value(h.x), Break], pointsY := rec.pointsY + [Value(h.y), Break],
           penUpX := rec.penUpX + [h.x], penUpY := rec.penUpY + [h.y])
    else if shown then rec.(nodrawX := rec.nodrawX + [Value(h.x)], nodrawY := rec.nodrawY + [Value(h.y)])
    else rec
  }

  /** `penDown` at h: a raised pen starts a stroke at h and marks the lowering; a lowered one, when non-drawing moves are shown, adds h and breaks the non-drawing trace. */
  function AfterPenDown(rec: Record, h: Point, down: bool, shown: bool): Record
  {
    if !down then
      rec.(pointsX := rec.pointsX + [Value(h.x)], pointsY := rec.pointsY + [Value(h.y)],
           penDownX := rec.penDownX + [h.x], penDownY := rec.penDownY + [h.y])
    else if shown then
      rec.(pointsX := rec.pointsX + [Value(h.x)], pointsY := rec.pointsY + [Value(h.y)],
           nodrawX := rec.nodrawX + [Break], nodrawY := rec.nodrawY + [Break])
    else rec
  }

  /** What `executeCmd` records for the effect of a line: the called hook's lists, and nothing for any other effect. */
  function AfterCmd(rec: Record, h: Point, down: bool, shown: bool, effect: Effect): Record
  {
    match effect
    case Call(MoveToPos(_)) => AfterMove(rec, h, down, shown)
    case Call(PenUp) => AfterPenUp(rec, h, down, shown)
    case Call(PenDown) => AfterPenDown(rec, h, down, shown)
    case _ => rec
  }

  /** Every list of rec is a prefix of the same list of later. */
  predicate Grows(rec: Record, later: Record)
  {
    rec.pointsX <= later.pointsX && rec.pointsY <= later.pointsY && rec.nodrawX <= later.nodrawX
    && rec.nodrawY <= later.nodrawY && rec.penUpX <= later.penUpX && rec.penUpY <= later.penUpY
    && rec.penDownX <= later.penDownX && rec.penDownY <= later.penDownY
  }

  /** The recorded lists only ever grow, and a line that calls no simulation hook leaves them as they were. */
  lemma AfterCmdGrows(rec: Record, h: Point, down: bool, shown: bool, effect: Effect)
    ensures Grows(rec, AfterCmd(rec, h, down, shown, effect))
    ensures !effect.Call? || effect.hook.MoveArc? ==> AfterCmd(rec, h, down, shown, effect) == rec
  {
  }

  lemma MoveConsistent(rec: Record, h: Point, down: bool, shown: bool)
    requires Consistent(rec, down, shown)
    ensures Consistent(AfterMove(rec, h, down, shown), down, shown)
  {
    if down {
      BreaksAppend(rec.pointsX, [Value(h.x)]);
      PairedAppend(rec.pointsX, rec.pointsY, [Value(h.x)], [Value(h.y)]);
    } else if shown {
      PairedAppend(rec.nodrawX, rec.nodrawY, [Value(h.x)], [Value(h.y)]);
    }
  }

  lemma PenUpConsistent(rec: Record, h: Point, down: bool, shown: bool)
    requires Consistent(rec, down, shown)
    ensures Consistent(AfterPenUp(rec, h, down, shown), false, shown)
  {
    if down {
      BreaksAppend(rec.pointsX, [Value(h.x), Break]);
      assert Breaks([Value(h.x), Break]) == 1 by {
        assert [Value(h.x), Break][..1] == [Value(h.x)];
        assert [Value(h.x)][..0] == [];
        assert Breaks([Value(h.x)]) == 0;
      }
      PairedAppend(rec.pointsX, rec.pointsY, [Value(h.x), Break], [Value(h.y), Break]);
    } else if shown {
      PairedAppend(rec.nodrawX, rec.nodrawY, [Value(h.x)], [Value(h.y)]);
    }
  }

  lemma PenDownConsistent(rec: Record, h: Point, down: bool, shown: bool)
    requires Consistent(rec, down, shown)
    ensures Consistent(AfterPenDown(rec, h, down, shown), true, shown)
  {
    if !down || shown {
      BreaksAppend(rec.pointsX, [Value(h.x)]);
      PairedAppend(rec.pointsX, rec.pointsY, [Value(h.x)], [Value(h.y)]);
    }
    if down && shown {
      PairedAppend(rec.nodrawX, rec.nodrawY, [Break], [Break]);
    }
  }

  class SimulationPlotter {
    const config: Config
    const calib: Calibration
    const nonDrawingMoves: bool
    const simSpeed: real          // pause between redraws; only the plotting uses it
    var currPos: Point
    var speed: real
    var penIsDown: bool
    var pointsX: seq<Sample>      // the drawn trace
    var pointsY: seq<Sample>
    var nodrawX: seq<Sample>      // the non-drawing moves
    var nodrawY: seq<Sample>
    var penUpX: seq<real>         // where the pen was lifted
    var penUpY: seq<real>
    var penDownX: seq<real>       // where the pen was lowered
    var penDownY: seq<real>

    /** The recorded lists, as one value. */
    function Recorded(): Record
      reads this
    {
      Record(pointsX, pointsY, nodrawX, nodrawY, penUpX, penUpY, penDownX, penDownY)
    }

    predicate Valid()
      reads this
    {
      Consistent(Recorded(), penIsDown, nonDrawingMoves)
    }

    /** The current position in anchor coordinates, as the traces record it. */
    function Here(): Point
      reads this
    {
      Add(currPos, calib.origin)
    }

    /** The set-up of the base class: at (0, 0), pen up, nothing recorded. */
    constructor (config: Config, calib: Calibration, simSpeed: real, nonDrawingMoves: bool)
      ensures Valid()
      ensures this.config == config && this.calib == calib
      ensures this.simSpeed == simSpeed && this.nonDrawingMoves == nonDrawingMoves
      ensures currPos == Origin && speed == InitialSpeed && !penIsDown
      ensures pointsX == pointsY == nodrawX == nodrawY == []
      ensures penUpX == penUpY == penDownX == penDownY == []
    {
      this.config := config;
      this.calib := calib;
      this.simSpeed := simSpeed;
      this.nonDrawingMoves := nonDrawingMoves;
      currPos := Origin;
      speed := InitialSpeed;
      penIsDown := false;
      pointsX, pointsY, nodrawX, nodrawY := [], [], [], [];
      penUpX, penUpY, penDownX, penDownY := [], [], [], [];
    }

    /**
     * `moveToPos`: record where the move starts, on the drawn trace when the
     * pen is down, else on the non-drawing trace when shown; then jump to the
     * target.
     */
    method MoveToPos(target: Point)
      requires Valid()
      modifies this
      ensures Valid()
      ensures currPos == target && penIsDown == old(penIsDown) && speed == old(speed)
      ensures Recorded() == AfterMove(old(Recorded()), old(Here()), penIsDown, nonDrawingMoves)
    {
      var h := Here();
      MoveConsistent(Recorded(), h, penIsDown, nonDrawingMoves);
      if penIsDown {
        pointsX := pointsX + [Value(h.x)];
        pointsY := pointsY + [Value(h.y)];
      } else if nonDrawingMoves {
        nodrawX := nodrawX + [Value(h.x)];
        nodrawY := nodrawY + [Value(h.y)];
      }
      currPos := target;
    }

    /**
     * `penUp`: when the pen was down, close the stroke at the current position
     * with a break and mark the lift; else record the position on the
     * non-drawing trace when shown. The pen is up afterwards.
     */
    method PenUp()
      requires Valid()
      modifies this
      ensures Valid()
      ensures !penIsDown && currPos == old(currPos) && speed == old(speed)
      ensures Recorded() == AfterPenUp(old(Recorded()), old(Here()), old(penIsDown), nonDrawingMoves)
    {
      var h := Here();
      PenUpConsistent(Recorded(), h, penIsDown, nonDrawingMoves);
      if penIsDown {
        pointsX := pointsX + [Value(h.x), Break];
        pointsY := pointsY + [Value(h.y), Break];
        penUpX := penUpX + [h.x];
        penUpY := penUpY + [h.y];
      } else if nonDrawingMoves {
        nodrawX := nodrawX + [Value(h.x)];
        nodrawY := nodrawY + [Value(h.y)];
      }
      penIsDown := false;
    }

    /**
     * `penDown`: when the pen was up, start a stroke at the current position
     * and mark the lowering; when it was already down and non-drawing moves
     * are shown, record the position on the drawn trace and break the
     * non-drawing trace. The pen is down afterwards.
     */
    method PenDown()
      requires Valid()
      modifies this
      ensures Valid()
      ensures penIsDown && currPos == old(currPos) && speed == old(speed)
      ensures Recorded() == AfterPenDown(old(Recorded()), old(Here()), old(penIsDown), nonDrawingMoves)
    {
      var h := Here();
      PenDownConsistent(Recorded(), h, penIsDown, nonDrawingMoves);
      if !penIsDown {
        pointsX, pointsY := pointsX + [Value(h.x)], pointsY + [Value(h.y)];
        penDownX, penDownY := penDownX + [h.x], penDownY + [h.y];
      } else if nonDrawingMoves {
        pointsX, pointsY := pointsX + [Value(h.x)], pointsY + [Value(h.y)];
        nodrawX, nodrawY := nodrawX + [Break], nodrawY + [Break];
      }
      penIsDown := true;
    }

    /**
     * `executeCmd` with the simulation hooks: a move jumps to its target, the
     * pen commands record the pen change; `moveArc` is not provided, so the
     * base one raises. The recorded lists are those of the hook called, and
     * stay as they were for every other line.
     */
    method ExecuteCmd(cmd: string) returns (status: Status)
      requires Valid()
      modifies this
      ensures Valid()
      ensures var a := Dispatch(cmd, old(currPos));
        speed == NewSpeed(a, old(speed))
        && status == (match a.effect
          case Ignored => Returned
          case Unexpected => Reported
          case MissingKey(k) => Raised(KeyError(k))
          case Call(MoveArc(_, _, _, _)) => Raised(HookNotImplemented)
          case Call(_) => Returned)
        && currPos == (if a.effect.Call? && a.effect.hook.MoveToPos? then a.effect.hook.target else old(currPos))
        && penIsDown == (if a.effect.Call? && a.effect.hook.PenDown? then true
                         else if a.effect.Call? && a.effect.hook.PenUp? then false
                         else old(penIsDown))
        && Recorded() == AfterCmd(old(Recorded()), old(Here()), old(penIsDown), nonDrawingMoves, a.effect)
    {
      var a := Dispatch(cmd, currPos);
      if a.speed.Some? {
        speed := a.speed.value;
      }
      match a.effect
      case Ignored => status := Returned;
      case Unexpected => status := Reported;
      case MissingKey(k) => status := Raised(KeyError(k));
      case Call(hook) =>
        match hook {
          case MoveToPos(t) => MoveToPos(t); status := Returned;
          case MoveArc(_, _, _, _) => status := Raised(HookNotImplemented);
          case PenUp => PenUp(); status := Returned;
          case PenDown => PenDown(); status := Returned;
        }
    }
  }
}
