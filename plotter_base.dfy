/**
 * The part of a plotter every implementation shares: the state set up from
 * the configuration (calibration, position, cord lengths, speed, pen) and
 * `executeCmd`, which picks the action for one command line by its prefix.
 *
 * The decision `executeCmd` takes is the function Dispatch: the speed update
 * (if any) and the effect, usually a call of one of the four hooks a concrete
 * plotter implements. Each plotter class applies Dispatch with its own hooks;
 * the class BasePlotter here is the base class, whose hooks all raise.
 */
module PlotterBase {
  import opened Common
  import opened GCode
  import opened Numbers
  import opened Text
  import opened Kinematics
  import opened PlotterConfig

  /** The speed a plotter starts with. */
  const InitialSpeed: real := 10000.0

  /** A call of one of the hooks a concrete plotter implements. */
  datatype Hook =
    | MoveToPos(target: Point)
    | MoveArc(center: Point, radius: real, startAngle: real, endAngle: real)
    | PenUp
    | PenDown

  /** What a command does after its speed update. */
  datatype Effect =
    | Ignored               // a move or arc line that did not decode: returns at once
    | Unexpected            // reported as an unexpected command, nothing else happens
    | Call(hook: Hook)
    | MissingKey(key: char) // the arc branch indexes a parameter the line does not have

  /** The decision for one command: an optional new speed, then the effect. */
  datatype Action = Action(speed: Option<real>, effect: Effect)

  /** How a command ends, as the caller of `executeCmd` sees it. */
  datatype Status =
    | Returned
    | Reported            // the "unexpected command" message
    | Raised(error: Failure)
    | Unfinished          // a move that had not reached its target within the model's step bound

  datatype Failure =
    | HookNotImplemented  // NotImplementedError of an abstract hook
    | KeyError(key: char)

  /** `d.get(key, default)`. */
  function Get(d: map<char, real>, key: char, default: real): real
  {
    if key in d then d[key] else default
  }

  /** The speed update of a decoded move or arc line. */
  function SpeedOf(d: map<char, real>): Option<real>
  {
    if 'S' in d then Some(d['S']) else None
  }

  /** A line that reaches a branch which decodes it: a move, or an arc that is not a home line. */
  predicate Decoded(cmd: string)
  {
    IsMove(cmd) || (IsArc(cmd) && !IsHome(cmd))
  }

  /** The action of the arc branch on the decoded parameters d. */
  function ArcAction(d: map<char, real>): Action
  {
    if d == map[] then Action(None, Ignored)
    else if 'R' !in d && 'X' !in d && 'Y' !in d then Action(SpeedOf(d), Unexpected)
    else if 'X' !in d then Action(SpeedOf(d), MissingKey('X'))
    else if 'Y' !in d then Action(SpeedOf(d), MissingKey('Y'))
    else if 'R' !in d then Action(SpeedOf(d), MissingKey('R'))
    else Action(SpeedOf(d), Call(MoveArc(Point(d['X'], d['Y']), d['R'], Get(d, 'A', 0.0), Get(d, 'B', 360.0))))
  }

  /**
   * `executeCmd`: prefixes are checked in the order G0, G28, G2, M3, M4, so a
   * home line ("G28", which also starts with "G2") never reaches the arc branch.
   */
  function Dispatch(cmd: string, currPos: Point): (a: Action)
    // only a move or arc line that decodes to a map with S changes the speed, to that S
    ensures a.speed.Some? <==> Decoded(cmd) && 'S' in Decode(cmd)
    ensures a.speed.Some? ==> a.speed.value == Decode(cmd)['S']
    // a move or arc line that does not decode is ignored
    ensures a.effect == Ignored <==> Decoded(cmd) && Decode(cmd) == map[]
    // a home line moves to (0, 0)
    ensures IsHome(cmd) ==> a == Action(None, Call(MoveToPos(Origin)))
    // a move goes to X and Y, keeping the current coordinate of an absent axis
    ensures IsMove(cmd) && Decode(cmd) != map[] ==>
      var d := Decode(cmd);
      a.effect.Call? && a.effect.hook.MoveToPos?
      && a.effect.hook.target.x == (if 'X' in d then d['X'] else currPos.x)
      && a.effect.hook.target.y == (if 'Y' in d then d['Y'] else currPos.y)
    // an arc is rejected only when R, X and Y are all absent
    ensures IsArc(cmd) && !IsHome(cmd) && Decode(cmd) != map[] ==>
      (a.effect == Unexpected <==> 'R' !in Decode(cmd) && 'X' !in Decode(cmd) && 'Y' !in Decode(cmd))
    // an arc call has its centre, radius and angles from the line, the angles defaulting to 0 and 360
    ensures a.effect.Call? && a.effect.hook.MoveArc? ==>
      var d := Decode(cmd);
      Decoded(cmd) && 'X' in d && 'Y' in d && 'R' in d
      && a.effect.hook == MoveArc(Point(d['X'], d['Y']), d['R'], Get(d, 'A', 0.0), Get(d, 'B', 360.0))
    // pen commands call the pen hooks
    ensures IsPenDown(cmd) ==> a == Action(None, Call(PenDown))
    ensures IsPenUp(cmd) ==> a == Action(None, Call(PenUp))
    // any other line is reported and does nothing
    ensures !IsMove(cmd) && !IsArc(cmd) && !IsPen(cmd) ==> a == Action(None, Unexpected)
  {
    if IsMove(cmd) then
      var d := Decode(cmd);
      if d == map[] then Action(None, Ignored)
      else Action(SpeedOf(d), Call(MoveToPos(Point(Get(d, 'X', currPos.x), Get(d, 'Y', currPos.y)))))
    else if IsHome(cmd) then Action(None, Call(MoveToPos(Origin)))
    else if IsArc(cmd) then ArcAction(Decode(cmd))
    else if IsPenDown(cmd) then Action(None, Call(PenDown))
    else if IsPenUp(cmd) then Action(None, Call(PenUp))
    else Action(None, Unexpected)
  }

  /** The speed after an action. */
  function NewSpeed(a: Action, speed: real): real
  {
    if a.speed.Some? then a.speed.value else speed
  }

  /**
   * An encoded move dispatches to a move to its point, and to its speed when
   * it has one, both as read back from six decimals.
   */
  lemma DispatchGoTo(p: Point, s: Option<real>, currPos: Point)
    ensures Dispatch(GoTo(p, s), currPos)
      == Action(if s.Some? then Some(Round6(s.value)) else None,
                Call(MoveToPos(Point(Round6(p.x), Round6(p.y)))))
  {
    GoToKind(p, s);
    DecodeGoTo(p, s);
  }

  /** The encoded pen commands dispatch to the pen hooks. */
  lemma DispatchPenLine(down: bool, currPos: Point)
    ensures Dispatch(PenLine(down), currPos) == Action(None, Call(if down then PenDown else PenUp))
  {
    PenLineKind(down);
  }

  /** A move or arc line with one token that is not a letter and a number changes nothing. */
  lemma DispatchMalformed(cmd: string, k: nat, currPos: Point)
    requires Decoded(cmd)
    requires k < |Tokens(cmd)| && TokenValue(Tokens(cmd)[k]).None?
    ensures Dispatch(cmd, currPos) == Action(None, Ignored)
  {
    DecodeFailure(cmd, k);
  }

  /** The calibration of a new plotter: the origin solved from the initial cord lengths. */
  function Calibrate(config: Config, initialLength: Lengths, cls: EngineClass, sqrt: real -> real): (r: Result<Calibration, EngineError>)
    ensures r.Ok? <==> CalcOrigin(cls, initialLength, config.baseWidth, sqrt).Ok?
    ensures r.Ok? ==>
      r.value.base == config.baseWidth && r.value.stepsPerMM == config.stepsPerMM
      && r.value.resolution == config.movementResolution
      && r.value.origin == CalcOrigin(cls, initialLength, config.baseWidth, sqrt).value
  {
    match CalcOrigin(cls, initialLength, config.baseWidth, sqrt)
    case Err(e) => Err(e)
    case Ok(o) => Ok(Calibration(config.baseWidth, o, config.stepsPerMM, config.movementResolution))
  }

  /**
   * A new plotter starts with exactly the cord lengths it was given: the cord
   * lengths of (0, 0) under the calibration solved from them.
   */
  lemma CalibrateInitialLengths(config: Config, initialLength: Lengths, cls: EngineClass, sqrt: real -> real)
    requires IsSqrt(sqrt)
    requires Calibrate(config, initialLength, cls, sqrt).Ok?
    ensures cls == SimpleEngine
    ensures CordLengths(Calibrate(config, initialLength, cls, sqrt).value, Origin, sqrt) == initialLength
  {
    OriginHasInitialLengths(initialLength, config.baseWidth,
      Calibrate(config, initialLength, cls, sqrt).value, sqrt);
  }

  /** The base class: the shared state, with hooks that all raise NotImplementedError. */
  class BasePlotter {
    const config: Config
    const calib: Calibration
    const engine: PhysicsEngine
    const sqrt: real -> real
    var currPos: Point
    var currCordLength: Lengths
    var speed: real
    var penIsDown: bool

    constructor (config: Config, initialLength: Lengths, cls: EngineClass, sqrt: real -> real)
      requires Calibrate(config, initialLength, cls, sqrt).Ok?
      ensures this.config == config && this.sqrt == sqrt
      ensures calib == Calibrate(config, initialLength, cls, sqrt).value
      ensures engine == PhysicsEngine(cls, calib)
      ensures currPos == Origin && currCordLength == CordLengths(calib, Origin, sqrt)
      ensures speed == InitialSpeed && !penIsDown
    {
      this.config := config;
      this.sqrt := sqrt;
      calib := Calibrate(config, initialLength, cls, sqrt).value;
      engine := PhysicsEngine(cls, Calibrate(config, initialLength, cls, sqrt).value);
      currPos := Origin;
      currCordLength := CordLengths(Calibrate(config, initialLength, cls, sqrt).value, Origin, sqrt);
      speed := InitialSpeed;
      penIsDown := false;
    }

    /** `setSpeed`: the speed used by later commands; nothing else changes. */
    method SetSpeed(s: real)
      modifies this
      ensures speed == s
      ensures currPos == old(currPos) && currCordLength == old(currCordLength) && penIsDown == old(penIsDown)
    {
      speed := s;
    }

    /** `executeCmd` of the base class: the speed update happens, then any hook raises. */
    method ExecuteCmd(cmd: string) returns (status: Status)
      modifies this
      ensures var a := Dispatch(cmd, old(currPos));
        speed == NewSpeed(a, old(speed))
        && status == match a.effect
          case Ignored => Returned
          case Unexpected => Reported
          case MissingKey(k) => Raised(KeyError(k))
          case Call(_) => Raised(HookNotImplemented)
      ensures currPos == old(currPos) && currCordLength == old(currCordLength) && penIsDown == old(penIsDown)
    {
      var a := Dispatch(cmd, currPos);
      if a.speed.Some? {
        SetSpeed(a.speed.value);
      }
      match a.effect
      case Ignored => status := Returned;
      case Unexpected => status := Reported;
      case MissingKey(k) => status := Raised(KeyError(k));
      case Call(_) => status := Raised(HookNotImplemented);
    }
  }
}
