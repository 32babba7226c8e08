/**
 * The hardware plotter. `moveToPos` walks from the current position towards
 * the target on a Bresenham grid of the movement resolution, and for each
 * sample queues one block of integer motor steps: the change in cord lengths,
 * truncated to whole steps. The truncated length becomes the new reference,
 * so truncation errors never add up. The pen hooks queue servo positions.
 *
 * The queued items are carried out by the motor-control process, which
 * decodes each into direction bits, unsigned step counts and a step delay
 * for the stepper controller, or a duty cycle for the servo.
 *
 * The walk is not known to end on every input, so it runs with a step bound
 * `fuel`; a walk that reaches the bound stops with `reached` false.
 */
module Hardware {
  import opened Common
  import opened GCode
  import opened Numbers
  import opened Kinematics
  import opened PlotterConfig
  import opened PlotterBase
  import opened Motor

  /** A block of signed motor steps: left and right cord. */
  datatype Steps = Steps(left: int, right: int)

  /** An item of the motor-control queue: `(0, steps, speed)`, `(1, duty)`, or one with any other id. */
  datatype QueueItem =
    | StepperMove(steps: Steps, speed: real)
    | PenPos(duty: real)
    | Unknown(id: int)

  /** `astype(int)` and `int()`: truncation toward zero. */
  function Trunc(r: real): (n: int)
    ensures r >= 0.0 ==> 0.0 <= n as real <= r
    ensures r < 0.0 ==> r <= n as real <= 0.0
    ensures -1.0 < r - n as real < 1.0
  {
    if r >= 0.0 then r.Floor else -((-r).Floor)
  }

  // ------------------------------------------------------------ the walk

  /** What `moveToPos` fixes before its loop: d (its second entry negated) and the step signs s. */
  datatype Plan = Plan(d0: real, d1: real, s0: real, s1: real)

  function PlanMove(curr: Point, target: Point, resolution: real): (p: Plan)
    requires resolution != 0.0
    // each axis steps by -1 exactly when the current coordinate is not below the target's, else by +1
    ensures (p.s0 == -1.0 <==> curr.x >= target.x) && (p.s0 == 1.0 <==> curr.x < target.x)
    ensures (p.s1 == -1.0 <==> curr.y >= target.y) && (p.s1 == 1.0 <==> curr.y < target.y)
    // so a step on an axis never moves away from the target
    ensures p.s0 * (target.x - curr.x) >= 0.0 && p.s1 * (target.y - curr.y) >= 0.0
  {
    Plan(Abs(target.x - curr.x) / resolution, -(Abs(target.y - curr.y) / resolution),
         if curr.x >= target.x then -1.0 else 1.0,
         if curr.y >= target.y then -1.0 else 1.0)
  }

  /** The walk's position and Bresenham error term. */
  datatype Cursor = Cursor(pos: Point, err: real)

  /** One Bresenham step: both tests use the error term from before the step. */
  function BresenhamStep(plan: Plan, c: Cursor, resolution: real): Cursor
  {
    var e2 := 2.0 * c.err;
    var c1 := if e2 > plan.d1 then Cursor(Point(c.pos.x + plan.s0 * resolution, c.pos.y), c.err + plan.d1) else c;
    if e2 < plan.d0 then Cursor(Point(c1.pos.x, c1.pos.y + plan.s1 * resolution), c1.err + plan.d0) else c1
  }

  /** q is p or p moved by exactly one signed resolution step, on each axis. */
  predicate GridStep(plan: Plan, p: Point, q: Point, resolution: real)
  {
    (q.x == p.x || q.x == p.x + plan.s0 * resolution) && (q.y == p.y || q.y == p.y + plan.s1 * resolution)
  }

  /** The step block of one sample: the change in cord lengths in whole steps, truncated. */
  function StepBlock(calib: Calibration, cord: Lengths, pos: Point, sqrt: real -> real): Steps
  {
    WholeSteps(CordLengths(calib, pos, sqrt), cord, calib.stepsPerMM)
  }

  /** The change from cord to n in whole steps, truncated, per cord. */
  function WholeSteps(n: Lengths, cord: Lengths, m: real): Steps
  {
    Steps(WholeStep(n.left, cord.left, m), WholeStep(n.right, cord.right, m))
  }

  /** The change from cord to target in whole steps, truncated. */
  function WholeStep(target: real, cord: real, m: real): int
  {
    Trunc((target - cord) * m)
  }

  /** The reference cord lengths after a block is issued. */
  function Advance(cord: Lengths, block: Steps, stepsPerMM: real): Lengths
    requires stepsPerMM != 0.0
  {
    Lengths(cord.left + block.left as real / stepsPerMM, cord.right + block.right as real / stepsPerMM)
  }

  /** The result of a walk: final position and cord lengths, queued items, sampled positions. */
  datatype Walk = Walk(pos: Point, cord: Lengths, items: seq<QueueItem>, path: seq<Point>, reached: bool)

  /**
   * The loop of `moveToPos` from cursor c with reference lengths cord: sample,
   * queue the block, stop when within one resolution of the target, else step.
   */
  function WalkFrom(calib: Calibration, sqrt: real -> real, plan: Plan, target: Point, speed: real,
                    c: Cursor, cord: Lengths, fuel: nat): Walk
    requires calib.stepsPerMM != 0.0
    decreases fuel
  {
    if fuel == 0 then Walk(c.pos, cord, [], [], false)
    else
      var block := StepBlock(calib, cord, c.pos, sqrt);
      var cord' := Advance(cord, block, calib.stepsPerMM);
      if NormBelow(target, c.pos, calib.resolution) then
        Walk(c.pos, cord', [StepperMove(block, speed)], [c.pos], true)
      else
        var w := WalkFrom(calib, sqrt, plan, target, speed, BresenhamStep(plan, c, calib.resolution), cord', fuel - 1);
        Walk(w.pos, w.cord, [StepperMove(block, speed)] + w.items, [c.pos] + w.path, w.reached)
  }

  /** The walk of a move from pos, with error term d[0] + d[1] to start with. */
  function MoveWalk(calib: Calibration, sqrt: real -> real, pos: Point, cord: Lengths, target: Point,
                    speed: real, fuel: nat): Walk
    requires calib.stepsPerMM != 0.0 && calib.resolution != 0.0
  {
    var plan := PlanMove(pos, target, calib.resolution);
    WalkFrom(calib, sqrt, plan, target, speed, Cursor(pos, plan.d0 + plan.d1), cord, fuel)
  }

  /**
   * One item per sample, all step blocks at the plotter's speed; the first
   * sample is the starting position; the walk stops at the first sample
   * within one resolution of the target, or at the step bound.
   */
  lemma {:induction false} WalkShape(calib: Calibration, sqrt: real -> real, plan: Plan, target: Point, speed: real,
                                     c: Cursor, cord: Lengths, fuel: nat)
    requires calib.stepsPerMM != 0.0
    ensures var w := WalkFrom(calib, sqrt, plan, target, speed, c, cord, fuel);
      |w.items| == |w.path| <= fuel
      && (fuel > 0 ==> w.path[0] == c.pos)
      && (forall k :: 0 <= k < |w.items| ==> w.items[k].StepperMove? && w.items[k].speed == speed)
      && (forall k :: 0 <= k < |w.path| - 1 ==> !NormBelow(target, w.path[k], calib.resolution))
      && (w.reached ==> w.path != [] && w.path[|w.path| - 1] == w.pos && NormBelow(target, w.pos, calib.resolution))
      && (!w.reached ==> |w.items| == fuel)
    decreases fuel
  {
    if fuel > 0 && !NormBelow(target, c.pos, calib.resolution) {
      var cord' := Advance(cord, StepBlock(calib, cord, c.pos, sqrt), calib.stepsPerMM);
      var c' := BresenhamStep(plan, c, calib.resolution);
      WalkShape(calib, sqrt, plan, target, speed, c', cord', fuel - 1);
      var w' := WalkFrom(calib, sqrt, plan, target, speed, c', cord', fuel - 1);
      var w := WalkFrom(calib, sqrt, plan, target, speed, c, cord, fuel);
      assert w.items == [w.items[0]] + w'.items && w.path == [c.pos] + w'.path;
    }
  }

  /** Every Bresenham step moves each coordinate by nothing or by exactly one signed resolution step. */
  lemma {:induction false} WalkGrid(calib: Calibration, sqrt: real -> real, plan: Plan, target: Point, speed: real,
                                    c: Cursor, cord: Lengths, fuel: nat)
    requires calib.stepsPerMM != 0.0
    ensures var w := WalkFrom(calib, sqrt, plan, target, speed, c, cord, fuel);
      forall k :: 0 < k < |w.path| ==> GridStep(plan, w.path[k - 1], w.path[k], calib.resolution)
    decreases fuel
  {
    if fuel > 0 && !NormBelow(target, c.pos, calib.resolution) {
      var cord' := Advance(cord, StepBlock(calib, cord, c.pos, sqrt), calib.stepsPerMM);
      var c' := BresenhamStep(plan, c, calib.resolution);
      WalkGrid(calib, sqrt, plan, target, speed, c', cord', fuel - 1);
      WalkShape(calib, sqrt, plan, target, speed, c', cord', fuel - 1);
      var w' := WalkFrom(calib, sqrt, plan, target, speed, c', cord', fuel - 1);
      var w := WalkFrom(calib, sqrt, plan, target, speed, c, cord, fuel);
      assert w.path == [c.pos] + w'.path;
      if fuel > 1 {
        assert w'.path[0] == c'.pos;
        assert GridStep(plan, c.pos, c'.pos, calib.resolution);
      }
    }
  }

  /**
   * goal is the walk from cursor c, fuel samples long, behind the items done
   * and positions path already collected: the state of `moveToPos` mid-loop.
   */
  ghost predicate WalkRest(goal: Walk, calib: Calibration, sqrt: real -> real, plan: Plan, target: Point, speed: real,
                           c: Cursor, cord: Lengths, fuel: nat, done: seq<QueueItem>, path: seq<Point>)
    requires calib.stepsPerMM != 0.0
  {
    var w := WalkFrom(calib, sqrt, plan, target, speed, c, cord, fuel);
    goal == Walk(w.pos, w.cord, done + w.items, path + w.path, w.reached)
  }

  /** Before the first sample, the rest of the walk is all of it. */
  lemma WalkStart(calib: Calibration, sqrt: real -> real, plan: Plan, target: Point, speed: real,
                  c: Cursor, cord: Lengths, fuel: nat)
    requires calib.stepsPerMM != 0.0
    ensures WalkRest(WalkFrom(calib, sqrt, plan, target, speed, c, cord, fuel), calib, sqrt, plan, target, speed,
                     c, cord, fuel, [], [])
  {
    var w := WalkFrom(calib, sqrt, plan, target, speed, c, cord, fuel);
    assert [] + w.items == w.items && [] + w.path == w.path;
  }

  /** A sample that is not within one resolution of the target queues its block and steps on. */
  lemma WalkUnfold(goal: Walk, calib: Calibration, sqrt: real -> real, plan: Plan, target: Point, speed: real,
                   c: Cursor, cord: Lengths, fuel: nat, done: seq<QueueItem>, path: seq<Point>)
    requires calib.stepsPerMM != 0.0 && fuel > 0 && !NormBelow(target, c.pos, calib.resolution)
    requires WalkRest(goal, calib, sqrt, plan, target, speed, c, cord, fuel, done, path)
    ensures var block := StepBlock(calib, cord, c.pos, sqrt);
      WalkRest(goal, calib, sqrt, plan, target, speed, BresenhamStep(plan, c, calib.resolution),
               Advance(cord, block, calib.stepsPerMM), fuel - 1, done + [StepperMove(block, speed)], path + [c.pos])
  {
    var block := StepBlock(calib, cord, c.pos, sqrt);
    var w' := WalkFrom(calib, sqrt, plan, target, speed, BresenhamStep(plan, c, calib.resolution),
                       Advance(cord, block, calib.stepsPerMM), fuel - 1);
    assert done + ([StepperMove(block, speed)] + w'.items) == (done + [StepperMove(block, speed)]) + w'.items;
    assert path + ([c.pos] + w'.path) == (path + [c.pos]) + w'.path;
  }

  /** A sample within one resolution of the target is the last one. */
  lemma WalkStop(goal: Walk, calib: Calibration, sqrt: real -> real, plan: Plan, target: Point, speed: real,
                 c: Cursor, cord: Lengths, fuel: nat, done: seq<QueueItem>, path: seq<Point>)
    requires calib.stepsPerMM != 0.0 && fuel > 0 && NormBelow(target, c.pos, calib.resolution)
    requires WalkRest(goal, calib, sqrt, plan, target, speed, c, cord, fuel, done, path)
    ensures var block := StepBlock(calib, cord, c.pos, sqrt);
      goal == Walk(c.pos, Advance(cord, block, calib.stepsPerMM), done + [StepperMove(block, speed)], path + [c.pos], true)
  {
  }

  /** With no samples left the walk ends where it is, without reaching the target. */
  lemma WalkOut(goal: Walk, calib: Calibration, sqrt: real -> real, plan: Plan, target: Point, speed: real,
                c: Cursor, cord: Lengths, done: seq<QueueItem>, path: seq<Point>)
    requires calib.stepsPerMM != 0.0
    requires WalkRest(goal, calib, sqrt, plan, target, speed, c, cord, 0, done, path)
    ensures goal == Walk(c.pos, cord, done, path, false)
  {
    assert done + [] == done && path + [] == path;
  }

  /** Each of a and b is within e of the other, on both cords. */
  predicate Near(a: Lengths, b: Lengths, e: real)
  {
    -e < a.left - b.left < e && -e < a.right - b.right < e
  }

  lemma QuotientBound(a: real, m: real)
    requires -1.0 < a < 1.0 && m > 0.0
    ensures -(1.0 / m) < a / m < 1.0 / m
  {
    assert a / m - 1.0 / m == (a - 1.0) / m;
    assert a / m + 1.0 / m == (a + 1.0) / m;
  }

  /** One axis of AdvanceNear: the truncated update leaves less than one step to go. */
  lemma TruncatedAxis(target: real, cord: real, spm: real)
    requires spm > 0.0
    ensures -(1.0 / spm) < target - (cord + WholeStep(target, cord, spm) as real / spm) < 1.0 / spm
  {
    var d := (target - cord) * spm;
    var t := Trunc(d);
    assert d / spm == target - cord;
    QuotientBound(d - t as real, spm);
    assert (d - t as real) / spm == d / spm - t as real / spm;
  }

  /**
   * After a block is issued the reference lengths are within one step
   * (1 / stepsPerMM) of the true cord lengths of the sampled position.
   */
  lemma AdvanceNear(calib: Calibration, cord: Lengths, pos: Point, sqrt: real -> real)
    requires calib.stepsPerMM > 0.0
    ensures Near(CordLengths(calib, pos, sqrt), Advance(cord, StepBlock(calib, cord, pos, sqrt), calib.stepsPerMM),
                 1.0 / calib.stepsPerMM)
  {
    TruncatedLengths(CordLengths(calib, pos, sqrt), cord, calib.stepsPerMM);
  }

  /** AdvanceNear for any target lengths n. */
  lemma TruncatedLengths(n: Lengths, cord: Lengths, m: real)
    requires m > 0.0
    ensures Near(n, Advance(cord, WholeSteps(n, cord, m), m), 1.0 / m)
  {
    TruncatedAxis(n.left, cord.left, m);
    TruncatedAxis(n.right, cord.right, m);
  }

  /**
   * Drift does not compound: however long the walk, its final reference
   * lengths are within one step of the true cord lengths at the last sample.
   */
  lemma {:induction false} WalkDrift(calib: Calibration, sqrt: real -> real, plan: Plan, target: Point, speed: real,
                                     c: Cursor, cord: Lengths, fuel: nat)
    requires calib.stepsPerMM > 0.0
    ensures var w := WalkFrom(calib, sqrt, plan, target, speed, c, cord, fuel);
      w.path != [] ==> Near(CordLengths(calib, w.path[|w.path| - 1], sqrt), w.cord, 1.0 / calib.stepsPerMM)
    decreases fuel
  {
    if fuel > 0 {
      var cord' := Advance(cord, StepBlock(calib, cord, c.pos, sqrt), calib.stepsPerMM);
      AdvanceNear(calib, cord, c.pos, sqrt);
      if !NormBelow(target, c.pos, calib.resolution) {
        var c' := BresenhamStep(plan, c, calib.resolution);
        WalkDrift(calib, sqrt, plan, target, speed, c', cord', fuel - 1);
        var w' := WalkFrom(calib, sqrt, plan, target, speed, c', cord', fuel - 1);
        var w := WalkFrom(calib, sqrt, plan, target, speed, c, cord, fuel);
        if w'.path == [] {
          WalkShape(calib, sqrt, plan, target, speed, c', cord', fuel - 1);
          assert fuel == 1;
        } else {
          assert w.path[|w.path| - 1] == w'.path[|w'.path| - 1];
        }
      }
    }
  }

  /** The signed steps of the step blocks among items, per cord. */
  function TotalSteps(items: seq<QueueItem>): Steps
  {
    if items == [] then Steps(0, 0)
    else
      var rest := TotalSteps(items[1..]);
      if items[0].StepperMove? then Steps(items[0].steps.left + rest.left, items[0].steps.right + rest.right)
      else rest
  }

  /** Issuing two blocks moves the reference lengths as issuing their sum. */
  lemma AdvanceTwice(cord: Lengths, a: Steps, b: Steps, m: real)
    requires m != 0.0
    ensures Advance(Advance(cord, a, m), b, m) == Advance(cord, Steps(a.left + b.left, a.right + b.right), m)
  {
    assert a.left as real / m + b.left as real / m == (a.left + b.left) as real / m;
    assert a.right as real / m + b.right as real / m == (a.right + b.right) as real / m;
  }

  /** The final reference lengths are the starting ones plus every queued step, converted to length. */
  lemma {:induction false} WalkTotals(calib: Calibration, sqrt: real -> real, plan: Plan, target: Point, speed: real,
                                      c: Cursor, cord: Lengths, fuel: nat)
    requires calib.stepsPerMM != 0.0
    ensures var w := WalkFrom(calib, sqrt, plan, target, speed, c, cord, fuel);
      w.cord == Advance(cord, TotalSteps(w.items), calib.stepsPerMM)
    decreases fuel
  {
    var m := calib.stepsPerMM;
    if fuel > 0 {
      var block := StepBlock(calib, cord, c.pos, sqrt);
      var cord' := Advance(cord, block, m);
      var w := WalkFrom(calib, sqrt, plan, target, speed, c, cord, fuel);
      if NormBelow(target, c.pos, calib.resolution) {
        assert w.items[1..] == [];
        assert TotalSteps(w.items) == block;
      } else {
        var c' := BresenhamStep(plan, c, calib.resolution);
        WalkTotals(calib, sqrt, plan, target, speed, c', cord', fuel - 1);
        var w' := WalkFrom(calib, sqrt, plan, target, speed, c', cord', fuel - 1);
        assert w.items[1..] == w'.items;
        var rest := TotalSteps(w'.items);
        assert TotalSteps(w.items) == Steps(block.left + rest.left, block.right + rest.right);
        AdvanceTwice(cord, block, rest, m);
      }
    }
  }

  // ------------------------------------------------------------ the plotter

  /** The state a hardware plotter's commands change. */
  datatype HwState = HwState(pos: Point, cord: Lengths, speed: real, queue: seq<QueueItem>)

  /** The result of one command: the new state and how the command ended. */
  datatype HwOutcome = HwOutcome(state: HwState, status: Status)

  /**
   * `executeCmd` of the hardware plotter: the base dispatch with its hooks.
   * The pen hooks only queue a servo position; `moveArc` is not provided, so
   * the base one raises.
   */
  function Execute(calib: Calibration, sqrt: real -> real, servoUp: real, servoDown: real,
                   st: HwState, cmd: string, fuel: nat): HwOutcome
    requires calib.stepsPerMM != 0.0 && calib.resolution != 0.0
  {
    var a := Dispatch(cmd, st.pos);
    var st' := st.(speed := NewSpeed(a, st.speed));
    match a.effect
    case Ignored => HwOutcome(st', Returned)
    case Unexpected => HwOutcome(st', Reported)
    case MissingKey(k) => HwOutcome(st', Raised(KeyError(k)))
    case Call(hook) =>
      match hook
      case MoveToPos(t) =>
        var w := MoveWalk(calib, sqrt, st'.pos, st'.cord, t, st'.speed, fuel);
        HwOutcome(HwState(w.pos, w.cord, st'.speed, st'.queue + w.items), if w.reached then Returned else Unfinished)
      case MoveArc(_, _, _, _) => HwOutcome(st', Raised(HookNotImplemented))
      case PenUp => HwOutcome(st'.(queue := st'.queue + [PenPos(servoUp)]), Returned)
      case PenDown => HwOutcome(st'.(queue := st'.queue + [PenPos(servoDown)]), Returned)
  }

  /** An encoded move walks towards its point (read back from six decimals) at its speed, if it has one. */
  lemma ExecuteGoTo(calib: Calibration, sqrt: real -> real, servoUp: real, servoDown: real,
                    st: HwState, p: Point, s: Option<real>, fuel: nat)
    requires calib.stepsPerMM != 0.0 && calib.resolution != 0.0
    ensures var speed := if s.Some? then Round6(s.value) else st.speed;
      var w := MoveWalk(calib, sqrt, st.pos, st.cord, Point(Round6(p.x), Round6(p.y)), speed, fuel);
      Execute(calib, sqrt, servoUp, servoDown, st, GoTo(p, s), fuel).state
        == HwState(w.pos, w.cord, speed, st.queue + w.items)
  {
    DispatchGoTo(p, s, st.pos);
  }

  /** A pen command only queues the servo position; position, lengths and speed stay. */
  lemma ExecutePenLine(calib: Calibration, sqrt: real -> real, servoUp: real, servoDown: real,
                       st: HwState, down: bool, fuel: nat)
    requires calib.stepsPerMM != 0.0 && calib.resolution != 0.0
    ensures Execute(calib, sqrt, servoUp, servoDown, st, PenLine(down), fuel)
      == HwOutcome(st.(queue := st.queue + [PenPos(if down then servoDown else servoUp)]), Returned)
  {
    DispatchPenLine(down, st.pos);
  }

  class HardwarePlotter {
    const config: Config
    const calib: Calibration
    const sqrt: real -> real
    const servoPosUp: real
    const servoPosDown: real
    var currPos: Point
    var currCordLength: Lengths
    var speed: real
    var penIsDown: bool
    var queue: seq<QueueItem>   // the motor-control queue, oldest item first

    constructor (config: Config, initialLength: Lengths, cls: EngineClass, sqrt: real -> real)
      requires Calibrate(config, initialLength, cls, sqrt).Ok?
      ensures this.config == config && this.sqrt == sqrt
      ensures servoPosUp == config.servoPosUp && servoPosDown == config.servoPosDown
      ensures calib == Calibrate(config, initialLength, cls, sqrt).value
      ensures currPos == Origin && currCordLength == CordLengths(calib, Origin, sqrt)
      ensures speed == InitialSpeed && !penIsDown && queue == []
    {
      this.config := config;
      this.sqrt := sqrt;
      servoPosUp := config.servoPosUp;
      servoPosDown := config.servoPosDown;
      calib := Calibrate(config, initialLength, cls, sqrt).value;
      currPos := Origin;
      currCordLength := CordLengths(Calibrate(config, initialLength, cls, sqrt).value, Origin, sqrt);
      speed := InitialSpeed;
      penIsDown := false;
      queue := [];
    }

    function State(): HwState
      reads this
    {
      HwState(currPos, currCordLength, speed, queue)
    }

    /** `penUp`: queue the up position; the pen flag is not touched. */
    method PenUp()
      modifies this
      ensures queue == old(queue) + [PenPos(servoPosUp)]
      ensures currPos == old(currPos) && currCordLength == old(currCordLength)
      ensures speed == old(speed) && penIsDown == old(penIsDown)
    {
      queue := queue + [PenPos(servoPosUp)];
    }

    /** `penDown`: queue the down position; the pen flag is not touched. */
    method PenDown()
      modifies this
      ensures queue == old(queue) + [PenPos(servoPosDown)]
      ensures currPos == old(currPos) && currCordLength == old(currCordLength)
      ensures speed == old(speed) && penIsDown == old(penIsDown)
    {
      queue := queue + [PenPos(servoPosDown)];
    }

    /** `moveToPos`, for at most `fuel` samples. */
    method MoveToPos(target: Point, fuel: nat) returns (reached: bool)
      requires calib.stepsPerMM != 0.0 && calib.resolution != 0.0
      modifies this
      ensures var w := MoveWalk(calib, sqrt, old(currPos), old(currCordLength), target, old(speed), fuel);
        currPos == w.pos && currCordLength == w.cord && queue == old(queue) + w.items && reached == w.reached
      ensures speed == old(speed) && penIsDown == old(penIsDown)
    {
      var plan := PlanMove(currPos, target, calib.resolution);
      var err := plan.d0 + plan.d1;
      ghost var goal := MoveWalk(calib, sqrt, currPos, currCordLength, target, speed, fuel);
      WalkStart(calib, sqrt, plan, target, speed, Cursor(currPos, err), currCordLength, fuel);
      reached := SampleLoop(target, plan, err, goal, fuel);
    }

    /** The loop of `moveToPos`: sample until the target is reached or the samples run out. */
    method SampleLoop(target: Point, plan: Plan, err: real, ghost goal: Walk, fuel: nat) returns (reached: bool)
      requires calib.stepsPerMM != 0.0
      requires WalkRest(goal, calib, sqrt, plan, target, speed, Cursor(currPos, err), currCordLength, fuel, [], [])
      modifies this
      ensures currPos == goal.pos && currCordLength == goal.cord && queue == old(queue) + goal.items
      ensures reached == goal.reached && speed == old(speed) && penIsDown == old(penIsDown)
    {
      var e := err;
      ghost var done: seq<QueueItem> := [];
      ghost var path: seq<Point> := [];
      var left := fuel;
      while left > 0
        invariant speed == old(speed) && penIsDown == old(penIsDown)
        invariant queue == old(queue) + done
        invariant WalkRest(goal, calib, sqrt, plan, target, speed, Cursor(currPos, e), currCordLength, left, done, path)
      {
        var stop;
        stop, e, done, path := SampleOnWalk(target, plan, e, goal, left, old(queue), done, path);
        if stop {
          return true;
        }
        left := left - 1;
      }
      WalkOut(goal, calib, sqrt, plan, target, speed, Cursor(currPos, e), currCordLength, done, path);
      reached := false;
    }

    /** One sample, as a step along the walk the move is to make. */
    method SampleOnWalk(target: Point, plan: Plan, err: real, ghost goal: Walk, ghost left: nat,
                        ghost q0: seq<QueueItem>, ghost done: seq<QueueItem>, ghost path: seq<Point>)
      returns (stop: bool, err': real, ghost done': seq<QueueItem>, ghost path': seq<Point>)
      requires calib.stepsPerMM != 0.0 && left > 0 && queue == q0 + done
      requires WalkRest(goal, calib, sqrt, plan, target, speed, Cursor(currPos, err), currCordLength, left, done, path)
      modifies this
      ensures queue == q0 + done' && speed == old(speed) && penIsDown == old(penIsDown)
      ensures stop ==> goal == Walk(currPos, currCordLength, done', path', true)
      ensures !stop ==> WalkRest(goal, calib, sqrt, plan, target, speed, Cursor(currPos, err'), currCordLength, left - 1, done', path')
    {
      ghost var c0, cord0 := Cursor(currPos, err), currCordLength;
      stop, err' := Sample(target, plan, err);
      done' := done + [StepperMove(StepBlock(calib, cord0, c0.pos, sqrt), speed)];
      path' := path + [c0.pos];
      if stop {
        WalkStop(goal, calib, sqrt, plan, target, speed, c0, cord0, left, done, path);
      } else {
        WalkUnfold(goal, calib, sqrt, plan, target, speed, c0, cord0, left, done, path);
      }
    }

    /**
     * One pass of the loop of `moveToPos`: queue the step block of the current
     * position; unless it is within one resolution of the target, take one
     * Bresenham step.
     */
    method Sample(target: Point, plan: Plan, err: real) returns (stop: bool, err': real)
      requires calib.stepsPerMM != 0.0
      modifies this
      ensures var block := StepBlock(calib, old(currCordLength), old(currPos), sqrt);
        currCordLength == Advance(old(currCordLength), block, calib.stepsPerMM)
        && queue == old(queue) + [StepperMove(block, speed)]
      ensures stop == NormBelow(target, old(currPos), calib.resolution)
      ensures stop ==> currPos == old(currPos)
      ensures !stop ==> Cursor(currPos, err') == BresenhamStep(plan, Cursor(old(currPos), err), calib.resolution)
      ensures speed == old(speed) && penIsDown == old(penIsDown)
    {
      var res := calib.resolution;
      var newCordLength := CordLengths(calib, currPos, sqrt);
      var delta := WholeSteps(newCordLength, currCordLength, calib.stepsPerMM);
      currCordLength := Lengths(currCordLength.left + delta.left as real / calib.stepsPerMM,
                                currCordLength.right + delta.right as real / calib.stepsPerMM);
      queue := queue + [StepperMove(delta, speed)];
      err' := err;
      if NormBelow(target, currPos, res) {
        return true, err';
      }
      stop := false;
      var e2 := 2.0 * err';
      if e2 > plan.d1 {
        err' := err' + plan.d1;
        currPos := currPos.(x := currPos.x + plan.s0 * res);
      }
      if e2 < plan.d0 {
        err' := err' + plan.d0;
        currPos := currPos.(y := currPos.y + plan.s1 * res);
      }
    }

    /** `executeCmd` with the hardware hooks; moves run for at most `fuel` samples. */
    method ExecuteCmd(cmd: string, fuel: nat) returns (status: Status)
      requires calib.stepsPerMM != 0.0 && calib.resolution != 0.0
      modifies this
      ensures var o := Execute(calib, sqrt, servoPosUp, servoPosDown, old(State()), cmd, fuel);
        State() == o.state && status == o.status
      ensures penIsDown == old(penIsDown)
    {
      var a := Dispatch(cmd, currPos);
      if a.speed.Some? {
        speed := a.speed.value;
      }
      match a.effect
      case Ignored => status := Returned;
      case Unexpected => status := Reported;
      case MissingKey(k) => status := Raised(KeyError(k));
      case Call(hook) =>
        match hook {
          case MoveToPos(t) =>
            var reached := MoveToPos(t, fuel);
            status := if reached then Returned else Unfinished;
          case MoveArc(_, _, _, _) => status := Raised(HookNotImplemented);
          case PenUp => PenUp(); status := Returned;
          case PenDown => PenDown(); status := Returned;
        }
    }
  }

  // ------------------------------------------------------------ the executor

  /** What the motor-control process does for one item. */
  datatype MotorCommand =
    | StepCmd(dirs: seq<int>, steps: seq<nat>, delay: real)  // steppers.doSteps(dirs, steps, delay)
    | ServoCmd(duty: real)                                   // servo.moveTo(duty)

  datatype ExecError =
    | ZeroSpeed                      // 1 / speed with a speed of zero
    | UnknownItem                    // an item id other than 0 and 1
    | SleepRaised(cmd: MotorCommand) // time.sleep raised ValueError while carrying out cmd

  function Bit(b: bool): int
  {
    if b then 1 else 0
  }

  /** `~bit & 1` when invert is set: flips a direction bit. */
  function Flip(bit: int, invert: bool): int
  {
    if invert then 1 - bit else bit
  }

  function Magnitude(n: int): nat
  {
    if n < 0 then -n else n
  }

  /**
   * The decoding of one item: a step block becomes unsigned counts, the
   * direction bits (left: steps > 0, right: steps < 0, each flipped when
   * inverted) and the delay micro_stepping / speed.
   */
  function DecodeItem(item: QueueItem, config: Config): Result<MotorCommand, ExecError>
  {
    match item
    case StepperMove(s, v) =>
      if v == 0.0 then Err(ZeroSpeed)
      else Ok(StepCmd([Flip(Bit(s.left > 0), config.invertStepDir.0), Flip(Bit(s.right < 0), config.invertStepDir.1)],
                      [Magnitude(s.left), Magnitude(s.right)],
                      1.0 / v * config.microStepping as real))
    case PenPos(d) => Ok(ServoCmd(d))
    case Unknown(_) => Err(UnknownItem)
  }

  /** A command whose sleeps raise: a stepper move with a step to make and a negative delay. */
  predicate Raising(c: MotorCommand)
  {
    c.StepCmd? && c.delay < 0.0 && c.steps != [] && Max(c.steps) > 0
  }

  /**
   * What carrying out one item comes to: the command decoded from it, or the
   * error that ends the loop, either in decoding or at the first sleep of a
   * move with a negative delay.
   */
  function ItemOutcome(item: QueueItem, config: Config): Result<MotorCommand, ExecError>
  {
    match DecodeItem(item, config)
    case Err(e) => Err(e)
    case Ok(c) => if Raising(c) then Err(SleepRaised(c)) else Ok(c)
  }

  /**
   * With a valid (positive) microstepping factor, a step item fails exactly
   * when its speed is zero, or negative with a step to make; a pen item never
   * fails.
   */
  lemma ItemOutcomeFails(s: Steps, v: real, d: real, config: Config)
    ensures config.microStepping > 0 ==>
      (ItemOutcome(StepperMove(s, v), config).Err? <==> v == 0.0 || (v < 0.0 && (s.left != 0 || s.right != 0)))
    ensures ItemOutcome(StepperMove(s, v), config).Err? && v != 0.0 ==>
      ItemOutcome(StepperMove(s, v), config).error == SleepRaised(DecodeItem(StepperMove(s, v), config).value)
    ensures ItemOutcome(PenPos(d), config) == Ok(ServoCmd(d))
  {
    if v != 0.0 && config.microStepping > 0 {
      var c := DecodeItem(StepperMove(s, v), config).value;
      var m := config.microStepping as real;
      assert Max(c.steps) > 0 <==> s.left != 0 || s.right != 0 by {
        assert c.steps[..1] == [Magnitude(s.left)];
      }
      if v < 0.0 {
        assert 1.0 / v < 0.0;
        assert c.delay == (1.0 / v) * m;
      } else {
        assert 1.0 / v > 0.0;
        assert c.delay == (1.0 / v) * m;
      }
    }
  }

  /** The signed step block a two-stepper command carries out, under the given inversion. */
  function SignedSteps(c: MotorCommand, invert: (bool, bool)): Steps
    requires c.StepCmd? && |c.dirs| == 2 && |c.steps| == 2
  {
    var left, right := c.steps[0] as int, c.steps[1] as int;
    Steps(if Flip(c.dirs[0], invert.0) == 1 then left else -left,
          if Flip(c.dirs[1], invert.1) == 1 then -right else right)
  }

  /**
   * Decoding loses nothing: the motors turn by exactly the queued signed
   * steps, whatever the inversion, and the delay times the speed is the
   * microstepping factor. Only a zero speed fails to decode.
   */
  lemma DecodeStepsInverts(s: Steps, v: real, config: Config)
    ensures DecodeItem(StepperMove(s, v), config).Ok? <==> v != 0.0
    ensures DecodeItem(StepperMove(s, v), config).Ok? ==>
      var c := DecodeItem(StepperMove(s, v), config).value;
      c.StepCmd? && |c.dirs| == 2 && |c.steps| == 2
      && SignedSteps(c, config.invertStepDir) == s
      && c.delay * v == config.microStepping as real
  {
    if v != 0.0 {
      var c := DecodeItem(StepperMove(s, v), config).value;
      assert 1.0 / v * v == 1.0;
      assert c.delay * v == (1.0 / v * v) * config.microStepping as real;
    }
  }

  /** The result of running the queue: the commands carried out, and the failure that stopped it, if any. */
  datatype Run = Run(done: seq<MotorCommand>, failure: Option<ExecError>)

  /** The item loop of `processMovementAsync`: items in order up to the sentinel None; a failing item ends the process. */
  function RunQueue(items: seq<Option<QueueItem>>, config: Config): Run
  {
    if items == [] || items[0].None? then Run([], None)
    else
      match ItemOutcome(items[0].value, config)
      case Err(e) => Run([], Some(e))
      case Ok(c) =>
        var r := RunQueue(items[1..], config);
        Run([c] + r.done, r.failure)
  }

  /**
   * First in, first out: the k-th command carried out is the decoding of the
   * k-th item. The run stops at the sentinel, at a failing item, or at the end.
   */
  lemma {:induction false} RunQueueOrder(items: seq<Option<QueueItem>>, config: Config)
    ensures var r := RunQueue(items, config);
      |r.done| <= |items|
      && (forall k :: 0 <= k < |r.done| ==> items[k].Some? && ItemOutcome(items[k].value, config) == Ok(r.done[k]))
      && (r.failure.Some? ==> |r.done| < |items| && items[|r.done|].Some? && ItemOutcome(items[|r.done|].value, config) == Err(r.failure.value))
      && (r.failure.None? ==> |r.done| == |items| || items[|r.done|].None?)
  {
    if items != [] && items[0].Some? && ItemOutcome(items[0].value, config).Ok? {
      RunQueueOrder(items[1..], config);
    }
  }

  /** Nothing queued after the sentinel is ever carried out. */
  lemma {:induction false} RunQueueSentinel(items: seq<Option<QueueItem>>, later: seq<Option<QueueItem>>, config: Config)
    ensures RunQueue(items + [None] + later, config) == RunQueue(items + [None], config)
  {
    if items != [] {
      assert (items + [None] + later)[1..] == items[1..] + [None] + later;
      assert (items + [None])[1..] == items[1..] + [None];
      RunQueueSentinel(items[1..], later, config);
    } else {
      assert (items + [None] + later)[0] == None;
    }
  }

  /**
   * The GPIO calls that carry out a command: a stepper move is the trace of
   * `doSteps`, a pen move the servo's new duty cycle and its 0.3 s wait. A
   * decoded step command always has two counts, so the guard only ever
   * excludes commands no item decodes to.
   */
  function CommandEvents(c: MotorCommand, dirPins: seq<int>, stepPins: seq<int>, servoPin: int): seq<Event>
  {
    match c
    case StepCmd(dirs, steps, delay) =>
      if steps == [] || |steps| > |stepPins| then [] else StepTrace(dirPins, stepPins, dirs, steps, delay)
    case ServoCmd(duty) => [PwmDuty(servoPin, duty), Sleep(0.3)]
  }

  /** The GPIO calls made before an error ends the loop: those of a command up to its failing sleep, none for a decoding error. */
  function FailureEvents(e: ExecError, dirPins: seq<int>, stepPins: seq<int>, servoPin: int): seq<Event>
  {
    match e
    case SleepRaised(c) => Performed(CommandEvents(c, dirPins, stepPins, servoPin))
    case _ => []
  }

  /**
   * The GPIO calls of a command raise exactly when the command is raising;
   * then the calls made are the direction write and the two outputs of the
   * first pulse.
   */
  lemma CommandRaises(c: MotorCommand, dirPins: seq<int>, stepPins: seq<int>, servoPin: int)
    requires c.StepCmd? ==> |c.steps| <= |stepPins|
    ensures Raises(CommandEvents(c, dirPins, stepPins, servoPin)) <==> Raising(c)
    ensures Raising(c) ==> var es := CommandEvents(c, dirPins, stepPins, servoPin);
      |es| >= 3 && Performed(es) == es[..3]
  {
    match c
    case StepCmd(dirs, steps, delay) =>
      if steps != [] {
        StepTraceRaises(dirPins, stepPins, dirs, steps, delay);
      }
    case ServoCmd(duty) =>
      var es := [PwmDuty(servoPin, duty), Sleep(0.3)];
      assert es[1..] == [Sleep(0.3)] && es[1..][1..] == [];
      assert Performed(es[1..]) == [Sleep(0.3)];
      assert Performed(es) == es;
  }

  /** The GPIO calls that carry out a sequence of commands, one after the other. */
  function RunEvents(cmds: seq<MotorCommand>, dirPins: seq<int>, stepPins: seq<int>, servoPin: int): seq<Event>
  {
    if cmds == [] then []
    else RunEvents(cmds[..|cmds| - 1], dirPins, stepPins, servoPin) + CommandEvents(cmds[|cmds| - 1], dirPins, stepPins, servoPin)
  }

  lemma SeqAssoc(a: seq<Event>, b: seq<Event>, c: seq<Event>)
    ensures a + b + c == a + (b + c)
  {
  }

  lemma RunEventsAppend(cmds: seq<MotorCommand>, c: MotorCommand, dirPins: seq<int>, stepPins: seq<int>, servoPin: int)
    ensures RunEvents(cmds + [c], dirPins, stepPins, servoPin)
      == RunEvents(cmds, dirPins, stepPins, servoPin) + CommandEvents(c, dirPins, stepPins, servoPin)
  {
    assert (cmds + [c])[..|cmds|] == cmds;
  }

  /** The GPIO calls `initGPIO` of the executor's steppers makes: the set-ups, then the microstepping pattern if the factor has one. */
  function StepperInitEvents(config: Config): seq<Event>
  {
    var resPins := [config.resPins, config.resPins];
    [Setup(config.dirPins), Setup(config.stepPins)] + SetupEach(resPins)
    + (if MicrostepPattern(config.microStepping).Some? then PatternWrites(resPins, MicrostepPattern(config.microStepping).value) else [])
  }

  /**
   * The executor's controllers, set up from the configuration as
   * `processMovementAsync` does. A microstepping factor without a pattern
   * raises KeyError in the steppers' `initGPIO`, which ends the process
   * before the servo is set up.
   */
  method StartExecutor(config: Config, gpio: Gpio) returns (steppers: StepperCtrl, servo: ServoCtrl, ok: bool)
    requires |config.dirPins| == |config.stepPins| == 2
    modifies gpio
    ensures fresh(steppers) && fresh(servo)
    ensures steppers.gpio == gpio && servo.gpio == gpio
    ensures steppers.dirPins == config.dirPins && steppers.stepPins == config.stepPins
    ensures steppers.resPins == [config.resPins, config.resPins] && steppers.microStepping == config.microStepping
    ensures servo.pwmPin == config.servoPin && servo.initDutyCycle == config.servoPosUp
    ensures ok <==> MicrostepPattern(config.microStepping).Some?
    ensures servo.pwmStarted <==> ok
    ensures gpio.events == old(gpio.events) + StepperInitEvents(config)
      + (if ok then [Setup([config.servoPin]), PwmStart(config.servoPin, 50.0, config.servoPosUp)] else [])
  {
    steppers := new StepperCtrl(gpio, config.dirPins, config.stepPins, [config.resPins, config.resPins], config.microStepping);
    servo := new ServoCtrl(gpio, config.servoPin, initDutyCycle := config.servoPosUp);
    ok := steppers.InitGPIO();
    if !ok {
      return;
    }
    servo.InitGPIO();
  }

  /**
   * The item loop of `processMovementAsync` on set-up controllers: each
   * decoded item is carried out in turn, and the GPIO calls made are exactly
   * those of the commands carried out.
   */
  method ProcessMovements(items: seq<Option<QueueItem>>, config: Config, steppers: StepperCtrl, servo: ServoCtrl)
    returns (r: Run)
    requires steppers.gpio == servo.gpio && |steppers.stepPins| >= 2 && servo.pwmStarted
    modifies steppers.gpio
    ensures r == RunQueue(items, config)
    ensures steppers.gpio.events == old(steppers.gpio.events) + RunEvents(r.done, steppers.dirPins, steppers.stepPins, servo.pwmPin)
      + (if r.failure.Some? then FailureEvents(r.failure.value, steppers.dirPins, steppers.stepPins, servo.pwmPin) else [])
  {
    var done: seq<MotorCommand> := [];
    var i := 0;
    QueueStart(items, config);
    while i < |items| && items[i].Some?
      invariant 0 <= i <= |items|
      invariant QueueRest(items, config, done, i)
      invariant steppers.gpio.events == old(steppers.gpio.events) + RunEvents(done, steppers.dirPins, steppers.stepPins, servo.pwmPin)
    {
      var c := CarryOutNext(items[i].value, config, steppers, servo, done, old(steppers.gpio.events));
      QueueNext(items, config, done, i);
      if c.Err? {
        return Run(done, Some(c.error));
      }
      done, i := done + [c.value], i + 1;
    }
    QueueEnd(items, config, done, i);
    r := Run(done, None);
    assert steppers.gpio.events + [] == steppers.gpio.events;
  }

  /** One item carried out after the commands done: its GPIO calls extend those of the commands before it. */
  method CarryOutNext(item: QueueItem, config: Config, steppers: StepperCtrl, servo: ServoCtrl,
                      done: seq<MotorCommand>, ghost start: seq<Event>)
    returns (c: Result<MotorCommand, ExecError>)
    requires steppers.gpio == servo.gpio && |steppers.stepPins| >= 2 && servo.pwmStarted
    requires steppers.gpio.events == start + RunEvents(done, steppers.dirPins, steppers.stepPins, servo.pwmPin)
    modifies steppers.gpio
    ensures c == ItemOutcome(item, config)
    ensures c.Err? ==>
      steppers.gpio.events == start + RunEvents(done, steppers.dirPins, steppers.stepPins, servo.pwmPin)
        + FailureEvents(c.error, steppers.dirPins, steppers.stepPins, servo.pwmPin)
    ensures c.Ok? ==> steppers.gpio.events == start + RunEvents(done + [c.value], steppers.dirPins, steppers.stepPins, servo.pwmPin)
  {
    c := CarryOut(item, config, steppers, servo);
    if c.Ok? {
      ghost var ce := CommandEvents(c.value, steppers.dirPins, steppers.stepPins, servo.pwmPin);
      RunEventsAppend(done, c.value, steppers.dirPins, steppers.stepPins, servo.pwmPin);
      SeqAssoc(start, RunEvents(done, steppers.dirPins, steppers.stepPins, servo.pwmPin), ce);
    }
  }

  /** The commands carried out so far, followed by the run of the items from i on, make up the whole run. */
  predicate QueueRest(items: seq<Option<QueueItem>>, config: Config, done: seq<MotorCommand>, i: nat)
    requires i <= |items|
  {
    var rest := RunQueue(items[i..], config);
    RunQueue(items, config) == Run(done + rest.done, rest.failure)
  }

  lemma QueueStart(items: seq<Option<QueueItem>>, config: Config)
    ensures QueueRest(items, config, [], 0)
  {
    assert items[0..] == items;
  }

  lemma QueueNext(items: seq<Option<QueueItem>>, config: Config, done: seq<MotorCommand>, i: nat)
    requires i < |items| && items[i].Some? && QueueRest(items, config, done, i)
    ensures var c := ItemOutcome(items[i].value, config);
      && (c.Err? ==> RunQueue(items, config) == Run(done, Some(c.error)))
      && (c.Ok? ==> QueueRest(items, config, done + [c.value], i + 1))
  {
    assert items[i..][1..] == items[i + 1..];
    var c := ItemOutcome(items[i].value, config);
    if c.Ok? {
      var rest := RunQueue(items[i + 1..], config);
      assert done + ([c.value] + rest.done) == done + [c.value] + rest.done;
    }
  }

  lemma QueueEnd(items: seq<Option<QueueItem>>, config: Config, done: seq<MotorCommand>, i: nat)
    requires i <= |items| && QueueRest(items, config, done, i)
    requires i == |items| || items[i].None?
    ensures RunQueue(items, config) == Run(done, None)
  {
    assert done + [] == done;
  }

  /**
   * One item of the loop of `processMovementAsync`: decode it and, when that
   * succeeds, drive the steppers or the servo. An item that fails to decode
   * drives nothing; a move whose sleep raises has made the calls before that
   * sleep.
   */
  method CarryOut(item: QueueItem, config: Config, steppers: StepperCtrl, servo: ServoCtrl)
    returns (c: Result<MotorCommand, ExecError>)
    requires steppers.gpio == servo.gpio && |steppers.stepPins| >= 2 && servo.pwmStarted
    modifies steppers.gpio
    ensures c == ItemOutcome(item, config)
    ensures c.Ok? ==> steppers.gpio.events == old(steppers.gpio.events) + CommandEvents(c.value, steppers.dirPins, steppers.stepPins, servo.pwmPin)
    ensures c.Err? ==> steppers.gpio.events == old(steppers.gpio.events) + FailureEvents(c.error, steppers.dirPins, steppers.stepPins, servo.pwmPin)
  {
    var d := DecodeItem(item, config);
    if d.Err? {
      return d;
    }
    match d.value {
      case StepCmd(dirs, steps, delay) =>
        var raised := steppers.DoSteps(dirs, steps, delay);
        c := if raised then Err(SleepRaised(d.value)) else d;
      case ServoCmd(duty) =>
        var raised := servo.MoveTo(duty);
        c := d;
    }
  }
}
