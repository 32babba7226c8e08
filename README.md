# VPlotter 2.0 core, modelled in Dafny

VPlotter 2.0 drives a vertical "V-plotter". Two stepper motors wind the belts (cords) that carry a pen head, and a
servo lifts or lowers the pen. Generators turn a grey-scale image into G-code lines, and a post-processing pass
cleans those lines up. A plotter then executes them: it decodes each line into a move or a pen command, turns
moves into cord lengths, and queues stepper and servo work for an executor. A simulation back-end instead records
the drawn path.

This project models that core and proves what it promises:

- `common.dfy`: the shared `Option`/`Result` wrappers, points and the squared-distance test used in place of
  `np.linalg.norm(v) < m`.
- `config.dfy`: the plotter configuration (pins, microstepping, steps per millimetre, servo duty cycles, base
  width, movement resolution).
- `numbers.dfy`: Python's `%f` formatting (rounding half to even) and `float()` parsing of finite numbers
  (decimals, exponents, `_` between digits), written out concretely, with the round trip
  `float("%f" % r) == round6(r)` proved.
- `text.dfy`: `str.split()` over Python's whitespace set, with its inverse for space-free words.
- `gcode.dfy`: the G-code encoders, `decodeGCode`, and the two passes of `postProcessGCode`. The first pass drops
  moves shorter than the minimum segment length. The second puts pen commands right before the moves that need
  them.
- `kinematics.dfy`: the physics engines. These are the abstract base engine and the simple engine's
  `calcOrigin`/`point2CordLength`, modelled with the square root as a parameter.
- `plotter_base.dfy`: the plotter's calibration and the command dispatch of `executeCmd`. The dispatch is a pure
  decision shared by the three plotter classes. Each class applies it to its own hooks.
- `motorctrl.dfy`: the stepper controller (microstepping pins, the evenly spread step pulses of `doSteps`) and
  the servo controller, over a GPIO event trace.
- `plotter_hw.dfy`: the hardware plotter's `moveToPos` walk toward a target, its pen commands, the decoding of
  queue items in the motor executor, and the first-in-first-out execution of the queue, which ends at a
  decoding error or at a `time.sleep` that raises on a negative step delay.
- `plotter_sw.dfy`: the simulation plotter's coordinate lists, with their line breaks for matplotlib.
- `generator_base.dfy`, `box_generator.dfy`, `straight_line_generator.dfy`: the pixel-to-screen mapping, the
  box generator and the straight-line generator (its four traversal orders and its threshold runs).

Floating point is modelled as exact reals. Python integers are unbounded, like Dafny's.

## Model

| member | source | states |
|---|---|---|
| Numbers.Millionths | plotter/utils/gcode.py:5-7 | the count of millionths `%f` prints is within a half of r * 10^6, and an exact tie goes to the even count |
| Numbers.Round6 | plotter/utils/gcode.py:5-7 | the value `%f` keeps is r to the nearest millionth, within half a millionth of the input |
| Numbers.NatDigits | plotter/utils/gcode.py:5-7 | the decimal digits written for a whole number are non-empty, all digits, and denote that number |
| Numbers.PadDigits | plotter/utils/gcode.py:5-7 | the six fractional digits are zero-padded to exactly the requested width and denote the fraction |
| Numbers.MillionthsText | plotter/utils/gcode.py:5-7 | the text of a non-negative rounded value starts with a digit and has only digits and a point |
| Numbers.FormatFloat | plotter/utils/gcode.py:5-7 | `%f` text is non-empty and contains only digits, '-' and '.', so it never holds a separator; it starts with '-' exactly when r is negative, including a negative r that rounds to zero |
| Numbers.FormatNegative | plotter/utils/gcode.py:5-7 | the text of -r is '-' followed by the text of r, because ties round to even on both sides |
| Numbers.MillionthsNegate | plotter/utils/gcode.py:5-7 | rounding to millionths commutes with negation |
| Numbers.HornerValue | plotter/utils/gcode.py:23 | scanning digits left to right accumulates exactly their decimal value |
| Numbers.ScanWholeDigits | plotter/utils/gcode.py:23 | `float()` reads the whole part of a token one digit at a time |
| Numbers.ScanFracDigits | plotter/utils/gcode.py:23 | `float()` reads the fraction digits one at a time, scaled by their count |
| Numbers.ParseFloat | plotter/utils/gcode.py:23 | `float()` of finite text: an optional sign, then digits with an optional fraction and exponent, `_` only between digits, else None; Numbers.ParseDecimal, Numbers.ParseSigned, Numbers.ParseFormat and Numbers.ParseGroupedForm state what it accepts and refuses |
| Numbers.ParseDecimal | plotter/utils/gcode.py:23 | `float("W.F")` is the decimal value of the digit strings W and F |
| Numbers.MillionthsTextValue | plotter/utils/gcode.py:23 | `float()` of the text of m millionths is m / 1000000 |
| Numbers.ParseSigned | plotter/utils/gcode.py:23 | `float()` honours a leading minus sign on such text |
| Numbers.ParseFormat | plotter/utils/gcode.py:5-23 | round trip: `float()` of the `%f` text of r is r rounded to six decimals |
| Numbers.ExponentAt | plotter/utils/gcode.py:23 | the exponent marker is searched within the token |
| Numbers.NoExponent | plotter/utils/gcode.py:5-23 | `%f` text has no exponent marker, so `float()` reads it as a plain decimal |
| Numbers.ParseExponentForm | plotter/utils/gcode.py:23 | `float("1e3")` is 1000 |
| Numbers.ParseNegativeExponentForm | plotter/utils/gcode.py:23 | `float("-2.5E-1")` is -0.25: a signed mantissa with a signed exponent |
| Numbers.ParseGroupedForm | plotter/utils/gcode.py:23 | `float("1_000")` is 1000, while `1__0`, `_1` and `1_` are refused |
| Text.WordLength | plotter/utils/gcode.py:19 | the word at the head of a line has no whitespace and ends at whitespace or at the end |
| Text.Tokens | plotter/utils/gcode.py:19 | every token of `split()` is non-empty and holds no whitespace |
| Text.WordLengthOfWord | plotter/utils/gcode.py:19 | a space-free word followed by whitespace is read as exactly that word |
| Text.TokensUnwords | plotter/utils/gcode.py:19 | round trip: splitting space-free words joined by single spaces gives the words back |
| Text.TokensCons | plotter/utils/gcode.py:19 | splitting "w rest" gives w followed by the tokens of rest |
| GCode.KindsArePrefixes | plotter/utils/gcode.py:43-108 | the line-kind tests are exactly `startswith` on "G0", "G28", "G2", "M3" and "M4" |
| GCode.KindsDisjoint | plotter/utils/gcode.py:43-108 | a line is at most one of move, home, pen down and pen up |
| GCode.PenLine | plotter/utils/gcode.py:12-16 | the pen-down line "M3" and the pen-up line "M4"; GCode.PenLineKind proves their kinds |
| GCode.GoTo | plotter/utils/gcode.py:3-7 | "G0 X%f Y%f", with " S%f" only when a speed is given; GCode.DecodeGoTo proves it decodes back to the rounded values |
| GCode.PenLineKind | plotter/utils/gcode.py:12-16 | "M3" is a pen-down line and "M4" a pen-up line, and neither is a move or home |
| GCode.GoToKind | plotter/utils/gcode.py:3-7 | an encoded move is a G0 line and neither home nor pen |
| GCode.MoveLineKind | plotter/utils/gcode.py:3-7 | any line "G0 ..." is a move and neither home nor pen |
| GCode.ParamWord | plotter/utils/gcode.py:5-7 | a parameter word starts with its letter, has no whitespace and decodes to the rounded value |
| GCode.ParamNoSpace | plotter/utils/gcode.py:5-7 | a parameter word is a non-empty, space-free token |
| GCode.CommandWord | plotter/utils/gcode.py:3-7 | the command word "G0" is a non-empty, space-free token |
| GCode.MoveWordsNoSpace | plotter/utils/gcode.py:3-7 | every word of an encoded move is a non-empty, space-free token |
| GCode.UnwordsMoveText | plotter/utils/gcode.py:3-7 | the move layout is "G0 X.. Y.." with " S.." appended only when a speed is given |
| GCode.UnwordsMove | plotter/utils/gcode.py:3-7 | an encoded move is its words joined by single spaces |
| GCode.GoToTokens | plotter/utils/gcode.py:3-19 | splitting an encoded move gives back its words "G0", "X..", "Y.." and optionally "S.." |
| GCode.TokenValue | plotter/utils/gcode.py:23 | `float(p[1:])`: the number after a token's letter, as Numbers.ParseFloat reads it; GCode.AllParseEach and GCode.DecodeFailure state what a token that does not parse does to the line |
| GCode.Decode | plotter/utils/gcode.py:18-32 | the letter-to-number map of the line's tokens, or the empty map when a token's number does not parse; the lemmas below state its keys, its last-wins rule and its failure case |
| GCode.DecodeGCode | plotter/utils/gcode.py:18-32 | the decoding loop computes the letter-to-number map of the line's tokens |
| GCode.AssignmentsKeys | plotter/utils/gcode.py:19-25 | the decoded keys are exactly the first letters of the tokens |
| GCode.AssignmentsLastWins | plotter/utils/gcode.py:22-25 | a repeated letter takes the value of its last token |
| GCode.AllParseEach | plotter/utils/gcode.py:21-30 | a line decodes iff every token's number parses |
| GCode.DecodeFailure | plotter/utils/gcode.py:26-30 | one token whose number does not parse makes the whole result the empty map |
| GCode.AssignmentsMoveWords | plotter/utils/gcode.py:18-32 | the words of a move decode to G=0 and its X, Y and optional S |
| GCode.DecodeGoTo | plotter/utils/gcode.py:3-32 | round trip: decoding an encoded move gives G=0 and the coordinates and speed rounded to six decimals |
| GCode.DropShort | plotter/utils/gcode.py:42-58 | the first pass of `postProcessGCode`: a move closer than the minimum length to the last kept target is dropped, a move without X or Y raises; the lemmas below state what it keeps |
| GCode.DropShortFails | plotter/utils/gcode.py:43-46 | the first pass fails with KeyError iff some G0 line lacks X or Y |
| GCode.BadMoveCons | plotter/utils/gcode.py:43-46 | a list has a G0 line without X or Y iff its head or its tail has one |
| GCode.DropShortKeepsNonMoves | plotter/utils/gcode.py:42-58 | the first pass keeps every non-G0 line in order and never adds lines |
| GCode.FirstMoveKept | plotter/utils/gcode.py:47-48 | the first move is always kept |
| GCode.DropShortNonPositive | plotter/utils/gcode.py:49-53 | a minimum segment length of zero or less drops nothing |
| GCode.DropShortIdempotent | plotter/utils/gcode.py:42-58 | running the first pass twice gives the same result as once |
| GCode.KeptMove | plotter/utils/gcode.py:47-55 | a move far enough from the last kept move stays in front of an unchanged tail |
| GCode.KeptOther | plotter/utils/gcode.py:55-58 | a line that is neither move nor home stays in front of an unchanged tail |
| GCode.DropShortSegments | plotter/utils/gcode.py:42-58 | the first loop computes the short-move pass, including its KeyError failure |
| GCode.PenPass | plotter/utils/gcode.py:60-110 | the second pass: pen commands are consumed and re-emitted just before the first move that needs the new state; the lemmas below state what it keeps and that the pen alternates |
| GCode.PenPassKeepsOthers | plotter/utils/gcode.py:66-110 | the second pass keeps every line other than M3/M4 in order |
| GCode.PenPassAlternates | plotter/utils/gcode.py:72-90 | emitted pen commands alternate, and the first differs from the pen state already emitted |
| GCode.PenPassKeepsPenState | plotter/utils/gcode.py:66-108 | each move is made with the pen state last requested before it (up when none was) |
| GCode.PenPassPenBeforeMove | plotter/utils/gcode.py:72-90 | every emitted pen command is directly followed by a move, so pen commands after the last move are dropped |
| GCode.PenPassIdempotent | plotter/utils/gcode.py:66-110 | running the second pass on its own output changes nothing |
| GCode.SwitchAgain | plotter/utils/gcode.py:72-90 | an emitted pen command and its move survive a second pass unchanged |
| GCode.PenPassHead | plotter/utils/gcode.py:66-110 | one line of the second pass: a move gets a pen command only when the requested state changes |
| GCode.DropShortIgnoresPen | plotter/utils/gcode.py:42-110 | the second pass never creates a short move, so the first pass keeps its output whole |
| GCode.JoinPrepend | plotter/utils/gcode.py:42-58 | appending a kept line to the output prefix commutes with the rest of the pass |
| GCode.ReinsertPenCommands | plotter/utils/gcode.py:60-110 | the second loop computes the pen-command pass from an unknown pen state |
| GCode.PenLineStep | plotter/utils/gcode.py:66-110 | one iteration of the second loop emits exactly the pen-pass output for its line |
| GCode.PostProcess | plotter/utils/gcode.py:34-114 | the first pass then the second, or None when a move lacks X or Y; GCode.PostProcessIdempotent proves it idempotent |
| GCode.PostProcessGCode | plotter/utils/gcode.py:34-114 | post-processing is the short-move pass followed by the pen-command pass |
| GCode.PostProcessIdempotent | plotter/utils/gcode.py:34-114 | post-processing its own output changes nothing |
| GCode.TrailingPenUpDropped | plotter/utils/gcode.py:66-110 | ["M3","M3",move,"M4"] becomes ["M3",move]: the duplicate and the trailing pen-up are dropped |
| Kinematics.CalcOriginAsWritten | plotter/utils/math.py:33-43 | as written, `calcOrigin` succeeds iff base <= l0 + l1 (and base is non-zero), with x from the cosine rule |
| Kinematics.CalcOriginChecked | plotter/utils/math.py:33-43 | corrected: succeeds iff the lengths and base form a triangle, and then the square root's argument is non-negative |
| Kinematics.CalcOrigin | plotter/utils/math.py:12-43 | the base engine raises NotImplemented; the simple engine, with the corrected triangle guard (see Findings), succeeds iff the triangle exists |
| Kinematics.CordLengths | plotter/utils/math.py:45-52 | the distances from the point shifted by the origin to the two anchors; Kinematics.CordLengthsSquares and Kinematics.CalcOriginInverts state them |
| Kinematics.Point2CordLength | plotter/utils/math.py:18-52 | the base engine raises NotImplemented; the simple engine gives the cord lengths of the point plus origin |
| Kinematics.RadicandNonNegative | plotter/utils/math.py:41-42 | for a valid triangle, the argument of the square root is never negative |
| Kinematics.HalfChordBounds | plotter/utils/math.py:41-42 | for a valid triangle, the horizontal offset to the right anchor is within the right cord length |
| Kinematics.CalcOriginOnCords | plotter/utils/math.py:41-43 | the computed origin is at distance l0 from the left anchor and l1 from the right, below the anchors |
| Kinematics.CalcOriginGuardTooWeak | plotter/utils/math.py:37-42 | l=(10,1), base=2 passes the guard, yet no point is on both cords and the square root's argument is negative |
| Kinematics.CordLengthsSquares | plotter/utils/math.py:49-52 | cord lengths are non-negative and are the distances of the point plus origin to the two anchors |
| Kinematics.DistancesOnCords | plotter/utils/math.py:50-51 | a point on both cords has exactly those cord lengths |
| Kinematics.OriginHasInitialLengths | plotter/utils/math.py:41-52 | round trip: the origin computed from the initial lengths has those cord lengths |
| Kinematics.TriangleOfSquares | plotter/utils/math.py:41-42 | a point at distances l0 and l1 from the anchors proves the triangle inequalities |
| Kinematics.TriangleOfDistances | plotter/utils/math.py:41-42 | a point on both cords has the origin formula's x and the squared y as the square root's argument |
| Kinematics.CalcOriginInverts | plotter/utils/math.py:41-52 | round trip: the origin recomputed from a point's cord lengths is that point |
| Generators.Px2Scr | plotter/generators/generator_base.py:30-32 | the pixel position scaled, then shifted by the offset; Generators.Px2ScrInverts proves it invertible for a non-zero scale |
| Generators.Px2ScrInverts | plotter/generators/generator_base.py:30-32 | pixel-to-screen mapping is invertible for a non-zero scale, both ways |
| Generators.Enumerate | plotter/generators/box_generator.py:56 | `np.ndenumerate`: every pixel with its row and column, row by row; Generators.EnumerateRowMajor states the order |
| Generators.RowPixelsIndex | plotter/generators/box_generator.py:56 | entry x of a row's enumeration is pixel (y, x) |
| Generators.RowsPixelsLength | plotter/generators/box_generator.py:56 | n rows enumerate n times the width entries |
| Generators.RowsPixelsCell | plotter/generators/box_generator.py:56 | entry y*W + x of the first n rows is pixel (y, x) |
| Generators.EnumerateRowMajor | plotter/generators/box_generator.py:56 | `np.ndenumerate` is row-major: entry y*W + x is pixel (y, x), and there are H*W entries |
| Generators.Render | plotter/utils/gcode.py:3-16 | the G-code line of a move, pen or home command; the lemmas below state its kind and its pen lines |
| Generators.RenderKind | plotter/utils/gcode.py:3-16 | a rendered command is a move, home, pen-down or pen-up line exactly when it is that command |
| Generators.RenderLength | plotter/utils/gcode.py:3-16 | rendering gives one line per command |
| Generators.RenderOne | plotter/utils/gcode.py:3-16 | rendering one command gives its line |
| Generators.RenderAppend | plotter/utils/gcode.py:3-16 | rendering distributes over concatenation |
| Generators.Pens | plotter/utils/gcode.py:12-16 | the pen changes among commands, in order, true for down |
| Generators.PensAppend | plotter/utils/gcode.py:12-16 | the pen commands of a concatenation are those of each part |
| Generators.RenderPens | plotter/utils/gcode.py:3-16 | the pen commands read back from rendered lines are the commands' pen states |
| Generators.Strokes | plotter/generators/box_generator.py:37-40 | n strokes of pen down then pen up; Generators.StrokesIndex states them position by position |
| Generators.StrokesIndex | plotter/generators/box_generator.py:37-40 | n strokes are down/up pairs: pen down at even positions and up at odd ones |
| Generators.StrokesAlternate | plotter/generators/box_generator.py:49-59 | an initial pen-up followed by strokes alternates |
| Generators.StrokesAdd | plotter/generators/box_generator.py:56-59 | m strokes followed by n strokes are m + n strokes |
| BoxGenerator.BoxCmds | plotter/generators/box_generator.py:22-42 | the box round its five corners with the pen down after the first, then pen up; BoxGenerator.BoxShape states its shape |
| BoxGenerator.BoxShape | plotter/generators/box_generator.py:22-42 | a box is 7 commands: pen down after the first corner, pen up last, speedless moves, closed path |
| BoxGenerator.BoxCmdsLiteral | plotter/generators/box_generator.py:22-42 | the box is corner 0, pen down, corners 1 to 4, pen up |
| BoxGenerator.BoxPathPens | plotter/generators/box_generator.py:32-38 | the pen goes down exactly once, right after the first corner |
| BoxGenerator.BoxSquare | plotter/generators/box_generator.py:23-33 | the corners are a square of side abs(v) centred on the pixel |
| BoxGenerator.BoxPathStep | plotter/generators/box_generator.py:32-38 | one corner of the loop appends its move, plus the pen-down after the first corner |
| BoxGenerator.DrawBox | plotter/generators/box_generator.py:22-42 | `drawBox` emits the rendered box commands |
| BoxGenerator.BoxesStrokes | plotter/generators/box_generator.py:56-59 | the boxes of an image are 7 lines per positive pixel, one pen stroke each |
| BoxGenerator.ImageCmds | plotter/generators/box_generator.py:44-61 | pen up, home, then a box for every pixel above zero in row-major order; BoxGenerator.ImageCmdsShape states its shape |
| BoxGenerator.ConvertImage | plotter/generators/box_generator.py:44-61 | `convertImage` emits pen up, home, then a box per positive pixel in row-major order |
| BoxGenerator.PixelLines | plotter/generators/box_generator.py:56-59 | a pixel emits its box, and a pixel of value 0 or less emits nothing |
| BoxGenerator.ImageStep | plotter/generators/box_generator.py:56-59 | one pixel of the loop appends exactly its own box |
| BoxGenerator.ImageCmdsShape | plotter/generators/box_generator.py:44-61 | the output starts with pen up and home, has 2 + 7 lines per positive pixel, and its pen commands alternate |
| PlotterBase.Dispatch | plotter/plotter/plotter_base.py:74-112 | decision of `executeCmd`: speed set only from S, homes to (0,0), keeps absent axes, arc defaults A=0/B=360, unknown lines reported |
| PlotterBase.DispatchGoTo | plotter/plotter/plotter_base.py:77-86 | an encoded move dispatches to `moveToPos` at its rounded coordinates and sets its rounded speed |
| PlotterBase.DispatchPenLine | plotter/plotter/plotter_base.py:107-110 | "M3" calls `penDown` and "M4" calls `penUp`, leaving the speed |
| PlotterBase.DispatchMalformed | plotter/plotter/plotter_base.py:77-80 | a move or arc line with an unparsable token is ignored |
| PlotterBase.Calibrate | plotter/plotter/plotter_base.py:24-29 | calibration succeeds iff the engine finds the origin, and then carries the configured base, steps per mm and resolution |
| PlotterBase.CalibrateInitialLengths | plotter/plotter/plotter_base.py:24-34 | after calibration the cord lengths at (0,0) are the initial lengths |
| PlotterBase.BasePlotter.constructor | plotter/plotter/plotter_base.py:22-36 | a new plotter is at (0,0) with the origin's cord lengths, speed 10000 and the pen up |
| PlotterBase.BasePlotter.SetSpeed | plotter/plotter/plotter_base.py:134-136 | sets the speed and changes nothing else |
| PlotterBase.BasePlotter.ExecuteCmd | plotter/plotter/plotter_base.py:74-132 | applies the dispatch's speed; every hook of the abstract plotter raises NotImplementedError |
| Motor.MicrostepPattern | plotter/plotter/motorctrl.py:46-51 | the mode-pin levels for factors 1, 2, 4, 8, 16 and 32, none for any other factor; the two lemmas below state them binary and distinct |
| Motor.MicrostepPatternIsBinary | plotter/plotter/motorctrl.py:46-51 | a microstepping factor has a pin pattern iff it is 2^k with k <= 5, and the pattern is k in three bits |
| Motor.MicrostepPatternInjective | plotter/plotter/motorctrl.py:46-51 | different factors never share a pin pattern |
| Motor.PatternWrites | plotter/plotter/motorctrl.py:53-54 | the pattern is written once to each resolution pin group, in order |
| Motor.SetupEach | plotter/plotter/motorctrl.py:40-41 | each resolution pin group is set up as output, in order |
| Motor.Max | plotter/plotter/motorctrl.py:61 | the maximum is an entry of the steps and bounds them all |
| Motor.Linspace | plotter/plotter/motorctrl.py:70 | `np.linspace` has n points, starting at start and ending at stop |
| Motor.LinspaceAt | plotter/plotter/motorctrl.py:70 | point k of `np.linspace` is start + k times the even spacing |
| Motor.PlannedSpacing | plotter/plotter/motorctrl.py:68-70 | planned step times lie in [0, max-1] and are at least one tick apart |
| Motor.PlannedAt | plotter/plotter/motorctrl.py:70 | planned time k is k times the planned spacing |
| Motor.PlanStepBounds | plotter/plotter/motorctrl.py:70 | the planned spacing is at least one tick and spans max-1 ticks |
| Motor.PlannedBounds | plotter/plotter/motorctrl.py:68-70 | each planned step time lies in [0, max-1] |
| Motor.PlannedGap | plotter/plotter/motorctrl.py:68-70 | consecutive planned step times are at least one tick apart |
| Motor.PulsesAppend | plotter/plotter/motorctrl.py:73-79 | pulse counts add up over concatenated event traces |
| Motor.PulseCount | plotter/plotter/motorctrl.py:76-78 | one pulse counts once on its own pin and nowhere else |
| Motor.PulseTrainAppend | plotter/plotter/motorctrl.py:76-78 | a further pulse on a step pin keeps the trace a pulse train |
| Motor.IssuedStep | plotter/plotter/motorctrl.py:75-79 | consuming one planned step issues one more pulse on that axis's pin |
| Motor.IssuedAll | plotter/plotter/motorctrl.py:72-79 | once every plan is consumed, each pin has had all its steps |
| Motor.IssuedNone | plotter/plotter/motorctrl.py:68-70 | before any tick, no step has been issued |
| Motor.PlanSteps | plotter/plotter/motorctrl.py:68-70 | the loop builds, axis by axis, the planned tick positions `Plans` of every axis |
| Motor.Plans | plotter/plotter/motorctrl.py:68-70 | one plan per axis |
| Motor.PlansAt | plotter/plotter/motorctrl.py:68-70 | axis t's plan is its `linspace` positions over the longest axis's ticks |
| Motor.TickPrefix | plotter/plotter/motorctrl.py:73-79 | the pulses of tick i on the first n axes, in axis order: a pulse on axis s exactly when its next planned position is at most i + 0.5 |
| Motor.TickEvents | plotter/plotter/motorctrl.py:73-79 | the pulses of tick i on all axes |
| Motor.TickLeft | plotter/plotter/motorctrl.py:73-79 | after tick i, every axis keeps its plan, less the head that was due |
| Motor.PopPrefix | plotter/plotter/motorctrl.py:73-79 | the plans after the first n axes of tick i are handled; the others are untouched |
| Motor.PopPrefixAt | plotter/plotter/motorctrl.py:73-79 | after the first n axes of a tick, axis s < n lost its head exactly when it was due and axis s >= n is unchanged |
| Motor.Schedule | plotter/plotter/motorctrl.py:72-81 | the pulses of ticks i to the longest axis's count, tick after tick |
| Motor.StepTrace | plotter/plotter/motorctrl.py:56-81 | the whole trace of `doSteps`: the direction write, then the schedule of all ticks |
| Motor.AfterFirst | plotter/plotter/motorctrl.py:56-81 | the part of a trace after its first event |
| Motor.TickProgress | plotter/plotter/motorctrl.py:73-79 | a tick keeps the per-pin pulse count plus the remaining plan equal to the requested steps |
| Motor.TickProgressStep | plotter/plotter/motorctrl.py:75-79 | one axis of a tick keeps that count |
| Motor.TickHeads | plotter/plotter/motorctrl.py:73-79 | after tick i, no remaining head is due before tick i + 1 |
| Motor.ScheduleProgress | plotter/plotter/motorctrl.py:72-81 | running the remaining ticks issues exactly the steps still planned on every pin |
| Motor.ScheduleCounts | plotter/plotter/motorctrl.py:68-81 | the full schedule issues exactly the requested steps on every pin |
| Motor.StepTraceCounts | plotter/plotter/motorctrl.py:56-81 | the `doSteps` trace is the direction write then a pulse train with exactly the requested steps per pin |
| Motor.ScheduleStep | plotter/plotter/motorctrl.py:72-81 | the schedule from tick i is tick i's pulses followed by the schedule from tick i + 1 |
| Motor.PlanStart | plotter/plotter/motorctrl.py:68-72 | the fresh plans start the tick loop with no pulse emitted |
| Motor.PlanRemaining | plotter/plotter/motorctrl.py:68-70 | fresh plans are on schedule and none is due before tick 0 |
| Motor.PlanDone | plotter/plotter/motorctrl.py:72-81 | after the last tick the trace is a pulse train with exactly each pin's steps |
| Motor.PulseEmitted | plotter/plotter/motorctrl.py:75-79 | emitting a due pulse keeps the count of issued steps in step with the plans |
| Motor.OnPlanTail | plotter/plotter/motorctrl.py:79 | consuming a planned time leaves a plan whose next time is a tick later |
| Motor.RemainingTail | plotter/plotter/motorctrl.py:79 | consuming an axis's planned time keeps all plans on schedule |
| Motor.RemainingBound | plotter/plotter/motorctrl.py:72-79 | no planned time is left after the last tick |
| Motor.OnPlanHead | plotter/plotter/motorctrl.py:68-70 | a plan's next time is at most max-1 |
| Motor.Performed | plotter/plotter/motorctrl.py:73-81 | the calls of a trace that are made before `time.sleep` raises ValueError on a negative delay; Motor.PerformedPrefix characterises it |
| Motor.PerformedPrefix | plotter/plotter/motorctrl.py:73-81 | the calls made are a start of the trace with no failing sleep, and the next call, if any, is a failing sleep |
| Motor.PerformedAppend | plotter/plotter/motorctrl.py:73-81 | a trace after another is reached only when the first completes; the two raise iff either does |
| Motor.PerformedAll | plotter/plotter/motorctrl.py:73-81 | a trace with no failing sleep is made in full |
| Motor.PulseRaises | plotter/plotter/motorctrl.py:76-81 | a pulse raises iff its delay is negative, and then after its two outputs |
| Motor.PulseTrainRaises | plotter/plotter/motorctrl.py:72-81 | a pulse train raises iff it is non-empty with a negative delay, after its first two outputs |
| Motor.ScheduleRaises | plotter/plotter/motorctrl.py:61-81 | the ticks of a move raise iff the delay is negative and some axis has a step, and then only the first pulse's two outputs, on some step pin, are made |
| Motor.StepTracePerformed | plotter/plotter/motorctrl.py:63-81 | the direction write of `doSteps` is always made; the ticks follow as far as they get |
| Motor.StepTraceRaises | plotter/plotter/motorctrl.py:56-81 | `doSteps` raises iff the delay is negative and some axis has a step; then only the direction write and one step pin's high and low outputs are made |
| Motor.StepsOutcome | plotter/plotter/motorctrl.py:56-81 | the calls of `doSteps` are its trace up to the first failing sleep: its first three calls when it raises, all of it otherwise |
| Motor.TickRaises | plotter/plotter/motorctrl.py:75-81 | the first due pulse of a tick with a negative delay ends the tick after its two outputs |
| Motor.ScheduleStops | plotter/plotter/motorctrl.py:72-81 | once a tick raises, no later tick runs |
| Motor.ScheduleGoesOn | plotter/plotter/motorctrl.py:72-81 | a tick that completes is made in full and the schedule goes on from the next tick |
| Motor.StepperCtrl.constructor | plotter/plotter/motorctrl.py:21-33 | stores the pins and the microstepping factor |
| Motor.StepperCtrl.SetMicrostepping | plotter/plotter/motorctrl.py:45-54 | records the factor; writes its pattern to every resolution group iff one exists, else reports failure |
| Motor.StepperCtrl.InitGPIO | plotter/plotter/motorctrl.py:35-43 | sets up direction, step and resolution pins, then applies the microstepping pattern |
| Motor.StepperCtrl.DoSteps | plotter/plotter/motorctrl.py:56-81 | appends `StepTrace` as far as its first failing sleep: all of it, so a pulse train with exactly the requested steps on each pin, unless the delay is negative and some axis has a step; then it raises after the direction write and the first pulse's two outputs |
| Motor.StepperCtrl.RunTicks | plotter/plotter/motorctrl.py:72-81 | the tick loop appends the schedule of all ticks up to its first failing sleep, and raises exactly when the schedule has one |
| Motor.StepperCtrl.Tick | plotter/plotter/motorctrl.py:73-79 | tick i appends the pulses of the due axes, in axis order, up to the first failing sleep, raises exactly when there is one, and otherwise removes each due head from its plan |
| Motor.ServoCtrl.constructor | plotter/plotter/motorctrl.py:87-90 | stores pin, frequency and initial duty cycle, with PWM not yet started |
| Motor.ServoCtrl.InitGPIO | plotter/plotter/motorctrl.py:92-95 | sets up the pin and starts PWM at the initial duty cycle |
| Motor.ServoCtrl.MoveTo | plotter/plotter/motorctrl.py:97-102 | changes the duty cycle, then waits; a negative delay raises at the wait |
| Hardware.Trunc | plotter/plotter/plotter_hw.py:65 | `int()` truncates toward zero, less than one away from the value |
| Hardware.PlanMove | plotter/plotter/plotter_hw.py:45-51 | each axis steps by -1 iff the current coordinate is not below the target's, so no step moves away from the target |
| Hardware.BresenhamStep | plotter/plotter/plotter_hw.py:75-81 | one step of the loop: each axis moves by one resolution when the doubled error passes its bound, both tests using the error from before the step |
| Hardware.StepBlock | plotter/plotter/plotter_hw.py:55-65 | the change in cord lengths since the reference lengths, in whole steps, truncated toward zero |
| Hardware.WalkFrom | plotter/plotter/plotter_hw.py:54-81 | the sampling loop: queue a step block, stop within one resolution of the target, else take a Bresenham step; the lemmas below state its shape, grid and drift |
| Hardware.MoveWalk | plotter/plotter/plotter_hw.py:34-81 | the walk of `moveToPos`, with the direction signs and error term set up as the source does |
| Hardware.WalkShape | plotter/plotter/plotter_hw.py:54-81 | one queued move per sample, all at the current speed; stops at the first sample within the resolution |
| Hardware.WalkGrid | plotter/plotter/plotter_hw.py:55-81 | each sample moves each coordinate by zero or one resolution step in the planned direction |
| Hardware.WalkStart | plotter/plotter/plotter_hw.py:52-55 | the sampling loop starts with nothing queued |
| Hardware.WalkUnfold | plotter/plotter/plotter_hw.py:55-81 | a sample outside the resolution queues its steps and takes one Bresenham step |
| Hardware.WalkStop | plotter/plotter/plotter_hw.py:55-73 | a sample within the resolution queues its steps and ends the walk |
| Hardware.WalkOut | plotter/plotter/plotter_hw.py:55-81 | a walk out of fuel ends where it is, unreached |
| Hardware.QuotientBound | plotter/plotter/plotter_hw.py:65-67 | a truncation error below one step stays below one step after dividing by steps per mm |
| Hardware.TruncatedAxis | plotter/plotter/plotter_hw.py:65-67 | after the truncated steps, the cord is less than one step away from the target length |
| Hardware.AdvanceNear | plotter/plotter/plotter_hw.py:55-67 | each sample leaves both cords less than one step from the sampled point's lengths |
| Hardware.TruncatedLengths | plotter/plotter/plotter_hw.py:65-67 | whole steps on both cords leave them less than one step from the target lengths |
| Hardware.WalkDrift | plotter/plotter/plotter_hw.py:55-81 | the tracked cord lengths never drift a step or more from the last sample's true lengths |
| Hardware.AdvanceTwice | plotter/plotter/plotter_hw.py:65-67 | two advances of the cords equal one advance by the summed steps |
| Hardware.WalkTotals | plotter/plotter/plotter_hw.py:55-81 | the tracked cord lengths are the start plus all queued steps |
| Hardware.Execute | plotter/plotter/plotter_base.py:74-112 | the hardware plotter's `executeCmd`: the shared dispatch applied to the hardware hooks; Hardware.ExecuteGoTo and Hardware.ExecutePenLine state its two main cases |
| Hardware.ExecuteGoTo | plotter/plotter/plotter_hw.py:34-81 | an encoded move walks to its rounded target at its speed and queues the walk's moves |
| Hardware.ExecutePenLine | plotter/plotter/plotter_hw.py:26-32 | "M3"/"M4" queue the down/up servo position and change nothing else |
| Hardware.HardwarePlotter.constructor | plotter/plotter/plotter_hw.py:20-24 | the base state plus the servo positions from the config and an empty queue |
| Hardware.HardwarePlotter.PenUp | plotter/plotter/plotter_hw.py:26-28 | queues the up servo position, nothing else changes |
| Hardware.HardwarePlotter.PenDown | plotter/plotter/plotter_hw.py:30-32 | queues the down servo position, nothing else changes |
| Hardware.HardwarePlotter.MoveToPos | plotter/plotter/plotter_hw.py:34-81 | the position, cords and queue become those of the walk toward the target |
| Hardware.HardwarePlotter.SampleLoop | plotter/plotter/plotter_hw.py:54-81 | the sampling loop carries out exactly the planned walk |
| Hardware.HardwarePlotter.SampleOnWalk | plotter/plotter/plotter_hw.py:55-81 | one loop iteration advances the walk by one sample or ends it |
| Hardware.HardwarePlotter.Sample | plotter/plotter/plotter_hw.py:55-81 | one sample queues its steps, advances the cords, and stops or takes a Bresenham step |
| Hardware.HardwarePlotter.ExecuteCmd | plotter/plotter/plotter_base.py:74-112 | runs the dispatch with the hardware hooks; the pen flag is never updated |
| Hardware.DecodeItem | plotter/plotter/plotter_hw.py:155-176 | a step item becomes step counts, direction bits and a delay, a pen item a servo position; Hardware.DecodeStepsInverts proves the counts and bits give back the signed steps |
| Hardware.DecodeStepsInverts | plotter/plotter/plotter_hw.py:155-176 | a stepper item decodes iff its speed is non-zero, back to its signed steps, with delay times speed equal to the microstepping |
| Hardware.ItemOutcome | plotter/plotter/plotter_hw.py:155-176 | what one item comes to: its decoded command, a decoding error, or the ValueError of `time.sleep` for a move with a step and a negative delay; Hardware.ItemOutcomeFails and Hardware.CommandRaises state when it fails |
| Hardware.ItemOutcomeFails | plotter/plotter/plotter_hw.py:155-176 | with a positive microstepping factor, a step item fails iff its speed is zero, or negative with a step to make, the latter as a raised sleep carrying the decoded command; a pen item never fails |
| Hardware.FailureEvents | plotter/plotter/plotter_hw.py:155-176 | the GPIO calls made before the loop ends on an error: those of the failing move up to its sleep, none for a decoding error |
| Hardware.CommandRaises | plotter/plotter/motorctrl.py:56-102 | a command's GPIO calls raise iff it is a move with a step and a negative delay; then the calls made are its first three |
| Hardware.RunQueue | plotter/plotter/plotter_hw.py:151-179 | the executor loop over the queue up to the sentinel; Hardware.RunQueueOrder and Hardware.RunQueueSentinel state its order and its end |
| Hardware.RunQueueOrder | plotter/plotter/plotter_hw.py:151-179 | items run first in first out, up to the None sentinel or the first item that fails, in decoding or at a raised sleep |
| Hardware.RunQueueSentinel | plotter/plotter/plotter_hw.py:151-153 | nothing after the None sentinel runs |
| Hardware.QueueStart | plotter/plotter/plotter_hw.py:151 | the executor starts with nothing run |
| Hardware.QueueNext | plotter/plotter/plotter_hw.py:151-179 | one item either fails the run or is run and appended |
| Hardware.QueueEnd | plotter/plotter/plotter_hw.py:151-153 | the sentinel or the end of the queue ends the run with no failure |
| Hardware.StepperInitEvents | plotter/plotter/motorctrl.py:35-54 | the GPIO setup of the steppers, then the microstepping writes when the factor has a pattern |
| Hardware.StartExecutor | plotter/plotter/plotter_hw.py:133-148 | builds two steppers and a servo on the configured pins; succeeds iff the microstepping has a pattern; the servo's PWM is set up and started only then, since a KeyError stops the executor first |
| Hardware.CommandEvents | plotter/plotter/plotter_hw.py:155-176 | what one command drives: the `doSteps` trace of a step command, or the servo duty and its 0.3 s wait |
| Hardware.RunEvents | plotter/plotter/plotter_hw.py:151-179 | what a run of commands drives, one command after another |
| Hardware.RunEventsAppend | plotter/plotter/plotter_hw.py:151-179 | one more command appends exactly its own events |
| Hardware.ProcessMovements | plotter/plotter/plotter_hw.py:151-179 | the executor loop runs exactly the queue's commands up to the first failing item, and the GPIO trace it appends is those commands carried out in turn, then the calls the failing item made |
| Hardware.CarryOutNext | plotter/plotter/plotter_hw.py:151-179 | one more item extends the trace of the commands done by that item's events, or on an error by the calls made before it |
| Hardware.CarryOut | plotter/plotter/plotter_hw.py:155-176 | an item is decoded and performed: a step item appends exactly its `doSteps` trace, a pen item the servo duty and a 0.3 s wait; an item that fails to decode emits nothing, and a move with a negative delay and a step emits the calls before its first sleep and fails |
| Simulation.BreaksAppend | plotter/plotter/plotter_sw.py:54-66 | line breaks add up over concatenated coordinate lists |
| Simulation.PairedAppend | plotter/plotter/plotter_sw.py:35-81 | appending paired samples keeps the x and y lists paired |
| Simulation.NoBreaksCount | plotter/plotter/plotter_sw.py:54-66 | a list has no line break iff it counts none |
| Simulation.AfterMove | plotter/plotter/plotter_sw.py:35-48 | the lists after `moveToPos`: the point left added to the drawn trace while the pen is down, else to the non-drawing trace when shown |
| Simulation.AfterPenUp | plotter/plotter/plotter_sw.py:54-66 | the lists after `penUp`: a lowered pen closes its stroke with the point and a break and marks the lift; a raised one adds the point to the shown non-drawing trace |
| Simulation.AfterPenDown | plotter/plotter/plotter_sw.py:69-81 | the lists after `penDown`: a raised pen starts a stroke and marks the lowering; a lowered one, when shown, adds the point to the drawn trace and breaks the non-drawing trace |
| Simulation.AfterCmd | plotter/plotter/plotter_base.py:74-112 | the lists after one line: those of the hook the dispatch calls, unchanged for any other line |
| Simulation.AfterCmdGrows | plotter/plotter/plotter_sw.py:35-81 | every recorded list only grows, and a line that calls no simulation hook (arcs included) leaves all of them unchanged |
| Simulation.MoveConsistent | plotter/plotter/plotter_sw.py:35-48 | a move keeps the lists paired and the stroke and pen-mark counts in step |
| Simulation.PenUpConsistent | plotter/plotter/plotter_sw.py:54-66 | `penUp` keeps them so, with the pen now up: one more break and one more lift mark when it was down |
| Simulation.PenDownConsistent | plotter/plotter/plotter_sw.py:69-81 | `penDown` keeps them so, with the pen now down: one more lowering mark when it was up |
| Simulation.SimulationPlotter.constructor | plotter/plotter/plotter_sw.py:22-33 | empty coordinate lists, at (0,0) with speed 10000 and the pen up |
| Simulation.SimulationPlotter.MoveToPos | plotter/plotter/plotter_sw.py:35-48 | the lists become `AfterMove` of the old lists at the old position, then the plotter moves; pen and speed unchanged |
| Simulation.SimulationPlotter.PenUp | plotter/plotter/plotter_sw.py:54-66 | the lists become `AfterPenUp` of the old lists at the old position, and the pen is up |
| Simulation.SimulationPlotter.PenDown | plotter/plotter/plotter_sw.py:69-81 | the lists become `AfterPenDown` of the old lists at the old position, and the pen is down |
| Simulation.SimulationPlotter.ExecuteCmd | plotter/plotter/plotter_base.py:74-112 | runs the dispatch with the simulation hooks: the speed, status, position and pen follow the dispatched effect, arcs raise, and the recorded lists become `AfterCmd` of the old ones, so every list is unchanged for a line that calls no hook |
| StraightLineGenerator.ColPixelsIndex | plotter/generators/straight_line_generator.py:56-58 | entry y of a column's enumeration is pixel (y, x) |
| StraightLineGenerator.ColStartIsProduct | plotter/generators/straight_line_generator.py:56-58 | column x starts at x*H |
| StraightLineGenerator.ColsPixelsLength | plotter/generators/straight_line_generator.py:56-58 | n columns have n*H entries |
| StraightLineGenerator.ColsPixelsCell | plotter/generators/straight_line_generator.py:56-58 | entry x*H + y of the first n columns is pixel (y, x) |
| StraightLineGenerator.LastColumnCell | plotter/generators/straight_line_generator.py:56-58 | entry x*H + y of the first x+1 columns is pixel (y, x) |
| StraightLineGenerator.ColsPixelsPrefix | plotter/generators/straight_line_generator.py:56-58 | fewer columns enumerate a prefix of more columns |
| StraightLineGenerator.ColumnMajorIndex | plotter/generators/straight_line_generator.py:56-58 | direction 2 is column-major: entry x*H + y is pixel (y, x), and there are W*H entries |
| StraightLineGenerator.ColumnMajorCell | plotter/generators/straight_line_generator.py:56-58 | entry x*H + y of direction 2 is pixel (y, x) |
| StraightLineGenerator.PartCellsStep | plotter/generators/straight_line_generator.py:61-77 | one more outer round appends that round's cells |
| StraightLineGenerator.Wrap | plotter/generators/straight_line_generator.py:63-77 | a numpy index is valid iff it lies in [-n, n), and a negative one counts from the end |
| StraightLineGenerator.Lookup | plotter/generators/straight_line_generator.py:63-77 | reading a pixel succeeds iff both indices are valid, and an in-range cell reads that pixel |
| StraightLineGenerator.ExtendAppend | plotter/generators/straight_line_generator.py:60-77 | collecting two cell lists in turn is collecting their concatenation |
| StraightLineGenerator.ExtendErr | plotter/generators/straight_line_generator.py:60-77 | once an IndexError is raised, later cells change nothing |
| StraightLineGenerator.LookupsInside | plotter/generators/straight_line_generator.py:60-77 | cells inside the image read exactly their pixels |
| StraightLineGenerator.Traversal | plotter/generators/straight_line_generator.py:52-77 | the pixels of each of the four directions, in the order `convert` visits them, or an error; the lemmas below state the orders and that the cells stay inside the image |
| StraightLineGenerator.CellInside | plotter/generators/straight_line_generator.py:59-77 | on an image no wider than high, every diagonal cell is inside, and direction 3 never reaches row 0 |
| StraightLineGenerator.PartCellsInside | plotter/generators/straight_line_generator.py:59-77 | every cell of a diagonal loop's rounds is inside such an image |
| StraightLineGenerator.InnerCellsIndex | plotter/generators/straight_line_generator.py:62-76 | inner-loop cell b is the loop's cell for index b |
| StraightLineGenerator.DiagonalsInside | plotter/generators/straight_line_generator.py:59-77 | on an image no wider than high, directions 3 and 4 raise no IndexError and read their cells in loop order; direction 3 skips row 0 |
| StraightLineGenerator.OuterStep | plotter/generators/straight_line_generator.py:61-77 | one outer round collects that round's cells after the earlier ones |
| StraightLineGenerator.InnerStep | plotter/generators/straight_line_generator.py:62-77 | one inner iteration appends one cell's pixel |
| StraightLineGenerator.CollectPart | plotter/generators/straight_line_generator.py:61-77 | one nested loop pair collects all its cells' pixels |
| StraightLineGenerator.CollectNextRound | plotter/generators/straight_line_generator.py:61-77 | one outer iteration collects one more round |
| StraightLineGenerator.CollectRound | plotter/generators/straight_line_generator.py:62-77 | one inner loop collects its round's pixels |
| StraightLineGenerator.Append | plotter/generators/straight_line_generator.py:63-77 | one `append` reads one pixel or raises IndexError |
| StraightLineGenerator.Indices | plotter/generators/straight_line_generator.py:52-77 | the traversal of each direction: row-major, column-major, the two diagonal loop pairs, or nothing |
| StraightLineGenerator.RenderTwo | plotter/utils/gcode.py:3-16 | rendering two commands gives their two lines |
| StraightLineGenerator.RenderOpen | plotter/generators/straight_line_generator.py:108-113 | a run opens with a move at the non-drawing speed, then pen down |
| StraightLineGenerator.RenderClose | plotter/generators/straight_line_generator.py:114-120 | a run closes with a move to the last drawn point at the drawing speed, then pen up |
| StraightLineGenerator.BreakRun | plotter/generators/straight_line_generator.py:87-100 | a jump of more than one pixel on either axis closes an open run |
| StraightLineGenerator.ThresholdPixel | plotter/generators/straight_line_generator.py:102-123 | an admitted pixel opens a run if none is open; a rejected one closes an open run |
| StraightLineGenerator.DrawPass | plotter/generators/straight_line_generator.py:79-128 | one direction's loop emits its runs and closes a run still open at the end |
| StraightLineGenerator.Convert | plotter/generators/straight_line_generator.py:36-132 | `convert` emits pen up, home, then every direction's runs, or raises IndexError |
| StraightLineGenerator.StartLines | plotter/generators/straight_line_generator.py:41 | the output starts with pen up and home |
| StraightLineGenerator.Direction | plotter/generators/straight_line_generator.py:51-130 | one direction appends its pass, or its IndexError ends the conversion |
| StraightLineGenerator.PassesStep | plotter/generators/straight_line_generator.py:51-130 | one more direction appends its traversal's pass |
| StraightLineGenerator.PassesErr | plotter/generators/straight_line_generator.py:51-77 | after an IndexError no further direction runs |
| StraightLineGenerator.AdmitNarrows | plotter/generators/straight_line_generator.py:104-130 | each later direction admits only pixels that every earlier one admitted |
| StraightLineGenerator.Scan | plotter/generators/straight_line_generator.py:79-123 | the run state and the commands after a pass's pixels; the lemmas below state its pens, pairs and moves |
| StraightLineGenerator.PassCmds | plotter/generators/straight_line_generator.py:79-128 | a pass's commands, closing the run still open at its end |
| StraightLineGenerator.ScanDrawing | plotter/generators/straight_line_generator.py:79-123 | a run is open after the scan iff the last pixel is admitted, and then it ends at that pixel |
| StraightLineGenerator.PensOf | plotter/generators/straight_line_generator.py:108-120 | opening a run lowers the pen once and closing it raises the pen once |
| StraightLineGenerator.ScanPens | plotter/generators/straight_line_generator.py:79-123 | a scan's pen commands are whole strokes plus one pen-down if a run is still open |
| StraightLineGenerator.VisitPens | plotter/generators/straight_line_generator.py:87-123 | one pixel closes at most one run and opens at most one |
| StraightLineGenerator.StrokeClosed | plotter/generators/straight_line_generator.py:125-128 | closing an open stroke completes one more stroke |
| StraightLineGenerator.PassPens | plotter/generators/straight_line_generator.py:79-128 | each direction's pen commands are whole down/up strokes |
| StraightLineGenerator.PairsAppend | plotter/generators/straight_line_generator.py:79-128 | move/pen pairs stay pairs under concatenation |
| StraightLineGenerator.PairsOf | plotter/generators/straight_line_generator.py:108-120 | opening and closing a run each emit one move/pen pair |
| StraightLineGenerator.ScanPairs | plotter/generators/straight_line_generator.py:79-123 | a scan emits move/pen pairs |
| StraightLineGenerator.PassPairs | plotter/generators/straight_line_generator.py:79-128 | each direction emits move/pen pairs: non-drawing speed before pen down, drawing speed before pen up |
| StraightLineGenerator.ScanMoves | plotter/generators/straight_line_generator.py:79-123 | every move of a scan goes to an admitted pixel |
| StraightLineGenerator.VisitMoves | plotter/generators/straight_line_generator.py:87-123 | a pixel's moves go to it when admitted, or to the last drawn point |
| StraightLineGenerator.PassMoves | plotter/generators/straight_line_generator.py:79-128 | every move of a direction goes to one of its admitted pixels |
| StraightLineGenerator.NothingAdmitted | plotter/generators/straight_line_generator.py:104-128 | a direction with no admitted pixel emits nothing |
| StraightLineGenerator.NothingScanned | plotter/generators/straight_line_generator.py:104-123 | a scan with no admitted pixel emits nothing and ends with no open run |
| StraightLineGenerator.PassesPairs | plotter/generators/straight_line_generator.py:41-130 | the output is pen up, home, then move/pen pairs |
| StraightLineGenerator.PairsJoin | plotter/generators/straight_line_generator.py:41-130 | appending a direction's pairs keeps that shape |
| StraightLineGenerator.PassesPens | plotter/generators/straight_line_generator.py:41-130 | the output's pen commands are one pen-up then whole strokes |
| StraightLineGenerator.StartPens | plotter/generators/straight_line_generator.py:41 | the start has one pen-up and no stroke |
| StraightLineGenerator.PensJoin | plotter/generators/straight_line_generator.py:41-130 | appending a direction's strokes adds up the stroke count |
| StraightLineGenerator.ConvertSpec | plotter/generators/straight_line_generator.py:36-132 | the commands of every requested direction in turn, or the error that ends `convert`; StraightLineGenerator.ConvertShape states its shape |
| StraightLineGenerator.ConvertShape | plotter/generators/straight_line_generator.py:36-132 | the output starts with M4 then G28, its pen commands alternate, and it ends with the pen up |

## Left out

- Concurrency: the worker process and its queue (`processQueueAsync`), `shutdown`, and the executor process's start and join are not modelled. The model runs the command stream and the motor queue one after the other.
- `executeGCodeFile` (file reading) is not modelled; the model starts from a sequence of lines.
- GPIO and timing are a trace of events (setup, output, PWM, sleep); real pin I/O, cleanup and wall-clock timing are left out.
- matplotlib plotting (`plotCurrentState`) is left out; the simulation's coordinate lists, which it draws, are modelled.
- `print` output and the log-only bounding box in `postProcessGCode` are left out; they change no result.
- The arc, sine-wave and SVG generators, the CLI scripts and the older top-level copies (`plotter/motorctrl.py`, `plotter/utils.py`, `plotter/gcode_generators.py`, `plotter/plotter.py`) are not part of this model.
- Colour images: `img.mean(axis=2)` is left out; images are grey-scale rows of reals.
- Floating point is modelled as exact reals, and numpy dtypes are not distinguished.
- `np.sqrt` is a parameter; lemmas that need exactness require it to be the true square root.
- `calcOrigin`'s `exit(1)` is the error `InvalidCalibration`. A zero base width is the error `DivisionByZero`, because division by zero has no real value.
- Hardware.HardwarePlotter.MoveToPos: the sampling loop is bounded by a fuel count; termination of the unbounded loop is not claimed, and a walk that runs out of fuel reports `reached == false`.
- Hardware.StartExecutor: `processMovementAsync` reads `self.config`, which is never assigned in the executor; the model passes the configuration as a parameter.
- Simulation.SimulationPlotter.constructor: `PlotterSimulation.__init__` passes arguments to the base constructor in a shape it does not accept; the model builds the documented state directly.
- Motor.ServoCtrl.MoveTo: the GPIO library's own range check on the duty cycle (ValueError outside 0 to 100) belongs to the library, which is not part of this model; any duty cycle is recorded.
- Motor.StepperCtrl.DoSteps: requires at least one axis, because `max` of an empty list raises in the source, and no more axes than step pins, because indexing a missing pin raises.
- Numbers.ParseFloat: `float()` also accepts `inf`, `infinity` and `nan` in any case, which have no counterpart among the reals, and non-ASCII digits; the model refuses those tokens.
- GCode.DecodeGCode: a token such as `Xinf` or `Xnan` decodes in Python to an infinite or NaN value, while the model yields the empty map. A literal beyond the float range, such as `1e400`, is an exact real in the model.
- Numbers.FormatFloat: Python's negative zero (`-0.0`, printed `-0.000000`) has no counterpart among the reals; every negative real, including one that rounds to zero, is printed with its minus sign as Python does.
- Kinematics.CalcOrigin: uses the corrected triangle guard. The source accepts some non-triangles (base at most l0 + l1, yet no triangle) and then yields a NaN origin; see Findings. PlotterBase.Calibrate and the plotter constructors inherit this.
- Requires of non-zero steps per millimetre and resolution (division in `moveToPos`), and of rectangular images (numpy arrays are rectangular), state what the source assumes of its inputs.
- Direction 4 of the straight-line generator misses cells on some images and raises IndexError on images wider than high. It is modelled as written, and the absence of IndexError is proved only for images no wider than high. Direction 3 never visits row 0; this is modelled as written and proved.
- A trailing pen command after the last move is dropped by `postProcessGCode`, even where a description of the pass would keep the final pen-up. The model follows the code (GCode.TrailingPenUpDropped).
- Hardware.HardwarePlotter.ExecuteCmd: `penIsDown` is never updated by the hardware pen hooks, as in the source.

## Findings

| source | as written | input that shows it | evidently intended | confidence | as-written member | corrected member |
|---|---|---|---|---|---|---|
| plotter/utils/math.py:37-42 | `calcOrigin` rejects only base > l0 + l1 | l = (10, 1), base = 2: the guard passes, and x = 25.75 and the square root's argument 1 - (2 - 25.75)^2 is negative, so y is NaN | reject unless base, l0 and l1 satisfy all three triangle inequalities | not executed | Kinematics.CalcOriginGuardTooWeak | Kinematics.CalcOriginChecked |
