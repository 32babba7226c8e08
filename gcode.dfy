/**
 * The plotter's command language (a G-code subset): the encoders for the five
 * line forms, the token decoder, and the two-pass post-processor that drops
 * short moves and re-derives the pen commands.
 */
module GCode {
  import opened Common
  import opened Numbers
  import opened Text

  const HomeLine: string := "G28"
  const PenUpLine: string := "M4"
  const PenDownLine: string := "M3"

  /**
   * The line kinds, recognised by their prefix ("G0", "G28", "G2", "M3",
   * "M4"); KindsArePrefixes ties each to the prefix test.
   */
  predicate IsMove(line: string) { |line| >= 2 && line[0] == 'G' && line[1] == '0' }
  predicate IsHome(line: string) { |line| >= 3 && line[0] == 'G' && line[1] == '2' && line[2] == '8' }
  predicate IsArc(line: string) { |line| >= 2 && line[0] == 'G' && line[1] == '2' }
  predicate IsPenDown(line: string) { |line| >= 2 && line[0] == 'M' && line[1] == '3' }
  predicate IsPenUp(line: string) { |line| >= 2 && line[0] == 'M' && line[1] == '4' }
  predicate IsPen(line: string) { IsPenDown(line) || IsPenUp(line) }

  lemma KindsArePrefixes(line: string)
    ensures IsMove(line) == StartsWith(line, "G0")
    ensures IsHome(line) == StartsWith(line, "G28")
    ensures IsArc(line) == StartsWith(line, "G2")
    ensures IsPenDown(line) == StartsWith(line, "M3")
    ensures IsPenUp(line) == StartsWith(line, "M4")
  {
    if |line| >= 2 {
      assert line[..2] == [line[0], line[1]];
    }
    if |line| >= 3 {
      assert line[..3] == [line[0], line[1], line[2]];
    }
  }

  /** The pen command for "pen down" (true) or "pen up" (false). */
  function PenLine(down: bool): string
  {
    if down then PenDownLine else PenUpLine
  }

  /** A move to p, with a speed parameter only when one is given. */
  function GoTo(p: Point, s: Option<real>): string
  {
    var line := "G0 X" + FormatFloat(p.x) + " Y" + FormatFloat(p.y);
    if s.Some? then line + " S" + FormatFloat(s.value) else line
  }

  // ---------------------------------------------------------------- decoding

  /** The number after a token's letter. */
  function TokenValue(t: string): Option<real>
    requires t != []
  {
    ParseFloat(t[1..])
  }

  /** Tokens of a split line are never empty. */
  predicate Words(ts: seq<string>)
  {
    forall k :: 0 <= k < |ts| ==> ts[k] != []
  }

  /** Every token is a letter followed by a number. */
  predicate AllParse(ts: seq<string>)
    requires Words(ts)
  {
    ts == [] || (AllParse(ts[..|ts| - 1]) && TokenValue(ts[|ts| - 1]).Some?)
  }

  /** Each token's letter mapped to its number, tokens applied from first to last. */
  function Assignments(ts: seq<string>): map<char, real>
    requires Words(ts) && AllParse(ts)
  {
    if ts == [] then map[]
    else
      var t := ts[|ts| - 1];
      Assignments(ts[..|ts| - 1])[t[0] := TokenValue(t).value]
  }

  /** `decodeGCode`: the parameters of a line, or the empty map when any token is not a letter and a number. */
  function Decode(line: string): map<char, real>
  {
    var ts := Tokens(line);
    if AllParse(ts) then Assignments(ts) else map[]
  }

  method DecodeGCode(gcode: string) returns (data: map<char, real>)
    ensures data == Decode(gcode)
  {
    var params := Tokens(gcode);
    data := map[];
    var i := 0;
    while i < |params|
      invariant 0 <= i <= |params|
      invariant AllParse(params[..i])
      invariant data == Assignments(params[..i])
    {
      var p := params[i];
      var val := ParseFloat(p[1..]);
      if val.None? {
        AllParseEach(params);
        return map[];
      }
      assert params[..i + 1][..i] == params[..i];
      data := data[p[0] := val.value];
      i := i + 1;
    }
    assert params[..i] == params;
  }

  /** The decoded keys are exactly the tokens' letters. */
  lemma {:induction false} AssignmentsKeys(ts: seq<string>)
    requires Words(ts) && AllParse(ts)
    ensures Assignments(ts).Keys == set k | 0 <= k < |ts| :: ts[k][0]
  {
    if ts != [] {
      var init := ts[..|ts| - 1];
      AssignmentsKeys(init);
      var s := set k | 0 <= k < |ts| :: ts[k][0];
      var s' := set k | 0 <= k < |init| :: init[k][0];
      assert s == s' + {ts[|ts| - 1][0]} by {
        forall c | c in s ensures c in s' + {ts[|ts| - 1][0]} {
          var k :| 0 <= k < |ts| && ts[k][0] == c;
          if k < |init| { assert init[k][0] == c; }
        }
      }
    }
  }

  /** A key's value comes from the last token carrying that letter. */
  lemma {:induction false} AssignmentsLastWins(ts: seq<string>, i: nat)
    requires Words(ts) && AllParse(ts)
    requires i < |ts|
    requires forall j :: i < j < |ts| ==> ts[j][0] != ts[i][0]
    ensures ts[i][0] in Assignments(ts)
    ensures Some(Assignments(ts)[ts[i][0]]) == TokenValue(ts[i])
  {
    if i < |ts| - 1 {
      AssignmentsLastWins(ts[..|ts| - 1], i);
    }
  }

  lemma {:induction false} AllParseEach(ts: seq<string>)
    requires Words(ts)
    ensures AllParse(ts) <==> forall k :: 0 <= k < |ts| ==> TokenValue(ts[k]).Some?
  {
    if ts != [] {
      AllParseEach(ts[..|ts| - 1]);
    }
  }

  /** One token that is not a letter followed by a number discards the whole line. */
  lemma DecodeFailure(line: string, k: nat)
    requires k < |Tokens(line)| && TokenValue(Tokens(line)[k]).None?
    ensures Decode(line) == map[]
  {
    AllParseEach(Tokens(line));
  }

  /** A parameter token: a letter followed by a formatted number. */
  function Param(letter: char, r: real): string
  {
    [letter] + FormatFloat(r)
  }

  lemma ParamWord(letter: char, r: real)
    requires !IsSpace(letter)
    ensures Param(letter, r) != [] && NoSpace(Param(letter, r))
    ensures Param(letter, r)[0] == letter && TokenValue(Param(letter, r)) == Some(Round6(r))
  {
    ParamNoSpace(letter, r);
    ParseFormat(r);
  }

  lemma ParamNoSpace(letter: char, r: real)
    requires !IsSpace(letter)
    ensures Param(letter, r) != [] && NoSpace(Param(letter, r))
  {
    var t := Param(letter, r);
    assert t[1..] == FormatFloat(r);
    forall i | 0 <= i < |t| ensures !IsSpace(t[i]) {
      if i > 0 { assert IsNumberChar(t[1..][i - 1]); }
    }
  }

  /** The tokens of an encoded move. */
  function MoveWords(p: Point, s: Option<real>): seq<string>
  {
    ["G0", Param('X', p.x), Param('Y', p.y)] + if s.Some? then [Param('S', s.value)] else []
  }

  /** Joining the tokens of a move, for any number texts a, b and c. */
  lemma UnwordsMoveText(a: string, b: string, c: Option<string>)
    ensures Unwords(["G0", "X" + a, "Y" + b] + if c.Some? then ["S" + c.value] else [])
      == "G0 X" + a + " Y" + b + if c.Some? then " S" + c.value else ""
  {
    var ws := ["G0", "X" + a, "Y" + b] + if c.Some? then ["S" + c.value] else [];
    var tail := if c.Some? then " S" + c.value else "";
    assert Unwords(ws[2..]) == "Y" + b + tail by {
      if c.Some? {
        assert ws[2..][1..] == ["S" + c.value];
      } else {
        assert ws[2..] == ["Y" + b];
      }
    }
    assert ws[1..][1..] == ws[2..];
  }

  lemma UnwordsMove(p: Point, s: Option<real>)
    ensures Unwords(MoveWords(p, s)) == GoTo(p, s)
  {
    UnwordsMoveText(FormatFloat(p.x), FormatFloat(p.y), if s.Some? then Some(FormatFloat(s.value)) else None);
  }

  lemma GoToTokens(p: Point, s: Option<real>)
    ensures Words(MoveWords(p, s)) && Tokens(GoTo(p, s)) == MoveWords(p, s)
  {
    MoveWordsNoSpace(p, s);
    UnwordsMove(p, s);
    TokensUnwords(MoveWords(p, s));
  }

  lemma MoveWordsNoSpace(p: Point, s: Option<real>)
    ensures forall k :: 0 <= k < |MoveWords(p, s)| ==> MoveWords(p, s)[k] != [] && NoSpace(MoveWords(p, s)[k])
  {
    var ws := MoveWords(p, s);
    forall k | 0 <= k < |ws| ensures ws[k] != [] && NoSpace(ws[k]) {
      if k == 0 {
        CommandWord();
      } else if k == 1 {
        ParamNoSpace('X', p.x);
      } else if k == 2 {
        ParamNoSpace('Y', p.y);
      } else {
        ParamNoSpace('S', s.value);
      }
    }
  }

  lemma CommandWord()
    ensures "G0" != [] && NoSpace("G0")
  {
    assert !IsSpace("G0"[0]) && !IsSpace("G0"[1]);
  }

  /** Decoding the tokens of a move, for any parameter tokens with the given values. */
  lemma AssignmentsMoveWords(tx: string, ty: string, ts: Option<string>, x: real, y: real, sv: Option<real>)
    requires tx != [] && tx[0] == 'X' && TokenValue(tx) == Some(x)
    requires ty != [] && ty[0] == 'Y' && TokenValue(ty) == Some(y)
    requires ts.Some? <==> sv.Some?
    requires ts.Some? ==> ts.value != [] && ts.value[0] == 'S' && TokenValue(ts.value) == sv
    ensures var ws := ["G0", tx, ty] + if ts.Some? then [ts.value] else [];
      Words(ws) && AllParse(ws) &&
      Assignments(ws) == if sv.Some? then map['G' := 0.0, 'X' := x, 'Y' := y, 'S' := sv.value]
                         else map['G' := 0.0, 'X' := x, 'Y' := y]
  {
    var ws := ["G0", tx, ty] + if ts.Some? then [ts.value] else [];
    assert TokenValue("G0") == Some(0.0) by {
      assert "G0"[1..] == "0" && "0"[1..] == [];
    }
    var three := ["G0", tx, ty];
    var two := ["G0", tx];
    assert three[..2] == two && two[..1] == ["G0"] && ["G0"][..0] == [];
    assert AllParse(["G0"]) && Assignments(["G0"]) == map['G' := 0.0];
    assert AllParse(two) && Assignments(two) == map['G' := 0.0, 'X' := x];
    assert AllParse(three) && Assignments(three) == map['G' := 0.0, 'X' := x, 'Y' := y];
    if ts.Some? {
      assert ws[..3] == three;
    } else {
      assert ws == three;
    }
  }

  /** Decoding an encoded move gives G0 and the coordinates (and speed) rounded to six decimals. */
  lemma DecodeGoTo(p: Point, s: Option<real>)
    ensures s.None? ==> Decode(GoTo(p, s)) == map['G' := 0.0, 'X' := Round6(p.x), 'Y' := Round6(p.y)]
    ensures s.Some? ==>
      Decode(GoTo(p, s)) == map['G' := 0.0, 'X' := Round6(p.x), 'Y' := Round6(p.y), 'S' := Round6(s.value)]
  {
    GoToTokens(p, s);
    ParamWord('X', p.x);
    ParamWord('Y', p.y);
    if s.Some? { ParamWord('S', s.value); }
    AssignmentsMoveWords(Param('X', p.x), Param('Y', p.y),
      if s.Some? then Some(Param('S', s.value)) else None,
      Round6(p.x), Round6(p.y), if s.Some? then Some(Round6(s.value)) else None);
  }

  /** An encoded move is a move line and nothing else. */
  lemma GoToKind(p: Point, s: Option<real>)
    ensures IsMove(GoTo(p, s)) && !IsHome(GoTo(p, s)) && !IsPen(GoTo(p, s))
  {
    UnwordsMove(p, s);
    var ws := MoveWords(p, s);
    assert Unwords(ws) == ws[0] + " " + Unwords(ws[1..]);
    MoveLineKind(Unwords(ws[1..]));
  }

  lemma MoveLineKind(tail: string)
    ensures var line := "G0" + " " + tail; IsMove(line) && !IsHome(line) && !IsPen(line)
  {
    var line := "G0" + " " + tail;
    assert line[0] == 'G' && line[1] == '0' && line[2] == ' ';
  }

  // ------------------------------------------------------- short-move pass

  predicate HasXY(d: map<char, real>)
  {
    'X' in d && 'Y' in d
  }

  function Prepend(line: string, rest: Option<seq<string>>): Option<seq<string>>
  {
    if rest.None? then None else Some([line] + rest.value)
  }

  /**
   * The first pass of `postProcessGCode`: a move closer than minLen to the last
   * kept target (pos; None before the first move, the origin after a home) is
   * dropped, every other line is kept. A move without X or Y raises (None).
   */
  function DropShort(lines: seq<string>, minLen: real, pos: Option<Point>): Option<seq<string>>
  {
    if lines == [] then Some([])
    else
      var line, rest := lines[0], lines[1..];
      if IsMove(line) then
        var d := Decode(line);
        if !HasXY(d) then None
        else
          var next := Point(d['X'], d['Y']);
          if pos.Some? && NormBelow(pos.value, next, minLen) then DropShort(rest, minLen, pos)
          else Prepend(line, DropShort(rest, minLen, Some(next)))
      else if IsHome(line) then Prepend(line, DropShort(rest, minLen, Some(Origin)))
      else Prepend(line, DropShort(rest, minLen, pos))
  }

  /** The lines that are not moves. */
  function NonMoves(lines: seq<string>): seq<string>
  {
    if lines == [] then []
    else if IsMove(lines[0]) then NonMoves(lines[1..])
    else [lines[0]] + NonMoves(lines[1..])
  }

  predicate BadMove(line: string)
  {
    IsMove(line) && !HasXY(Decode(line))
  }

  /** The pass fails exactly when some move lacks X or Y. */
  lemma {:induction false} DropShortFails(lines: seq<string>, minLen: real, pos: Option<Point>)
    ensures DropShort(lines, minLen, pos).None? <==> exists k :: 0 <= k < |lines| && BadMove(lines[k])
  {
    if lines != [] {
      var line, rest := lines[0], lines[1..];
      BadMoveCons(lines);
      if IsMove(line) {
        if HasXY(Decode(line)) {
          var d := Decode(line);
          DropShortFails(rest, minLen, pos);
          DropShortFails(rest, minLen, Some(Point(d['X'], d['Y'])));
        }
      } else if IsHome(line) {
        DropShortFails(rest, minLen, Some(Origin));
      } else {
        DropShortFails(rest, minLen, pos);
      }
    }
  }

  lemma BadMoveCons(lines: seq<string>)
    requires lines != []
    ensures (exists k :: 0 <= k < |lines| && BadMove(lines[k]))
      <==> BadMove(lines[0]) || exists k :: 0 <= k < |lines[1..]| && BadMove(lines[1..][k])
  {
    if exists k :: 0 <= k < |lines| && BadMove(lines[k]) {
      var k :| 0 <= k < |lines| && BadMove(lines[k]);
      if k > 0 { assert BadMove(lines[1..][k - 1]); }
    }
    if exists k :: 0 <= k < |lines[1..]| && BadMove(lines[1..][k]) {
      var k :| 0 <= k < |lines[1..]| && BadMove(lines[1..][k]);
      assert BadMove(lines[k + 1]);
    }
  }

  /** Every line that is not a move is kept, in order, and nothing is added. */
  lemma {:induction false} DropShortKeepsNonMoves(lines: seq<string>, minLen: real, pos: Option<Point>)
    requires DropShort(lines, minLen, pos).Some?
    ensures NonMoves(DropShort(lines, minLen, pos).value) == NonMoves(lines)
    ensures |DropShort(lines, minLen, pos).value| <= |lines|
  {
    if lines != [] {
      var line, rest := lines[0], lines[1..];
      var out := DropShort(lines, minLen, pos).value;
      if IsMove(line) {
        var d := Decode(line);
        var next := Point(d['X'], d['Y']);
        if pos.Some? && NormBelow(pos.value, next, minLen) {
          DropShortKeepsNonMoves(rest, minLen, pos);
        } else {
          DropShortKeepsNonMoves(rest, minLen, Some(next));
          assert out[1..] == DropShort(rest, minLen, Some(next)).value;
        }
      } else if IsHome(line) {
        DropShortKeepsNonMoves(rest, minLen, Some(Origin));
        assert out[1..] == DropShort(rest, minLen, Some(Origin)).value;
      } else {
        DropShortKeepsNonMoves(rest, minLen, pos);
        assert out[1..] == DropShort(rest, minLen, pos).value;
      }
    }
  }

  /** Before any target is known the first move is kept. */
  lemma FirstMoveKept(line: string, rest: seq<string>, minLen: real)
    requires IsMove(line) && DropShort([line] + rest, minLen, None).Some?
    ensures DropShort([line] + rest, minLen, None).value[0] == line
  {
    assert ([line] + rest)[1..] == rest;
  }

  /** A non-positive minimum length drops nothing. */
  lemma {:induction false} DropShortNonPositive(lines: seq<string>, minLen: real, pos: Option<Point>)
    requires minLen <= 0.0
    requires DropShort(lines, minLen, pos).Some?
    ensures DropShort(lines, minLen, pos) == Some(lines)
  {
    if lines != [] {
      var line, rest := lines[0], lines[1..];
      assert lines == [line] + rest;
      if IsMove(line) {
        var d := Decode(line);
        DropShortNonPositive(rest, minLen, Some(Point(d['X'], d['Y'])));
      } else if IsHome(line) {
        DropShortNonPositive(rest, minLen, Some(Origin));
      } else {
        DropShortNonPositive(rest, minLen, pos);
      }
    }
  }

  /** The kept moves are far enough apart already: a second pass keeps everything. */
  lemma {:induction false} DropShortIdempotent(lines: seq<string>, minLen: real, pos: Option<Point>)
    requires DropShort(lines, minLen, pos).Some?
    ensures DropShort(DropShort(lines, minLen, pos).value, minLen, pos) == DropShort(lines, minLen, pos)
  {
    if lines != [] {
      var line, rest := lines[0], lines[1..];
      var out := DropShort(lines, minLen, pos).value;
      if IsMove(line) {
        var d := Decode(line);
        var next := Point(d['X'], d['Y']);
        if pos.Some? && NormBelow(pos.value, next, minLen) {
          DropShortIdempotent(rest, minLen, pos);
        } else {
          DropShortIdempotent(rest, minLen, Some(next));
          assert out[1..] == DropShort(rest, minLen, Some(next)).value;
        }
      } else if IsHome(line) {
        DropShortIdempotent(rest, minLen, Some(Origin));
        assert out[1..] == DropShort(rest, minLen, Some(Origin)).value;
      } else {
        DropShortIdempotent(rest, minLen, pos);
        assert out[1..] == DropShort(rest, minLen, pos).value;
      }
    }
  }

  // ------------------------------------------------------------- pen pass

  /**
   * The second pass of `postProcessGCode`. `curr` is the pen state last
   * emitted and `next` the one last requested (None: unknown). Pen lines are
   * consumed; before each move the requested state is emitted if it differs
   * from the emitted one; a first move with no request assumes the pen is up.
   */
  function PenPass(lines: seq<string>, curr: Option<bool>, next: Option<bool>): seq<string>
  {
    if lines == [] then []
    else
      var line, rest := lines[0], lines[1..];
      if IsMove(line) then
        if curr.None? && next.None? then [line] + PenPass(rest, Some(false), Some(false))
        else if curr != next then [PenLine(next == Some(true)), line] + PenPass(rest, next, next)
        else [line] + PenPass(rest, curr, next)
      else if IsPenDown(line) then PenPass(rest, curr, Some(true))
      else if IsPenUp(line) then PenPass(rest, curr, Some(false))
      else [line] + PenPass(rest, curr, next)
  }

  /** The lines that are not pen commands. */
  function NonPen(lines: seq<string>): seq<string>
  {
    if lines == [] then []
    else if IsPen(lines[0]) then NonPen(lines[1..])
    else [lines[0]] + NonPen(lines[1..])
  }

  /** The pen commands of a list, true for down. */
  function PenCommands(lines: seq<string>): seq<bool>
  {
    if lines == [] then []
    else if IsMove(lines[0]) then PenCommands(lines[1..])
    else if IsPenDown(lines[0]) then [true] + PenCommands(lines[1..])
    else if IsPenUp(lines[0]) then [false] + PenCommands(lines[1..])
    else PenCommands(lines[1..])
  }

  predicate Alternating(bs: seq<bool>)
  {
    forall i :: 0 < i < |bs| ==> bs[i] != bs[i - 1]
  }

  /** The pen state in force at each move, the pen starting in state `down`. */
  function PenAtMoves(lines: seq<string>, down: bool): seq<bool>
  {
    if lines == [] then []
    else if IsMove(lines[0]) then [down] + PenAtMoves(lines[1..], down)
    else if IsPenDown(lines[0]) then PenAtMoves(lines[1..], true)
    else if IsPenUp(lines[0]) then PenAtMoves(lines[1..], false)
    else PenAtMoves(lines[1..], down)
  }

  function OrUp(b: Option<bool>): bool
  {
    b == Some(true)
  }

  lemma PenLineKind(down: bool)
    ensures !IsMove(PenLine(down)) && !IsHome(PenLine(down))
    ensures IsPenDown(PenLine(down)) == down && IsPenUp(PenLine(down)) == !down
  {
    var line := PenLine(down);
    assert |line| == 2 && line[..2] == line && line[0] == 'M';
    assert line[1] == if down then '3' else '4';
  }

  /** The line kinds are mutually exclusive. */
  lemma KindsDisjoint(line: string)
    ensures IsMove(line) ==> !IsHome(line) && !IsPen(line)
    ensures IsHome(line) ==> !IsPen(line)
    ensures IsPenDown(line) ==> !IsPenUp(line)
  {
    if IsMove(line) { assert line[0] == 'G' && line[1] == '0'; }
    if IsHome(line) { assert line[0] == 'G' && line[1] == '2'; }
    if IsPenDown(line) { assert line[0] == 'M' && line[1] == '3'; }
    if IsPenUp(line) { assert line[0] == 'M' && line[1] == '4'; }
  }

  /** Lines other than pen commands pass through unchanged and in order. */
  lemma {:induction false} PenPassKeepsOthers(lines: seq<string>, curr: Option<bool>, next: Option<bool>)
    ensures NonPen(PenPass(lines, curr, next)) == NonPen(lines)
  {
    if lines != [] {
      var line, rest := lines[0], lines[1..];
      var out := PenPass(lines, curr, next);
      if IsMove(line) {
        if curr.None? && next.None? {
          PenPassKeepsOthers(rest, Some(false), Some(false));
          assert out[1..] == PenPass(rest, Some(false), Some(false));
        } else if curr != next {
          PenPassKeepsOthers(rest, next, next);
          PenLineKind(next == Some(true));
          assert out[1..] == [line] + PenPass(rest, next, next);
          assert out[1..][1..] == PenPass(rest, next, next);
        } else {
          PenPassKeepsOthers(rest, curr, next);
          assert out[1..] == PenPass(rest, curr, next);
        }
      } else if IsPenDown(line) {
        PenPassKeepsOthers(rest, curr, Some(true));
      } else if IsPenUp(line) {
        PenPassKeepsOthers(rest, curr, Some(false));
      } else {
        PenPassKeepsOthers(rest, curr, next);
        assert out[1..] == PenPass(rest, curr, next);
      }
    }
  }

  /**
   * The emitted pen commands alternate, and the first differs from the state
   * already emitted.
   */
  lemma {:induction false} PenPassAlternates(lines: seq<string>, curr: Option<bool>, next: Option<bool>)
    requires curr.Some? ==> next.Some?
    ensures Alternating(PenCommands(PenPass(lines, curr, next)))
    ensures curr.Some? && PenCommands(PenPass(lines, curr, next)) != [] ==>
      PenCommands(PenPass(lines, curr, next))[0] != curr.value
  {
    if lines != [] {
      var line, rest := lines[0], lines[1..];
      var out := PenPass(lines, curr, next);
      if IsMove(line) {
        if curr.None? && next.None? {
          PenPassAlternates(rest, Some(false), Some(false));
          assert out[1..] == PenPass(rest, Some(false), Some(false));
        } else if curr != next {
          PenPassAlternates(rest, next, next);
          PenLineKind(next.value);
          assert out[1..] == [line] + PenPass(rest, next, next);
          assert out[1..][1..] == PenPass(rest, next, next);
        } else {
          PenPassAlternates(rest, curr, next);
          assert out[1..] == PenPass(rest, curr, next);
        }
      } else if IsPenDown(line) {
        PenPassAlternates(rest, curr, Some(true));
      } else if IsPenUp(line) {
        PenPassAlternates(rest, curr, Some(false));
      } else {
        PenPassAlternates(rest, curr, next);
        assert out[1..] == PenPass(rest, curr, next);
      }
    }
  }

  /** Every move is made with the pen in the state the input asked for (up when it asked nothing). */
  lemma {:induction false} PenPassKeepsPenState(lines: seq<string>, curr: Option<bool>, next: Option<bool>)
    ensures PenAtMoves(PenPass(lines, curr, next), OrUp(curr)) == PenAtMoves(lines, OrUp(next))
  {
    if lines != [] {
      var line, rest := lines[0], lines[1..];
      var out := PenPass(lines, curr, next);
      if IsMove(line) {
        if curr.None? && next.None? {
          PenPassKeepsPenState(rest, Some(false), Some(false));
          assert out[1..] == PenPass(rest, Some(false), Some(false));
        } else if curr != next {
          PenPassKeepsPenState(rest, next, next);
          PenLineKind(next == Some(true));
          assert out[1..] == [line] + PenPass(rest, next, next);
          assert out[1..][1..] == PenPass(rest, next, next);
        } else {
          PenPassKeepsPenState(rest, curr, next);
          assert out[1..] == PenPass(rest, curr, next);
        }
      } else if IsPenDown(line) {
        PenPassKeepsPenState(rest, curr, Some(true));
      } else if IsPenUp(line) {
        PenPassKeepsPenState(rest, curr, Some(false));
      } else {
        PenPassKeepsPenState(rest, curr, next);
        assert out[1..] == PenPass(rest, curr, next);
      }
    }
  }

  predicate PensBeforeMoves(lines: seq<string>)
  {
    forall i :: 0 <= i < |lines| && IsPen(lines[i]) ==> i + 1 < |lines| && IsMove(lines[i + 1])
  }

  /** Every emitted pen command is immediately followed by a move. */
  lemma {:induction false} PenPassPenBeforeMove(lines: seq<string>, curr: Option<bool>, next: Option<bool>)
    ensures PensBeforeMoves(PenPass(lines, curr, next))
  {
    if lines != [] {
      var line, rest := lines[0], lines[1..];
      var out := PenPass(lines, curr, next);
      KindsDisjoint(line);
      if IsMove(line) {
        if curr.None? && next.None? {
          PenPassPenBeforeMove(rest, Some(false), Some(false));
          assert out[1..] == PenPass(rest, Some(false), Some(false));
        } else if curr != next {
          PenPassPenBeforeMove(rest, next, next);
          PenLineKind(next == Some(true));
          assert out[2..] == PenPass(rest, next, next);
          forall i | 0 <= i < |out| && IsPen(out[i]) ensures i + 1 < |out| && IsMove(out[i + 1]) {
            if i >= 2 { assert out[i] == out[2..][i - 2]; }
          }
        } else {
          PenPassPenBeforeMove(rest, curr, next);
          assert out[1..] == PenPass(rest, curr, next);
        }
      } else if IsPenDown(line) {
        PenPassPenBeforeMove(rest, curr, Some(true));
      } else if IsPenUp(line) {
        PenPassPenBeforeMove(rest, curr, Some(false));
      } else {
        PenPassPenBeforeMove(rest, curr, next);
        assert out[1..] == PenPass(rest, curr, next);
      }
    }
  }

  /**
   * Running the pen pass on its own output changes nothing. `again` is the
   * request state of the second run, which lags behind the first run's `next`
   * until the emitted pen line before the next move is read.
   */
  lemma {:induction false} PenPassIdempotent(lines: seq<string>, curr: Option<bool>, next: Option<bool>, again: Option<bool>)
    requires curr.None? ==> again.None?
    requires curr.Some? ==> again == curr && next.Some?
    ensures PenPass(PenPass(lines, curr, next), curr, again) == PenPass(lines, curr, next)
  {
    if lines != [] {
      var line, rest := lines[0], lines[1..];
      var out := PenPass(lines, curr, next);
      if IsMove(line) {
        if curr.None? && next.None? {
          PenPassIdempotent(rest, Some(false), Some(false), Some(false));
          assert out[1..] == PenPass(rest, Some(false), Some(false));
        } else if curr != next {
          var b := next == Some(true);
          assert Some(b) == next by {
            if next.value { assert next == Some(true); } else { assert next != Some(true); }
          }
          PenPassIdempotent(rest, next, next, next);
          SwitchAgain(line, PenPass(rest, next, next), curr, b, again);
        } else {
          PenPassIdempotent(rest, curr, next, again);
          assert out[1..] == PenPass(rest, curr, next);
        }
      } else if IsPenDown(line) {
        PenPassIdempotent(rest, curr, Some(true), again);
      } else if IsPenUp(line) {
        PenPassIdempotent(rest, curr, Some(false), again);
      } else {
        PenPassIdempotent(rest, curr, next, again);
        assert out[1..] == PenPass(rest, curr, next);
      }
    }
  }

  /** A pen line and a move, passed again from another pen state, are kept as they are. */
  lemma SwitchAgain(line: string, rest: seq<string>, curr: Option<bool>, b: bool, again: Option<bool>)
    requires IsMove(line) && curr != Some(b)
    ensures PenPass([PenLine(b), line] + rest, curr, again) == [PenLine(b), line] + PenPass(rest, Some(b), Some(b))
  {
    KindsDisjoint(line);
    PenLineKind(b);
    assert [PenLine(b), line] + rest == [PenLine(b)] + ([line] + rest);
    PenPassHead(PenLine(b), [line] + rest, curr, again);
    PenPassHead(line, rest, curr, Some(b));
  }

  /** The target a move line sets; meaningful when it has X and Y. */
  function Target(line: string): Point
  {
    var d := Decode(line);
    if HasXY(d) then Point(d['X'], d['Y']) else Origin
  }

  /** A move the short-move pass keeps, before a tail it keeps whole. */
  lemma KeptMove(line: string, tail: seq<string>, minLen: real, pos: Option<Point>)
    requires IsMove(line) && HasXY(Decode(line))
    requires !(pos.Some? && NormBelow(pos.value, Target(line), minLen))
    requires DropShort(tail, minLen, Some(Target(line))) == Some(tail)
    ensures DropShort([line] + tail, minLen, pos) == Some([line] + tail)
  {
    assert ([line] + tail)[1..] == tail;
  }

  /** A line that is neither move nor home, before a tail kept whole from the same state. */
  lemma KeptOther(line: string, tail: seq<string>, minLen: real, pos: Option<Point>)
    requires !IsMove(line) && !IsHome(line)
    requires DropShort(tail, minLen, pos) == Some(tail)
    ensures DropShort([line] + tail, minLen, pos) == Some([line] + tail)
  {
    assert ([line] + tail)[1..] == tail;
  }

  /** Pen commands neither move nor home, so the short-move pass keeps them and its state. */
  lemma {:induction false} DropShortIgnoresPen(lines: seq<string>, curr: Option<bool>, next: Option<bool>, minLen: real, pos: Option<Point>)
    requires DropShort(lines, minLen, pos) == Some(lines)
    ensures DropShort(PenPass(lines, curr, next), minLen, pos) == Some(PenPass(lines, curr, next))
  {
    if lines != [] {
      var line, rest := lines[0], lines[1..];
      assert lines == [line] + rest;
      KindsDisjoint(line);
      if IsMove(line) {
        var target := Target(line);
        assert !(pos.Some? && NormBelow(pos.value, target, minLen)) by {
          if pos.Some? && NormBelow(pos.value, target, minLen) {
            DropShortKeepsNonMoves(rest, minLen, pos);
          }
        }
        assert DropShort(rest, minLen, Some(target)) == Some(rest);
        if curr.None? && next.None? {
          DropShortIgnoresPen(rest, Some(false), Some(false), minLen, Some(target));
          KeptMove(line, PenPass(rest, Some(false), Some(false)), minLen, pos);
        } else if curr != next {
          var moved := PenPass(rest, next, next);
          PenLineKind(next == Some(true));
          DropShortIgnoresPen(rest, next, next, minLen, Some(target));
          KeptMove(line, moved, minLen, pos);
          KeptOther(PenLine(next == Some(true)), [line] + moved, minLen, pos);
          assert [PenLine(next == Some(true)), line] + moved == [PenLine(next == Some(true))] + ([line] + moved);
        } else {
          DropShortIgnoresPen(rest, curr, next, minLen, Some(target));
          KeptMove(line, PenPass(rest, curr, next), minLen, pos);
        }
      } else if IsHome(line) {
        DropShortIgnoresPen(rest, curr, next, minLen, Some(Origin));
        assert PenPass(lines, curr, next) == [line] + PenPass(rest, curr, next);
        assert ([line] + PenPass(rest, curr, next))[1..] == PenPass(rest, curr, next);
      } else {
        assert DropShort(rest, minLen, pos) == Some(rest);
        if IsPen(line) {
          DropShortIgnoresPen(rest, curr, if IsPenDown(line) then Some(true) else Some(false), minLen, pos);
        } else {
          DropShortIgnoresPen(rest, curr, next, minLen, pos);
          KeptOther(line, PenPass(rest, curr, next), minLen, pos);
        }
      }
    }
  }

  // ------------------------------------------------------- post-processor

  /** `postProcessGCode`: the short-move pass, then the pen pass; None when a move lacks X or Y. */
  function PostProcess(lines: seq<string>, minLen: real): Option<seq<string>>
  {
    match DropShort(lines, minLen, None)
    case None => None
    case Some(kept) => Some(PenPass(kept, None, None))
  }

  function Join(prefix: seq<string>, rest: Option<seq<string>>): Option<seq<string>>
  {
    if rest.None? then None else Some(prefix + rest.value)
  }

  lemma JoinPrepend(kept: seq<string>, line: string, rest: Option<seq<string>>)
    ensures Join(kept, Prepend(line, rest)) == Join(kept + [line], rest)
  {
    if rest.Some? {
      assert kept + ([line] + rest.value) == kept + [line] + rest.value;
    }
  }

  /** PenPass on a list with a first line, unfolded once. */
  lemma PenPassHead(line: string, rest: seq<string>, curr: Option<bool>, next: Option<bool>)
    ensures PenPass([line] + rest, curr, next) ==
      if IsMove(line) then
        if curr.None? && next.None? then [line] + PenPass(rest, Some(false), Some(false))
        else if curr != next then [PenLine(next == Some(true)), line] + PenPass(rest, next, next)
        else [line] + PenPass(rest, curr, next)
      else if IsPenDown(line) then PenPass(rest, curr, Some(true))
      else if IsPenUp(line) then PenPass(rest, curr, Some(false))
      else [line] + PenPass(rest, curr, next)
  {
    assert ([line] + rest)[1..] == rest;
  }

  /** The first loop of `postProcessGCode`. */
  method DropShortSegments(gcode: seq<string>, minSegmentLen: real) returns (r: Option<seq<string>>)
    ensures r == DropShort(gcode, minSegmentLen, None)
  {
    var kept: seq<string> := [];
    var pos: Option<Point> := None;
    var i := 0;
    assert gcode[0..] == gcode;
    assert DropShort(gcode, minSegmentLen, None).Some? ==>
      [] + DropShort(gcode, minSegmentLen, None).value == DropShort(gcode, minSegmentLen, None).value;
    while i < |gcode|
      invariant 0 <= i <= |gcode|
      invariant DropShort(gcode, minSegmentLen, None) == Join(kept, DropShort(gcode[i..], minSegmentLen, pos))
    {
      var code := gcode[i];
      assert gcode[i..][0] == code && gcode[i..][1..] == gcode[i + 1..];
      if IsMove(code) {
        var d := DecodeGCode(code);
        if 'X' !in d || 'Y' !in d {
          return None;
        }
        var newPos := Point(d['X'], d['Y']);
        if pos.Some? && NormBelow(pos.value, newPos, minSegmentLen) {
          i := i + 1;
          continue;
        }
        pos := Some(newPos);
      } else if IsHome(code) {
        pos := Some(Origin);
      }
      JoinPrepend(kept, code, DropShort(gcode[i + 1..], minSegmentLen, pos));
      kept := kept + [code];
      i := i + 1;
    }
    assert gcode[i..] == [] && kept + [] == kept;
    r := Some(kept);
  }

  /** The second loop of `postProcessGCode`. */
  method ReinsertPenCommands(kept: seq<string>) returns (out: seq<string>)
    ensures out == PenPass(kept, None, None)
  {
    out := [];
    var penDownCurr: Option<bool> := None;
    var penDownNext: Option<bool> := None;
    var i := 0;
    assert kept[0..] == kept && [] + PenPass(kept, None, None) == PenPass(kept, None, None);
    while i < |kept|
      invariant 0 <= i <= |kept|
      invariant PenPass(kept, None, None) == out + PenPass(kept[i..], penDownCurr, penDownNext)
    {
      ghost var rest := kept[i + 1..];
      assert kept[i..] == [kept[i]] + rest;
      ghost var before := out;
      var emitted;
      emitted, penDownCurr, penDownNext := PenLineStep(kept[i], penDownCurr, penDownNext, rest);
      out := out + emitted;
      assert before + (emitted + PenPass(rest, penDownCurr, penDownNext))
        == out + PenPass(rest, penDownCurr, penDownNext);
      i := i + 1;
    }
    assert kept[i..] == [] && out + [] == out;
  }

  /**
   * One line of the second loop of `postProcessGCode`: the lines it emits and
   * the emitted and requested pen states after it.
   */
  method PenLineStep(code: string, curr: Option<bool>, next: Option<bool>, ghost rest: seq<string>)
    returns (emitted: seq<string>, curr': Option<bool>, next': Option<bool>)
    ensures PenPass([code] + rest, curr, next) == emitted + PenPass(rest, curr', next')
  {
    curr', next' := curr, next;
    if IsMove(code) {
      if curr.None? {
        if next.Some? {
          emitted := [PenLine(next.value), code];
          curr' := next;
        } else {
          emitted := [code];
          curr', next' := Some(false), Some(false);
        }
      } else if curr != next {
        emitted := [PenLine(next == Some(true)), code];
        curr' := next;
      } else {
        emitted := [code];
      }
    } else if IsPenDown(code) {
      emitted := [];
      next' := Some(true);
    } else if IsPenUp(code) {
      emitted := [];
      next' := Some(false);
    } else {
      emitted := [code];
    }
    PenPassHead(code, rest, curr, next);
  }

  method PostProcessGCode(gcode: seq<string>, minSegmentLen: real) returns (r: Option<seq<string>>)
    ensures r == PostProcess(gcode, minSegmentLen)
  {
    var kept := DropShortSegments(gcode, minSegmentLen);
    if kept.None? {
      return None;
    }
    var out := ReinsertPenCommands(kept.value);
    r := Some(out);
  }

  /** Post-processing its own output returns that output. */
  lemma PostProcessIdempotent(lines: seq<string>, minLen: real)
    requires PostProcess(lines, minLen).Some?
    ensures PostProcess(PostProcess(lines, minLen).value, minLen) == PostProcess(lines, minLen)
  {
    var kept := DropShort(lines, minLen, None).value;
    DropShortIdempotent(lines, minLen, None);
    DropShortIgnoresPen(kept, None, None, minLen, None);
    PenPassIdempotent(kept, None, None, None);
  }

  /**
   * A pen-up after the last move is dropped: down, down, a move, up becomes a
   * single pen-down before the move.
   */
  lemma TrailingPenUpDropped(move: string, minLen: real)
    requires IsMove(move) && HasXY(Decode(move))
    ensures PostProcess([PenDownLine, PenDownLine, move, PenUpLine], minLen) == Some([PenDownLine, move])
  {
    PenLineKind(true);
    PenLineKind(false);
    KindsDisjoint(move);
    var target := Target(move);
    assert [PenUpLine] + [] == [PenUpLine] && [move] + [PenUpLine] == [move, PenUpLine];
    assert [PenDownLine] + [move, PenUpLine] == [PenDownLine, move, PenUpLine];
    assert [PenDownLine] + [PenDownLine, move, PenUpLine] == [PenDownLine, PenDownLine, move, PenUpLine];
    assert [PenDownLine, move] + [] == [PenDownLine, move];
    KeptOther(PenUpLine, [], minLen, Some(target));
    KeptMove(move, [PenUpLine], minLen, None);
    KeptOther(PenDownLine, [move, PenUpLine], minLen, None);
    KeptOther(PenDownLine, [PenDownLine, move, PenUpLine], minLen, None);
    PenPassHead(PenUpLine, [], Some(true), Some(true));
    PenPassHead(move, [PenUpLine], None, Some(true));
    PenPassHead(PenDownLine, [move, PenUpLine], None, None);
    PenPassHead(PenDownLine, [PenDownLine, move, PenUpLine], None, None);
  }
}
