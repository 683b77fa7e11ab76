/**
  The URScript program builder of ur_script.py: an append-only program text and the depth of
  the blocks (`def`, `while`) still open, which sets the indentation of every emitted line.
 */
module UrScript {
  import opened Text
  import opened Results
  import opened NumberFormat

  /** The two exceptions the builder raises. */
  datatype ScriptError =
    | NoStructureToEnd          // `end` with no open block
    | WrongJointCount(count: nat)  // `movej`/`servoj` given other than six angles

  /** Number of joint angles a `movej` or `servoj` statement takes. */
  const JointCount: nat := 6

  /** `servoj` ignores acceleration and velocity; the builder prints 0 for both. */
  const ServoAccel: real := 0.0
  const ServoVelocity: real := 0.0

  /** Default arguments of `servoj` and `movej`. */
  const ServoTime: real := 0.008
  const ServoLookahead: real := 0.1
  const ServoGain: real := 300.0
  const MoveAccel: real := 1.4
  const MoveVelocity: real := 1.05
  const MoveTime: real := 0.0
  const MoveBlend: real := 0.0

  /** `'{}'.format(b)` for a boolean: Python's `True` / `False`. */
  function BoolText(b: bool): string {
    if b then "True" else "False"
  }

  /** `'def {}({}):'.format(name, ', '.join(args))`: a `def` header, which opens a block. */
  function HeaderText(name: string, args: seq<string>): (r: string)
    ensures |r| > 4 && r[..4] == "def "
    ensures IsOpener(r) && !IsEnd(r)
  {
    "def " + name + "(" + Join(args, ", ") + "):"
  }

  /** `'while {}:'.format(condition)`: a `while` header, which opens a block. */
  function WhileText(condition: string): (r: string)
    ensures |r| > 6 && r[..6] == "while "
    ensures IsOpener(r) && !IsEnd(r)
  {
    "while " + condition + ":"
  }

  /** `'set_tool_digital_out({}, {})'.format(index, state)`: a plain statement, which neither opens nor closes a block. */
  function DigitalOutText(index: int, state: bool): (r: string)
    ensures |r| > 21 && r[..21] == "set_tool_digital_out("
    ensures !IsOpener(r) && !IsEnd(r)
  {
    "set_tool_digital_out(" + IntToString(index) + ", " + BoolText(state) + ")"
  }

  /** A call statement: the name, then the arguments in parentheses, separated by `, `. */
  function CallText(name: string, args: seq<string>): string {
    name + "(" + Join(args, ", ") + ")"
  }

  /**
    The `servoj` statement: the angle array, the two placeholders, then `t`, `lookahead_time`,
    `gain`; a plain statement, which neither opens nor closes a block.
   */
  function ServojText(angles: seq<real>, t: real, lookaheadTime: real, gain: real): (r: string)
    ensures |r| > 7 && r[..7] == "servoj("
    ensures !IsOpener(r) && !IsEnd(r)
  {
    CallText("servoj", [ListToArray(angles)] + Images([ServoAccel, ServoVelocity, t, lookaheadTime, gain]))
  }

  /** The `movej` statement: the angle array, then `a`, `v`, `t`, `r`; a plain statement, which neither opens nor closes a block. */
  function MovejText(angles: seq<real>, a: real, v: real, t: real, r: real): (m: string)
    ensures |m| > 6 && m[..6] == "movej("
    ensures !IsOpener(m) && !IsEnd(m)
  {
    CallText("movej", [ListToArray(angles)] + Images([a, v, t, r]))
  }

  /** A statement that opens a block ends with `:`. */
  predicate IsOpener(stmt: string) {
    |stmt| > 0 && stmt[|stmt| - 1] == ':'
  }

  predicate IsEnd(stmt: string) {
    stmt == "end"
  }

  lemma LettersVisible()
    ensures !IsSpace('d') && !IsSpace('w') && !IsSpace('s') && !IsSpace('m') && !IsSpace('e')
    ensures !IsSpace(':') && !IsSpace(')')
  {
    PrintableVisible('d');
    PrintableVisible('w');
    PrintableVisible('s');
    PrintableVisible('m');
    PrintableVisible('e');
    PrintableVisible(':');
    PrintableVisible(')');
  }

  /** Text that starts and ends with a visible character is left alone by `strip`, and is not `end` unless it starts with `e`. */
  lemma Bracketed(s: string, first: char, last: char)
    requires |s| > 0 && s[0] == first && s[|s| - 1] == last && !IsSpace(first) && !IsSpace(last)
    ensures Strip(s) == s
    ensures first != 'e' ==> !IsEnd(s)
  {
    StripUnchanged(s);
  }

  lemma HeaderTextStripped(name: string, args: seq<string>)
    ensures Strip(HeaderText(name, args)) == HeaderText(name, args)
  {
    LettersVisible();
    var s := HeaderText(name, args);
    assert s[0] == 'd' && s[|s| - 1] == ':';
    Bracketed(s, 'd', ':');
  }

  lemma WhileTextStripped(condition: string)
    ensures Strip(WhileText(condition)) == WhileText(condition)
  {
    LettersVisible();
    var s := WhileText(condition);
    assert s[0] == 'w' && s[|s| - 1] == ':';
    Bracketed(s, 'w', ':');
  }

  lemma DigitalOutTextStripped(index: int, state: bool)
    ensures Strip(DigitalOutText(index, state)) == DigitalOutText(index, state)
  {
    LettersVisible();
    var s := DigitalOutText(index, state);
    assert s[0] == 's' && s[|s| - 1] == ')';
    Bracketed(s, 's', ')');
  }

  lemma ServojTextStripped(angles: seq<real>, t: real, lookaheadTime: real, gain: real)
    ensures Strip(ServojText(angles, t, lookaheadTime, gain)) == ServojText(angles, t, lookaheadTime, gain)
  {
    LettersVisible();
    var s := ServojText(angles, t, lookaheadTime, gain);
    assert s[0] == 's' && s[|s| - 1] == ')';
    Bracketed(s, 's', ')');
  }

  lemma MovejTextStripped(angles: seq<real>, a: real, v: real, t: real, r: real)
    ensures Strip(MovejText(angles, a, v, t, r)) == MovejText(angles, a, v, t, r)
  {
    LettersVisible();
    var s := MovejText(angles, a, v, t, r);
    assert s[0] == 'm' && s[|s| - 1] == ')';
    Bracketed(s, 'm', ')');
  }

  lemma EndTextFacts()
    ensures Strip("end") == "end"
  {
    LettersVisible();
    StripUnchanged("end");
  }

  /** One emitted line: the number of tabs before it and its stripped statement. */
  datatype Line = Line(depth: nat, stmt: string)

  function LineText(l: Line): string {
    Repeat('\t', l.depth) + l.stmt + "\n"
  }

  /** The program text: every line with its tabs and a terminating newline, in emission order. */
  function Render(program: seq<Line>): string {
    if program == [] then "" else Render(program[..|program| - 1]) + LineText(program[|program| - 1])
  }

  lemma RenderAppend(program: seq<Line>, l: Line)
    ensures Render(program + [l]) == Render(program) + LineText(l)
  {
    assert (program + [l])[..|program|] == program;
  }

  /**
    The depth left open after `program` when every line sits at the depth of the block it is in,
    a block opens after a header line and an `end` line closes the innermost block at that block's
    own depth; `None` when some line breaks this.
   */
  function NestDepth(program: seq<Line>): Option<nat> {
    if program == [] then Some(0)
    else
      match NestDepth(program[..|program| - 1])
      case None => None
      case Some(d) =>
        var l := program[|program| - 1];
        if IsEnd(l.stmt) then (if d > 0 && l.depth == d - 1 then Some(d - 1) else None)
        else if l.depth != d then None
        else if IsOpener(l.stmt) then Some(d + 1)
        else Some(d)
  }

  lemma NestDepthAppend(program: seq<Line>, l: Line)
    ensures NestDepth(program + [l]) ==
      match NestDepth(program)
      case None => None
      case Some(d) =>
        if IsEnd(l.stmt) then (if d > 0 && l.depth == d - 1 then Some(d - 1) else None)
        else if l.depth != d then None
        else if IsOpener(l.stmt) then Some(d + 1)
        else Some(d)
  {
    assert (program + [l])[..|program|] == program;
  }

  /** The generator `''.join('\t' for i in range(0, n))`, one tab per step. */
  method MakeTabs(n: nat) returns (tabs: string)
    ensures tabs == Repeat('\t', n)
  {
    tabs := "";
    var i := 0;
    while i < n
      invariant 0 <= i <= n
      invariant tabs == Repeat('\t', i)
    {
      tabs := tabs + "\t";
      i := i + 1;
    }
  }

  class URScript {
    var text: string
    var indentLevel: nat

    /** The lines emitted so far. */
    ghost var Program: seq<Line>
    /** Indices into `Program` of the headers of the blocks still open, outermost first. */
    ghost var Open: seq<nat>

    /** The text is the rendering of the lines, and `indentLevel` counts the open blocks. */
    ghost predicate Valid()
      reads this
    {
      && text == Render(Program)
      && |Open| == indentLevel
      && forall k :: 0 <= k < |Open| ==>
           Open[k] < |Program| && Program[Open[k]].depth == k && IsOpener(Program[Open[k]].stmt)
    }

    /** Every line sits at the depth of its block, and exactly `indentLevel` blocks are open. */
    ghost predicate Nested()
      reads this
    {
      NestDepth(Program) == Some(indentLevel)
    }

    /** A fresh builder: no text, depth 0. */
    constructor ()
      ensures Valid() && Nested()
      ensures text == "" && indentLevel == 0
      ensures Program == [] && Open == []
    {
      text := "";
      indentLevel := 0;
      Program := [];
      Open := [];
    }

    /** `add_line`: one line of `indentLevel` tabs, the stripped text and a newline. */
    method AddLine(s: string)
      requires Valid()
      modifies this
      ensures Valid()
      ensures text == old(text) + Repeat('\t', old(indentLevel)) + Strip(s) + "\n"
      ensures Program == old(Program) + [Line(old(indentLevel), Strip(s))]
      ensures indentLevel == old(indentLevel) && Open == old(Open)
      ensures old(Nested()) && !IsOpener(Strip(s)) && !IsEnd(Strip(s)) ==> Nested()
    {
      var tabs := MakeTabs(indentLevel);
      var line := Line(indentLevel, Strip(s));
      RenderAppend(Program, line);
      NestDepthAppend(Program, line);
      text := text + tabs + Strip(s) + "\n";
      Program := Program + [line];
    }

    /** `function`: a `def` header at the current depth, then one block deeper. */
    method Function(name: string, args: seq<string> := [])
      requires Valid()
      modifies this
      ensures Valid()
      ensures Program == old(Program) + [Line(old(indentLevel), HeaderText(name, args))]
      ensures indentLevel == old(indentLevel) + 1 && Open == old(Open) + [|old(Program)|]
      ensures old(Nested()) ==> Nested()
    {
      HeaderTextStripped(name, args);
      AddLine(HeaderText(name, args));
      NestDepthAppend(old(Program), Line(old(indentLevel), HeaderText(name, args)));
      indentLevel := indentLevel + 1;
      Open := Open + [|Program| - 1];
    }

    /** `while_loop`: a `while` header at the current depth, then one block deeper. */
    method WhileLoop(condition: string)
      requires Valid()
      modifies this
      ensures Valid()
      ensures Program == old(Program) + [Line(old(indentLevel), WhileText(condition))]
      ensures indentLevel == old(indentLevel) + 1 && Open == old(Open) + [|old(Program)|]
      ensures old(Nested()) ==> Nested()
    {
      WhileTextStripped(condition);
      AddLine(WhileText(condition));
      NestDepthAppend(old(Program), Line(old(indentLevel), WhileText(condition)));
      indentLevel := indentLevel + 1;
      Open := Open + [|Program| - 1];
    }

    /**
      `end`: refused when no block is open, leaving everything as it was; otherwise one block
      shallower, and the `end` line is written at the depth of the header it closes.
     */
    method End() returns (res: Outcome<ScriptError>)
      requires Valid()
      modifies this
      ensures Valid()
      ensures old(indentLevel) == 0 ==>
        && res == Fail(NoStructureToEnd)
        && text == old(text) && indentLevel == 0 && Program == old(Program) && Open == old(Open)
      ensures old(indentLevel) > 0 ==>
        && res == Pass
        && indentLevel == old(indentLevel) - 1
        && Program == old(Program) + [Line(indentLevel, "end")]
        && Open == old(Open)[..indentLevel]
        && Program[|Program| - 1].depth == old(Program)[old(Open)[indentLevel]].depth
      ensures old(Nested()) ==> Nested()
    {
      if indentLevel == 0 {
        return Fail(NoStructureToEnd);
      }
      ghost var header := Open[indentLevel - 1];
      indentLevel := indentLevel - 1;
      Open := Open[..indentLevel];
      EndTextFacts();
      AddLine("end");
      NestDepthAppend(old(Program), Line(indentLevel, "end"));
      assert Program[header] == old(Program)[header];
      res := Pass;
    }

    /** `set_tool_digital_out`: one statement line; the depth does not change. */
    method SetToolDigitalOut(index: int, state: bool)
      requires Valid()
      modifies this
      ensures Valid()
      ensures Program == old(Program) + [Line(indentLevel, DigitalOutText(index, state))]
      ensures indentLevel == old(indentLevel) && Open == old(Open)
      ensures old(Nested()) ==> Nested()
    {
      DigitalOutTextStripped(index, state);
      AddLine(DigitalOutText(index, state));
      NestDepthAppend(old(Program), Line(old(indentLevel), DigitalOutText(index, state)));
    }

    /**
      `servoj`: refused, with nothing written, unless there are exactly six angles; otherwise one
      statement line with the acceleration and velocity placeholders, at the current depth.
     */
    method Servoj(angles: seq<real>, t: real := ServoTime, lookaheadTime: real := ServoLookahead,
                  gain: real := ServoGain)
      returns (res: Outcome<ScriptError>)
      requires Valid()
      modifies this
      ensures Valid()
      ensures |angles| != JointCount ==>
        res == Fail(WrongJointCount(|angles|)) && text == old(text) && Program == old(Program)
      ensures |angles| == JointCount ==>
        res == Pass && Program == old(Program) + [Line(indentLevel, ServojText(angles, t, lookaheadTime, gain))]
      ensures indentLevel == old(indentLevel) && Open == old(Open)
      ensures old(Nested()) ==> Nested()
    {
      if |angles| != JointCount {
        return Fail(WrongJointCount(|angles|));
      }
      ServojTextStripped(angles, t, lookaheadTime, gain);
      AddLine(ServojText(angles, t, lookaheadTime, gain));
      NestDepthAppend(old(Program), Line(old(indentLevel), ServojText(angles, t, lookaheadTime, gain)));
      res := Pass;
    }

    /**
      `movej`: refused, with nothing written, unless there are exactly six angles; otherwise one
      statement line at the current depth.
     */
    method Movej(angles: seq<real>, a: real := MoveAccel, v: real := MoveVelocity, t: real := MoveTime,
                 r: real := MoveBlend)
      returns (res: Outcome<ScriptError>)
      requires Valid()
      modifies this
      ensures Valid()
      ensures |angles| != JointCount ==>
        res == Fail(WrongJointCount(|angles|)) && text == old(text) && Program == old(Program)
      ensures |angles| == JointCount ==>
        res == Pass && Program == old(Program) + [Line(indentLevel, MovejText(angles, a, v, t, r))]
      ensures indentLevel == old(indentLevel) && Open == old(Open)
      ensures old(Nested()) ==> Nested()
    {
      if |angles| != JointCount {
        return Fail(WrongJointCount(|angles|));
      }
      MovejTextStripped(angles, a, v, t, r);
      AddLine(MovejText(angles, a, v, t, r));
      NestDepthAppend(old(Program), Line(old(indentLevel), MovejText(angles, a, v, t, r)));
      res := Pass;
    }
  }
}
