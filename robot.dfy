/**
  `Robot.send_script` (__init__.py): before the script goes to the controller it is "cleaned":
  split with `split()`, each piece right-stripped, the pieces joined with newlines and one newline
  appended. The socket, its connection and the UTF-8 encoding are not part of this model.
 */
module Robot {
  import opened Text
  import opened NumberFormat
  import opened UrScript
  import opened Export

  /** `map(lambda line: line.rstrip(), pieces)` */
  function RStripEach(pieces: seq<string>): seq<string> {
    seq(|pieces|, k requires 0 <= k < |pieces| => RStrip(pieces[k]))
  }

  /**
    `'\n'.join(map(lambda line: line.rstrip(), script_text.split())) + '\n'`: the text `send_script`
    sends, which ends in a newline and which `split()` reads back as the words of the script.
   */
  function CleanScript(scriptText: string): (r: string)
    ensures |r| > 0 && r[|r| - 1] == '\n'
    ensures SplitWhitespace(r) == SplitWhitespace(scriptText)
  {
    var ws := SplitWhitespace(scriptText);
    JoinedWordsSplit(ws);
    Join(RStripEach(ws), "\n") + "\n"
  }

  /** Words right-stripped, joined and terminated by newlines split back into the same words. */
  lemma JoinedWordsSplit(ws: seq<string>)
    requires forall k :: 0 <= k < |ws| ==> IsWord(ws[k])
    ensures SplitWhitespace(Join(RStripEach(ws), "\n") + "\n") == ws
  {
    RStripEachWords(ws);
    assert IsSpace('\n');
    if ws == [] {
      assert Join(RStripEach(ws), "\n") + "\n" == "\n";
      assert LStrip("\n") == LStrip("");
    } else {
      JoinTerminated(ws, '\n');
      SplitTerminated(ws, '\n');
    }
  }

  lemma RStripEachWords(ws: seq<string>)
    requires forall k :: 0 <= k < |ws| ==> IsWord(ws[k])
    ensures RStripEach(ws) == ws
  {
    forall k | 0 <= k < |ws| ensures RStripEach(ws)[k] == ws[k] {
      RStripWord(ws[k]);
    }
  }

  /**
    `split()` already cuts at every run of whitespace, so `rstrip` changes nothing: the sent text
    is the words of the script, joined by newlines, plus a final newline.
   */
  lemma CleanScriptWords(scriptText: string)
    ensures CleanScript(scriptText) == Join(SplitWhitespace(scriptText), "\n") + "\n"
  {
    RStripEachWords(SplitWhitespace(scriptText));
  }

  /**
    The lines of the sent text are the words of the script, in order; a script with no words is
    sent as a single newline.
   */
  lemma CleanScriptLines(scriptText: string)
    ensures var c := CleanScript(scriptText);
      && |c| > 0 && c[|c| - 1] == '\n'
      && (SplitWhitespace(scriptText) == [] ==> c == "\n")
      && (SplitWhitespace(scriptText) != [] ==> SplitOn(c[..|c| - 1], '\n') == SplitWhitespace(scriptText))
  {
    var ws := SplitWhitespace(scriptText);
    var c := CleanScript(scriptText);
    CleanScriptWords(scriptText);
    if ws != [] {
      assert IsSpace('\n');
      assert c[..|c| - 1] == Join(ws, "\n");
      SplitOnJoin(ws, '\n');
    }
  }

  /** Cleaning a cleaned script changes nothing. */
  lemma CleanScriptIdempotent(scriptText: string)
    ensures CleanScript(CleanScript(scriptText)) == CleanScript(scriptText)
  {
    CleanScriptWords(scriptText);
    CleanScriptWords(CleanScript(scriptText));
  }

  /** Words each followed by a newline show exactly the words' characters. */
  lemma {:induction false} VisibleTerminated(ws: seq<string>)
    requires forall k :: 0 <= k < |ws| ==> IsWord(ws[k])
    ensures Visible(Terminated(ws, '\n')) == Concat(ws)
    decreases |ws|
  {
    if ws != [] {
      var rest := Terminated(ws[1..], '\n');
      assert Terminated(ws, '\n') == (ws[0] + "\n") + rest;
      VisibleTerminated(ws[1..]);
      VisibleAppend(ws[0] + "\n", rest);
      VisibleAppend(ws[0], "\n");
      VisibleOfWord(ws[0]);
      NewlineInvisible();
      assert Visible(ws[0] + "\n") == ws[0];
    }
  }

  /** Cleaning only moves whitespace around: the non-whitespace characters are sent in order. */
  lemma CleanScriptKeepsVisible(scriptText: string)
    ensures Visible(CleanScript(scriptText)) == Visible(scriptText)
  {
    var ws := SplitWhitespace(scriptText);
    CleanScriptWords(scriptText);
    SplitWhitespaceKeepsVisible(scriptText);
    assert IsSpace('\n');
    if ws == [] {
      VisibleOfSpaces("\n");
    } else {
      JoinTerminated(ws, '\n');
      VisibleTerminated(ws);
    }
  }

  /**
    A script that starts with `def ` reaches the robot with a newline where that space was:
    `split()` cuts statements at their spaces, not only at the ends of lines.
   */
  lemma CleanScriptSplitsDef(scriptText: string)
    requires |scriptText| >= 4 && scriptText[..4] == "def "
    ensures |CleanScript(scriptText)| > 3 && CleanScript(scriptText)[3] == '\n'
    ensures CleanScript(scriptText) != scriptText
  {
    var s := scriptText;
    assert s[0] == 'd' && s[1] == 'e' && s[2] == 'f' && s[3] == ' ' by {
      assert s[..4][0] == s[0] && s[..4][1] == s[1] && s[..4][2] == s[2] && s[..4][3] == s[3];
    }
    PrintableVisible('d');
    PrintableVisible('e');
    PrintableVisible('f');
    assert LStrip(s) == s;
    assert WordLength(s) == 3;
    var ws := SplitWhitespace(s);
    assert ws[0] == "def" by {
      assert ws == [s[..3]] + SplitWhitespace(s[3..]);
      assert s[..3] == s[..4][..3];
    }
    CleanScriptWords(s);
    var c := CleanScript(s);
    if |ws| == 1 {
      assert c == "def" + "\n";
    } else {
      assert c == "def" + "\n" + Join(ws[1..], "\n") + "\n";
    }
  }

  /** `Render` read from the front: the first line's text, then the rest. */
  lemma {:induction false} RenderFirst(program: seq<Line>)
    requires |program| > 0
    ensures Render(program) == LineText(program[0]) + Render(program[1..])
    decreases |program|
  {
    if |program| > 1 {
      var init := program[..|program| - 1];
      RenderFirst(init);
      assert program[1..][..|program| - 2] == init[1..];
    } else {
      assert program[..0] == [];
    }
  }

  /** A rendered layout starts with its header, which sits at depth 0. */
  lemma RenderStartsWithHeader(header: string, first: string, loopHeader: string, body: seq<string>, loop: bool)
    requires |header| >= 4
    ensures |Render(Layout(header, first, loopHeader, body, loop))| >= 4
    ensures Render(Layout(header, first, loopHeader, body, loop))[..4] == header[..4]
  {
    var p := Layout(header, first, loopHeader, body, loop);
    assert p[0] == Line(0, header);
    RenderFirst(p);
    assert LineText(p[0]) == header + "\n";
  }

  /** The exported script is not what the robot receives: its first line arrives broken in two. */
  lemma ExportedScriptMangled(frames: seq<seq<real>>, t: real, loop: bool)
    requires |frames| > 0
    ensures CleanScript(Render(AssemblyProgram(frames, t, loop))) != Render(AssemblyProgram(frames, t, loop))
  {
    var header := HeaderText(FunctionName, []);
    assert header == "def blender_move():";
    RenderStartsWithHeader(header, MovejText(frames[0], MoveAccel, MoveVelocity, MoveTime, MoveBlend),
                           WhileText(LoopCondition), ServoTexts(frames, t), loop);
    CleanScriptSplitsDef(Render(AssemblyProgram(frames, t, loop)));
  }

  /**
    `str.splitlines()` for text whose only line break is `'\n'`: the pieces between newlines,
    without the empty piece after a final newline, and no lines at all for empty text.
   */
  function Lines(s: string): (r: seq<string>)
    ensures forall k :: 0 <= k < |r| ==> '\n' !in r[k]
  {
    if s == [] then []
    else
      var pieces := SplitOn(s, '\n');
      if s[|s| - 1] == '\n' then pieces[..|pieces| - 1] else pieces
  }

  /**
    The cleaning evidently intended: every line right-stripped, lines kept as lines; the sent text
    reads back, line by line, as the right-stripped lines of the script.
   */
  function CleanScriptByLine(scriptText: string): (r: string)
    ensures Lines(scriptText) != [] ==> Lines(r) == RStripEach(Lines(scriptText))
  {
    var lines := Lines(scriptText);
    LinesOfRStripped(lines);
    Join(RStripEach(lines), "\n") + "\n"
  }

  /** Right-stripping a newline-free line leaves it newline-free. */
  lemma RStripEachOneLine(xs: seq<string>)
    requires forall k :: 0 <= k < |xs| ==> '\n' !in xs[k]
    ensures forall k :: 0 <= k < |xs| ==> '\n' !in RStripEach(xs)[k]
  {
    forall k | 0 <= k < |xs| ensures '\n' !in RStripEach(xs)[k] {
      RStripSpec(xs[k]);
    }
  }

  lemma LinesOfRStripped(xs: seq<string>)
    requires forall k :: 0 <= k < |xs| ==> '\n' !in xs[k]
    ensures xs != [] ==> Lines(Join(RStripEach(xs), "\n") + "\n") == RStripEach(xs)
  {
    if xs != [] {
      RStripEachOneLine(xs);
      LinesOfJoin(RStripEach(xs));
    }
  }

  /** A statement that fits on one line and does not end in whitespace. */
  predicate OneLine(stmt: string) {
    |stmt| > 0 && '\n' !in stmt && !IsSpace(stmt[|stmt| - 1])
  }

  /** The line `add_line` writes for `l`, without its newline. */
  function Indented(l: Line): string {
    Repeat('\t', l.depth) + l.stmt
  }

  function IndentedAll(program: seq<Line>): seq<string> {
    seq(|program|, k requires 0 <= k < |program| => Indented(program[k]))
  }

  /** A rendered program is its indented lines joined by newlines, plus a final newline. */
  lemma {:induction false} RenderJoin(program: seq<Line>)
    requires |program| > 0
    ensures Render(program) == Join(IndentedAll(program), "\n") + "\n"
    decreases |program|
  {
    var last := program[|program| - 1];
    if |program| == 1 {
      assert program[..0] == [];
      assert IndentedAll(program) == [Indented(last)];
    } else {
      var init := program[..|program| - 1];
      RenderJoin(init);
      assert IndentedAll(program) == IndentedAll(init) + [Indented(last)];
      JoinSnoc(IndentedAll(init), Indented(last), "\n");
    }
  }

  /** Newline-free lines joined and terminated by newlines split back into the same lines. */
  lemma LinesOfJoin(xs: seq<string>)
    requires |xs| > 0 && forall k :: 0 <= k < |xs| ==> '\n' !in xs[k]
    ensures Lines(Join(xs, "\n") + "\n") == xs
  {
    var s := Join(xs, "\n") + "\n";
    JoinSnoc(xs, "", "\n");
    assert Join(xs + [""], "\n") == s;
    SplitOnJoin(xs + [""], '\n');
    assert (xs + [""])[..|xs|] == xs;
  }

  /** The indented line of a one-line statement holds no newline and ends in a visible character. */
  lemma IndentedOneLine(l: Line)
    requires OneLine(l.stmt)
    ensures '\n' !in Indented(l) && RStrip(Indented(l)) == Indented(l)
  {
    var tabs := Repeat('\t', l.depth);
    var x := Indented(l);
    assert '\n' !in tabs;
    assert x[|x| - 1] == l.stmt[|l.stmt| - 1];
  }

  lemma IndentedAllOneLine(program: seq<Line>)
    requires forall k :: 0 <= k < |program| ==> OneLine(program[k].stmt)
    ensures forall k :: 0 <= k < |program| ==> '\n' !in IndentedAll(program)[k]
    ensures RStripEach(IndentedAll(program)) == IndentedAll(program)
  {
    var xs := IndentedAll(program);
    forall k | 0 <= k < |xs| ensures '\n' !in xs[k] && RStripEach(xs)[k] == xs[k] {
      IndentedOneLine(program[k]);
    }
  }

  /** One-line statements, rendered, come back unchanged from the line-by-line cleaning. */
  lemma CleanScriptByLineKeepsRender(program: seq<Line>)
    requires |program| > 0 && forall k :: 0 <= k < |program| ==> OneLine(program[k].stmt)
    ensures CleanScriptByLine(Render(program)) == Render(program)
  {
    RenderJoin(program);
    IndentedAllOneLine(program);
    LinesOfJoin(IndentedAll(program));
  }

  lemma CallTextOneLine(name: string, args: seq<string>)
    requires |name| > 0 && '\n' !in name && forall k :: 0 <= k < |args| ==> '\n' !in args[k]
    ensures OneLine(CallText(name, args))
  {
    JoinExcludes(args, ", ", '\n');
    LettersVisible();
  }

  /** No number printed by `f_to_s` and no array printed by `list_to_array` holds a newline. */
  lemma ArgumentsOneLine(angles: seq<real>, vals: seq<real>)
    ensures forall k :: 0 <= k < |[ListToArray(angles)] + Images(vals)| ==>
      '\n' !in ([ListToArray(angles)] + Images(vals))[k]
  {
    var args := [ListToArray(angles)] + Images(vals);
    assert IsSpace('\n');
    forall k | 0 <= k < |args| ensures '\n' !in args[k] {
      if k == 0 {
        ListToArrayFacts(angles);
      } else {
        FToSFacts(vals[k - 1]);
      }
    }
  }

  lemma ServojOneLine(angles: seq<real>, t: real)
    ensures OneLine(ServojText(angles, t, ServoLookahead, ServoGain))
  {
    ArgumentsOneLine(angles, [ServoAccel, ServoVelocity, t, ServoLookahead, ServoGain]);
    CallTextOneLine("servoj", [ListToArray(angles)] + Images([ServoAccel, ServoVelocity, t, ServoLookahead, ServoGain]));
  }

  lemma MovejOneLine(angles: seq<real>)
    ensures OneLine(MovejText(angles, MoveAccel, MoveVelocity, MoveTime, MoveBlend))
  {
    ArgumentsOneLine(angles, [MoveAccel, MoveVelocity, MoveTime, MoveBlend]);
    CallTextOneLine("movej", [ListToArray(angles)] + Images([MoveAccel, MoveVelocity, MoveTime, MoveBlend]));
  }

  predicate AllOneLine(program: seq<Line>) {
    forall k :: 0 <= k < |program| ==> OneLine(program[k].stmt)
  }

  lemma AllOneLineAppend(a: seq<Line>, b: seq<Line>)
    requires AllOneLine(a) && AllOneLine(b)
    ensures AllOneLine(a + b)
  {
    forall k | 0 <= k < |a + b| ensures OneLine((a + b)[k].stmt) {
      if k >= |a| {
        assert (a + b)[k] == b[k - |a|];
      }
    }
  }

  /** A layout of one-line statements is all one-line statements. */
  lemma LayoutOneLine(header: string, first: string, loopHeader: string, body: seq<string>, loop: bool)
    requires OneLine(header) && OneLine(first) && OneLine(loopHeader) && OneLine("end")
    requires forall k :: 0 <= k < |body| ==> OneLine(body[k])
    ensures AllOneLine(Layout(header, first, loopHeader, body, loop))
  {
    var opening := Opening(header, first, loopHeader, loop);
    var lines := AtDepth(body, BodyDepth(loop));
    var closing := Closing(loop);
    assert AllOneLine(opening);
    assert AllOneLine(lines);
    assert AllOneLine(closing);
    AllOneLineAppend(opening, lines);
    AllOneLineAppend(opening + lines, closing);
    LayoutSplit(header, first, loopHeader, body, loop);
  }

  /** The statements that do not depend on the animation are single lines. */
  lemma FixedStatementsOneLine()
    ensures OneLine(HeaderText(FunctionName, []))
    ensures OneLine(WhileText(LoopCondition)) && OneLine("end")
  {
    assert HeaderText(FunctionName, []) == "def blender_move():";
    assert WhileText(LoopCondition) == "while True:";
    PrintableVisible(':');
    PrintableVisible('d');
  }

  /** Every statement `execute` emits fits on one line and ends in a visible character. */
  lemma ExportStatementsOneLine(frames: seq<seq<real>>, t: real)
    requires |frames| > 0
    ensures OneLine(HeaderText(FunctionName, []))
    ensures OneLine(MovejText(frames[0], MoveAccel, MoveVelocity, MoveTime, MoveBlend))
    ensures OneLine(WhileText(LoopCondition)) && OneLine("end")
    ensures forall k :: 0 <= k < |ServoTexts(frames, t)| ==> OneLine(ServoTexts(frames, t)[k])
  {
    FixedStatementsOneLine();
    MovejOneLine(frames[0]);
    ServoTextsLength(frames, t);
    forall k | 0 <= k < |ServoTexts(frames, t)| ensures OneLine(ServoTexts(frames, t)[k]) {
      ServoTextAt(frames, t, k);
      ServojOneLine(frames[k], t);
    }
  }

  /** Every exported script survives the line-by-line cleaning unchanged. */
  lemma ExportedScriptByLine(frames: seq<seq<real>>, t: real, loop: bool)
    requires |frames| > 0
    ensures CleanScriptByLine(Render(AssemblyProgram(frames, t, loop))) == Render(AssemblyProgram(frames, t, loop))
  {
    ExportStatementsOneLine(frames, t);
    LayoutOneLine(HeaderText(FunctionName, []), MovejText(frames[0], MoveAccel, MoveVelocity, MoveTime, MoveBlend),
                  WhileText(LoopCondition), ServoTexts(frames, t), loop);
    CleanScriptByLineKeepsRender(AssemblyProgram(frames, t, loop));
  }
}
