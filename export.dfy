/**
  Script assembly in the export operator (__init__.py): the frame angles become one URScript
  function that first moves to the pose of the first frame, then streams every frame with
  `servoj`, optionally inside an endless `while True:` loop.
 */
module Export {
  import opened Text
  import opened Results
  import opened NumberFormat
  import opened UrScript
  import opened Joints

  /** Why an export stops before any text is sent. */
  datatype ExportError =
    | MissingJoint(name: string)  // `KeyError` in the conversion loop
    | ZeroFrameRate               // `ZeroDivisionError` in `1.0 / scene.render.fps`
    | EmptyFrameRange             // `IndexError` on `frame_angles[0]`
    | Script(error: ScriptError)  // an exception raised by the builder

  const FunctionName: string := "blender_move"
  const LoopCondition: string := "True"

  /** Depth of the streaming lines: inside the function, and inside the loop when there is one. */
  function BodyDepth(loop: bool): nat {
    if loop then 2 else 1
  }

  /** The `servoj` statement of every frame, in frame order, with the default look-ahead time and gain. */
  function ServoTexts(frames: seq<seq<real>>, t: real): seq<string> {
    if frames == [] then []
    else ServoTexts(frames[..|frames| - 1], t) + [ServojText(frames[|frames| - 1], t, ServoLookahead, ServoGain)]
  }

  /** One statement per frame, the `k`-th streaming frame `k` with `t` seconds per frame. */
  lemma {:induction false} ServoTextsLength(frames: seq<seq<real>>, t: real)
    ensures |ServoTexts(frames, t)| == |frames|
    decreases |frames|
  {
    if frames != [] {
      ServoTextsLength(frames[..|frames| - 1], t);
    }
  }

  lemma {:induction false} ServoTextAt(frames: seq<seq<real>>, t: real, k: nat)
    requires k < |frames|
    ensures k < |ServoTexts(frames, t)|
    ensures ServoTexts(frames, t)[k] == ServojText(frames[k], t, ServoLookahead, ServoGain)
    decreases |frames|
  {
    ServoTextsLength(frames, t);
    if k < |frames| - 1 {
      var init := frames[..|frames| - 1];
      ServoTextAt(init, t, k);
      ServoTextsEarlier(frames, t, k);
      assert init[k] == frames[k];
    } else {
      ServoTextLast(frames, t);
    }
  }

  /** The last frame's statement is the last one. */
  lemma ServoTextLast(frames: seq<seq<real>>, t: real)
    requires frames != []
    ensures |ServoTexts(frames, t)| == |frames|
    ensures ServoTexts(frames, t)[|frames| - 1] == ServojText(frames[|frames| - 1], t, ServoLookahead, ServoGain)
  {
    ServoTextsLength(frames, t);
    ServoTextsLength(frames[..|frames| - 1], t);
  }

  /** A statement before the last one is the same one as without the last frame. */
  lemma ServoTextsEarlier(frames: seq<seq<real>>, t: real, k: nat)
    requires k < |frames| - 1
    ensures k < |ServoTexts(frames[..|frames| - 1], t)|
    ensures ServoTexts(frames, t)[k] == ServoTexts(frames[..|frames| - 1], t)[k]
  {
    var init := frames[..|frames| - 1];
    ServoTextsLength(init, t);
    SnocAt(ServoTexts(init, t), ServojText(frames[|frames| - 1], t, ServoLookahead, ServoGain), k);
  }

  lemma SnocAt<T>(s: seq<T>, x: T, k: nat)
    requires k <= |s|
    ensures (s + [x])[k] == if k < |s| then s[k] else x
  {
  }

  lemma ServoTextsFrames(frames: seq<seq<real>>, t: real)
    ensures |ServoTexts(frames, t)| == |frames|
    ensures forall k :: 0 <= k < |frames| ==>
      ServoTexts(frames, t)[k] == ServojText(frames[k], t, ServoLookahead, ServoGain)
  {
    ServoTextsLength(frames, t);
    forall k | 0 <= k < |frames|
      ensures ServoTexts(frames, t)[k] == ServojText(frames[k], t, ServoLookahead, ServoGain)
    {
      ServoTextAt(frames, t, k);
    }
  }

  lemma ServoTextsSnoc(frames: seq<seq<real>>, i: nat, t: real)
    requires i < |frames|
    ensures ServoTexts(frames[..i + 1], t) == ServoTexts(frames[..i], t) + [ServojText(frames[i], t, ServoLookahead, ServoGain)]
  {
    assert frames[..i + 1][..i] == frames[..i];
  }

  /** Statements laid out one per line at the same depth. */
  function AtDepth(stmts: seq<string>, depth: nat): seq<Line> {
    seq(|stmts|, k requires 0 <= k < |stmts| => Line(depth, stmts[k]))
  }

  /**
    The shape of the exported program: a function header, a first statement, the optional loop
    header, the body one block deeper than the statements around it, then one `end` per open block.
   */
  function Layout(header: string, first: string, loopHeader: string, body: seq<string>, loop: bool): seq<Line> {
    [Line(0, header), Line(1, first)]
    + (if loop then [Line(1, loopHeader)] else [])
    + AtDepth(body, BodyDepth(loop))
    + (if loop then [Line(1, "end")] else [])
    + [Line(0, "end")]
  }

  /** The lines before the body: the header, the first statement and the optional loop header. */
  function Opening(header: string, first: string, loopHeader: string, loop: bool): seq<Line> {
    [Line(0, header), Line(1, first)] + (if loop then [Line(1, loopHeader)] else [])
  }

  /** The lines after the body: one `end` per open block, innermost first. */
  function Closing(loop: bool): seq<Line> {
    (if loop then [Line(1, "end")] else []) + [Line(0, "end")]
  }

  lemma OpeningSteps(header: string, first: string, loopHeader: string, loop: bool,
                     afterHeader: seq<Line>, afterFirst: seq<Line>, afterLoop: seq<Line>)
    requires afterHeader == [] + [Line(0, header)]
    requires afterFirst == afterHeader + [Line(1, first)]
    requires afterLoop == if loop then afterFirst + [Line(1, loopHeader)] else afterFirst
    ensures afterLoop == Opening(header, first, loopHeader, loop)
  {
  }

  lemma LayoutSplit(header: string, first: string, loopHeader: string, body: seq<string>, loop: bool)
    ensures Layout(header, first, loopHeader, body, loop)
         == Opening(header, first, loopHeader, loop) + AtDepth(body, BodyDepth(loop)) + Closing(loop)
  {
  }

  /**
    The lines `execute` emits for the frame angles, `t` seconds per frame: the `blender_move`
    header, a `movej` to the first frame with the default arguments, the optional `while True:`,
    one `servoj` per frame, then one `end` per open block.
   */
  function AssemblyProgram(frames: seq<seq<real>>, t: real, loop: bool): (r: seq<Line>)
    requires |frames| > 0
    ensures |r| == |frames| + 2 * BodyDepth(loop) + 1
    ensures r[0] == Line(0, HeaderText(FunctionName, []))
    ensures r[1] == Line(1, MovejText(frames[0], MoveAccel, MoveVelocity, MoveTime, MoveBlend))
    ensures r[|r| - 1] == Line(0, "end")
  {
    ServoTextsLength(frames, t);
    Layout(HeaderText(FunctionName, []), MovejText(frames[0], MoveAccel, MoveVelocity, MoveTime, MoveBlend),
           WhileText(LoopCondition), ServoTexts(frames, t), loop)
  }

  lemma AtDepthSnoc(stmts: seq<string>, depth: nat)
    requires |stmts| > 0
    ensures AtDepth(stmts, depth) == AtDepth(stmts[..|stmts| - 1], depth) + [Line(depth, stmts[|stmts| - 1])]
  {
  }

  /** Plain statements sit at the current depth and neither open nor close a block. */
  lemma {:induction false} AtDepthKeepsDepth(prefix: seq<Line>, stmts: seq<string>, d: nat)
    requires NestDepth(prefix) == Some(d)
    requires forall k :: 0 <= k < |stmts| ==> !IsOpener(stmts[k]) && !IsEnd(stmts[k])
    ensures NestDepth(prefix + AtDepth(stmts, d)) == Some(d)
    decreases |stmts|
  {
    if stmts == [] {
      assert prefix + AtDepth(stmts, d) == prefix;
    } else {
      var init := stmts[..|stmts| - 1];
      var line := Line(d, stmts[|stmts| - 1]);
      AtDepthKeepsDepth(prefix, init, d);
      AtDepthSnoc(stmts, d);
      assert prefix + AtDepth(stmts, d) == (prefix + AtDepth(init, d)) + [line];
      NestDepthAppend(prefix + AtDepth(init, d), line);
    }
  }

  /** Streaming statements are plain statements: none opens or closes a block. */
  lemma ServoTextsPlain(frames: seq<seq<real>>, t: real)
    ensures forall k :: 0 <= k < |ServoTexts(frames, t)| ==>
      !IsOpener(ServoTexts(frames, t)[k]) && !IsEnd(ServoTexts(frames, t)[k])
  {
    ServoTextsFrames(frames, t);
  }

  /** A layout whose headers open blocks and whose other statements are plain is balanced. */
  lemma LayoutNested(header: string, first: string, loopHeader: string, body: seq<string>, loop: bool)
    requires IsOpener(header) && !IsEnd(header) && !IsOpener(first) && !IsEnd(first)
    requires IsOpener(loopHeader) && !IsEnd(loopHeader)
    requires forall k :: 0 <= k < |body| ==> !IsOpener(body[k]) && !IsEnd(body[k])
    ensures NestDepth(Layout(header, first, loopHeader, body, loop)) == Some(0)
  {
    var d := BodyDepth(loop);
    NestDepthAppend([], Line(0, header));
    assert [] + [Line(0, header)] == [Line(0, header)];
    NestDepthAppend([Line(0, header)], Line(1, first));
    var p1 := [Line(0, header), Line(1, first)];
    assert NestDepth(p1) == Some(1);
    var p2 := p1 + (if loop then [Line(1, loopHeader)] else []);
    if loop {
      NestDepthAppend(p1, Line(1, loopHeader));
    } else {
      assert p2 == p1;
    }
    assert NestDepth(p2) == Some(d);
    var p3 := p2 + AtDepth(body, d);
    AtDepthKeepsDepth(p2, body, d);
    var p4 := p3 + (if loop then [Line(1, "end")] else []);
    if loop {
      NestDepthAppend(p3, Line(1, "end"));
    } else {
      assert p4 == p3;
    }
    assert NestDepth(p4) == Some(1);
    NestDepthAppend(p4, Line(0, "end"));
  }

  /**
    Block balance: in the assembled program every line sits at the depth of its block, each `end`
    at the depth of the header it closes, and no block is left open, with or without the loop.
   */
  lemma AssemblyNested(frames: seq<seq<real>>, t: real, loop: bool)
    requires |frames| > 0
    ensures NestDepth(AssemblyProgram(frames, t, loop)) == Some(0)
  {
    ServoTextsPlain(frames, t);
    LayoutNested(HeaderText(FunctionName, []), MovejText(frames[0], MoveAccel, MoveVelocity, MoveTime, MoveBlend),
                 WhileText(LoopCondition), ServoTexts(frames, t), loop);
  }

  /** What a statement is, read from its text. */
  datatype Kind = Opener | Closer | Servo | Move | Other

  function KindOf(stmt: string): Kind {
    if IsEnd(stmt) then Closer
    else if IsOpener(stmt) then Opener
    else if |stmt| >= 7 && stmt[..7] == "servoj(" then Servo
    else if |stmt| >= 6 && stmt[..6] == "movej(" then Move
    else Other
  }

  /** The statements of the given kind, in program order. */
  function OfKind(program: seq<Line>, kind: Kind): seq<string> {
    if program == [] then []
    else
      var l := program[|program| - 1];
      OfKind(program[..|program| - 1], kind) + (if KindOf(l.stmt) == kind then [l.stmt] else [])
  }

  lemma {:induction false} OfKindAppend(a: seq<Line>, b: seq<Line>, kind: Kind)
    ensures OfKind(a + b, kind) == OfKind(a, kind) + OfKind(b, kind)
    decreases |b|
  {
    if b == [] {
      assert a + b == a;
    } else {
      var init := b[..|b| - 1];
      OfKindAppend(a, init, kind);
      assert (a + b)[..|a + b| - 1] == a + init;
    }
  }

  lemma ServojKind(frame: seq<real>, t: real)
    ensures KindOf(ServojText(frame, t, ServoLookahead, ServoGain)) == Servo
  {
    var s := ServojText(frame, t, ServoLookahead, ServoGain);
    assert s[..7] == "servoj(";
  }

  lemma MovejKind(frame: seq<real>)
    ensures KindOf(MovejText(frame, MoveAccel, MoveVelocity, MoveTime, MoveBlend)) == Move
  {
    var m := MovejText(frame, MoveAccel, MoveVelocity, MoveTime, MoveBlend);
    assert m[..6] == "movej(";
    assert m[0] == 'm';
  }

  /** Statements all of one kind, laid out at one depth, contribute themselves to that kind and nothing to the others. */
  lemma {:induction false} AtDepthKinds(stmts: seq<string>, d: nat, same: Kind, kind: Kind)
    requires forall k :: 0 <= k < |stmts| ==> KindOf(stmts[k]) == same
    ensures OfKind(AtDepth(stmts, d), kind) == if kind == same then stmts else []
    decreases |stmts|
  {
    if stmts != [] {
      var init := stmts[..|stmts| - 1];
      AtDepthKinds(init, d, same, kind);
      AtDepthSnoc(stmts, d);
      assert AtDepth(stmts, d)[..|stmts| - 1] == AtDepth(init, d);
      assert init + [stmts[|stmts| - 1]] == stmts;
    }
  }

  lemma ServoTextsKinds(frames: seq<seq<real>>, t: real)
    ensures forall k :: 0 <= k < |ServoTexts(frames, t)| ==> KindOf(ServoTexts(frames, t)[k]) == Servo
  {
    ServoTextsFrames(frames, t);
    forall k | 0 <= k < |ServoTexts(frames, t)| ensures KindOf(ServoTexts(frames, t)[k]) == Servo {
      ServojKind(frames[k], t);
    }
  }

  /** A layout's statements of one kind are those of its parts, in order. */
  lemma LayoutParts(header: string, first: string, loopHeader: string, body: seq<string>, loop: bool, kind: Kind)
    ensures OfKind(Layout(header, first, loopHeader, body, loop), kind) ==
      OfKind([Line(0, header), Line(1, first)], kind)
      + OfKind(if loop then [Line(1, loopHeader)] else [], kind)
      + OfKind(AtDepth(body, BodyDepth(loop)), kind)
      + OfKind(if loop then [Line(1, "end")] else [], kind)
      + OfKind([Line(0, "end")], kind)
  {
    var p1 := [Line(0, header), Line(1, first)];
    var opening := if loop then [Line(1, loopHeader)] else [];
    var lines := AtDepth(body, BodyDepth(loop));
    var closing := if loop then [Line(1, "end")] else [];
    OfKindAppend(p1, opening, kind);
    OfKindAppend(p1 + opening, lines, kind);
    OfKindAppend(p1 + opening + lines, closing, kind);
    OfKindAppend(p1 + opening + lines + closing, [Line(0, "end")], kind);
  }

  /** The statements of one line. */
  lemma OfKindSingle(l: Line, kind: Kind)
    ensures OfKind([l], kind) == if KindOf(l.stmt) == kind then [l.stmt] else []
  {
    assert [l][..0] == [];
  }

  /** The statements of one kind in a layout, part by part, given the kinds of its parts. */
  lemma LayoutKindPieces(header: string, first: string, loopHeader: string, body: seq<string>, loop: bool, kind: Kind)
    requires KindOf(header) == Opener && KindOf(first) == Move && KindOf(loopHeader) == Opener
    requires forall k :: 0 <= k < |body| ==> KindOf(body[k]) == Servo
    ensures OfKind(Layout(header, first, loopHeader, body, loop), kind) ==
      (if kind == Opener then [header] else []) + (if kind == Move then [first] else [])
      + (if loop && kind == Opener then [loopHeader] else [])
      + (if kind == Servo then body else [])
      + (if loop && kind == Closer then ["end"] else [])
      + (if kind == Closer then ["end"] else [])
  {
    var p1 := [Line(0, header), Line(1, first)];
    assert OfKind(p1, kind) == (if kind == Opener then [header] else []) + (if kind == Move then [first] else []) by {
      OfKindSingle(Line(0, header), kind);
      assert p1[..1] == [Line(0, header)];
    }
    assert OfKind(if loop then [Line(1, loopHeader)] else [], kind) == if loop && kind == Opener then [loopHeader] else [] by {
      OfKindSingle(Line(1, loopHeader), kind);
    }
    assert OfKind(AtDepth(body, BodyDepth(loop)), kind) == if kind == Servo then body else [] by {
      AtDepthKinds(body, BodyDepth(loop), Servo, kind);
    }
    assert KindOf("end") == Closer;
    assert OfKind(if loop then [Line(1, "end")] else [], kind) == if loop && kind == Closer then ["end"] else [] by {
      OfKindSingle(Line(1, "end"), kind);
    }
    assert OfKind([Line(0, "end")], kind) == if kind == Closer then ["end"] else [] by {
      OfKindSingle(Line(0, "end"), kind);
    }
    LayoutParts(header, first, loopHeader, body, loop, kind);
  }

  /** The statements of each kind in a layout, given the kinds of its parts. */
  lemma LayoutKinds(header: string, first: string, loopHeader: string, body: seq<string>, loop: bool, kind: Kind)
    requires KindOf(header) == Opener && KindOf(first) == Move && KindOf(loopHeader) == Opener
    requires forall k :: 0 <= k < |body| ==> KindOf(body[k]) == Servo
    ensures OfKind(Layout(header, first, loopHeader, body, loop), kind) ==
      match kind
      case Opener => [header] + (if loop then [loopHeader] else [])
      case Move => [first]
      case Servo => body
      case Closer => (if loop then ["end"] else []) + ["end"]
      case Other => []
  {
    LayoutKindPieces(header, first, loopHeader, body, loop, kind);
    var all := OfKind(Layout(header, first, loopHeader, body, loop), kind);
    match kind {
      case Opener => assert all == [header] + (if loop then [loopHeader] else []);
      case Move => assert all == [first];
      case Servo => assert all == body;
      case Closer => assert all == (if loop then ["end"] else []) + ["end"];
      case Other => assert all == [];
    }
  }

  /**
    The assembled program holds one `servoj` per frame, in frame order, each with `t` seconds per
    frame; exactly one `movej`, to the first frame, with the default arguments; and as many block
    headers as `end` lines: two with the loop, one without.
   */
  lemma AssemblyStatements(frames: seq<seq<real>>, t: real, loop: bool)
    requires |frames| > 0
    ensures OfKind(AssemblyProgram(frames, t, loop), Servo) == ServoTexts(frames, t)
    ensures OfKind(AssemblyProgram(frames, t, loop), Move) ==
      [MovejText(frames[0], MoveAccel, MoveVelocity, MoveTime, MoveBlend)]
    ensures |OfKind(AssemblyProgram(frames, t, loop), Opener)| == BodyDepth(loop)
    ensures |OfKind(AssemblyProgram(frames, t, loop), Closer)| == BodyDepth(loop)
  {
    var header := HeaderText(FunctionName, []);
    var first := MovejText(frames[0], MoveAccel, MoveVelocity, MoveTime, MoveBlend);
    var loopHeader := WhileText(LoopCondition);
    MovejKind(frames[0]);
    ServoTextsKinds(frames, t);
    LayoutKinds(header, first, loopHeader, ServoTexts(frames, t), loop, Servo);
    LayoutKinds(header, first, loopHeader, ServoTexts(frames, t), loop, Move);
    LayoutKinds(header, first, loopHeader, ServoTexts(frames, t), loop, Opener);
    LayoutKinds(header, first, loopHeader, ServoTexts(frames, t), loop, Closer);
  }

  /** Appending one element after a prefix of `full` that lacks only that element. */
  lemma AppendOne<T>(base: seq<T>, prefix: seq<T>, full: seq<T>, x: T)
    requires full == prefix + [x]
    ensures (base + prefix) + [x] == base + full
  {
  }

  /** One more frame streamed adds one `servoj` line at the loop body's depth. */
  lemma StreamStep(frames: seq<seq<real>>, i: nat, t: real, depth: nat, base: seq<Line>, program: seq<Line>)
    requires i < |frames|
    requires program == (base + AtDepth(ServoTexts(frames[..i], t), depth))
                        + [Line(depth, ServojText(frames[i], t, ServoLookahead, ServoGain))]
    ensures program == base + AtDepth(ServoTexts(frames[..i + 1], t), depth)
  {
    ServoTextsSnoc(frames, i, t);
    var stmts := ServoTexts(frames[..i + 1], t);
    AtDepthSnoc(stmts, depth);
    assert stmts[..|stmts| - 1] == ServoTexts(frames[..i], t);
    AppendOne(base, AtDepth(ServoTexts(frames[..i], t), depth), AtDepth(stmts, depth),
              Line(depth, ServojText(frames[i], t, ServoLookahead, ServoGain)));
  }

  /** One more frame found to hold six angles. */
  lemma FramesChecked(frames: seq<seq<real>>, i: nat)
    requires i < |frames| && |frames[i]| == JointCount
    requires forall j :: 0 <= j < i ==> |frames[j]| == JointCount
    ensures forall j :: 0 <= j < i + 1 ==> |frames[j]| == JointCount
  {
  }

  /**
    The loop `for angles in frame_angles: script.servoj(angles, time_for_control)`: one `servoj`
    line per frame at the current depth; the first frame without six angles stops it with the
    builder's error, after the lines of the frames before it.
   */
  method StreamFrames(script: URScript, frames: seq<seq<real>>, t: real) returns (res: Outcome<ScriptError>)
    requires script.Valid()
    modifies script
    ensures script.Valid()
    ensures script.indentLevel == old(script.indentLevel) && script.Open == old(script.Open)
    ensures res.Pass? <==> forall k :: 0 <= k < |frames| ==> |frames[k]| == JointCount
    ensures res.Pass? ==> script.Program == old(script.Program) + AtDepth(ServoTexts(frames, t), script.indentLevel)
    ensures res.Fail? ==> exists k :: (
      && 0 <= k < |frames|
      && res.error == WrongJointCount(|frames[k]|)
      && |frames[k]| != JointCount
      && forall j :: 0 <= j < k ==> |frames[j]| == JointCount)
  {
    for i := 0 to |frames|
      invariant script.Valid()
      invariant script.indentLevel == old(script.indentLevel) && script.Open == old(script.Open)
      invariant script.Program == old(script.Program) + AtDepth(ServoTexts(frames[..i], t), script.indentLevel)
      invariant forall j :: 0 <= j < i ==> |frames[j]| == JointCount
    {
      res := script.Servoj(frames[i], t);
      if res.Fail? {
        return;
      }
      FramesChecked(frames, i);
      StreamStep(frames, i, t, script.indentLevel, old(script.Program), script.Program);
    }
    assert frames[..|frames|] == frames;
    res := Pass;
  }

  /**
    `URScript()`, `function('blender_move')`, `movej(frame_angles[0])` with the default arguments, and
    `while_loop('True')` when looping: the builder then sits at the depth of the loop body.
   */
  method OpenScript(frameAngles: seq<seq<real>>, loop: bool) returns (script: URScript, res: Outcome<ScriptError>)
    requires |frameAngles| > 0
    ensures fresh(script) && script.Valid()
    ensures res.Pass? <==> |frameAngles[0]| == JointCount
    ensures res.Fail? ==> res.error == WrongJointCount(|frameAngles[0]|)
    ensures res.Pass? ==>
      && script.indentLevel == BodyDepth(loop)
      && script.Program == Opening(HeaderText(FunctionName, []),
                                   MovejText(frameAngles[0], MoveAccel, MoveVelocity, MoveTime, MoveBlend),
                                   WhileText(LoopCondition), loop)
  {
    script := new URScript();
    script.Function(FunctionName);
    ghost var afterHeader := script.Program;
    res := script.Movej(frameAngles[0]);
    if res.Fail? {
      return;
    }
    ghost var afterFirst := script.Program;
    if loop {
      script.WhileLoop(LoopCondition);
    }
    OpeningSteps(HeaderText(FunctionName, []), MovejText(frameAngles[0], MoveAccel, MoveVelocity, MoveTime, MoveBlend),
                 WhileText(LoopCondition), loop, afterHeader, afterFirst, script.Program);
  }

  /** The `end` of the optional loop, then the `end` of `blender_move`. */
  method CloseScript(script: URScript, loop: bool)
    requires script.Valid() && script.indentLevel == BodyDepth(loop)
    modifies script
    ensures script.Valid()
    ensures script.Program == old(script.Program) + Closing(loop)
    ensures script.indentLevel == 0 && script.Open == []
  {
    var res;
    if loop {
      res := script.End();
    }
    res := script.End();
  }

  /**
    The `urscript` branch of `execute`: `t = 1.0 / fps`, a fresh builder, `function('blender_move')`,
    `movej(frame_angles[0])`, the optional `while_loop('True')`, one `servoj(angles, t)` per frame,
    and the matching `end`s. It fails on a zero frame rate, on an empty frame list, and on the first
    frame (in order) that does not hold six angles; otherwise the text is the assembled program.
   */
  method AssembleScript(frameAngles: seq<seq<real>>, fps: int, loop: bool) returns (r: Result<string, ExportError>)
    ensures fps == 0 ==> r == Err(ZeroFrameRate)
    ensures fps != 0 && frameAngles == [] ==> r == Err(EmptyFrameRange)
    ensures fps != 0 && frameAngles != [] ==>
      (r.Ok? <==> forall k :: 0 <= k < |frameAngles| ==> |frameAngles[k]| == JointCount)
    ensures r.Ok? ==> (fps != 0 && frameAngles != [] &&
      r.value == Render(AssemblyProgram(frameAngles, 1.0 / fps as real, loop)))
    ensures r.Err? && fps != 0 && frameAngles != [] ==> exists k :: (
      && 0 <= k < |frameAngles|
      && r.error == Script(WrongJointCount(|frameAngles[k]|))
      && |frameAngles[k]| != JointCount
      && forall j :: 0 <= j < k ==> |frameAngles[j]| == JointCount)
  {
    if fps == 0 {
      return Err(ZeroFrameRate);
    }
    if |frameAngles| == 0 {
      return Err(EmptyFrameRange);
    }
    var timeForControl := 1.0 / fps as real;
    var script, res := OpenScript(frameAngles, loop);
    if res.Fail? {
      return Err(Script(res.error));
    }
    res := StreamFrames(script, frameAngles, timeForControl);
    if res.Fail? {
      return Err(Script(res.error));
    }
    CloseScript(script, loop);
    LayoutSplit(HeaderText(FunctionName, []),
                MovejText(frameAngles[0], MoveAccel, MoveVelocity, MoveTime, MoveBlend),
                WhileText(LoopCondition), ServoTexts(frameAngles, timeForControl), loop);
    r := Ok(script.text);
  }

  /**
    `execute` from the sampled frames to the program text: convert every frame of
    `range(frame_start, frame_end)`, then assemble. A missing joint is reported first (conversion
    runs before the frame rate is read), then a zero frame rate, then an empty range; a converted
    frame always has six angles, so the builder never raises.
   */
  method Execute(frameStart: int, frameEnd: int, sample: int -> seq<Bone>, fps: int, loop: bool)
    returns (r: Result<string, ExportError>)
    ensures r.Ok? <==>
      && (forall f :: frameStart <= f < frameEnd ==> FrameAngles(ByName(sample(f))).Ok?)
      && fps != 0 && frameStart < frameEnd
    ensures r.Ok? ==> exists frames: seq<seq<real>> :: (
      && |frames| == frameEnd - frameStart
      && (forall k :: 0 <= k < |frames| ==> FrameAngles(ByName(sample(frameStart + k))) == Ok(frames[k]))
      && r.value == Render(AssemblyProgram(frames, 1.0 / fps as real, loop)))
    ensures r.Err? ==> !r.error.Script?
    ensures (exists f :: frameStart <= f < frameEnd && FrameAngles(ByName(sample(f))).Err?) ==>
      r.Err? && r.error.MissingJoint?
    ensures (forall f :: frameStart <= f < frameEnd ==> FrameAngles(ByName(sample(f))).Ok?) && fps == 0 ==>
      r == Err(ZeroFrameRate)
    ensures ((forall f :: frameStart <= f < frameEnd ==> FrameAngles(ByName(sample(f))).Ok?) &&
             fps != 0 && frameStart >= frameEnd) ==> r == Err(EmptyFrameRange)
    ensures r.Err? && r.error.MissingJoint? ==> exists f :: (
      && frameStart <= f < frameEnd
      && FrameAngles(ByName(sample(f))) == Err(r.error.name)
      && forall g :: frameStart <= g < f ==> FrameAngles(ByName(sample(g))).Ok?)
  {
    var converted := ConvertFrames(frameStart, frameEnd, sample);
    if converted.Err? {
      return Err(MissingJoint(converted.error));
    }
    var frames := converted.value;
    forall k | 0 <= k < |frames| ensures |frames[k]| == JointCount {
      FrameAnglesFormula(ByName(sample(frameStart + k)));
    }
    r := AssembleScript(frames, fps, loop);
  }
}
