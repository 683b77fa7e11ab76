# blender-urx-addon: the URScript exporter, modelled in Dafny

The add-on turns a Blender armature animation into a URScript program for a Universal Robots arm.
This project models how that program is built and what happens to it on the way to the robot:

- `results.dfy` (`Results`): `Option`, `Result` and `Outcome`. An exception the source raises
  becomes an error value.
- `text.dfy` (`Text`): the Python string operations the core relies on.
  - `str.isspace` whitespace, `strip`/`lstrip`/`rstrip`, `split()`, `sep.join`, splitting at one
    character, and integer-to-decimal text.
  - Each comes with lemmas that pin down what it returns.
- `number_format.dfy` (`NumberFormat`): `f_to_s` and `list_to_array`.
  - A number is an exact `real`. It is printed with five decimals, rounded to nearest with ties to
    even, and a `-` exactly when the value is negative.
  - Parsing the printed text back gives the value within 0.000005, and gives it exactly if the
    value has at most five decimals.
- `ur_script.dfy` (`UrScript`): the `URScript` builder as a class.
  - Fields: the program `text` and `indentLevel`.
  - Ghost state: the emitted lines `Program` and the open block headers `Open`.
  - Every method states the new text and depth exactly. Every builder method except raw `AddLine`
    keeps the block structure well nested.
  - `end` with no open block and a `movej`/`servoj` without six angles return the error and leave
    the builder unchanged.
- `joints.dfy` (`Joints`): the conversion loop of the export operator.
  - Bones are collected by name, with a later bone overwriting an earlier one.
  - Each of the six joints takes one Euler component of its bone, multiplied by a direction, plus
    an offset.
  - A missing bone is the `KeyError` of the first missing joint.
- `export.dfy` (`Export`): the `urscript` branch of `execute`. It assembles the `blender_move`
  function from the frame angles, with or without the `while True:` loop. Its lemmas prove:
  - one `servoj` per frame, in frame order;
  - one `movej`, to the first frame;
  - as many `end`s as block headers, each at the depth of its header.
- `robot.dfy` (`Robot`): the cleaning `Robot.send_script` applies before sending, and the finding
  below.

## Model

| member | source | states |
|---|---|---|
| Text.LStripSpec | ur_script.py:16 | the left half of `strip` removes exactly the leading run of whitespace; what is left is a suffix of the text that does not start with whitespace |
| Text.RStripSpec | __init__.py:81 | `rstrip` removes exactly the trailing run of whitespace; what is left is a prefix of the text that does not end with whitespace |
| Text.StripEdges | ur_script.py:16 | the text `add_line` writes after `strip` neither starts nor ends with whitespace |
| Text.StripUnchanged | ur_script.py:16 | `strip` leaves a text whose first and last characters are not whitespace unchanged |
| Text.SplitWhitespace | __init__.py:81 | every piece `split()` returns is non-empty and free of whitespace |
| Text.SplitWord | __init__.py:81 | a non-empty text without whitespace splits into itself alone |
| Text.SplitAtSpace | __init__.py:81 | `split()` cuts at whitespace: a text with a whitespace character in it splits into the words before it followed by the words after it |
| Text.SplitWhitespaceKeepsVisible | __init__.py:81 | the pieces of `split()`, put back together, are exactly the non-whitespace characters of the text, in order |
| Text.SplitTerminated | __init__.py:81-82 | words each followed by a whitespace character split back into the same words |
| Text.SplitOnJoin | __init__.py:82 | newline-free pieces joined with `'\n'` split at `'\n'` back into the same pieces |
| Text.NatToStringRoundTrip | ur_script.py:2 | the decimal digits printed for a natural number read back as that number |
| NumberFormat.RoundHalfEvenNearest | ur_script.py:2 | the scaled magnitude is rounded to an integer within one half of it, and an exact tie goes to the even neighbour |
| NumberFormat.FractionFacts | ur_script.py:2 | the fractional part is exactly five digits, zero-padded, and reads back as the scaled remainder |
| NumberFormat.FToS | ur_script.py:1-2 | the text has at least seven characters, a point sixth from the end, and starts with `-` exactly when the value is negative |
| NumberFormat.FToSFacts | ur_script.py:1-2 | `f_to_s` prints a point sixth from the end, then five digits; a leading `-` exactly for a negative value; no whitespace and no comma |
| NumberFormat.FToSRoundTrip | ur_script.py:1-2 | the text of `f_to_s` parses back as a number within 0.000005 of the value, and exactly the value if it has at most five decimals |
| NumberFormat.ListToArray | ur_script.py:4-5 | the text opens with `[` and closes with `]`; an empty list prints as `[]` |
| NumberFormat.ListToArrayFacts | ur_script.py:4-5 | `list_to_array` prints a bracketed literal without whitespace |
| NumberFormat.ListToArrayReadBack | ur_script.py:4-5 | for a non-empty list, the comma-separated items between the brackets are the `f_to_s` texts of the values, in order |
| NumberFormat.ListToArrayValues | ur_script.py:4-5 | each item of the array literal parses back within 0.000005 of the value it came from |
| Text.Repeat | ur_script.py:15 | the indentation is exactly `n` tab characters |
| UrScript.MakeTabs | ur_script.py:15 | the tab-joining generator yields the indentation of depth `n` |
| UrScript.RenderAppend | ur_script.py:16 | appending a line to the program appends its tabs, its text and a newline to the rendered text |
| UrScript.HeaderText | ur_script.py:19 | a `def` header starts with `def `, opens a block and is not an `end` |
| UrScript.HeaderTextStripped | ur_script.py:19 | a `def` header is left unchanged by `strip` |
| UrScript.WhileText | ur_script.py:33 | a `while` header starts with `while `, opens a block and is not an `end` |
| UrScript.WhileTextStripped | ur_script.py:33 | a `while` header is left unchanged by `strip` |
| UrScript.DigitalOutText | ur_script.py:30 | the statement starts with `set_tool_digital_out(` and neither opens nor closes a block |
| UrScript.DigitalOutTextStripped | ur_script.py:30 | a `set_tool_digital_out` statement is left unchanged by `strip` |
| UrScript.ServojText | ur_script.py:44 | the statement starts with `servoj(` and neither opens nor closes a block |
| UrScript.ServojTextStripped | ur_script.py:44 | a `servoj` statement is left unchanged by `strip` |
| UrScript.MovejText | ur_script.py:50 | the statement starts with `movej(` and neither opens nor closes a block |
| UrScript.MovejTextStripped | ur_script.py:50 | a `movej` statement is left unchanged by `strip` |
| UrScript.URScript.constructor | ur_script.py:8-12 | a new builder has empty text, depth 0 and no open block |
| UrScript.URScript.AddLine | ur_script.py:14-16 | appends the current depth's tabs, the stripped text and a newline; the depth is unchanged; nesting is kept when the line neither opens nor closes a block |
| UrScript.URScript.Function | ur_script.py:18-20 | appends the `def` header at the current depth and opens one block; nesting is kept |
| UrScript.URScript.End | ur_script.py:22-27 | with no open block, fails with `No structure to end` and changes nothing; otherwise closes the innermost block and writes `end` at the depth of the header it closes |
| UrScript.URScript.SetToolDigitalOut | ur_script.py:29-30 | appends the statement at the current depth; the depth is unchanged |
| UrScript.URScript.WhileLoop | ur_script.py:32-34 | appends the `while` header at the current depth and opens one block; nesting is kept |
| UrScript.URScript.Servoj | ur_script.py:36-44 | fails and writes nothing unless there are exactly six angles; otherwise appends the statement with the 0 placeholders, `t`, the look-ahead time and the gain at the current depth |
| UrScript.URScript.Movej | ur_script.py:46-50 | fails and writes nothing unless there are exactly six angles; otherwise appends the statement with `a`, `v`, `t`, `r` at the current depth |
| Joints.TablesCoverJoints | __init__.py:109-127 | the axis table and the correction table have an entry, with a valid axis, for each of the six joints |
| Joints.JointAngle | __init__.py:142-144 | with the axis and correction tables, joint by joint: Base `z`, Shoulder `-y - pi/2`, Elbow `-y`, Wrist1 `-y - pi/2`, Wrist2 `-z` and Wrist3 `-y` |
| Joints.ByName | __init__.py:136-138 | the last bone's name maps to that bone's orientation |
| Joints.ByNameKeys | __init__.py:136-138 | the dictionary holds exactly the names of the sampled bones |
| Joints.ByNameLast | __init__.py:136-138 | a name maps to the orientation of the last bone carrying it |
| Joints.SampleBones | __init__.py:136-138 | the bone loop builds the by-name dictionary |
| Joints.FirstMissing | __init__.py:141-142 | the position of the first joint whose bone is absent: every earlier joint is present, and that one is missing |
| Joints.FrameAngles | __init__.py:140-146 | a converted frame has one angle per joint; a failure names a joint whose bone is absent |
| Joints.FrameAnglesValues | __init__.py:140-146 | with all six bones present the frame converts, to the per-joint formulas in joint order |
| Joints.FrameAnglesFormula | __init__.py:140-146 | one frame converts exactly when all six names are present, and then gives the six corrected angles in joint order; otherwise it names a missing joint |
| Joints.ConvertFrame | __init__.py:140-146 | the joint loop computes the frame's conversion, stopping at the first missing joint |
| Joints.ConvertFrames | __init__.py:133-148 | succeeds exactly when every frame of the range converts, with one entry per frame in frame order; otherwise reports the first failing frame's missing joint |
| Export.ServoTextsFrames | __init__.py:163-164 | one `servoj` statement per frame, the `k`-th built from frame `k` |
| Export.AssemblyProgram | __init__.py:156-171 | the program has one line per frame plus the header, the `movej` and two lines per open block; it starts with the `blender_move` header at depth 0 and the `movej` to the first frame at depth 1, and ends with `end` at depth 0 |
| Export.LayoutNested | __init__.py:156-171 | a layout whose headers open blocks and whose other statements are plain is balanced |
| Export.AssemblyNested | __init__.py:156-171 | in the assembled program every line sits at its block's depth, each `end` at its header's depth, and no block is left open, with or without the loop |
| Export.AssemblyStatements | __init__.py:156-171 | the program holds one `servoj` per frame in frame order, exactly one `movej` (to the first frame), and as many headers as `end`s: two with the loop, one without |
| Export.OpenScript | __init__.py:156-161 | a fresh builder with the `blender_move` header, the `movej` to the first frame and the optional `while True:`; fails exactly when the first frame lacks six angles |
| Export.StreamFrames | __init__.py:163-164 | one `servoj` line per frame at the current depth; succeeds exactly when every frame has six angles, and otherwise fails at the first frame that does not |
| Export.CloseScript | __init__.py:166-171 | appends the loop's `end` when looping, then the function's `end`, leaving depth 0 and no open block |
| Export.AssembleScript | __init__.py:154-171 | fails on a zero frame rate, on an empty frame list, and on the first frame without six angles; otherwise the text is the rendered assembled program with `1.0 / fps` seconds per frame |
| Export.Execute | __init__.py:129-171 | succeeds exactly when every frame converts, the frame rate is not zero and the range is not empty, and then returns the rendered assembled program of the converted frames; the builder never raises; errors come in the source's order: a missing joint first, then the zero frame rate, then the empty range |
| Robot.CleanScript | __init__.py:81-82 | the sent text ends in a newline, and `split()` reads it back as the words of the script |
| Robot.CleanScriptWords | __init__.py:79-82 | the cleaned text is the script's `split()` words joined by newlines, plus a newline |
| Robot.CleanScriptLines | __init__.py:79-82 | the sent text ends in a newline, and its lines are the words of the script; a script with no words is sent as a single newline |
| Robot.CleanScriptIdempotent | __init__.py:79-82 | cleaning a cleaned script changes nothing |
| Robot.CleanScriptKeepsVisible | __init__.py:79-82 | cleaning only moves whitespace: the non-whitespace characters are sent in order |
| Robot.CleanScriptSplitsDef | __init__.py:81 | a script that starts with `def ` is sent with a newline in place of that space |
| Robot.ExportedScriptMangled | __init__.py:79-84 | for every exported program, the text sent differs from the text built |
| Robot.ExportStatementsOneLine | __init__.py:156-171 | every statement of the exported program is one line that ends in a visible character |
| Robot.CleanScriptByLine | __init__.py:81-82 | the corrected cleaning: a script with lines is sent as its right-stripped lines, one per line |
| Robot.CleanScriptByLineKeepsRender | __init__.py:81-82 | line-by-line cleaning returns any rendered program of one-line statements unchanged |
| Robot.ExportedScriptByLine | __init__.py:79-84 | line-by-line cleaning sends every exported program exactly as built |

## Left out

- Blender (`bpy`): the scene, the armature, the operator registration and the properties dialog.
  - `frame_set` plus reading the pose bones is a function parameter `sample` from a frame number to
    the bones.
  - The `loop` property and `scene.render.fps` are parameters.
  - Restoring the current frame has no effect on the program text, so it is not modelled.
- `get_local_orientation`: a bone's local orientation is an input (`Orientation`). Computing it
  from Blender's matrices is Blender's own code and is not modelled.
- Floating point: every number is an exact `real`. `float(v)` in `f_to_s` and the rounding of
  `math.pi`, `1.0 / fps` and the joint formula to doubles are not modelled. `f_to_s` rounds the
  exact value half to even, as Python's `format` does on a double's exact binary value.
- Sockets, the configuration file, logging and the `json` output branch (dead code: the branch is
  chosen by a constant).
  - `Robot.send` and the UTF-8 encoding are left out; the model stops at the text `send_script`
    would send.
  - The test server `tests/tcp_server.py` is not part of this model.
- Timing of errors: an empty frame range makes the source fail on `frame_angles[0]` after creating
  the builder and writing the header. The model reports `EmptyFrameRange` before building. Both
  send nothing, so no output differs.
- Robot.Lines: models `str.splitlines` only for `'\n'` line breaks, the only ones the exported
  program contains.

## Findings

| source | as written | input that shows it | evidently intended | confidence | as-written member | corrected member |
|---|---|---|---|---|---|---|
| __init__.py:81 | `script_text.split()` splits at every run of whitespace, so each word of the script becomes its own line | any exported program, e.g. one starting `def blender_move():` is sent starting `def\nblender_move():`, and `servoj([...], 0.00000, ...)` is torn apart at every `, ` | split the script into lines (`splitlines()`) and right-strip each line, so the program is sent as built | not executed | Robot.ExportedScriptMangled | Robot.ExportedScriptByLine |
