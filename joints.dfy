/**
  Joint-angle conversion in the export operator (__init__.py): for each frame the pose bones'
  local orientations are collected by name, and each of the six UR joints takes one Euler
  component of its bone, times a sign, plus an offset.
 */
module Joints {
  import opened Results

  /** Euler angles, in radians, of a bone's orientation relative to its parent. */
  datatype Orientation = Orientation(x: real, y: real, z: real) {
    /** `orientation[i]` on the `(x, y, z)` tuple. */
    function Axis(i: nat): real
      requires i < 3
    {
      if i == 0 then x else if i == 1 then y else z
    }
  }

  /** A pose bone as sampled at one frame: its name and its local orientation. */
  datatype Bone = Bone(name: string, orientation: Orientation)

  /** `(multiplier, offset)`: a controller angle is `direction * bone angle + offset`. */
  datatype Correction = Correction(direction: real, offset: real)

  /** `math.pi` */
  const Pi: real := 3.141592653589793

  /** The joints of the arm, in the order the controller takes their angles. */
  const JointNames: seq<string> := ["Base", "Shoulder", "Elbow", "Wrist1", "Wrist2", "Wrist3"]

  /** Which Euler component of each bone is the joint's rotation. */
  const AxisIndex: map<string, nat> :=
    map["Base" := 2, "Shoulder" := 1, "Elbow" := 1, "Wrist1" := 1, "Wrist2" := 2, "Wrist3" := 1]

  const AxisCorrection: map<string, Correction> := map[
    "Base" := Correction(1.0, 0.0),
    "Shoulder" := Correction(-1.0, -Pi / 2.0),
    "Elbow" := Correction(-1.0, 0.0),
    "Wrist1" := Correction(-1.0, -Pi / 2.0),
    "Wrist2" := Correction(-1.0, 0.0),
    "Wrist3" := Correction(-1.0, 0.0)
  ]

  /** Both tables have an entry, and a valid axis, for every joint. */
  lemma TablesCoverJoints()
    ensures forall name :: name in JointNames ==>
      name in AxisIndex && AxisIndex[name] < 3 && name in AxisCorrection
  {
  }

  /**
    `direction * orientation[axis_index[name]] + offset` for joint `name`; joint by joint the tables
    give Base `z`, Shoulder `-y - pi/2`, Elbow `-y`, Wrist1 `-y - pi/2`, Wrist2 `-z` and Wrist3 `-y`.
   */
  function JointAngle(name: string, o: Orientation): (r: real)
    requires name in JointNames
    ensures name == "Base" ==> r == o.z
    ensures name == "Shoulder" ==> r == -o.y - Pi / 2.0
    ensures name == "Elbow" ==> r == -o.y
    ensures name == "Wrist1" ==> r == -o.y - Pi / 2.0
    ensures name == "Wrist2" ==> r == -o.z
    ensures name == "Wrist3" ==> r == -o.y
  {
    TablesCoverJoints();
    AxisCorrection[name].direction * o.Axis(AxisIndex[name]) + AxisCorrection[name].offset
  }

  /** `joint_angles_by_name` after the bone loop: a later bone of the same name overwrites an earlier one. */
  function ByName(bones: seq<Bone>): (r: map<string, Orientation>)
    ensures bones != [] ==>
      var last := bones[|bones| - 1];
      last.name in r && r[last.name] == last.orientation
  {
    if bones == [] then map[]
    else ByName(bones[..|bones| - 1])[bones[|bones| - 1].name := bones[|bones| - 1].orientation]
  }

  /** The dictionary holds exactly the names of the sampled bones. */
  lemma {:induction false} ByNameKeys(bones: seq<Bone>)
    ensures forall n :: n in ByName(bones) <==> exists i :: 0 <= i < |bones| && bones[i].name == n
    decreases |bones|
  {
    if bones != [] {
      var init := bones[..|bones| - 1];
      ByNameKeys(init);
      forall n ensures n in ByName(bones) <==> exists i :: 0 <= i < |bones| && bones[i].name == n {
        if n in ByName(init) {
          var i :| 0 <= i < |init| && init[i].name == n;
          assert bones[i].name == n;
        }
        if exists i :: 0 <= i < |bones| && bones[i].name == n {
          var i :| 0 <= i < |bones| && bones[i].name == n;
          if i < |init| {
            assert init[i].name == n;
          }
        }
      }
    }
  }

  /** A name maps to the orientation of the last bone carrying it. */
  lemma {:induction false} ByNameLast(bones: seq<Bone>, i: nat)
    requires i < |bones|
    requires forall j :: i < j < |bones| ==> bones[j].name != bones[i].name
    ensures bones[i].name in ByName(bones) && ByName(bones)[bones[i].name] == bones[i].orientation
    decreases |bones|
  {
    if i < |bones| - 1 {
      var init := bones[..|bones| - 1];
      assert init[i] == bones[i];
      forall j | i < j < |init| ensures init[j].name != init[i].name {
        assert init[j] == bones[j];
      }
      ByNameLast(init, i);
      assert bones[|bones| - 1].name != bones[i].name;
    }
  }

  /** The loop `for pose_bone in armature_obj.pose.bones: joint_angles_by_name[pose_bone.name] = ...`. */
  method SampleBones(bones: seq<Bone>) returns (byName: map<string, Orientation>)
    ensures byName == ByName(bones)
  {
    byName := map[];
    for i := 0 to |bones|
      invariant byName == ByName(bones[..i])
    {
      assert bones[..i + 1][..i] == bones[..i];
      byName := byName[bones[i].name := bones[i].orientation];
    }
    assert bones[..|bones|] == bones;
  }

  /** Position of the first joint, in controller order, whose bone is absent; `|names|` when none is. */
  function FirstMissing(names: seq<string>, byName: map<string, Orientation>): (k: nat)
    ensures k <= |names|
    ensures forall j :: 0 <= j < k ==> names[j] in byName
    ensures k < |names| ==> names[k] !in byName
  {
    if names == [] || names[0] !in byName then 0 else 1 + FirstMissing(names[1..], byName)
  }

  /**
    One frame's controller angles: the `KeyError` for the first joint whose bone is missing,
    otherwise the six corrected angles in joint order.
   */
  function FrameAngles(byName: map<string, Orientation>): (r: Result<seq<real>, string>)
    ensures r.Ok? ==> |r.value| == |JointNames|
    ensures r.Err? ==> r.error in JointNames && r.error !in byName
  {
    var k := FirstMissing(JointNames, byName);
    if k < |JointNames| then Err(JointNames[k])
    else Ok(seq(|JointNames|, i requires 0 <= i < |JointNames| => JointAngle(JointNames[i], byName[JointNames[i]])))
  }

  /**
    The table-driven conversion is the fixed formula per joint: Base is `z`, Shoulder `-y - pi/2`,
    Elbow `-y`, Wrist1 `-y - pi/2`, Wrist2 `-z`, Wrist3 `-y`; it fails exactly when one of the six
    names is missing, naming the first missing one.
   */
  lemma FrameAnglesFormula(byName: map<string, Orientation>)
    ensures FrameAngles(byName).Ok? <==> forall name :: name in JointNames ==> name in byName
    ensures FrameAngles(byName).Err? ==>
      FrameAngles(byName).error in JointNames && FrameAngles(byName).error !in byName
    ensures FrameAngles(byName).Ok? ==>
      && "Base" in byName && "Shoulder" in byName && "Elbow" in byName
      && "Wrist1" in byName && "Wrist2" in byName && "Wrist3" in byName
      && var b, s, e := byName["Base"], byName["Shoulder"], byName["Elbow"];
         var w1, w2, w3 := byName["Wrist1"], byName["Wrist2"], byName["Wrist3"];
         FrameAngles(byName).value == [b.z, -s.y - Pi / 2.0, -e.y, -w1.y - Pi / 2.0, -w2.z, -w3.y]
  {
    var k := FirstMissing(JointNames, byName);
    if k == |JointNames| {
      assert forall name :: name in JointNames ==> name in byName by {
        forall name | name in JointNames ensures name in byName {
          var j :| 0 <= j < |JointNames| && JointNames[j] == name;
        }
      }
      FrameAnglesValues(byName);
    } else {
      assert JointNames[k] in JointNames;
    }
  }

  /** With every joint present, the frame's angles are the per-joint formulas, in joint order. */
  lemma FrameAnglesValues(byName: map<string, Orientation>)
    requires forall name :: name in JointNames ==> name in byName
    ensures FrameAngles(byName).Ok?
    ensures "Base" in byName && "Shoulder" in byName && "Elbow" in byName
    ensures "Wrist1" in byName && "Wrist2" in byName && "Wrist3" in byName
    ensures var b, s, e := byName["Base"], byName["Shoulder"], byName["Elbow"];
            var w1, w2, w3 := byName["Wrist1"], byName["Wrist2"], byName["Wrist3"];
            FrameAngles(byName).value == [b.z, -s.y - Pi / 2.0, -e.y, -w1.y - Pi / 2.0, -w2.z, -w3.y]
  {
    assert JointNames[5] in JointNames;
    assert FirstMissing(JointNames, byName) == |JointNames|;
    var r := FrameAngles(byName).value;
    var b, s, e := byName["Base"], byName["Shoulder"], byName["Elbow"];
    var w1, w2, w3 := byName["Wrist1"], byName["Wrist2"], byName["Wrist3"];
    assert r[0] == JointAngle("Base", b) == b.z;
    assert r[1] == JointAngle("Shoulder", s) == -s.y - Pi / 2.0;
    assert r[2] == JointAngle("Elbow", e) == -e.y;
    assert r[3] == JointAngle("Wrist1", w1) == -w1.y - Pi / 2.0;
    assert r[4] == JointAngle("Wrist2", w2) == -w2.z;
    assert r[5] == JointAngle("Wrist3", w3) == -w3.y;
  }

  /** Six angles, each the corrected component of its joint's bone, are the frame's conversion. */
  lemma AllJointsConverted(byName: map<string, Orientation>, angles: seq<real>)
    requires |angles| == |JointNames|
    requires forall j :: 0 <= j < |JointNames| ==> JointNames[j] in byName
    requires forall j :: 0 <= j < |JointNames| ==> angles[j] == JointAngle(JointNames[j], byName[JointNames[j]])
    ensures FrameAngles(byName) == Ok(angles)
  {
    assert FirstMissing(JointNames, byName) == |JointNames|;
    var r := FrameAngles(byName).value;
    assert |r| == |angles|;
    forall j | 0 <= j < |angles| ensures r[j] == angles[j] {
    }
    assert r == angles;
  }

  /** The loop `for name in joint_names: angles.append(direction * bl_angle + offset)`. */
  method ConvertFrame(byName: map<string, Orientation>) returns (r: Result<seq<real>, string>)
    ensures r == FrameAngles(byName)
  {
    var angles: seq<real> := [];
    for i := 0 to |JointNames|
      invariant |angles| == i
      invariant forall j :: 0 <= j < i ==> JointNames[j] in byName
      invariant forall j :: 0 <= j < i ==> angles[j] == JointAngle(JointNames[j], byName[JointNames[j]])
    {
      var name := JointNames[i];
      if name !in byName {
        assert FirstMissing(JointNames, byName) == i;
        return Err(name);
      }
      var robotAngle := JointAngle(name, byName[name]);
      angles := angles + [robotAngle];
    }
    AllJointsConverted(byName, angles);
    r := Ok(angles);
  }

  /** Number of frames in `range(frame_start, frame_end)`. */
  function FrameCount(frameStart: int, frameEnd: int): nat {
    if frameEnd > frameStart then frameEnd - frameStart else 0
  }

  /** Frames converted in order, counted from `frameStart`, all converted without error. */
  lemma ConvertedFramesOk(frameStart: int, upper: int, sample: int -> seq<Bone>, frameAngles: seq<seq<real>>)
    requires upper <= frameStart + |frameAngles|
    requires forall k :: 0 <= k < |frameAngles| ==> FrameAngles(ByName(sample(frameStart + k))) == Ok(frameAngles[k])
    ensures forall g :: frameStart <= g < upper ==> FrameAngles(ByName(sample(g))).Ok?
  {
    forall g | frameStart <= g < upper ensures FrameAngles(ByName(sample(g))).Ok? {
      var k := g - frameStart;
      assert FrameAngles(ByName(sample(frameStart + k))) == Ok(frameAngles[k]);
    }
  }

  /**
    The frame loop: `frame_angles` gets one entry per frame of `range(frame_start, frame_end)`, in
    frame order, each the conversion of the bones sampled at that frame; the first frame with a
    missing joint aborts the loop with that joint's name. `sample(f)` stands for setting the scene
    to frame `f` and reading the armature's pose bones.
   */
  method ConvertFrames(frameStart: int, frameEnd: int, sample: int -> seq<Bone>)
    returns (r: Result<seq<seq<real>>, string>)
    ensures r.Ok? <==> forall f :: frameStart <= f < frameEnd ==> FrameAngles(ByName(sample(f))).Ok?
    ensures r.Ok? ==>
      && |r.value| == FrameCount(frameStart, frameEnd)
      && forall k :: 0 <= k < |r.value| ==> FrameAngles(ByName(sample(frameStart + k))) == Ok(r.value[k])
    ensures r.Err? ==> exists f :: (
      && frameStart <= f < frameEnd
      && FrameAngles(ByName(sample(f))) == Err(r.error)
      && forall g :: frameStart <= g < f ==> FrameAngles(ByName(sample(g))).Ok?)
  {
    var frameAngles: seq<seq<real>> := [];
    var count := FrameCount(frameStart, frameEnd);
    for i := 0 to count
      invariant |frameAngles| == i
      invariant forall k :: 0 <= k < i ==> FrameAngles(ByName(sample(frameStart + k))) == Ok(frameAngles[k])
    {
      var byName := SampleBones(sample(frameStart + i));
      var angles := ConvertFrame(byName);
      if angles.Err? {
        ConvertedFramesOk(frameStart, frameStart + i, sample, frameAngles);
        return Err(angles.error);
      }
      frameAngles := frameAngles + [angles.value];
    }
    ConvertedFramesOk(frameStart, frameEnd, sample, frameAngles);
    r := Ok(frameAngles);
  }
}
