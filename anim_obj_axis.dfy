/** `scripts/anim_obj_axis.py`: the object is turned about one axis in steps
    of `--axis BEGIN END STEP` degrees, one scene per angle. The per-frame
    rotation (the Euler angles of the sweep composed with the object's own
    rotation) is the uninterpreted function `sweep`; rendering a scene and
    writing the gif are not modelled, so the frames are the scenes. */
module AnimObjAxis {
  import opened Py
  import Paths
  import opened SceneDict
  import opened Args
  import opened PointsLoader
  import opened Wrapper

  /** The script's own options: `--fps` (default 10) and `--axis` (default 0 0 360 5). */
  function AxisFlagsOf(fps: Option<int>, axis: Option<Four>): (f: ScriptFlags)
    ensures f.AxisFlags?
    ensures fps.Some? ==> f.fps == fps.value
    ensures axis.Some? ==> f.axis == axis.value
    ensures fps.None? ==> f.fps == 10
    ensures axis.None? ==> f.axis == [0.0, 0.0, 360.0, 5.0]
  {
    AxisFlags(fps.GetOr(10), axis.GetOr([0.0, 0.0, 360.0, 5.0]))
  }

  // ---------------------------------------------------------------- the axis letter

  /** `int(args.axis[0]) - 1`. */
  function AxisIndex(axis0: real): int {
    Trunc(axis0) - 1
  }

  /** `'xyz'[axis_ind]`, with Python's negative indexing. */
  function AxisLetter(axis0: real): (r: Result<char>)
    ensures r.Ok? <==> -3 <= AxisIndex(axis0) < 3
    ensures r.Ok? ==> r.value == "xyz"[(AxisIndex(axis0) + 3) % 3]
    ensures r.Err? ==> r.error == IndexError
  {
    match PyIndex("xyz", AxisIndex(axis0))
    case Some(c) => Ok(c)
    case None => Err(IndexError)
  }

  /** 1, 2 and 3 select x, y and z. The default 0 and the values -1 and -2 give
      the indices -1, -2 and -3, which select z, y and x. 4 and -3 (indices 3
      and -4) are out of range. A fraction is cut toward zero: 1.9 selects x
      and -0.5 selects z. */
  lemma AxisSelection()
    ensures AxisLetter(1.0) == Ok('x') && AxisLetter(2.0) == Ok('y') && AxisLetter(3.0) == Ok('z')
    ensures AxisLetter(0.0) == Ok('z') && AxisLetter(-1.0) == Ok('y') && AxisLetter(-2.0) == Ok('x')
    ensures AxisLetter(4.0) == Err(IndexError) && AxisLetter(-3.0) == Err(IndexError)
    ensures AxisLetter(1.9) == Ok('x') && AxisLetter(-0.5) == Ok('z')
  {
    assert Trunc(1.9) == 1;
    assert Trunc(-0.5) == 0;
  }

  // ---------------------------------------------------------------- the angles

  /** `math.ceil(x)`. */
  function Ceil(x: real): (n: int)
    ensures n as real - 1.0 < x <= n as real
  {
    -((-x).Floor)
  }

  /** The length of `np.arange(begin, end, step)`: `ceil((end - begin) / step)`, at least 0. */
  function ArangeLength(begin: real, end: real, step: real): nat
    requires step != 0.0
  {
    var n := Ceil((end - begin) / step);
    if n < 0 then 0 else n
  }

  /** `np.arange(begin, end, step)`; a zero step divides by zero. */
  function Arange(begin: real, end: real, step: real): (r: Result<seq<real>>)
    ensures r.Err? <==> step == 0.0
    ensures r.Err? ==> r.error == ZeroDivisionError
    ensures r.Ok? ==> |r.value| == if Ceil((end - begin) / step) < 0 then 0 else Ceil((end - begin) / step)
    ensures r.Ok? ==> forall k :: 0 <= k < |r.value| ==> r.value[k] == begin + k as real * step
  {
    if step == 0.0 then Err(ZeroDivisionError)
    else
      var n := ArangeLength(begin, end, step);
      Ok(seq(n, k requires 0 <= k < n => begin + k as real * step))
  }

  /** A positive step gives every angle from `begin` up to, and strictly below,
      `end`: each listed angle is below `end`, the next one would not be. */
  lemma {:induction false} ArangeStopsBeforeEnd(begin: real, end: real, step: real)
    requires step > 0.0
    ensures var a := Arange(begin, end, step).value;
      && (forall k :: 0 <= k < |a| ==> a[k] < end)
      && begin + |a| as real * step >= end
  {
    var a := Arange(begin, end, step).value;
    var q := (end - begin) / step;
    assert q * step == end - begin;
    var n := Ceil(q);
    forall k | 0 <= k < |a|
      ensures a[k] < end
    {
      assert (k as real) < q;
      MultiplyStrict(k as real, q, step);
    }
    if n >= 0 {
      assert |a| == n && q <= n as real;
      MultiplyWeak(q, n as real, step);
    } else {
      assert |a| == 0 && q < 0.0;
    }
  }

  /** A negative step counts down: every listed angle is above `end`, the next
      one would not be. */
  lemma {:induction false} ArangeStopsAboveEnd(begin: real, end: real, step: real)
    requires step < 0.0
    ensures var a := Arange(begin, end, step).value;
      && (forall k :: 0 <= k < |a| ==> a[k] > end)
      && begin + |a| as real * step <= end
  {
    var a := Arange(begin, end, step).value;
    var q := (end - begin) / step;
    assert q * step == end - begin;
    var n := Ceil(q);
    forall k | 0 <= k < |a|
      ensures a[k] > end
    {
      assert (k as real) < q;
      MultiplyStrict(k as real, q, -step);
    }
    if n >= 0 {
      assert |a| == n && q <= n as real;
      MultiplyWeak(q, n as real, -step);
    } else {
      assert |a| == 0 && q < 0.0;
    }
  }

  lemma MultiplyStrict(x: real, y: real, s: real)
    requires x < y && s > 0.0
    ensures x * s < y * s
  {
  }

  lemma MultiplyWeak(x: real, y: real, s: real)
    requires x <= y && s > 0.0
    ensures x * s <= y * s
  {
  }

  /** The default sweep turns about z through 72 angles, 0, 5, ..., 355 degrees, at 10 frames a second. */
  lemma DefaultSweep()
    ensures AxisFlagsOf(None, None) == AxisFlags(10, [0.0, 0.0, 360.0, 5.0])
    ensures AxisLetter(0.0) == Ok('z')
    ensures var a := Arange(0.0, 360.0, 5.0).value;
      && |a| == 72 && a[0] == 0.0 && a[71] == 355.0
      && forall k :: 0 <= k < 72 ==> a[k] == 5.0 * k as real
  {
    assert 360.0 / 5.0 == 72.0;
    assert Ceil(72.0) == 72;
  }

  // ---------------------------------------------------------------- one frame

  /** The Euler angles of the sweep about one axis composed with the object's rotation. */
  type Sweep = (char, real, Vec3) -> Vec3

  /** `[*args.pose[:3], *rot]`: the translation kept, the rotation replaced. */
  function FramePose(pose: Six, letter: char, angle: real, sweep: Sweep): (p: Six)
    ensures p[..3] == pose[..3]
    ensures p[3..] == sweep(letter, angle, pose[3..])
  {
    pose[..3] + sweep(letter, angle, pose[3..])
  }

  /** Frame k: the scene of the points as they are after k + 1 in-place
      scalings, posed for the k-th angle. */
  function FrameScene(t0: Rows, cols: nat, k: nat, angle: real, letter: char, cfgs: Scene, opts: Options,
                      sweep: Sweep, rotate: Rotation): Result<Scene>
    requires IsTable(t0, cols)
  {
    var scaled := ScaleXyz(t0, Power(opts.scale, k + 1));
    SceneOf(scaled, cols, [opts.view], FramePose(opts.pose, letter, angle, sweep), cfgs, opts, rotate)
  }

  /** Frame k is the scene built from the rows scaled k + 1 times. */
  lemma FrameSceneOf(t0: Rows, cols: nat, k: nat, angle: real, letter: char, cfgs: Scene, opts: Options,
                     sweep: Sweep, rotate: Rotation, scaled: Rows, scene: Result<Scene>)
    requires IsTable(t0, cols)
    requires scaled == ScaleXyz(t0, Power(opts.scale, k + 1))
    requires scene == SceneOf(scaled, cols, [opts.view], FramePose(opts.pose, letter, angle, sweep), cfgs, opts, rotate)
    ensures FrameScene(t0, cols, k, angle, letter, cfgs, opts, sweep, rotate) == scene
  {
  }

  /** `s ** n`. */
  function Power(s: real, n: nat): real {
    if n == 0 then 1.0 else s * Power(s, n - 1)
  }

  /** Scaling by s^k and then by s is scaling by s^(k+1): the in-place
      scalings of successive frames compound. */
  lemma ScaleOnceMore(t0: Rows, s: real, k: nat)
    ensures ScaleXyz(ScaleXyz(t0, Power(s, k)), s) == ScaleXyz(t0, Power(s, k + 1))
  {
    var p := Power(s, k);
    ScaleXyzTwice(t0, p, s);
    assert Power(s, k + 1) == s * p;
  }

  /** With the default scale 1 every frame sees the points as loaded. */
  lemma UnitScaleKeepsPoints(t0: Rows, n: nat)
    ensures Power(1.0, n) == 1.0
    ensures ScaleXyz(t0, Power(1.0, n)) == t0
  {
    ScaleXyzOne(t0);
  }

  // ---------------------------------------------------------------- main

  /** `main`: the input must exist and be a `.npy` file (`points` is what
      `np.load` reads); the angles and the axis letter are computed before the
      first frame; each frame builds a scene from the SAME array, which
      `build_scene` scales again; finally the output path with suffix 'gif'.
      The result holds the frames in angle order and the output path. */
  method AnimateAxis(args: Args, cfgs: Config, points: array2<real>, fileExists: Paths.Path -> bool,
                     isDir: Paths.Path -> bool, pathExists: Paths.Path -> bool, elapsed: real,
                     sweep: Sweep, rotate: Rotation)
    returns (r: Result<(seq<Scene>, string)>)
    requires args.opts.flags.AxisFlags?
    modifies points, args`output
    ensures args.opts.file.None? ==> r == Err(AttributeError)
    ensures args.opts.file.Some? && !fileExists(args.opts.file.value) ==> r == Err(AssertionError)
    ensures (args.opts.file.Some? && fileExists(args.opts.file.value) &&
             Paths.SuffixOf(Paths.Name(args.opts.file.value)) != ".npy") ==> r == Err(NotImplementedError)
    ensures var axis := args.opts.flags.axis;
      r.Ok? ==>
        && Arange(axis[1], axis[2], axis[3]).Ok? && AxisLetter(axis[0]).Ok?
        && var angles, letter := Arange(axis[1], axis[2], axis[3]).value, AxisLetter(axis[0]).value;
        && |r.value.0| == |angles|
        && (forall k :: 0 <= k < |angles| ==>
             FrameScene(old(Table(points)), points.Length1, k, angles[k], letter, cfgs.entries, args.opts, sweep, rotate)
               == Ok(r.value.0[k]))
        && Table(points) == ScaleXyz(old(Table(points)), Power(args.opts.scale, |angles|))
        && args.output == RetargetedOutput(old(args.output), args.opts.file, isDir)
        && Ok(r.value.1) == OutputPathOf(old(args.output), args.opts.file, "gif", isDir, pathExists, elapsed)
    ensures var axis := args.opts.flags.axis;
      r.Err? && args.opts.file.Some? && fileExists(args.opts.file.value) &&
      Paths.SuffixOf(Paths.Name(args.opts.file.value)) == ".npy" ==>
        || (Arange(axis[1], axis[2], axis[3]).Err? && r.error == ZeroDivisionError)
        || (Arange(axis[1], axis[2], axis[3]).Ok? && AxisLetter(axis[0]).Err? && r.error == IndexError)
        || (Arange(axis[1], axis[2], axis[3]).Ok? && AxisLetter(axis[0]).Ok? &&
            var angles, letter := Arange(axis[1], axis[2], axis[3]).value, AxisLetter(axis[0]).value;
            || (exists k :: 0 <= k < |angles| &&
                 FrameScene(old(Table(points)), points.Length1, k, angles[k], letter, cfgs.entries, args.opts, sweep, rotate)
                   == Err(r.error))
            || OutputPathOf(old(args.output), args.opts.file, "gif", isDir, pathExists, elapsed) == Err(r.error))
  {
    if args.opts.file.None? {
      return Err(AttributeError);  // None.exists()
    }
    var file := args.opts.file.value;
    if !fileExists(file) {
      return Err(AssertionError);
    }
    var loaded := LoadPoints(file, _ => points);
    if loaded.Err? {
      return Err(loaded.error);
    }
    var axis := args.opts.flags.axis;
    var angles :- Arange(axis[1], axis[2], axis[3]);
    var letter :- AxisLetter(axis[0]);
    var frames :- RenderFrames(points, angles, letter, cfgs, args, sweep, rotate);
    var output := GetOutputPath(args, "gif", isDir, pathExists, elapsed);
    if output.Err? {
      return Err(output.error);
    }
    r := Ok((frames, output.value));
  }

  /** The frames so far are the scenes of the first |frames| angles. */
  ghost predicate FramesMatch(t0: Rows, cols: nat, angles: seq<real>, letter: char, cfgs: Scene, opts: Options,
                              sweep: Sweep, rotate: Rotation, frames: seq<Scene>)
    requires IsTable(t0, cols)
  {
    |frames| <= |angles| &&
    forall k :: 0 <= k < |frames| ==> FrameScene(t0, cols, k, angles[k], letter, cfgs, opts, sweep, rotate) == Ok(frames[k])
  }

  lemma FramesMatchExtend(t0: Rows, cols: nat, angles: seq<real>, letter: char, cfgs: Scene, opts: Options,
                          sweep: Sweep, rotate: Rotation, frames: seq<Scene>, scene: Scene)
    requires IsTable(t0, cols)
    requires FramesMatch(t0, cols, angles, letter, cfgs, opts, sweep, rotate, frames)
    requires |frames| < |angles|
    requires FrameScene(t0, cols, |frames|, angles[|frames|], letter, cfgs, opts, sweep, rotate) == Ok(scene)
    ensures FramesMatch(t0, cols, angles, letter, cfgs, opts, sweep, rotate, frames + [scene])
  {
  }

  /** The loop of lines 26-36: one scene per angle, in angle order, every
      frame scaling the same array once more; the first failing frame stops it. */
  method RenderFrames(points: array2<real>, angles: seq<real>, letter: char, cfgs: Config, args: Args,
                      sweep: Sweep, rotate: Rotation)
    returns (r: Result<seq<Scene>>)
    modifies points
    ensures r.Ok? ==>
      && |r.value| == |angles|
      && (forall k :: 0 <= k < |angles| ==>
           FrameScene(old(Table(points)), points.Length1, k, angles[k], letter, cfgs.entries, args.opts, sweep, rotate)
             == Ok(r.value[k]))
      && Table(points) == ScaleXyz(old(Table(points)), Power(args.opts.scale, |angles|))
    ensures r.Err? ==>
      exists k :: 0 <= k < |angles| &&
        FrameScene(old(Table(points)), points.Length1, k, angles[k], letter, cfgs.entries, args.opts, sweep, rotate)
          == Err(r.error)
  {
    ghost var t0 := Table(points);
    ScaleXyzOne(t0);
    var frames: seq<Scene> := [];
    for k := 0 to |angles|
      invariant |frames| == k
      invariant Table(points) == ScaleXyz(t0, Power(args.opts.scale, k))
      invariant FramesMatch(t0, points.Length1, angles, letter, cfgs.entries, args.opts, sweep, rotate, frames)
    {
      var pose := FramePose(args.opts.pose, letter, angles[k], sweep);
      var scene := BuildScene(points, [args.opts.view], pose, cfgs, args, rotate);
      ScaleOnceMore(t0, args.opts.scale, k);
      assert Table(points) == ScaleXyz(t0, Power(args.opts.scale, k + 1));
      FrameSceneOf(t0, points.Length1, k, angles[k], letter, cfgs.entries, args.opts, sweep, rotate, Table(points), scene);
      if scene.Err? {
        return Err(scene.error);
      }
      FramesMatchExtend(t0, points.Length1, angles, letter, cfgs.entries, args.opts, sweep, rotate, frames, scene.value);
      frames := frames + [scene.value];
    }
    r := Ok(frames);
  }
}
