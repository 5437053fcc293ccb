/** `scripts/renderer/wrapper.py`: the scene description handed to the
    renderer. Transforms are records of their arguments (SceneDict), the
    rotation of `rotate_points` is an uninterpreted function, and a
    colour-map lookup is a record of the map and the values fed to it. */
module Wrapper {
  import opened Py
  import opened SceneDict
  import opened Args
  import Paths

  /** An N x C array as its rows. */
  type Rows = seq<seq<real>>

  /** Every row holds the three coordinates x, y, z first. */
  predicate HasXyz(points: Rows) {
    forall i :: 0 <= i < |points| ==> |points[i]| >= 3
  }

  /** Every row has exactly `cols` entries, as in a numpy array. */
  predicate IsTable(points: Rows, cols: nat) {
    forall i :: 0 <= i < |points| ==> |points[i]| == cols
  }

  /** The rows of a 2-D array. */
  function Table(a: array2<real>): (t: Rows)
    reads a
    ensures IsTable(t, a.Length1) && |t| == a.Length0
    ensures forall i, j :: 0 <= i < a.Length0 && 0 <= j < a.Length1 ==> t[i][j] == a[i, j]
  {
    seq(a.Length0, i requires 0 <= i < a.Length0 reads a =>
      seq(a.Length1, j requires 0 <= j < a.Length1 reads a => a[i, j]))
  }

  // ---------------------------------------------------------------- rotate_points

  /** `Rotation.from_euler('xyz', angles, degrees=True)` applied to one coordinate triple. */
  type Rotation = (Vec3, Vec3) -> Vec3

  /** `rotate_points`: the first three columns of every row are rotated and the
      remaining columns are kept; fewer than three columns cannot meet the
      3 x 3 matrix, and numpy raises ValueError. */
  function RotatePoints(points: Rows, cols: nat, angles: Vec3, rotate: Rotation): (r: Result<Rows>)
    requires IsTable(points, cols)
    ensures r.Ok? <==> cols >= 3
    ensures r.Ok? ==> |r.value| == |points| && IsTable(r.value, cols)
    ensures r.Ok? ==> forall i :: 0 <= i < |points| ==>
      r.value[i][..3] == rotate(angles, points[i][..3]) && r.value[i][3..] == points[i][3..]
    ensures r.Err? ==> r.error == ValueError
  {
    if cols < 3 then Err(ValueError)
    else Ok(seq(|points|, i requires 0 <= i < |points| => rotate(angles, points[i][..3]) + points[i][3..]))
  }

  /** `xyz *= scale` on the rows: the first three columns are scaled, the others kept. */
  function ScaleXyz(points: Rows, s: real): (scaled: Rows)
    ensures |scaled| == |points| && forall i :: 0 <= i < |points| ==> |scaled[i]| == |points[i]|
  {
    seq(|points|, i requires 0 <= i < |points| =>
      seq(|points[i]|, j requires 0 <= j < |points[i]| => if j < 3 then s * points[i][j] else points[i][j]))
  }

  /** Scaling in place twice is scaling once by the product: repeated calls compound. */
  lemma ScaleXyzTwice(points: Rows, a: real, b: real)
    ensures ScaleXyz(ScaleXyz(points, a), b) == ScaleXyz(points, b * a)
  {
    var l, r := ScaleXyz(ScaleXyz(points, a), b), ScaleXyz(points, b * a);
    forall i | 0 <= i < |points|
      ensures l[i] == r[i]
    {
      assert forall j :: 0 <= j < |points[i]| && j < 3 ==> l[i][j] == b * (a * points[i][j]) == r[i][j];
    }
  }

  /** Scaling by 1 leaves the rows as they are (the default `--scale`). */
  lemma ScaleXyzOne(points: Rows)
    ensures ScaleXyz(points, 1.0) == points
  {
    var r := ScaleXyz(points, 1.0);
    forall i | 0 <= i < |points|
      ensures r[i] == points[i]
    {
    }
  }

  // ---------------------------------------------------------------- create_environment

  /** The default camera: at (0, 2.5, 1.5) looking at the origin. */
  const DefaultViews: seq<seq<real>> := [[0.0, 2.5, 1.5, 0.0, 0.0, 0.0]]

  function SensorKey(i: nat): string {
    "sensor_" + NatToStr(i)
  }

  /** A camera key determines its index. */
  lemma SensorKeyInjective(a: nat, b: nat)
    requires SensorKey(a) == SensorKey(b)
    ensures a == b
  {
    assert SensorKey(a)[7..] == NatToStr(a);
    assert SensorKey(b)[7..] == NatToStr(b);
    NatToStrInjective(a, b);
  }

  /** Two different indices never share a camera key. */
  lemma SensorKeysDiffer(a: nat, b: nat)
    requires a != b
    ensures SensorKey(a) != SensorKey(b)
  {
    if SensorKey(a) == SensorKey(b) {
      SensorKeyInjective(a, b);
    }
  }

  /** One camera of `views_dict`. */
  function Sensor(view: seq<real>, settings: Scene): Value {
    Dict(map[
      "type" := Str("perspective"),
      "near_clip" := Real(0.1),
      "far_clip" := Real(100.0),
      "to_world" := Xform(LookAt(Reals(Take(view, 3)), Reals(Drop(view, 3)), Ints([0, 0, 1]))),
      "film" := Dict(map[
        "type" := Str("hdrfilm"),
        "width" := Get(settings, "width", Int(1920)),
        "height" := Get(settings, "height", Int(1080)),
        "rfilter" := Dict(map["type" := Str("gaussian")])
      ]),
      "sampler" := Dict(map[
        "type" := Str("independent"),
        "sample_count" := Get(settings, "sample", Int(1))
      ])
    ])
  }

  /** A camera looks from `view[:3]` at `view[3:]` with z up; its film size and
      sample count are the settings when supplied and 1920 x 1080 with one
      sample otherwise. */
  lemma SensorHonoursSettings(view: seq<real>, settings: Scene)
    ensures Sensor(view, settings).Dict?
    ensures var e := Sensor(view, settings).entries;
      && At(e, ["to_world"]) == Some(Xform(LookAt(Reals(Take(view, 3)), Reals(Drop(view, 3)), Ints([0, 0, 1]))))
      && TakesSetting(At(e, ["film", "width"]), settings, "width", Int(1920))
      && TakesSetting(At(e, ["film", "height"]), settings, "height", Int(1080))
      && TakesSetting(At(e, ["sampler", "sample_count"]), settings, "sample", Int(1))
  {
  }

  /** The keys of the first n cameras. */
  function SensorKeys(n: nat): (keys: set<string>)
    ensures forall i: nat :: i < n ==> SensorKey(i) in keys
  {
    if n == 0 then {} else SensorKeys(n - 1) + {SensorKey(n - 1)}
  }

  /** Every key among the first n camera keys belongs to one of the first n views. */
  lemma {:induction false} SensorKeysOnly(n: nat, k: string)
    requires k in SensorKeys(n)
    ensures exists i: nat :: i < n && k == SensorKey(i)
  {
    if k != SensorKey(n - 1) {
      SensorKeysOnly(n - 1, k);
    }
  }

  /** The camera of every view, in the order of `enumerate(views)`. */
  function Cameras(views: seq<seq<real>>, settings: Scene): seq<Value> {
    seq(|views|, i requires 0 <= i < |views| => Sensor(views[i], settings))
  }

  /** `views_dict` for the first n cameras (SensorsKeys: one key per camera;
      SensorsHold: camera i under `sensor_<i>`). */
  function Sensors(cameras: seq<Value>, n: nat): Scene
    requires n <= |cameras|
  {
    if n == 0 then map[]
    else Sensors(cameras, n - 1)[SensorKey(n - 1) := cameras[n - 1]]
  }

  /** The first n cameras give the first n camera keys. */
  lemma {:induction false} SensorsKeys(cameras: seq<Value>, n: nat)
    requires n <= |cameras|
    ensures Sensors(cameras, n).Keys == SensorKeys(n)
  {
    if n > 0 {
      SensorsKeys(cameras, n - 1);
    }
  }

  /** Camera i sits under `sensor_<i>`: no later camera overwrites it. */
  lemma {:induction false} SensorsHold(cameras: seq<Value>, n: nat, i: nat)
    requires i < n <= |cameras|
    ensures SensorKey(i) in Sensors(cameras, n)
    ensures Sensors(cameras, n)[SensorKey(i)] == cameras[i]
  {
    if i < n - 1 {
      SensorsHold(cameras, n - 1, i);
      SensorKeysDiffer(i, n - 1);
    }
  }

  /** The path tracer. */
  function Integrator(settings: Scene): Value {
    Dict(map["type" := Str("path"), "max_depth" := Get(settings, "max_depth", Int(-1))])
  }

  /** The area light. */
  function AreaEmitter(settings: Scene): Value {
    var size := Get(settings, "light_size", Int(10));
    Dict(map[
      "type" := Str("rectangle"),
      "to_world" := Xform(Then(
        LookAt(List([Int(0), Int(0), Get(settings, "light_z", Int(20))]), Ints([0, 0, 0]), Ints([1, 0, 0])),
        Scale(List([size, size, Int(1)])))),
      "emitter" := Dict(map[
        "type" := Str("area"),
        "radiance" := Dict(map["type" := Str("spectrum"), "value" := Get(settings, "light_power", Int(6))])
      ])
    ])
  }

  /** The path tracer has unlimited depth (-1) unless `max_depth` is supplied; the
      light is a square of side `light_size` (10) at height `light_z` (20) facing
      the origin, radiating `light_power` (6). */
  lemma LightingHonoursSettings(settings: Scene)
    ensures Integrator(settings).Dict? && AreaEmitter(settings).Dict?
    ensures TakesSetting(At(Integrator(settings).entries, ["max_depth"]), settings, "max_depth", Int(-1))
    ensures TakesSetting(At(AreaEmitter(settings).entries, ["emitter", "radiance", "value"]), settings, "light_power", Int(6))
    ensures var size := Get(settings, "light_size", Int(10));
      At(AreaEmitter(settings).entries, ["to_world"]) == Some(Xform(Then(
        LookAt(List([Int(0), Int(0), Get(settings, "light_z", Int(20))]), Ints([0, 0, 0]), Ints([1, 0, 0])),
        Scale(List([size, size, Int(1)])))))
  {
  }

  /** The fixed keys of the environment, next to the sensors. */
  const FixedKeys: set<string> := {"type", "integer", "emitter", MaterialId}

  /** `create_environment(**kwargs)`: `settings` are the keyword arguments other
      than `views`, and `views` the views when given. The environment holds the
      integrator, the light, the material and exactly one camera per view; no
      camera is overwritten by a fixed entry. */
  function CreateEnvironment(settings: Scene, views: Option<seq<seq<real>>>): Scene {
    var vs := views.GetOr(DefaultViews);
    EnvironmentOf(Integrator(settings), AreaEmitter(settings), Cameras(vs, settings), RoughPlastic())
  }

  /** The dict display of lines 80-86 over its parts:
      `{"type": "scene", "integer": ..., "emitter": ..., **views_dict, **material}`. */
  function EnvironmentOf(integer: Value, emitter: Value, cameras: seq<Value>, material: Value): Scene {
    map["type" := Str("scene"), "integer" := integer, "emitter" := emitter]
      + Sensors(cameras, |cameras|)
      + map[MaterialId := material]
  }

  /** The display's keys are the fixed ones and one per camera. */
  lemma EnvironmentOfKeys(integer: Value, emitter: Value, cameras: seq<Value>, material: Value)
    ensures EnvironmentOf(integer, emitter, cameras, material).Keys == FixedKeys + SensorKeys(|cameras|)
  {
    SensorsKeys(cameras, |cameras|);
    FixedEntryKeys(integer, emitter, material);
    MergedKeys(map["type" := Str("scene"), "integer" := integer, "emitter" := emitter],
               Sensors(cameras, |cameras|), map[MaterialId := material]);
  }

  /** The entries around the cameras have the fixed keys. */
  lemma FixedEntryKeys(integer: Value, emitter: Value, material: Value)
    ensures map["type" := Str("scene"), "integer" := integer, "emitter" := emitter].Keys
      + map[MaterialId := material].Keys == FixedKeys
  {
  }

  /** The keys of two merges: the middle keys can be taken out last. */
  lemma MergedKeys<K, V>(a: map<K, V>, b: map<K, V>, c: map<K, V>)
    ensures (a + b + c).Keys == (a.Keys + c.Keys) + b.Keys
  {
  }

  /** No camera overwrites the scene type, the integrator or the light. */
  lemma EnvironmentOfFixed(integer: Value, emitter: Value, cameras: seq<Value>, material: Value)
    ensures var env := EnvironmentOf(integer, emitter, cameras, material);
      && env["type"] == Str("scene") && env["integer"] == integer
      && env["emitter"] == emitter && env[MaterialId] == material
  {
    SensorKeysNotFixed(|cameras|);
    SensorsKeys(cameras, |cameras|);
  }

  lemma EnvironmentOfCamera(integer: Value, emitter: Value, cameras: seq<Value>, material: Value, i: nat)
    requires i < |cameras|
    ensures var env := EnvironmentOf(integer, emitter, cameras, material);
      SensorKey(i) in env && env[SensorKey(i)] == cameras[i]
  {
    SensorKeysNotFixed(|cameras|);
    SensorsHold(cameras, |cameras|, i);
  }

  /** The environment's keys are the fixed ones and one per view, holding the
      scene type, the integrator, the light and the material. */
  lemma EnvironmentLayout(settings: Scene, views: Option<seq<seq<real>>>)
    ensures var env, vs := CreateEnvironment(settings, views), views.GetOr(DefaultViews);
      && env.Keys == FixedKeys + SensorKeys(|vs|)
      && env["type"] == Str("scene") && env["integer"] == Integrator(settings)
      && env["emitter"] == AreaEmitter(settings) && env[MaterialId] == RoughPlastic()
  {
    var vs := views.GetOr(DefaultViews);
    EnvironmentOfKeys(Integrator(settings), AreaEmitter(settings), Cameras(vs, settings), RoughPlastic());
    EnvironmentOfFixed(Integrator(settings), AreaEmitter(settings), Cameras(vs, settings), RoughPlastic());
  }

  /** The environment holds view i's camera under `sensor_<i>`. */
  lemma EnvironmentCamera(settings: Scene, views: Option<seq<seq<real>>>, i: nat)
    requires i < |views.GetOr(DefaultViews)|
    ensures var env, vs := CreateEnvironment(settings, views), views.GetOr(DefaultViews);
      SensorKey(i) in env && env[SensorKey(i)] == Sensor(vs[i], settings)
  {
    var vs := views.GetOr(DefaultViews);
    EnvironmentOfCamera(Integrator(settings), AreaEmitter(settings), Cameras(vs, settings), RoughPlastic(), i);
  }

  /** A camera key starts with "sensor_" and has a digit after it. */
  lemma SensorKeyShape(i: nat)
    ensures |SensorKey(i)| >= 8 && SensorKey(i)[..7] == "sensor_" && IsDigit(SensorKey(i)[7])
  {
    assert SensorKey(i)[7] == NatToStr(i)[0];
  }

  /** No camera key is one of the fixed keys, so no camera is overwritten. */
  lemma SensorKeysNotFixed(n: nat)
    ensures "type" !in SensorKeys(n) && "integer" !in SensorKeys(n)
    ensures "emitter" !in SensorKeys(n) && MaterialId !in SensorKeys(n)
    ensures SensorKeys(n) * FixedKeys == {}
  {
    forall k | k in FixedKeys
      ensures k !in SensorKeys(n)
    {
      if k in SensorKeys(n) {
        SensorKeysStart(n, k);
        assert false;
      }
    }
  }

  /** Every camera key starts with "sensor_" and has a digit after it. */
  lemma SensorKeysStart(n: nat, k: string)
    requires k in SensorKeys(n)
    ensures |k| >= 8 && k[..7] == "sensor_"
  {
    SensorKeysOnly(n, k);
    var i: nat :| i < n && k == SensorKey(i);
    SensorKeyShape(i);
  }

  /** Without `views`, the scene holds the single default camera `sensor_0`. */
  lemma NoViewsOneSensor(settings: Scene)
    ensures var env := CreateEnvironment(settings, None);
      && env.Keys == FixedKeys + {"sensor_0"}
      && At(env, ["sensor_0", "to_world"]) == Some(Xform(LookAt(Reals([0.0, 2.5, 1.5]), Reals([0.0, 0.0, 0.0]), Ints([0, 0, 1]))))
  {
    EnvironmentLayout(settings, None);
    EnvironmentCamera(settings, None, 0);
    assert SensorKeys(1) == {SensorKey(0)};
    assert SensorKey(0) == "sensor_0";
    var view := DefaultViews[0];
    SensorHonoursSettings(view, settings);
    DefaultViewEnds();
  }

  /** The default view looks from (0, 2.5, 1.5) at the origin. */
  lemma DefaultViewEnds()
    ensures Take(DefaultViews[0], 3) == [0.0, 2.5, 1.5] && Drop(DefaultViews[0], 3) == [0.0, 0.0, 0.0]
  {
  }

  /** Each view owns its own camera: two different views never share a key, so
      the environment has exactly as many cameras as there are views. */
  lemma {:induction false} OneSensorPerView(settings: Scene, views: seq<seq<real>>)
    ensures var env := CreateEnvironment(settings, Some(views));
      |env.Keys - FixedKeys| == |views|
  {
    EnvironmentLayout(settings, Some(views));
    SensorKeysNotFixed(|views|);
    RemoveDisjoint(FixedKeys, SensorKeys(|views|));
    SensorKeyCount(|views|);
  }

  /** The first n camera keys are n different strings. */
  lemma {:induction false} SensorKeyCount(n: nat)
    ensures |SensorKeys(n)| == n
  {
    if n > 0 {
      SensorKeyCount(n - 1);
      if SensorKey(n - 1) in SensorKeys(n - 1) {
        SensorKeysOnly(n - 1, SensorKey(n - 1));
        var i: nat :| i < n - 1 && SensorKey(i) == SensorKey(n - 1);
        SensorKeyInjective(i, n - 1);
      }
    }
  }

  lemma RemoveDisjoint<T>(a: set<T>, b: set<T>)
    requires b * a == {}
    ensures (a + b) - a == b
  {
    forall x | x in b
      ensures x !in a
    {
      assert x !in b * a;
    }
  }

  // ---------------------------------------------------------------- create_cloud: sources

  /** Where the colours of `create_cloud` come from. */
  datatype ColourSource =
      /** Three colour columns starting at the first "rgb" of the format. */
    | RgbColumns(start: nat)
      /** A colour map applied to the columns named by `--color_by`. */
    | FeatureColumns(start: nat, width: nat)
      /** A colour map applied to the positions, shifted to the box's corner. */
    | PositionColumns

  /** The colour precedence: "rgb" in the format wins; then a non-empty
      `color_by` that occurs in the format; then the positions. */
  function ColourSourceOf(format: string, colorBy: Option<string>): (c: ColourSource)
    ensures c.RgbColumns? <==> Contains(format, "rgb")
    ensures c.RgbColumns? ==> FirstAt(format, "rgb", c.start)
    ensures c.FeatureColumns? <==>
      !Contains(format, "rgb") && colorBy.Some? && colorBy.value != "" && Contains(format, colorBy.value)
    ensures c.FeatureColumns? ==> FirstAt(format, colorBy.value, c.start) && c.width == |colorBy.value|
  {
    if Contains(format, "rgb") then
      var i := Find(format, "rgb");
      RgbColumns(i)
    else if colorBy.Some? && colorBy.value != "" && Contains(format, colorBy.value) then
      var i := Find(format, colorBy.value);
      FeatureColumns(i, |colorBy.value|)
    else PositionColumns
  }

  /** Where the radii of `create_cloud` come from. */
  datatype SizeSource =
    | GivenSize(radius: real)
    | SizeColumn(start: nat)
    | DefaultSize(radius: real)

  /** `if kwargs['point_size']`: set and not 0.0. */
  predicate Truthy(x: Option<real>) {
    x.Some? && x.value != 0.0
  }

  /** The size precedence: a truthy `point_size`; then the column of the first
      "s" in the format; then `default_point_size`. */
  function SizeSourceOf(opts: Options): (z: SizeSource)
    ensures z.GivenSize? <==> Truthy(opts.pointSize)
    ensures z.GivenSize? ==> z.radius == opts.pointSize.value
    ensures z.SizeColumn? <==> !Truthy(opts.pointSize) && Contains(opts.format, "s")
    ensures z.SizeColumn? ==> FirstAt(opts.format, "s", z.start)
    ensures z.DefaultSize? ==> z.radius == opts.defaultPointSize
  {
    if Truthy(opts.pointSize) then GivenSize(opts.pointSize.value)
    else if Contains(opts.format, "s") then
      var i := Find(opts.format, "s");
      SizeColumn(i)
    else DefaultSize(opts.defaultPointSize)
  }

  // ---------------------------------------------------------------- create_cloud: colours

  /** The colours as line 122 computes them: `points[ind:ind + 3]` selects
      ROWS, so there are at most three colours, each a whole row. */
  function RgbRowColours(points: Rows, start: nat): seq<Value> {
    var rows := Slice(points, start, start + 3);
    seq(|rows|, i requires 0 <= i < |rows| => Reals(rows[i]))
  }

  /** The colours as intended: columns `ind .. ind + 3` of every row. */
  function RgbColumnColours(points: Rows, start: nat): seq<Value> {
    seq(|points|, i requires 0 <= i < |points| => Reals(Slice(points[i], start, start + 3)))
  }

  /** A colour map over the `--color_by` columns; normalising by the largest
      norm needs at least one point (`np.amax` of nothing is a ValueError). */
  function FeatureColours(points: Rows, start: nat, width: nat, cmap: string, normalize: bool): Result<seq<Value>> {
    if normalize && |points| == 0 then Err(ValueError)
    else Ok(seq(|points|, i requires 0 <= i < |points| =>
      MappedColour(cmap, normalize, Reals(Slice(points[i], start, start + width)))))
  }

  /** `points[:, c]`. */
  function Column(points: Rows, c: nat): (col: seq<real>)
    requires forall i :: 0 <= i < |points| ==> c < |points[i]|
    ensures |col| == |points|
    ensures forall i :: 0 <= i < |points| ==> col[i] == points[i][c]
  {
    seq(|points|, i requires 0 <= i < |points| => points[i][c])
  }

  /** `np.amin(xyz, axis=0)`. */
  function Mins(points: Rows): (m: Vec3)
    requires HasXyz(points) && |points| > 0
    ensures forall c :: 0 <= c < 3 ==> m[c] == MinOf(Column(points, c))
  {
    seq(3, c requires 0 <= c < 3 => MinOf(Column(points, c)))
  }

  /** `maxs - mins`: the extents of the bounding box along x, y and z. */
  function Extents(points: Rows): (ext: Vec3)
    requires HasXyz(points) && |points| > 0
    ensures forall c :: 0 <= c < 3 ==> ext[c] == MaxOf(Column(points, c)) - MinOf(Column(points, c))
  {
    seq(3, c requires 0 <= c < 3 => MaxOf(Column(points, c)) - MinOf(Column(points, c)))
  }

  /** The largest of three numbers. */
  function Max3(v: Vec3): (m: real)
    ensures forall c :: 0 <= c < 3 ==> v[c] <= m
    ensures exists c :: 0 <= c < 3 && v[c] == m
  {
    if v[0] >= v[1] && v[0] >= v[2] then v[0]
    else if v[1] >= v[2] then v[1]
    else v[2]
  }

  /** `np.amax(maxs - mins)`: the largest extent of the bounding box. */
  function Extent(points: Rows): real
    requires HasXyz(points) && |points| > 0
  {
    Max3(Extents(points))
  }

  /** `(xyz - mins) / scale` for one point; a flat cloud divides 0 by 0, which is NaN. */
  function PositionFeed(row: seq<real>, mins: Vec3, extent: real): Value
    requires |row| >= 3
  {
    if extent == 0.0 then List([NaN, NaN, NaN])
    else Reals([(row[0] - mins[0]) / extent, (row[1] - mins[1]) / extent, (row[2] - mins[2]) / extent])
  }

  /** A colour map over the shifted positions; `np.amin` of no points is a ValueError. */
  function PositionColours(points: Rows, cmap: string, normalize: bool): Result<seq<Value>>
    requires HasXyz(points)
  {
    if |points| == 0 then Err(ValueError)
    else
      var mins, extent := Mins(points), Extent(points);
      Ok(seq(|points|, i requires 0 <= i < |points| => MappedColour(cmap, normalize, PositionFeed(points[i], mins, extent))))
  }

  /** Every shifted coordinate `xyz - mins` lies between 0 and the largest extent. */
  lemma {:induction false} ShiftedWithinExtent(points: Rows, i: nat, c: nat)
    requires HasXyz(points) && i < |points| && c < 3
    ensures 0.0 <= points[i][c] - Mins(points)[c] <= Extent(points)
  {
    var col := Column(points, c);
    assert MinOf(col) <= col[i] <= MaxOf(col);
    assert Extents(points)[c] == MaxOf(col) - MinOf(col);
  }

  /** The corner of the box and the far end of its widest axis are both attained:
      some point sits at the minimum of each axis, and some point is a full
      extent away from the minimum along one axis. */
  lemma {:induction false} ShiftedReachesBothEnds(points: Rows)
    requires HasXyz(points) && |points| > 0
    ensures forall c :: 0 <= c < 3 ==> exists i :: 0 <= i < |points| && points[i][c] == Mins(points)[c]
    ensures exists i, c :: 0 <= i < |points| && 0 <= c < 3 && points[i][c] - Mins(points)[c] == Extent(points)
  {
    forall c | 0 <= c < 3
      ensures exists i :: 0 <= i < |points| && points[i][c] == Mins(points)[c]
    {
      var i := LowestOnAxis(points, c);
      assert 0 <= i < |points| && points[i][c] == Mins(points)[c];
    }
    var c :| 0 <= c < 3 && Extents(points)[c] == Extent(points);
    var i := HighestOnAxis(points, c);
    assert 0 <= i < |points| && 0 <= c < 3 && points[i][c] - Mins(points)[c] == Extent(points);
  }

  /** A point whose coordinate c is the smallest. */
  lemma LowestOnAxis(points: Rows, c: nat) returns (i: nat)
    requires HasXyz(points) && |points| > 0 && c < 3
    ensures i < |points| && points[i][c] == Mins(points)[c]
  {
    var col := Column(points, c);
    i :| 0 <= i < |col| && col[i] == MinOf(col);
  }

  /** A point whose coordinate c is the largest: an extent along c above the lowest. */
  lemma HighestOnAxis(points: Rows, c: nat) returns (i: nat)
    requires HasXyz(points) && |points| > 0 && c < 3
    ensures i < |points| && points[i][c] - Mins(points)[c] == Extents(points)[c]
  {
    var col := Column(points, c);
    i :| 0 <= i < |col| && col[i] == MaxOf(col);
  }

  /** With a positive extent and shifted coordinates within it (as
      ShiftedWithinExtent gives), the colour map is fed values in [0, 1], and a
      coordinate a full extent away is fed exactly 1. */
  lemma PositionFeedInUnitCube(row: seq<real>, mins: Vec3, extent: real)
    requires |row| >= 3 && extent > 0.0
    requires forall c :: 0 <= c < 3 ==> 0.0 <= row[c] - mins[c] <= extent
    ensures var f := PositionFeed(row, mins, extent);
      && f.List? && |f.items| == 3
      && forall c :: 0 <= c < 3 ==> f.items[c].Real? && 0.0 <= f.items[c].r <= 1.0
    ensures forall c :: 0 <= c < 3 && row[c] - mins[c] == extent ==> PositionFeed(row, mins, extent).items[c] == Real(1.0)
  {
    var ratios := [(row[0] - mins[0]) / extent, (row[1] - mins[1]) / extent, (row[2] - mins[2]) / extent];
    forall c | 0 <= c < 3
      ensures ratios[c] == (row[c] - mins[c]) / extent
      ensures 0.0 <= ratios[c] <= 1.0
      ensures row[c] - mins[c] == extent ==> ratios[c] == 1.0
    {
      var x := row[c] - mins[c];
      assert ratios[c] == x / extent by {
        if c == 0 {} else if c == 1 {} else {}
      }
      UnitRatio(x, extent);
    }
  }

  /** A ratio of a number between 0 and a positive bound to that bound. */
  lemma UnitRatio(x: real, e: real)
    requires 0.0 <= x <= e && e > 0.0
    ensures 0.0 <= x / e <= 1.0
    ensures x == e ==> x / e == 1.0
  {
  }

  /** A flat cloud (no extent) feeds NaN for every point. */
  lemma FlatCloudFeedsNaN(points: Rows, i: nat)
    requires HasXyz(points) && i < |points| && Extent(points) == 0.0
    ensures PositionColours(points, "", false).Ok?
    ensures PositionColours(points, "", false).value[i].feed == List([NaN, NaN, NaN])
  {
  }

  /** The colours as intended, by the colour precedence. */
  function Colours(points: Rows, opts: Options): Result<seq<Value>>
    requires HasXyz(points)
  {
    match ColourSourceOf(opts.format, opts.colorBy)
    case RgbColumns(start) => Ok(RgbColumnColours(points, start))
    case FeatureColumns(start, width) => FeatureColours(points, start, width, opts.colorMap, opts.colorNormalize)
    case PositionColumns => PositionColours(points, opts.colorMap, opts.colorNormalize)
  }

  /** The colours as lines 120-137 compute them, with the row slice of line 122. */
  function ColoursAsWritten(points: Rows, opts: Options): Result<seq<Value>>
    requires HasXyz(points)
  {
    match ColourSourceOf(opts.format, opts.colorBy)
    case RgbColumns(start) => Ok(RgbRowColours(points, start))
    case FeatureColumns(start, width) => FeatureColours(points, start, width, opts.colorMap, opts.colorNormalize)
    case PositionColumns => PositionColours(points, opts.colorMap, opts.colorNormalize)
  }

  // ---------------------------------------------------------------- create_cloud: sizes and balls

  /** `sizes[idx]` for one row: a one-element array, or the (possibly empty) column slice. */
  function SizeEntry(row: seq<real>, z: SizeSource): seq<real> {
    match z
    case GivenSize(r) => [r]
    case SizeColumn(start) => Slice(row, start, start + 1)
    case DefaultSize(r) => [r]
  }

  function Sizes(points: Rows, z: SizeSource): (sizes: seq<seq<real>>)
    ensures |sizes| == |points|
    ensures forall i :: 0 <= i < |points| ==> sizes[i] == SizeEntry(points[i], z)
  {
    seq(|points|, i requires 0 <= i < |points| => SizeEntry(points[i], z))
  }

  /** What stops the loop at `idx`: `colors[idx]` out of range (IndexError), or
      `size.item()` on an entry that is not a single number (ValueError). */
  function FailureAt(colours: seq<Value>, sizes: seq<seq<real>>, idx: nat): Option<Error>
    requires idx < |sizes|
  {
    if idx >= |colours| then Some(IndexError)
    else if |sizes[idx]| != 1 then Some(ValueError)
    else None
  }

  /** The failure of the first index from `from` on that fails, if any. */
  function FirstFailure(colours: seq<Value>, sizes: seq<seq<real>>, from: nat): (r: Option<Error>)
    requires from <= |sizes|
    decreases |sizes| - from
    ensures r.None? <==> forall idx :: from <= idx < |sizes| ==> FailureAt(colours, sizes, idx).None?
    ensures r.Some? ==>
      exists idx :: from <= idx < |sizes| && r == FailureAt(colours, sizes, idx) &&
                    (forall j :: from <= j < idx ==> FailureAt(colours, sizes, j).None?)
  {
    if from == |sizes| then None
    else if FailureAt(colours, sizes, from).Some? then FailureAt(colours, sizes, from)
    else FirstFailure(colours, sizes, from + 1)
  }

  /** The keys `str(idx)` of the first n balls. */
  function IndexKeys(n: nat): (keys: set<string>)
    ensures forall i: nat :: i < n ==> NatToStr(i) in keys
  {
    if n == 0 then {} else IndexKeys(n - 1) + {NatToStr(n - 1)}
  }

  lemma {:induction false} IndexKeysOnly(n: nat, k: string)
    requires k in IndexKeys(n)
    ensures exists i: nat :: i < n && k == NatToStr(i)
  {
    if k != NatToStr(n - 1) {
      IndexKeysOnly(n - 1, k);
    }
  }

  /** A shapegroup of n balls has n + 1 keys. */
  lemma GroupKeyCount(n: nat)
    ensures |{"type"} + IndexKeys(n)| == n + 1
  {
    IndexKeyCount(n);
    assert {"type"} * IndexKeys(n) == {};
  }

  /** The first n ball keys are n different strings, none of them "type". */
  lemma {:induction false} IndexKeyCount(n: nat)
    ensures |IndexKeys(n)| == n
    ensures "type" !in IndexKeys(n)
  {
    if n > 0 {
      IndexKeyCount(n - 1);
      if NatToStr(n - 1) in IndexKeys(n - 1) {
        IndexKeysOnly(n - 1, NatToStr(n - 1));
        var i: nat :| i < n - 1 && NatToStr(i) == NatToStr(n - 1);
        NatToStrInjective(i, n - 1);
      }
      assert "type"[0] == 't';
      assert IsDigit(NatToStr(n - 1)[0]);
    }
  }

  /** A new index gives a key that none of the earlier indices has. */
  lemma IndexKeyFresh(n: nat)
    ensures forall i: nat :: i < n ==> NatToStr(i) != NatToStr(n)
    ensures "type" != NatToStr(n)
  {
    forall i: nat | i < n
      ensures NatToStr(i) != NatToStr(n)
    {
      if NatToStr(i) == NatToStr(n) {
        NatToStrInjective(i, n);
      }
    }
    assert "type"[0] == 't';
  }

  /** The ball for point idx. */
  function BallAt(points: Rows, colours: seq<Value>, sizes: seq<seq<real>>, idx: nat): Value
    requires idx < |points| && idx < |colours| && idx < |sizes| && |sizes[idx]| == 1
  {
    Ball(Reals(Take(points[idx], 3)), colours[idx], sizes[idx][0])
  }

  /** The shapegroup after the first n iterations (CollectorKeys: its type and
      one key per point so far; CollectorHoldsBall: the point's ball). */
  function Collector(points: Rows, colours: seq<Value>, sizes: seq<seq<real>>, n: nat): Scene
    requires n <= |points| && n <= |colours| && n <= |sizes|
    requires forall idx :: 0 <= idx < n ==> |sizes[idx]| == 1
  {
    if n == 0 then map["type" := Str("shapegroup")]
    else Collector(points, colours, sizes, n - 1)[NatToStr(n - 1) := BallAt(points, colours, sizes, n - 1)]
  }

  /** After n iterations the shapegroup holds its type and the keys "0" .. "n-1". */
  lemma {:induction false} CollectorKeys(points: Rows, colours: seq<Value>, sizes: seq<seq<real>>, n: nat)
    requires n <= |points| && n <= |colours| && n <= |sizes|
    requires forall i :: 0 <= i < n ==> |sizes[i]| == 1
    ensures Collector(points, colours, sizes, n).Keys == {"type"} + IndexKeys(n)
    ensures Collector(points, colours, sizes, n)["type"] == Str("shapegroup")
  {
    if n > 0 {
      CollectorKeys(points, colours, sizes, n - 1);
      IndexKeyNotType(n - 1);
    }
  }

  /** Point idx's ball sits under `str(idx)`: no later key overwrites it. */
  lemma {:induction false} CollectorHoldsBall(points: Rows, colours: seq<Value>, sizes: seq<seq<real>>, n: nat, idx: nat)
    requires n <= |points| && n <= |colours| && n <= |sizes|
    requires forall i :: 0 <= i < n ==> |sizes[i]| == 1
    requires idx < n
    ensures NatToStr(idx) in Collector(points, colours, sizes, n)
    ensures Collector(points, colours, sizes, n)[NatToStr(idx)] == BallAt(points, colours, sizes, idx)
  {
    if idx < n - 1 {
      CollectorHoldsBall(points, colours, sizes, n - 1, idx);
      IndexKeysDiffer(idx, n - 1);
    }
  }

  /** Different indices give different keys. */
  lemma IndexKeysDiffer(i: nat, n: nat)
    requires i != n
    ensures NatToStr(i) != NatToStr(n)
  {
    if NatToStr(i) == NatToStr(n) {
      NatToStrInjective(i, n);
    }
  }

  /** No index key is "type". */
  lemma IndexKeyNotType(n: nat)
    ensures NatToStr(n) != "type"
  {
    assert "type"[0] == 't';
  }

  /** No failure from 0 on means every point has a colour and a single radius. */
  lemma NoFailureMeansBallsFit(colours: seq<Value>, sizes: seq<seq<real>>)
    requires FirstFailure(colours, sizes, 0).None?
    ensures |sizes| <= |colours|
    ensures forall idx :: 0 <= idx < |sizes| ==> |sizes[idx]| == 1
  {
    if |sizes| > 0 {
      assert FailureAt(colours, sizes, |sizes| - 1).None?;
    }
    forall idx | 0 <= idx < |sizes|
      ensures |sizes[idx]| == 1
    {
      assert FailureAt(colours, sizes, idx).None?;
    }
  }

  /** The loop of lines 147-155: the shapegroup of balls wrapped in an instance,
      or the failure of the first point that has no colour or no single radius. */
  function Shapegroup(points: Rows, colours: seq<Value>, sizes: seq<seq<real>>): Result<Value>
    requires |sizes| == |points|
  {
    match FirstFailure(colours, sizes, 0)
    case Some(e) => Err(e)
    case None =>
      NoFailureMeansBallsFit(colours, sizes);
      Ok(Dict(PointsDict(Collector(points, colours, sizes, |points|))))
  }

  /** `create_cloud` with the given colours. */
  function CloudWith(points: Rows, opts: Options, colours: Result<seq<Value>>): Result<Value> {
    match colours
    case Err(e) => Err(e)
    case Ok(cs) => Shapegroup(points, cs, Sizes(points, SizeSourceOf(opts)))
  }

  /** `create_cloud` as intended (colour columns), used by the rest of the model. */
  function Cloud(points: Rows, opts: Options): Result<Value>
    requires HasXyz(points)
  {
    CloudWith(points, opts, Colours(points, opts))
  }

  /** `create_cloud` as written (colour rows). */
  function CloudAsWritten(points: Rows, opts: Options): Result<Value>
    requires HasXyz(points)
  {
    CloudWith(points, opts, ColoursAsWritten(points, opts))
  }

  /** Failures before `idx` being absent, the first failure from 0 on is the first from `idx` on. */
  lemma {:induction false} FirstFailureSkips(colours: seq<Value>, sizes: seq<seq<real>>, from: nat, idx: nat)
    requires from <= idx <= |sizes|
    requires forall j :: from <= j < idx ==> FailureAt(colours, sizes, j).None?
    ensures FirstFailure(colours, sizes, from) == FirstFailure(colours, sizes, idx)
    decreases idx - from
  {
    if from < idx {
      FirstFailureSkips(colours, sizes, from + 1, idx);
    }
  }

  /** `create_cloud`: the colours and radii by their precedence, then one ball
      per point added to the shapegroup in index order; the first point without
      a colour (IndexError) or without a single radius (ValueError) stops it. */
  method CreateCloud(points: Rows, opts: Options) returns (r: Result<Value>)
    requires HasXyz(points)
    ensures r == Cloud(points, opts)
  {
    var colours :- Colours(points, opts);
    var sizes := Sizes(points, SizeSourceOf(opts));
    r := CollectBalls(points, colours, sizes);
  }

  /** The loop of `create_cloud`, over the colours and radii chosen before it. */
  method CollectBalls(points: Rows, colours: seq<Value>, sizes: seq<seq<real>>) returns (r: Result<Value>)
    requires |sizes| == |points|
    ensures r == Shapegroup(points, colours, sizes)
  {
    var collector: Scene := map["type" := Str("shapegroup")];
    for idx := 0 to |points|
      invariant idx <= |colours|
      invariant forall j :: 0 <= j < idx ==> FailureAt(colours, sizes, j).None?
      invariant forall j :: 0 <= j < idx ==> |sizes[j]| == 1
      invariant collector == Collector(points, colours, sizes, idx)
    {
      if idx >= |colours| {
        FirstFailureSkips(colours, sizes, 0, idx);
        return Err(IndexError);
      }
      if |sizes[idx]| != 1 {
        FirstFailureSkips(colours, sizes, 0, idx);
        return Err(ValueError);
      }
      collector := collector[NatToStr(idx) := BallAt(points, colours, sizes, idx)];
    }
    r := Ok(Dict(PointsDict(collector)));
  }

  /** The radius of point i under a size source. */
  function RadiusOf(row: seq<real>, z: SizeSource): real
    requires z.SizeColumn? ==> z.start < |row|
  {
    match z
    case GivenSize(r) => r
    case SizeColumn(start) => row[start]
    case DefaultSize(r) => r
  }

  /** Where the row reaches the size column, its size entry is its one radius. */
  lemma SizeEntryIsRadius(row: seq<real>, z: SizeSource)
    requires z.SizeColumn? ==> z.start < |row|
    ensures SizeEntry(row, z) == [RadiusOf(row, z)]
  {
  }

  /** The intended colours exist for every point, unless there are no points and
      a colour map must scan them (the positions always, a feature only when
      normalising). */
  lemma ColoursFailIff(points: Rows, opts: Options)
    requires HasXyz(points)
    ensures Colours(points, opts).Ok? ==> |Colours(points, opts).value| == |points|
    ensures Colours(points, opts).Err? <==>
      |points| == 0 && match ColourSourceOf(opts.format, opts.colorBy)
        case RgbColumns(_) => false
        case FeatureColumns(_, _) => opts.colorNormalize
        case PositionColumns => true
    ensures Colours(points, opts).Err? ==> Colours(points, opts).error == ValueError
  {
  }

  /** The loop succeeds exactly when every point has a colour and a single
      radius; a missing radius is then the only way it can fail. */
  lemma {:induction false} ShapegroupFailsIff(points: Rows, colours: seq<Value>, sizes: seq<seq<real>>)
    requires |sizes| == |points|
    ensures Shapegroup(points, colours, sizes).Ok? <==>
      |points| <= |colours| && forall i :: 0 <= i < |points| ==> |sizes[i]| == 1
    ensures |points| <= |colours| && Shapegroup(points, colours, sizes).Err? ==>
      Shapegroup(points, colours, sizes).error == ValueError
  {
    if FirstFailure(colours, sizes, 0).None? {
      NoFailureMeansBallsFit(colours, sizes);
    } else {
      var idx :| 0 <= idx < |sizes| && FirstFailure(colours, sizes, 0) == FailureAt(colours, sizes, idx);
      if |points| <= |colours| {
        assert |sizes[idx]| != 1;
      }
    }
  }

  /** Given one colour per point (as ColoursFailIff guarantees of the intended
      colours), the cloud is built exactly when, for a size column, every row
      reaches that column; otherwise it fails with ValueError. */
  lemma CloudBuiltIff(points: Rows, opts: Options, cs: seq<Value>)
    requires |cs| == |points|
    ensures var z := SizeSourceOf(opts);
      CloudWith(points, opts, Ok(cs)).Ok? <==>
        (z.SizeColumn? ==> forall i :: 0 <= i < |points| ==> z.start < |points[i]|)
    ensures CloudWith(points, opts, Ok(cs)).Err? ==> CloudWith(points, opts, Ok(cs)).error == ValueError
  {
    var z := SizeSourceOf(opts);
    var sizes := Sizes(points, z);
    ShapegroupFailsIff(points, cs, sizes);
    assert (forall i :: 0 <= i < |points| ==> |sizes[i]| == 1) <==>
           (z.SizeColumn? ==> forall i :: 0 <= i < |points| ==> z.start < |points[i]|);
  }

  /** Point idx's ball in a shapegroup: under the key `str(idx)`. */
  predicate HoldsBall(group: Scene, idx: nat, ball: Value) {
    NatToStr(idx) in group && group[NatToStr(idx)] == ball
  }

  /** The finished shapegroup: its type, the keys "0" .. "N-1", and point idx's
      ball under `str(idx)`. */
  lemma ShapegroupLayout(points: Rows, colours: seq<Value>, sizes: seq<seq<real>>)
    requires |points| <= |colours| && |sizes| == |points|
    requires forall i :: 0 <= i < |points| ==> |sizes[i]| == 1
    ensures var group := Collector(points, colours, sizes, |points|);
      && group.Keys == {"type"} + IndexKeys(|points|)
      && |group.Keys| == |points| + 1
      && group["type"] == Str("shapegroup")
      && forall idx: nat :: idx < |points| ==> HoldsBall(group, idx, BallAt(points, colours, sizes, idx))
  {
    GroupKeyCount(|points|);
    CollectorKeys(points, colours, sizes, |points|);
    forall idx: nat | idx < |points|
      ensures HoldsBall(Collector(points, colours, sizes, |points|), idx, BallAt(points, colours, sizes, idx))
    {
      CollectorHoldsBall(points, colours, sizes, |points|, idx);
    }
  }

  /** A shapegroup that was built is the instance that wraps the collector. */
  lemma ShapegroupValue(points: Rows, colours: seq<Value>, sizes: seq<seq<real>>)
    requires |points| <= |colours| && |sizes| == |points|
    requires forall i :: 0 <= i < |points| ==> |sizes[i]| == 1
    ensures Shapegroup(points, colours, sizes) ==
      Ok(Dict(PointsDict(Collector(points, colours, sizes, |points|))))
  {
    assert forall idx :: 0 <= idx < |sizes| ==> FailureAt(colours, sizes, idx).None?;
  }

  /** A built cloud is an instance of a shapegroup with one ball per point under
      the keys "0" .. "N-1", each at the point's xyz, with the point's colour
      and the radius its size source gives. */
  lemma {:induction false} CloudOneBallPerPoint(points: Rows, opts: Options, cs: seq<Value>)
    requires |cs| == |points|
    requires var z := SizeSourceOf(opts);
      z.SizeColumn? ==> forall i :: 0 <= i < |points| ==> z.start < |points[i]|
    ensures CloudWith(points, opts, Ok(cs)).Ok?
    ensures var v, z := CloudWith(points, opts, Ok(cs)).value, SizeSourceOf(opts);
      && v.Dict? && v.entries.Keys == {"type", "points"} && v.entries["type"] == Str("instance")
      && v.entries["points"].Dict?
      && var group := v.entries["points"].entries;
      && group.Keys == {"type"} + IndexKeys(|points|)
      && |group.Keys| == |points| + 1
      && group["type"] == Str("shapegroup")
      && forall idx: nat :: idx < |points| ==>
           HoldsBall(group, idx, Ball(Reals(Take(points[idx], 3)), cs[idx], RadiusOf(points[idx], z)))
  {
    var z := SizeSourceOf(opts);
    var sizes := Sizes(points, z);
    CloudBuiltIff(points, opts, cs);
    NoFailureMeansBallsFit(cs, sizes);
    ShapegroupLayout(points, cs, sizes);
    ShapegroupValue(points, cs, sizes);
    PointsDictShape(Collector(points, cs, sizes, |points|));
    forall idx: nat | idx < |points|
      ensures BallAt(points, cs, sizes, idx) == Ball(Reals(Take(points[idx], 3)), cs[idx], RadiusOf(points[idx], z))
    {
      SizeEntryIsRadius(points[idx], z);
    }
  }

  // ---------------------------------------------------------------- the row slice of line 122

  /** Colour rows run short of the points as soon as there are more points than
      the at most three rows `points[ind:ind + 3]` selects: the loop then fails
      with IndexError at the first point without a row, unless a size failure
      comes earlier. */
  lemma {:induction false} RowSliceRunsShort(points: Rows, opts: Options)
    requires HasXyz(points)
    requires ColourSourceOf(opts.format, opts.colorBy).RgbColumns?
    requires |RgbRowColours(points, ColourSourceOf(opts.format, opts.colorBy).start)| < |points|
    ensures CloudAsWritten(points, opts).Err?
  {
    var cs := RgbRowColours(points, ColourSourceOf(opts.format, opts.colorBy).start);
    var sizes := Sizes(points, SizeSourceOf(opts));
    assert FailureAt(cs, sizes, |points| - 1).Some?;
  }

  /** Four black points of six columns. */
  function BlackRows(): Rows {
    seq(4, _ => [0.0, 0.0, 0.0, 0.0, 0.0, 0.0])
  }

  /** The format "xyzrgb" with the default radius 0.02 and no size given. */
  function XyzrgbOptions(): Options {
    Options(None, None, "xyzrgb", None, 0.02, 1.0, None, "turbo", false,
            DefaultPose, DefaultView, Paths.Path("", ["config.yaml"]), false, NoFlags)
  }

  /** The format "xyzrgb" with four black points of six columns: as written the
      cloud fails with IndexError at point 3, while the column slice colours
      every point with its own (black) rgb. */
  lemma RowSliceCounterexample()
    ensures CloudAsWritten(BlackRows(), XyzrgbOptions()) == Err(IndexError)
    ensures Cloud(BlackRows(), XyzrgbOptions()).Ok?
    ensures Colours(BlackRows(), XyzrgbOptions()).value == seq(4, _ => Reals([0.0, 0.0, 0.0]))
  {
    BlackRowsAsWritten();
    BlackRowsIntended();
  }

  /** Where the sample's colours and radii come from: columns 3-5, and 0.02. */
  lemma XyzrgbSources()
    ensures ColourSourceOf(XyzrgbOptions().format, XyzrgbOptions().colorBy) == RgbColumns(3)
    ensures SizeSourceOf(XyzrgbOptions()) == DefaultSize(0.02)
  {
    assert Contains("xyzrgb", "rgb") && Find("xyzrgb", "rgb") == 3 by {
      assert OccursAt("xyzrgb", "rgb", 3);
      assert "xyzrgb"[0..3] == "xyz" && "xyzrgb"[1..4] == "yzr" && "xyzrgb"[2..5] == "zrg";
      ContainsIff("xyzrgb", "rgb");
    }
    assert !Contains("xyzrgb", "s") by {
      assert 's' !in "xyzrgb";
      LetterAbsent("xyzrgb", 's');
    }
  }

  /** As written, the sample gets one colour row, and point 1 finds none. */
  lemma BlackRowsAsWritten()
    ensures CloudAsWritten(BlackRows(), XyzrgbOptions()) == Err(IndexError)
  {
    XyzrgbSources();
    var points, opts := BlackRows(), XyzrgbOptions();
    var cs := RgbRowColours(points, 3);
    assert |cs| == 1;
    var sizes := Sizes(points, DefaultSize(0.02));
    assert FailureAt(cs, sizes, 0).None?;
    FirstFailureSkips(cs, sizes, 0, 1);
  }

  /** As intended, every point of the sample gets its black rgb and a radius. */
  lemma BlackRowsIntended()
    ensures Cloud(BlackRows(), XyzrgbOptions()).Ok?
    ensures Colours(BlackRows(), XyzrgbOptions()).value == seq(4, _ => Reals([0.0, 0.0, 0.0]))
  {
    XyzrgbSources();
    BlackColours();
    var points := BlackRows();
    var sizes := Sizes(points, DefaultSize(0.02));
    ShapegroupFailsIff(points, seq(4, _ => Reals([0.0, 0.0, 0.0])), sizes);
  }

  /** The colour columns of the sample are black. */
  lemma BlackColours()
    ensures RgbColumnColours(BlackRows(), 3) == seq(4, _ => Reals([0.0, 0.0, 0.0]))
  {
    var points := BlackRows();
    forall j | 0 <= j < 4
      ensures Slice(points[j], 3, 6) == [0.0, 0.0, 0.0]
    {
    }
  }

  /** As intended, the rgb columns of every point are its colour. */
  lemma RgbColumnsPassThrough(points: Rows, opts: Options, i: nat)
    requires HasXyz(points) && i < |points|
    requires ColourSourceOf(opts.format, opts.colorBy).RgbColumns?
    requires ColourSourceOf(opts.format, opts.colorBy).start + 3 <= |points[i]|
    ensures var start := ColourSourceOf(opts.format, opts.colorBy).start;
      && Colours(points, opts).Ok? && |Colours(points, opts).value| == |points|
      && Colours(points, opts).value[i] == Reals(points[i][start..start + 3])
  {
    var start := ColourSourceOf(opts.format, opts.colorBy).start;
    assert Slice(points[i], start, start + 3) == points[i][start..start + 3];
  }

  // ---------------------------------------------------------------- build_scene

  /** `points[..., :3]`. */
  function Xyz(points: Rows): (xyz: Rows)
    ensures |xyz| == |points|
    ensures forall i :: 0 <= i < |points| ==> xyz[i] == Take(points[i], 3)
  {
    seq(|points|, i requires 0 <= i < |points| => Take(points[i], 3))
  }

  /** `np.concatenate((rotated + pose[:3], features), axis=-1)`: each rotated xyz
      moved by the translation, followed by the row's own features. */
  function Placed(points: Rows, rotated: Rows, offset: Vec3): (placed: Rows)
    requires |rotated| == |points| && IsTable(rotated, 3)
    ensures |placed| == |points| && HasXyz(placed)
    ensures forall i :: 0 <= i < |points| ==>
      placed[i][..3] == Translate(rotated[i], offset) && placed[i][3..] == Drop(points[i], 3)
  {
    seq(|points|, i requires 0 <= i < |points| => Translate(rotated[i], offset) + Drop(points[i], 3))
  }

  /** `xyz + pose[:3]` for one point: each coordinate moved by its own offset. */
  function Translate(xyz: Vec3, offset: Vec3): (moved: Vec3)
    ensures forall c :: 0 <= c < 3 ==> moved[c] == xyz[c] + offset[c]
  {
    [xyz[0] + offset[0], xyz[1] + offset[1], xyz[2] + offset[2]]
  }

  /** A keyword given twice to `create_environment(views=views, **cfgs, **args)`
      or `create_cloud(points, **cfgs, **args)` is a TypeError: the
      configuration may not name `views`, `points` or any command-line option. */
  predicate KwargsClash(cfgs: Scene, opts: Options) {
    "views" in cfgs || "points" in cfgs || cfgs.Keys * ArgNames(opts) != {}
  }

  /** What `build_scene` hands to `load_dict`, for the rows after scaling.
      The command-line options named by ArgNames are none of the settings
      `create_environment` looks up, so its settings are the configuration. */
  function SceneOf(scaled: Rows, cols: nat, views: seq<seq<real>>, pose: Six, cfgs: Scene, opts: Options, rotate: Rotation): Result<Scene>
    requires IsTable(scaled, cols)
  {
    var xyz := Xyz(scaled);
    var rotated :- RotatePoints(xyz, if cols < 3 then cols else 3, pose[3..], rotate);
    if KwargsClash(cfgs, opts) then Err(TypeError)
    else
      var cloud :- Cloud(Placed(scaled, rotated, pose[..3]), opts);
      Ok(Assemble(cfgs, views, cloud))
  }

  /** Lines 166-168: the environment, then `pointcloud_1` and `ground_plane`. */
  function Assemble(cfgs: Scene, views: seq<seq<real>>, cloud: Value): Scene {
    CreateEnvironment(cfgs, Some(views))["pointcloud_1" := cloud]["ground_plane" := Dict(Ground())]
  }

  /** Fewer than three columns fail in the rotation (ValueError) before a
      clashing keyword does (TypeError); past both, the scene is the assembled
      environment holding the cloud. */
  lemma SceneErrors(scaled: Rows, cols: nat, views: seq<seq<real>>, pose: Six, cfgs: Scene, opts: Options, rotate: Rotation)
    requires IsTable(scaled, cols)
    ensures cols < 3 ==> SceneOf(scaled, cols, views, pose, cfgs, opts, rotate) == Err(ValueError)
    ensures cols >= 3 && KwargsClash(cfgs, opts) ==> SceneOf(scaled, cols, views, pose, cfgs, opts, rotate) == Err(TypeError)
    ensures SceneOf(scaled, cols, views, pose, cfgs, opts, rotate).Ok? ==>
      cols >= 3 && !KwargsClash(cfgs, opts) &&
      exists cloud :: SceneOf(scaled, cols, views, pose, cfgs, opts, rotate) == Ok(Assemble(cfgs, views, cloud))
  {
    assert IsTable(Xyz(scaled), if cols < 3 then cols else 3);
  }

  /** The rows `build_scene` hands to `create_cloud` (lines 161-164): each
      point's xyz rotated by `pose[3:]` and moved by `pose[:3]`, followed by
      the point's own features. */
  function PlacedRows(scaled: Rows, cols: nat, pose: Six, rotate: Rotation): (placed: Rows)
    requires IsTable(scaled, cols) && cols >= 3
    ensures |placed| == |scaled| && HasXyz(placed)
    ensures forall i :: 0 <= i < |scaled| ==>
      placed[i][..3] == Translate(rotate(pose[3..], scaled[i][..3]), pose[..3]) && placed[i][3..] == scaled[i][3..]
  {
    var xyz := Xyz(scaled);
    assert forall i :: 0 <= i < |scaled| ==> xyz[i][..3] == scaled[i][..3];
    Placed(scaled, RotatePoints(xyz, 3, pose[3..], rotate).value, pose[..3])
  }

  /** A scene that was built holds the cloud of the placed rows. */
  lemma SceneHoldsPlacedCloud(scaled: Rows, cols: nat, views: seq<seq<real>>, pose: Six, cfgs: Scene, opts: Options, rotate: Rotation, s: Scene)
    requires IsTable(scaled, cols)
    requires SceneOf(scaled, cols, views, pose, cfgs, opts, rotate) == Ok(s)
    ensures cols >= 3 && Cloud(PlacedRows(scaled, cols, pose, rotate), opts).Ok?
    ensures s == Assemble(cfgs, views, Cloud(PlacedRows(scaled, cols, pose, rotate), opts).value)
  {
    SceneErrors(scaled, cols, views, pose, cfgs, opts, rotate);
  }

  /** A cloud that was built has a colour for every point, reaches every size
      column, and holds point i's ball under `str(i)`: centred on the row's xyz,
      with the row's colour and radius. */
  lemma BuiltCloudBalls(points: Rows, opts: Options)
    requires HasXyz(points) && Cloud(points, opts).Ok?
    ensures Colours(points, opts).Ok? && |Colours(points, opts).value| == |points|
    ensures var z := SizeSourceOf(opts);
      z.SizeColumn? ==> forall i :: 0 <= i < |points| ==> z.start < |points[i]|
    ensures var v := Cloud(points, opts).value;
      && v.Dict? && "points" in v.entries && v.entries["points"].Dict?
      && forall i: nat :: i < |points| ==>
           HoldsBall(v.entries["points"].entries, i,
             Ball(Reals(Take(points[i], 3)), Colours(points, opts).value[i], RadiusOf(points[i], SizeSourceOf(opts))))
  {
    ColoursFailIff(points, opts);
    var cs := Colours(points, opts).value;
    CloudBuiltIff(points, opts, cs);
    CloudOneBallPerPoint(points, opts, cs);
  }

  /** The scene assembled around a built cloud holds point i's ball under
      `str(i)` of `pointcloud_1`. */
  lemma AssembledCloudBalls(cfgs: Scene, views: seq<seq<real>>, points: Rows, opts: Options)
    requires HasXyz(points) && Cloud(points, opts).Ok?
    ensures Colours(points, opts).Ok? && |Colours(points, opts).value| == |points|
    ensures var z := SizeSourceOf(opts);
      z.SizeColumn? ==> forall i :: 0 <= i < |points| ==> z.start < |points[i]|
    ensures var s := Assemble(cfgs, views, Cloud(points, opts).value);
      && "pointcloud_1" in s && s["pointcloud_1"].Dict?
      && "points" in s["pointcloud_1"].entries && s["pointcloud_1"].entries["points"].Dict?
      && forall i: nat :: i < |points| ==>
           HoldsBall(s["pointcloud_1"].entries["points"].entries, i,
             Ball(Reals(Take(points[i], 3)), Colours(points, opts).value[i], RadiusOf(points[i], SizeSourceOf(opts))))
  {
    BuiltCloudBalls(points, opts);
    AssembleAddsCloudAndGround(cfgs, views, Cloud(points, opts).value);
  }

  /** Where `build_scene` puts point i: the built scene's cloud holds, under
      `str(i)`, a ball whose centre is the point's scaled xyz rotated by
      `pose[3:]` and then moved by `pose[:3]`, with the colour and radius of
      its placed row (which keeps the point's own features after the moved xyz). */
  lemma ScenePlacesPoints(scaled: Rows, cols: nat, views: seq<seq<real>>, pose: Six, cfgs: Scene, opts: Options, rotate: Rotation, s: Scene)
    requires IsTable(scaled, cols)
    requires SceneOf(scaled, cols, views, pose, cfgs, opts, rotate) == Ok(s)
    ensures cols >= 3
    ensures var placed, z := PlacedRows(scaled, cols, pose, rotate), SizeSourceOf(opts);
      && Colours(placed, opts).Ok? && |Colours(placed, opts).value| == |scaled|
      && (z.SizeColumn? ==> forall i :: 0 <= i < |scaled| ==> z.start < |placed[i]|)
      && "pointcloud_1" in s && s["pointcloud_1"].Dict?
      && "points" in s["pointcloud_1"].entries && s["pointcloud_1"].entries["points"].Dict?
      && forall i: nat :: i < |scaled| ==>
           HoldsBall(s["pointcloud_1"].entries["points"].entries, i,
             Ball(Reals(Translate(rotate(pose[3..], scaled[i][..3]), pose[..3])),
                  Colours(placed, opts).value[i], RadiusOf(placed[i], z)))
  {
    SceneHoldsPlacedCloud(scaled, cols, views, pose, cfgs, opts, rotate, s);
    var placed := PlacedRows(scaled, cols, pose, rotate);
    AssembledCloudBalls(cfgs, views, placed, opts);
    assert forall i :: 0 <= i < |scaled| ==> Take(placed[i], 3) == placed[i][..3];
  }

  /** The assembled scene keeps every camera and fixed entry of the environment
      (neither new key is a camera's or a fixed one) and adds exactly the cloud
      and the ground. */
  lemma {:induction false} AssembleAddsCloudAndGround(cfgs: Scene, views: seq<seq<real>>, cloud: Value)
    ensures var scene := Assemble(cfgs, views, cloud);
      && "pointcloud_1" in scene && scene["pointcloud_1"] == cloud
      && "ground_plane" in scene && scene["ground_plane"] == Dict(Ground())
      && "type" in scene && scene["type"] == Str("scene")
  {
    EnvironmentLayout(cfgs, Some(views));
    AddingKeepsType(CreateEnvironment(cfgs, Some(views)), cloud, Dict(Ground()));
  }

  /** The cloud and the ground land under their own keys and keep the scene type. */
  lemma AddingKeepsType(env: Scene, cloud: Value, ground: Value)
    requires "type" in env && env["type"] == Str("scene")
    ensures var scene := env["pointcloud_1" := cloud]["ground_plane" := ground];
      && "pointcloud_1" in scene && scene["pointcloud_1"] == cloud
      && "ground_plane" in scene && scene["ground_plane"] == ground
      && "type" in scene && scene["type"] == Str("scene")
  {
    assert "pointcloud_1" != "ground_plane" && "pointcloud_1" != "type" && "ground_plane" != "type";
  }

  /** The assembled scene keeps every camera of the environment. */
  lemma AssembleKeepsCameras(cfgs: Scene, views: seq<seq<real>>, cloud: Value)
    ensures forall i: nat :: i < |views| ==> HoldsCamera(Assemble(cfgs, views, cloud), i, Sensor(views[i], cfgs))
  {
    var env := CreateEnvironment(cfgs, Some(views));
    forall i: nat | i < |views|
      ensures HoldsCamera(Assemble(cfgs, views, cloud), i, Sensor(views[i], cfgs))
    {
      EnvironmentCamera(cfgs, Some(views), i);
      AddingKeepsCamera(env, cloud, Dict(Ground()), i, Sensor(views[i], cfgs));
    }
  }

  /** Camera i of a scene: the entry under `sensor_<i>`. */
  predicate HoldsCamera(scene: Scene, i: nat, camera: Value) {
    SensorKey(i) in scene && scene[SensorKey(i)] == camera
  }

  /** No camera key is one of the two keys `build_scene` adds. */
  lemma SensorKeyNotAdded(i: nat)
    ensures SensorKey(i) != "pointcloud_1" && SensorKey(i) != "ground_plane"
  {
    SensorKeyShape(i);
    assert "pointcloud_1"[0] == 'p' && "ground_plane"[0] == 'g';
  }

  /** Adding the cloud and the ground keeps every camera. */
  lemma AddingKeepsCamera(env: Scene, cloud: Value, ground: Value, i: nat, camera: Value)
    requires HoldsCamera(env, i, camera)
    ensures HoldsCamera(env["pointcloud_1" := cloud]["ground_plane" := ground], i, camera)
  {
    SensorKeyNotAdded(i);
  }

  /** The assembled scene has the fixed keys, one key per camera, and the two
      added keys. */
  lemma {:induction false} AssembleKeys(cfgs: Scene, views: seq<seq<real>>, cloud: Value)
    ensures Assemble(cfgs, views, cloud).Keys == FixedKeys + SensorKeys(|views|) + {"pointcloud_1", "ground_plane"}
  {
    EnvironmentLayout(cfgs, Some(views));
  }

  lemma EnvironmentLacksAddedKeys(cfgs: Scene, views: seq<seq<real>>)
    ensures "pointcloud_1" !in CreateEnvironment(cfgs, Some(views))
    ensures "ground_plane" !in CreateEnvironment(cfgs, Some(views))
  {
    EnvironmentLayout(cfgs, Some(views));
    NotACameraKey(|views|, "pointcloud_1");
    NotACameraKey(|views|, "ground_plane");
  }

  /** A key whose first letter is none of s, t, i, e and r is neither a camera
      key nor a fixed one. */
  lemma NotACameraKey(n: nat, key: string)
    requires key != [] && key[0] !in {'s', 't', 'i', 'e', 'r'}
    ensures key !in SensorKeys(n)
    ensures key !in FixedKeys
  {
    if key in SensorKeys(n) {
      SensorKeysOnly(n, key);
    }
    assert "type"[0] == 't' && "integer"[0] == 'i' && "emitter"[0] == 'e' && MaterialId[0] == 'r';
  }

  /** With the identity rotation and the zero pose, the points are placed where
      they are: every column is kept. */
  lemma IdentityPoseKeepsPoints(scaled: Rows, cols: nat, rotate: Rotation)
    requires IsTable(scaled, cols) && cols >= 3
    requires forall v: Vec3 :: rotate([0.0, 0.0, 0.0], v) == v
    ensures var rotated := RotatePoints(Xyz(scaled), 3, DefaultPose[3..], rotate);
      rotated.Ok? && Placed(scaled, rotated.value, DefaultPose[..3]) == scaled
  {
    assert IsTable(Xyz(scaled), 3);
    var rotated := RotatePoints(Xyz(scaled), 3, DefaultPose[3..], rotate).value;
    var placed := Placed(scaled, rotated, DefaultPose[..3]);
    forall i | 0 <= i < |scaled|
      ensures placed[i] == scaled[i]
    {
      assert DefaultPose[3..] == [0.0, 0.0, 0.0];
      assert rotated[i][..3] == Xyz(scaled)[i][..3] == scaled[i][..3];
      assert placed[i] == scaled[i][..3] + scaled[i][3..];
    }
  }

  /** `build_scene`: `xyz *= args.scale` scales the first three columns of the
      CALLER's array in place (`points[..., :3]` is a view), then the scene is
      assembled from the scaled rows. */
  method BuildScene(points: array2<real>, views: seq<seq<real>>, pose: Six, cfgs: Config, args: Args, rotate: Rotation)
    returns (r: Result<Scene>)
    modifies points
    ensures Table(points) == ScaleXyz(old(Table(points)), args.opts.scale)
    ensures r == SceneOf(Table(points), points.Length1, views, pose, cfgs.entries, args.opts, rotate)
  {
    ScaleInPlace(points, args.opts.scale);
    var scaled := Table(points);
    var rotated :- RotatePoints(Xyz(scaled), if points.Length1 < 3 then points.Length1 else 3, pose[3..], rotate);
    if KwargsClash(cfgs.entries, args.opts) {
      return Err(TypeError);
    }
    var scene := CreateEnvironment(cfgs.entries, Some(views));
    var cloud :- CreateCloud(Placed(scaled, rotated, pose[..3]), args.opts);
    scene := scene["pointcloud_1" := cloud];
    scene := scene["ground_plane" := Dict(Ground())];
    r := Ok(scene);
  }

  /** `xyz *= s` for the view `xyz = points[..., :3]`. */
  method ScaleInPlace(points: array2<real>, s: real)
    modifies points
    ensures Table(points) == ScaleXyz(old(Table(points)), s)
  {
    var cols := if points.Length1 < 3 then points.Length1 else 3;
    for i := 0 to points.Length0
      invariant forall i', j :: 0 <= i' < i && 0 <= j < points.Length1 ==>
        points[i', j] == if j < 3 then s * old(points[i', j]) else old(points[i', j])
      invariant forall i', j :: i <= i' < points.Length0 && 0 <= j < points.Length1 ==> points[i', j] == old(points[i', j])
    {
      for j := 0 to cols
        invariant forall i', j' :: 0 <= i' < i && 0 <= j' < points.Length1 ==>
          points[i', j'] == if j' < 3 then s * old(points[i', j']) else old(points[i', j'])
        invariant forall j' :: 0 <= j' < j ==> points[i, j'] == s * old(points[i, j'])
        invariant forall j' :: j <= j' < points.Length1 ==> points[i, j'] == old(points[i, j'])
        invariant forall i', j' :: i < i' < points.Length0 && 0 <= j' < points.Length1 ==> points[i', j'] == old(points[i', j'])
      {
        assert points[i, j] == old(points[i, j]);
        points[i, j] := s * points[i, j];
      }
    }
    ScaledTable(old(Table(points)), Table(points), s);
  }

  /** Two tables of the same shape, the second the first with xyz scaled entrywise. */
  lemma ScaledTable(before: Rows, after: Rows, s: real)
    requires |before| == |after|
    requires forall i :: 0 <= i < |before| ==> |before[i]| == |after[i]|
    requires forall i, j :: 0 <= i < |before| && 0 <= j < |before[i]| ==>
      after[i][j] == if j < 3 then s * before[i][j] else before[i][j]
    ensures after == ScaleXyz(before, s)
  {
    var expected := ScaleXyz(before, s);
    forall i | 0 <= i < |before|
      ensures after[i] == expected[i]
    {
      assert forall j :: 0 <= j < |before[i]| ==> after[i][j] == expected[i][j];
    }
  }
}
