/** `points_renderer.py`, the older stand-alone renderer: its output naming,
    its fixed environment, the preprocessing of a loaded cloud (random
    downsampling, normalisation, axis remap) and the scene objects. The random
    generator is the draw functions passed in; `os.times().elapsed` is `elapsed`. */
module PointsRenderer {
  import opened Py
  import Paths
  import opened SceneDict
  import opened PointsLoader
  import opened Wrapper

  // ---------------------------------------------------------------- get_output_path

  /** `get_output_path`: "output.jpg" when no path is given, then JpgName. */
  function LegacyOutputPath(p: Option<string>, pathExists: Paths.Path -> bool, elapsed: real): Result<string> {
    JpgName(Paths.Parse(p.GetOr("output.jpg")), pathExists, elapsed)
  }

  /** Lines 32-38: the suffix forced to ".jpg", and an existing file renamed
      once to `stem_<ticks>.jpg`. */
  function JpgName(given: Paths.Path, pathExists: Paths.Path -> bool, elapsed: real): Result<string> {
    var jpg :- if Paths.SuffixOf(Paths.Name(given)) != ".jpg" then Paths.WithSuffix(given, ".jpg") else Ok(given);
    if !pathExists(jpg) then Ok(Paths.Str(jpg))
    else
      var renamed :- Paths.WithName(jpg, RenamedName(Paths.Name(jpg), elapsed));
      Ok(Paths.Str(renamed))
  }

  /** A path that already ends in ".jpg" is what `with_suffix(".jpg")` would make of it. */
  lemma JpgSuffixKept(given: Paths.Path)
    requires Paths.SuffixOf(Paths.Name(given)) == ".jpg"
    ensures Paths.WithSuffix(given, ".jpg") == Ok(given)
  {
    var name := Paths.Name(given);
    Paths.StemThenSuffix(name);
    assert given.parts != [];
    assert given.parts[..|given.parts| - 1] + [name] == given.parts;
  }

  /** Skipping `with_suffix` for a ".jpg" path changes nothing: the older naming
      is the loader's naming with the suffix "jpg". */
  lemma JpgNameIsLoaderNaming(given: Paths.Path, pathExists: Paths.Path -> bool, elapsed: real)
    ensures JpgName(given, pathExists, elapsed) == OutputName(given, "jpg", pathExists, elapsed)
  {
    assert "." + "jpg" == ".jpg";
    var jpg := if Paths.SuffixOf(Paths.Name(given)) != ".jpg" then Paths.WithSuffix(given, ".jpg") else Ok(given);
    if Paths.SuffixOf(Paths.Name(given)) == ".jpg" {
      JpgSuffixKept(given);
    }
    assert jpg == Paths.WithSuffix(given, "." + "jpg");
  }

  /** A path fails (ValueError) exactly when it has no name ("", ".", "/"). */
  lemma JpgNameFails(given: Paths.Path, pathExists: Paths.Path -> bool, elapsed: real)
    requires Paths.Valid(given)
    ensures JpgName(given, pathExists, elapsed).Err? <==> Paths.Name(given) == ""
    ensures JpgName(given, pathExists, elapsed).Err? ==> JpgName(given, pathExists, elapsed).error == ValueError
  {
    JpgNameIsLoaderNaming(given, pathExists, elapsed);
    if Paths.Name(given) == "" {
      OutputNameNeedsName(given, "jpg", pathExists, elapsed);
    } else {
      OutputNameEndsWithSuffix(given, "jpg", pathExists, elapsed);
    }
  }

  /** A path with a name gives a name ending in ".jpg", renamed or not. */
  lemma JpgNameEndsWithJpg(given: Paths.Path, pathExists: Paths.Path -> bool, elapsed: real)
    requires Paths.Valid(given) && Paths.Name(given) != ""
    ensures JpgName(given, pathExists, elapsed).Ok?
    ensures var s := JpgName(given, pathExists, elapsed).value;
      |s| >= 4 && s[|s| - 4..] == ".jpg"
  {
    assert "." + "jpg" == ".jpg";
    JpgNameIsLoaderNaming(given, pathExists, elapsed);
    OutputNameEndsWithSuffix(given, "jpg", pathExists, elapsed);
  }

  /** Without `--output`: "output.jpg", or `output_<ticks>.jpg` when that file
      exists. */
  lemma LegacyOutputDefault(pathExists: Paths.Path -> bool, elapsed: real)
    ensures var out := Paths.Path("", ["output.jpg"]);
      && (!pathExists(out) ==> LegacyOutputPath(None, pathExists, elapsed) == Ok("output.jpg"))
      && (pathExists(out) ==> LegacyOutputPath(None, pathExists, elapsed) == Ok(RenamedName("output.jpg", elapsed)))
  {
    var name := "output.jpg";
    assert Paths.ValidPart(name) by {
      assert name[0] == 'o';
    }
    Paths.ParseName(name);
    assert Paths.SuffixOf(name) == ".jpg" && Paths.StemOf(name) == "output" by {
      assert name[..9] == "output.jp" && name[..8] == "output.j" && name[..7] == "output.";
      assert Paths.RFind(name[..7], '.') == 6;
      assert Paths.RFind(name[..8], '.') == 6;
      assert Paths.RFind(name[..9], '.') == 6;
      assert Paths.RFind(name, '.') == 6;
      assert name[6..] == ".jpg" && name[..6] == "output";
    }
    BareJpgName(name, pathExists, elapsed);
    assert LegacyOutputPath(None, pathExists, elapsed) == JpgName(Paths.Path("", [name]), pathExists, elapsed);
  }

  /** A bare ".jpg" file name is kept as it is, or renamed `stem_<ticks>.jpg` when it exists. */
  lemma BareJpgName(name: string, pathExists: Paths.Path -> bool, elapsed: real)
    requires Paths.ValidPart(name) && Paths.SuffixOf(name) == ".jpg"
    ensures var out := Paths.Path("", [name]);
      && (!pathExists(out) ==> JpgName(out, pathExists, elapsed) == Ok(name))
      && (pathExists(out) ==> JpgName(out, pathExists, elapsed) == Ok(RenamedName(name, elapsed)))
  {
    var out := Paths.Path("", [name]);
    if pathExists(out) {
      var renamed := RenamedName(name, elapsed);
      RenamedNameValid(name, elapsed);
      assert Paths.WithName(out, renamed) == Ok(Paths.Path("", [renamed]));
      assert Paths.Str(Paths.Path("", [renamed])) == renamed;
    } else {
      assert Paths.Str(out) == name;
    }
  }

  // ---------------------------------------------------------------- create_environment, create_material

  /** The single camera: from (3, 3, 3) towards the origin, z up. */
  function LegacyCamera(sample: int): Value {
    Dict(map[
      "type" := Str("perspective"),
      "near_clip" := Real(0.1),
      "far_clip" := Real(100.0),
      "to_world" := Xform(LookAt(Ints([3, 3, 3]), Ints([0, 0, 0]), Ints([0, 0, 1]))),
      "film" := Dict(map[
        "type" := Str("hdrfilm"),
        "width" := Int(1920),
        "height" := Int(1080),
        "rfilter" := Dict(map["type" := Str("gaussian")])
      ]),
      "sampler" := Dict(map[
        "type" := Str("independent"),
        "sample_count" := Int(sample)
      ])
    ])
  }

  /** The area light: a 10 x 10 rectangle at (-4, -4, 20) facing the origin. */
  function LegacyEmitter(): Value {
    Dict(map[
      "type" := Str("rectangle"),
      "to_world" := Xform(Then(LookAt(Ints([-4, -4, 20]), Ints([0, 0, 0]), Ints([0, 0, 1])), Scale(Ints([10, 10, 1])))),
      "emitter" := Dict(map[
        "type" := Str("area"),
        "radiance" := Dict(map["type" := Str("rgb"), "value" := Ints([6, 6, 6])])
      ])
    ])
  }

  /** `create_environment(sample=...)`: only the sample count is an input. */
  function LegacyEnvironment(sample: int): Scene {
    map[
      "type" := Str("scene"),
      "integer" := Dict(map["type" := Str("path"), "max_depth" := Int(-1)]),
      "sensor" := LegacyCamera(sample),
      "emitter" := LegacyEmitter()
    ]
  }

  /** `create_material`: the shared rough plastic under its id. */
  function LegacyMaterial(): (m: Scene)
    ensures m.Keys == {MaterialId} && m[MaterialId] == RoughPlastic()
  {
    map[MaterialId := RoughPlastic()]
  }

  /** Apart from where it stands, the older camera is the camera wrapper.py
      builds when only `sample` is configured: same clip planes, film and sampler. */
  lemma LegacyCameraIsWrapperCamera(sample: int, view: seq<real>)
    ensures LegacyCamera(sample).entries - {"to_world"} == Sensor(view, map["sample" := Int(sample)]).entries - {"to_world"}
  {
  }

  /** The sample count is the one thing the environment depends on, and it
      lands in the camera's sampler; depth is unlimited (-1). */
  lemma LegacyEnvironmentTakesSample(a: int, b: int)
    ensures LegacyEnvironment(a) == LegacyEnvironment(b) <==> a == b
    ensures At(LegacyEnvironment(a), ["sensor", "sampler", "sample_count"]) == Some(Int(a))
    ensures At(LegacyEnvironment(a), ["integer", "max_depth"]) == Some(Int(-1))
  {
    if LegacyEnvironment(a) == LegacyEnvironment(b) {
      assert At(LegacyEnvironment(a), ["sensor", "sampler", "sample_count"]) == At(LegacyEnvironment(b), ["sensor", "sampler", "sample_count"]);
    }
  }

  // ---------------------------------------------------------------- downsample_pointcloud

  /** The number of points `preprocess_pointcloud` keeps. */
  const SampleSize: nat := 2048

  /** m different row indices below n. */
  predicate IsSample(idx: seq<nat>, n: nat, m: nat) {
    |idx| == m && Distinct(idx) && forall k :: 0 <= k < |idx| ==> idx[k] < n
  }

  /** `np.random.shuffle`: from the last position down to the second, position
      i swaps with a position in 0..i that the generator picks (`draw(i)`). */
  method Shuffle(a: array<nat>, draw: nat -> nat)
    modifies a
    ensures multiset(a[..]) == multiset(old(a[..]))
  {
    var i := a.Length;
    while i > 1
      invariant 0 <= i <= a.Length
      invariant multiset(a[..]) == multiset(old(a[..]))
    {
      i := i - 1;
      var j := draw(i) % (i + 1);
      a[i], a[j] := a[j], a[i];
    }
  }

  /** `np.random.choice(n, m, replace=False)`: the first m entries of a shuffled
      `range(n)`; more than n is a ValueError. */
  method Choice(n: nat, m: nat, draw: nat -> nat) returns (r: Result<seq<nat>>)
    ensures r.Err? <==> m > n
    ensures r.Err? ==> r.error == ValueError
    ensures r.Ok? ==> IsSample(r.value, n, m)
  {
    if m > n {
      return Err(ValueError);
    }
    var a := new nat[n](i => i);
    ghost var range := a[..];
    assert Distinct(range);
    Shuffle(a, draw);
    PermutationKeepsDistinct(range, a[..]);
    forall k | 0 <= k < n
      ensures a[k] < n
    {
      assert a[k] in multiset(a[..]);
      assert a[k] in range;
    }
    r := Ok(a[..m]);
  }

  /** `downsample_pointcloud`: only the "random" method exists. */
  method Downsample(n: nat, numPoints: nat, methods: string, draw: nat -> nat) returns (r: Result<seq<nat>>)
    ensures r.Err? <==> methods != "random" || numPoints > n
    ensures methods != "random" ==> r == Err(NotImplementedError)
    ensures methods == "random" && numPoints > n ==> r == Err(ValueError)
    ensures r.Ok? ==> IsSample(r.value, n, numPoints)
  {
    if methods == "random" {
      r := Choice(n, numPoints, draw);
    } else {
      r := Err(NotImplementedError);  // "fps" and anything else
    }
  }

  /** Shuffling a sample in place leaves it a sample of the same rows. */
  method ShuffleSample(idx: seq<nat>, n: nat, draw: nat -> nat) returns (shuffled: seq<nat>)
    requires IsSample(idx, n, |idx|)
    ensures IsSample(shuffled, n, |idx|)
    ensures multiset(shuffled) == multiset(idx)
  {
    var a := new nat[|idx|](k requires 0 <= k < |idx| => idx[k]);
    assert a[..] == idx;
    Shuffle(a, draw);
    shuffled := a[..];
    PermutationKeepsDistinct(idx, shuffled);
    forall k | 0 <= k < |shuffled|
      ensures shuffled[k] < n
    {
      assert shuffled[k] in multiset(idx);
    }
  }

  // ---------------------------------------------------------------- normalize_pointcloud

  /** `np.amin(pts, axis=0)`. */
  function Lows(pts: Rows, w: nat): (m: seq<real>)
    requires IsTable(pts, w) && |pts| > 0
    ensures |m| == w && forall c :: 0 <= c < w ==> m[c] == MinOf(Column(pts, c))
  {
    seq(w, c requires 0 <= c < w => MinOf(Column(pts, c)))
  }

  /** `np.amax(pts, axis=0)`. */
  function Highs(pts: Rows, w: nat): (m: seq<real>)
    requires IsTable(pts, w) && |pts| > 0
    ensures |m| == w && forall c :: 0 <= c < w ==> m[c] == MaxOf(Column(pts, c))
  {
    seq(w, c requires 0 <= c < w => MaxOf(Column(pts, c)))
  }

  /** `(mins + maxs) / 2.`: the centre of the bounding box. */
  function Centre(pts: Rows, w: nat): (m: seq<real>)
    requires IsTable(pts, w) && |pts| > 0
    ensures |m| == w && forall c :: 0 <= c < w ==> m[c] == (Lows(pts, w)[c] + Highs(pts, w)[c]) / 2.0
  {
    seq(w, c requires 0 <= c < w => (Lows(pts, w)[c] + Highs(pts, w)[c]) / 2.0)
  }

  /** `maxs - mins`. */
  function Spans(pts: Rows, w: nat): (m: seq<real>)
    requires IsTable(pts, w) && |pts| > 0
    ensures |m| == w && forall c :: 0 <= c < w ==> m[c] == Highs(pts, w)[c] - Lows(pts, w)[c]
  {
    seq(w, c requires 0 <= c < w => Highs(pts, w)[c] - Lows(pts, w)[c])
  }

  /** `np.amax(maxs - mins)`: the widest extent of the bounding box. */
  function Widest(pts: Rows, w: nat): real
    requires IsTable(pts, w) && |pts| > 0 && w > 0
  {
    MaxOf(Spans(pts, w))
  }

  /** `normalize_pointcloud` over reals: the box centre moved to the origin and
      the widest extent scaled to 1. No columns leave `np.amax` an empty array
      (ValueError); a sample whose widest extent is 0 divides 0 by 0 in every
      entry, which is NaN, and is None here. */
  function NormalizeCloud(pts: Rows, w: nat): (r: Result<Option<Rows>>)
    requires IsTable(pts, w) && |pts| > 0
    ensures r.Ok? && r.value.Some? ==> |r.value.value| == |pts| && IsTable(r.value.value, w)
  {
    if w == 0 then Err(ValueError)
    else
      var scale := Widest(pts, w);
      if scale == 0.0 then Ok(None)
      else
        assert scale > 0.0 by {
          var col := Column(pts, 0);
          assert MinOf(col) <= col[0] <= MaxOf(col);
          assert Spans(pts, w)[0] >= 0.0;
        }
        Ok(Some(Shrunk(pts, w, Centre(pts, w), scale)))
  }

  /** Every entry lies within half the widest extent of its axis' centre. */
  lemma {:induction false} CentredWithinHalfWidest(pts: Rows, w: nat, i: nat, c: nat)
    requires IsTable(pts, w) && |pts| > 0 && i < |pts| && c < w
    ensures -Widest(pts, w) / 2.0 <= pts[i][c] - Centre(pts, w)[c] <= Widest(pts, w) / 2.0
  {
    var col := Column(pts, c);
    assert MinOf(col) <= col[i] <= MaxOf(col);
    assert Spans(pts, w)[c] <= Widest(pts, w);
  }

  /** Along the widest axis c, the lowest entry (row i) is half that extent
      below the centre and the highest (row j) half above it. */
  lemma {:induction false} WidestAxisEnds(pts: Rows, w: nat) returns (c: nat, i: nat, j: nat)
    requires IsTable(pts, w) && |pts| > 0 && w > 0
    ensures c < w && i < |pts| && j < |pts|
    ensures pts[i][c] - Centre(pts, w)[c] == -Widest(pts, w) / 2.0
    ensures pts[j][c] - Centre(pts, w)[c] == Widest(pts, w) / 2.0
  {
    var spans := Spans(pts, w);
    c :| 0 <= c < w && spans[c] == Widest(pts, w);
    var col := Column(pts, c);
    i :| 0 <= i < |col| && col[i] == MinOf(col);
    j :| 0 <= j < |col| && col[j] == MaxOf(col);
  }

  /** A number within half of a positive bound, divided by that bound. */
  lemma HalfRatio(x: real, s: real)
    requires s > 0.0 && -s / 2.0 <= x <= s / 2.0
    ensures -0.5 <= x / s <= 0.5
    ensures x == s / 2.0 ==> x / s == 0.5
    ensures x == -s / 2.0 ==> x / s == -0.5
  {
  }

  /** Normalisation fails only without columns, and gives NaN (None) only
      for a sample whose every axis is flat. */
  lemma NormalizeOutcomes(pts: Rows, w: nat)
    requires IsTable(pts, w) && |pts| > 0
    ensures NormalizeCloud(pts, w).Err? <==> w == 0
    ensures NormalizeCloud(pts, w).Err? ==> NormalizeCloud(pts, w).error == ValueError
    ensures w > 0 ==> (NormalizeCloud(pts, w) == Ok(None) <==> Widest(pts, w) == 0.0)
  {
  }

  /** `(pts - center) / scale` for a positive scale. */
  function Shrunk(pts: Rows, w: nat, centre: seq<real>, scale: real): (rs: Rows)
    requires IsTable(pts, w) && |centre| == w && scale > 0.0
    ensures |rs| == |pts| && IsTable(rs, w)
    ensures forall i, c :: 0 <= i < |pts| && 0 <= c < w ==> rs[i][c] == (pts[i][c] - centre[c]) / scale
  {
    seq(|pts|, i requires 0 <= i < |pts| => seq(w, c requires 0 <= c < w => (pts[i][c] - centre[c]) / scale))
  }

  /** A positive widest extent gives the shrunk sample. */
  lemma NormalizeShrinks(pts: Rows, w: nat)
    requires IsTable(pts, w) && |pts| > 0 && w > 0 && Widest(pts, w) != 0.0
    ensures Widest(pts, w) > 0.0
    ensures NormalizeCloud(pts, w) == Ok(Some(Shrunk(pts, w, Centre(pts, w), Widest(pts, w))))
  {
    var col := Column(pts, 0);
    assert MinOf(col) <= col[0] <= MaxOf(col);
    assert Spans(pts, w)[0] >= 0.0;
  }

  /** Normalisation keeps the shape, lands every coordinate in [-0.5, 0.5],
      and makes the widest axis span exactly 1, from -0.5 to 0.5. */
  lemma {:induction false} NormalizedIntoUnitBox(pts: Rows, w: nat, rs: Rows)
    requires IsTable(pts, w) && |pts| > 0
    requires NormalizeCloud(pts, w) == Ok(Some(rs))
    ensures |rs| == |pts| && IsTable(rs, w)
    ensures forall i, c :: 0 <= i < |rs| && 0 <= c < w ==> -0.5 <= rs[i][c] <= 0.5
    ensures exists c, i, j :: 0 <= c < w && 0 <= i < |rs| && 0 <= j < |rs| && rs[i][c] == -0.5 && rs[j][c] == 0.5
  {
    NormalizeShrinks(pts, w);
    ShrunkIntoUnitBox(pts, w, rs);
  }

  lemma {:induction false} ShrunkIntoUnitBox(pts: Rows, w: nat, rs: Rows)
    requires IsTable(pts, w) && |pts| > 0 && w > 0 && Widest(pts, w) > 0.0
    requires rs == Shrunk(pts, w, Centre(pts, w), Widest(pts, w))
    ensures forall i, c :: 0 <= i < |rs| && 0 <= c < w ==> -0.5 <= rs[i][c] <= 0.5
    ensures exists c, i, j :: 0 <= c < w && 0 <= i < |rs| && 0 <= j < |rs| && rs[i][c] == -0.5 && rs[j][c] == 0.5
  {
    var scale, centre := Widest(pts, w), Centre(pts, w);
    forall i, c | 0 <= i < |pts| && 0 <= c < w
      ensures -scale / 2.0 <= pts[i][c] - centre[c] <= scale / 2.0
    {
      CentredWithinHalfWidest(pts, w, i, c);
    }
    ShrunkWithinHalf(pts, w, centre, scale);
    var c, i, j := WidestAxisEnds(pts, w);
    ShrunkEnds(pts, w, centre, scale, i, j, c);
  }

  /** Entries within half the scale of the centre shrink into [-0.5, 0.5]. */
  lemma ShrunkWithinHalf(pts: Rows, w: nat, centre: seq<real>, scale: real)
    requires IsTable(pts, w) && |centre| == w && scale > 0.0
    requires forall i, c :: 0 <= i < |pts| && 0 <= c < w ==> -scale / 2.0 <= pts[i][c] - centre[c] <= scale / 2.0
    ensures var rs := Shrunk(pts, w, centre, scale);
      forall i, c :: 0 <= i < |rs| && 0 <= c < w ==> -0.5 <= rs[i][c] <= 0.5
  {
    var rs := Shrunk(pts, w, centre, scale);
    forall i, c | 0 <= i < |rs| && 0 <= c < w
      ensures -0.5 <= rs[i][c] <= 0.5
    {
      HalfRatio(pts[i][c] - centre[c], scale);
    }
  }

  /** Entries exactly half the scale below and above the centre shrink to -0.5 and 0.5. */
  lemma ShrunkEnds(pts: Rows, w: nat, centre: seq<real>, scale: real, i: nat, j: nat, c: nat)
    requires IsTable(pts, w) && |centre| == w && scale > 0.0
    requires i < |pts| && j < |pts| && c < w
    requires pts[i][c] - centre[c] == -scale / 2.0 && pts[j][c] - centre[c] == scale / 2.0
    ensures Shrunk(pts, w, centre, scale)[i][c] == -0.5 && Shrunk(pts, w, centre, scale)[j][c] == 0.5
  {
    HalfRatio(pts[i][c] - centre[c], scale);
    HalfRatio(pts[j][c] - centre[c], scale);
  }

  // ---------------------------------------------------------------- preprocess_pointcloud

  /** `coords[sampled_indices]`. */
  function Sampled(rows: Rows, idx: seq<nat>): (s: Rows)
    requires forall k :: 0 <= k < |idx| ==> idx[k] < |rows|
    ensures |s| == |idx| && forall k :: 0 <= k < |idx| ==> s[k] == rows[idx[k]]
  {
    seq(|idx|, k requires 0 <= k < |idx| => rows[idx[k]])
  }

  /** `preprocess_pointcloud`: 2048 different rows drawn at random (`draw`),
      put in random order (`reorder`), cut to x, y, z and normalised. Fewer
      than 2048 rows or no columns are ValueErrors. */
  method Preprocess(points: Rows, cols: nat, draw: nat -> nat, reorder: nat -> nat) returns (r: Result<Option<Rows>>)
    requires IsTable(points, cols)
    ensures r.Err? <==> |points| < SampleSize || cols == 0
    ensures r.Err? ==> r.error == ValueError
    ensures r.Ok? ==> exists idx :: (IsSample(idx, |points|, SampleSize)
      && r == Preprocessed(points, cols, idx))
  {
    var coords := Xyz(points);  // points[:, :3]
    var sampled :- Downsample(|points|, SampleSize, "random", draw);
    sampled := ShuffleSample(sampled, |points|, reorder);
    var rows := Sampled(coords, sampled);
    assert IsTable(rows, Min(cols, 3));
    r := NormalizeCloud(rows, Min(cols, 3));
  }

  /** What the preprocessing makes of the rows `idx` the generator picked. */
  function Preprocessed(points: Rows, cols: nat, idx: seq<nat>): (r: Result<Option<Rows>>)
    requires IsTable(points, cols) && IsSample(idx, |points|, SampleSize)
    ensures r.Ok? && r.value.Some? ==> IsTable(r.value.value, Min(cols, 3))
  {
    NormalizeCloud(Sampled(Xyz(points), idx), Min(cols, 3))
  }

  function Min(a: nat, b: nat): nat {
    if a <= b then a else b
  }

  // ---------------------------------------------------------------- the axis remap

  /** Lines 239-241 on one point: the axes reordered to (z, x, y), the new
      first axis negated and the new third lifted by 0.0125. */
  function RemappedRow(row: seq<real>): (r: seq<real>)
    requires |row| >= 3
    ensures |r| == 3
  {
    [-row[2], row[0], row[1] + 0.0125]
  }

  /** The way back from a remapped point to its x, y, z. */
  function UnmappedRow(v: seq<real>): (r: seq<real>)
    requires |v| == 3
  {
    [v[1], v[2] - 0.0125, -v[0]]
  }

  /** The remap loses nothing: it is undone by UnmappedRow, in both orders. */
  lemma RemapInverts(row: seq<real>, v: seq<real>)
    requires |row| >= 3 && |v| == 3
    ensures UnmappedRow(RemappedRow(row)) == row[..3]
    ensures RemappedRow(UnmappedRow(v)) == v
  {
  }

  function Remapped(pc: Rows): (r: Rows)
    requires forall i :: 0 <= i < |pc| ==> |pc[i]| >= 3
    ensures |r| == |pc| && IsTable(r, 3)
    ensures forall i :: 0 <= i < |pc| ==> r[i] == RemappedRow(pc[i])
  {
    seq(|pc|, i requires 0 <= i < |pc| => RemappedRow(pc[i]))
  }

  /** `pc[:, [2, 0, 1]]` into a new array, then `pc[:, 0] *= -1` and
      `pc[:, 2] += 0.0125` in place on it; fewer than three columns is an IndexError. */
  method RemapAxes(pc: Rows, w: nat) returns (r: Result<array2<real>>)
    requires IsTable(pc, w)
    ensures r.Err? <==> w < 3
    ensures r.Err? ==> r.error == IndexError
    ensures r.Ok? ==> fresh(r.value) && Table(r.value) == Remapped(pc)
  {
    if w < 3 {
      return Err(IndexError);
    }
    var a := Reorder(pc, w);
    NegateColumn(a, 0);
    LiftColumn(a, 2, 0.0125);
    assert Table(a) == Remapped(pc) by {
      forall k | 0 <= k < |pc|
        ensures Table(a)[k] == RemappedRow(pc[k])
      {
        assert Table(a)[k][0] == a[k, 0] && Table(a)[k][1] == a[k, 1] && Table(a)[k][2] == a[k, 2];
      }
    }
    r := Ok(a);
  }

  /** `pc[:, [2, 0, 1]]`: a new N x 3 array holding the columns z, x, y. */
  method Reorder(pc: Rows, w: nat) returns (a: array2<real>)
    requires IsTable(pc, w) && w >= 3
    ensures fresh(a) && a.Length0 == |pc| && a.Length1 == 3
    ensures forall k :: 0 <= k < |pc| ==> a[k, 0] == pc[k][2] && a[k, 1] == pc[k][0] && a[k, 2] == pc[k][1]
  {
    a := new real[|pc|, 3];
    for i := 0 to |pc|
      invariant forall k :: 0 <= k < i ==> a[k, 0] == pc[k][2] && a[k, 1] == pc[k][0] && a[k, 2] == pc[k][1]
    {
      a[i, 0], a[i, 1], a[i, 2] := pc[i][2], pc[i][0], pc[i][1];
    }
  }

  /** `a[:, c] *= -1`. */
  method NegateColumn(a: array2<real>, c: nat)
    requires c < a.Length1
    modifies a
    ensures forall k, j :: 0 <= k < a.Length0 && 0 <= j < a.Length1 ==>
      a[k, j] == if j == c then -old(a[k, j]) else old(a[k, j])
  {
    for i := 0 to a.Length0
      invariant forall k, j :: 0 <= k < a.Length0 && 0 <= j < a.Length1 ==>
        a[k, j] == if j == c && k < i then -old(a[k, j]) else old(a[k, j])
    {
      a[i, c] := -a[i, c];
    }
  }

  /** `a[:, c] += d`. */
  method LiftColumn(a: array2<real>, c: nat, d: real)
    requires c < a.Length1
    modifies a
    ensures forall k, j :: 0 <= k < a.Length0 && 0 <= j < a.Length1 ==>
      a[k, j] == if j == c then old(a[k, j]) + d else old(a[k, j])
  {
    for i := 0 to a.Length0
      invariant forall k, j :: 0 <= k < a.Length0 && 0 <= j < a.Length1 ==>
        a[k, j] == if j == c && k < i then old(a[k, j]) + d else old(a[k, j])
    {
      a[i, c] := a[i, c] + d;
    }
  }

  // ---------------------------------------------------------------- create_objects: create_cloud

  /** `coords + [0.5, 0.5, 0.5 - 0.0125]` for one row: three coordinates are
      shifted one by one, a single one is broadcast to all three. */
  function ShiftedForColour(row: seq<real>): (r: seq<real>)
    requires |row| == 1 || |row| == 3
    ensures |r| == 3
  {
    if |row| == 3 then [row[0] + 0.5, row[1] + 0.5, row[2] + 0.4875]
    else [row[0] + 0.5, row[0] + 0.5, row[0] + 0.4875]
  }

  /** The colours of `create_cloud`: the colour map of the shifted coordinates
      when the points have no columns beyond x, y, z (`colors.shape[1] == 0`),
      else columns 3 to 5 as they are. Zero or two coordinate columns do not
      broadcast against the 1 x 3 shift (ValueError). */
  function LegacyColours(points: Rows, cols: nat, cm: string): (r: Result<seq<Value>>)
    requires IsTable(points, cols)
    ensures r.Ok? ==> |r.value| == |points|
  {
    if cols == 0 || cols == 2 then Err(ValueError)
    else if cols <= 3 then Ok(seq(|points|, i requires 0 <= i < |points| => ClippedColour(cm, Reals(ShiftedForColour(points[i])))))
    else Ok(seq(|points|, i requires 0 <= i < |points| => Reals(Slice(points[i], 3, 6))))
  }

  /** The radius: column 6 when there is one, else the default size 0.025. */
  function LegacyRadius(row: seq<real>): real {
    if |row| >= 7 then row[6] else 0.025
  }

  /** `create_ball(points[idx], colors[idx], sizes[idx])`: the ball is moved by the whole row. */
  function LegacyBall(points: Rows, colours: seq<Value>, idx: nat): Value
    requires idx < |points| && idx < |colours|
  {
    Ball(Reals(points[idx]), colours[idx], LegacyRadius(points[idx]))
  }

  /** The shapegroup after the first n iterations (LegacyCollectorKeys: its
      type and one key per row so far; LegacyCollectorBalls: the row's ball). */
  function LegacyCollector(points: Rows, colours: seq<Value>, n: nat): Scene
    requires n <= |points| && n <= |colours|
  {
    if n == 0 then map["type" := Str("shapegroup")]
    else LegacyCollector(points, colours, n - 1)[NatToStr(n - 1) := LegacyBall(points, colours, n - 1)]
  }

  /** After n iterations the shapegroup holds its type and the keys "0" .. "n-1". */
  lemma {:induction false} LegacyCollectorKeys(points: Rows, colours: seq<Value>, n: nat)
    requires n <= |points| && n <= |colours|
    ensures LegacyCollector(points, colours, n).Keys == {"type"} + IndexKeys(n)
    ensures LegacyCollector(points, colours, n)["type"] == Str("shapegroup")
  {
    if n > 0 {
      LegacyCollectorKeys(points, colours, n - 1);
      IndexKeyNotType(n - 1);
    }
  }

  /** `create_cloud(points)`: the instance dict around the shapegroup. */
  function LegacyCloud(points: Rows, cols: nat, cm: string): Result<Scene>
    requires IsTable(points, cols)
  {
    var colours :- LegacyColours(points, cols, cm);
    Ok(PointsDict(LegacyCollector(points, colours, |points|)))
  }

  /** `create_cloud`: the colours, the balls, and the instance dict around them. */
  method LegacyCreateCloud(points: Rows, cols: nat, cm: string) returns (r: Result<Scene>)
    requires IsTable(points, cols)
    ensures r == LegacyCloud(points, cols, cm)
  {
    var colours :- LegacyColours(points, cols, cm);
    var collector := CollectLegacyBalls(points, colours);
    r := Ok(PointsDict(collector));
    LegacyCloudOf(points, cols, cm, colours);
  }

  /** Lines 161-164: the shapegroup, one ball per row added in a loop. */
  method CollectLegacyBalls(points: Rows, colours: seq<Value>) returns (collector: Scene)
    requires |colours| == |points|
    ensures collector == LegacyCollector(points, colours, |points|)
  {
    collector := map["type" := Str("shapegroup")];
    for idx := 0 to |points|
      invariant collector == LegacyCollector(points, colours, idx)
    {
      collector := collector[NatToStr(idx) := LegacyBall(points, colours, idx)];
    }
  }

  /** The cloud around the collector of the colours computed. */
  lemma LegacyCloudOf(points: Rows, cols: nat, cm: string, colours: seq<Value>)
    requires IsTable(points, cols) && LegacyColours(points, cols, cm) == Ok(colours)
    ensures LegacyCloud(points, cols, cm) == Ok(PointsDict(LegacyCollector(points, colours, |points|)))
  {
  }

  /** A cloud fails, with a ValueError, exactly when the shift cannot broadcast
      (zero or two columns). */
  lemma LegacyCloudFails(points: Rows, cols: nat, cm: string)
    requires IsTable(points, cols)
    ensures LegacyCloud(points, cols, cm).Err? <==> cols == 0 || cols == 2
    ensures LegacyCloud(points, cols, cm).Err? ==> LegacyCloud(points, cols, cm).error == ValueError
  {
  }

  /** The colour row idx gets: the colour map of its shifted coordinates up to
      three columns, columns 3 to 5 beyond. */
  function LegacyColourOf(row: seq<real>, cols: nat, cm: string): Value
    requires |row| == cols && cols != 0 && cols != 2
  {
    if cols <= 3 then ClippedColour(cm, Reals(ShiftedForColour(row))) else Reals(Slice(row, 3, 6))
  }

  /** Otherwise there is one ball per row, keyed `str(idx)`, moved by the row,
      of radius 0.025 below seven columns and column 6 from seven on, in the
      row's colour. */
  lemma {:induction false} LegacyCloudOneBallPerRow(points: Rows, cols: nat, cm: string)
    requires IsTable(points, cols) && cols != 0 && cols != 2
    ensures LegacyCloud(points, cols, cm).Ok?
    ensures var d := LegacyCloud(points, cols, cm).value;
      && d.Keys == {"type", "points"} && d["type"] == Str("instance") && d["points"].Dict?
      && var group := d["points"].entries;
      && group.Keys == {"type"} + IndexKeys(|points|) && |group.Keys| == |points| + 1
      && group["type"] == Str("shapegroup")
      && forall idx: nat :: idx < |points| ==>
        HoldsBall(group, idx, Ball(Reals(points[idx]), LegacyColourOf(points[idx], cols, cm),
                                   if cols < 7 then 0.025 else points[idx][6]))
  {
    var colours := LegacyColours(points, cols, cm).value;
    LegacyCloudOf(points, cols, cm, colours);
    PointsDictShape(LegacyCollector(points, colours, |points|));
    LegacyCollectorLayout(points, colours);
    LegacyCollectorBalls(points, colours, |points|);
    forall idx: nat | idx < |points|
      ensures LegacyBall(points, colours, idx) ==
        Ball(Reals(points[idx]), LegacyColourOf(points[idx], cols, cm), if cols < 7 then 0.025 else points[idx][6])
    {
      LegacyBallOf(points, cols, cm, idx);
    }
  }

  /** The finished shapegroup, for any colours: its type and the keys "0" .. "N-1". */
  lemma LegacyCollectorLayout(points: Rows, colours: seq<Value>)
    requires |colours| == |points|
    ensures var group := LegacyCollector(points, colours, |points|);
      && group.Keys == {"type"} + IndexKeys(|points|) && |group.Keys| == |points| + 1
      && group["type"] == Str("shapegroup")
  {
    GroupKeyCount(|points|);
    LegacyCollectorKeys(points, colours, |points|);
  }

  /** Row idx's ball sits under `str(idx)` in the shapegroup after n rows. */
  lemma {:induction false} LegacyCollectorBalls(points: Rows, colours: seq<Value>, n: nat)
    requires n <= |points| && n <= |colours|
    ensures forall idx: nat :: idx < n ==> HoldsBall(LegacyCollector(points, colours, n), idx, LegacyBall(points, colours, idx))
  {
    if n > 0 {
      LegacyCollectorBalls(points, colours, n - 1);
      forall idx: nat | idx < n - 1
        ensures NatToStr(idx) != NatToStr(n - 1)
      {
        IndexKeysDiffer(idx, n - 1);
      }
    }
  }

  /** The ball of row idx, spelled out. */
  lemma LegacyBallOf(points: Rows, cols: nat, cm: string, idx: nat)
    requires IsTable(points, cols) && cols != 0 && cols != 2 && idx < |points|
    ensures LegacyBall(points, LegacyColours(points, cols, cm).value, idx) ==
      Ball(Reals(points[idx]), LegacyColourOf(points[idx], cols, cm), if cols < 7 then 0.025 else points[idx][6])
  {
  }

  // ---------------------------------------------------------------- create_objects

  /** An entry of the object list: a numpy array (its rows and column count) or anything else. */
  datatype Object = NdArray(points: Rows, cols: nat) | NotAnArray

  /** Every array in the list is a table. */
  predicate Tables(objects: seq<Object>) {
    forall i :: 0 <= i < |objects| ==> objects[i].NdArray? ==> IsTable(objects[i].points, objects[i].cols)
  }

  /** `-(num_obj - 1) / 2`. */
  function Offset(n: nat): real {
    -((n as real) - 1.0) / 2.0
  }

  /** Where instance i of n goes: `translate([offset + i, -(offset + i), 0])`. */
  function Placement(n: nat, i: nat): Value {
    Xform(Translate(List([Real(Offset(n) + i as real), Real(-(Offset(n) + i as real)), Int(0)])))
  }

  function InstanceKey(i: nat): string {
    "instance_" + NatToStr(i)
  }

  /** The keys of the first n instances. */
  function InstanceKeys(n: nat): (keys: set<string>)
    ensures forall i: nat :: i < n ==> InstanceKey(i) in keys
  {
    if n == 0 then {} else InstanceKeys(n - 1) + {InstanceKey(n - 1)}
  }

  lemma {:induction false} InstanceKeysOnly(n: nat, k: string)
    requires k in InstanceKeys(n)
    ensures exists i: nat :: i < n && k == InstanceKey(i)
  {
    if k != InstanceKey(n - 1) {
      InstanceKeysOnly(n - 1, k);
    }
  }

  /** Different instances have different keys, and none is "ground_plane". */
  lemma InstanceKeyInjective(a: nat, b: nat)
    ensures InstanceKey(a) == InstanceKey(b) ==> a == b
    ensures InstanceKey(a) != "ground_plane"
  {
    var prefix := "instance_";
    if InstanceKey(a) == InstanceKey(b) {
      assert NatToStr(a) == InstanceKey(a)[|prefix|..];
      assert NatToStr(b) == InstanceKey(b)[|prefix|..];
      NatToStrInjective(a, b);
    }
    assert InstanceKey(a)[0] == 'i' && "ground_plane"[0] == 'g';
  }

  /** What one object contributes: its cloud, or NotImplementedError for
      anything that is not an array. */
  function ObjectCloud(obj: Object, cm: string): Result<Scene>
    requires obj.NdArray? ==> IsTable(obj.points, obj.cols)
  {
    match obj
    case NotAnArray => Err(NotImplementedError)
    case NdArray(pts, cols) => LegacyCloud(pts, cols, cm)
  }

  /** The contribution of every object, in list order. */
  function Clouds(objects: seq<Object>, cm: string): (clouds: seq<Result<Scene>>)
    requires Tables(objects)
    ensures |clouds| == |objects|
  {
    seq(|objects|, i requires 0 <= i < |objects| => ObjectCloud(objects[i], cm))
  }

  /** The object dict after the first k contributions: the ground plane, then
      each cloud with its placement written into it under `instance_<i>`; the
      first failed contribution stops the loop with its error. */
  function InstancesUpTo(clouds: seq<Result<Scene>>, k: nat): Result<Scene>
    requires k <= |clouds|
  {
    if k == 0 then Ok(map["ground_plane" := Dict(Ground())])
    else
      var prev :- InstancesUpTo(clouds, k - 1);
      var cloud :- clouds[k - 1];
      Ok(prev[InstanceKey(k - 1) := Dict(cloud["to_world" := Placement(|clouds|, k - 1)])])
  }

  /** The object dict after the first k objects. */
  function ObjectsUpTo(objects: seq<Object>, cm: string, k: nat): Result<Scene>
    requires Tables(objects) && k <= |objects|
  {
    InstancesUpTo(Clouds(objects, cm), k)
  }

  /** `create_objects(objects, cm)`. */
  method CreateObjects(objects: seq<Object>, cm: string) returns (r: Result<Scene>)
    requires Tables(objects)
    ensures r == ObjectsUpTo(objects, cm, |objects|)
  {
    ghost var clouds := Clouds(objects, cm);
    var objs: Scene := map["ground_plane" := Dict(Ground())];
    for i := 0 to |objects|
      invariant InstancesUpTo(clouds, i) == Ok(objs)
    {
      InstancesStep(clouds, i, objs);
      if objects[i].NotAnArray? {
        InstancesErrorStays(clouds, i + 1, |objects|);
        return Err(NotImplementedError);
      }
      var cloud := LegacyCreateCloud(objects[i].points, objects[i].cols, cm);
      if cloud.Err? {
        InstancesErrorStays(clouds, i + 1, |objects|);
        return Err(cloud.error);
      }
      objs := objs[InstanceKey(i) := Dict(cloud.value["to_world" := Placement(|objects|, i)])];
    }
    r := Ok(objs);
  }

  /** One more contribution: its error, or its placed cloud added to the dict. */
  lemma InstancesStep(clouds: seq<Result<Scene>>, i: nat, objs: Scene)
    requires i < |clouds| && InstancesUpTo(clouds, i) == Ok(objs)
    ensures clouds[i].Err? ==> InstancesUpTo(clouds, i + 1) == Err(clouds[i].error)
    ensures clouds[i].Ok? ==>
      InstancesUpTo(clouds, i + 1) == Ok(objs[InstanceKey(i) := Dict(clouds[i].value["to_world" := Placement(|clouds|, i)])])
  {
  }

  /** Once the loop has raised, the later contributions change nothing. */
  lemma {:induction false} InstancesErrorStays(clouds: seq<Result<Scene>>, k: nat, m: nat)
    requires k <= m <= |clouds| && InstancesUpTo(clouds, k).Err?
    ensures InstancesUpTo(clouds, m) == InstancesUpTo(clouds, k)
    decreases m - k
  {
    if k < m {
      InstancesErrorStays(clouds, k, m - 1);
    }
  }

  /** The loop gets through the first k contributions exactly when none of
      them failed; otherwise the first failure's error is raised. */
  lemma {:induction false} InstancesOutcome(clouds: seq<Result<Scene>>, k: nat)
    requires k <= |clouds|
    ensures InstancesUpTo(clouds, k).Ok? <==> forall i :: 0 <= i < k ==> clouds[i].Ok?
    ensures InstancesUpTo(clouds, k).Err? ==> exists i :: (0 <= i < k && (forall j :: 0 <= j < i ==> clouds[j].Ok?)
      && clouds[i].Err? && InstancesUpTo(clouds, k).error == clouds[i].error)
  {
    if k > 0 {
      InstancesOutcome(clouds, k - 1);
    }
  }

  /** A finished dict holds the ground plane and the keys of the first k instances. */
  lemma {:induction false} InstancesKeys(clouds: seq<Result<Scene>>, k: nat)
    requires k <= |clouds| && InstancesUpTo(clouds, k).Ok?
    ensures InstancesUpTo(clouds, k).value.Keys == {"ground_plane"} + InstanceKeys(k)
    ensures InstancesUpTo(clouds, k).value["ground_plane"] == Dict(Ground())
  {
    if k > 0 {
      InstancesKeys(clouds, k - 1);
      InstanceKeyInjective(k - 1, k - 1);
    }
  }

  /** Instance i of a finished dict is cloud i with its placement written into it. */
  lemma {:induction false} InstancesHold(clouds: seq<Result<Scene>>, k: nat, i: nat)
    requires i < k <= |clouds| && InstancesUpTo(clouds, k).Ok?
    ensures clouds[i].Ok?
    ensures InstanceKey(i) in InstancesUpTo(clouds, k).value
    ensures InstancesUpTo(clouds, k).value[InstanceKey(i)] == Dict(clouds[i].value["to_world" := Placement(|clouds|, i)])
  {
    if i < k - 1 {
      InstancesHold(clouds, k - 1, i);
      InstanceKeyInjective(i, k - 1);
    }
  }

  /** An object `create_objects` accepts: an array whose coordinates broadcast
      against the colour shift (LegacyCloudFails). */
  predicate Accepted(objects: seq<Object>, i: nat)
    requires i < |objects|
  {
    objects[i].NdArray? && objects[i].cols != 0 && objects[i].cols != 2
  }

  /** The error an object that is not accepted raises. */
  function Rejection(objects: seq<Object>, i: nat): Error
    requires i < |objects|
  {
    if objects[i].NotAnArray? then NotImplementedError else ValueError
  }

  /** Object i contributes a cloud exactly when it is accepted; otherwise its rejection. */
  lemma ObjectCloudFails(objects: seq<Object>, cm: string, i: nat)
    requires Tables(objects) && i < |objects|
    ensures Clouds(objects, cm)[i].Ok? <==> Accepted(objects, i)
    ensures Clouds(objects, cm)[i].Err? ==> Clouds(objects, cm)[i].error == Rejection(objects, i)
  {
    if objects[i].NdArray? {
      LegacyCloudFails(objects[i].points, objects[i].cols, cm);
    }
  }

  /** The objects succeed exactly when each is accepted; otherwise the first
      rejected object's error is raised. */
  lemma ObjectsOutcome(objects: seq<Object>, cm: string)
    requires Tables(objects)
    ensures ObjectsUpTo(objects, cm, |objects|).Ok? <==> forall i :: 0 <= i < |objects| ==> Accepted(objects, i)
    ensures ObjectsUpTo(objects, cm, |objects|).Err? ==>
      exists i :: (0 <= i < |objects| && (forall j :: 0 <= j < i ==> Accepted(objects, j))
        && !Accepted(objects, i) && ObjectsUpTo(objects, cm, |objects|).error == Rejection(objects, i))
  {
    var clouds := Clouds(objects, cm);
    InstancesOutcome(clouds, |objects|);
    forall i | 0 <= i < |objects|
      ensures clouds[i].Ok? <==> Accepted(objects, i)
      ensures clouds[i].Err? ==> clouds[i].error == Rejection(objects, i)
    {
      ObjectCloudFails(objects, cm, i);
    }
  }

  /** A successful object dict holds the ground plane and one instance per
      object: that object's cloud with its placement written into it. */
  lemma ObjectsLayout(objects: seq<Object>, cm: string)
    requires Tables(objects) && ObjectsUpTo(objects, cm, |objects|).Ok?
    ensures var objs := ObjectsUpTo(objects, cm, |objects|).value;
      && objs.Keys == {"ground_plane"} + InstanceKeys(|objects|)
      && objs["ground_plane"] == Dict(Ground())
      && forall i: nat :: i < |objects| ==>
        && objects[i].NdArray? && LegacyCloud(objects[i].points, objects[i].cols, cm).Ok?
        && HoldsInstance(objs, i, Dict(LegacyCloud(objects[i].points, objects[i].cols, cm).value["to_world" := Placement(|objects|, i)]))
  {
    var clouds := Clouds(objects, cm);
    InstancesKeys(clouds, |objects|);
    forall i: nat | i < |objects|
      ensures objects[i].NdArray? && LegacyCloud(objects[i].points, objects[i].cols, cm).Ok?
      ensures HoldsInstance(ObjectsUpTo(objects, cm, |objects|).value, i,
        Dict(LegacyCloud(objects[i].points, objects[i].cols, cm).value["to_world" := Placement(|objects|, i)]))
    {
      InstancesHold(clouds, |objects|, i);
    }
  }

  /** Instance i of an object dict: the entry under `instance_<i>`. */
  predicate HoldsInstance(objs: Scene, i: nat, instance: Value) {
    InstanceKey(i) in objs && objs[InstanceKey(i)] == instance
  }

  /** `create_objects` keeps no object back: n objects give n instance keys
      besides the ground plane. */
  lemma {:induction false} InstanceKeyCount(n: nat)
    ensures |InstanceKeys(n)| == n
    ensures "ground_plane" !in InstanceKeys(n)
  {
    if n > 0 {
      InstanceKeyCount(n - 1);
      if InstanceKey(n - 1) in InstanceKeys(n - 1) {
        InstanceKeysOnly(n - 1, InstanceKey(n - 1));
        var i: nat :| i < n - 1 && InstanceKey(i) == InstanceKey(n - 1);
        InstanceKeyInjective(i, n - 1);
      }
      InstanceKeyInjective(n - 1, n - 1);
    }
  }

  /** The instances stand on a diagonal, one unit apart along x, mirrored about
      the origin: instance i and instance n-1-i are opposite. */
  lemma OffsetsMirror(n: nat, i: nat)
    requires i < n
    ensures Offset(n) + i as real == -(Offset(n) + (n - 1 - i) as real)
    ensures i + 1 < n ==> (Offset(n) + (i + 1) as real) - (Offset(n) + i as real) == 1.0
  {
  }

  /** The sum of the x offsets of the first k of n instances. */
  function OffsetSum(n: nat, k: nat): real {
    if k == 0 then 0.0 else OffsetSum(n, k - 1) + Offset(n) + (k - 1) as real
  }

  lemma {:induction false} OffsetSumClosed(n: nat, k: nat)
    ensures OffsetSum(n, k) == (k as real) * Offset(n) + (k as real) * ((k as real) - 1.0) / 2.0
  {
    if k > 0 {
      OffsetSumClosed(n, k - 1);
    }
  }

  /** The x offsets of all n instances sum to zero: the group is centred. */
  lemma OffsetsSumToZero(n: nat)
    ensures OffsetSum(n, n) == 0.0
  {
    OffsetSumClosed(n, n);
  }

  // ---------------------------------------------------------------- the scene dict of the main block

  /** Line 242: the remapped sample three times over. */
  function ObjectList(pc: Rows): (objects: seq<Object>)
    requires forall i :: 0 <= i < |pc| ==> |pc[i]| >= 3
    ensures |objects| == 3 && Tables(objects)
  {
    var t := NdArray(Remapped(pc), 3);
    [t, t, t]
  }

  /** Lines 245-247: the environment, updated with the material, updated with the objects. */
  function LegacyScene(sample: int, objs: Scene): Scene {
    LegacyEnvironment(sample) + LegacyMaterial() + objs
  }

  /** Lines 239-247 on a normalised sample w columns wide: fewer than three
      columns fail the column selection (IndexError); otherwise the objects
      are created from the remapped sample and merged into the scene. */
  function SceneFromSample(pc: Rows, w: nat, sample: int, cm: string): Result<Scene>
    requires IsTable(pc, w)
  {
    if w < 3 then Err(IndexError)
    else
      var objs :- ObjectsUpTo(ObjectList(pc), cm, 3);
      Ok(LegacyScene(sample, objs))
  }

  /** Lines 239-247 after the preprocessing `norm` of a sample w columns
      wide: its error, the IndexError of the column selection, or the scene
      of the normalised sample. A flat sample (all NaN after normalisation)
      is None, and no scene is modelled for it. */
  function SceneFlow(norm: Result<Option<Rows>>, w: nat, sample: int, cm: string): Result<Option<Scene>>
    requires norm.Ok? && norm.value.Some? ==> IsTable(norm.value.value, w)
  {
    var n :- norm;
    if w < 3 then Err(IndexError)
    else match n
      case None => Ok(None)
      case Some(pc) =>
        var scene :- SceneFromSample(pc, w, sample, cm);
        Ok(Some(scene))
  }

  /** The main block from the loaded array to the scene dict handed to
      `load_dict`: too few rows or no columns fail in the preprocessing
      (ValueError), one or two columns in the column selection (IndexError);
      everything else builds the scene of the sample the generator picked. */
  method BuildLegacyScene(points: Rows, cols: nat, sample: int, cm: string, draw: nat -> nat, reorder: nat -> nat)
    returns (r: Result<Option<Scene>>)
    requires IsTable(points, cols)
    ensures r.Err? <==> |points| < SampleSize || cols < 3
    ensures r.Err? ==> r.error == if |points| < SampleSize || cols == 0 then ValueError else IndexError
    ensures r.Ok? ==>
      exists idx :: IsSample(idx, |points|, SampleSize) && r == SceneFlow(Preprocessed(points, cols, idx), Min(cols, 3), sample, cm)
  {
    var pre := Preprocess(points, cols, draw, reorder);
    if pre.Err? {
      return Err(pre.error);
    }
    ghost var idx :| IsSample(idx, |points|, SampleSize) && pre == Preprocessed(points, cols, idx);
    var w := Min(cols, 3);
    SceneFlowOutcome(pre, w, sample, cm);
    if pre.value.None? {
      if w < 3 {
        return Err(IndexError);  // the column selection fails on the NaN sample too
      }
      return Ok(None);
    }
    var scene :- BuildSceneFromSample(pre.value.value, w, sample, cm);
    r := Ok(Some(scene));
  }

  /** Lines 239-247 on a normalised sample: the axis remap, the three copies,
      `create_objects`, and the environment updated with the material and
      the objects. */
  method BuildSceneFromSample(pc: Rows, w: nat, sample: int, cm: string) returns (r: Result<Scene>)
    requires IsTable(pc, w)
    ensures r == SceneFromSample(pc, w, sample, cm)
  {
    var remapped := RemapAxes(pc, w);
    if remapped.Err? {
      return Err(remapped.error);
    }
    var t := NdArray(Table(remapped.value), 3);
    assert [t, t, t] == ObjectList(pc);
    var objs :- CreateObjects([t, t, t], cm);
    r := Ok(LegacyScene(sample, objs));
  }

  /** After a preprocessing that fails exactly without columns, the flow fails
      exactly with fewer than three; with three it yields no scene only for a
      flat sample, and otherwise the scene of the sample's remapped copies. */
  lemma SceneFlowOutcome(norm: Result<Option<Rows>>, w: nat, sample: int, cm: string)
    requires norm.Ok? && norm.value.Some? ==> IsTable(norm.value.value, w)
    requires w <= 3 && (norm.Err? <==> w == 0) && (norm.Err? ==> norm.error == ValueError)
    ensures SceneFlow(norm, w, sample, cm).Err? <==> w < 3
    ensures SceneFlow(norm, w, sample, cm).Err? ==> SceneFlow(norm, w, sample, cm).error == if w == 0 then ValueError else IndexError
    ensures w == 3 ==> (SceneFlow(norm, w, sample, cm) == Ok(None) <==> norm == Ok(None))
    ensures w == 3 && norm.Ok? && norm.value.Some? ==>
      && SceneFromSample(norm.value.value, w, sample, cm).Ok?
      && SceneFlow(norm, w, sample, cm) == Ok(Some(SceneFromSample(norm.value.value, w, sample, cm).value))
  {
    if w == 3 && norm.Ok? && norm.value.Some? {
      ObjectsAccepted(norm.value.value, cm);
    }
  }

  /** The three copies of a three-column sample are all accepted. */
  lemma ObjectsAccepted(pc: Rows, cm: string)
    requires IsTable(pc, 3)
    ensures ObjectsUpTo(ObjectList(pc), cm, 3).Ok?
  {
    ObjectsOutcome(ObjectList(pc), cm);
  }

  /** The keys `create_environment` and `create_material` fill. */
  lemma LegacyEnvironmentKeys(sample: int)
    ensures LegacyEnvironment(sample).Keys == {"type", "integer", "sensor", "emitter"}
    ensures LegacyMaterial().Keys == {MaterialId}
  {
  }

  /** Every instance key starts "ins". */
  lemma InstanceKeyStart(n: nat, k: string)
    requires k in InstanceKeys(n)
    ensures |k| > 3 && k[0] == 'i' && k[1] == 'n' && k[2] == 's'
  {
    InstanceKeysOnly(n, k);
  }

  /** The object keys are none of the environment's or the material's. */
  lemma {:induction false} ObjectKeysApart(n: nat, k: string)
    requires k in {"type", "integer", "sensor", "emitter", MaterialId}
    ensures k !in {"ground_plane"} + InstanceKeys(n)
  {
    assert "integer"[2] == 't';
    if k in InstanceKeys(n) {
      InstanceKeyStart(n, k);
      assert false;
    }
    assert k != "ground_plane";
  }

  /** Two updates with fresh keys: every entry lands, none is overwritten. */
  lemma MergedScene(env: Scene, mat: Scene, objs: Scene)
    requires env.Keys !! mat.Keys && (env.Keys + mat.Keys) !! objs.Keys
    ensures (env + mat + objs).Keys == env.Keys + mat.Keys + objs.Keys
    ensures forall k :: k in env ==> (env + mat + objs)[k] == env[k]
    ensures forall k :: k in mat ==> (env + mat + objs)[k] == mat[k]
    ensures forall k :: k in objs ==> (env + mat + objs)[k] == objs[k]
  {
  }

  /** Merging an object dict into an environment and a material with the
      keys `create_environment` and `create_material` fill. */
  lemma {:induction false} ObjectsMerged(env: Scene, mat: Scene, objs: Scene, n: nat)
    requires env.Keys == {"type", "integer", "sensor", "emitter"} && mat.Keys == {MaterialId}
    requires objs.Keys == {"ground_plane"} + InstanceKeys(n)
    ensures (env + mat + objs).Keys == env.Keys + mat.Keys + objs.Keys
    ensures forall k :: k in env ==> (env + mat + objs)[k] == env[k]
    ensures forall k :: k in mat ==> (env + mat + objs)[k] == mat[k]
    ensures forall k :: k in objs ==> (env + mat + objs)[k] == objs[k]
  {
    forall k | k in env.Keys + mat.Keys
      ensures k !in objs
    {
      ObjectKeysApart(n, k);
    }
    MergedScene(env, mat, objs);
  }

  /** Lines 245-247 on a three-column sample: the scene holds the four
      environment entries, the material, the ground plane and the three
      instances, each the cloud of the remapped sample placed by its own
      transform, and nothing else. */
  lemma {:induction false} LegacySceneLayout(pc: Rows, sample: int, cm: string)
    requires IsTable(pc, 3)
    ensures SceneFromSample(pc, 3, sample, cm).Ok?
    ensures LegacyCloud(Remapped(pc), 3, cm).Ok?
    ensures var scene := SceneFromSample(pc, 3, sample, cm).value;
      && scene.Keys == LegacyEnvironment(sample).Keys + {MaterialId, "ground_plane"} + InstanceKeys(3)
      && (forall k :: k in LegacyEnvironment(sample) ==> scene[k] == LegacyEnvironment(sample)[k])
      && scene[MaterialId] == RoughPlastic() && scene["ground_plane"] == Dict(Ground())
      && forall i: nat :: i < 3 ==>
        HoldsInstance(scene, i, Dict(LegacyCloud(Remapped(pc), 3, cm).value["to_world" := Placement(3, i)]))
  {
    var objects := ObjectList(pc);
    ObjectsAccepted(pc, cm);
    ObjectsLayout(objects, cm);
    var objs := ObjectsUpTo(objects, cm, 3).value;
    LegacyEnvironmentKeys(sample);
    ObjectsMerged(LegacyEnvironment(sample), LegacyMaterial(), objs, 3);
  }

  /** With three instances the offset is -1: they stand at (-1, 1), (0, 0) and (1, -1). */
  lemma ThreePlacements(i: nat)
    requires i < 3
    ensures Placement(3, i) == Xform(Translate(List([Real(i as real - 1.0), Real(1.0 - i as real), Int(0)])))
  {
  }
}
