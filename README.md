# PointCloudRenderer: a Dafny model of its scene assembly, preprocessing and output naming

PointCloudRenderer turns a point cloud, an N x C numpy array, into a scene
description for the mitsuba renderer. Each point becomes a small sphere.
The scripts also decide where the rendered image or animation is written.
This project models the deterministic part of that work and proves what it
promises.

- `scripts/renderer/wrapper.py` is modelled in module `Wrapper`.
  - `create_environment`: the integrator, the light, the material, and one
    camera per view. Absent settings take their defaults.
  - `create_ground`.
  - `create_cloud`:
    - the colour and size precedence read from `--format`;
    - one ball per point, keyed `str(idx)`, filled into the shapegroup by a loop.
  - `rotate_points`.
  - `build_scene`, which scales the caller's array in place (`xyz` is a view
    of it) before the scene is assembled.
- `scripts/renderer/points_loader.py` is modelled in module `PointsLoader`.
  - `load_points`.
  - `get_output_path`: forcing the suffix, turning a directory output into
    `dir/stem` (an assignment to `args.output` that persists), and renaming
    once on a collision.
- `scripts/renderer/args.py` is modelled in module `Args`.
  - The options and their defaults.
  - The mutual exclusion of `--file` and `--xml`.
  - The YAML configuration with the preview override written into it.
- `scripts/anim_obj_axis.py` is modelled in module `AnimObjAxis`.
  - The axis letter, picked with Python's negative indexing.
  - The `np.arange` sweep of angles.
  - The per-frame pose.
  - The frame loop, which hands the SAME array to `build_scene` every time.
    Frame k therefore sees coordinates scaled k + 1 times.
- `points_renderer.py` is modelled in module `PointsRenderer`. It is the
  older stand-alone renderer.
  - Its output naming, which is shown to coincide with the loader's naming
    for suffix "jpg".
  - Its fixed environment and material.
  - `preprocess_pointcloud`: random downsampling to 2048 distinct rows, an
    in-place shuffle, and normalisation into [-0.5, 0.5] with the widest
    axis spanning exactly 1.
  - The axis remap, done in place on a new array.
  - `create_objects`, with its nested `create_cloud`.
  - The main block from the loaded array to the scene dict.

Supporting modules:

- `Py` holds Python's builtins as the scripts use them: `int()` truncation,
  `str(int)`, `find`/`in`, clamping slices, negative indexing, `amin`/`amax`,
  and the exceptions.
- `Paths` holds the part of POSIX `pathlib` the scripts use.
- `SceneDict` is the scene tree.

The renderer's transforms, colour-map lookups and rotations are kept opaque:
records of their arguments, or function parameters. The filesystem
(`exists`, `is_dir`), the clock (`os.times().elapsed`), the YAML loader,
`np.load` and the random generator are all parameters.

## Model

| member | source | states |
|---|---|---|
| Py.Take | scripts/renderer/wrapper.py:119 | `s[:k]` keeps the first min(k, len) elements in order |
| Py.Drop | scripts/renderer/wrapper.py:161 | `s[k:]` keeps the elements from k on, or nothing past the end |
| Py.Slice | scripts/renderer/wrapper.py:122 | a Python slice clamps both bounds: its length is the overlap with the sequence and element i is `s[lo + i]` |
| Py.PyIndex | scripts/anim_obj_axis.py:26 | indexing succeeds exactly for -len <= i < len, a negative index counting from the end |
| Py.Trunc | scripts/anim_obj_axis.py:24 | `int(x)` truncates toward zero: within 1 of x, never further from 0 than x |
| Py.MaxOf | points_renderer.py:206 | `np.amax` is an element and bounds every element from above |
| Py.MinOf | points_renderer.py:205 | `np.amin` is an element and bounds every element from below |
| Py.NatToStr | scripts/renderer/wrapper.py:149 | `str(n)` is a non-empty string of digits, one digit exactly for n < 10, ending in the last digit of n |
| Py.NatToStrInjective | scripts/renderer/wrapper.py:148-149 | different indices print differently, so `str(idx)` keys never collide |
| Py.IntToStr | scripts/renderer/points_loader.py:20 | `str(i)` is digits with at most a leading minus sign (no separator or dot) |
| Py.Find | scripts/renderer/wrapper.py:121 | `find` returns the first occurrence, or -1 when there is none |
| Py.ContainsIff | scripts/renderer/wrapper.py:120 | `sub in s` holds exactly when sub occurs at some index |
| Py.LetterAbsent | scripts/renderer/wrapper.py:141 | a letter missing from the format is not `in` it |
| Py.PermutationKeepsDistinct | points_renderer.py:215 | shuffling distinct indices keeps them distinct |
| Paths.Parse | scripts/renderer/args.py:8 | `Path(s)` keeps only valid components, and its root is the one POSIX `splitroot` gives s |
| Paths.RootOf | scripts/renderer/args.py:8 | the root is "" exactly when s does not start with '/', "//" exactly when s starts with two slashes and no third, and "/" otherwise |
| Paths.DoubleSlashRoot | scripts/renderer/args.py:8 | "//a" prints back as "//a", while "///a" and "/a" both print as "/a" |
| Paths.ParseName | scripts/renderer/args.py:24 | `Path('config.yaml')` is the single relative component "config.yaml" |
| Paths.ParseCurrentDir | scripts/renderer/args.py:10 | `Path('./')` has no components |
| Paths.SplitWithoutSeparator | scripts/renderer/args.py:24 | a string without '/' splits into itself alone |
| Paths.StrSplitsAtName | scripts/renderer/points_loader.py:21 | `str(p)` is the directory prefix followed by the name |
| Paths.RFind | scripts/renderer/points_loader.py:20 | `rfind` gives the last occurrence of the character, or -1 |
| Paths.StemThenSuffix | scripts/renderer/points_loader.py:20 | stem and suffix put back together give the name; a non-empty name has a non-empty stem |
| Paths.JoinPath | scripts/renderer/points_loader.py:15 | `p / q` with a relative q appends q's components to p and keeps p's root; a q with a root replaces p; joining valid paths gives a valid path |
| Paths.WithName | scripts/renderer/points_loader.py:20 | `with_name` fails (ValueError) exactly for an empty name or an invalid new name; otherwise only the last component changes |
| Paths.WithSuffix | scripts/renderer/points_loader.py:17 | `with_suffix` fails exactly for an empty name or a malformed suffix; otherwise the name becomes stem + suffix in the same directory |
| Paths.WithSuffixSetsSuffix | scripts/renderer/points_loader.py:17 | `with_suffix('.' + ext)` of a named valid path succeeds, stays valid, has suffix exactly '.' + ext and keeps the stem |
| Paths.DotExtensionSplits | scripts/renderer/points_loader.py:17 | stem + '.' + ext splits back at that dot into stem and suffix |
| Paths.StrEndsWithName | scripts/renderer/points_loader.py:21 | `str(p)` ends with `p.name` |
| Paths.SiblingsPrintDifferently | scripts/renderer/points_loader.py:20 | two paths in one directory with different names print differently |
| SceneDict.GroundShape | scripts/renderer/wrapper.py:90-100 | the ground is a rectangle referring to the "roughplastic" material, translated to z = -0.5 and scaled 10 x 10 |
| SceneDict.PointsDictShape | scripts/renderer/wrapper.py:151-154 | the points dict is an "instance" holding the shapegroup and nothing else |
| SceneDict.BallShape | scripts/renderer/wrapper.py:104-114 | a ball is a sphere of the given radius translated to the coordinate, with the colour as its diffuse rgb reflectance |
| Args.Args.constructor | scripts/renderer/args.py:27 | the args record holds the parsed options and the output path |
| Args.Config.constructor | scripts/renderer/args.py:28 | the configuration holds the loaded mapping |
| Args.OptionsOf | scripts/renderer/args.py:7-25 | given options pass through, absent ones take the defaults 'xyz', 0.02, 1, 'turbo', the zero pose, the view [0, 2.5, 1.5, 0, 0, 0] and 'config.yaml'; file and xml are never both set |
| Args.OutputOf | scripts/renderer/args.py:10 | the output defaults to `Path('./')`, and is always a valid path |
| Args.PreviewOverride | scripts/renderer/args.py:29-31 | with preview, sample is 1 and max_depth is 2 and every other entry is kept; without it, the mapping is unchanged |
| Args.ParseArgs | scripts/renderer/args.py:1-32 | parsing fails (usage error) exactly when file and xml are both given or a pose/view does not have six numbers; otherwise args holds the options and cfgs the loaded config after the preview override |
| PointsLoader.LoadPoints | scripts/renderer/points_loader.py:4-8 | exactly a `.npy` suffix is read; anything else raises NotImplementedError |
| PointsLoader.RenamedNameValid | scripts/renderer/points_loader.py:20 | the collision name `stem_<ticks><suffix>` is a valid component that differs from the old name |
| PointsLoader.StrEndsWithTail | scripts/renderer/points_loader.py:21 | whatever ends the name ends the printed path |
| PointsLoader.OutputNameEndsWithSuffix | scripts/renderer/points_loader.py:16-21 | for a named output the result always ends in '.' + suffix, with or without a collision |
| PointsLoader.OutputNameNeedsName | scripts/renderer/points_loader.py:17 | an output without a name raises ValueError in `with_suffix` |
| PointsLoader.NameEndsWithSuffix | scripts/renderer/points_loader.py:17 | a name ends with its own suffix |
| PointsLoader.RenamedEndsWithSuffix | scripts/renderer/points_loader.py:20 | renaming on a collision keeps the suffix at the end of the path |
| PointsLoader.FreeCandidateKept | scripts/renderer/points_loader.py:18-21 | a candidate that does not exist is returned unchanged |
| PointsLoader.CollisionRenamedOnce | scripts/renderer/points_loader.py:18-20 | an existing candidate is renamed once, in the same directory, to a name that prints differently; the new name is not checked again |
| PointsLoader.GetOutputPath | scripts/renderer/points_loader.py:11-21 | a directory output is replaced by dir/stem in `args.output` (a missing input file is a TypeError), any other output is left alone, and the result is the output name derived from the new `args.output` |
| Wrapper.RotatePoints | scripts/renderer/wrapper.py:7-13 | rotation keeps the row and column counts, rotates the first three columns and keeps every later column; fewer than three columns is a ValueError |
| Wrapper.ScaleXyz | scripts/renderer/wrapper.py:162 | scaling xyz keeps the shape of the rows |
| Wrapper.ScaleXyzTwice | scripts/renderer/wrapper.py:162 | scaling twice is scaling once by the product, so in-place scalings compound |
| Wrapper.ScaleXyzOne | scripts/renderer/wrapper.py:162 | scaling by 1 changes nothing |
| Wrapper.SensorKeyInjective | scripts/renderer/wrapper.py:46 | `sensor_<i>` determines i |
| Wrapper.SensorKeysDiffer | scripts/renderer/wrapper.py:46 | two views never share a camera key |
| Wrapper.SensorHonoursSettings | scripts/renderer/wrapper.py:46-62 | a camera looks from `view[:3]` at `view[3:]` with z up; width, height and sample take supplied settings or 1920, 1080 and 1 |
| Wrapper.SensorKeys | scripts/renderer/wrapper.py:45-63 | the first n camera keys include `sensor_<i>` for every i < n |
| Wrapper.SensorKeysOnly | scripts/renderer/wrapper.py:45-63 | every camera key belongs to one of the views |
| Wrapper.SensorsKeys | scripts/renderer/wrapper.py:45-63 | the views dict has exactly the camera keys of its views |
| Wrapper.SensorsHold | scripts/renderer/wrapper.py:45-63 | view i's camera sits under `sensor_<i>` |
| Wrapper.LightingHonoursSettings | scripts/renderer/wrapper.py:18-44 | max_depth defaults to -1 and light_power to 6; the light is at height light_z (20), facing the origin, scaled by light_size (10) |
| Wrapper.EnvironmentOfKeys | scripts/renderer/wrapper.py:80-86 | the scene's keys are the fixed ones and one per camera |
| Wrapper.EnvironmentOfFixed | scripts/renderer/wrapper.py:80-86 | the scene type, integrator, light and material are not overwritten by a camera |
| Wrapper.EnvironmentOfCamera | scripts/renderer/wrapper.py:80-86 | every camera survives the merge under its own key |
| Wrapper.EnvironmentLayout | scripts/renderer/wrapper.py:16-87 | the environment has the fixed keys plus one per view, holding the scene type, integrator, light and material |
| Wrapper.EnvironmentCamera | scripts/renderer/wrapper.py:45-64 | view i's camera is in the environment under `sensor_<i>` |
| Wrapper.SensorKeyShape | scripts/renderer/wrapper.py:46 | every camera key starts with "sensor_" followed by a digit |
| Wrapper.SensorKeysNotFixed | scripts/renderer/wrapper.py:80-86 | no camera key is one of the fixed keys |
| Wrapper.SensorKeysStart | scripts/renderer/wrapper.py:46 | every key among the camera keys starts with "sensor_" |
| Wrapper.NoViewsOneSensor | scripts/renderer/wrapper.py:63 | with no views there is exactly one camera, `sensor_0`, looking from (0, 2.5, 1.5) at the origin |
| Wrapper.DefaultViewEnds | scripts/renderer/wrapper.py:63 | the default view splits into origin (0, 2.5, 1.5) and target (0, 0, 0) |
| Wrapper.OneSensorPerView | scripts/renderer/wrapper.py:45-64 | the environment has exactly as many cameras as views |
| Wrapper.SensorKeyCount | scripts/renderer/wrapper.py:45-63 | n views give n distinct camera keys |
| Wrapper.ColourSourceOf | scripts/renderer/wrapper.py:120-132 | rgb columns exactly when "rgb" is in the format, starting at its first occurrence; otherwise feature columns exactly when color_by is non-empty and in the format, of its width at its first occurrence; otherwise positions |
| Wrapper.SizeSourceOf | scripts/renderer/wrapper.py:139-145 | a truthy point_size wins; otherwise the column of the first 's' in the format; otherwise default_point_size |
| Wrapper.Column | scripts/renderer/wrapper.py:129 | column c holds entry c of every row that reaches it |
| Wrapper.Mins | scripts/renderer/wrapper.py:129 | the per-axis minimum of the points |
| Wrapper.Extents | scripts/renderer/wrapper.py:129-131 | the per-axis extent is max minus min |
| Wrapper.Max3 | scripts/renderer/wrapper.py:131 | the largest extent bounds all three and is one of them |
| Wrapper.ShiftedWithinExtent | scripts/renderer/wrapper.py:129-132 | every min-shifted coordinate lies between 0 and the largest extent |
| Wrapper.ShiftedReachesBothEnds | scripts/renderer/wrapper.py:129-132 | some point sits at the minimum of each axis, and some point is a full largest extent above it |
| Wrapper.LowestOnAxis | scripts/renderer/wrapper.py:129 | some point attains the minimum of an axis |
| Wrapper.HighestOnAxis | scripts/renderer/wrapper.py:130 | some point is a full extent above the minimum of an axis |
| Wrapper.PositionFeedInUnitCube | scripts/renderer/wrapper.py:132 | with a positive extent the colour map is fed three values in [0, 1], exactly 1 for a coordinate at the far end |
| Wrapper.FlatCloudFeedsNaN | scripts/renderer/wrapper.py:131-132 | a cloud with zero extent feeds NaN for every point |
| Wrapper.Sizes | scripts/renderer/wrapper.py:139-145 | one size entry per point, by the size source |
| Wrapper.FirstFailure | scripts/renderer/wrapper.py:148-149 | the loop fails exactly when some point fails, and then with the failure of the first failing point |
| Wrapper.IndexKeys | scripts/renderer/wrapper.py:148-149 | the first n ball keys include `str(i)` for every i < n |
| Wrapper.IndexKeysOnly | scripts/renderer/wrapper.py:148-149 | every ball key belongs to one of the points |
| Wrapper.GroupKeyCount | scripts/renderer/wrapper.py:147-149 | a shapegroup of n balls has n + 1 keys |
| Wrapper.IndexKeyCount | scripts/renderer/wrapper.py:147-149 | n points give n distinct ball keys, none of them "type" |
| Wrapper.IndexKeyFresh | scripts/renderer/wrapper.py:149 | a new index gives a key no earlier index has |
| Wrapper.CollectorKeys | scripts/renderer/wrapper.py:147-149 | after n iterations the shapegroup has its type and the keys "0" .. "n-1" |
| Wrapper.CollectorHoldsBall | scripts/renderer/wrapper.py:148-149 | point idx's ball sits under `str(idx)` and is never overwritten |
| Wrapper.IndexKeysDiffer | scripts/renderer/wrapper.py:149 | different indices give different keys |
| Wrapper.IndexKeyNotType | scripts/renderer/wrapper.py:147-149 | no ball key replaces the "type" entry |
| Wrapper.NoFailureMeansBallsFit | scripts/renderer/wrapper.py:148-149 | a loop without failure had a colour and a single radius for every point |
| Wrapper.FirstFailureSkips | scripts/renderer/wrapper.py:148-149 | points that passed do not change which failure comes first |
| Wrapper.CreateCloud | scripts/renderer/wrapper.py:103-155 | the method computes `create_cloud` with the colour columns (Wrapper.Cloud) |
| Wrapper.CollectBalls | scripts/renderer/wrapper.py:147-155 | the loop builds the shapegroup one ball per point, or stops at the first point without a colour (IndexError) or without a single radius (ValueError) |
| Wrapper.SizeEntryIsRadius | scripts/renderer/wrapper.py:143 | where the row reaches the size column, its size entry is its one radius |
| Wrapper.ColoursFailIff | scripts/renderer/wrapper.py:120-137 | the colours give one per point, and fail (ValueError) exactly for an empty cloud that must be scanned: positions always, features only when normalising |
| Wrapper.ShapegroupFailsIff | scripts/renderer/wrapper.py:147-149 | the loop succeeds exactly when every point has a colour and a single radius; with enough colours only a ValueError remains |
| Wrapper.CloudBuiltIff | scripts/renderer/wrapper.py:139-149 | with one colour per point the cloud is built exactly when every row reaches the size column, if one is used; otherwise it fails with ValueError |
| Wrapper.ShapegroupLayout | scripts/renderer/wrapper.py:147-149 | the shapegroup has its type, exactly the keys "0" .. "N-1", N + 1 keys, and point idx's ball under `str(idx)` |
| Wrapper.ShapegroupValue | scripts/renderer/wrapper.py:147-155 | a loop without failure returns the instance wrapping the collector |
| Wrapper.CloudOneBallPerPoint | scripts/renderer/wrapper.py:147-155 | a built cloud is an instance of a shapegroup with exactly one ball per point, at the point's xyz, in its colour, of the radius its size source gives |
| Wrapper.RowSliceRunsShort | scripts/renderer/wrapper.py:122 | as written, more points than colour rows makes the cloud fail |
| Wrapper.RowSliceCounterexample | scripts/renderer/wrapper.py:122 | four black points in format "xyzrgb" fail as written with IndexError, and succeed with the column slice |
| Wrapper.XyzrgbSources | scripts/renderer/wrapper.py:120-145 | "xyzrgb" takes colours from columns 3-5 and the default radius |
| Wrapper.BlackRowsAsWritten | scripts/renderer/wrapper.py:122 | as written, the sample's cloud raises IndexError |
| Wrapper.BlackRowsIntended | scripts/renderer/wrapper.py:120-122 | with the column slice, every point of the sample gets its black rgb and the cloud is built |
| Wrapper.BlackColours | scripts/renderer/wrapper.py:122 | the colour columns of the sample are black |
| Wrapper.RgbColumnsPassThrough | scripts/renderer/wrapper.py:120-122 | with the column slice, each point's colour is its own three rgb columns |
| Wrapper.Xyz | scripts/renderer/wrapper.py:161 | `points[..., :3]` (and `points[:, :3]` at points_renderer.py:212) keeps the first three entries of every row |
| Wrapper.Placed | scripts/renderer/wrapper.py:161-167 | row i of the posed rows is the rotated xyz moved by `pose[:3]`, followed by row i's own features |
| Wrapper.PlacedRows | scripts/renderer/wrapper.py:161-167 | row i handed to `create_cloud` is point i's xyz rotated by `pose[3:]` and moved by `pose[:3]`, then its features `scaled[i][3:]` |
| Wrapper.SceneHoldsPlacedCloud | scripts/renderer/wrapper.py:158-168 | a built scene has at least three columns and is the environment with the cloud of the placed rows |
| Wrapper.BuiltCloudBalls | scripts/renderer/wrapper.py:139-155 | a built cloud has one colour per point, every row reaches the size column, and point i's ball sits at the row's xyz with the row's colour and radius |
| Wrapper.AssembledCloudBalls | scripts/renderer/wrapper.py:166-168 | in the assembled scene, `pointcloud_1` holds point i's ball under `str(i)` |
| Wrapper.ScenePlacesPoints | scripts/renderer/wrapper.py:158-168 | in a built scene, ball `str(i)` of `pointcloud_1` is centred on point i's xyz rotated by `pose[3:]` and moved by `pose[:3]`, with the colour and radius of its placed row |
| Wrapper.SceneErrors | scripts/renderer/wrapper.py:158-168 | fewer than three columns fail the rotation (ValueError) before a clashing keyword fails (TypeError); a built scene is the environment with the cloud added |
| Wrapper.AssembleAddsCloudAndGround | scripts/renderer/wrapper.py:166-168 | the scene holds the cloud as `pointcloud_1`, the ground as `ground_plane`, and stays of type "scene" |
| Wrapper.AddingKeepsType | scripts/renderer/wrapper.py:167-168 | adding the cloud and the ground keeps the scene type |
| Wrapper.AssembleKeepsCameras | scripts/renderer/wrapper.py:166-168 | every view's camera survives the additions |
| Wrapper.SensorKeyNotAdded | scripts/renderer/wrapper.py:167-168 | no camera key is one of the added keys |
| Wrapper.AddingKeepsCamera | scripts/renderer/wrapper.py:167-168 | adding the cloud and the ground keeps a camera |
| Wrapper.AssembleKeys | scripts/renderer/wrapper.py:166-168 | the scene's keys are the fixed ones, one per view, `pointcloud_1` and `ground_plane` |
| Wrapper.EnvironmentLacksAddedKeys | scripts/renderer/wrapper.py:166-168 | the environment had no `pointcloud_1` or `ground_plane` to overwrite |
| Wrapper.NotACameraKey | scripts/renderer/wrapper.py:166-168 | a key not starting with s, t, i, e or r is neither a camera key nor a fixed one |
| Wrapper.IdentityPoseKeepsPoints | scripts/renderer/wrapper.py:161-164 | the zero pose with the identity rotation places every row where it was |
| Wrapper.BuildScene | scripts/renderer/wrapper.py:158-169 | the caller's array ends up with xyz scaled by `args.scale` and its other columns kept, and the result is the scene of the scaled rows |
| Wrapper.ScaleInPlace | scripts/renderer/wrapper.py:161-162 | `xyz *= s` on the view scales the first three columns of the array in place and keeps the rest |
| Wrapper.ScaledTable | scripts/renderer/wrapper.py:162 | entrywise xyz scaling is ScaleXyz |
| AnimObjAxis.AxisFlagsOf | scripts/anim_obj_axis.py:5-7 | fps defaults to 10 and axis to [0, 0, 360, 5]; given values pass through |
| AnimObjAxis.AxisLetter | scripts/anim_obj_axis.py:24-26 | the letter exists exactly when `int(axis[0]) - 1` lies in [-3, 3), and is 'xyz' at that index taken modulo 3; otherwise IndexError |
| AnimObjAxis.AxisSelection | scripts/anim_obj_axis.py:24-26 | 1, 2 and 3 select x, y and z; 0, -1 and -2 select z, y and x through the indices -1, -2 and -3; 4 and -3 are out of range; a fraction is cut toward zero |
| AnimObjAxis.Ceil | scripts/anim_obj_axis.py:25 | the ceiling is the least integer not below x |
| AnimObjAxis.Arange | scripts/anim_obj_axis.py:25 | `arange` fails exactly for a zero step (ZeroDivisionError); otherwise it has ceil((end - begin) / step) angles, or none when that is negative, and its k-th angle is begin + k * step |
| AnimObjAxis.ArangeStopsBeforeEnd | scripts/anim_obj_axis.py:25 | with a positive step every angle is strictly below end and the next one would not be |
| AnimObjAxis.ArangeStopsAboveEnd | scripts/anim_obj_axis.py:25 | with a negative step every angle is strictly above end and the next one would not be |
| AnimObjAxis.DefaultSweep | scripts/anim_obj_axis.py:6 | the default sweep is about z through the 72 angles 0, 5, ..., 355 at 10 frames a second |
| AnimObjAxis.FramePose | scripts/anim_obj_axis.py:31 | a frame's pose keeps `pose[:3]` and replaces only the rotation |
| AnimObjAxis.FrameSceneOf | scripts/anim_obj_axis.py:32 | frame k is the scene of the rows scaled k + 1 times |
| AnimObjAxis.ScaleOnceMore | scripts/anim_obj_axis.py:32 | one more in-place scaling takes s^k to s^(k+1) |
| AnimObjAxis.UnitScaleKeepsPoints | scripts/anim_obj_axis.py:32 | with scale 1 every frame sees the points as loaded |
| AnimObjAxis.AnimateAxis | scripts/anim_obj_axis.py:11-40 | a missing, absent or non-npy input fails first; on success there is one frame per angle in angle order, frame k built from the points scaled k + 1 times, the array is left scaled once per angle, and the output is the 'gif' path; each other failure comes from the sweep, the axis letter, a frame or the output path |
| AnimObjAxis.FramesMatchExtend | scripts/anim_obj_axis.py:26-36 | appending the next angle's scene keeps the frames in angle order |
| AnimObjAxis.RenderFrames | scripts/anim_obj_axis.py:26-36 | the loop yields exactly one frame per angle, in order, or the error of a failing frame, and scales the array once per frame |
| PointsRenderer.JpgSuffixKept | points_renderer.py:32-33 | skipping `with_suffix` for a ".jpg" path is what `with_suffix(".jpg")` would give |
| PointsRenderer.JpgNameIsLoaderNaming | points_renderer.py:32-38 | the older naming is the loader's naming with suffix "jpg" |
| PointsRenderer.JpgNameFails | points_renderer.py:31-33 | naming fails (ValueError) exactly for a path without a name |
| PointsRenderer.JpgNameEndsWithJpg | points_renderer.py:32-38 | a named path gives a name ending in ".jpg", renamed or not |
| PointsRenderer.LegacyOutputDefault | points_renderer.py:31-38 | without an output the result is "output.jpg", or `output_<ticks>.jpg` when that exists |
| PointsRenderer.BareJpgName | points_renderer.py:34-38 | a bare ".jpg" name is kept, or renamed `stem_<ticks>.jpg` when it exists |
| PointsRenderer.LegacyMaterial | points_renderer.py:94-111 | the material dict holds only the rough plastic under "roughplastic" |
| PointsRenderer.LegacyCameraIsWrapperCamera | points_renderer.py:63-82 | apart from its position, the older camera equals the wrapper's camera configured with only `sample` |
| PointsRenderer.LegacyEnvironmentTakesSample | points_renderer.py:41-91 | the environment depends on the sample count alone, which lands in the sampler; depth is -1 |
| PointsRenderer.Shuffle | points_renderer.py:215 | shuffling in place permutes the array |
| PointsRenderer.Choice | points_renderer.py:197 | `choice(n, m, replace=False)` gives m distinct indices below n, and fails (ValueError) exactly when m > n |
| PointsRenderer.Downsample | points_renderer.py:194-202 | only "random" works, giving a sample of distinct in-range indices; "fps" and others raise NotImplementedError |
| PointsRenderer.ShuffleSample | points_renderer.py:215-216 | the shuffled indices are a permutation of the sample, still distinct and in range |
| PointsRenderer.Lows | points_renderer.py:205 | the per-axis minimum |
| PointsRenderer.Highs | points_renderer.py:206 | the per-axis maximum |
| PointsRenderer.Centre | points_renderer.py:207 | the box centre is the mean of min and max per axis |
| PointsRenderer.Spans | points_renderer.py:208 | the per-axis extent is max minus min |
| PointsRenderer.NormalizeCloud | points_renderer.py:204-210 | a normalised sample keeps the row count and the width |
| PointsRenderer.CentredWithinHalfWidest | points_renderer.py:207-209 | every entry lies within half the widest extent of its axis' centre |
| PointsRenderer.WidestAxisEnds | points_renderer.py:205-209 | along the widest axis one row sits half that extent below the centre and one half above |
| PointsRenderer.HalfRatio | points_renderer.py:209 | a value within half a positive scale divides into [-0.5, 0.5] |
| PointsRenderer.NormalizeOutcomes | points_renderer.py:204-210 | normalisation fails (ValueError) exactly without columns; with columns it yields no sample (numpy's NaN division) exactly when the widest extent is 0 |
| PointsRenderer.Shrunk | points_renderer.py:209 | every entry becomes (x - centre) / scale |
| PointsRenderer.NormalizeShrinks | points_renderer.py:208-209 | a sample with a positive widest extent is centred and divided by it |
| PointsRenderer.NormalizedIntoUnitBox | points_renderer.py:204-210 | every normalised coordinate lies in [-0.5, 0.5], and some axis reaches both -0.5 and 0.5 |
| PointsRenderer.ShrunkIntoUnitBox | points_renderer.py:209 | the shrunk sample lies in [-0.5, 0.5] and spans it along some axis |
| PointsRenderer.ShrunkWithinHalf | points_renderer.py:209 | entries within half the scale shrink into [-0.5, 0.5] |
| PointsRenderer.ShrunkEnds | points_renderer.py:209 | the extreme rows of the widest axis shrink to -0.5 and 0.5 |
| PointsRenderer.Sampled | points_renderer.py:216 | row k of the sample is input row `idx[k]` |
| PointsRenderer.Preprocess | points_renderer.py:193-219 | preprocessing fails (ValueError) exactly for fewer than 2048 rows or no columns; otherwise it is the normalisation of the coordinates of 2048 distinct input rows |
| PointsRenderer.Preprocessed | points_renderer.py:212-218 | the normalised sample has min(cols, 3) columns |
| PointsRenderer.RemappedRow | points_renderer.py:239-241 | a remapped point has three coordinates |
| PointsRenderer.RemapInverts | points_renderer.py:239-241 | the remap loses nothing: it is undone by its inverse, in both orders |
| PointsRenderer.Remapped | points_renderer.py:239-241 | every row is remapped to (-z, x, y + 0.0125) |
| PointsRenderer.RemapAxes | points_renderer.py:239-241 | fewer than three columns is an IndexError; otherwise a new array holds the remapped rows |
| PointsRenderer.Reorder | points_renderer.py:239 | the new N x 3 array holds columns z, x, y |
| PointsRenderer.NegateColumn | points_renderer.py:240 | `a[:, c] *= -1` negates column c in place and keeps the others |
| PointsRenderer.LiftColumn | points_renderer.py:241 | `a[:, c] += d` adds d to column c in place and keeps the others |
| PointsRenderer.ShiftedForColour | points_renderer.py:158 | the shift yields three values per row |
| PointsRenderer.LegacyColours | points_renderer.py:156-158 | colours, when they exist, are one per row |
| PointsRenderer.LegacyCollectorKeys | points_renderer.py:162-164 | after n rows the shapegroup has its type and the keys "0" .. "n-1" |
| PointsRenderer.LegacyCreateCloud | points_renderer.py:152-170 | the method computes the older `create_cloud` |
| PointsRenderer.CollectLegacyBalls | points_renderer.py:162-164 | the loop adds one ball per row to the shapegroup |
| PointsRenderer.LegacyCloudOf | points_renderer.py:152-170 | the cloud is the instance around the collector of its colours |
| PointsRenderer.LegacyCloudFails | points_renderer.py:156-158 | the cloud fails (ValueError) exactly when the colour shift cannot broadcast: zero or two columns |
| PointsRenderer.LegacyCloudOneBallPerRow | points_renderer.py:152-170 | a cloud of one, three or more columns is an instance with exactly one ball per row under "0" .. "N-1", moved by the whole row, in the row's colour, of radius 0.025 below seven columns and column 6 from seven on |
| PointsRenderer.LegacyCollectorLayout | points_renderer.py:162-164 | the finished shapegroup has its type and exactly N + 1 keys |
| PointsRenderer.LegacyCollectorBalls | points_renderer.py:162-164 | row idx's ball sits under `str(idx)` and is never overwritten |
| PointsRenderer.LegacyBallOf | points_renderer.py:140-164 | a row's ball spelled out: its translation, colour and radius |
| PointsRenderer.InstanceKeys | points_renderer.py:180 | the first n instance keys include `instance_<i>` for every i < n |
| PointsRenderer.InstanceKeysOnly | points_renderer.py:180 | every instance key belongs to one of the objects |
| PointsRenderer.InstanceKeyInjective | points_renderer.py:180 | instance keys determine their index and are never "ground_plane" |
| PointsRenderer.Clouds | points_renderer.py:178-186 | one contribution per object |
| PointsRenderer.CreateObjects | points_renderer.py:114-190 | the method computes `create_objects`: the ground plane, then each object's placed cloud, stopping at the first failure |
| PointsRenderer.InstancesStep | points_renderer.py:178-186 | one more object adds its placed cloud, or raises its error |
| PointsRenderer.InstancesErrorStays | points_renderer.py:178-186 | once an object has raised, later objects change nothing |
| PointsRenderer.InstancesOutcome | points_renderer.py:178-186 | the loop succeeds exactly when every contribution does; otherwise it raises the first failure's error |
| PointsRenderer.InstancesKeys | points_renderer.py:173-184 | a finished dict holds the ground plane and exactly the instance keys |
| PointsRenderer.InstancesHold | points_renderer.py:180-184 | instance i is cloud i with its placement written into it |
| PointsRenderer.ObjectCloudFails | points_renderer.py:179-186 | an object contributes exactly when it is an array with a broadcasting column count; otherwise NotImplementedError or ValueError |
| PointsRenderer.ObjectsOutcome | points_renderer.py:178-186 | `create_objects` succeeds exactly when every object is accepted; otherwise it raises the first rejected object's error |
| PointsRenderer.ObjectsLayout | points_renderer.py:173-190 | a successful dict has the ground plane and one instance per object, that object's cloud with its placement |
| PointsRenderer.InstanceKeyCount | points_renderer.py:176-184 | n objects give n distinct instance keys, none "ground_plane" |
| PointsRenderer.OffsetsMirror | points_renderer.py:176-184 | the x offsets are spaced by 1 and mirrored about the origin |
| PointsRenderer.OffsetSumClosed | points_renderer.py:177-184 | the closed form of the sum of the first k offsets |
| PointsRenderer.OffsetsSumToZero | points_renderer.py:177-184 | the x offsets of all instances sum to zero |
| PointsRenderer.ObjectList | points_renderer.py:242 | the object list holds three arrays |
| PointsRenderer.BuildLegacyScene | points_renderer.py:237-247 | the main block fails exactly for fewer than 2048 rows or fewer than 3 columns (ValueError for too few rows or no columns, IndexError for one or two); otherwise it yields the scene flow of 2048 distinct input rows |
| PointsRenderer.BuildSceneFromSample | points_renderer.py:239-247 | the remap, the three copies, `create_objects` and the merge compute the sample's scene |
| PointsRenderer.SceneFlowOutcome | points_renderer.py:238-247 | with three columns the flow yields no scene only for a flat sample, and otherwise the sample's scene |
| PointsRenderer.ObjectsAccepted | points_renderer.py:242-247 | the three copies of a three-column sample are all accepted |
| PointsRenderer.LegacyEnvironmentKeys | points_renderer.py:84-111 | the environment and the material fill the keys type, integer, sensor, emitter and roughplastic |
| PointsRenderer.InstanceKeyStart | points_renderer.py:180 | every instance key starts "ins" |
| PointsRenderer.ObjectKeysApart | points_renderer.py:245-247 | the object keys are none of the environment's or the material's |
| PointsRenderer.MergedScene | points_renderer.py:245-247 | two updates with fresh keys keep every entry |
| PointsRenderer.ObjectsMerged | points_renderer.py:245-247 | merging the objects into the environment and material overwrites nothing |
| PointsRenderer.LegacySceneLayout | points_renderer.py:245-247 | the scene holds exactly the environment entries, the material, the ground plane and three instances of the remapped sample's cloud, each placed by its own transform |
| PointsRenderer.ThreePlacements | points_renderer.py:176-184 | three instances stand at (-1, 1, 0), (0, 0, 0) and (1, -1, 0) |

## Left out

- Rendering is not modelled. This covers `load_dict`, `load_file`, `render`,
  bitmaps and `write`, `set_variant`, and the logger set-up of
  `scripts/renderer/__init__.py`. These are foreign library calls; the scene
  dict is the model's output.
- Transforms are records of their arguments. This covers `look_at`, `scale`,
  `translate` and their products.
- Rotations are function parameters. This covers scipy's `from_euler`,
  `as_matrix`, `as_euler` and the matrix product.
- Colour maps are records of the map and the values fed to it. This covers
  `get_cmap`, `np.linalg.norm`, `clip`, the normalisation by the largest
  norm, and `colormap`'s `color is 'default'` identity test.
- Two errors of foreign calls are not modelled. `get_cmap` raises ValueError
  for an unknown colour-map name, but colour maps are opaque records here.
  `open(args.config)` (`scripts/renderer/args.py:28`) raises
  FileNotFoundError for a missing configuration, but the YAML loader is a
  total parameter here.
- Floating point is not modelled: numbers are reals.
  - The `float32` casts are left out.
  - NaN appears only as the feed of a flat cloud (wrapper.py) and as None
    for a flat sample (points_renderer.py).
- PointsRenderer.BuildLegacyScene: a flat sample (widest extent 0) gives
  None. No scene of NaN coordinates is modelled.
- Integer arrays are treated like float arrays. For an int array and a
  float `--scale`, `xyz *= args.scale` (`scripts/renderer/wrapper.py:162`)
  raises numpy's casting error; the model scales the reals instead.
- I/O is left out or made into parameters.
  - Left out: `np.loadtxt`, `imageio.mimsave`, `mkdir` (with `exist_ok` it
    changes nothing the model observes), `tqdm` and `print`.
  - Parameters: `np.load`, `yaml.safe_load`, `exists`/`is_dir` and
    `os.times()`.
- The random generator is a pair of draw functions, so every outcome the
  generator allows is covered. Only the distinctness and range of the sample
  are stated.
- argparse's mechanics are reduced to the options it yields.
  - The command line is a record of given values.
  - The parse fails as one usage error.
  - `points_renderer.py`'s own `parse_arg` and its variant check (lines
    11-27) are not modelled.
- Dictionary order is not modelled: scenes are maps. Insertion order has no
  effect on `load_dict`.
- In `points_renderer.py`'s main block, the `--xml` branch (lines 223-227),
  the `filepath.exists()` assertion and `np.load` (lines 230-235) are not
  modelled. The model starts from the loaded array.
- Wrapper.BuildScene, Wrapper.SceneOf, AnimObjAxis.AnimateAxis and
  AnimObjAxis.RenderFrames build the cloud with the corrected colour slice
  `points[..., ind:ind + 3]` (`Wrapper.Cloud`). As written, line 122 of
  `scripts/renderer/wrapper.py` slices rows, so for an rgb format the code
  colours the first points with whole rows, and it raises IndexError once
  there are more points than the at most three rows that slice selects. The
  model instead colours every point with its own rgb columns (see Findings;
  `Wrapper.CloudAsWritten` models the slice as written).
- `scripts/anim_view.py`, `scripts/anim_obj.py` and `scripts/once.py` are
  not part of this model. They only loop over `build_scene`, render and
  save.

The model follows the code as written, also where the code departs from its
docstrings, which describe the points as `[num_pts, coords(x,y,z)]`
(`scripts/renderer/wrapper.py:117`, `points_renderer.py:154`). The one
exception is the colour slice at `scripts/renderer/wrapper.py:122`; it is
listed under Findings and in the Left out line on `Wrapper.BuildScene` above.
Where the model follows the code against the docstrings:

- The older `create_cloud` takes colours from the colour map only when the
  points have at most three columns (`colors.shape[1] == 0`).
- It moves each ball by the whole row, `points[idx]`, not only its
  coordinates.
- In `build_scene`, a configuration key that repeats a command-line option,
  `views` or `points` is a duplicate keyword argument, so it raises
  TypeError.

## Findings

| source | as written | input that shows it | evidently intended | confidence | as-written member | corrected member |
|---|---|---|---|---|---|---|
| scripts/renderer/wrapper.py:122 | `colors = points[ind:ind + 3]` slices rows, so at most three colours exist and each is a whole row | format "xyzrgb" with four points of six zero columns: point 1 finds no colour row, so the loop raises IndexError | `points[..., ind:ind + 3]`: the three rgb columns of every point | not executed | Wrapper.RowSliceCounterexample | Wrapper.RgbColumnsPassThrough |
