/** The scene description the scripts hand to the renderer: a nested
    key-value tree. Renderer transforms and colour-map lookups stay opaque:
    they are records of the arguments they were built from. */
module SceneDict {
  import opened Py

  datatype Value =
    | Null
    | Bool(b: bool)
    | Int(i: int)
    | Real(r: real)
    | NaN
    | Str(s: string)
    | List(items: seq<Value>)
    | Dict(entries: map<string, Value>)
    | Xform(t: Transform)
      /** A colour-map lookup of the magnitude of `feed`, optionally divided by the largest magnitude. */
    | MappedColour(cmap: string, normalized: bool, feed: Value)
      /** The older script's colour: `coords` clipped, normalised, and mapped unless the map is 'default'. */
    | ClippedColour(cmap: string, coords: Value)

  /** A renderer transform, kept as the arguments it was built from. */
  datatype Transform =
    | LookAt(origin: Value, target: Value, up: Value)
    | Scale(factors: Value)
    | Translate(offset: Value)
      /** The matrix product `outer @ inner`. */
    | Then(outer: Transform, inner: Transform)

  type Scene = map<string, Value>

  /** A list of floats. */
  function Reals(s: seq<real>): (v: Value)
    ensures v.List? && |v.items| == |s|
    ensures forall i :: 0 <= i < |s| ==> v.items[i] == Real(s[i])
  {
    List(seq(|s|, i requires 0 <= i < |s| => Real(s[i])))
  }

  /** A list of ints. */
  function Ints(s: seq<int>): (v: Value)
    ensures v.List? && |v.items| == |s|
    ensures forall i :: 0 <= i < |s| ==> v.items[i] == Int(s[i])
  {
    List(seq(|s|, i requires 0 <= i < |s| => Int(s[i])))
  }

  /** `d.get(key, default)`. */
  function Get(d: Scene, key: string, default: Value): Value {
    if key in d then d[key] else default
  }

  /** `d[k0][k1]...`, or None where a key is missing or a value is not a dict. */
  function At(d: Scene, path: seq<string>): Option<Value>
    requires path != []
    decreases |path|
  {
    if path[0] !in d then None
    else if |path| == 1 then Some(d[path[0]])
    else match d[path[0]]
      case Dict(inner) => At(inner, path[1..])
      case _ => None
  }

  /** The setting `key` was honoured: a supplied value passes through
      unchanged, an absent one gives way to `default`. */
  predicate TakesSetting(v: Option<Value>, settings: Scene, key: string, default: Value) {
    && (key in settings ==> v == Some(settings[key]))
    && (key !in settings ==> v == Some(default))
  }

  /** The id under which the shared material is registered. */
  const MaterialId: string := "roughplastic"

  /** The rough-plastic material both scripts register (wrapper.py and the older points_renderer.py hold the same dict). */
  function RoughPlastic(): Value {
    Dict(map[
      "type" := Str("roughplastic"),
      "distribution" := Str("ggx"),
      "alpha" := Real(0.05),
      "int_ior" := Real(1.46),
      "diffuse_reflectance" := Dict(map["type" := Str("rgb"), "value" := Ints([1, 1, 1])])
    ])
  }

  /** The shadow-catching ground plane both scripts add. */
  function Ground(): Scene {
    map[
      "type" := Str("rectangle"),
      "bsdf" := Dict(map["type" := Str("ref"), "id" := Str(MaterialId)]),
      "to_world" := Xform(Then(Translate(List([Int(0), Int(0), Real(-0.5)])), Scale(Ints([10, 10, 1]))))
    ]
  }

  /** The ground is a 10 x 10 rectangle lowered to z = -0.5 that refers to the
      shared material by its id. */
  lemma GroundShape()
    ensures At(Ground(), ["type"]) == Some(Str("rectangle"))
    ensures At(Ground(), ["bsdf", "type"]) == Some(Str("ref"))
    ensures At(Ground(), ["bsdf", "id"]) == Some(Str(MaterialId))
    ensures At(Ground(), ["to_world"]) == Some(Xform(Then(Translate(List([Int(0), Int(0), Real(-0.5)])), Scale(Ints([10, 10, 1])))))
  {
  }

  /** The `points_dict` both scripts wrap a shapegroup in. */
  function PointsDict(group: Scene): Scene {
    map["type" := Str("instance"), "points" := Dict(group)]
  }

  /** An instance of the group, and nothing else. */
  lemma PointsDictShape(group: Scene)
    ensures PointsDict(group).Keys == {"type", "points"}
    ensures PointsDict(group)["type"] == Str("instance") && PointsDict(group)["points"] == Dict(group)
  {
  }

  /** One sphere of the point cloud: `create_ball`. */
  function Ball(coord: Value, colour: Value, radius: real): Value {
    Dict(map[
      "type" := Str("sphere"),
      "radius" := Real(radius),
      "to_world" := Xform(Translate(coord)),
      "bsdf" := Dict(map[
        "type" := Str("diffuse"),
        "reflectance" := Dict(map["type" := Str("rgb"), "value" := colour])
      ])
    ])
  }

  /** A ball is a diffuse sphere of the given radius, moved to `coord`, whose
      reflectance is the given colour. */
  lemma BallShape(coord: Value, colour: Value, radius: real)
    ensures Ball(coord, colour, radius).Dict?
    ensures var e := Ball(coord, colour, radius).entries;
      && At(e, ["type"]) == Some(Str("sphere"))
      && At(e, ["radius"]) == Some(Real(radius))
      && At(e, ["to_world"]) == Some(Xform(Translate(coord)))
      && At(e, ["bsdf", "reflectance", "value"]) == Some(colour)
  {
  }
}
