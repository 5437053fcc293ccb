/** `scripts/renderer/args.py`: the command-line options shared by every
    script, their defaults, and the YAML configuration with the preview
    override applied in place. */
module Args {
  import opened Py
  import opened Paths
  import opened SceneDict

  /** Options a calling script adds to the shared parser before handing it over. */
  datatype ScriptFlags =
    | NoFlags
      /** `anim_obj_axis.py`: `--fps` and `--axis AXIS BEGIN END STEP`. */
    | AxisFlags(fps: int, axis: Four)

  /** What the command line supplied; None where an option was not given. */
  datatype CommandLine = CommandLine(
    file: Option<string>,
    xml: Option<string>,
    output: Option<string>,
    format: Option<string>,
    pointSize: Option<real>,
    defaultPointSize: Option<real>,
    scale: Option<real>,
    colorBy: Option<string>,
    colorMap: Option<string>,
    colorNormalize: bool,
    pose: Option<seq<real>>,
    view: Option<seq<real>>,
    config: Option<string>,
    preview: bool)

  /** The parsed options, apart from `output`, which get_output_path rewrites. */
  datatype Options = Options(
    file: Option<Path>,
    xml: Option<Path>,
    format: string,
    pointSize: Option<real>,
    defaultPointSize: real,
    scale: real,
    colorBy: Option<string>,
    colorMap: string,
    colorNormalize: bool,
    pose: Six,
    view: Six,
    config: Path,
    preview: bool,
    flags: ScriptFlags)

  /** The `args` record. Only `output` is ever assigned after parsing. */
  class Args {
    const opts: Options
    var output: Path

    constructor (opts: Options, output: Path)
      ensures this.opts == opts && this.output == output
    {
      this.opts := opts;
      this.output := output;
    }
  }

  /** The `cfgs` record loaded from the YAML file. */
  class Config {
    var entries: Scene

    constructor (entries: Scene)
      ensures this.entries == entries
    {
      this.entries := entries;
    }
  }

  datatype Parsed = Parsed(cfgs: Config, args: Args)

  const DefaultPose: Six := [0.0, 0.0, 0.0, 0.0, 0.0, 0.0]
  const DefaultView: Six := [0.0, 2.5, 1.5, 0.0, 0.0, 0.0]

  /** The keys of `vars(args)` that every script has. */
  const SharedNames: set<string> := {
    "file", "xml", "output", "format", "point_size", "default_point_size", "scale",
    "color_by", "color_map", "color_normalize", "pose", "view", "config", "preview"
  }

  function FlagNames(flags: ScriptFlags): set<string> {
    match flags
    case NoFlags => {}
    case AxisFlags(_, _) => {"fps", "axis"}
  }

  /** The keys of `vars(args)`: the keyword names `**args` spreads into a call. */
  function ArgNames(opts: Options): set<string> {
    SharedNames + FlagNames(opts.flags)
  }

  /** What argparse accepts: not both `--file` and `--xml`, and six numbers for `--pose` and `--view`. */
  predicate CommandLineOk(cli: CommandLine) {
    && !(cli.file.Some? && cli.xml.Some?)
    && (cli.pose.Some? ==> |cli.pose.value| == 6)
    && (cli.view.Some? ==> |cli.view.value| == 6)
  }

  function ParsePathOption(s: Option<string>): Option<Path> {
    match s
    case None => None
    case Some(p) => Some(Parse(p))
  }

  /** The option values: given values pass through, absent ones take the parser's defaults. */
  function OptionsOf(cli: CommandLine, flags: ScriptFlags): (o: Options)
    requires CommandLineOk(cli)
    ensures cli.file.Some? ==> o.file == Some(Parse(cli.file.value))
    ensures cli.xml.Some? ==> o.xml == Some(Parse(cli.xml.value))
    ensures cli.file.None? ==> o.file.None?
    ensures cli.xml.None? ==> o.xml.None?
    ensures !(o.file.Some? && o.xml.Some?)
    ensures o.format == if cli.format.Some? then cli.format.value else "xyz"
    ensures o.pointSize == cli.pointSize
    ensures o.defaultPointSize == if cli.defaultPointSize.Some? then cli.defaultPointSize.value else 0.02
    ensures o.scale == if cli.scale.Some? then cli.scale.value else 1.0
    ensures o.colorBy == cli.colorBy
    ensures o.colorMap == if cli.colorMap.Some? then cli.colorMap.value else "turbo"
    ensures o.colorNormalize == cli.colorNormalize
    ensures o.pose == if cli.pose.Some? then cli.pose.value else [0.0, 0.0, 0.0, 0.0, 0.0, 0.0]
    ensures o.view == if cli.view.Some? then cli.view.value else [0.0, 2.5, 1.5, 0.0, 0.0, 0.0]
    ensures o.config == if cli.config.Some? then Parse(cli.config.value) else Path("", ["config.yaml"])
    ensures o.preview == cli.preview && o.flags == flags
  {
    ParseName("config.yaml");
    Options(
      ParsePathOption(cli.file),
      ParsePathOption(cli.xml),
      cli.format.GetOr("xyz"),
      cli.pointSize,
      cli.defaultPointSize.GetOr(0.02),
      cli.scale.GetOr(1.0),
      cli.colorBy,
      cli.colorMap.GetOr("turbo"),
      cli.colorNormalize,
      if cli.pose.Some? then cli.pose.value else DefaultPose,
      if cli.view.Some? then cli.view.value else DefaultView,
      Parse(cli.config.GetOr("config.yaml")),
      cli.preview,
      flags)
  }

  /** `--output` defaults to `Path('./')`, which pathlib holds as ".". */
  function OutputOf(cli: CommandLine): (p: Path)
    ensures Valid(p)
    ensures cli.output.None? ==> p == Path("", [])
  {
    ParseCurrentDir();
    Parse(cli.output.GetOr("./"))
  }

  /** The configuration after line 29-31: with preview, `sample` is 1 and
      `max_depth` is 2 and nothing else changes; without it, the YAML mapping as loaded. */
  function PreviewOverride(loaded: Scene, preview: bool): (cfgs: Scene)
    ensures preview ==> "sample" in cfgs && cfgs["sample"] == Int(1)
    ensures preview ==> "max_depth" in cfgs && cfgs["max_depth"] == Int(2)
    ensures preview ==> cfgs.Keys == loaded.Keys + {"sample", "max_depth"}
    ensures forall k :: k in loaded && k != "sample" && k != "max_depth" ==> k in cfgs && cfgs[k] == loaded[k]
    ensures !preview ==> cfgs == loaded
  {
    if preview then loaded["sample" := Int(1)]["max_depth" := Int(2)] else loaded
  }

  /** `parse_args`: argparse's checks, the options, then the YAML file named by
      `--config` (read through `load`) with the preview override written into it. */
  method ParseArgs(cli: CommandLine, flags: ScriptFlags, load: Path -> Scene) returns (r: Result<Parsed>)
    ensures r.Err? <==> !CommandLineOk(cli)
    ensures r.Err? ==> r.error == UsageError
    ensures r.Ok? ==> fresh(r.value.args) && fresh(r.value.cfgs)
    ensures r.Ok? ==> r.value.args.opts == OptionsOf(cli, flags) && r.value.args.output == OutputOf(cli)
    ensures r.Ok? ==> r.value.cfgs.entries == PreviewOverride(load(OptionsOf(cli, flags).config), cli.preview)
  {
    if !CommandLineOk(cli) {
      return Err(UsageError);
    }
    var args := new Args(OptionsOf(cli, flags), OutputOf(cli));
    var cfgs := new Config(load(args.opts.config));
    if args.opts.preview {
      cfgs.entries := cfgs.entries["sample" := Int(1)];
      cfgs.entries := cfgs.entries["max_depth" := Int(2)];
    }
    r := Ok(Parsed(cfgs, args));
  }
}
