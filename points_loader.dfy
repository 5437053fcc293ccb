/** `scripts/renderer/points_loader.py`: the loader dispatch on the file
    suffix, and the naming of the output file. The filesystem is the two
    predicates `isDir` and `pathExists`; `elapsed` is `os.times().elapsed`. */
module PointsLoader {
  import opened Py
  import opened Paths
  import opened Args

  /** `load_points`: only `.npy` files are read (by `read`, standing for `np.load`). */
  function LoadPoints<A>(filename: Path, read: Path -> A): (r: Result<A>)
    ensures r.Ok? <==> SuffixOf(Name(filename)) == ".npy"
    ensures r.Ok? ==> r.value == read(filename)
    ensures r.Err? ==> r.error == NotImplementedError
  {
    if SuffixOf(Name(filename)) == ".npy" then Ok(read(filename)) else Err(NotImplementedError)
  }

  /** `int(100 * elapsed)`. */
  function Ticks(elapsed: real): int {
    Trunc(100.0 * elapsed)
  }

  /** The name a colliding output is given: `stem + '_' + str(ticks) + suffix`. */
  function RenamedName(name: string, elapsed: real): string {
    StemOf(name) + "_" + IntToStr(Ticks(elapsed)) + SuffixOf(name)
  }

  /** Lines 16-21: the candidate `output.with_suffix('.' + suffix)`, renamed once if it exists. */
  function OutputName(output: Path, suffix: string, pathExists: Path -> bool, elapsed: real): Result<string> {
    match WithSuffix(output, "." + suffix)
    case Err(e) => Err(e)
    case Ok(candidate) =>
      if !pathExists(candidate) then Ok(Str(candidate))
      else match WithName(candidate, RenamedName(Name(candidate), elapsed))
        case Err(e) => Err(e)
        case Ok(renamed) => Ok(Str(renamed))
  }

  /** The renamed name is a valid component whenever the name it came from is. */
  lemma RenamedNameValid(name: string, elapsed: real)
    requires ValidPart(name)
    ensures ValidPart(RenamedName(name, elapsed))
    ensures RenamedName(name, elapsed) != name
  {
    StemThenSuffix(name);
    var stem, ticks, suf := StemOf(name), IntToStr(Ticks(elapsed)), SuffixOf(name);
    assert '/' !in stem && '/' !in suf by {
      assert stem + suf == name;
      assert multiset(stem) <= multiset(name) && multiset(suf) <= multiset(name);
    }
    assert '/' !in ticks by {
      assert forall k :: 0 <= k < |ticks| ==> ticks[k] != '/';
    }
    assert |stem + "_" + ticks + suf| == |name| + 1 + |ticks|;
  }

  /** A path whose name ends with `tail` prints as a string ending with `tail`. */
  lemma StrEndsWithTail(p: Path, tail: string)
    requires p.parts != []
    requires |tail| <= |Name(p)| && Name(p)[|Name(p)| - |tail|..] == tail
    ensures |tail| <= |Str(p)| && Str(p)[|Str(p)| - |tail|..] == tail
  {
    StrEndsWithName(p);
    var s, n := Str(p), Name(p);
    assert s[|s| - |tail|..] == s[|s| - |n|..][|n| - |tail|..];
  }

  /** The returned path ends in '.' + suffix, which replaced the old suffix,
      whether or not the candidate collided (for a dot-free suffix). */
  lemma {:induction false} OutputNameEndsWithSuffix(output: Path, suffix: string, pathExists: Path -> bool, elapsed: real)
    requires Valid(output) && Name(output) != ""
    requires suffix != "" && '.' !in suffix && '/' !in suffix
    ensures OutputName(output, suffix, pathExists, elapsed).Ok?
    ensures var s := OutputName(output, suffix, pathExists, elapsed).value;
      |s| > |suffix| && s[|s| - |suffix| - 1..] == "." + suffix
  {
    WithSuffixSetsSuffix(output, suffix);
    var candidate := WithSuffix(output, "." + suffix).value;
    var tail := "." + suffix;
    if pathExists(candidate) {
      RenamedEndsWithSuffix(candidate, tail, elapsed);
    } else {
      NameEndsWithSuffix(Name(candidate), tail);
      StrEndsWithTail(candidate, tail);
    }
  }

  /** An output without a name ("", ".", "/") has no suffix to replace: ValueError. */
  lemma OutputNameNeedsName(output: Path, suffix: string, pathExists: Path -> bool, elapsed: real)
    requires Name(output) == ""
    ensures OutputName(output, suffix, pathExists, elapsed) == Err(ValueError)
  {
  }

  /** A name ends with its own suffix. */
  lemma NameEndsWithSuffix(name: string, tail: string)
    requires SuffixOf(name) == tail
    ensures |tail| <= |name| && name[|name| - |tail|..] == tail
  {
    StemThenSuffix(name);
  }

  /** Renaming a colliding candidate keeps its suffix at the end of the path. */
  lemma RenamedEndsWithSuffix(candidate: Path, tail: string, elapsed: real)
    requires Valid(candidate) && Name(candidate) != "" && SuffixOf(Name(candidate)) == tail
    ensures WithName(candidate, RenamedName(Name(candidate), elapsed)).Ok?
    ensures var s := Str(WithName(candidate, RenamedName(Name(candidate), elapsed)).value);
      |tail| <= |s| && s[|s| - |tail|..] == tail
  {
    var n := Name(candidate);
    assert ValidPart(n) by {
      assert n == candidate.parts[|candidate.parts| - 1];
    }
    RenamedNameValid(n, elapsed);
    var rn := RenamedName(n, elapsed);
    var front := StemOf(n) + "_" + IntToStr(Ticks(elapsed));
    assert rn == front + tail;
    assert rn[|front|..] == tail;
    StrEndsWithTail(WithName(candidate, rn).value, tail);
  }

  /** A candidate that does not exist is returned as it is. */
  lemma FreeCandidateKept(output: Path, suffix: string, pathExists: Path -> bool, elapsed: real)
    requires WithSuffix(output, "." + suffix).Ok?
    requires !pathExists(WithSuffix(output, "." + suffix).value)
    ensures OutputName(output, suffix, pathExists, elapsed) == Ok(Str(WithSuffix(output, "." + suffix).value))
  {
  }

  /** An existing candidate is renamed once, in the same directory, to
      `stem_<ticks><suffix>`; that name is never checked again, and it
      differs from the candidate's, so the existing file is not the target. */
  lemma {:induction false} CollisionRenamedOnce(output: Path, suffix: string, pathExists: Path -> bool, elapsed: real)
    requires Valid(output)
    requires WithSuffix(output, "." + suffix).Ok?
    requires pathExists(WithSuffix(output, "." + suffix).value)
    ensures var candidate := WithSuffix(output, "." + suffix).value;
      && WithName(candidate, RenamedName(Name(candidate), elapsed)).Ok?
      && var renamed := WithName(candidate, RenamedName(Name(candidate), elapsed)).value;
      && OutputName(output, suffix, pathExists, elapsed) == Ok(Str(renamed))
      && Str(renamed) != Str(candidate)
      && renamed.parts[..|renamed.parts| - 1] == candidate.parts[..|candidate.parts| - 1]
  {
    var candidate := WithSuffix(output, "." + suffix).value;
    var n := Name(candidate);
    var stem := StemOf(Name(output));
    assert n == stem + "." + suffix;
    StemThenSuffix(Name(output));
    assert ValidPart(n) by {
      assert Name(output) == output.parts[|output.parts| - 1];
      assert forall k :: 0 <= k < |stem| ==> stem[k] == Name(output)[k];
      assert forall k :: |stem| + 1 <= k < |n| ==> n[k] == suffix[k - |stem| - 1];
    }
    RenamedNameValid(n, elapsed);
    var renamed := WithName(candidate, RenamedName(n, elapsed)).value;
    SiblingsPrintDifferently(renamed, candidate);
  }

  /** Lines 13-15: an existing directory as output is joined with the input
      file's stem (`Path(None)` for a missing file is left to OutputPathOf). */
  function RetargetedOutput(output: Path, file: Option<Path>, isDir: Path -> bool): Path {
    if isDir(output) && file.Some? then JoinPath(output, Parse(StemOf(Name(file.value)))) else output
  }

  /** What `get_output_path` returns for the output and input file it is given. */
  function OutputPathOf(output: Path, file: Option<Path>, suffix: string, isDir: Path -> bool, pathExists: Path -> bool, elapsed: real): Result<string> {
    if isDir(output) && file.None? then Err(TypeError)
    else OutputName(RetargetedOutput(output, file, isDir), suffix, pathExists, elapsed)
  }

  /** `get_output_path`: an existing directory as `args.output` is first
      replaced by that directory joined with the input file's stem (this
      assignment to `args.output` stays); then the output name is derived. */
  method GetOutputPath(args: Args, suffix: string, isDir: Path -> bool, pathExists: Path -> bool, elapsed: real)
    returns (r: Result<string>)
    modifies args`output
    ensures isDir(old(args.output)) && args.opts.file.None? ==> r == Err(TypeError) && args.output == old(args.output)
    ensures isDir(old(args.output)) && args.opts.file.Some? ==>
      args.output == JoinPath(old(args.output), Parse(StemOf(Name(args.opts.file.value))))
    ensures !isDir(old(args.output)) ==> args.output == old(args.output)
    ensures !(isDir(old(args.output)) && args.opts.file.None?) ==> r == OutputName(args.output, suffix, pathExists, elapsed)
    ensures args.output == RetargetedOutput(old(args.output), args.opts.file, isDir)
    ensures r == OutputPathOf(old(args.output), args.opts.file, suffix, isDir, pathExists, elapsed)
  {
    if isDir(args.output) {
      // mkdir(exist_ok=True) leaves the existing directory as it is
      if args.opts.file.None? {
        return Err(TypeError);  // Path(None)
      }
      args.output := JoinPath(args.output, Parse(StemOf(Name(args.opts.file.value))));
    }
    var output := args.output;
    var withSuffix := WithSuffix(output, "." + suffix);
    if withSuffix.Err? {
      return Err(withSuffix.error);
    }
    output := withSuffix.value;
    if pathExists(output) {
      var renamed := WithName(output, RenamedName(Name(output), elapsed));
      if renamed.Err? {
        return Err(renamed.error);
      }
      output := renamed.value;
    }
    r := Ok(Str(output));
  }
}
