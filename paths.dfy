/** A model of the parts of pathlib's POSIX paths the scripts use: parsing a
    string, `str()`, `.name`, `.suffix`, `.stem`, `/`, `with_suffix` and
    `with_name`, with the ValueErrors pathlib raises. */
module Paths {
  import opened Py

  /** A parsed path: its root ("" for a relative path, "/", or the "//" POSIX
      keeps apart) and its components. Parsing drops empty and "."
      components, so `Path('./')` has no components and prints ".". */
  datatype Path = Path(root: string, parts: seq<string>)

  /** A component pathlib can hold: not empty, not ".", no separator. */
  predicate ValidPart(p: string) {
    p != "" && p != "." && '/' !in p
  }

  predicate Valid(p: Path) {
    forall i :: 0 <= i < |p.parts| ==> ValidPart(p.parts[i])
  }

  // ---------------------------------------------------------------- parsing and printing

  /** `s.split('/')`. */
  function Split(s: string): (r: seq<string>)
    ensures |r| >= 1
    ensures forall i :: 0 <= i < |r| ==> '/' !in r[i]
  {
    if s == [] then [""]
    else
      var init := Split(s[..|s| - 1]);
      var c := s[|s| - 1];
      if c == '/' then init + [""]
      else init[..|init| - 1] + [init[|init| - 1] + [c]]
  }

  /** Keeps the components pathlib keeps. */
  function KeepParts(ps: seq<string>): (r: seq<string>)
    requires forall i :: 0 <= i < |ps| ==> '/' !in ps[i]
    ensures forall i :: 0 <= i < |r| ==> ValidPart(r[i])
  {
    if ps == [] then []
    else
      var rest := KeepParts(ps[1..]);
      if ps[0] == "" || ps[0] == "." then rest else [ps[0]] + rest
  }

  /** The root POSIX `splitroot` finds: exactly two leading slashes are kept
      as "//", one or three and more collapse to "/". */
  function RootOf(s: string): (root: string)
    ensures root == "" <==> |s| == 0 || s[0] != '/'
    ensures root == "//" <==> |s| >= 2 && s[0] == '/' && s[1] == '/' && (|s| == 2 || s[2] != '/')
    ensures root == "" || root == "/" || root == "//"
  {
    if |s| == 0 || s[0] != '/' then ""
    else if |s| >= 2 && s[1] == '/' && (|s| == 2 || s[2] != '/') then "//"
    else "/"
  }

  /** `Path(s)` on a POSIX system. */
  function Parse(s: string): (p: Path)
    ensures Valid(p)
    ensures p.root == RootOf(s)
  {
    Path(RootOf(s), KeepParts(Split(s)))
  }

  /** A double-slash root survives parsing and printing; a triple one
      collapses to a single slash, as a single one stays. */
  lemma DoubleSlashRoot()
    ensures Str(Parse("//a")) == "//a"
    ensures Str(Parse("///a")) == "/a"
    ensures Str(Parse("/a")) == "/a"
  {
    SlashesThenName();
    EmptyPartsDropped("a");
    assert RootOf("//a") == "//" && RootOf("///a") == "/" && RootOf("/a") == "/";
    assert Parse("//a") == Path("//", ["a"]);
    assert Parse("///a") == Path("/", ["a"]);
    assert Parse("/a") == Path("/", ["a"]);
    assert "//" + "a" == "//a" && "/" + "a" == "/a";
  }

  /** Empty components before a name are dropped. */
  lemma EmptyPartsDropped(name: string)
    requires ValidPart(name)
    ensures KeepParts(["", name]) == [name]
    ensures KeepParts(["", "", name]) == [name]
    ensures KeepParts(["", "", "", name]) == [name]
  {
    assert KeepParts([name]) == [name] by {
      assert [name][1..] == [];
    }
    assert ["", name][1..] == [name];
    assert ["", "", name][1..] == ["", name];
    assert ["", "", "", name][1..] == ["", "", name];
  }

  /** How `split('/')` cuts one, two and three slashes followed by a name. */
  lemma SlashesThenName()
    ensures Split("/a") == ["", "a"]
    ensures Split("//a") == ["", "", "a"]
    ensures Split("///a") == ["", "", "", "a"]
  {
    SlashesSplit();
    SplitThenLetter("/", 'a');
    SplitThenLetter("//", 'a');
    SplitThenLetter("///", 'a');
    assert "/" + ['a'] == "/a" && "//" + ['a'] == "//a" && "///" + ['a'] == "///a";
  }

  /** A string ending in n slashes, then a letter: the letter opens the last piece. */
  lemma SplitThenLetter(s: string, c: char)
    requires c != '/' && |s| > 0 && s[|s| - 1] == '/'
    ensures Split(s + [c]) == Split(s[..|s| - 1]) + [[c]]
  {
    assert (s + [c])[..|s|] == s && (s + [c])[|s|] == c;
    var init := Split(s);
    assert init == Split(s[..|s| - 1]) + [""];
    assert init[..|init| - 1] == Split(s[..|s| - 1]) && init[|init| - 1] + [c] == [c];
  }

  /** `split('/')` of n slashes gives n + 1 empty strings. */
  lemma SlashesSplit()
    ensures Split("/") == ["", ""]
    ensures Split("//") == ["", "", ""]
    ensures Split("///") == ["", "", "", ""]
  {
    assert "/"[..0] == "" && "//"[..1] == "/" && "///"[..2] == "//";
  }

  /** A string without a separator is a single component. */
  lemma {:induction false} SplitWithoutSeparator(s: string)
    requires '/' !in s
    ensures Split(s) == [s]
  {
    if s != [] {
      SplitWithoutSeparator(s[..|s| - 1]);
      assert s[..|s| - 1] + [s[|s| - 1]] == s;
    }
  }

  /** `Path(name)` for a plain file name holds just that name. */
  lemma ParseName(name: string)
    requires ValidPart(name)
    ensures Parse(name) == Path("", [name])
  {
    SplitWithoutSeparator(name);
    assert name[0] != '/';
    assert [name][1..] == [];
    assert KeepParts([name]) == [name] + KeepParts([]);
  }

  /** `Path('./')` is the current directory, with no components. */
  lemma ParseCurrentDir()
    ensures Parse("./") == Path("", [])
  {
    SplitWithoutSeparator(".");
    assert "./"[..1] == ".";
    assert Split("./") == [".", ""];
  }

  /** `'/'.join(ps)`. */
  function JoinParts(ps: seq<string>): string {
    if |ps| == 0 then ""
    else if |ps| == 1 then ps[0]
    else JoinParts(ps[..|ps| - 1]) + "/" + ps[|ps| - 1]
  }

  /** The text that precedes the last component in `str(p)`. */
  function DirPrefix(root: string, init: seq<string>): string {
    root + (if init == [] then "" else JoinParts(init) + "/")
  }

  /** `str(p)`. */
  function Str(p: Path): string {
    if p.parts == [] then (if p.root == "" then "." else p.root)
    else p.root + JoinParts(p.parts)
  }

  /** `str(p)` is the directory prefix followed by the last component. */
  lemma StrSplitsAtName(p: Path)
    requires p.parts != []
    ensures Str(p) == DirPrefix(p.root, p.parts[..|p.parts| - 1]) + p.parts[|p.parts| - 1]
  {
    var ps := p.parts;
    if |ps| > 1 {
      assert ps[..|ps| - 1] != [];
    }
  }

  // ---------------------------------------------------------------- name, suffix, stem

  /** `p.name`: the last component, or "" for "." and "/". */
  function Name(p: Path): string {
    if p.parts == [] then "" else p.parts[|p.parts| - 1]
  }

  /** `s.rfind(c)`. */
  function RFind(s: string, c: char): (i: int)
    ensures -1 <= i < |s|
    ensures 0 <= i ==> s[i] == c
    ensures forall j :: i < j < |s| ==> s[j] != c
  {
    if s == [] then -1
    else if s[|s| - 1] == c then |s| - 1
    else RFind(s[..|s| - 1], c)
  }

  /** `PurePath.suffix` of a name: from the last dot, unless that dot leads or ends the name. */
  function SuffixOf(name: string): string {
    var i := RFind(name, '.');
    if 0 < i < |name| - 1 then name[i..] else ""
  }

  /** `PurePath.stem` of a name. */
  function StemOf(name: string): string {
    var i := RFind(name, '.');
    if 0 < i < |name| - 1 then name[..i] else name
  }

  /** Stem and suffix split a name without losing or adding characters. */
  lemma StemThenSuffix(name: string)
    ensures StemOf(name) + SuffixOf(name) == name
    ensures |StemOf(name)| <= |name|
    ensures name != "" ==> StemOf(name) != ""
  {
  }

  // ---------------------------------------------------------------- derived paths

  /** `p / q`: a right-hand side with a root replaces p. */
  function JoinPath(p: Path, q: Path): (r: Path)
    ensures Valid(p) && Valid(q) ==> Valid(r)
    ensures q.root == "" ==> r == Path(p.root, p.parts + q.parts)
    ensures q.root != "" ==> r == q
  {
    if q.root != "" then q else Path(p.root, p.parts + q.parts)
  }

  /** `p.with_name(name)`. */
  function WithName(p: Path, name: string): (r: Result<Path>)
    ensures r.Ok? <==> Name(p) != "" && ValidPart(name)
    ensures r.Ok? ==> Name(r.value) == name && r.value.root == p.root
    ensures r.Ok? ==> r.value.parts[..|r.value.parts| - 1] == p.parts[..|p.parts| - 1]
    ensures r.Ok? && Valid(p) ==> Valid(r.value)
    ensures r.Err? ==> r.error == ValueError
  {
    if Name(p) == "" || !ValidPart(name) then Err(ValueError)
    else Ok(Path(p.root, p.parts[..|p.parts| - 1] + [name]))
  }

  /** The suffixes `with_suffix` accepts: "" or a dot followed by something, no separator. */
  predicate ValidSuffix(suffix: string) {
    '/' !in suffix && (suffix == "" || (suffix[0] == '.' && suffix != "."))
  }

  /** `p.with_suffix(suffix)`: the old suffix (if any) is replaced. */
  function WithSuffix(p: Path, suffix: string): (r: Result<Path>)
    ensures r.Ok? <==> ValidSuffix(suffix) && Name(p) != ""
    ensures r.Ok? ==> Name(r.value) == StemOf(Name(p)) + suffix
    ensures r.Ok? ==> r.value.root == p.root
    ensures r.Ok? ==> r.value.parts[..|r.value.parts| - 1] == p.parts[..|p.parts| - 1]
  {
    if !ValidSuffix(suffix) || Name(p) == "" then Err(ValueError)
    else
      var name := Name(p);
      var oldSuffix := SuffixOf(name);
      var base := if oldSuffix == "" then name else name[..|name| - |oldSuffix|];
      StemThenSuffix(name);
      assert base == StemOf(name);
      Ok(Path(p.root, p.parts[..|p.parts| - 1] + [base + suffix]))
  }

  /** On a valid path, `with_suffix('.' + ext)` for a dot-free extension yields a
      valid path whose suffix is exactly that, and whose stem is the old stem. */
  lemma {:induction false} WithSuffixSetsSuffix(p: Path, ext: string)
    requires Valid(p) && Name(p) != ""
    requires ext != "" && '.' !in ext && '/' !in ext
    ensures WithSuffix(p, "." + ext).Ok?
    ensures Valid(WithSuffix(p, "." + ext).value)
    ensures SuffixOf(Name(WithSuffix(p, "." + ext).value)) == "." + ext
    ensures StemOf(Name(WithSuffix(p, "." + ext).value)) == StemOf(Name(p))
  {
    var suffix := "." + ext;
    assert ValidSuffix(suffix) by {
      assert forall k :: 1 <= k < |suffix| ==> suffix[k] == ext[k - 1];
    }
    var q := WithSuffix(p, suffix).value;
    var stem := StemOf(Name(p));
    StemThenSuffix(Name(p));
    var n := stem + suffix;
    assert Name(q) == n;
    assert stem != "" && '/' !in stem by {
      assert Name(p) == p.parts[|p.parts| - 1];
      assert forall k :: 0 <= k < |stem| ==> stem[k] == Name(p)[k];
    }
    assert ValidPart(n) by {
      assert forall k :: |stem| <= k < |n| ==> n[k] == suffix[k - |stem|];
    }
    forall i | 0 <= i < |q.parts|
      ensures ValidPart(q.parts[i])
    {
      if i < |q.parts| - 1 {
        assert q.parts[i] == q.parts[..|q.parts| - 1][i];
      }
    }
    assert n == stem + "." + ext;
    DotExtensionSplits(stem, ext);
  }

  /** A non-empty stem, a dot and a dot-free extension: the dot is the last
      one, so suffix and stem come apart there. */
  lemma DotExtensionSplits(stem: string, ext: string)
    requires stem != "" && ext != "" && '.' !in ext
    ensures SuffixOf(stem + "." + ext) == "." + ext
    ensures StemOf(stem + "." + ext) == stem
  {
    var n := stem + "." + ext;
    var i := RFind(n, '.');
    assert n[|stem|] == '.';
    assert forall j :: |stem| < j < |n| ==> n[j] == ext[j - |stem| - 1];
    assert i == |stem|;
    assert n[i..] == "." + ext;
    assert n[..i] == stem;
  }

  // ---------------------------------------------------------------- printing facts

  /** `str(p)` ends with `p.name`. */
  lemma StrEndsWithName(p: Path)
    requires p.parts != []
    ensures |Name(p)| <= |Str(p)|
    ensures Str(p)[|Str(p)| - |Name(p)|..] == Name(p)
  {
    StrSplitsAtName(p);
  }

  /** Two paths in the same directory with different names print differently. */
  lemma SiblingsPrintDifferently(p: Path, q: Path)
    requires p.parts != [] && q.parts != []
    requires p.root == q.root
    requires p.parts[..|p.parts| - 1] == q.parts[..|q.parts| - 1]
    requires Name(p) != Name(q)
    ensures Str(p) != Str(q)
  {
    StrSplitsAtName(p);
    StrSplitsAtName(q);
    var d := DirPrefix(p.root, p.parts[..|p.parts| - 1]);
    assert Str(p)[|d|..] == Name(p);
    assert Str(q)[|d|..] == Name(q);
  }
}
