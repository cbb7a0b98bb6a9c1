/** The parts of `os.path` that name the report: `basename` and `splitext`, for POSIX paths. */
module Paths {
  import opened Wrappers

  /** `s.rfind(c)`. */
  function LastIndex(s: string, c: char): (r: Option<nat>)
    ensures r.None? ==> forall i :: 0 <= i < |s| ==> s[i] != c
    ensures r.Some? ==> r.value < |s| && s[r.value] == c && forall i :: r.value < i < |s| ==> s[i] != c
  {
    if s == [] then None
    else if s[|s| - 1] == c then Some(|s| - 1)
    else LastIndex(s[..|s| - 1], c)
  }

  /** `os.path.basename(path)`: what follows the last '/'. */
  function BaseName(path: string): (b: string)
    ensures '/' !in b
    ensures |b| <= |path| && path[|path| - |b|..] == b
    ensures '/' !in path ==> b == path
    ensures |b| == |path| || path[|path| - |b| - 1] == '/'
  {
    match LastIndex(path, '/')
    case None => path
    case Some(i) => path[i + 1..]
  }

  /**
   * `os.path.splitext(name)[0]` for a name without '/': the final extension is
   * cut off, unless the last '.' is preceded only by dots (".bashrc" keeps it).
   */
  function StripExtension(name: string): (stem: string)
    ensures |stem| <= |name| && name[..|stem|] == stem
    ensures stem != name ==>
      && name[|stem|] == '.'
      && (forall i :: |stem| < i < |name| ==> name[i] != '.')
      && (exists i :: 0 <= i < |stem| && stem[i] != '.')
    ensures (exists d, i :: 0 <= i < d < |name| && name[d] == '.' && name[i] != '.') ==> stem != name
  {
    match LastIndex(name, '.')
    case None => name
    case Some(d) =>
      if exists i :: 0 <= i < d && name[i] != '.' then name[..d] else name
  }

  /** The report file name: the base name without its extension, then "_report.csv". */
  function ReportName(path: string): (r: string)
    ensures '/' !in r
    ensures r == StripExtension(BaseName(path)) + "_report.csv"
  {
    StripExtension(BaseName(path)) + "_report.csv"
  }

  /** The base name of "dir/name" is name, when name has no '/'. */
  lemma BaseNameAfterSlash(dir: string, name: string)
    requires '/' !in name
    ensures BaseName(dir + ['/'] + name) == name
  {
    var path := dir + ['/'] + name;
    assert path[|dir|] == '/';
  }

  /** "stem.ext", with no '.' in ext and a stem that is not all dots, loses ".ext". */
  lemma StripExtensionAfterDot(stem: string, ext: string)
    requires '.' !in ext
    requires exists i :: 0 <= i < |stem| && stem[i] != '.'
    ensures StripExtension(stem + ['.'] + ext) == stem
  {
    var name := stem + ['.'] + ext;
    var i :| 0 <= i < |stem| && stem[i] != '.';
    assert name[|stem|] == '.' && name[i] != '.';
  }

  /**
   * A path "dir/stem.ext", with no '/' after the directory, no '.' in the
   * extension and a stem that is not all dots, is reported in "stem_report.csv".
   */
  lemma ReportNameOfPath(dir: string, stem: string, ext: string)
    requires '/' !in stem && '/' !in ext && '.' !in ext
    requires exists i :: 0 <= i < |stem| && stem[i] != '.'
    ensures ReportName(dir + ['/'] + stem + ['.'] + ext) == stem + "_report.csv"
  {
    var name := stem + ['.'] + ext;
    assert dir + ['/'] + stem + ['.'] + ext == dir + ['/'] + name;
    BaseNameAfterSlash(dir, name);
    StripExtensionAfterDot(stem, ext);
  }
}
