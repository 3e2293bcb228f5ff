/** The caller annotation the logger installs as zerolog's CallerMarshalFunc:
    the base name of the calling file up to its first '.', and the line. */
module Caller {
  import opened Wrappers
  import opened GoStrings

  /** strings.Split(filepath.Base(file), ".")[0]: the last element of the
      path cut at its first '.', or "/" for a path made only of separators. */
  function ShortName(file: string): (r: string)
    ensures '.' !in r
    ensures r == "/" || '/' !in r
    ensures r == "/" ==> file != [] && forall i :: 0 <= i < |file| ==> file[i] == '/'
  {
    var b := Base(file);
    var r := FirstField(b);
    assert r == "/" ==> b == "/" by {
      if r == "/" {
        assert r[0] == b[0] == '/';
      }
    }
    r
  }

  function AnnotationPrefix(app: string): string {
    "[[" + app + "] ==> "
  }

  /** "[[<app>] ==> <short>:<line>]": the annotation names the application,
      the unit and the line, and they can be read back from it. */
  function CallerAnnotation(app: string, file: string, line: int): (r: string)
    ensures ParseCaller(app, r) == Some((ShortName(file), line))
  {
    var short, num := ShortName(file), Itoa(line);
    assert ':' !in num;
    ItoaRoundTrip(line);
    ParseCallerAt(app, short, num);
    AnnotationPrefix(app) + short + ":" + num + "]"
  }

  /** Reads an annotation back: the unit name is what precedes the last ':'
      (a unit name may itself contain ':', a line number never does). */
  function ParseCaller(app: string, s: string): Option<(string, int)> {
    var p := AnnotationPrefix(app);
    if |s| < |p| + 1 || s[..|p|] != p || s[|s| - 1] != ']' then None
    else
      var body := s[|p|..|s| - 1];
      match LastIndexOf(body, ':')
      case None => None
      case Some(k) =>
        match ParseDecimal(body[k + 1..])
        case None => None
        case Some(n) => Some((body[..k], n))
  }

  /** The unit name of a source file is its file name up to the first '.':
      "dir/a.b.go" gives "a". */
  lemma ShortNameOfSourceFile(directory: string, stem: string, ext: string)
    requires '/' !in stem && '.' !in stem && '/' !in ext
    requires directory == [] || directory[|directory| - 1] == '/'
    ensures ShortName(directory + stem + "." + ext) == stem
  {
    var name := stem + "." + ext;
    assert directory + stem + "." + ext == directory + name;
    assert '/' !in name;
    BaseOfJoin(directory, name);
    FirstFieldOf(stem, ext);
  }

  /** A file name without '.' is its own unit name: "dir/Makefile" gives
      "Makefile". */
  lemma ShortNameOfPlainFile(directory: string, name: string)
    requires name != [] && '/' !in name && '.' !in name
    requires directory == [] || directory[|directory| - 1] == '/'
    ensures ShortName(directory + name) == name
  {
    BaseOfJoin(directory, name);
  }

  /** ParseCaller splits a well-formed annotation at the last ':'. */
  lemma ParseCallerAt(app: string, short: string, num: string)
    requires ':' !in num && ParseDecimal(num).Some?
    ensures ParseCaller(app, AnnotationPrefix(app) + short + ":" + num + "]") == Some((short, ParseDecimal(num).value))
  {
    var p, body := AnnotationPrefix(app), short + [':'] + num;
    var s := AnnotationPrefix(app) + short + ":" + num + "]";
    assert s == p + body + "]";
    assert s[..|p|] == p;
    assert s[|p|..|s| - 1] == body;
    LastIndexOfSplit(short, ':', num);
    assert body[|short| + 1..] == num;
    assert body[..|short|] == short;
  }
}
