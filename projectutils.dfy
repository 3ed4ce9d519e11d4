/**
 * The two path helpers of the project configuration: the upward search for `project.toml`
 * and the reading of a path-valued field from a dotenv file whose paths may be written in
 * Windows notation. File existence and the current directory are parameters, and the dotenv
 * parser is an uninterpreted function from text to the key/value map it returns.
 */
module ProjectUtils {
  import opened Wrappers
  import opened Errors
  import opened Strings
  import opened Paths

  const ProjectToml: Component := "project.toml"
  /** Appended to the start folder (`start / Probe`) so that its `parents` begin with the start folder itself. */
  const Probe := "a_non_existing_folder_to_include_start_dir"
  const NotFoundMessage := "No project.toml file found in or above the start_dir."

  /** The folders searched, nearest first: the start folder, then each ancestor up to the root or ".". */
  function SearchFolders(start: Path): (r: seq<Path>)
    ensures |r| == |start.comps| + 1 && r[0] == start
    ensures forall k :: 0 <= k < |r| ==>
      r[k].absolute == start.absolute && r[k].comps == start.comps[..|start.comps| - k]
  {
    var r := Path(start.absolute, start.comps + [Probe]).Parents();
    assert (start.comps + [Probe])[..|start.comps|] == start.comps;
    r
  }

  /** `folders[k]` holds a `project.toml` and no folder before it does. */
  ghost predicate Nearest(folders: seq<Path>, k: int, pathExists: Path -> bool) {
    0 <= k < |folders| && pathExists(folders[k].Join(ProjectToml))
    && forall j :: 0 <= j < k ==> !pathExists(folders[j].Join(ProjectToml))
  }

  /** `find_project_toml`: the nearest `project.toml` at or above `start`, else the one in `cwd`. */
  function FindProjectToml(start: Path, cwd: Path, pathExists: Path -> bool): (r: Result<Path, Error>)
    ensures r.Success? ==> pathExists(r.value) && r.value.Name() == ProjectToml
    ensures forall k :: Nearest(SearchFolders(start), k, pathExists) ==>
      r == Success(SearchFolders(start)[k].Join(ProjectToml))
    ensures (forall k :: 0 <= k < |SearchFolders(start)| ==> !pathExists(SearchFolders(start)[k].Join(ProjectToml))) ==>
      r == if pathExists(cwd.Join(ProjectToml)) then Success(cwd.Join(ProjectToml))
           else Failure(FileNotFoundError(NotFoundMessage))
  {
    var folders := SearchFolders(start);
    match FirstWhere(folders, (f: Path) => pathExists(f.Join(ProjectToml)))
    case Some(k) =>
      assert Nearest(folders, k, pathExists);
      assert forall m :: m != k ==> !Nearest(folders, m, pathExists) by {
        forall m | 0 <= m < |folders| && m != k ensures !Nearest(folders, m, pathExists) {
          if m < k {
            assert !pathExists(folders[m].Join(ProjectToml));
          } else {
            assert pathExists(folders[k].Join(ProjectToml));
          }
        }
      }
      Success(folders[k].Join(ProjectToml))
    case None =>
      assert forall m :: !Nearest(folders, m, pathExists) by {
        forall m ensures !Nearest(folders, m, pathExists) {
          if 0 <= m < |folders| { assert !pathExists(folders[m].Join(ProjectToml)); }
        }
      }
      if pathExists(cwd.Join(ProjectToml)) then Success(cwd.Join(ProjectToml))
      else Failure(FileNotFoundError(NotFoundMessage))
  }

  /** A `project.toml` in the start folder itself wins over every other candidate. */
  lemma StartFolderFirst(start: Path, cwd: Path, pathExists: Path -> bool)
    requires pathExists(start.Join(ProjectToml))
    ensures FindProjectToml(start, cwd, pathExists) == Success(start.Join(ProjectToml))
  {
    assert Nearest(SearchFolders(start), 0, pathExists);
  }

  /**
   * Starting `|sub|` levels below a folder that holds `project.toml`, with none in the folders
   * in between, finds that file.
   */
  lemma {:induction false} FoundAbove(dir: Path, sub: seq<string>, cwd: Path, pathExists: Path -> bool)
    requires pathExists(dir.Join(ProjectToml))
    requires forall i :: 0 < i <= |sub| ==> !pathExists(Path(dir.absolute, dir.comps + sub[..i]).Join(ProjectToml))
    ensures FindProjectToml(Path(dir.absolute, dir.comps + sub), cwd, pathExists) == Success(dir.Join(ProjectToml))
  {
    var start := Path(dir.absolute, dir.comps + sub);
    var folders := SearchFolders(start);
    var n := |dir.comps + sub|;
    assert folders[|sub|].comps == (dir.comps + sub)[..n - |sub|];
    assert (dir.comps + sub)[..n - |sub|] == dir.comps;
    assert folders[|sub|] == dir;
    forall j | 0 <= j < |sub| ensures !pathExists(folders[j].Join(ProjectToml)) {
      var i := |sub| - j;
      assert (dir.comps + sub)[..n - j] == dir.comps + sub[..i];
      assert folders[j] == Path(dir.absolute, dir.comps + sub[..i]);
    }
    assert Nearest(folders, |sub|, pathExists);
  }

  /** `line.lstrip().startswith(fieldname)`: a prefix match, so a longer key also matches. */
  predicate Mentions(line: string, fieldname: string) {
    StartsWith(LStrip(line), fieldname)
  }

  /** Every backslash becomes a slash, then each "//" becomes "/" in one left-to-right pass. */
  function FixLine(line: string): string {
    Replace(Replace(line, "\\", "/"), "//", "/")
  }

  /** The rewritten lines kept from `lines`, in order. */
  function FixedLines(lines: seq<string>, fieldname: string): seq<string> {
    if lines == [] then []
    else
      var init := lines[..|lines| - 1];
      var last := lines[|lines| - 1];
      FixedLines(init, fieldname) + (if Mentions(last, fieldname) then [FixLine(last)] else [])
  }

  lemma FixedLinesStep(lines: seq<string>, i: nat, fieldname: string)
    requires i < |lines|
    ensures FixedLines(lines[..i + 1], fieldname)
         == FixedLines(lines[..i], fieldname) + (if Mentions(lines[i], fieldname) then [FixLine(lines[i])] else [])
  {
    assert lines[..i + 1][..i] == lines[..i];
  }

  /** The loop of `read_path_from_dotenv` over the file's lines. */
  method RewriteLines(text: string, fieldname: string) returns (fixed: seq<string>)
    ensures fixed == FixedLines(SplitLines(text), fieldname)
  {
    var lines := SplitLines(text);
    fixed := [];
    for i := 0 to |lines|
      invariant fixed == FixedLines(lines[..i], fieldname)
    {
      FixedLinesStep(lines, i, fieldname);
      if Mentions(lines[i], fieldname) {
        fixed := fixed + [FixLine(lines[i])];
      }
    }
    assert lines[..|lines|] == lines;
  }

  /** What `Path(None)` raises. */
  const NotPathLike: Error := TypeError("expected str, bytes or os.PathLike object, not NoneType")

  /**
   * `read_path_from_dotenv`: the field's value in what the dotenv parser makes of the kept,
   * rewritten lines joined by newlines, as a path; `None` when the parser yields no such key,
   * and TypeError when the field is a bare key without `=`, whose value the parser gives as None.
   */
  method ReadPathFromDotenv(text: string, fieldname: string, dotenvValues: string -> map<string, Option<string>>)
    returns (r: Result<Option<Path>, Error>)
    ensures var env := dotenvValues(Join(FixedLines(SplitLines(text), fieldname), "\n"));
      (fieldname !in env ==> r == Success(None))
      && (fieldname in env && env[fieldname].None? ==> r == Failure(NotPathLike))
      && (fieldname in env && env[fieldname].Some? ==> r == Success(Some(FromString(env[fieldname].value))))
  {
    var fixed := RewriteLines(text, fieldname);
    var env := dotenvValues(Join(fixed, "\n"));
    if fieldname in env {
      var value := env[fieldname];
      if value.None? {
        return Failure(NotPathLike);
      }
      r := Success(Some(FromString(value.value)));
    } else {
      r := Success(None);
    }
  }

  lemma {:induction false} ReplaceKeepsAbsent(s: string, pat: string, rep: string, c: char)
    requires pat != [] && c !in s && c !in rep
    ensures c !in Replace(s, pat, rep)
    decreases |s|
  {
    if |s| >= |pat| {
      if pat <= s {
        assert forall i :: 0 <= i < |s[|pat|..]| ==> s[|pat|..][i] == s[i + |pat|];
        ReplaceKeepsAbsent(s[|pat|..], pat, rep, c);
      } else {
        assert forall i :: 0 <= i < |s[1..]| ==> s[1..][i] == s[i + 1];
        ReplaceKeepsAbsent(s[1..], pat, rep, c);
      }
    }
  }

  /** A prefix free of the pattern's first character passes through a replacement untouched. */
  lemma {:induction false} ReplaceSkipsPrefix(a: string, b: string, pat: string, rep: string)
    requires pat != [] && pat[0] !in a
    ensures Replace(a + b, pat, rep) == a + Replace(b, pat, rep)
    decreases |a|
  {
    if a != [] {
      var s := a + b;
      assert s[0] == a[0] && s[1..] == a[1..] + b;
      assert a[1..] + b == s[1..];
      ReplaceSkipsPrefix(a[1..], b, pat, rep);
      if |s| < |pat| {
        ReplaceShortIdentity(b, pat, rep);
        ReplaceShortIdentity(a[1..] + b, pat, rep);
      } else {
        assert !(pat <= s) by { assert s[0] != pat[0]; }
        assert a == [a[0]] + a[1..];
      }
    } else {
      assert a + b == b;
    }
  }

  lemma ReplaceShortIdentity(s: string, pat: string, rep: string)
    requires pat != [] && |s| < |pat|
    ensures Replace(s, pat, rep) == s
  {
  }

  lemma AppendAssoc(x: string, y: string, z: string)
    ensures (x + y) + z == x + (y + z)
  {
  }

  lemma {:induction false} LStripSpaces(ws: string, y: string)
    requires forall i :: 0 <= i < |ws| ==> IsSpace(ws[i])
    requires y == [] || !IsSpace(y[0])
    ensures LStrip(ws + y) == y
    decreases |ws|
  {
    if ws == [] {
      assert ws + y == y;
    } else {
      assert (ws + y)[1..] == ws[1..] + y;
      LStripSpaces(ws[1..], y);
    }
  }

  /** A rewritten line has no backslash left. */
  lemma FixLineNoBackslash(line: string)
    ensures '\\' !in FixLine(line)
  {
    ReplaceCharRemoves(line, '\\', "/");
    ReplaceKeepsAbsent(Replace(line, "\\", "/"), "//", "/", '\\');
  }

  /**
   * When the field name holds no slash or backslash, the rewrite leaves the leading whitespace
   * and the key alone, so a kept line still mentions the field afterwards.
   */
  lemma FixLineKeepsKey(line: string, fieldname: string)
    requires Mentions(line, fieldname)
    requires '\\' !in fieldname && '/' !in fieldname
    ensures Mentions(FixLine(line), fieldname)
  {
    if fieldname != [] {
      var r := LStrip(line);
      var ws := line[..|line| - |r|];
      var tail := r[|fieldname|..];
      assert forall i :: 0 <= i < |ws| ==> IsSpace(ws[i]) by {
        forall i | 0 <= i < |ws| ensures IsSpace(ws[i]) { assert ws[i] == line[i]; }
      }
      assert line == ws + fieldname + tail by {
        assert r == fieldname + tail;
        assert line == ws + r;
        AppendAssoc(ws, fieldname, tail);
      }
      var y := fieldname + FixLine(tail);
      assert FixLine(line) == ws + y by {
        RewriteAfterKey(ws, fieldname, tail);
      }
      assert LStrip(ws + y) == y by {
        assert y[0] == r[0];
        LStripSpaces(ws, y);
      }
      assert fieldname <= y;
    }
  }

  /** Leading whitespace and a key free of slashes and backslashes are outside the rewrite. */
  lemma RewriteAfterKey(ws: string, key: string, tail: string)
    requires forall i :: 0 <= i < |ws| ==> IsSpace(ws[i])
    requires '\\' !in key && '/' !in key
    ensures FixLine(ws + key + tail) == ws + (key + FixLine(tail))
  {
    var a := ws + key;
    assert '\\' !in a && '/' !in a by {
      forall i | 0 <= i < |a| ensures a[i] != '\\' && a[i] != '/' {
        if i < |ws| { assert IsSpace(a[i]); } else { assert a[i] == key[i - |ws|]; }
      }
    }
    ReplaceSkipsPrefix(a, tail, "\\", "/");
    var t1 := Replace(tail, "\\", "/");
    ReplaceSkipsPrefix(a, t1, "//", "/");
    AppendAssoc(ws, key, Replace(t1, "//", "/"));
  }

  /** What a kept line promises: no backslash, and the field still named when it has no slashes. */
  predicate Clean(line: string, fieldname: string) {
    '\\' !in line && ('\\' !in fieldname && '/' !in fieldname ==> Mentions(line, fieldname))
  }

  /** A line that mentions the field is clean once rewritten. */
  lemma FixLineClean(line: string, fieldname: string)
    requires Mentions(line, fieldname)
    ensures Clean(FixLine(line), fieldname)
  {
    FixLineNoBackslash(line);
    if '\\' !in fieldname && '/' !in fieldname { FixLineKeepsKey(line, fieldname); }
  }

  /** Kept lines are clean, and there are no more of them than input lines. */
  lemma {:induction false} FixedLinesKept(lines: seq<string>, fieldname: string)
    ensures |FixedLines(lines, fieldname)| <= |lines|
    ensures forall k :: 0 <= k < |FixedLines(lines, fieldname)| ==> Clean(FixedLines(lines, fieldname)[k], fieldname)
  {
    if lines != [] {
      var init := lines[..|lines| - 1];
      var last := lines[|lines| - 1];
      FixedLinesKept(init, fieldname);
      var a := FixedLines(init, fieldname);
      if Mentions(last, fieldname) {
        FixLineClean(last, fieldname);
        CleanAppend(a, FixLine(last), fieldname);
      } else {
        assert FixedLines(lines, fieldname) == a + [];
        assert a + [] == a;
      }
    }
  }

  lemma CleanAppend(a: seq<string>, x: string, fieldname: string)
    requires forall k :: 0 <= k < |a| ==> Clean(a[k], fieldname)
    requires Clean(x, fieldname)
    ensures forall k :: 0 <= k < |a + [x]| ==> Clean((a + [x])[k], fieldname)
  {
    forall k | 0 <= k < |a + [x]| ensures Clean((a + [x])[k], fieldname) {
      if k < |a| { assert (a + [x])[k] == a[k]; } else { assert (a + [x])[k] == x; }
    }
  }

  /** Lines that do not mention the field are all dropped. */
  lemma {:induction false} UnmentionedDropped(lines: seq<string>, fieldname: string)
    requires forall j :: 0 <= j < |lines| ==> !Mentions(lines[j], fieldname)
    ensures FixedLines(lines, fieldname) == []
  {
    if lines != [] {
      UnmentionedDropped(lines[..|lines| - 1], fieldname);
    }
  }
}
