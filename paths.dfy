/**
 * `pathlib.PurePosixPath` reduced to what the modelled code uses: an optional root and a list of
 * components, `/`, `.name`, `.parent`, `.parents`, `.parts`, `.suffix` and `str()`.
 */
module Paths {
  import opened Strings

  /** A component as pathlib keeps it: non-empty, no separator, not ".". */
  predicate IsComponent(c: string) {
    c != [] && c != "." && '/' !in c
  }

  /** A name known to be a single component, such as the fixed file names of the model. */
  type Component = c: string | IsComponent(c) witness "_"

  datatype Path = Path(absolute: bool, comps: seq<string>) {

    ghost predicate Valid() {
      forall k :: 0 <= k < |comps| ==> IsComponent(comps[k])
    }

    /** `p.parts`: the root "/" first when there is one. */
    function Parts(): (r: seq<string>)
      ensures |r| == |comps| + (if absolute then 1 else 0)
      ensures absolute ==> r[0] == "/"
    {
      (if absolute then ["/"] else []) + comps
    }

    /** `p.name`: the last component, "" for a root or for ".". */
    function Name(): string {
      if comps == [] then "" else comps[|comps| - 1]
    }

    /** `p.parent`: the root and "." are their own parents. */
    function Parent(): (r: Path)
      ensures r.absolute == absolute && r.comps <= comps
      ensures comps != [] ==> |r.comps| == |comps| - 1
    {
      if comps == [] then this else Path(absolute, comps[..|comps| - 1])
    }

    /** `p / name` for a single component name. */
    function Join(name: string): (r: Path)
      requires IsComponent(name)
      ensures Valid() ==> r.Valid()
      ensures r.Name() == name && r.Parent() == this
    {
      Path(absolute, comps + [name])
    }

    /**
     * `p / s` for any string `s`: an absolute `s` replaces `p`; otherwise the components of
     * `Path(s)` are appended, so "" and "." add nothing and "sub/x.csv" adds two.
     */
    function Div(s: string): (r: Path)
      ensures Valid() ==> r.Valid()
      ensures IsComponent(s) ==> r == Join(s)
    {
      ComponentFromString(s);
      var q := FromString(s);
      if q.absolute then q else Path(absolute, comps + q.comps)
    }

    /** `p.parents`: the successive parents, nearest first, down to the root or ".". */
    function Parents(): (r: seq<Path>)
      ensures |r| == |comps|
      ensures forall k :: 0 <= k < |r| ==> r[k].absolute == absolute && r[k].comps == comps[..|comps| - 1 - k]
      decreases |comps|
    {
      if comps == [] then [] else [Parent()] + Parent().Parents()
    }

    /** `p.suffix`: from the last "." of the name, unless that dot starts or ends the name. */
    function Suffix(): (r: string)
      ensures r != [] ==> r[0] == '.' && 2 <= |r| < |Name()| && r == Name()[|Name()| - |r|..]
    {
      var name := Name();
      var i := LastDot(name);
      if 0 < i < |name| - 1 then name[i..] else ""
    }

    /** `str(p)`. */
    function ToString(): string {
      if absolute then "/" + Strings.Join(comps, "/")
      else if comps == [] then "."
      else Strings.Join(comps, "/")
    }
  }

  /** `s.rfind(".")` */
  function LastDot(s: string): (i: int)
    ensures -1 <= i < |s|
    ensures i >= 0 ==> s[i] == '.' && '.' !in s[i + 1..]
    ensures i < 0 ==> '.' !in s
  {
    if s == [] then -1
    else if s[|s| - 1] == '.' then |s| - 1
    else LastDot(s[..|s| - 1])
  }

  /** The components pathlib keeps from the pieces between slashes. */
  function Clean(pieces: seq<string>): (r: seq<string>)
    requires forall k :: 0 <= k < |pieces| ==> '/' !in pieces[k]
    ensures forall k :: 0 <= k < |r| ==> IsComponent(r[k])
  {
    if pieces == [] then []
    else (if pieces[0] == "" || pieces[0] == "." then [] else [pieces[0]]) + Clean(pieces[1..])
  }

  /** `Path(s)`: empty pieces and "." pieces are dropped. */
  function FromString(s: string): (p: Path)
    ensures p.Valid()
  {
    Path(|s| > 0 && s[0] == '/', Clean(SplitOn(s, '/')))
  }

  /** A single component reads as the relative path of that one component. */
  lemma ComponentFromString(s: string)
    ensures IsComponent(s) ==> FromString(s) == Path(false, [s])
  {
    if IsComponent(s) {
      SplitOnNoSep(s, '/');
      assert Clean([s]) == [s] + Clean([]);
    }
  }

  lemma {:induction false} CleanKeeps(parts: seq<string>)
    requires forall k :: 0 <= k < |parts| ==> parts[k] != [] && parts[k] != "." && '/' !in parts[k]
    ensures Clean(parts) == parts
  {
    if parts != [] {
      CleanKeeps(parts[1..]);
    }
  }

  lemma {:induction false} SplitOnPrefix(a: string, rest: string, sep: char)
    requires sep !in a
    ensures SplitOn(a + [sep] + rest, sep) == [a] + SplitOn(rest, sep)
    decreases |a|
  {
    if a == [] {
      assert [] + [sep] + rest == [sep] + rest;
      assert ([sep] + rest)[1..] == rest;
    } else {
      SplitOnPrefix(a[1..], rest, sep);
      assert (a + [sep] + rest)[1..] == a[1..] + [sep] + rest;
      assert [a[0]] + a[1..] == a;
    }
  }

  lemma {:induction false} SplitOnNoSep(a: string, sep: char)
    requires sep !in a
    ensures SplitOn(a, sep) == [a]
    decreases |a|
  {
    if a != [] {
      SplitOnNoSep(a[1..], sep);
      assert [a[0]] + a[1..] == a;
    }
  }

  /** Splitting a join on a separator the parts do not contain gives the parts back. */
  lemma {:induction false} SplitOnJoin(parts: seq<string>, sep: char)
    requires parts != []
    requires forall k :: 0 <= k < |parts| ==> sep !in parts[k]
    ensures SplitOn(Strings.Join(parts, [sep]), sep) == parts
  {
    if |parts| == 1 {
      SplitOnNoSep(parts[0], sep);
    } else {
      SplitOnJoin(parts[1..], sep);
      SplitOnPrefix(parts[0], Strings.Join(parts[1..], [sep]), sep);
      assert [parts[0]] + parts[1..] == parts;
    }
  }

  /** Reading back the string form of a well-formed path gives the same path. */
  lemma FromStringToString(p: Path)
    requires p.Valid()
    ensures FromString(p.ToString()) == p
  {
    if p.comps == [] {
      if p.absolute {
        assert SplitOn("/", '/') == ["", ""];
      } else {
        SplitOnNoSep(".", '/');
      }
    } else {
      SplitOnJoin(p.comps, '/');
      CleanKeeps(p.comps);
      var body := Strings.Join(p.comps, "/");
      if p.absolute {
        SplitOnPrefix("", body, '/');
        assert "" + "/" + body == "/" + body;
        assert Clean([""] + p.comps) == Clean(p.comps);
      } else {
        assert body[0] == p.comps[0][0] by {
          if |p.comps| > 1 { assert body == p.comps[0] + "/" + Strings.Join(p.comps[1..], "/"); }
        }
      }
    }
  }
}
