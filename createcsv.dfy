/**
 * Creating the preliminary CSV metadata of one object folder (create_csv.py): the rights
 * precedence, the datastream-id rule, the two record builders, and `create_csv` itself.
 */
module CreateCsv {
  import opened Wrappers
  import opened Errors
  import opened Strings
  import opened Paths
  import opened Sorting
  import opened Records
  import opened CsvTables
  import opened Disk
  import opened ObjectCsv
  import opened ObjectFolders
  import DC = DublinCore

  const DefaultRights: string :=
    "Creative Commons Attribution-NonCommercial 4.0 (https://creativecommons.org/licenses/by-nc/4.0/)"
  const DefaultSource: string := "local"
  const DefaultObjectType: string := "text"

  /** The configuration values the builders read: project, creator and rights ("" when unset). */
  datatype Config = Config(project: string, creator: string, rights: string)

  /** The rights used when the Dublin Core has none: the configured rights, else `DEFAULT_RIGHTS`. */
  function FallbackRights(config: Config): string {
    if config.rights != "" then config.rights else DefaultRights
  }

  /**
   * `get_rights`: the flattened Dublin Core rights (in the preferred language "en" or its
   * fallback, with None as the default), else the configured rights when non-empty, else
   * `DEFAULT_RIGHTS`.
   */
  function GetRights(config: Config, data: DC.DcData, order: seq<string>): (r: Result<string, Error>)
    ensures var s := DC.ElementAsStr(data, order, "rights", "en", None);
      (s.Failure? ==> r == Failure(s.error))
      && (s == Success(None) ==> r == Success(FallbackRights(config)))
      && (s.Success? && s.value.Some? ==> r == Success(s.value.value))
  {
    var rights :- DC.ElementAsStr(data, order, "rights", "en", None);
    match rights
    case None => Success(FallbackRights(config))
    case Some(text) => Success(text)
  }

  /**
   * Without Dublin Core rights the configured rights or the default are used, so the result
   * is never empty and the rights check of `validate` passes.
   */
  lemma RightsFallbackNotEmpty(config: Config, data: DC.DcData, order: seq<string>)
    requires "rights" !in data
    ensures GetRights(config, data, order) == Success(FallbackRights(config))
    ensures GetRights(config, data, order).value != ""
  {
  }

  /** An empty `<dc:rights/>` counts as no rights: the configured rights or the default are used. */
  lemma EmptyRightsFallBack(config: Config, order: seq<string>)
    ensures GetRights(config, DC.Parsed([DC.DcChild("rights", None, None)]), order) == Success(FallbackRights(config))
  {
    DC.EmptyElementIsNone([DC.DcChild("rights", None, None)], order, "rights", None);
  }

  // The two regular expressions of `extract_dsid`, as a backtracking matcher reads them.

  predicate IsPidChar(c: char) {
    IsAsciiAlnum(c) || c == '-' || c == '.' || c == '%' || c == '_'
  }

  /** `s[lo..hi]` consists of characters of the class `cls`. */
  predicate AllIn(s: string, lo: nat, hi: nat, cls: char -> bool)
    requires lo <= hi <= |s|
  {
    forall k | lo <= k < hi :: cls(s[k])
  }

  /** `s[..i]`, `s[i..j]` and `s[j..]` match the three runs of the PID pattern. */
  predicate PidSplit(s: string, i: nat, j: nat)
    requires 0 < i < j < |s|
  {
    AllIn(s, 0, i, IsAsciiAlnum) && AllIn(s, i, j, IsPidChar) && AllIn(s, j, |s|, IsAsciiAlnum)
  }

  /** `[a-zA-Z0-9]+[-.%_a-zA-Z0-9]+[a-zA-Z0-9]+` matching all of `s`: three non-empty runs. */
  predicate PidCore(s: string) {
    exists i: nat, j: nat | 0 < i < j < |s| :: PidSplit(s, i, j)
  }

  /** `s[..i]` is the letter run of `[a-zA-Z]+\w?` and `s[i..]` the optional word character. */
  predicate ExtSplit(s: string, i: nat)
    requires 0 < i <= |s|
  {
    AllIn(s, 0, i, IsAsciiLetter) && (i == |s| || (i == |s| - 1 && IsWordChar(s[i])))
  }

  /** `[a-zA-Z]+\w?` matching all of `s`: a run of letters, then at most one word character. */
  predicate ExtCore(s: string) {
    exists i: nat | 0 < i <= |s| :: ExtSplit(s, i)
  }

  /** `re.match("^" + core + "$", s)`: `$` also matches just before a final newline. */
  predicate PidRegex(s: string) {
    PidCore(s) || (s != [] && s[|s| - 1] == '\n' && PidCore(s[..|s| - 1]))
  }

  predicate ExtRegex(s: string) {
    ExtCore(s) || (s != [] && s[|s| - 1] == '\n' && ExtCore(s[..|s| - 1]))
  }

  /** A valid PID: at least three characters, alphanumeric at both ends, `-.%_` inside. */
  predicate PidShape(s: string) {
    |s| >= 3 && IsAsciiAlnum(s[0]) && IsAsciiAlnum(s[|s| - 1])
    && forall k :: 0 <= k < |s| ==> IsPidChar(s[k])
  }

  /** What looks like an extension: letters, the last character possibly any word character. */
  predicate ExtShape(s: string) {
    |s| >= 1 && IsAsciiLetter(s[0]) && IsWordChar(s[|s| - 1])
    && forall k :: 0 <= k < |s| - 1 ==> IsAsciiLetter(s[k])
  }

  lemma PidCoreShape(s: string)
    ensures PidCore(s) <==> PidShape(s)
  {
    if PidShape(s) {
      assert PidSplit(s, 1, |s| - 1);
    }
    if PidCore(s) {
      var i: nat, j: nat :| 0 < i < j < |s| && PidSplit(s, i, j);
      assert IsAsciiAlnum(s[0]) && IsAsciiAlnum(s[|s| - 1]);
      forall k | 0 <= k < |s| ensures IsPidChar(s[k]) {
        if k < i || j <= k {
          assert IsAsciiAlnum(s[k]);
        }
      }
    }
  }

  lemma ExtCoreShape(s: string)
    ensures ExtCore(s) <==> ExtShape(s)
  {
    if ExtShape(s) {
      if IsAsciiLetter(s[|s| - 1]) {
        assert ExtSplit(s, |s|);
      } else {
        assert ExtSplit(s, |s| - 1);
      }
    }
    if ExtCore(s) {
      var i: nat :| 0 < i <= |s| && ExtSplit(s, i);
      assert IsAsciiLetter(s[0]);
      assert IsWordChar(s[|s| - 1]);
    }
  }

  lemma PidRegexShape(s: string)
    ensures PidRegex(s) <==> PidShape(s) || (s != [] && s[|s| - 1] == '\n' && PidShape(s[..|s| - 1]))
  {
    PidCoreShape(s);
    if s != [] {
      PidCoreShape(s[..|s| - 1]);
    }
  }

  /** `str.removesuffix`. */
  function RemoveSuffix(s: string, suffix: string): string {
    if suffix != [] && |suffix| <= |s| && s[|s| - |suffix|..] == suffix then s[..|s| - |suffix|] else s
  }

  /**
   * The PID `extract_dsid` proposes before checking it: the file name; with `remove_extension`
   * its suffix is removed when it is one of `knownExtensions` (what `mimetypes` lists for the
   * file's guessed type), otherwise the last dot-segment is dropped when it looks like an
   * extension.
   */
  function Candidate(ds: Path, removeExtension: bool, knownExtensions: seq<string>): string {
    var name := ds.Name();
    if !removeExtension then name
    else if ds.Suffix() in knownExtensions then RemoveSuffix(name, ds.Suffix())
    else
      var parts := SplitOn(name, '.');
      if ExtRegex(parts[|parts| - 1]) then Join(parts[..|parts| - 1], ".") else name
  }

  /** `extract_dsid`: the candidate PID if it matches the PID pattern, otherwise ValueError. */
  function ExtractDsid(ds: Path, removeExtension: bool, knownExtensions: seq<string>): (r: Result<string, Error>)
    ensures var c := Candidate(ds, removeExtension, knownExtensions);
      (r.Success? <==> PidShape(c) || (c != [] && c[|c| - 1] == '\n' && PidShape(c[..|c| - 1])))
      && (r.Success? ==> r.value == c)
      && (r.Failure? ==> r.error == ValueError("Invalid PID: '" + c + "'"))
  {
    var c := Candidate(ds, removeExtension, knownExtensions);
    PidRegexShape(c);
    if PidRegex(c) then Success(c) else Failure(ValueError("Invalid PID: '" + c + "'"))
  }

  /** What CPython raises for `mimetypes.extensions`: the module has no such attribute. */
  const NoExtensions: Error := AttributeError("module 'mimetypes' has no attribute 'extensions'")

  /**
   * `extract_dsid` as written: with `remove_extension` the lookup of `mimetypes.extensions`
   * raises before either removal rule runs; without it the file name is checked as it is.
   */
  function ExtractDsidAsWritten(ds: Path, removeExtension: bool): (r: Result<string, Error>)
    ensures removeExtension ==> r == Failure(NoExtensions)
    ensures !removeExtension ==> (r.Success? <==> PidRegex(ds.Name())) && (r.Success? ==> r.value == ds.Name())
  {
    if removeExtension then Failure(NoExtensions) else ExtractDsid(ds, false, [])
  }

  /**
   * The discrepancy, concretely: "obj1/TEI.xml" with `remove_extension` raises as written,
   * while the removal rules the code goes on to state give the PID "TEI".
   */
  lemma RemovalRaisesAsWritten()
    ensures var ds := Path(false, ["obj1", "TEI.xml"]);
      ExtractDsidAsWritten(ds, true) == Failure(NoExtensions)
      && ExtractDsid(ds, true, [".xml"]) == Success("TEI")
  {
    var ds := Path(false, ["obj1", "TEI.xml"]);
    assert "TEI" + "." + "xml" == "TEI.xml";
    LastDotAfter("TEI", "xml");
    assert ds.Suffix() == ".xml";
    assert RemoveSuffix("TEI.xml", ".xml") == "TEI";
    PidRegexShape("TEI");
  }

  lemma {:induction false} JoinSnoc(xs: seq<string>, y: string, sep: string)
    requires xs != []
    ensures Join(xs + [y], sep) == Join(xs, sep) + sep + y
  {
    if |xs| == 1 {
      assert (xs + [y])[1..] == [y];
    } else {
      JoinSnoc(xs[1..], y, sep);
      assert (xs + [y])[1..] == xs[1..] + [y];
    }
  }

  lemma {:induction false} LastDotAfter(a: string, b: string)
    requires '.' !in b
    ensures LastDot(a + "." + b) == |a|
  {
    if b != [] {
      var s := a + "." + b;
      assert s[|s| - 1] == b[|b| - 1];
      assert s[..|s| - 1] == a + "." + b[..|b| - 1];
      LastDotAfter(a, b[..|b| - 1]);
    }
  }

  /**
   * The fallback rule drops exactly the text from the last dot on: `".".join(parts[:-1])` of a
   * dotted name is the name cut at its last dot.
   */
  lemma FallbackCutsAtLastDot(name: string)
    requires '.' in name
    ensures var parts := SplitOn(name, '.');
      |parts| >= 2 && Join(parts[..|parts| - 1], ".") == name[..LastDot(name)]
  {
    var parts := SplitOn(name, '.');
    JoinSplitOn(name, '.');
    SplitOnParts(name, '.');
    CountCharPresent(name, '.');
    var init := parts[..|parts| - 1];
    assert parts == init + [parts[|parts| - 1]];
    JoinSnoc(init, parts[|parts| - 1], ".");
    LastDotAfter(Join(init, "."), parts[|parts| - 1]);
  }

  /**
   * A dotless name that itself looks like an extension ("README") is reduced to the empty PID
   * by the fallback rule and refused.
   */
  lemma DotlessNameRefused(ds: Path, knownExtensions: seq<string>)
    requires '.' !in ds.Name() && ExtShape(ds.Name()) && "" !in knownExtensions
    ensures ExtractDsid(ds, true, knownExtensions) == Failure(ValueError("Invalid PID: ''"))
  {
    var name := ds.Name();
    SplitOnNoSep(name, '.');
    ExtCoreShape(name);
    assert ds.Suffix() == "";
    assert ExtRegex(SplitOn(name, '.')[0]);
    assert Candidate(ds, true, knownExtensions) == Join([], ".") == "";
    PidRegexShape("");
    assert "Invalid PID: '" + "" + "'" == "Invalid PID: ''";
  }

  /** Without `remove_extension` the PID is the file name, accepted exactly when it has the PID shape. */
  lemma PlainNameIsPid(ds: Path, knownExtensions: seq<string>)
    requires '\n' !in ds.Name()
    ensures ExtractDsid(ds, false, knownExtensions).Success? <==> PidShape(ds.Name())
    ensures ExtractDsid(ds, false, knownExtensions).Success? ==> ExtractDsid(ds, false, knownExtensions).value == ds.Name()
  {
    var c := ds.Name();
    if c != [] {
      assert c[|c| - 1] in c;
    }
  }

  /** `"; ".join(values)` of a lookup, keeping its error. */
  function Joined(r: Result<seq<Option<string>>, Error>): Result<string, Error> {
    match r
    case Success(values) => DC.JoinTexts(values, "; ")
    case Failure(e) => Failure(e)
  }

  /**
   * `collect_object_data`: the record of object `pid` from its Dublin Core data and the
   * configuration; the title defaults to the pid. The first error of the title, the
   * description and the rights, in that order, is raised.
   */
  function CollectObjectData(pid: string, config: Config, data: DC.DcData, order: seq<string>)
    : (r: Result<ObjectData, Error>)
    ensures var title := Joined(DC.Element(data, order, "title", "en", Some(pid)));
      var description := Joined(DC.Element(data, order, "description", "en", Some("")));
      var rights := GetRights(config, data, order);
      (r.Success? <==> title.Success? && description.Success? && rights.Success?)
      && (title.Failure? ==> r == Failure(title.error))
      && (title.Success? && description.Failure? ==> r == Failure(description.error))
      && (title.Success? && description.Success? && rights.Failure? ==> r == Failure(rights.error))
      && (r.Success? ==>
            r.value.recid == pid && r.value.project == config.project && r.value.creator == config.creator
            && r.value.source == DefaultSource && r.value.objectType == DefaultObjectType
            && r.value.title == title.value && r.value.description == description.value
            && r.value.rights == rights.value
            && r.value.publisher == "" && r.value.mainResource == "" && r.value.funder == "")
  {
    var title :- Joined(DC.Element(data, order, "title", "en", Some(pid)));
    var description :- Joined(DC.Element(data, order, "description", "en", Some("")));
    var rights :- GetRights(config, data, order);
    Success(ObjectData(pid, title, config.project, description, config.creator, rights, "", DefaultSource,
                       DefaultObjectType, "", ""))
  }

  /** An empty `<dc:title/>` makes `"; ".join` raise TypeError for item 0. */
  lemma EmptyTitleRaises(pid: string, config: Config, order: seq<string>)
    ensures CollectObjectData(pid, config, DC.Parsed([DC.DcChild("title", None, None)]), order)
         == Failure(DC.NoneItem(0))
  {
    var children := [DC.DcChild("title", None, None)];
    DC.EmptyElementIsNone(children, order, "title", Some(pid));
    var e := DC.Element(DC.Parsed(children), order, "title", "en", Some(pid));
    assert |e.value| == 1 && e.value[0] == None;
  }

  /**
   * A collected object record has its recid, title default, source and type filled, so it
   * passes `validate` exactly when the pid and the rights are non-empty and a Dublin Core
   * title, if there is one, is non-empty.
   */
  lemma CollectedObjectValidates(pid: string, config: Config, data: DC.DcData, order: seq<string>)
    requires CollectObjectData(pid, config, data, order).Success?
    ensures var o := CollectObjectData(pid, config, data, order).value;
      ("title" !in data ==> o.title == pid)
      && (ValidateObject(o).Pass? <==> pid != "" && o.title != "" && o.rights != "")
  {
  }

  /**
   * `collect_datastream_data`: the record of file `ds` of object `objectPid`. `mimetype` is what
   * `mimetypes.guess_type` returns for it ("" for none).
   */
  function CollectDatastreamData(ds: Path, objectPid: string, config: Config, data: DC.DcData, order: seq<string>,
                                 removeExtension: bool, knownExtensions: seq<string>, mimetype: string)
    : (r: Result<DSData, Error>)
    ensures r.Success? <==> ExtractDsid(ds, removeExtension, knownExtensions).Success? && GetRights(config, data, order).Success?
    ensures r.Failure? && ExtractDsid(ds, removeExtension, knownExtensions).Failure? ==>
      r.error == ExtractDsid(ds, removeExtension, knownExtensions).error
    ensures r.Success? ==>
      r.value.dspath == objectPid + "/" + ds.Name()
      && r.value.dsid == ExtractDsid(ds, removeExtension, knownExtensions).value
      && (ds.Name() == DcFilename ==>
            r.value.title == "Dublin Core Metadata" && r.value.description == "DC Metadata describing the data stream")
      && (ds.Name() != DcFilename ==> r.value.title == "" && r.value.description == "")
      && r.value.mimetype == mimetype && r.value.creator == config.creator
      && r.value.rights == GetRights(config, data, order).value
      && r.value.lang == "" && r.value.tags == ""
  {
    var isDc := ds.Name() == DcFilename;
    var dsid :- ExtractDsid(ds, removeExtension, knownExtensions);
    var rights :- GetRights(config, data, order);
    Success(DSData(objectPid + "/" + ds.Name(), dsid,
                   if isDc then "Dublin Core Metadata" else "",
                   if isDc then "DC Metadata describing the data stream" else "",
                   mimetype, config.creator, rights, "", ""))
  }

  /** A collected datastream record belongs to its object: `object_id` gives the object's pid back. */
  lemma CollectedDatastreamBelongs(ds: Path, objectPid: string, config: Config, data: DC.DcData, order: seq<string>,
                                   removeExtension: bool, knownExtensions: seq<string>, mimetype: string)
    requires IsComponent(objectPid) && IsComponent(ds.Name())
    requires CollectDatastreamData(ds, objectPid, config, data, order, removeExtension, knownExtensions, mimetype).Success?
    ensures ObjectId(CollectDatastreamData(ds, objectPid, config, data, order, removeExtension, knownExtensions,
                                           mimetype).value) == Success(objectPid)
  {
    ObjectIdOfPath(objectPid, ds.Name());
  }

  /** The selection rule of `create_csv`: files of the folder other than the two CSV files. */
  predicate Selected(fs: Fs, dir: Path, name: string)
    requires IsComponent(name)
  {
    fs.IsFile(dir.Join(name)) && name != ObjectCsvFilename && name != DatastreamCsvFilename
  }

  /**
   * The datastream records `create_csv` builds for the folder listing `names` (the order of
   * `glob("*")`), or the first error.
   */
  function DatastreamRecords(fs: Fs, dir: Path, names: seq<string>, config: Config, data: DC.DcData, order: seq<string>,
                             mimetypeOf: string -> string)
    : (r: Result<seq<DSData>, Error>)
    requires forall k :: 0 <= k < |names| ==> IsComponent(names[k])
  {
    if names == [] then Success([])
    else
      var init :- DatastreamRecords(fs, dir, names[..|names| - 1], config, data, order, mimetypeOf);
      var name := names[|names| - 1];
      if !Selected(fs, dir, name) then Success(init)
      else
        var d :- CollectDatastreamData(dir.Join(name), dir.Name(), config, data, order, false, [], mimetypeOf(name));
        Success(init + [d])
  }

  /**
   * Every record comes from a selected file of the listing, so none stands for object.csv or
   * datastreams.csv.
   */
  lemma {:induction false} RecordsAreSelected(fs: Fs, dir: Path, names: seq<string>, config: Config, data: DC.DcData,
                                              order: seq<string>, mimetypeOf: string -> string)
    requires forall k :: 0 <= k < |names| ==> IsComponent(names[k])
    requires DatastreamRecords(fs, dir, names, config, data, order, mimetypeOf).Success?
    ensures forall d :: d in DatastreamRecords(fs, dir, names, config, data, order, mimetypeOf).value ==>
      exists k :: 0 <= k < |names| && Selected(fs, dir, names[k]) && d.dspath == dir.Name() + "/" + names[k]
  {
    if names != [] {
      var init := names[..|names| - 1];
      RecordsAreSelected(fs, dir, init, config, data, order, mimetypeOf);
      forall d | d in DatastreamRecords(fs, dir, names, config, data, order, mimetypeOf).value
        ensures exists k :: 0 <= k < |names| && Selected(fs, dir, names[k]) && d.dspath == dir.Name() + "/" + names[k]
      {
        if d in DatastreamRecords(fs, dir, init, config, data, order, mimetypeOf).value {
          var k :| 0 <= k < |init| && Selected(fs, dir, init[k]) && d.dspath == dir.Name() + "/" + init[k];
          assert names[k] == init[k];
        } else {
          assert d.dspath == dir.Name() + "/" + names[|names| - 1];
        }
      }
    }
  }

  /** Two dspaths of one object are equal only for equal file names. */
  lemma DspathInjective(pid: string, a: string, b: string)
    requires pid + "/" + a == pid + "/" + b
    ensures a == b
  {
    var n := |pid| + 1;
    assert (pid + "/" + a)[n..] == a;
    assert (pid + "/" + b)[n..] == b;
  }

  lemma NoStoreRecords(fs: Fs, dir: Path, names: seq<string>, config: Config, data: DC.DcData,
                       order: seq<string>, mimetypeOf: string -> string)
    requires forall k :: 0 <= k < |names| ==> IsComponent(names[k])
    requires DatastreamRecords(fs, dir, names, config, data, order, mimetypeOf).Success?
    ensures forall d :: d in DatastreamRecords(fs, dir, names, config, data, order, mimetypeOf).value ==>
      d.dspath != dir.Name() + "/" + ObjectCsvFilename && d.dspath != dir.Name() + "/" + DatastreamCsvFilename
  {
    RecordsAreSelected(fs, dir, names, config, data, order, mimetypeOf);
    forall d | d in DatastreamRecords(fs, dir, names, config, data, order, mimetypeOf).value
      ensures d.dspath != dir.Name() + "/" + ObjectCsvFilename && d.dspath != dir.Name() + "/" + DatastreamCsvFilename
    {
      var k :| 0 <= k < |names| && Selected(fs, dir, names[k]) && d.dspath == dir.Name() + "/" + names[k];
      if d.dspath == dir.Name() + "/" + ObjectCsvFilename {
        DspathInjective(dir.Name(), names[k], ObjectCsvFilename);
      }
      if d.dspath == dir.Name() + "/" + DatastreamCsvFilename {
        DspathInjective(dir.Name(), names[k], DatastreamCsvFilename);
      }
    }
  }

  /** Neither CSV file of `dir` exists: what `ObjectCSV.is_new()` reports. */
  predicate StoresAbsent(fs: Fs, dir: Path) {
    !fs.Exists(dir.Join(ObjectCsvFilename)) && !fs.Exists(dir.Join(DatastreamCsvFilename))
  }

  /**
   * The records added to a store holding `loaded`, and the written file system: the object
   * record after the loaded objects, the datastream records after the loaded ones, sorted.
   */
  function Filled(fs: Fs, dir: Path, loaded: (seq<ObjectData>, seq<DSData>), names: seq<string>, config: Config,
                  data: DC.DcData, mimetypeOf: string -> string)
    : (r: (Fs, Outcome<Error>))
    requires forall k :: 0 <= k < |names| ==> IsComponent(names[k])
  {
    match CollectObjectData(dir.Name(), config, data, DC.DefaultLookupOrder)
    case Failure(e) => (fs, Fail(e))
    case Success(o) =>
      match DatastreamRecords(fs, dir, names, config, data, DC.DefaultLookupOrder, mimetypeOf)
      case Failure(e) => (fs, Fail(e))
      case Success(dss) =>
        WriteBoth(fs, dir.Join(ObjectCsvFilename), OldObjectTable(loaded.0 + [o]),
                  dir.Join(DatastreamCsvFilename), OldDatastreamTable(SortBy(loaded.1 + dss, DspathOf)))
  }

  /** The loop of `create_csv`: one datastream record per selected file of the listing. */
  method AddDatastreamRecords(store: ObjectCSV, fs: Fs, names: seq<string>, config: Config, dc: DC.DublinCore,
                              mimetypeOf: string -> string)
    returns (r: Outcome<Error>)
    requires forall k :: 0 <= k < |names| ==> IsComponent(names[k])
    modifies store.datastreamData
    ensures var recs := DatastreamRecords(fs, store.objectDir, names, config, dc.data, dc.lookupOrder, mimetypeOf);
      (r.Pass? <==> recs.Success?) && (r.Fail? ==> r.error == recs.error)
      && (r.Pass? ==> store.datastreamData.datastreams == old(store.datastreamData.datastreams) + recs.value)
  {
    var dir, data, order := store.objectDir, dc.data, dc.lookupOrder;
    var i := 0;
    while i < |names|
      invariant i <= |names|
      invariant DatastreamRecords(fs, dir, names[..i], config, data, order, mimetypeOf).Success?
      invariant store.datastreamData.datastreams == old(store.datastreamData.datastreams)
        + DatastreamRecords(fs, dir, names[..i], config, data, order, mimetypeOf).value
    {
      var name := names[i];
      RecordsStep(fs, dir, names, i, config, data, order, mimetypeOf);
      if Selected(fs, dir, name) {
        var d := CollectDatastreamData(dir.Join(name), dir.Name(), config, data, order, false, [], mimetypeOf(name));
        if d.Failure? {
          FailureStays(fs, dir, names, i + 1, config, data, order, mimetypeOf);
          return Fail(d.error);
        }
        store.AddDatastream(d.value);
      }
      i := i + 1;
    }
    assert names[..i] == names;
    return Pass;
  }

  /** One name more in the listing: nothing for an unselected file, else its record or error. */
  lemma RecordsStep(fs: Fs, dir: Path, names: seq<string>, i: nat, config: Config, data: DC.DcData,
                    order: seq<string>, mimetypeOf: string -> string)
    requires forall k :: 0 <= k < |names| ==> IsComponent(names[k])
    requires i < |names| && DatastreamRecords(fs, dir, names[..i], config, data, order, mimetypeOf).Success?
    ensures var init := DatastreamRecords(fs, dir, names[..i], config, data, order, mimetypeOf).value;
      var next := DatastreamRecords(fs, dir, names[..i + 1], config, data, order, mimetypeOf);
      && (!Selected(fs, dir, names[i]) ==> next == Success(init))
      && (Selected(fs, dir, names[i]) ==>
            var d := CollectDatastreamData(dir.Join(names[i]), dir.Name(), config, data, order, false, [],
                                           mimetypeOf(names[i]));
            next == if d.Failure? then Failure(d.error) else Success(init + [d.value]))
  {
    assert names[..i + 1][..i] == names[..i];
    assert names[..i + 1][i] == names[i];
  }

  /** An error for a prefix of the listing is the error for the whole listing. */
  lemma {:induction false} FailureStays(fs: Fs, dir: Path, names: seq<string>, n: nat, config: Config, data: DC.DcData,
                                        order: seq<string>, mimetypeOf: string -> string)
    requires forall k :: 0 <= k < |names| ==> IsComponent(names[k])
    requires n <= |names|
    requires DatastreamRecords(fs, dir, names[..n], config, data, order, mimetypeOf).Failure?
    ensures DatastreamRecords(fs, dir, names, config, data, order, mimetypeOf)
         == DatastreamRecords(fs, dir, names[..n], config, data, order, mimetypeOf)
    decreases |names|
  {
    if n < |names| {
      assert names[..|names| - 1][..n] == names[..n];
      FailureStays(fs, dir, names[..|names| - 1], n, config, data, order, mimetypeOf);
    } else {
      assert names[..n] == names;
    }
  }

  /** `create_csv` after its guard: fill the store with the new records and write it. */
  method Fill(fs: Fs, store: ObjectCSV, names: seq<string>, config: Config, dc: DC.DublinCore,
              mimetypeOf: string -> string)
    returns (fs': Fs, r: Outcome<Error>)
    requires forall k :: 0 <= k < |names| ==> IsComponent(names[k])
    requires dc.lookupOrder == DC.DefaultLookupOrder
    modifies store.objectData, store.datastreamData
    ensures (fs', r) == Filled(fs, store.objectDir, (old(store.objectData.objectData), old(store.datastreamData.datastreams)),
                               names, config, dc.data, mimetypeOf)
  {
    var o := CollectObjectData(store.ObjectId(), config, dc.data, dc.lookupOrder);
    if o.Failure? {
      return fs, Fail(o.error);
    }
    store.AddObjectData(o.value);
    var added := AddDatastreamRecords(store, fs, names, config, dc, mimetypeOf);
    if added.Fail? {
      return fs, Fail(added.error);
    }
    fs', r := store.Write(fs, None, None, None);
  }

  /**
   * `create_csv` as the guard means it: an object folder whose CSV files already exist is
   * left alone; otherwise its object record and datastream records are created and written.
   * `children` are the Dublin Core children of its DC.xml, `names` the folder listing.
   */
  method CreateCsv(fs: Fs, dir: Path, config: Config, children: seq<DC.DcChild>, names: seq<string>,
                   mimetypeOf: string -> string)
    returns (fs': Fs, r: Outcome<Error>)
    requires forall k :: 0 <= k < |names| ==> IsComponent(names[k])
    ensures var content := Opened(fs, dir, ObjectCsvFilename, DatastreamCsvFilename);
      (content.Failure? ==> fs' == fs && r == Fail(content.error))
      && (content.Success? && !StoresAbsent(fs, dir) ==> fs' == fs && r == Pass)
      && (content.Success? && StoresAbsent(fs, dir) ==>
            (fs', r) == Filled(fs, dir, ([], []), names, config, DC.Parsed(children), mimetypeOf))
  {
    var store := ObjectCSV.Open(fs, dir, ObjectCsvFilename, DatastreamCsvFilename);
    if store.Failure? {
      return fs, Fail(store.error);
    }
    var objectCsv := store.value;
    if !objectCsv.IsNew(fs) {
      return fs, Pass;
    }
    OpenedCases(fs, dir, ObjectCsvFilename, DatastreamCsvFilename);
    var dc := new DC.DublinCore(dir.Join(DcFilename), DC.DefaultLookupOrder, children);
    fs', r := Fill(fs, objectCsv, names, config, dc, mimetypeOf);
  }

  /**
   * `create_csv` as written: it returns early exactly when `is_new()` is true, that is when
   * neither CSV file exists, so a fresh object folder never gets its CSV files, and a folder
   * that has them gets new records appended to the loaded ones.
   */
  method CreateCsvAsWritten(fs: Fs, dir: Path, config: Config, children: seq<DC.DcChild>, names: seq<string>,
                            mimetypeOf: string -> string)
    returns (fs': Fs, r: Outcome<Error>)
    requires forall k :: 0 <= k < |names| ==> IsComponent(names[k])
    ensures var content := Opened(fs, dir, ObjectCsvFilename, DatastreamCsvFilename);
      (content.Failure? ==> fs' == fs && r == Fail(content.error))
      && (content.Success? && StoresAbsent(fs, dir) ==> fs' == fs && r == Pass)
      && (content.Success? && !StoresAbsent(fs, dir) ==>
            (fs', r) == Filled(fs, dir, content.value, names, config, DC.Parsed(children), mimetypeOf))
  {
    var store := ObjectCSV.Open(fs, dir, ObjectCsvFilename, DatastreamCsvFilename);
    if store.Failure? {
      return fs, Fail(store.error);
    }
    var objectCsv := store.value;
    if objectCsv.IsNew(fs) {
      return fs, Pass;
    }
    var dc := new DC.DublinCore(dir.Join(DcFilename), DC.DefaultLookupOrder, children);
    fs', r := Fill(fs, objectCsv, names, config, dc, mimetypeOf);
  }

  /**
   * The discrepancy, concretely: an existing folder holding only DC.xml is left without CSV
   * files by the code as written, while the corrected guard lets it through.
   */
  lemma FreshFolderIsSkipped(dir: Path, dcTable: Table)
    ensures var fs := Fs({dir}, map[dir.Join(DcFilename) := dcTable]);
      StoresAbsent(fs, dir) && Opened(fs, dir, ObjectCsvFilename, DatastreamCsvFilename).Success?
  {
    var fs := Fs({dir}, map[dir.Join(DcFilename) := dcTable]);
    assert dir.Join(ObjectCsvFilename).Name() != dir.Join(DcFilename).Name();
    assert dir.Join(DatastreamCsvFilename).Name() != dir.Join(DcFilename).Name();
    assert dir.Join(ObjectCsvFilename) != dir && dir.Join(DatastreamCsvFilename) != dir;
    OpenedCases(fs, dir, ObjectCsvFilename, DatastreamCsvFilename);
  }

  /**
   * A successful corrected run leaves the folder's two CSV files holding exactly the new
   * records: one object row for the folder, and the datastream rows sorted by dspath.
   */
  lemma CreatedFiles(fs: Fs, dir: Path, names: seq<string>, config: Config, data: DC.DcData, mimetypeOf: string -> string,
                      o: ObjectData, dss: seq<DSData>)
    requires forall k :: 0 <= k < |names| ==> IsComponent(names[k])
    requires CollectObjectData(dir.Name(), config, data, DC.DefaultLookupOrder) == Success(o)
    requires DatastreamRecords(fs, dir, names, config, data, DC.DefaultLookupOrder, mimetypeOf) == Success(dss)
    requires Filled(fs, dir, ([], []), names, config, data, mimetypeOf).1.Pass?
    ensures var fs' := Filled(fs, dir, ([], []), names, config, data, mimetypeOf).0;
      fs'.dirs == fs.dirs && o.recid == dir.Name()
      && dir.Join(ObjectCsvFilename) in fs'.files && fs'.files[dir.Join(ObjectCsvFilename)] == OldObjectTable([o])
      && dir.Join(DatastreamCsvFilename) in fs'.files
      && fs'.files[dir.Join(DatastreamCsvFilename)] == OldDatastreamTable(SortBy(dss, DspathOf))
  {
    assert dir.Join(ObjectCsvFilename).Name() != dir.Join(DatastreamCsvFilename).Name();
    assert [] + dss == dss && [] + [o] == [o];
  }
}
