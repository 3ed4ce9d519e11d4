/**
 * The two metadata records of an archival object: the object's own record (one row of
 * object.csv) and a datastream record (one row of datastreams.csv). Both carry the union of
 * the fields the two generations of the classes define.
 */
module Records {
  import opened Wrappers
  import opened Errors
  import opened Strings
  import opened Paths

  datatype ObjectData = ObjectData(
    recid: string,
    title: string,
    project: string,
    description: string,
    creator: string,
    rights: string,
    publisher: string,
    source: string,
    objectType: string,
    mainResource: string,
    funder: string)

  /** The attribute names of `ObjectData`, as `getattr`/`setattr` see them. */
  datatype Field =
    | Recid | Title | Project | Description | Creator | Rights | Publisher | Source
    | ObjectType | MainResource | Funder
  {
    function Name(): string {
      match this
      case Recid => "recid"
      case Title => "title"
      case Project => "project"
      case Description => "description"
      case Creator => "creator"
      case Rights => "rights"
      case Publisher => "publisher"
      case Source => "source"
      case ObjectType => "objectType"
      case MainResource => "mainResource"
      case Funder => "funder"
    }
  }

  /** A record with only `recid` given: every other field defaults to "". */
  function NewObjectData(recid: string): ObjectData {
    ObjectData(recid, "", "", "", "", "", "", "", "", "", "")
  }

  function Get(o: ObjectData, f: Field): string {
    match f
    case Recid => o.recid
    case Title => o.title
    case Project => o.project
    case Description => o.description
    case Creator => o.creator
    case Rights => o.rights
    case Publisher => o.publisher
    case Source => o.source
    case ObjectType => o.objectType
    case MainResource => o.mainResource
    case Funder => o.funder
  }

  function Set(o: ObjectData, f: Field, v: string): (r: ObjectData)
    ensures Get(r, f) == v
    ensures forall g :: g != f ==> Get(r, g) == Get(o, g)
  {
    match f
    case Recid => o.(recid := v)
    case Title => o.(title := v)
    case Project => o.(project := v)
    case Description => o.(description := v)
    case Creator => o.(creator := v)
    case Rights => o.(rights := v)
    case Publisher => o.(publisher := v)
    case Source => o.(source := v)
    case ObjectType => o.(objectType := v)
    case MainResource => o.(mainResource := v)
    case Funder => o.(funder := v)
  }

  /** Records that agree on every field are the same record. */
  lemma Extensionality(a: ObjectData, b: ObjectData)
    requires forall f :: Get(a, f) == Get(b, f)
    ensures a == b
  {
    assert Get(a, Recid) == Get(b, Recid) && Get(a, Title) == Get(b, Title);
    assert Get(a, Project) == Get(b, Project) && Get(a, Description) == Get(b, Description);
    assert Get(a, Creator) == Get(b, Creator) && Get(a, Rights) == Get(b, Rights);
    assert Get(a, Publisher) == Get(b, Publisher) && Get(a, Source) == Get(b, Source);
    assert Get(a, ObjectType) == Get(b, ObjectType) && Get(a, MainResource) == Get(b, MainResource);
    assert Get(a, Funder) == Get(b, Funder);
  }

  /** The fields `merge` may fill, in the order it visits them. */
  const MergeFields: seq<Field> := [Title, Project, Creator, Rights, Publisher, Source, ObjectType, Funder]

  /** Every field but the identifier, the description and the main resource is filled. */
  lemma MergeFieldsAre()
    ensures forall f :: f in MergeFields <==> f != Recid && f != Description && f != MainResource
  {
    forall f ensures f in MergeFields <==> f != Recid && f != Description && f != MainResource {
      match f
      case Recid =>
      case Description =>
      case MainResource =>
      case Title => assert MergeFields[0] == f;
      case Project => assert MergeFields[1] == f;
      case Creator => assert MergeFields[2] == f;
      case Rights => assert MergeFields[3] == f;
      case Publisher => assert MergeFields[4] == f;
      case Source => assert MergeFields[5] == f;
      case ObjectType => assert MergeFields[6] == f;
      case Funder => assert MergeFields[7] == f;
    }
  }

  /** The value after filling: only an empty value is replaced. */
  function Fill(mine: string, theirs: string): string {
    if mine == "" then theirs else mine
  }

  /** What `merge` makes of `self`, field by field. */
  function Merged(self: ObjectData, other: ObjectData): (r: ObjectData)
    ensures forall f :: Get(r, f) == (if f in MergeFields then Fill(Get(self, f), Get(other, f)) else Get(self, f))
  {
    MergeFieldsAre();
    ObjectData(
      recid := self.recid,
      title := Fill(self.title, other.title),
      project := Fill(self.project, other.project),
      description := self.description,
      creator := Fill(self.creator, other.creator),
      rights := Fill(self.rights, other.rights),
      publisher := Fill(self.publisher, other.publisher),
      source := Fill(self.source, other.source),
      objectType := Fill(self.objectType, other.objectType),
      mainResource := self.mainResource,
      funder := Fill(self.funder, other.funder))
  }

  /** `ObjectData.merge`: the field loop of the source, returning the updated record. */
  method MergeObjectData(self: ObjectData, other: ObjectData) returns (merged: ObjectData)
    ensures merged == Merged(self, other)
  {
    merged := self;
    var i := 0;
    while i < |MergeFields|
      invariant 0 <= i <= |MergeFields|
      invariant forall f ::
          Get(merged, f) == (if f in MergeFields[..i] then Fill(Get(self, f), Get(other, f)) else Get(self, f))
    {
      var field := MergeFields[i];
      assert field !in MergeFields[..i];
      assert forall f :: f in MergeFields[..i + 1] <==> f in MergeFields[..i] || f == field;
      if Get(merged, field) == "" {
        merged := Set(merged, field, Get(other, field));
      }
      i := i + 1;
    }
    assert MergeFields[..i] == MergeFields;
    Extensionality(merged, Merged(self, other));
  }

  /** A non-empty field is never overwritten; an empty one in the list takes `other`'s value. */
  lemma MergeFillsOnlyEmpty(self: ObjectData, other: ObjectData, f: Field)
    ensures Get(self, f) != "" ==> Get(Merged(self, other), f) == Get(self, f)
    ensures Get(self, f) == "" && f in MergeFields ==> Get(Merged(self, other), f) == Get(other, f)
  {
  }

  /** `recid`, `description` and `mainResource` are outside the list and never change. */
  lemma MergeKeepsUnlisted(self: ObjectData, other: ObjectData)
    ensures var m := Merged(self, other);
      m.recid == self.recid && m.description == self.description && m.mainResource == self.mainResource
  {
  }

  /** Merging the same record twice is the same as merging it once. */
  lemma MergeIdempotent(self: ObjectData, other: ObjectData)
    ensures Merged(Merged(self, other), other) == Merged(self, other)
  {
  }

  /** No identity check: records with different ids are merged all the same. */
  lemma MergeIgnoresRecid()
    ensures var a := NewObjectData("obj1");
      var b := NewObjectData("obj2").(title := "Other title");
      Merged(a, b).recid == "obj1" && Merged(a, b).title == "Other title"
  {
  }

  /**
   * A run of `if not ok: raise ValueError(message)` statements: the first failing check
   * raises, and the record is valid when none fails.
   */
  function FirstFailure(checks: seq<(bool, string)>): (r: Outcome<Error>)
    ensures r.Pass? <==> forall k :: 0 <= k < |checks| ==> checks[k].0
    ensures r.Fail? ==>
      exists k :: 0 <= k < |checks| && !checks[k].0
        && (forall j :: 0 <= j < k ==> checks[j].0)
        && r.error == ValueError(checks[k].1)
  {
    if checks == [] then Pass
    else if !checks[0].0 then Fail(ValueError(checks[0].1))
    else
      var r := FirstFailure(checks[1..]);
      assert r.Fail? ==>
        exists k :: 1 <= k < |checks| && !checks[k].0
          && (forall j :: 0 <= j < k ==> checks[j].0) && r.error == ValueError(checks[k].1) by {
        if r.Fail? {
          var k :| 0 <= k < |checks[1..]| && !checks[1..][k].0
            && (forall j :: 0 <= j < k ==> checks[1..][j].0) && r.error == ValueError(checks[1..][k].1);
          assert forall j :: 1 <= j < k + 1 ==> checks[j].0 by {
            forall j | 1 <= j < k + 1 ensures checks[j].0 { assert checks[j] == checks[1..][j - 1]; }
          }
        }
      }
      r
  }

  /** The checks of `ObjectData.validate`, in order: recid, title, rights, source, objectType. */
  function ObjectChecks(o: ObjectData): seq<(bool, string)> {
    [ (o.recid != "", "recid must not be empty"),
      (o.title != "", o.recid + ": title must not be empty"),
      (o.rights != "", o.recid + ": rights must not be empty"),
      (o.source != "", o.recid + ": source must not be empty"),
      (o.objectType != "", o.recid + ": objectType must not be empty") ]
  }

  /** `ObjectData.validate` (the same in both generations): Python truthiness, so only "" fails. */
  function ValidateObject(o: ObjectData): (r: Outcome<Error>)
    ensures r.Pass? <==> o.recid != "" && o.title != "" && o.rights != "" && o.source != "" && o.objectType != ""
    ensures o.recid == "" ==> r == Fail(ValueError("recid must not be empty"))
    ensures o.recid != "" && o.title == "" ==> r == Fail(ValueError(o.recid + ": title must not be empty"))
    ensures r.Fail? ==>
      exists k :: 0 <= k < 5 && !ObjectChecks(o)[k].0
        && (forall j :: 0 <= j < k ==> ObjectChecks(o)[j].0)
        && r.error == ValueError(ObjectChecks(o)[k].1)
  {
    var checks := ObjectChecks(o);
    var r := FirstFailure(checks);
    assert r.Pass? <==> checks[0].0 && checks[1].0 && checks[2].0 && checks[3].0 && checks[4].0 by {
      if checks[0].0 && checks[1].0 && checks[2].0 && checks[3].0 && checks[4].0 {
        assert forall k :: 0 <= k < |checks| ==> checks[k].0;
      }
    }
    r
  }

  /** Only the empty string is false: a value of spaces passes. */
  lemma ValidateObjectAcceptsSpaces(o: ObjectData)
    requires o.recid == " " && o.title == " " && o.rights == " " && o.source == " " && o.objectType == " "
    ensures ValidateObject(o) == Pass
  {
  }

  datatype DSData = DSData(
    dspath: string,
    dsid: string,
    title: string,
    description: string,
    mimetype: string,
    creator: string,
    rights: string,
    lang: string,
    tags: string)

  /** A record with only `dspath` given: every other field defaults to "". */
  function NewDSData(dspath: string): DSData {
    DSData(dspath, "", "", "", "", "", "", "", "")
  }

  /** What `parts[0]` raises on a path without parts ("" and "." have none). */
  const NoPart: Error := IndexError("tuple index out of range")

  /** `DSData.object_id`: the first part of `Path(dspath)`, or the IndexError of `parts[0]`. */
  function ObjectId(d: DSData): (r: Result<string, Error>)
    ensures r.Failure? <==> FromString(d.dspath).Parts() == []
    ensures r.Failure? ==> r.error == NoPart
    ensures r.Success? ==> r.value == FromString(d.dspath).Parts()[0]
  {
    var parts := FromString(d.dspath).Parts();
    if parts == [] then Failure(NoPart) else Success(parts[0])
  }

  /** A relative datastream path names its object first. */
  lemma ObjectIdOfPath(obj: string, name: string)
    requires IsComponent(obj) && IsComponent(name)
    ensures ObjectId(NewDSData(obj + "/" + name)) == Success(obj)
  {
    var p := Path(false, [obj, name]);
    assert p.Valid();
    JoinTwo(obj, name, "/");
    FromStringToString(p);
  }

  /** An empty dspath, or one of slashes and dots only, has no object id. */
  lemma ObjectIdOfEmptyPath()
    ensures ObjectId(NewDSData("")) == Failure(NoPart)
    ensures ObjectId(NewDSData(".")) == Failure(NoPart)
  {
    assert SplitOn("", '/') == [""];
    assert SplitOn(".", '/') == ["."] by { SplitOnNoSep(".", '/'); }
  }

  /** The checks of `DSData.validate`, in order, each on the stripped value. */
  function DatastreamChecks(d: DSData): seq<(bool, string)> {
    [ (!IsBlank(d.dspath), d.dsid + ": dspath must not be empty"),
      (!IsBlank(d.dsid), d.dspath + ": dsid must not be empty"),
      (!IsBlank(d.mimetype), d.dspath + ": mimetype must not be empty"),
      (!IsBlank(d.rights), d.dspath + ": rights must not be empty") ]
  }

  /** `DSData.validate`: values are stripped first, so whitespace-only values fail too. */
  function ValidateDatastream(d: DSData): (r: Outcome<Error>)
    ensures r.Pass? <==> !IsBlank(d.dspath) && !IsBlank(d.dsid) && !IsBlank(d.mimetype) && !IsBlank(d.rights)
    ensures IsBlank(d.dspath) ==> r == Fail(ValueError(d.dsid + ": dspath must not be empty"))
    ensures r.Fail? ==>
      exists k :: 0 <= k < 4 && !DatastreamChecks(d)[k].0
        && (forall j :: 0 <= j < k ==> DatastreamChecks(d)[j].0)
        && r.error == ValueError(DatastreamChecks(d)[k].1)
  {
    var checks := DatastreamChecks(d);
    var r := FirstFailure(checks);
    assert r.Pass? <==> checks[0].0 && checks[1].0 && checks[2].0 && checks[3].0 by {
      if checks[0].0 && checks[1].0 && checks[2].0 && checks[3].0 {
        assert forall k :: 0 <= k < |checks| ==> checks[k].0;
      }
    }
    r
  }

  /**
   * Merging a datastream record into an existing one: title, mimetype, creator and rights
   * are taken from the new record, everything else is kept.
   */
  function MergeDatastreamData(mine: DSData, theirs: DSData): (r: DSData)
    ensures r.title == theirs.title && r.mimetype == theirs.mimetype && r.creator == theirs.creator && r.rights == theirs.rights
    ensures r.dspath == mine.dspath && r.dsid == mine.dsid && r.description == mine.description
      && r.lang == mine.lang && r.tags == mine.tags
  {
    mine.(title := theirs.title, mimetype := theirs.mimetype, creator := theirs.creator, rights := theirs.rights)
  }

  /** The elements of `s` that satisfy `keep`, in their order: a list comprehension with a condition. */
  function Filter<T(!new)>(s: seq<T>, keep: T -> bool): (r: seq<T>)
    ensures |r| <= |s|
    ensures forall x :: x in r <==> x in s && keep(x)
  {
    if s == [] then [] else (if keep(s[0]) then [s[0]] else []) + Filter(s[1..], keep)
  }

  lemma {:induction false} FilterAppend<T(!new)>(a: seq<T>, b: seq<T>, keep: T -> bool)
    ensures Filter(a + b, keep) == Filter(a, keep) + Filter(b, keep)
  {
    if a == [] {
      assert a + b == b;
    } else {
      var head := if keep(a[0]) then [a[0]] else [];
      FilterAppend(a[1..], b, keep);
      calc {
        Filter(a + b, keep);
        { assert (a + b)[0] == a[0] && (a + b)[1..] == a[1..] + b; }
        head + Filter(a[1..] + b, keep);
        head + (Filter(a[1..], keep) + Filter(b, keep));
        (head + Filter(a[1..], keep)) + Filter(b, keep);
        Filter(a, keep) + Filter(b, keep);
      }
    }
  }

  /** Everything passes the filter: it returns its input. */
  lemma {:induction false} FilterAll<T(!new)>(s: seq<T>, keep: T -> bool)
    requires forall x :: keep(x)
    ensures Filter(s, keep) == s
  {
    if s != [] {
      FilterAll(s[1..], keep);
      assert s == [s[0]] + s[1..];
    }
  }

  /** The sort key of `ObjectCSVFile.sort`. */
  function RecidOf(o: ObjectData): string { o.recid }

  /** The sort key of the datastream containers. */
  function DspathOf(d: DSData): string { d.dspath }

  /** Filtering one element more appends it when it passes. */
  lemma FilterStep<T(!new)>(s: seq<T>, i: nat, keep: T -> bool)
    requires i < |s|
    ensures Filter(s[..i + 1], keep) == Filter(s[..i], keep) + (if keep(s[i]) then [s[i]] else [])
  {
    FilterAppend(s[..i], [s[i]], keep);
    assert s[..i + 1] == s[..i] + [s[i]];
    assert [s[i]][1..] == [];
  }

  /** A generator `for x in s: if keep(x): yield x`, run to the end. */
  method Yield<T(!new)>(s: seq<T>, keep: T -> bool) returns (r: seq<T>)
    ensures r == Filter(s, keep)
  {
    r := [];
    var i := 0;
    while i < |s|
      invariant 0 <= i <= |s|
      invariant r == Filter(s[..i], keep)
    {
      FilterAppend(s[..i], [s[i]], keep);
      assert s[..i + 1] == s[..i] + [s[i]];
      assert [s[i]][1..] == [];
      if keep(s[i]) {
        r := r + [s[i]];
      }
      i := i + 1;
    }
    assert s[..i] == s;
  }

  /** `for x in s: x.validate()`: the first record's error, or `Pass` when all are valid. */
  function ValidateAll<T>(s: seq<T>, validate: T -> Outcome<Error>): (r: Outcome<Error>)
    ensures r.Pass? <==> forall j :: 0 <= j < |s| ==> validate(s[j]).Pass?
    ensures r.Fail? ==>
      exists k :: 0 <= k < |s| && validate(s[k]) == r
        && forall j :: 0 <= j < k ==> validate(s[j]).Pass?
  {
    if s == [] then Pass
    else if validate(s[0]).Fail? then validate(s[0])
    else
      var r := ValidateAll(s[1..], validate);
      assert r.Fail? ==>
        exists k :: 0 <= k < |s| && validate(s[k]) == r
          && forall j :: 0 <= j < k ==> validate(s[j]).Pass? by {
        if r.Fail? {
          var k :| 0 <= k < |s[1..]| && validate(s[1..][k]) == r
            && forall j :: 0 <= j < k ==> validate(s[1..][j]).Pass?;
          forall j | 0 <= j < k + 1 ensures validate(s[j]).Pass? {
            if j > 0 { assert s[j] == s[1..][j - 1]; }
          }
        }
      }
      assert r.Pass? ==> forall j :: 0 <= j < |s| ==> validate(s[j]).Pass? by {
        if r.Pass? {
          forall j | 0 <= j < |s| ensures validate(s[j]).Pass? {
            if j > 0 { assert s[j] == s[1..][j - 1]; }
          }
        }
      }
      r
  }

  /** The records `get_data(recid)` keeps: all for `None`, else those with that recid. */
  function HasRecid(recid: Option<string>): ObjectData -> bool {
    (o: ObjectData) => recid.None? || o.recid == recid.value
  }

  /** The records `get_data(pid)` keeps: all for `None`, else those of that object. */
  function InObject(pid: Option<string>): DSData -> bool {
    (d: DSData) => pid.None? || ObjectId(d) == Success(pid.value)
  }

  function ObjectsWith(records: seq<ObjectData>, recid: Option<string>): seq<ObjectData> {
    Filter(records, HasRecid(recid))
  }

  /** Some record of `records` has no object id. */
  predicate SomePartless(records: seq<DSData>) {
    exists k :: 0 <= k < |records| && ObjectId(records[k]).Failure?
  }

  /**
   * The datastream `get_data(pid)` generator run to the end: for `None` every record (no
   * object id is asked for); otherwise the records of object `pid`, unless some record has no
   * object id, whose IndexError then ends the iteration.
   */
  function DatastreamsOf(records: seq<DSData>, pid: Option<string>): (r: Result<seq<DSData>, Error>)
    ensures r.Failure? <==> pid.Some? && SomePartless(records)
    ensures r.Failure? ==> r.error == NoPart
    ensures pid.None? ==> r == Success(records)
    ensures r.Success? ==> r.value == Filter(records, InObject(pid))
  {
    if pid.None? then FilterAll(records, InObject(pid)); Success(records)
    else if SomePartless(records) then Failure(NoPart)
    else Success(Filter(records, InObject(pid)))
  }

  /** Selecting by pid keeps exactly the records whose object id is that pid, in order. */
  lemma DatastreamsOfSelects(records: seq<DSData>, pid: string, d: DSData)
    requires DatastreamsOf(records, Some(pid)).Success?
    ensures d in DatastreamsOf(records, Some(pid)).value <==> d in records && ObjectId(d) == Success(pid)
  {
  }

  /** A single record without object id makes every selection by pid fail, wherever it stands. */
  lemma PartlessRecordRaises(a: seq<DSData>, b: seq<DSData>, pid: string)
    ensures DatastreamsOf(a + [NewDSData("")] + b, Some(pid)) == Failure(NoPart)
  {
    ObjectIdOfEmptyPath();
    assert (a + [NewDSData("")] + b)[|a|] == NewDSData("");
  }

  /** A record whose object id raises ends a selection by pid with that IndexError. */
  lemma DatastreamsOfRaises(s: seq<DSData>, i: nat, pid: string)
    requires i < |s| && ObjectId(s[i]).Failure?
    ensures DatastreamsOf(s, Some(pid)) == Failure(NoPart)
  {
    assert SomePartless(s);
  }

  /** One record more whose object id does not raise joins the selection when it passes. */
  lemma DatastreamsOfStep(s: seq<DSData>, i: nat, pid: Option<string>, out: seq<DSData>, keep: bool)
    requires i < |s| && DatastreamsOf(s[..i], pid) == Success(out)
    requires pid.Some? ==> ObjectId(s[i]).Success?
    requires keep == InObject(pid)(s[i])
    ensures DatastreamsOf(s[..i + 1], pid) == Success(out + (if keep then [s[i]] else []))
  {
    FilterStep(s, i, InObject(pid));
    if pid.Some? {
      PartlessPrefix(s, i);
    }
  }

  /** Extending a prefix without partless records by a record with an object id keeps it so. */
  lemma PartlessPrefix(s: seq<DSData>, i: nat)
    requires i < |s| && !SomePartless(s[..i]) && ObjectId(s[i]).Success?
    ensures !SomePartless(s[..i + 1])
  {
    var t := s[..i + 1];
    assert t == s[..i] + [s[i]];
    forall k | 0 <= k < |t| ensures ObjectId(t[k]).Success? {
      if k < i {
        assert t[k] == s[..i][k];
      } else {
        assert t[k] == s[i];
      }
    }
  }

  /** `pid is None or d.object_id == pid`, with the IndexError of `object_id`. */
  method Selects(d: DSData, pid: Option<string>) returns (r: Result<bool, Error>)
    ensures r.Failure? <==> pid.Some? && ObjectId(d).Failure?
    ensures r.Failure? ==> r.error == NoPart
    ensures r.Success? ==> r.value == InObject(pid)(d)
  {
    if pid.None? {
      return Success(true);
    }
    var id := ObjectId(d);
    if id.Failure? {
      return Failure(id.error);
    }
    return Success(id.value == pid.value);
  }

  /**
   * The datastream generator `for d in s: if pid is None or d.object_id == pid: yield d`, run
   * to the end: stops at the first record whose object id raises.
   */
  method YieldDatastreams(s: seq<DSData>, pid: Option<string>) returns (r: Result<seq<DSData>, Error>)
    ensures r == DatastreamsOf(s, pid)
  {
    var out: seq<DSData> := [];
    var i := 0;
    assert s[..0] == [];
    while i < |s|
      invariant 0 <= i <= |s|
      invariant DatastreamsOf(s[..i], pid) == Success(out)
    {
      var keep := Selects(s[i], pid);
      if keep.Failure? {
        DatastreamsOfRaises(s, i, pid.value);
        return Failure(keep.error);
      }
      DatastreamsOfStep(s, i, pid, out, keep.value);
      out := out + (if keep.value then [s[i]] else []);
      i := i + 1;
    }
    assert s[..i] == s;
    return Success(out);
  }
}
