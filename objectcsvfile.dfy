/** The newer `ObjectCSVFile`: the object records of one object.csv and the directory it belongs to. */
module ObjectCsvFile {
  import opened Wrappers
  import opened Errors
  import opened Paths
  import opened Sorting
  import opened Records
  import opened CsvTables
  import opened Disk

  /** What `from_csv(p)` loads, or the error it raises. */
  function LoadObjectFile(fs: Fs, p: Path): (r: Result<seq<ObjectData>, Error>)
    ensures !fs.IsFile(p) ==> r == Failure(FileNotFoundError("Object CSV file " + p.ToString() + " does not exist."))
    ensures r.Success? ==> r.value != []
  {
    if !fs.IsFile(p) then Failure(FileNotFoundError("Object CSV file " + p.ToString() + " does not exist."))
    else
      var t := fs.files[p];
      var records :- FromRows(t.header, t.rows, ObjectFromRenamedRow);
      if records == [] then Failure(ValidationError("Empty object.csv file " + p.ToString() + "."))
      else Success(records)
  }

  /** A file holding a header and no rows is refused. */
  lemma HeaderOnlyIsEmpty(fs: Fs, p: Path)
    requires fs.IsFile(p) && fs.files[p].rows == []
    ensures LoadObjectFile(fs, p) == Failure(ValidationError("Empty object.csv file " + p.ToString() + "."))
  {
  }

  /** The record `set_mainresource(recid, dsid)` changes: same recid, no main resource yet. */
  function NeedsMainResource(recid: string): ObjectData -> bool {
    (o: ObjectData) => o.recid == recid && o.mainResource == ""
  }

  function SameRecid(recid: string): ObjectData -> bool {
    (o: ObjectData) => o.recid == recid
  }

  /** "None" or the directory, as an f-string shows it. */
  function DirText(dir: Option<Path>): string {
    if dir.None? then "None" else dir.value.ToString()
  }

  class ObjectCSVFile {
    var objectData: seq<ObjectData>
    var objectDir: Option<Path>

    constructor (dir: Option<Path>)
      ensures objectData == [] && objectDir == dir
    {
      objectData := [];
      objectDir := dir;
    }

    method AddObjectData(o: ObjectData)
      modifies this
      ensures objectData == old(objectData) + [o] && objectDir == old(objectDir)
    {
      objectData := objectData + [o];
    }

    /** The records the `get_data(recid)` generator yields. */
    method GetData(recid: Option<string>) returns (r: seq<ObjectData>)
      ensures r == ObjectsWith(objectData, recid)
    {
      r := Yield(objectData, HasRecid(recid));
    }

    /**
     * Merges `other` into the first record with the same recid and returns the merged record;
     * without such a record `other` is appended and returned.
     */
    method MergeObject(other: ObjectData) returns (r: ObjectData)
      modifies this
      ensures objectDir == old(objectDir)
      ensures match FirstWhere(old(objectData), SameRecid(other.recid))
        case None => objectData == old(objectData) + [other] && r == other
        case Some(k) =>
          r == Merged(old(objectData)[k], other) && objectData == old(objectData)[k := r]
    {
      var i := 0;
      while i < |objectData|
        invariant 0 <= i <= |objectData|
        invariant forall j :: 0 <= j < i ==> objectData[j].recid != other.recid
      {
        if objectData[i].recid == other.recid {
          assert FirstWhere(objectData, SameRecid(other.recid)) == Some(i);
          r := MergeObjectData(objectData[i], other);
          objectData := objectData[i := r];
          return;
        }
        i := i + 1;
      }
      assert FirstWhere(objectData, SameRecid(other.recid)).None?;
      AddObjectData(other);
      r := other;
    }

    /**
     * `from_csv(p)`: a missing file and a file without rows are refused; the old spelling
     * "mainresource" is renamed; the records remember the file's directory.
     */
    static method FromCsv(fs: Fs, p: Path) returns (r: Result<ObjectCSVFile, Error>)
      ensures r.Success? <==> LoadObjectFile(fs, p).Success?
      ensures r.Success? ==>
        fresh(r.value) && r.value.objectData == LoadObjectFile(fs, p).value && r.value.objectDir == Some(p.Parent())
      ensures r.Failure? ==> r.error == LoadObjectFile(fs, p).error
    {
      if !fs.IsFile(p) {
        return Failure(FileNotFoundError("Object CSV file " + p.ToString() + " does not exist."));
      }
      var f := new ObjectCSVFile(Some(p.Parent()));
      var t := fs.files[p];
      var i := 0;
      while i < |t.rows|
        invariant 0 <= i <= |t.rows|
        invariant fresh(f) && f.objectDir == Some(p.Parent())
        invariant FromRows(t.header, t.rows[..i], ObjectFromRenamedRow) == Success(f.objectData)
      {
        var rec := ObjectFromRenamedRow(t.header, t.rows[i]);
        FromRowsStep(t.header, t.rows, i, f.objectData, ObjectFromRenamedRow);
        if rec.Failure? {
          FromRowsFailurePrefix(t.header, t.rows, i + 1, ObjectFromRenamedRow);
          return Failure(rec.error);
        }
        f.AddObjectData(rec.value);
        i := i + 1;
      }
      assert t.rows[..i] == t.rows;
      if |f.objectData| == 0 {
        return Failure(ValidationError("Empty object.csv file " + p.ToString() + "."));
      }
      return Success(f);
    }

    /**
     * `to_csv(csv_file)`: without a target the file goes to object.csv in the object directory;
     * after a successful write the object directory is the target's parent.
     */
    method ToCsv(fs: Fs, csvFile: Option<Path>) returns (r: Result<Fs, Error>)
      modifies this
      ensures objectData == old(objectData)
      ensures csvFile.None? && old(objectDir).None? ==>
        r == Failure(TypeError("unsupported operand type(s) for /: 'NoneType' and 'str'")) && objectDir == old(objectDir)
      ensures csvFile.Some? || old(objectDir).Some? ==>
        var target := if csvFile.Some? then csvFile.value else old(objectDir).value.Join("object.csv");
        r == fs.Write(target, ObjectTable(objectData))
        && objectDir == (if r.Success? then Some(target.Parent()) else old(objectDir))
    {
      var target: Path;
      if csvFile.None? {
        if objectDir.None? {
          return Failure(TypeError("unsupported operand type(s) for /: 'NoneType' and 'str'"));
        }
        target := objectDir.value.Join("object.csv");
      } else {
        target := csvFile.value;
      }
      r := fs.Write(target, ObjectTable(objectData));
      if r.Success? {
        objectDir := Some(target.Parent());
      }
    }

    /** Sorts the records by recid, stably. */
    method Sort()
      modifies this
      ensures objectData == SortBy(old(objectData), RecidOf) && objectDir == old(objectDir)
    {
      objectData := SortBy(objectData, RecidOf);
    }

    /**
     * Sets `mainResource` of the first record with that recid whose main resource is still
     * empty; nothing else changes.
     */
    method SetMainResource(recid: string, dsid: string)
      modifies this
      ensures objectDir == old(objectDir)
      ensures match FirstWhere(old(objectData), NeedsMainResource(recid))
        case None => objectData == old(objectData)
        case Some(k) => objectData == old(objectData)[k := old(objectData)[k].(mainResource := dsid)]
    {
      var i := 0;
      while i < |objectData|
        invariant 0 <= i <= |objectData|
        invariant forall j :: 0 <= j < i ==> !NeedsMainResource(recid)(objectData[j])
      {
        if objectData[i].recid == recid && objectData[i].mainResource == "" {
          assert FirstWhere(objectData, NeedsMainResource(recid)) == Some(i);
          objectData := objectData[i := objectData[i].(mainResource := dsid)];
          return;
        }
        i := i + 1;
      }
    }

    /** An empty list is refused; otherwise the first invalid record's error is raised. */
    method Validate() returns (r: Outcome<Error>)
      ensures objectData == [] ==> r == Fail(ValidationError("Empty object.csv in " + DirText(objectDir) + "."))
      ensures objectData != [] ==> r == ValidateAll(objectData, ValidateObject)
    {
      if |objectData| == 0 {
        return Fail(ValidationError("Empty object.csv in " + DirText(objectDir) + "."));
      }
      var i := 0;
      while i < |objectData|
        invariant 0 <= i <= |objectData|
        invariant forall j :: 0 <= j < i ==> ValidateObject(objectData[j]).Pass?
      {
        var v := ValidateObject(objectData[i]);
        if v.Fail? {
          ValidateAllFirst(objectData, ValidateObject, i);
          return v;
        }
        i := i + 1;
      }
      return Pass;
    }

    function Len(): nat
      reads this
    {
      |objectData|
    }
  }

  /** The error `ValidateAll` reports is that of the first invalid element. */
  lemma ValidateAllFirst<T>(s: seq<T>, validate: T -> Outcome<Error>, i: nat)
    requires i < |s| && validate(s[i]).Fail? && forall j :: 0 <= j < i ==> validate(s[j]).Pass?
    ensures ValidateAll(s, validate) == validate(s[i])
  {
    var r := ValidateAll(s, validate);
    var k :| 0 <= k < |s| && validate(s[k]) == r && forall j :: 0 <= j < k ==> validate(s[j]).Pass?;
    assert k == i;
  }

  /** After `sort`, records are ordered by recid, the multiset is kept, and equal recids keep their order. */
  lemma SortProperties(records: seq<ObjectData>, recid: string)
    ensures SortedBy(SortBy(records, RecidOf), RecidOf)
    ensures multiset(SortBy(records, RecidOf)) == multiset(records)
    ensures WithKey(SortBy(records, RecidOf), RecidOf, recid) == WithKey(records, RecidOf, recid)
  {
    SortBySorted(records, RecidOf);
    SortByPermutes(records, RecidOf);
    SortByStable(records, RecidOf, recid);
  }
}
