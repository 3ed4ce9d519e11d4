/**
 * The older generation of the CSV containers and `ObjectCSV`, which combines the object and the
 * datastream container of one object directory. `ObjectCSV` and the aggregation functions use
 * these classes.
 */
module ObjectCsv {
  import opened Wrappers
  import opened Errors
  import opened Paths
  import opened Sorting
  import opened Records
  import opened CsvTables
  import opened Disk

  const ObjectCsvFilename: Component := "object.csv"
  const DatastreamCsvFilename: Component := "datastreams.csv"

  /** The object records `from_csv` reads from `p`, or the error it raises. */
  function LoadObjects(fs: Fs, p: Path): Result<seq<ObjectData>, Error> {
    var t :- fs.Read(p);
    FromRows(t.header, t.rows, OldObjectFromRow)
  }

  /** The datastream records `from_csv` reads from `p`, or the error it raises. */
  function LoadDatastreams(fs: Fs, p: Path): Result<seq<DSData>, Error> {
    var t :- fs.Read(p);
    FromRows(t.header, t.rows, OldDatastreamFromRow)
  }

  /** What is left of a file system after two writes, and whether the second one was reached. */
  function WriteBoth(fs: Fs, p: Path, t: Table, q: Path, u: Table): (r: (Fs, Outcome<Error>))
    ensures r.1.Pass? <==> fs.Write(p, t).Success? && fs.Write(p, t).value.Write(q, u).Success?
    ensures r.1.Pass? ==> r.0 == Fs(fs.dirs, fs.files[p := t][q := u])
    ensures r.1.Fail? && fs.Write(p, t).Failure? ==> r.0 == fs
    ensures r.1.Fail? && fs.Write(p, t).Success? ==> r.0 == Fs(fs.dirs, fs.files[p := t])
    ensures r.0.dirs == fs.dirs
  {
    match fs.Write(p, t)
    case Failure(e) => (fs, Fail(e))
    case Success(fs1) =>
      match fs1.Write(q, u)
      case Failure(e) => (fs1, Fail(e))
      case Success(fs2) => (fs2, Pass)
  }

  class ObjectCSVFile {
    var objectData: seq<ObjectData>

    constructor ()
      ensures objectData == []
    {
      objectData := [];
    }

    method AddObjectData(o: ObjectData)
      modifies this
      ensures objectData == old(objectData) + [o]
    {
      objectData := objectData + [o];
    }

    /** The records the `get_data(pid)` generator yields. */
    method GetData(pid: Option<string>) returns (r: seq<ObjectData>)
      ensures r == ObjectsWith(objectData, pid)
    {
      r := Yield(objectData, HasRecid(pid));
    }

    static method FromCsv(fs: Fs, p: Path) returns (r: Result<ObjectCSVFile, Error>)
      ensures r.Success? <==> LoadObjects(fs, p).Success?
      ensures r.Success? ==> fresh(r.value) && r.value.objectData == LoadObjects(fs, p).value
      ensures r.Failure? ==> r.error == LoadObjects(fs, p).error
    {
      var content := fs.Read(p);
      if content.Failure? {
        return Failure(content.error);
      }
      var t := content.value;
      var f := new ObjectCSVFile();
      var i := 0;
      while i < |t.rows|
        invariant 0 <= i <= |t.rows|
        invariant fresh(f)
        invariant FromRows(t.header, t.rows[..i], OldObjectFromRow) == Success(f.objectData)
      {
        var rec := OldObjectFromRow(t.header, t.rows[i]);
        FromRowsStep(t.header, t.rows, i, f.objectData, OldObjectFromRow);
        if rec.Failure? {
          FromRowsFailurePrefix(t.header, t.rows, i + 1, OldObjectFromRow);
          return Failure(rec.error);
        }
        f.AddObjectData(rec.value);
        i := i + 1;
      }
      assert t.rows[..i] == t.rows;
      return Success(f);
    }

    /** Objects are written in the order they were added. */
    method ToCsv(fs: Fs, p: Path) returns (r: Result<Fs, Error>)
      ensures r == fs.Write(p, OldObjectTable(objectData))
    {
      r := fs.Write(p, OldObjectTable(objectData));
    }

    function Len(): nat
      reads this
    {
      |objectData|
    }
  }

  class DatastreamsCSVFile {
    var datastreams: seq<DSData>

    constructor ()
      ensures datastreams == []
    {
      datastreams := [];
    }

    method AddDatastream(d: DSData)
      modifies this
      ensures datastreams == old(datastreams) + [d]
    {
      datastreams := datastreams + [d];
    }

    /** The records the `get_data(pid)` generator yields, or the error that ends it. */
    method GetData(pid: Option<string>) returns (r: Result<seq<DSData>, Error>)
      ensures r == DatastreamsOf(datastreams, pid)
    {
      r := YieldDatastreams(datastreams, pid);
    }

    static method FromCsv(fs: Fs, p: Path) returns (r: Result<DatastreamsCSVFile, Error>)
      ensures r.Success? <==> LoadDatastreams(fs, p).Success?
      ensures r.Success? ==> fresh(r.value) && r.value.datastreams == LoadDatastreams(fs, p).value
      ensures r.Failure? ==> r.error == LoadDatastreams(fs, p).error
    {
      var content := fs.Read(p);
      if content.Failure? {
        return Failure(content.error);
      }
      var t := content.value;
      var f := new DatastreamsCSVFile();
      var i := 0;
      while i < |t.rows|
        invariant 0 <= i <= |t.rows|
        invariant fresh(f)
        invariant FromRows(t.header, t.rows[..i], OldDatastreamFromRow) == Success(f.datastreams)
      {
        var rec := OldDatastreamFromRow(t.header, t.rows[i]);
        FromRowsStep(t.header, t.rows, i, f.datastreams, OldDatastreamFromRow);
        if rec.Failure? {
          FromRowsFailurePrefix(t.header, t.rows, i + 1, OldDatastreamFromRow);
          return Failure(rec.error);
        }
        f.AddDatastream(rec.value);
        i := i + 1;
      }
      assert t.rows[..i] == t.rows;
      return Success(f);
    }

    /** The list is sorted by `dspath` in place before the file is opened. */
    method ToCsv(fs: Fs, p: Path) returns (r: Result<Fs, Error>)
      modifies this
      ensures datastreams == SortBy(old(datastreams), DspathOf)
      ensures r == fs.Write(p, OldDatastreamTable(datastreams))
    {
      datastreams := SortBy(datastreams, DspathOf);
      r := fs.Write(p, OldDatastreamTable(datastreams));
    }

    function Len(): nat
      reads this
    {
      |datastreams|
    }
  }

  /**
   * What constructing an `ObjectCSV` for `dir` loads: an error if `dir` is not a directory,
   * otherwise the records of each CSV file that is a file, and nothing for a missing one.
   */
  function Opened(fs: Fs, dir: Path, objectFile: string, datastreamFile: string)
    : (r: Result<(seq<ObjectData>, seq<DSData>), Error>)
  {
    if !fs.IsDir(dir) then Failure(FileNotFoundError("Object directory '" + dir.ToString() + "' does not exist."))
    else
      var objs :- if fs.IsFile(dir.Div(objectFile)) then LoadObjects(fs, dir.Div(objectFile)) else Success([]);
      var dss :- if fs.IsFile(dir.Div(datastreamFile)) then LoadDatastreams(fs, dir.Div(datastreamFile)) else Success([]);
      Success((objs, dss))
  }

  /**
   * A missing directory is refused; missing CSV files give empty containers; a present file
   * gives exactly the records it holds.
   */
  lemma OpenedCases(fs: Fs, dir: Path, objectFile: string, datastreamFile: string)
    ensures var r := Opened(fs, dir, objectFile, datastreamFile);
      (!fs.IsDir(dir) ==> r == Failure(FileNotFoundError("Object directory '" + dir.ToString() + "' does not exist.")))
      && (fs.IsDir(dir) && !fs.IsFile(dir.Div(objectFile)) && !fs.IsFile(dir.Div(datastreamFile)) ==>
            r == Success(([], [])))
      && (r.Success? && fs.IsFile(dir.Div(objectFile)) ==> LoadObjects(fs, dir.Div(objectFile)) == Success(r.value.0))
      && (r.Success? && fs.IsFile(dir.Div(datastreamFile)) ==> LoadDatastreams(fs, dir.Div(datastreamFile)) == Success(r.value.1))
  {
  }

  class ObjectCSV {
    var objectDir: Path
    var objectFile: string
    var datastreamFile: string
    var objCsvFile: Path
    var dsCsvFile: Path
    var objectData: ObjectCSVFile
    var datastreamData: DatastreamsCSVFile

    ghost predicate Valid()
      reads this
    {
      objCsvFile == objectDir.Div(objectFile) && dsCsvFile == objectDir.Div(datastreamFile)
    }

    constructor (dir: Path, objectFile: string, datastreamFile: string,
                 objects: ObjectCSVFile, datastreams: DatastreamsCSVFile)
      ensures Valid()
      ensures objectDir == dir && this.objectFile == objectFile && this.datastreamFile == datastreamFile
      ensures objectData == objects && datastreamData == datastreams
    {
      objectDir := dir;
      this.objectFile := objectFile;
      this.datastreamFile := datastreamFile;
      objCsvFile := dir.Div(objectFile);
      dsCsvFile := dir.Div(datastreamFile);
      objectData := objects;
      datastreamData := datastreams;
    }

    /** `ObjectCSV(dir, objectFile, datastreamFile)`: `__post_init__` checks and loads. */
    static method Open(fs: Fs, dir: Path, objectFile: string, datastreamFile: string)
      returns (r: Result<ObjectCSV, Error>)
      ensures r.Success? <==> Opened(fs, dir, objectFile, datastreamFile).Success?
      ensures r.Failure? ==> r.error == Opened(fs, dir, objectFile, datastreamFile).error
      ensures r.Success? ==>
        fresh(r.value) && fresh(r.value.objectData) && fresh(r.value.datastreamData)
        && r.value.Valid() && r.value.objectDir == dir
        && r.value.objectFile == objectFile && r.value.datastreamFile == datastreamFile
        && r.value.objectData.objectData == Opened(fs, dir, objectFile, datastreamFile).value.0
        && r.value.datastreamData.datastreams == Opened(fs, dir, objectFile, datastreamFile).value.1
    {
      if !fs.IsDir(dir) {
        return Failure(FileNotFoundError("Object directory '" + dir.ToString() + "' does not exist."));
      }
      var objPath := dir.Div(objectFile);
      var dsPath := dir.Div(datastreamFile);
      var objects: ObjectCSVFile;
      if fs.IsFile(objPath) {
        var loaded := ObjectCSVFile.FromCsv(fs, objPath);
        if loaded.Failure? {
          return Failure(loaded.error);
        }
        objects := loaded.value;
      } else {
        objects := new ObjectCSVFile();
      }
      var datastreams: DatastreamsCSVFile;
      if fs.IsFile(dsPath) {
        var loaded := DatastreamsCSVFile.FromCsv(fs, dsPath);
        if loaded.Failure? {
          return Failure(loaded.error);
        }
        datastreams := loaded.value;
      } else {
        datastreams := new DatastreamsCSVFile();
      }
      var o := new ObjectCSV(dir, objectFile, datastreamFile, objects, datastreams);
      return Success(o);
    }

    /** True iff neither CSV file exists (the opposite of what its docstring says). */
    function IsNew(fs: Fs): bool
      reads this
    {
      !(fs.Exists(objCsvFile) || fs.Exists(dsCsvFile))
    }

    method AddDatastream(d: DSData)
      modifies datastreamData
      ensures datastreamData.datastreams == old(datastreamData.datastreams) + [d]
    {
      datastreamData.AddDatastream(d);
    }

    method AddObjectData(o: ObjectData)
      modifies objectData
      ensures objectData.objectData == old(objectData.objectData) + [o]
    {
      objectData.AddObjectData(o);
    }

    method GetObjectData(pid: Option<string>) returns (r: seq<ObjectData>)
      ensures r == ObjectsWith(objectData.objectData, pid)
    {
      r := objectData.GetData(pid);
    }

    method GetDatastreamData(pid: Option<string>) returns (r: Result<seq<DSData>, Error>)
      ensures r == DatastreamsOf(datastreamData.datastreams, pid)
    {
      r := datastreamData.GetData(pid);
    }

    /**
     * `write(target_dir, object_filename, datastream_filename)`: missing arguments default to the
     * object directory and the class constants "object.csv" and "datastreams.csv" (not to the
     * file names the instance was opened with). Objects are written first; the datastream list
     * is sorted only when that write succeeded.
     */
    method Write(fs: Fs, targetDir: Option<Path>, objectFilename: Option<string>, datastreamFilename: Option<string>)
      returns (fs': Fs, r: Outcome<Error>)
      modifies datastreamData
      ensures
        var target := targetDir.GetOr(objectDir);
        var p := target.Div(objectFilename.GetOr(ObjectCsvFilename));
        var q := target.Div(datastreamFilename.GetOr(DatastreamCsvFilename));
        (fs', r) == WriteBoth(fs, p, OldObjectTable(objectData.objectData), q,
                              OldDatastreamTable(SortBy(old(datastreamData.datastreams), DspathOf)))
        && datastreamData.datastreams ==
             (if fs.Write(p, OldObjectTable(objectData.objectData)).Success?
              then SortBy(old(datastreamData.datastreams), DspathOf) else old(datastreamData.datastreams))
    {
      var target := targetDir.GetOr(objectDir);
      var p := target.Div(objectFilename.GetOr(ObjectCsvFilename));
      var q := target.Div(datastreamFilename.GetOr(DatastreamCsvFilename));
      var w1 := objectData.ToCsv(fs, p);
      if w1.Failure? {
        return fs, Fail(w1.error);
      }
      var w2 := datastreamData.ToCsv(w1.value, q);
      if w2.Failure? {
        return w1.value, Fail(w2.error);
      }
      return w2.value, Pass;
    }

    function CountObjects(): nat
      reads this, objectData
    {
      objectData.Len()
    }

    function CountDatastreams(): nat
      reads this, datastreamData
    {
      datastreamData.Len()
    }

    /** Replaces both containers by new, empty ones. */
    method Clear()
      modifies this
      ensures fresh(objectData) && fresh(datastreamData)
      ensures CountObjects() == 0 && CountDatastreams() == 0
      ensures objectDir == old(objectDir) && objectFile == old(objectFile) && datastreamFile == old(datastreamFile)
      ensures objCsvFile == old(objCsvFile) && dsCsvFile == old(dsCsvFile)
    {
      objectData := new ObjectCSVFile();
      datastreamData := new DatastreamsCSVFile();
    }

    /** The object's id is the name of its directory. */
    function ObjectId(): string
      reads this
    {
      objectDir.Name()
    }
  }

  /**
   * After a successful `write()` with the default arguments, an `ObjectCSV` opened with the
   * default file names no longer counts as new.
   */
  lemma DefaultWriteMakesNotNew(o: ObjectCSV, fs: Fs, t: Table, u: Table)
    requires o.Valid() && o.objectFile == ObjectCsvFilename
    requires WriteBoth(fs, o.objectDir.Join(ObjectCsvFilename), t, o.objectDir.Join(DatastreamCsvFilename), u).1.Pass?
    ensures !o.IsNew(WriteBoth(fs, o.objectDir.Join(ObjectCsvFilename), t, o.objectDir.Join(DatastreamCsvFilename), u).0)
  {
  }

  /** Opening with other plain file names: a default `write()` leaves `IsNew` as it was. */
  lemma OtherNamesStayNew(o: ObjectCSV, fs: Fs, t: Table, u: Table)
    requires o.Valid() && IsComponent(o.objectFile) && IsComponent(o.datastreamFile)
    requires o.objectFile != ObjectCsvFilename && o.datastreamFile != DatastreamCsvFilename
    requires o.objectFile != DatastreamCsvFilename && o.datastreamFile != ObjectCsvFilename
    requires WriteBoth(fs, o.objectDir.Join(ObjectCsvFilename), t, o.objectDir.Join(DatastreamCsvFilename), u).1.Pass?
    ensures o.IsNew(WriteBoth(fs, o.objectDir.Join(ObjectCsvFilename), t, o.objectDir.Join(DatastreamCsvFilename), u).0)
        == o.IsNew(fs)
  {
    var p := o.objectDir.Join(ObjectCsvFilename);
    var q := o.objectDir.Join(DatastreamCsvFilename);
    var fs' := WriteBoth(fs, p, t, q, u).0;
    assert fs' == Fs(fs.dirs, fs.files[p := t][q := u]);
    assert o.objCsvFile != p && o.objCsvFile != q by {
      assert o.objCsvFile == o.objectDir.Join(o.objectFile);
    }
    assert o.dsCsvFile != p && o.dsCsvFile != q by {
      assert o.dsCsvFile == o.objectDir.Join(o.datastreamFile);
    }
    assert fs'.Exists(o.objCsvFile) == fs.Exists(o.objCsvFile);
    assert fs'.Exists(o.dsCsvFile) == fs.Exists(o.dsCsvFile);
  }
}
