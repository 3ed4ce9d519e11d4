/** The newer `DatastreamsCSVFile`: the datastream records of one object directory. */
module DatastreamsCsvFile {
  import opened Wrappers
  import opened Errors
  import opened Strings
  import opened Paths
  import opened Sorting
  import opened Records
  import opened CsvTables
  import opened Disk

  /** `guess_missing_values(object_dir)` applied to every record, in order. */
  function Guessed(dir: Path, records: seq<DSData>, guess: (Path, DSData) -> DSData): (r: seq<DSData>)
    ensures |r| == |records| && forall i :: 0 <= i < |records| ==> r[i] == guess(dir, records[i])
  {
    if records == [] then [] else Guessed(dir, records[..|records| - 1], guess) + [guess(dir, records[|records| - 1])]
  }

  /** What `from_csv(p)` loads, or the error it raises. */
  function LoadDatastreamFile(fs: Fs, p: Path, guess: (Path, DSData) -> DSData): Result<seq<DSData>, Error> {
    var t :- fs.Read(p);
    var records :- FromRows(t.header, t.rows, DatastreamFromRow);
    Success(Guessed(p.Parent(), records, guess))
  }

  /** One row more read by `from_csv`: its record joins the list, or its error ends the read. */
  lemma ReadStep(header: seq<string>, rows: seq<Row>, i: nat, read: seq<DSData>, dir: Path,
                 guess: (Path, DSData) -> DSData)
    requires i < |rows| && FromRows(header, rows[..i], DatastreamFromRow) == Success(read)
    ensures var rec := DatastreamFromRow(header, rows[i]);
      (rec.Failure? ==> FromRows(header, rows[..i + 1], DatastreamFromRow) == Failure(rec.error))
      && (rec.Success? ==>
            FromRows(header, rows[..i + 1], DatastreamFromRow) == Success(read + [rec.value])
            && Guessed(dir, read + [rec.value], guess) == Guessed(dir, read, guess) + [guess(dir, rec.value)])
  {
    FromRowsStep(header, rows, i, read, DatastreamFromRow);
    var rec := DatastreamFromRow(header, rows[i]);
    if rec.Success? {
      assert (read + [rec.value])[..|read|] == read;
    }
  }

  /** The record both keys of `remove_datastream` and `merge_datastream` select. */
  function SameKeys(dspath: string, dsid: string): DSData -> bool {
    (d: DSData) => d.dspath == dspath && d.dsid == dsid
  }

  /** The exception of `dsdata.ds_id`: `DSData` has no such attribute. */
  const NoDsId: Error := AttributeError("'DSData' object has no attribute 'ds_id'")

  /** `get_languages`: every record's `lang` split on whitespace, concatenated in record order. */
  function Languages(records: seq<DSData>): (r: seq<string>)
    ensures forall k :: 0 <= k < |r| ==> IsWord(r[k])
  {
    if records == [] then []
    else
      var init := Languages(records[..|records| - 1]);
      var last := SplitWhitespace(records[|records| - 1].lang);
      SplitWhitespaceWords(records[|records| - 1].lang);
      assert forall k :: |init| <= k < |init| + |last| ==> (init + last)[k] == last[k - |init|];
      init + last
  }

  lemma {:induction false} LanguagesAppend(a: seq<DSData>, b: seq<DSData>)
    ensures Languages(a + b) == Languages(a) + Languages(b)
    decreases |b|
  {
    if b == [] {
      assert a + b == a;
    } else {
      var init := b[..|b| - 1];
      LanguagesAppend(a, init);
      assert (a + b)[..|a + b| - 1] == a + init;
      assert (a + b)[|a + b| - 1] == b[|b| - 1];
    }
  }

  lemma SplitEn()
    ensures SplitWhitespace("en") == ["en"]
  {
    assert !IsSpace('e') && !IsSpace('n');
    assert "en"[1..] == "n" && "n"[1..] == [] && [] + ['e'] == "e" && "e" + ['n'] == "en";
    assert Words("en", []) == Words("n", "e") == Words([], "en") == ["en"];
  }

  lemma SplitEnDe()
    ensures SplitWhitespace("en de") == ["en", "de"]
  {
    assert !IsSpace('e') && !IsSpace('n') && !IsSpace('d') && IsSpace(' ');
    assert [] + ['e'] == "e" && "e" + ['n'] == "en" && [] + ['d'] == "d" && "d" + ['e'] == "de";
    assert "en de"[1..] == "n de" && "n de"[1..] == " de" && " de"[1..] == "de" && "de"[1..] == "e" && "e"[1..] == [];
    assert Words("en de", []) == Words("n de", "e") == Words(" de", "en") == ["en"] + Words("de", []);
    assert Words("de", []) == Words("e", "d") == Words([], "de") == ["de"];
  }

  /** Duplicates are kept: two records with "en" give it twice. */
  lemma LanguagesKeepDuplicates(d: DSData, e: DSData)
    requires d.lang == "en" && e.lang == "en de"
    ensures Languages([d, e]) == ["en", "en", "de"]
  {
    SplitEn();
    SplitEnDe();
    assert [d, e][..1] == [d] && [d][..0] == [];
    assert Languages([d]) == Languages([]) + SplitWhitespace(d.lang) == ["en"];
    assert Languages([d, e]) == Languages([d]) + SplitWhitespace(e.lang);
  }

  class DatastreamsCSVFile {
    var datastreams: seq<DSData>
    var objectDir: Path

    constructor (dir: Path)
      ensures datastreams == [] && objectDir == dir
    {
      datastreams := [];
      objectDir := dir;
    }

    /** Fills in missing values first (the `guess` parameter), then appends. */
    method AddDatastream(d: DSData, guess: (Path, DSData) -> DSData)
      modifies this
      ensures datastreams == old(datastreams) + [guess(objectDir, d)] && objectDir == old(objectDir)
    {
      datastreams := datastreams + [guess(objectDir, d)];
    }

    /** Removes the first record with both keys; a no-op if none has them. */
    method RemoveDatastream(dspath: string, dsid: string)
      modifies this
      ensures objectDir == old(objectDir)
      ensures match FirstWhere(old(datastreams), SameKeys(dspath, dsid))
        case None => datastreams == old(datastreams)
        case Some(k) => datastreams == old(datastreams)[..k] + old(datastreams)[k + 1..]
    {
      var i := 0;
      while i < |datastreams|
        invariant 0 <= i <= |datastreams|
        invariant forall j :: 0 <= j < i ==> !SameKeys(dspath, dsid)(datastreams[j])
      {
        if datastreams[i].dspath == dspath && datastreams[i].dsid == dsid {
          assert FirstWhere(datastreams, SameKeys(dspath, dsid)) == Some(i);
          datastreams := datastreams[..i] + datastreams[i + 1..];
          return;
        }
        i := i + 1;
      }
    }

    /**
     * `merge_datastream` as written: its first statement reads `dsdata.ds_id`, which raises,
     * so the list never changes.
     */
    method MergeDatastreamAsWritten(d: DSData) returns (r: Outcome<Error>)
      ensures r == Fail(NoDsId)
    {
      r := Fail(NoDsId);
    }

    /**
     * `merge_datastream` as intended by its loop: the first record with the same dspath and
     * dsid is merged in place; without one the record is added.
     */
    method MergeDatastream(d: DSData, guess: (Path, DSData) -> DSData)
      modifies this
      ensures objectDir == old(objectDir)
      ensures match FirstWhere(old(datastreams), SameKeys(d.dspath, d.dsid))
        case None => datastreams == old(datastreams) + [guess(objectDir, d)]
        case Some(k) => datastreams == old(datastreams)[k := MergeDatastreamData(old(datastreams)[k], d)]
    {
      var i := 0;
      while i < |datastreams|
        invariant 0 <= i <= |datastreams|
        invariant forall j :: 0 <= j < i ==> !SameKeys(d.dspath, d.dsid)(datastreams[j])
      {
        if datastreams[i].dspath == d.dspath && datastreams[i].dsid == d.dsid {
          assert FirstWhere(datastreams, SameKeys(d.dspath, d.dsid)) == Some(i);
          datastreams := datastreams[i := MergeDatastreamData(datastreams[i], d)];
          return;
        }
        i := i + 1;
      }
      assert FirstWhere(datastreams, SameKeys(d.dspath, d.dsid)).None?;
      AddDatastream(d, guess);
    }

    /** The records the `get_data(pid)` generator yields, or the error that ends it. */
    method GetData(pid: Option<string>) returns (r: Result<seq<DSData>, Error>)
      ensures r == DatastreamsOf(datastreams, pid)
    {
      r := YieldDatastreams(datastreams, pid);
    }

    static method FromCsv(fs: Fs, p: Path, guess: (Path, DSData) -> DSData) returns (r: Result<DatastreamsCSVFile, Error>)
      ensures r.Success? <==> LoadDatastreamFile(fs, p, guess).Success?
      ensures r.Success? ==>
        fresh(r.value) && r.value.datastreams == LoadDatastreamFile(fs, p, guess).value
        && r.value.objectDir == p.Parent()
      ensures r.Failure? ==> r.error == LoadDatastreamFile(fs, p, guess).error
    {
      var f := new DatastreamsCSVFile(p.Parent());
      var content := fs.Read(p);
      if content.Failure? {
        return Failure(content.error);
      }
      var t := content.value;
      var i := 0;
      ghost var read: seq<DSData> := [];
      while i < |t.rows|
        invariant 0 <= i <= |t.rows|
        invariant fresh(f) && f.objectDir == p.Parent()
        invariant FromRows(t.header, t.rows[..i], DatastreamFromRow) == Success(read)
        invariant f.datastreams == Guessed(p.Parent(), read, guess)
      {
        var rec := DatastreamFromRow(t.header, t.rows[i]);
        ReadStep(t.header, t.rows, i, read, p.Parent(), guess);
        if rec.Failure? {
          FromRowsFailurePrefix(t.header, t.rows, i + 1, DatastreamFromRow);
          return Failure(rec.error);
        }
        f.AddDatastream(rec.value, guess);
        read := read + [rec.value];
        i := i + 1;
      }
      assert t.rows[..i] == t.rows;
      return Success(f);
    }

    /** The list is sorted by `dspath` in place, then written. */
    method ToCsv(fs: Fs, p: Path) returns (r: Result<Fs, Error>)
      modifies this
      ensures datastreams == SortBy(old(datastreams), DspathOf) && objectDir == old(objectDir)
      ensures r == fs.Write(p, DatastreamTable(datastreams))
    {
      datastreams := SortBy(datastreams, DspathOf);
      r := fs.Write(p, DatastreamTable(datastreams));
    }

    method Sort()
      modifies this
      ensures datastreams == SortBy(old(datastreams), DspathOf) && objectDir == old(objectDir)
    {
      datastreams := SortBy(datastreams, DspathOf);
    }

    method GetLanguages() returns (r: seq<string>)
      ensures r == Languages(datastreams)
    {
      r := [];
      var i := 0;
      while i < |datastreams|
        invariant 0 <= i <= |datastreams|
        invariant r == Languages(datastreams[..i])
      {
        assert datastreams[..i + 1][..i] == datastreams[..i];
        r := r + SplitWhitespace(datastreams[i].lang);
        i := i + 1;
      }
      assert datastreams[..i] == datastreams;
    }

    function Len(): nat
      reads this
    {
      |datastreams|
    }
  }

  /** After `sort` or `to_csv` the list is ordered by dspath, a permutation, and stable. */
  lemma SortProperties(records: seq<DSData>, dspath: string)
    ensures SortedBy(SortBy(records, DspathOf), DspathOf)
    ensures multiset(SortBy(records, DspathOf)) == multiset(records)
    ensures WithKey(SortBy(records, DspathOf), DspathOf, dspath) == WithKey(records, DspathOf, dspath)
  {
    SortBySorted(records, DspathOf);
    SortByPermutes(records, DspathOf);
    SortByStable(records, DspathOf, dspath);
  }
}
