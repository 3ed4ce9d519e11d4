/**
 * A CSV file as `csv.DictReader` and `csv.DictWriter` see it: a header and a list of rows, each
 * row a map from field name to string. The text layer (quoting, escaping) is not modelled.
 */
module CsvTables {
  import opened Wrappers
  import opened Errors
  import opened Records

  type Row = map<string, string>

  datatype Table = Table(header: seq<string>, rows: seq<Row>)

  /** `[f.name for f in fields(ObjectData)]`, in declaration order. */
  const ObjectFieldNames: seq<string> :=
    ["recid", "title", "project", "description", "creator", "rights", "publisher", "source",
     "objectType", "mainResource", "funder"]

  /** `[f.name for f in fields(DSData)]`, in declaration order. */
  const DatastreamFieldNames: seq<string> :=
    ["dspath", "dsid", "title", "description", "mimetype", "creator", "rights", "lang", "tags"]

  /** `asdict(o)`. */
  function ObjectRow(o: ObjectData): Row {
    map["recid" := o.recid, "title" := o.title, "project" := o.project,
        "description" := o.description, "creator" := o.creator, "rights" := o.rights,
        "publisher" := o.publisher, "source" := o.source, "objectType" := o.objectType,
        "mainResource" := o.mainResource, "funder" := o.funder]
  }

  /** `asdict(d)`. */
  function DatastreamRow(d: DSData): Row {
    map["dspath" := d.dspath, "dsid" := d.dsid, "title" := d.title,
        "description" := d.description, "mimetype" := d.mimetype, "creator" := d.creator,
        "rights" := d.rights, "lang" := d.lang, "tags" := d.tags]
  }

  /** Every record passed through `toRow`, in order: the rows `to_csv` writes. */
  function Rows<T, U>(records: seq<T>, toRow: T -> U): (r: seq<U>)
    ensures |r| == |records|
    ensures forall i :: 0 <= i < |records| ==> r[i] == toRow(records[i])
  {
    if records == [] then [] else Rows(records[..|records| - 1], toRow) + [toRow(records[|records| - 1])]
  }

  /** What `to_csv` writes for a list of object records. */
  function ObjectTable(records: seq<ObjectData>): Table {
    Table(ObjectFieldNames, Rows(records, ObjectRow))
  }

  /** What `to_csv` writes for a list of datastream records. */
  function DatastreamTable(records: seq<DSData>): Table {
    Table(DatastreamFieldNames, Rows(records, DatastreamRow))
  }

  function Lookup(row: Row, k: string): string {
    if k in row then row[k] else ""
  }

  /** The first header entry the record class has no field for. */
  function UnknownKey(header: seq<string>, fields: seq<string>): (r: Option<string>)
    ensures r.None? <==> forall k :: 0 <= k < |header| ==> header[k] in fields
    ensures r.Some? ==> r.value in header && r.value !in fields
  {
    if header == [] then None
    else if header[0] !in fields then Some(header[0])
    else UnknownKey(header[1..], fields)
  }

  /** The `TypeError` of a dataclass constructor called with a keyword it does not know. */
  function UnexpectedKeyword(cls: string, key: string): Error {
    TypeError(cls + ".__init__() got an unexpected keyword argument '" + key + "'")
  }

  /** The `TypeError` of a dataclass constructor called without its one required field. */
  function MissingArgument(cls: string, key: string): Error {
    TypeError(cls + ".__init__() missing 1 required positional argument: '" + key + "'")
  }

  /** `ObjectData(**row)` for a row read under `header`. */
  function ObjectFromRow(header: seq<string>, row: Row): (r: Result<ObjectData, Error>)
    ensures r.Success? <==> UnknownKey(header, ObjectFieldNames).None? && "recid" in row
    ensures r.Success? ==> r.value.recid == row["recid"]
  {
    var unknown := UnknownKey(header, ObjectFieldNames);
    if unknown.Some? then Failure(UnexpectedKeyword("ObjectData", unknown.value))
    else if "recid" !in row then Failure(MissingArgument("ObjectData", "recid"))
    else Success(ObjectData(
      Lookup(row, "recid"), Lookup(row, "title"), Lookup(row, "project"),
      Lookup(row, "description"), Lookup(row, "creator"), Lookup(row, "rights"),
      Lookup(row, "publisher"), Lookup(row, "source"), Lookup(row, "objectType"),
      Lookup(row, "mainResource"), Lookup(row, "funder")))
  }

  /** `DSData(**row)` for a row read under `header`. */
  function DatastreamFromRow(header: seq<string>, row: Row): (r: Result<DSData, Error>)
    ensures r.Success? <==> UnknownKey(header, DatastreamFieldNames).None? && "dspath" in row
    ensures r.Success? ==> r.value.dspath == row["dspath"] && r.value.dsid == Lookup(row, "dsid")
  {
    var unknown := UnknownKey(header, DatastreamFieldNames);
    if unknown.Some? then Failure(UnexpectedKeyword("DSData", unknown.value))
    else if "dspath" !in row then Failure(MissingArgument("DSData", "dspath"))
    else Success(DSData(
      Lookup(row, "dspath"), Lookup(row, "dsid"), Lookup(row, "title"),
      Lookup(row, "description"), Lookup(row, "mimetype"), Lookup(row, "creator"),
      Lookup(row, "rights"), Lookup(row, "lang"), Lookup(row, "tags")))
  }

  /** The fields of `ObjectData` in the order of `ObjectFieldNames`. */
  const AllFields: seq<Field> :=
    [Recid, Title, Project, Description, Creator, Rights, Publisher, Source, ObjectType, MainResource, Funder]

  lemma ObjectRowFields(o: ObjectData)
    ensures var row := ObjectRow(o);
      Lookup(row, "recid") == o.recid && Lookup(row, "title") == o.title
      && Lookup(row, "project") == o.project && Lookup(row, "description") == o.description
      && Lookup(row, "creator") == o.creator && Lookup(row, "rights") == o.rights
      && Lookup(row, "publisher") == o.publisher && Lookup(row, "source") == o.source
      && Lookup(row, "objectType") == o.objectType && Lookup(row, "mainResource") == o.mainResource
      && Lookup(row, "funder") == o.funder
  {
  }

  lemma DatastreamRowFields(d: DSData)
    ensures var row := DatastreamRow(d);
      Lookup(row, "dspath") == d.dspath && Lookup(row, "dsid") == d.dsid
      && Lookup(row, "title") == d.title && Lookup(row, "description") == d.description
      && Lookup(row, "mimetype") == d.mimetype && Lookup(row, "creator") == d.creator
      && Lookup(row, "rights") == d.rights && Lookup(row, "lang") == d.lang
      && Lookup(row, "tags") == d.tags
  {
  }

  lemma KnownHeaders()
    ensures UnknownKey(ObjectFieldNames, ObjectFieldNames).None?
    ensures UnknownKey(DatastreamFieldNames, DatastreamFieldNames).None?
  {
  }

  /** Reading back a written object row gives the record that was written. */
  lemma ObjectRowRoundTrip(o: ObjectData)
    ensures ObjectFromRow(ObjectFieldNames, ObjectRow(o)) == Success(o)
  {
    KnownHeaders();
    ObjectRowFields(o);
    assert "recid" in ObjectRow(o);
  }

  /** Reading back a written datastream row gives the record that was written. */
  lemma DatastreamRowRoundTrip(d: DSData)
    ensures DatastreamFromRow(DatastreamFieldNames, DatastreamRow(d)) == Success(d)
  {
    KnownHeaders();
    DatastreamRowFields(d);
    assert "dspath" in DatastreamRow(d);
  }

  /**
   * `for row in reader: add(cls(**row))`: the records of all rows, or the error of the first
   * row that cannot be turned into a record.
   */
  function FromRows<T>(header: seq<string>, rows: seq<Row>, fromRow: (seq<string>, Row) -> Result<T, Error>)
    : (r: Result<seq<T>, Error>)
    ensures r.Success? ==> |r.value| == |rows|
    ensures r.Success? ==> forall i :: 0 <= i < |rows| ==> fromRow(header, rows[i]) == Success(r.value[i])
  {
    if rows == [] then Success([])
    else
      var init := FromRows(header, rows[..|rows| - 1], fromRow);
      if init.Failure? then init
      else
        var last := fromRow(header, rows[|rows| - 1]);
        if last.Failure? then Failure(last.error) else Success(init.value + [last.value])
  }

  /** Once a prefix of the rows fails, reading the whole file fails with the same error. */
  lemma {:induction false} FromRowsFailurePrefix<T>(header: seq<string>, rows: seq<Row>, n: nat,
                                                    fromRow: (seq<string>, Row) -> Result<T, Error>)
    requires n <= |rows| && FromRows(header, rows[..n], fromRow).Failure?
    ensures FromRows(header, rows, fromRow) == FromRows(header, rows[..n], fromRow)
    decreases |rows|
  {
    if n < |rows| {
      var init := rows[..|rows| - 1];
      assert init[..n] == rows[..n];
      FromRowsFailurePrefix(header, init, n, fromRow);
    } else {
      assert rows[..n] == rows;
    }
  }

  /** One row more: its record joins those read so far, or its error is the error of the prefix. */
  lemma FromRowsStep<T>(header: seq<string>, rows: seq<Row>, i: nat, read: seq<T>,
                        fromRow: (seq<string>, Row) -> Result<T, Error>)
    requires i < |rows| && FromRows(header, rows[..i], fromRow) == Success(read)
    ensures fromRow(header, rows[i]).Failure? ==>
      FromRows(header, rows[..i + 1], fromRow) == Failure(fromRow(header, rows[i]).error)
    ensures fromRow(header, rows[i]).Success? ==>
      FromRows(header, rows[..i + 1], fromRow) == Success(read + [fromRow(header, rows[i]).value])
  {
    assert rows[..i + 1][..i] == rows[..i];
  }

  /** Reading back rows written by `toRow` gives the records, when `fromRow` undoes `toRow`. */
  lemma {:induction false} FromRowsOfRows<T>(header: seq<string>, records: seq<T>, toRow: T -> Row,
                                             fromRow: (seq<string>, Row) -> Result<T, Error>)
    requires forall x :: fromRow(header, toRow(x)) == Success(x)
    ensures FromRows(header, Rows(records, toRow), fromRow) == Success(records)
  {
    if records != [] {
      var init := records[..|records| - 1];
      FromRowsOfRows(header, init, toRow, fromRow);
      var rows := Rows(records, toRow);
      assert rows[..|rows| - 1] == Rows(init, toRow);
      assert records == init + [records[|records| - 1]];
    }
  }

  /** Reading back a written object table gives the records that were written. */
  lemma ObjectTableRoundTrip(records: seq<ObjectData>)
    ensures FromRows(ObjectFieldNames, ObjectTable(records).rows, ObjectFromRow) == Success(records)
  {
    forall o: ObjectData ensures ObjectFromRow(ObjectFieldNames, ObjectRow(o)) == Success(o) {
      ObjectRowRoundTrip(o);
    }
    FromRowsOfRows(ObjectFieldNames, records, ObjectRow, ObjectFromRow);
  }

  /** Reading back a written datastream table gives the records that were written. */
  lemma DatastreamTableRoundTrip(records: seq<DSData>)
    ensures FromRows(DatastreamFieldNames, DatastreamTable(records).rows, DatastreamFromRow) == Success(records)
  {
    forall d: DSData ensures DatastreamFromRow(DatastreamFieldNames, DatastreamRow(d)) == Success(d) {
      DatastreamRowRoundTrip(d);
    }
    FromRowsOfRows(DatastreamFieldNames, records, DatastreamRow, DatastreamFromRow);
  }

  // The older `ObjectData` and `DSData` of objectcsv.py have fewer fields: no mainResource
  // and funder, no lang and tags. The older containers read and write through these.

  /** `[f.name for f in fields(ObjectData)]` of the older `ObjectData`. */
  const OldObjectFieldNames: seq<string> :=
    ["recid", "title", "project", "description", "creator", "rights", "publisher", "source", "objectType"]

  /** `[f.name for f in fields(DSData)]` of the older `DSData`. */
  const OldDatastreamFieldNames: seq<string> :=
    ["dspath", "dsid", "title", "description", "mimetype", "creator", "rights"]

  /** A record as the older class holds it: the fields it lacks are empty. */
  function AsOldObject(o: ObjectData): ObjectData {
    o.(mainResource := "", funder := "")
  }

  function AsOldDatastream(d: DSData): DSData {
    d.(lang := "", tags := "")
  }

  /** `asdict(o)` of the older `ObjectData`. */
  function OldObjectRow(o: ObjectData): Row {
    map["recid" := o.recid, "title" := o.title, "project" := o.project,
        "description" := o.description, "creator" := o.creator, "rights" := o.rights,
        "publisher" := o.publisher, "source" := o.source, "objectType" := o.objectType]
  }

  /** `asdict(d)` of the older `DSData`. */
  function OldDatastreamRow(d: DSData): Row {
    map["dspath" := d.dspath, "dsid" := d.dsid, "title" := d.title,
        "description" := d.description, "mimetype" := d.mimetype, "creator" := d.creator,
        "rights" := d.rights]
  }

  /** What the older `to_csv` writes for a list of object records. */
  function OldObjectTable(records: seq<ObjectData>): Table {
    Table(OldObjectFieldNames, Rows(records, OldObjectRow))
  }

  /** What the older `to_csv` writes for a list of datastream records. */
  function OldDatastreamTable(records: seq<DSData>): Table {
    Table(OldDatastreamFieldNames, Rows(records, OldDatastreamRow))
  }

  /** The older `ObjectData(**row)`: a mainResource or funder column is an unexpected keyword. */
  function OldObjectFromRow(header: seq<string>, row: Row): (r: Result<ObjectData, Error>)
    ensures r.Success? <==> UnknownKey(header, OldObjectFieldNames).None? && "recid" in row
    ensures r.Failure? && UnknownKey(header, OldObjectFieldNames).Some? ==>
      r.error == UnexpectedKeyword("ObjectData", UnknownKey(header, OldObjectFieldNames).value)
    ensures r.Success? ==> r.value.recid == row["recid"] && r.value == AsOldObject(r.value)
  {
    var unknown := UnknownKey(header, OldObjectFieldNames);
    if unknown.Some? then Failure(UnexpectedKeyword("ObjectData", unknown.value))
    else if "recid" !in row then Failure(MissingArgument("ObjectData", "recid"))
    else Success(ObjectData(
      Lookup(row, "recid"), Lookup(row, "title"), Lookup(row, "project"),
      Lookup(row, "description"), Lookup(row, "creator"), Lookup(row, "rights"),
      Lookup(row, "publisher"), Lookup(row, "source"), Lookup(row, "objectType"), "", ""))
  }

  /** The older `DSData(**row)`: a lang or tags column is an unexpected keyword. */
  function OldDatastreamFromRow(header: seq<string>, row: Row): (r: Result<DSData, Error>)
    ensures r.Success? <==> UnknownKey(header, OldDatastreamFieldNames).None? && "dspath" in row
    ensures r.Failure? && UnknownKey(header, OldDatastreamFieldNames).Some? ==>
      r.error == UnexpectedKeyword("DSData", UnknownKey(header, OldDatastreamFieldNames).value)
    ensures r.Success? ==>
      r.value.dspath == row["dspath"] && r.value.dsid == Lookup(row, "dsid") && r.value == AsOldDatastream(r.value)
  {
    var unknown := UnknownKey(header, OldDatastreamFieldNames);
    if unknown.Some? then Failure(UnexpectedKeyword("DSData", unknown.value))
    else if "dspath" !in row then Failure(MissingArgument("DSData", "dspath"))
    else Success(DSData(
      Lookup(row, "dspath"), Lookup(row, "dsid"), Lookup(row, "title"),
      Lookup(row, "description"), Lookup(row, "mimetype"), Lookup(row, "creator"),
      Lookup(row, "rights"), "", ""))
  }

  lemma OldObjectRowFields(o: ObjectData)
    ensures var row := OldObjectRow(o);
      Lookup(row, "recid") == o.recid && Lookup(row, "title") == o.title
      && Lookup(row, "project") == o.project && Lookup(row, "description") == o.description
      && Lookup(row, "creator") == o.creator && Lookup(row, "rights") == o.rights
      && Lookup(row, "publisher") == o.publisher && Lookup(row, "source") == o.source
      && Lookup(row, "objectType") == o.objectType
  {
  }

  lemma OldDatastreamRowFields(d: DSData)
    ensures var row := OldDatastreamRow(d);
      Lookup(row, "dspath") == d.dspath && Lookup(row, "dsid") == d.dsid
      && Lookup(row, "title") == d.title && Lookup(row, "description") == d.description
      && Lookup(row, "mimetype") == d.mimetype && Lookup(row, "creator") == d.creator
      && Lookup(row, "rights") == d.rights
  {
  }

  lemma OldKnownHeaders()
    ensures UnknownKey(OldObjectFieldNames, OldObjectFieldNames).None?
    ensures UnknownKey(OldDatastreamFieldNames, OldDatastreamFieldNames).None?
  {
  }

  /** Reading back a row the older class wrote gives the record without the fields it lacks. */
  lemma OldObjectRowRoundTrip(o: ObjectData)
    ensures OldObjectFromRow(OldObjectFieldNames, OldObjectRow(o)) == Success(AsOldObject(o))
  {
    OldKnownHeaders();
    OldObjectRowFields(o);
    assert "recid" in OldObjectRow(o);
  }

  lemma OldDatastreamRowRoundTrip(d: DSData)
    ensures OldDatastreamFromRow(OldDatastreamFieldNames, OldDatastreamRow(d)) == Success(AsOldDatastream(d))
  {
    OldKnownHeaders();
    OldDatastreamRowFields(d);
    assert "dspath" in OldDatastreamRow(d);
  }

  /** Reading back rows written by `toRow` gives the records as `fromRow` normalises them. */
  lemma {:induction false} FromRowsOfRowsUpTo<T>(header: seq<string>, records: seq<T>, toRow: T -> Row,
                                                 fromRow: (seq<string>, Row) -> Result<T, Error>, norm: T -> T)
    requires forall x :: fromRow(header, toRow(x)) == Success(norm(x))
    ensures FromRows(header, Rows(records, toRow), fromRow) == Success(Rows(records, norm))
  {
    if records != [] {
      var init := records[..|records| - 1];
      FromRowsOfRowsUpTo(header, init, toRow, fromRow, norm);
      var rows := Rows(records, toRow);
      assert rows[..|rows| - 1] == Rows(init, toRow);
    }
  }

  /** Reading back an object table the older class wrote gives its records. */
  lemma OldObjectTableRoundTrip(records: seq<ObjectData>)
    ensures FromRows(OldObjectFieldNames, OldObjectTable(records).rows, OldObjectFromRow)
         == Success(Rows(records, AsOldObject))
  {
    forall o: ObjectData ensures OldObjectFromRow(OldObjectFieldNames, OldObjectRow(o)) == Success(AsOldObject(o)) {
      OldObjectRowRoundTrip(o);
    }
    FromRowsOfRowsUpTo(OldObjectFieldNames, records, OldObjectRow, OldObjectFromRow, AsOldObject);
  }

  /** Reading back a datastream table the older class wrote gives its records. */
  lemma OldDatastreamTableRoundTrip(records: seq<DSData>)
    ensures FromRows(OldDatastreamFieldNames, OldDatastreamTable(records).rows, OldDatastreamFromRow)
         == Success(Rows(records, AsOldDatastream))
  {
    forall d: DSData
      ensures OldDatastreamFromRow(OldDatastreamFieldNames, OldDatastreamRow(d)) == Success(AsOldDatastream(d))
    {
      OldDatastreamRowRoundTrip(d);
    }
    FromRowsOfRowsUpTo(OldDatastreamFieldNames, records, OldDatastreamRow, OldDatastreamFromRow, AsOldDatastream);
  }

  /** The newer object header, read by the older class, stops at its first extra column. */
  lemma NewObjectHeaderUnknownToOld()
    ensures UnknownKey(ObjectFieldNames, OldObjectFieldNames) == Some("mainResource")
  {
    var extra := ["mainResource", "funder"];
    assert ObjectFieldNames == OldObjectFieldNames + extra;
    assert forall k :: 0 <= k < |OldObjectFieldNames| ==> OldObjectFieldNames[k] in OldObjectFieldNames;
    UnknownKeyAfter(OldObjectFieldNames, extra, OldObjectFieldNames);
  }

  /** The newer datastream header, read by the older class, stops at its first extra column. */
  lemma NewDatastreamHeaderUnknownToOld()
    ensures UnknownKey(DatastreamFieldNames, OldDatastreamFieldNames) == Some("lang")
  {
    var extra := ["lang", "tags"];
    assert DatastreamFieldNames == OldDatastreamFieldNames + extra;
    assert forall k :: 0 <= k < |OldDatastreamFieldNames| ==> OldDatastreamFieldNames[k] in OldDatastreamFieldNames;
    UnknownKeyAfter(OldDatastreamFieldNames, extra, OldDatastreamFieldNames);
  }

  /** A file in the newer layout is refused by the older reader at its first extra column. */
  lemma NewLayoutRefusedByOld(o: ObjectData, d: DSData)
    ensures OldObjectFromRow(ObjectFieldNames, ObjectRow(o)) == Failure(UnexpectedKeyword("ObjectData", "mainResource"))
    ensures OldDatastreamFromRow(DatastreamFieldNames, DatastreamRow(d)) == Failure(UnexpectedKeyword("DSData", "lang"))
  {
    NewObjectHeaderUnknownToOld();
    NewDatastreamHeaderUnknownToOld();
  }

  /** A header whose known prefix is followed by an unknown key reports that key. */
  lemma {:induction false} UnknownKeyAfter(known: seq<string>, rest: seq<string>, fields: seq<string>)
    requires forall k :: 0 <= k < |known| ==> known[k] in fields
    requires rest != [] && rest[0] !in fields
    ensures UnknownKey(known + rest, fields) == Some(rest[0])
  {
    if known == [] {
      assert known + rest == rest;
    } else {
      assert (known + rest)[1..] == known[1..] + rest;
      UnknownKeyAfter(known[1..], rest, fields);
    }
  }

  /** `row["mainResource"] = row.pop("mainresource")` when the old spelling is present. */
  function RenameMainresource(row: Row): (r: Row)
    ensures "mainresource" !in r
    ensures "mainresource" in row ==> "mainResource" in r && r["mainResource"] == row["mainresource"]
    ensures forall k :: k != "mainresource" && k != "mainResource" ==> (k in r <==> k in row)
    ensures forall k | k in r && k != "mainResource" :: r[k] == row[k]
    ensures "mainresource" !in row ==> r == row
  {
    if "mainresource" in row then (row - {"mainresource"})["mainResource" := row["mainresource"]] else row
  }

  /** The header with the old spelling dropped: the renamed key is a known field. */
  function RenamedHeader(header: seq<string>): (r: seq<string>)
    ensures forall k :: k in r <==> k in header && k != "mainresource"
  {
    if header == [] then []
    else (if header[0] == "mainresource" then [] else [header[0]]) + RenamedHeader(header[1..])
  }

  /** The row-to-record mapping of the newer `ObjectCSVFile.from_csv`. */
  function ObjectFromRenamedRow(header: seq<string>, row: Row): Result<ObjectData, Error> {
    ObjectFromRow(RenamedHeader(header), RenameMainresource(row))
  }

  /** A file in the old spelling loads its main resource into `mainResource`. */
  lemma OldSpellingLoads(header: seq<string>, row: Row)
    requires ObjectFromRenamedRow(header, row).Success? && "mainresource" in row
    ensures ObjectFromRenamedRow(header, row).value.mainResource == row["mainresource"]
  {
    var r := ObjectFromRenamedRow(header, row).value;
    assert Lookup(RenameMainresource(row), ObjectFieldNames[9]) == Get(r, AllFields[9]);
  }
}
