# gamslib core, modelled in Dafny

gamslib prepares archival objects for the GAMS repository. An object is a folder holding a
`DC.xml` (its Dublin Core metadata) and its data files. The library keeps each object's
metadata in two CSV files: `object.csv`, which holds the object record, and `datastreams.csv`,
which holds one record per data file (a *datastream*).

This project models the logic around those files:

- **Records.** `ObjectData` and `DSData` are modelled as records: field validation, the
  fill-only-empty merge and the object id of a datastream path.
- **Containers.** The older containers (`ObjectCSVFile`, `DatastreamsCSVFile`, in
  `objectcsv.py`) and the newer ones (`objectcsvfile.py`, `datastreamscsvfile.py`) are
  modelled as classes. So is `ObjectCSV`, which pairs the two containers of one object
  folder.
- **Creation.** `create_csv` builds the preliminary records of a folder from its Dublin Core
  data and the configuration. The model includes the datastream-id rule and the rights
  precedence.
- **Dublin Core.** `DublinCore` groups texts by element and language, falls back across
  languages on lookup, and flattens a list to a string.
- **Aggregation.** `collect_csv_data` concatenates every object folder's records into one
  consolidated pair of files. `update_csv_files` hands them back, folder by folder.
  `find_object_folders` is modelled as a filter over a directory walk.
- **Format detection.** This covers the XML namespace registry, the JSON classification
  chain, and the dispatch both detectors share once they have a MIME type. It includes the
  Magika result correction.
- **Project configuration.** This covers the upward search for `project.toml` and the
  rewriting of Windows paths in a dotenv file.

The file system is a value, `Disk.Fs`. It holds a set of directories and a map from file path
to the file's table, meaning its header plus rows of field-name→string maps. Operations take
it and return the changed one.

External libraries are parameters. The XML parser's start-ns events are a namespace sequence.
`json.loads` is a function from text to a parse result. A Magika prediction and a
`mimetypes` guess are a MIME option. A directory walk is a path sequence. `dotenv_values`
is a function from text to a map whose values may be None.

Python's lists of records become `seq` fields of classes, and the methods reassign those
fields. A loop in the source is a `while` loop proved against a function that specifies its
result.

## Model

| member | source | states |
|---|---|---|
| Records.Set | src/gamslib/objectcsv/objectdata.py:26 | `setattr` changes the named field to the value and leaves every other field as it was |
| Records.Extensionality | src/gamslib/objectcsv/objectdata.py:5-19 | two object records that agree on every attribute are the same record |
| Records.MergeFieldsAre | src/gamslib/objectcsv/objectdata.py:23 | merge visits every field except recid, description and mainResource |
| Records.Merged | src/gamslib/objectcsv/objectdata.py:21-26 | after merging, a listed field holds the fill of self's value by other's; an unlisted field keeps self's value |
| Records.MergeObjectData | src/gamslib/objectcsv/objectdata.py:21-26 | the field-by-field loop of `merge` produces exactly the merged record |
| Records.MergeFillsOnlyEmpty | src/gamslib/objectcsv/objectdata.py:24-26 | a non-empty field is never overwritten; an empty listed field takes other's value |
| Records.MergeKeepsUnlisted | src/gamslib/objectcsv/objectdata.py:23 | recid, description and mainResource never change under merge |
| Records.MergeIdempotent | src/gamslib/objectcsv/objectdata.py:21-26 | merging the same record a second time changes nothing |
| Records.MergeIgnoresRecid | src/gamslib/objectcsv/objectdata.py:21-26 | records with different recids are merged all the same (no identity check) |
| Records.FirstFailure | src/gamslib/objectcsv/objectdata.py:30-39 | a check sequence passes iff every check holds; otherwise the error is that of the first failing check, all earlier ones holding |
| Records.ValidateObject | src/gamslib/objectcsv/objectdata.py:28-39 | valid iff recid, title, rights, source and objectType are all non-empty; the checks run in that order and recid is checked first |
| Records.ValidateObjectAcceptsSpaces | src/gamslib/objectcsv/objectdata.py:30-39 | truthiness: a record whose required fields are single spaces is valid |
| Records.ObjectId | src/gamslib/objectcsv/objectcsv.py:57-60 | the object id is the first part of `Path(dspath)`; a path with no part (such as "" or ".") raises IndexError "tuple index out of range" |
| Records.ObjectIdOfPath | src/gamslib/objectcsv/objectcsv.py:57-60 | the datastream path "obj/name" belongs to the object "obj" |
| Records.ObjectIdOfEmptyPath | src/gamslib/objectcsv/objectcsv.py:57-60 | the empty dspath and "." have no part, so `object_id` raises IndexError for them |
| Records.ValidateDatastream | src/gamslib/objectcsv/objectcsv.py:62-71 | valid iff dspath, dsid, mimetype and rights are each non-blank after stripping; the first blank one (dspath first) decides the error |
| Records.MergeDatastreamData | tests/objectcsv/test_datastreamcsvfile.py:112-122 | a merge takes title, mimetype, creator and rights from the new record and keeps dspath, dsid, description, lang and tags |
| Records.Filter | src/gamslib/objectcsv/objectcsv.py:91-96 | the filtered list holds exactly the elements that pass the test, and it is no longer than the input |
| Records.FilterAppend | src/gamslib/objectcsv/objectcsv.py:91-96 | filtering a concatenation is concatenating the filtered parts, so input order is kept |
| Records.FilterAll | src/gamslib/objectcsv/objectcsv.py:92-93 | with a test everything passes, the filter returns its input (`pid is None` yields all) |
| Records.Yield | src/gamslib/objectcsv/objectcsv.py:91-96 | the generator loop yields exactly the filtered list, in order |
| Records.ValidateAll | src/gamslib/objectcsv/objectcsvfile.py:101-102 | validating a list passes iff every record passes; otherwise it fails with the first invalid record's error |
| Records.DatastreamsOf | src/gamslib/objectcsv/objectcsv.py:133-144 | the datastream generator run to the end: for `None` every record; for a pid the records of that object in order, unless some record has no object id, which raises IndexError |
| Records.DatastreamsOfSelects | src/gamslib/objectcsv/objectcsv.py:142-144 | a successful selection by pid holds exactly the records whose object id is that pid |
| Records.PartlessRecordRaises | src/gamslib/objectcsv/objectcsv.py:142-144 | one record with an empty dspath, anywhere in the list, makes every selection by pid raise IndexError |
| Records.Selects | src/gamslib/objectcsv/objectcsv.py:139-143 | the test `pid is None or d.object_id == pid`, raising IndexError only when a pid is given and the record has no part |
| Records.YieldDatastreams | src/gamslib/objectcsv/objectcsv.py:139-144 | the generator loop yields exactly the selection, or stops with the IndexError of the first part-less record |
| ObjectCsv.WriteBoth | src/gamslib/objectcsv/objectcsv.py:260-262 | two writes in a row: both files are replaced on success; a failed first write changes nothing; a failed second write leaves only the first file written |
| ObjectCsv.ObjectCSVFile.AddObjectData | src/gamslib/objectcsv/objectcsv.py:81-83 | the record is appended at the end |
| ObjectCsv.ObjectCSVFile.GetData | src/gamslib/objectcsv/objectcsv.py:85-96 | yields the records with that recid in insertion order, or all records for `None` |
| ObjectCsv.ObjectCSVFile.FromCsv | src/gamslib/objectcsv/objectcsv.py:98-106 | loads one 9-field record per row of the file in row order; a column outside the 9 fields raises TypeError, as does a missing recid; a read error is passed on |
| ObjectCsv.ObjectCSVFile.ToCsv | src/gamslib/objectcsv/objectcsv.py:108-116 | writes the 9-column object table (header `fields(ObjectData)`) in insertion order, no sorting |
| ObjectCsv.DatastreamsCSVFile.AddDatastream | src/gamslib/objectcsv/objectcsv.py:129-131 | the record is appended at the end |
| ObjectCsv.DatastreamsCSVFile.GetData | src/gamslib/objectcsv/objectcsv.py:133-144 | yields the records whose object id is the pid in insertion order, or all records for `None`; with a pid, a record without object id raises IndexError |
| ObjectCsv.DatastreamsCSVFile.FromCsv | src/gamslib/objectcsv/objectcsv.py:146-154 | loads one 7-field record per row of the file in row order; a column outside the 7 fields raises TypeError, as does a missing dspath; a read error is passed on |
| ObjectCsv.DatastreamsCSVFile.ToCsv | src/gamslib/objectcsv/objectcsv.py:156-165 | the list is left sorted by dspath in place, and that sorted list is what is written as the 7-column datastream table |
| ObjectCsv.OpenedCases | src/gamslib/objectcsv/objectcsv.py:188-206 | a missing object directory gives FileNotFoundError; when `dir / name` is no file the container is empty; a present file gives exactly its records; any file name, "sub/x.csv" included, is joined as `dir / name` |
| ObjectCsv.ObjectCSV.Open | src/gamslib/objectcsv/objectcsv.py:188-206 | construction succeeds iff the directory loads, and the store then holds the loaded records of `dir / objectFile` and `dir / datastreamFile` |
| ObjectCsv.ObjectCSV.AddDatastream | src/gamslib/objectcsv/objectcsv.py:214-216 | appends to the datastream container alone |
| ObjectCsv.ObjectCSV.AddObjectData | src/gamslib/objectcsv/objectcsv.py:218-220 | appends to the object container alone |
| ObjectCsv.ObjectCSV.GetObjectData | src/gamslib/objectcsv/objectcsv.py:222-229 | yields the object records with that recid, or all for `None` |
| ObjectCsv.ObjectCSV.GetDatastreamData | src/gamslib/objectcsv/objectcsv.py:231-238 | yields the datastream records of that object, or all for `None`, with the IndexError of a part-less record |
| ObjectCsv.ObjectCSV.Write | src/gamslib/objectcsv/objectcsv.py:240-262 | missing arguments default to the object directory, "object.csv" and "datastreams.csv", joined as `target / name`; the 9-column object table is written first, then the 7-column datastream table sorted by dspath |
| ObjectCsv.ObjectCSV.Clear | src/gamslib/objectcsv/objectcsv.py:272-275 | both containers are replaced by empty ones, so both counts are 0; directory and file names are kept |
| ObjectCsv.DefaultWriteMakesNotNew | src/gamslib/objectcsv/objectcsv.py:208-212 | `is_new()` is true iff neither CSV file exists, so a successful default write makes a default store not new |
| ObjectCsv.OtherNamesStayNew | src/gamslib/objectcsv/objectcsv.py:254-262 | a store opened with other single-component file names is as new after a default write as before it, because the defaults ignore the opened names |
| ObjectCsvFile.LoadObjectFile | src/gamslib/objectcsv/objectcsvfile.py:47-62 | a missing file raises FileNotFoundError with its message, and a successful load is never empty |
| ObjectCsvFile.HeaderOnlyIsEmpty | src/gamslib/objectcsv/objectcsvfile.py:60-61 | a file with a header and no rows raises ValidationError "Empty object.csv file …" |
| ObjectCsvFile.ObjectCSVFile.AddObjectData | src/gamslib/objectcsv/objectcsvfile.py:20-22 | the record is appended and the object directory is kept |
| ObjectCsvFile.ObjectCSVFile.GetData | src/gamslib/objectcsv/objectcsvfile.py:24-32 | yields the records with that recid in order, or all for `None` |
| ObjectCsvFile.ObjectCSVFile.MergeObject | src/gamslib/objectcsv/objectcsvfile.py:34-45 | a known recid merges into the first match in place and returns it, length unchanged; an unknown one appends `other` and returns it |
| ObjectCsvFile.ObjectCSVFile.FromCsv | src/gamslib/objectcsv/objectcsvfile.py:47-62 | loads exactly the records of the file with "mainresource" renamed, or refuses a missing or empty file; the directory becomes the file's parent |
| ObjectCsvFile.ObjectCSVFile.ToCsv | src/gamslib/objectcsv/objectcsvfile.py:64-75 | without a target it writes object.csv in the object directory; after a successful write the directory is the target's parent |
| ObjectCsvFile.ObjectCSVFile.Sort | src/gamslib/objectcsv/objectcsvfile.py:77-79 | the records are replaced by their stable sort by recid |
| ObjectCsvFile.SortProperties | src/gamslib/objectcsv/objectcsvfile.py:77-79 | the sorted records are ordered by recid, are a permutation of the input, and records with equal recids keep their order |
| ObjectCsvFile.ObjectCSVFile.SetMainResource | src/gamslib/objectcsv/objectcsvfile.py:81-93 | only the first record with that recid and an empty mainResource gets the dsid; every other record and field is unchanged |
| ObjectCsvFile.ObjectCSVFile.Validate | src/gamslib/objectcsv/objectcsvfile.py:95-102 | an empty list raises ValidationError; otherwise the result is validating every record in order |
| ObjectCsvFile.ValidateAllFirst | src/gamslib/objectcsv/objectcsvfile.py:101-102 | the error raised is that of the first invalid record |
| DatastreamsCsvFile.Guessed | src/gamslib/objectcsv/datastreamscsvfile.py:59-60 | every loaded record gets `guess_missing_values` applied, count and order kept |
| DatastreamsCsvFile.DatastreamsCSVFile.AddDatastream | src/gamslib/objectcsv/datastreamscsvfile.py:17-20 | the length grows by one and the last record is the guessed-up new one |
| DatastreamsCsvFile.DatastreamsCSVFile.RemoveDatastream | src/gamslib/objectcsv/datastreamscsvfile.py:22-27 | removes only the first record matching dspath and dsid, keeps the others in order, and is a no-op when none matches |
| DatastreamsCsvFile.DatastreamsCSVFile.MergeDatastreamAsWritten | src/gamslib/objectcsv/datastreamscsvfile.py:29-33 | the code as written raises AttributeError on `dsdata.ds_id` for every record and changes nothing |
| DatastreamsCsvFile.DatastreamsCSVFile.MergeDatastream | src/gamslib/objectcsv/datastreamscsvfile.py:34-41 | the first record with the same dspath and dsid is merged in place, length unchanged; without one the guessed-up record is appended |
| DatastreamsCsvFile.DatastreamsCSVFile.GetData | src/gamslib/objectcsv/datastreamscsvfile.py:43-51 | yields in order exactly the records of that object, or all for `None`; with a pid, a record without object id raises IndexError |
| DatastreamsCsvFile.DatastreamsCSVFile.FromCsv | src/gamslib/objectcsv/datastreamscsvfile.py:53-61 | loads one guessed-up record per row in order, or raises the reader's error |
| DatastreamsCsvFile.DatastreamsCSVFile.ToCsv | src/gamslib/objectcsv/datastreamscsvfile.py:63-72 | the list is sorted by dspath in place and written in that order |
| DatastreamsCsvFile.DatastreamsCSVFile.Sort | src/gamslib/objectcsv/datastreamscsvfile.py:74-76 | the list is replaced by its stable sort by dspath |
| DatastreamsCsvFile.SortProperties | src/gamslib/objectcsv/datastreamscsvfile.py:65 | after sorting the list is ordered by dspath, a permutation of the input, and stable |
| DatastreamsCsvFile.Languages | src/gamslib/objectcsv/datastreamscsvfile.py:78-88 | every language token returned is a non-empty run without whitespace |
| DatastreamsCsvFile.LanguagesAppend | src/gamslib/objectcsv/datastreamscsvfile.py:85-87 | the languages of two record lists are the concatenation of each list's languages |
| DatastreamsCsvFile.LanguagesKeepDuplicates | src/gamslib/objectcsv/datastreamscsvfile.py:82-87 | records with lang "en" and "en de" give ["en", "en", "de"], duplicates kept |
| DatastreamsCsvFile.DatastreamsCSVFile.GetLanguages | src/gamslib/objectcsv/datastreamscsvfile.py:78-88 | the extend loop returns every record's whitespace-split lang, concatenated in record order |
| CsvTables.Rows | src/gamslib/objectcsv/objectcsv.py:114-116 | one `asdict` row per record, in record order |
| CsvTables.UnknownKey | src/gamslib/objectcsv/objectcsv.py:105 | reports the first header entry that is not a field, exactly when there is one |
| CsvTables.ObjectFromRow | src/gamslib/objectcsv/objectcsvfile.py:59 | the newer 11-field `ObjectData(**row)` succeeds iff every header key is a field and recid is given, with recid taken from the row |
| CsvTables.DatastreamFromRow | src/gamslib/objectcsv/datastreamscsvfile.py:59-60 | the newer 9-field `DSData(**row)` succeeds iff every header key is a field and dspath is given |
| CsvTables.ObjectRowRoundTrip | src/gamslib/objectcsv/objectcsvfile.py:69-74 | reading back an 11-field object row of the newer file gives the record written |
| CsvTables.DatastreamRowRoundTrip | src/gamslib/objectcsv/datastreamscsvfile.py:67-72 | reading back a 9-field datastream row of the newer file gives the record written |
| CsvTables.FromRows | src/gamslib/objectcsv/objectcsv.py:102-105 | on success there is one record per row, each built from its row |
| CsvTables.FromRowsFailurePrefix | src/gamslib/objectcsv/objectcsv.py:104-105 | once a row fails, the whole read fails with that row's error |
| CsvTables.FromRowsOfRows | src/gamslib/objectcsv/objectcsv.py:102-116 | reading rows written by a record-to-row map that the reader undoes gives the records back |
| CsvTables.ObjectTableRoundTrip | src/gamslib/objectcsv/objectcsvfile.py:64-74 | reading an object table the newer `to_csv` writes gives the list of records that was written |
| CsvTables.DatastreamTableRoundTrip | src/gamslib/objectcsv/datastreamscsvfile.py:53-72 | reading a datastream table the newer `to_csv` writes gives the list of records that was written |
| CsvTables.OldObjectFromRow | src/gamslib/objectcsv/objectcsv.py:105 | the 9-field `ObjectData(**row)`: succeeds iff every header key is one of its 9 fields and recid is given; the first other key is the unexpected keyword of the TypeError; mainResource and funder stay empty |
| CsvTables.OldDatastreamFromRow | src/gamslib/objectcsv/objectcsv.py:153 | the 7-field `DSData(**row)`: succeeds iff every header key is one of its 7 fields and dspath is given; the first other key is the unexpected keyword of the TypeError; lang and tags stay empty |
| CsvTables.OldObjectRowRoundTrip | src/gamslib/objectcsv/objectcsv.py:111-116 | reading back a written 9-field object row gives the record written, without the fields the older class lacks |
| CsvTables.OldDatastreamRowRoundTrip | src/gamslib/objectcsv/objectcsv.py:160-165 | reading back a written 7-field datastream row gives the record written, without the fields the older class lacks |
| CsvTables.FromRowsOfRowsUpTo | src/gamslib/objectcsv/objectcsv.py:102-116 | reading rows written by a record-to-row map gives the records as the reader normalises them |
| CsvTables.OldObjectTableRoundTrip | src/gamslib/objectcsv/objectcsv.py:98-116 | reading an object table the older `to_csv` wrote gives its records back |
| CsvTables.OldDatastreamTableRoundTrip | src/gamslib/objectcsv/objectcsv.py:146-165 | reading a datastream table the older `to_csv` wrote gives its records back |
| CsvTables.NewObjectHeaderUnknownToOld | src/gamslib/objectcsv/objectcsv.py:105 | the 11-column header of the newer object file has "mainResource" as first key the older record lacks |
| CsvTables.NewDatastreamHeaderUnknownToOld | src/gamslib/objectcsv/objectcsv.py:153 | the 9-column header of the newer datastream file has "lang" as first key the older record lacks |
| CsvTables.NewLayoutRefusedByOld | src/gamslib/objectcsv/objectcsv.py:98-106 | a row of the newer layout is refused by the older reader with TypeError at its first extra column |
| CsvTables.RenameMainresource | src/gamslib/objectcsv/objectcsvfile.py:57-58 | "mainresource" is removed and its value moved to "mainResource"; all other keys keep their values; a row without it is unchanged |
| CsvTables.RenamedHeader | src/gamslib/objectcsv/objectcsvfile.py:57-58 | the header keeps exactly its keys other than "mainresource" |
| CsvTables.OldSpellingLoads | src/gamslib/objectcsv/objectcsvfile.py:55-59 | a row in the old spelling loads its value into mainResource |
| ManageCsv.GatheredCounts | src/gamslib/objectcsv/manage_csv.py:47-53 | the consolidated object and datastream counts are the sums of the folders' counts |
| ManageCsv.GatheredFailurePrefix | src/gamslib/objectcsv/manage_csv.py:47-48 | the first folder that fails to load decides the error of the whole collection |
| ManageCsv.AddObjects | src/gamslib/objectcsv/manage_csv.py:50-51 | appends the records in order and counts them |
| ManageCsv.AddDatastreams | src/gamslib/objectcsv/manage_csv.py:52-53 | appends the records in order and counts them |
| ManageCsv.AllObjects | src/gamslib/objectcsv/objectcsv.py:92-93 | `get_objectdata()` without an id yields every record |
| ManageCsv.GatherOne | src/gamslib/objectcsv/manage_csv.py:48-53 | one folder's records are appended after those collected so far, or its load error is returned |
| ManageCsv.GatherInto | src/gamslib/objectcsv/manage_csv.py:47-53 | the store ends up as its old contents followed by every folder's records in discovery order, or the first load error |
| ManageCsv.CollectCsvData | src/gamslib/objectcsv/manage_csv.py:29-62 | the output directory (default the root) gets the consolidated records written as `dir / name`, all_objects.csv and all_datastreams.csv by default, as the older 9- and 7-column tables; only those two files change; the first load or write error is returned |
| ManageCsv.ConsolidatedCounts | src/gamslib/objectcsv/manage_csv.py:46-53 | the written counts are the output store's own records plus the sum over the discovered folders |
| ManageCsv.WrittenDatastreamCount | src/gamslib/objectcsv/manage_csv.py:59-61 | the sort in the write keeps the number of datastreams |
| ManageCsv.StoreFilesDistinct | src/gamslib/objectcsv/manage_csv.py:173 | different folders have different store files |
| ManageCsv.UpdateKeepsFolders | src/gamslib/objectcsv/manage_csv.py:163-173 | writing store files does not change which folders are discovered |
| ManageCsv.WriteBothEffect | src/gamslib/objectcsv/manage_csv.py:173 | a folder's `write()` changes only its two store files, and on success they hold its share |
| ManageCsv.HoldsKept | src/gamslib/objectcsv/manage_csv.py:163-173 | writing one folder's files keeps what any other folder holds |
| ManageCsv.UpdatedFolderEffect | src/gamslib/objectcsv/manage_csv.py:164-173 | one round changes only the folder's two store files; on success the folder holds its share and the counts are the share's sizes |
| ManageCsv.UpdatedFolderErrors | src/gamslib/objectcsv/manage_csv.py:164-173 | a round fails with the folder's load error, else with IndexError for a part-less consolidated datastream, both before writing; else with the first failing write's error |
| ManageCsv.Refill | src/gamslib/objectcsv/manage_csv.py:165-172 | after `clear()` and the two loops the store holds exactly the consolidated records carrying its folder name, counted; a consolidated datastream without object id raises IndexError instead; the consolidated store is unchanged |
| ManageCsv.UpdateOne | src/gamslib/objectcsv/manage_csv.py:164-173 | one folder: exactly the round its specification describes — the load error, the IndexError of a part-less record, or the folder written with its share |
| ManageCsv.Distribute | src/gamslib/objectcsv/manage_csv.py:163-175 | the loop is the rounds in folder order; only store files change; on success every folder holds its share and the counts are the sizes of the shares summed |
| ManageCsv.DistributeNext | src/gamslib/objectcsv/manage_csv.py:164-173 | one more round: an error ends the loop with that outcome, otherwise its counts are added |
| ManageCsv.RoundsNext | src/gamslib/objectcsv/manage_csv.py:163-173 | one more folder: the next round runs on what the earlier rounds left; its error ends the loop or its counts are added |
| ManageCsv.RoundsFailurePrefix | src/gamslib/objectcsv/manage_csv.py:163-173 | after a failing folder the later folders are not visited: the outcome is that of the prefix |
| ManageCsv.RoundsFirstFailure | src/gamslib/objectcsv/manage_csv.py:163-173 | a failed loop returns the outcome, error included, of the first failing folder, all before it having succeeded |
| ManageCsv.RoundsEffect | src/gamslib/objectcsv/manage_csv.py:163-173 | rounds that change only their folder's store files change only the folders' store files, and on success every folder holds its share |
| ManageCsv.RoundsCounts | src/gamslib/objectcsv/manage_csv.py:163-175 | when every round succeeds the counts are the sums of the shares' sizes |
| ManageCsv.PartlessStopsUpdate | src/gamslib/objectcsv/manage_csv.py:163-173 | a consolidated datastream without object id stops the loop at the first folder with IndexError and nothing written; only an empty folder list escapes |
| ManageCsv.UpdateCsvFiles | src/gamslib/objectcsv/manage_csv.py:139-175 | reads the consolidated store from `collected_dir / name` (default the root); a load error is returned unchanged; then the rounds run over the discovered folders, and on success every folder holds its share, prior contents discarded |
| ObjectFolders.FindObjectFolders | src/gamslib/objectcsv/utils.py:10-21 | a walked path is yielded iff it is a directory with a "DC.xml" child; every other directory gives one warning; non-directories give nothing |
| ObjectFolders.FoldersAreFilter | src/gamslib/objectcsv/utils.py:12-15 | the folders are the walk filtered by the folder test, in walk order |
| ObjectFolders.NonDirectoriesIgnored | src/gamslib/objectcsv/utils.py:13 | a non-directory entry changes neither folders nor warnings |
| ObjectFolders.FoldersStable | src/gamslib/objectcsv/utils.py:13-14 | files not named "DC.xml" do not affect which folders are found |
| DublinCore.Found | src/gamslib/objectcsv/dublincore.py:116 | `findall` returns exactly the children with that element name |
| DublinCore.FileElement | src/gamslib/objectcsv/dublincore.py:116-122 | the inner loop files the found children by language; an element without children gets no entry |
| DublinCore.ParseChildren | src/gamslib/objectcsv/dublincore.py:115-122 | the nested loops build the grouping of all children |
| DublinCore.TextsInFound | src/gamslib/objectcsv/dublincore.py:116-121 | the texts filed for an element and language are those of the matching children in document order |
| DublinCore.ParsedGroups | src/gamslib/objectcsv/dublincore.py:115-122 | there is an entry for exactly the Dublin Core elements that occur, with exactly their languages ("unspecified" without `xml:lang`), holding their texts in document order, None for an empty element |
| DublinCore.ElementCases | src/gamslib/objectcsv/dublincore.py:145-166 | a non-DC name raises ValueError; an absent element gives [default]; a present preferred language gives its list; otherwise the list of the first language of lookup order + "unspecified" that is present, or KeyError when none is |
| DublinCore.ElementOfParsed | src/gamslib/objectcsv/dublincore.py:147-166 | on parsed data, a present element and language give its texts in document order, and an absent element gives [default] |
| DublinCore.UnspecifiedFallback | src/gamslib/objectcsv/dublincore.py:156-166 | with no listed language present, the "unspecified" list is returned |
| DublinCore.FlattenCases | src/gamslib/objectcsv/dublincore.py:179-185 | one value is returned as is, None included; two rights values give "v1 (v2)" with None written "None"; other pairs are "; "-joined; no values give ""; a None in a joined list raises TypeError for item 0 |
| DublinCore.JoinSeparators | src/gamslib/objectcsv/dublincore.py:185 | joining n values free of ';' gives exactly n-1 separators |
| DublinCore.FlattenSplits | src/gamslib/objectcsv/dublincore.py:179-185 | outside the rights pair and with no text missing, splitting the flattened string at ';' gives one piece per value |
| DublinCore.JoinTexts | src/gamslib/objectcsv/dublincore.py:185 | `"; ".join` succeeds iff no text is None, joining the texts; otherwise TypeError names the position of the first None |
| DublinCore.EmptyElementIsNone | src/gamslib/objectcsv/dublincore.py:116-121 | a document whose only such child is an empty element gives None from `get_element_as_str` |
| DublinCore.DublinCore.constructor | src/gamslib/objectcsv/dublincore.py:103-109 | keeps path and lookup order, and the data is the grouping of the document's children |
| DublinCore.DublinCore.GetElement | src/gamslib/objectcsv/dublincore.py:145-166 | the language search loop returns the lookup's result, error cases included |
| DublinCore.DublinCore.GetElementAsStr | src/gamslib/objectcsv/dublincore.py:179-185 | the flattening of `get_element`'s values — a lone None comes back as None, a None in a joined list raises TypeError — with the lookup errors passed on |
| CreateCsv.GetRights | src/gamslib/objectcsv/create_csv.py:24-39 | the flattened Dublin Core rights when they are a string; when they are None (absent, or an empty element) the configured rights when non-empty, else DEFAULT_RIGHTS; lookup and join errors passed on |
| CreateCsv.RightsFallbackNotEmpty | src/gamslib/objectcsv/create_csv.py:34-38 | without Dublin Core rights the configured rights or DEFAULT_RIGHTS are used, so the rights are never empty |
| CreateCsv.EmptyRightsFallBack | src/gamslib/objectcsv/create_csv.py:33-38 | an empty `<dc:rights/>` gives None, so the configured rights or DEFAULT_RIGHTS are used |
| CreateCsv.PidCoreShape | src/gamslib/objectcsv/create_csv.py:69 | the PID pattern matches iff the text has at least 3 characters, is alphanumeric at both ends and holds only `-.%_` or alphanumerics inside |
| CreateCsv.ExtCoreShape | src/gamslib/objectcsv/create_csv.py:61 | the extension pattern matches iff the text is letters, the last one possibly any word character |
| CreateCsv.PidRegexShape | src/gamslib/objectcsv/create_csv.py:69 | `$` also accepts one trailing newline after a PID-shaped text |
| CreateCsv.ExtractDsid | src/gamslib/objectcsv/create_csv.py:56-78 | corrected rule: the candidate PID (a known suffix removed, else an extension-like last segment dropped) is accepted iff it matches the pattern; otherwise ValueError "Invalid PID: '…'" |
| CreateCsv.ExtractDsidAsWritten | src/gamslib/objectcsv/create_csv.py:42-78 | as written: with remove_extension, `mimetypes.extensions` raises AttributeError; without it the file name is the PID iff it matches the pattern |
| CreateCsv.RemovalRaisesAsWritten | src/gamslib/objectcsv/create_csv.py:53-58 | "obj1/TEI.xml" with remove_extension raises as written, while the removal rules give "TEI" |
| CreateCsv.FallbackCutsAtLastDot | src/gamslib/objectcsv/create_csv.py:60-62 | `".".join(parts[:-1])` cuts a dotted name at its last dot |
| CreateCsv.DotlessNameRefused | src/gamslib/objectcsv/create_csv.py:59-70 | under the corrected rule, a dotless name that looks like an extension becomes the empty PID and is refused |
| CreateCsv.PlainNameIsPid | src/gamslib/objectcsv/create_csv.py:50-70 | without remove_extension the file name is the PID, accepted iff it has the PID shape |
| CreateCsv.CollectObjectData | src/gamslib/objectcsv/create_csv.py:81-99 | recid is the pid; title and description are the "; "-joins of the DC values (title defaulting to the pid), raising TypeError for an empty element; source "local"; objectType "text"; rights by precedence; the first error of title, description, rights is raised |
| CreateCsv.EmptyTitleRaises | src/gamslib/objectcsv/create_csv.py:87 | an empty `<dc:title/>` makes `"; ".join` raise TypeError for item 0 |
| CreateCsv.CollectedObjectValidates | src/gamslib/objectcsv/create_csv.py:87-98 | without a DC title the title is the pid, and the record validates iff pid, title and rights are non-empty |
| CreateCsv.CollectDatastreamData | src/gamslib/objectcsv/create_csv.py:102-128 | dspath is pid + "/" + file name; "DC.xml" gets the fixed title and description, other files empty ones; dsid or its error comes from the id rule |
| CreateCsv.CollectedDatastreamBelongs | src/gamslib/objectcsv/create_csv.py:120 | `object_id` of a collected datastream record succeeds and gives its object's pid |
| CreateCsv.RecordsAreSelected | src/gamslib/objectcsv/create_csv.py:145-149 | every datastream record comes from a selected file of the listing |
| CreateCsv.DspathInjective | src/gamslib/objectcsv/create_csv.py:120 | different file names of one object give different dspaths |
| CreateCsv.NoStoreRecords | src/gamslib/objectcsv/create_csv.py:146 | no record is made for object.csv or datastreams.csv |
| CreateCsv.AddDatastreamRecords | src/gamslib/objectcsv/create_csv.py:145-149 | the loop appends one record per selected file in listing order, or stops at the first error |
| CreateCsv.FailureStays | src/gamslib/objectcsv/create_csv.py:145-149 | an error on a prefix of the listing is the error of the whole listing |
| CreateCsv.Fill | src/gamslib/objectcsv/create_csv.py:142-150 | the object record, then the datastream records, are added to the loaded ones and written |
| CreateCsv.CreateCsv | src/gamslib/objectcsv/create_csv.py:131-150 | corrected guard: a folder whose CSV files exist is left alone; a fresh folder gets its records created and written |
| CreateCsv.CreateCsvAsWritten | src/gamslib/objectcsv/create_csv.py:131-150 | as written: a fresh folder is skipped, and a folder with CSV files gets records appended to the loaded ones |
| CreateCsv.FreshFolderIsSkipped | src/gamslib/objectcsv/create_csv.py:136-140 | a folder holding only DC.xml counts as new, so the code as written skips it |
| CreateCsv.CreatedFiles | src/gamslib/objectcsv/create_csv.py:144-150 | a successful corrected run leaves object.csv holding the one object record and datastreams.csv the datastream records sorted by dspath |
| XmlTypes.TextXmlIsNoSubtypeType | src/gamslib/formatdetect/xmltypes.py:66-106 | no subtype maps to "text/xml" |
| XmlTypes.RegisteredSubtypesHaveMimeTypes | src/gamslib/formatdetect/xmltypes.py:23-106 | every registered namespace but Dublin Core's maps to a subtype with a MIME type |
| XmlTypes.FirstRegistered | src/gamslib/formatdetect/xmltypes.py:126-135 | the result is `None` iff no namespace is registered; each warning names an unregistered namespace in stream order; all of them warn when none matches |
| XmlTypes.FirstRegisteredAt | src/gamslib/formatdetect/xmltypes.py:126-134 | the first registered namespace's subtype is returned, after exactly one warning per namespace before it |
| XmlTypes.GetFormatInfo | src/gamslib/formatdetect/xmltypes.py:148-154 | with a subtype that has a MIME type that MIME type is reported, otherwise the input MIME; an XML type stays an XML type |
| JsonTypes.TextXmlIsNoJsonType | src/gamslib/formatdetect/jsontypes.py:29-38 | no JSON subtype maps to "text/xml" |
| JsonTypes.MimeTypesAreJson | src/gamslib/formatdetect/jsontypes.py:29-43 | every JSON subtype has a MIME type, and it is a JSON type |
| JsonTypes.IsJsonl | src/gamslib/formatdetect/jsontypes.py:46-61 | the loop with `break` returns true iff the text is not blank and every line parses |
| JsonTypes.Iterated | src/gamslib/formatdetect/jsontypes.py:84 | `for key in doc` visits an object's keys in order, an array's items, or one-character strings |
| JsonTypes.GuessJsonFormat | src/gamslib/formatdetect/jsontypes.py:64-92 | returns the classification: ".jsonld" first, then `$schema` draft 2020-12, then `@context`/`@id`, then JSON; JSON Lines or the re-raised error when parsing fails |
| JsonTypes.ClassifyDoc | src/gamslib/formatdetect/jsontypes.py:77-92 | the checks of a parsed document, in source order |
| JsonTypes.GetFormatInfo | src/gamslib/formatdetect/jsontypes.py:95-102 | an error is passed on; otherwise the subtype's MIME type and value are reported, always a JSON type |
| JsonTypes.SingleLineIsNotJsonLines | src/gamslib/formatdetect/jsontypes.py:88-91 | a one-line document that fails to parse re-raises its decode error |
| JsonTypes.JsonLinesOnlyWhenLinesParse | src/gamslib/formatdetect/jsontypes.py:88-90 | JSON Lines is reported only for non-blank text that fails as a whole and parses line by line |
| FormatDetector.Identify | src/gamslib/formatdetect/minimaldetector.py:23-34 | the shared dispatch: no MIME gives the default type, XML types go to the XML sniffer, JSON types to the JSON sniffer, others pass through |
| FormatDetector.DetectNameAndFailure | src/gamslib/formatdetect/minimaldetector.py:29-34 | the detector name is kept, and only the JSON sniffer can fail |
| FormatDetector.DetectWithoutMime | src/gamslib/formatdetect/minimaldetector.py:25-28 | a missing MIME gives "application/octet-stream", subtype "" and one warning |
| FormatDetector.DetectKeepsXml | src/gamslib/formatdetect/minimaldetector.py:29-30 | an XML type stays an XML type |
| FormatDetector.DetectKeepsJson | src/gamslib/formatdetect/minimaldetector.py:31-32 | a JSON type stays a JSON type when detection succeeds |
| MagikaDetector.FixResult | src/gamslib/formatdetect/magikadetector.py:19-31 | "javascript" with a .json/.jsonld suffix becomes ("json", "application/json"); "text/xml" becomes "application/xml"; nothing else changes |
| MagikaDetector.GuessFileType | src/gamslib/formatdetect/magikadetector.py:33-47 | the dispatch on the fixed result, named "MagikaDetector", never reporting "text/xml" |
| MagikaDetector.NeverTextXml | src/gamslib/formatdetect/magikadetector.py:29-47 | once "text/xml" is fixed up, no detection reports it |
| MinimalDetector.GuessFileType | src/gamslib/formatdetect/minimaldetector.py:20-38 | the dispatch on the guessed MIME, named "MinimalDetector" |
| ProjectUtils.SearchFolders | src/gamslib/projectconfiguration/utils.py:19 | the start folder first, then each ancestor up to the root, one per level |
| ProjectUtils.FindProjectToml | src/gamslib/projectconfiguration/utils.py:13-30 | the nearest existing project.toml at or above the start folder, else cwd/project.toml, else FileNotFoundError |
| ProjectUtils.StartFolderFirst | src/gamslib/projectconfiguration/utils.py:19-22 | a project.toml in the start folder wins |
| ProjectUtils.FoundAbove | src/gamslib/projectconfiguration/utils.py:19-22 | starting below a folder with project.toml, with none in between, finds that file |
| ProjectUtils.RewriteLines | src/gamslib/projectconfiguration/utils.py:100-103 | the loop keeps exactly the lines mentioning the field, rewritten, in order |
| ProjectUtils.ReadPathFromDotenv | src/gamslib/projectconfiguration/utils.py:92-105 | the field's value in the parse of the kept lines, as a path; `None` when the key is absent; TypeError when the parser gives the bare key the value None |
| ProjectUtils.FixLineNoBackslash | src/gamslib/projectconfiguration/utils.py:103 | a rewritten line has no backslash left |
| ProjectUtils.FixLineKeepsKey | src/gamslib/projectconfiguration/utils.py:102-103 | for a field name without slashes, a kept line still mentions the field after the rewrite |
| ProjectUtils.FixedLinesKept | src/gamslib/projectconfiguration/utils.py:101-103 | kept lines are free of backslashes and still name the field; there are no more of them than input lines |
| ProjectUtils.UnmentionedDropped | src/gamslib/projectconfiguration/utils.py:102 | lines that do not mention the field are all dropped |
| Sorting.SortByPermutes | src/gamslib/objectcsv/datastreamscsvfile.py:76 | `list.sort` returns a permutation of its input |
| Sorting.SortBySorted | src/gamslib/objectcsv/datastreamscsvfile.py:76 | `list.sort` returns its input ordered by key, length kept |
| Sorting.SortByStable | src/gamslib/objectcsv/datastreamscsvfile.py:76 | `list.sort` keeps elements with equal keys in their order |
| Disk.WriteThenRead | src/gamslib/objectcsv/objectcsv.py:108-116 | a written table is read back unchanged, and no other file changes |

## Left out

- CSV text: quoting, escaping and encoding are not modelled. A file is its header and rows of maps, so the round trips hold at that level, not for bytes.
- XML parsing: `DublinCore._parse` gets the root's `dc:*` children as (element, lang, text) values, the text None for an empty element. `guess_xml_subtype` gets the start-ns namespace sequence.
- JSON parsing: `json.loads` is a parameter. Only the top-level shape and string values of a parsed document are represented.
- The Magika classifier and `mimetypes.guess_type`: their outputs are parameters. CPython's `mimetypes` has no `extensions` attribute (see Findings), so the corrected `extract_dsid` takes the known extensions as its `knownExtensions` parameter.
- The mimetype that `collect_datastream_data` and `create_csv` record is a parameter (`mimetypeOf`). A missing guess is the empty string, where Python stores `None`.
- src/gamslib/objectcsv/dsdata.py is not part of this model. `guess_missing_values` is the `guess` parameter. `DSData.merge` is defined from tests/objectcsv/test_datastreamcsvfile.py:112-122.
- File-system probing is not modelled. `rglob` is the `walk` parameter, in the order it yields. The folder listing of `create_csv` (`glob`) is the `names` parameter. `Path.cwd()` and `Path.exists()` (the `pathExists` parameter) are parameters of `FindProjectToml`.
- ProjectUtils.SearchFolders: it builds `start / probe` directly and takes its parents. It does not model `Path` normalisation of "." or "..".
- `dotenv_values` is an uninterpreted parameter from text to a key/value map. A value is None for a bare key without `=`.
- src/gamslib/projectconfiguration/configuration.py is not part of this model: TOML loading, schema validation and its duplicate `find_project_toml`.
- The template and `.gitignore` copying (src/gamslib/projectconfiguration/utils.py:33-89) and `get_config_file_from_env` are left out. They are file I/O and environment access.
- `create_csv_files` (src/gamslib/objectcsv/create_csv.py:153-160) is only a loop calling `create_csv` per discovered folder. It is not modelled separately.
- Logging and `warnings.warn` are not emitted. The model returns warnings as message lists where the source warns (`find_object_folders`, `guess_xml_subtype`, the no-MIME case) and drops debug/info logs.
- Aliasing: Python containers share record objects between stores. The model copies records as values, so the aliasing is lost. For the same reason, `merge_object` and `merge_datastream` update the list entry rather than a shared object.
- In `update_csv_files` the folders are discovered before the loop rather than lazily while it runs. ManageCsv.UpdateKeepsFolders shows the two agree, because the loop writes only files not named "DC.xml".
- `\w` in the extension pattern is ASCII letters, digits and `_`, not Python's full Unicode word class.
- Records: one `ObjectData` of 11 fields and one `DSData` of 9 fields serve both generations of containers. The older classes of src/gamslib/objectcsv/objectcsv.py have 9 and 7 fields. Their reader and writer (CsvTables.OldObjectFromRow, OldDatastreamFromRow, OldObjectTable, OldDatastreamTable) use exactly those fields. An older record is the shared value with mainResource and funder, or lang and tags, left empty.
- CreateCsv.ExtractDsid: with `remove_extension` it models the removal rules the code states, which CPython never reaches. The code as written is CreateCsv.ExtractDsidAsWritten (see Findings), and `create_csv` never asks for the removal.
- CreateCsv.DotlessNameRefused: it states the corrected rule. As written, line 55 of src/gamslib/objectcsv/create_csv.py raises before this branch.
- The configuration's `project`, `creator` and `rights` are a three-field value. `collect_object_data` reads `config.project`/`config.creator`, while `collect_datastream_data` reads `config.metadata.creator`. Both read the one `creator` field.
- The frequency-ranked `ObjectCSV.get_languages` and the `DatastreamsCSVFile.get_datastream`/`validate`/`from_csv` error cases that tests call have no visible source and are not modelled.
- Counting functions (`count_objects`, `count_datastreams`, `__len__`) are plain functions on the fields, used by the contracts above.
- Code and tests disagree in three places. The model follows the code in each:
  - `ObjectData.merge` fills only empty fields (src/gamslib/objectcsv/objectdata.py:24-26), while tests/objectcsv/test_objectcsvfile.py:83-91 expects overwriting.
  - `merge_datastream` returns nothing in the matched branch, while tests/objectcsv/test_datastreamcsvfile.py:112 expects the record.
  - The `is_new` docstring (src/gamslib/objectcsv/objectcsv.py:209) says the opposite of line 212.

## Findings

| source | as written | input that shows it | evidently intended | confidence | as-written member | corrected member |
|---|---|---|---|---|---|---|
| src/gamslib/objectcsv/datastreamscsvfile.py:31 | `merge_datastream` first reads `dsdata.ds_id`, which `DSData` does not have | any record, e.g. one with dspath "obj1/TEI.xml" | merge into the first record with equal dspath and dsid, else append (lines 34-41) | not executed | DatastreamsCsvFile.DatastreamsCSVFile.MergeDatastreamAsWritten | DatastreamsCsvFile.DatastreamsCSVFile.MergeDatastream |
| src/gamslib/objectcsv/create_csv.py:136 | returns early when `is_new()` is true, i.e. when neither CSV file exists | an object folder holding only DC.xml (CreateCsv.FreshFolderIsSkipped) | skip folders whose CSV files already exist, as the log message says, and create them for fresh folders | not executed | CreateCsv.CreateCsvAsWritten | CreateCsv.CreateCsv |
| src/gamslib/objectcsv/create_csv.py:55 | `extract_dsid` with `remove_extension` reads `mimetypes.extensions`, which CPython's `mimetypes` does not have, so it raises AttributeError | the datastream "obj1/TEI.xml" with `remove_extension=True` (CreateCsv.RemovalRaisesAsWritten) | remove a known extension, else an extension-like last segment, then check the PID (lines 56-70) | not executed | CreateCsv.ExtractDsidAsWritten | CreateCsv.ExtractDsid |
