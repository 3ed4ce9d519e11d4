/**
 * Collecting the CSV data of all object folders into one pair of files, and distributing an
 * edited pair back into the folders.
 */
module ManageCsv {
  import opened Wrappers
  import opened Errors
  import opened Paths
  import opened Sorting
  import opened Records
  import opened CsvTables
  import opened Disk
  import opened ObjectCsv
  import opened ObjectFolders

  const AllObjectsFilename: Component := "all_objects.csv"
  const AllDatastreamsFilename: Component := "all_datastreams.csv"

  /** The records of the folders' stores, concatenated in folder order, or the first error. */
  function Gathered(fs: Fs, folders: seq<Path>): (r: Result<(seq<ObjectData>, seq<DSData>), Error>)
  {
    if folders == [] then Success(([], []))
    else
      var init :- Gathered(fs, folders[..|folders| - 1]);
      var last :- Opened(fs, folders[|folders| - 1], ObjectCsvFilename, DatastreamCsvFilename);
      Success((init.0 + last.0, init.1 + last.1))
  }

  /** Gathering one folder more appends that folder's records. */
  lemma GatheredStep(fs: Fs, folders: seq<Path>, i: nat)
    requires i < |folders| && Gathered(fs, folders[..i]).Success?
    requires Opened(fs, folders[i], ObjectCsvFilename, DatastreamCsvFilename).Success?
    ensures
      var g := Gathered(fs, folders[..i]).value;
      var last := Opened(fs, folders[i], ObjectCsvFilename, DatastreamCsvFilename).value;
      Gathered(fs, folders[..i + 1]) == Success(Appended(g, last))
  {
    assert folders[..i + 1][..i] == folders[..i];
  }

  /** The number of records each folder contributes, summed over the folders. */
  function CountsOf(fs: Fs, folders: seq<Path>): (nat, nat)
  {
    if folders == [] then (0, 0)
    else
      var init := CountsOf(fs, folders[..|folders| - 1]);
      var last := Opened(fs, folders[|folders| - 1], ObjectCsvFilename, DatastreamCsvFilename);
      if last.Failure? then init else (init.0 + |last.value.0|, init.1 + |last.value.1|)
  }

  /** The consolidated counts are the sums of the folders' counts. */
  lemma {:induction false} GatheredCounts(fs: Fs, folders: seq<Path>)
    requires Gathered(fs, folders).Success?
    ensures |Gathered(fs, folders).value.0| == CountsOf(fs, folders).0
    ensures |Gathered(fs, folders).value.1| == CountsOf(fs, folders).1
  {
    if folders != [] {
      GatheredCounts(fs, folders[..|folders| - 1]);
    }
  }

  /** Once a folder fails to load, gathering fails with its error. */
  lemma {:induction false} GatheredFailurePrefix(fs: Fs, folders: seq<Path>, n: nat)
    requires n <= |folders| && Gathered(fs, folders[..n]).Failure?
    ensures Gathered(fs, folders) == Gathered(fs, folders[..n])
    decreases |folders|
  {
    if n < |folders| {
      var init := folders[..|folders| - 1];
      assert init[..n] == folders[..n];
      GatheredFailurePrefix(fs, init, n);
    } else {
      assert folders[..n] == folders;
    }
  }

  /** `for r in records: target.add_objectdata(r)`, counting the records added. */
  method AddObjects(target: ObjectCSV, records: seq<ObjectData>) returns (n: nat)
    modifies target.objectData
    ensures target.objectData.objectData == old(target.objectData.objectData) + records
    ensures n == |records|
  {
    n := 0;
    while n < |records|
      invariant n <= |records|
      invariant target.objectData.objectData == old(target.objectData.objectData) + records[..n]
    {
      target.AddObjectData(records[n]);
      assert records[..n + 1] == records[..n] + [records[n]];
      n := n + 1;
    }
    assert records[..n] == records;
  }

  /** `for d in records: target.add_datastream(d)`, counting the records added. */
  method AddDatastreams(target: ObjectCSV, records: seq<DSData>) returns (n: nat)
    modifies target.datastreamData
    ensures target.datastreamData.datastreams == old(target.datastreamData.datastreams) + records
    ensures n == |records|
  {
    n := 0;
    while n < |records|
      invariant n <= |records|
      invariant target.datastreamData.datastreams == old(target.datastreamData.datastreams) + records[..n]
    {
      target.AddDatastream(records[n]);
      assert records[..n + 1] == records[..n] + [records[n]];
      n := n + 1;
    }
    assert records[..n] == records;
  }

  lemma AllObjects(s: seq<ObjectData>)
    ensures ObjectsWith(s, None) == s
  {
    FilterAll(s, HasRecid(None));
  }

  /** The records held by a store. */
  function Contents(o: ObjectCSV): (seq<ObjectData>, seq<DSData>)
    reads o, o.objectData, o.datastreamData
  {
    (o.objectData.objectData, o.datastreamData.datastreams)
  }

  function Appended(a: (seq<ObjectData>, seq<DSData>), b: (seq<ObjectData>, seq<DSData>)): (seq<ObjectData>, seq<DSData>) {
    (a.0 + b.0, a.1 + b.1)
  }

  lemma AppendedAssociative(a: (seq<ObjectData>, seq<DSData>), b: (seq<ObjectData>, seq<DSData>),
                            c: (seq<ObjectData>, seq<DSData>))
    ensures Appended(Appended(a, b), c) == Appended(a, Appended(b, c))
  {
    assert (a.0 + b.0) + c.0 == a.0 + (b.0 + c.0);
    assert (a.1 + b.1) + c.1 == a.1 + (b.1 + c.1);
  }

  /** One round of the loop of `collect_csv_data`: loads a folder's store and appends its records to `all`. */
  method GatherOne(fs: Fs, all: ObjectCSV, folder: Path) returns (r: Outcome<Error>)
    modifies all.objectData, all.datastreamData
    ensures var loaded := Opened(fs, folder, ObjectCsvFilename, DatastreamCsvFilename);
      (r.Pass? <==> loaded.Success?)
      && (r.Fail? ==> r.error == loaded.error)
      && (r.Pass? ==> Contents(all) == Appended(old(Contents(all)), loaded.value))
  {
    var objCsv := ObjectCSV.Open(fs, folder, ObjectCsvFilename, DatastreamCsvFilename);
    if objCsv.Failure? {
      return Fail(objCsv.error);
    }
    var objects := objCsv.value.GetObjectData(None);
    AllObjects(objCsv.value.objectData.objectData);
    var datastreams := objCsv.value.GetDatastreamData(None);
    assert datastreams == Success(objCsv.value.datastreamData.datastreams);
    var _ := AddObjects(all, objects);
    var _ := AddDatastreams(all, datastreams.value);
    return Pass;
  }

  /**
   * The loop of `collect_csv_data`: appends each folder's records to `all`, or stops at the
   * first folder that cannot be loaded.
   */
  method GatherInto(fs: Fs, all: ObjectCSV, folders: seq<Path>) returns (r: Outcome<Error>)
    modifies all.objectData, all.datastreamData
    ensures r.Pass? <==> Gathered(fs, folders).Success?
    ensures r.Fail? ==> r.error == Gathered(fs, folders).error
    ensures r.Pass? ==> Contents(all) == Appended(old(Contents(all)), Gathered(fs, folders).value)
  {
    var i := 0;
    ghost var start := Contents(all);
    assert folders[..0] == [];
    assert start.0 + [] == start.0 && start.1 + [] == start.1;
    while i < |folders|
      invariant 0 <= i <= |folders|
      invariant Gathered(fs, folders[..i]).Success?
      invariant Contents(all) == Appended(start, Gathered(fs, folders[..i]).value)
    {
      var one := GatherOne(fs, all, folders[i]);
      if one.Fail? {
        assert folders[..i + 1][..i] == folders[..i];
        GatheredFailurePrefix(fs, folders, i + 1);
        return one;
      }
      GatheredStep(fs, folders, i);
      AppendedAssociative(start, Gathered(fs, folders[..i]).value,
                          Opened(fs, folders[i], ObjectCsvFilename, DatastreamCsvFilename).value);
      i := i + 1;
    }
    assert folders[..i] == folders;
    return Pass;
  }

  /**
   * The records `collect_csv_data` consolidates in `dir`: the store's own records, then every
   * folder's, in folder order; or the first error raised while loading.
   */
  function Consolidated(fs: Fs, dir: Path, walk: seq<Path>): Result<(seq<ObjectData>, seq<DSData>), Error> {
    var start :- Opened(fs, dir, ObjectCsvFilename, DatastreamCsvFilename);
    var gathered :- Gathered(fs, FindObjectFolders(fs, walk).0);
    Success(Appended(start, gathered))
  }

  /**
   * `collect_csv_data`: the store of the output directory (the root when none is given) gets
   * every folder's records appended, in folder order, and is written under the two output
   * names (by default all_objects.csv and all_datastreams.csv); the datastreams are sorted by
   * that write. Only those two files change.
   */
  method CollectCsvData(fs: Fs, root: Path, outputDir: Option<Path>, objectFilename: Option<string>,
                        datastreamFilename: Option<string>, walk: seq<Path>)
    returns (fs': Fs, r: Result<ObjectCSV, Error>)
    ensures var dir := outputDir.GetOr(root);
      var c := Consolidated(fs, dir, walk);
      (c.Failure? ==> fs' == fs && r.Failure? && r.error == c.error)
      && (c.Success? ==>
            var w := WriteBoth(fs, dir.Div(objectFilename.GetOr(AllObjectsFilename)), OldObjectTable(c.value.0),
                               dir.Div(datastreamFilename.GetOr(AllDatastreamsFilename)),
                               OldDatastreamTable(SortBy(c.value.1, DspathOf)));
            fs' == w.0
            && (w.1.Fail? ==> r.Failure? && r.error == w.1.error)
            && (w.1.Pass? ==>
                  r.Success? && r.value.objectDir == dir
                  && Contents(r.value) == (c.value.0, SortBy(c.value.1, DspathOf))))
  {
    var dir := outputDir.GetOr(root);
    var store := ObjectCSV.Open(fs, dir, ObjectCsvFilename, DatastreamCsvFilename);
    if store.Failure? {
      return fs, Failure(store.error);
    }
    var all := store.value;
    var folders := FindObjectFolders(fs, walk).0;
    var gathered := GatherInto(fs, all, folders);
    if gathered.Fail? {
      assert Consolidated(fs, dir, walk) == Failure(gathered.error);
      return fs, Failure(gathered.error);
    }
    ghost var c := Contents(all);
    assert Consolidated(fs, dir, walk) == Success(c);
    var objectName := objectFilename.GetOr(AllObjectsFilename);
    var datastreamName := datastreamFilename.GetOr(AllDatastreamsFilename);
    var w;
    fs', w := all.Write(fs, Some(all.objectDir), Some(objectName), Some(datastreamName));
    if w.Fail? {
      return fs', Failure(w.error);
    }
    assert Contents(all) == (c.0, SortBy(c.1, DspathOf));
    return fs', Success(all);
  }

  /** The consolidated counts are the store's own plus the sum over all discovered folders. */
  lemma ConsolidatedCounts(fs: Fs, dir: Path, walk: seq<Path>)
    requires Consolidated(fs, dir, walk).Success?
    ensures
      var start := Opened(fs, dir, ObjectCsvFilename, DatastreamCsvFilename).value;
      var counts := CountsOf(fs, FindObjectFolders(fs, walk).0);
      var c := Consolidated(fs, dir, walk).value;
      |c.0| == |start.0| + counts.0 && |c.1| == |start.1| + counts.1
  {
    GatheredCounts(fs, FindObjectFolders(fs, walk).0);
  }

  /** Sorting before the write keeps the number of datastreams. */
  lemma WrittenDatastreamCount(s: seq<DSData>)
    ensures |SortBy(s, DspathOf)| == |s|
  {
    SortBySorted(s, DspathOf);
  }

  /**
   * The records of `all` that `update_csv_files` hands to the folder `f`: the objects whose
   * recid and the datastreams whose object id is the folder's name.
   */
  function Share(all: (seq<ObjectData>, seq<DSData>), f: Path): (seq<ObjectData>, seq<DSData>) {
    (ObjectsWith(all.0, Some(f.Name())), Filter(all.1, InObject(Some(f.Name()))))
  }

  /** The counts `update_csv_files` returns: the sizes of the folders' shares, summed. */
  function ShareCounts(all: (seq<ObjectData>, seq<DSData>), folders: seq<Path>): (nat, nat) {
    if folders == [] then (0, 0)
    else
      var init := ShareCounts(all, folders[..|folders| - 1]);
      var share := Share(all, folders[|folders| - 1]);
      (init.0 + |share.0|, init.1 + |share.1|)
  }

  /** The folder `f` holds exactly `share`: its objects in order, its datastreams sorted by dspath. */
  predicate Holds(fs: Fs, f: Path, share: (seq<ObjectData>, seq<DSData>)) {
    f.Join(ObjectCsvFilename) in fs.files && f.Join(DatastreamCsvFilename) in fs.files
    && fs.files[f.Join(ObjectCsvFilename)] == OldObjectTable(share.0)
    && fs.files[f.Join(DatastreamCsvFilename)] == OldDatastreamTable(SortBy(share.1, DspathOf))
  }

  /** The folder `f` holds exactly its share of `all`. */
  predicate Distributed(fs: Fs, all: (seq<ObjectData>, seq<DSData>), f: Path) {
    Holds(fs, f, Share(all, f))
  }

  /** Between `fs` and `fs2` no directory and no file other than `p` and `q` changed. */
  ghost predicate ChangedOnlyAt(fs: Fs, fs2: Fs, p: Path, q: Path) {
    fs2.dirs == fs.dirs
    && forall x :: x != p && x != q ==>
         (x in fs2.files <==> x in fs.files) && (x in fs.files ==> fs2.files[x] == fs.files[x])
  }

  /** `p` is the object.csv or the datastreams.csv of one of the folders. */
  predicate IsStoreFile(folders: seq<Path>, p: Path) {
    exists f :: f in folders && (p == f.Join(ObjectCsvFilename) || p == f.Join(DatastreamCsvFilename))
  }

  /** Between `fs` and `fs2` only the folders' store files changed, and no directory. */
  ghost predicate OnlyStoreFilesChanged(fs: Fs, fs2: Fs, folders: seq<Path>) {
    fs2.dirs == fs.dirs
    && forall p :: !IsStoreFile(folders, p) ==>
         (p in fs2.files <==> p in fs.files) && (p in fs.files ==> fs2.files[p] == fs.files[p])
  }

  /** Store files of different folders are different files. */
  lemma StoreFilesDistinct(f: Path, g: Path)
    requires f != g
    ensures f.Join(ObjectCsvFilename) != g.Join(ObjectCsvFilename)
    ensures f.Join(DatastreamCsvFilename) != g.Join(DatastreamCsvFilename)
    ensures f.Join(ObjectCsvFilename) != g.Join(DatastreamCsvFilename)
  {
    assert f.Join(ObjectCsvFilename).Parent() == f && g.Join(ObjectCsvFilename).Parent() == g;
    assert f.Join(DatastreamCsvFilename).Parent() == f && g.Join(DatastreamCsvFilename).Parent() == g;
    assert f.Join(ObjectCsvFilename).Name() != g.Join(DatastreamCsvFilename).Name();
  }

  /**
   * The store files are not named "DC.xml", so the writes of `update_csv_files` do not change
   * which folders are found: discovering them before the loop is the same as discovering them
   * while it runs.
   */
  lemma UpdateKeepsFolders(fs: Fs, fs2: Fs, folders: seq<Path>, walk: seq<Path>)
    requires OnlyStoreFilesChanged(fs, fs2, folders)
    ensures FindObjectFolders(fs2, walk) == FindObjectFolders(fs, walk)
  {
    forall p: Path | p.Name() == DcFilename
      ensures p in fs2.files <==> p in fs.files
    {
      forall f | f in folders
        ensures p != f.Join(ObjectCsvFilename) && p != f.Join(DatastreamCsvFilename)
      {
        assert f.Join(ObjectCsvFilename).Name() == ObjectCsvFilename;
        assert f.Join(DatastreamCsvFilename).Name() == DatastreamCsvFilename;
      }
      assert !IsStoreFile(folders, p);
    }
    FoldersStable(fs, fs2, walk);
  }

  /** What the two writes of `write()` into `f` change: only its two store files. */
  lemma WriteBothEffect(fs: Fs, f: Path, share: (seq<ObjectData>, seq<DSData>))
    ensures var w := WriteBoth(fs, f.Join(ObjectCsvFilename), OldObjectTable(share.0),
                               f.Join(DatastreamCsvFilename), OldDatastreamTable(SortBy(share.1, DspathOf)));
      ChangedOnlyAt(fs, w.0, f.Join(ObjectCsvFilename), f.Join(DatastreamCsvFilename))
      && (w.1.Pass? ==> Holds(w.0, f, share))
  {
    assert f.Join(ObjectCsvFilename).Name() != f.Join(DatastreamCsvFilename).Name();
  }

  /** Writing the store files of `g` leaves what another folder `f` holds in place. */
  lemma HoldsKept(fs: Fs, fs2: Fs, f: Path, g: Path, share: (seq<ObjectData>, seq<DSData>))
    requires f != g && Holds(fs, f, share)
    requires ChangedOnlyAt(fs, fs2, g.Join(ObjectCsvFilename), g.Join(DatastreamCsvFilename))
    ensures Holds(fs2, f, share)
  {
    StoreFilesDistinct(f, g);
    StoreFilesDistinct(g, f);
  }

  /**
   * `clear()` followed by adding the folder's share of `all`, counting what was added. Reading
   * the datastreams of `all` raises as soon as one of them has no object id.
   */
  method Refill(store: ObjectCSV, all: ObjectCSV) returns (r: Result<(nat, nat), Error>)
    requires store != all
    modifies store
    ensures store.objectDir == old(store.objectDir)
    ensures fresh(store.objectData) && fresh(store.datastreamData)
    ensures Contents(all) == old(Contents(all))
    ensures r.Failure? <==> SomePartless(Contents(all).1)
    ensures r.Failure? ==> r.error == NoPart
    ensures r.Success? ==>
      Contents(store) == Share(Contents(all), store.objectDir)
      && r.value == (|Contents(store).0|, |Contents(store).1|)
  {
    store.Clear();
    assert Contents(all) == old(Contents(all));
    var objects := all.GetObjectData(Some(store.ObjectId()));
    var nObjects := AddObjects(store, objects);
    assert store.objectData.objectData == objects;
    var datastreams := all.GetDatastreamData(Some(store.ObjectId()));
    if datastreams.Failure? {
      return Failure(datastreams.error);
    }
    var nDatastreams := AddDatastreams(store, datastreams.value);
    assert store.datastreamData.datastreams == datastreams.value;
    return Success((nObjects, nDatastreams));
  }

  /**
   * What one round of the loop of `update_csv_files` does to the folder `f`: an error if its
   * store cannot be loaded or the datastreams of `all` cannot be selected, with nothing
   * written; otherwise the folder's share of `all` is written over its two store files, and
   * its sizes are the counts.
   */
  function UpdatedFolder(fs: Fs, all: (seq<ObjectData>, seq<DSData>), f: Path): (Fs, Result<(nat, nat), Error>) {
    match Opened(fs, f, ObjectCsvFilename, DatastreamCsvFilename)
    case Failure(e) => (fs, Failure(e))
    case Success(_) =>
      if SomePartless(all.1) then (fs, Failure(NoPart))
      else
        var share := Share(all, f);
        var w := WriteBoth(fs, f.Join(ObjectCsvFilename), OldObjectTable(share.0),
                           f.Join(DatastreamCsvFilename), OldDatastreamTable(SortBy(share.1, DspathOf)));
        (w.0, if w.1.Fail? then Failure(w.1.error) else Success((|share.0|, |share.1|)))
  }

  /**
   * One round changes only the folder's two store files; when it succeeds the folder holds its
   * share and the counts are the sizes of that share.
   */
  lemma UpdatedFolderEffect(fs: Fs, all: (seq<ObjectData>, seq<DSData>), f: Path)
    ensures var u := UpdatedFolder(fs, all, f);
      ChangedOnlyAt(fs, u.0, f.Join(ObjectCsvFilename), f.Join(DatastreamCsvFilename))
      && (u.1.Success? ==> Distributed(u.0, all, f) && u.1.value == (|Share(all, f).0|, |Share(all, f).1|))
  {
    WriteBothEffect(fs, f, Share(all, f));
  }

  /**
   * The errors of one round: the load error of the folder's store, then NoPart for a
   * consolidated datastream without object id, then the error of the first failing write;
   * each of the first two leaves the file system as it was.
   */
  lemma UpdatedFolderErrors(fs: Fs, all: (seq<ObjectData>, seq<DSData>), f: Path)
    ensures var u := UpdatedFolder(fs, all, f);
      var load := Opened(fs, f, ObjectCsvFilename, DatastreamCsvFilename);
      (load.Failure? ==> u == (fs, Failure(load.error)))
      && (load.Success? && SomePartless(all.1) ==> u == (fs, Failure(NoPart)))
      && (load.Success? && !SomePartless(all.1) ==>
            var share := Share(all, f);
            var w := WriteBoth(fs, f.Join(ObjectCsvFilename), OldObjectTable(share.0),
                               f.Join(DatastreamCsvFilename), OldDatastreamTable(SortBy(share.1, DspathOf)));
            (u.1.Failure? <==> w.1.Fail?) && (w.1.Fail? ==> u.1.error == w.1.error))
  {
  }

  /**
   * One round of the loop of `update_csv_files`: the folder's store is loaded, cleared,
   * refilled with the folder's share of `all`, and written back under the default names.
   */
  method UpdateOne(fs: Fs, all: ObjectCSV, folder: Path, ghost records: (seq<ObjectData>, seq<DSData>))
    returns (fs': Fs, r: Result<(nat, nat), Error>)
    requires Contents(all) == records
    ensures (fs', r) == UpdatedFolder(fs, records, folder)
  {
    var store := ObjectCSV.Open(fs, folder, ObjectCsvFilename, DatastreamCsvFilename);
    if store.Failure? {
      return fs, Failure(store.error);
    }
    var objCsv := store.value;
    var counts := Refill(objCsv, all);
    if counts.Failure? {
      return fs, counts;
    }
    ghost var share := Contents(objCsv);
    var w;
    fs', w := objCsv.Write(fs, None, None, None);
    if w.Fail? {
      return fs', Failure(w.error);
    }
    return fs', Success(counts.value);
  }

  /** Changing the store files of one folder keeps "only store files changed". */
  lemma StoreFilesChangedStep(fs: Fs, fs1: Fs, fs2: Fs, folders: seq<Path>, i: nat)
    requires i < |folders| && OnlyStoreFilesChanged(fs, fs1, folders)
    requires ChangedOnlyAt(fs1, fs2, folders[i].Join(ObjectCsvFilename), folders[i].Join(DatastreamCsvFilename))
    ensures OnlyStoreFilesChanged(fs, fs2, folders)
  {
    forall p | !IsStoreFile(folders, p)
      ensures p != folders[i].Join(ObjectCsvFilename) && p != folders[i].Join(DatastreamCsvFilename)
    {
      assert folders[i] in folders;
    }
  }

  lemma ShareCountsStep(all: (seq<ObjectData>, seq<DSData>), folders: seq<Path>, i: nat)
    requires i < |folders|
    ensures ShareCounts(all, folders[..i + 1])
         == (ShareCounts(all, folders[..i]).0 + |Share(all, folders[i]).0|,
             ShareCounts(all, folders[..i]).1 + |Share(all, folders[i]).1|)
  {
    assert folders[..i + 1][..i] == folders[..i];
  }

  /** One more folder holding its share, and the others keep theirs. */
  lemma DistributedStep(fs1: Fs, fs2: Fs, all: (seq<ObjectData>, seq<DSData>), folders: seq<Path>, i: nat)
    requires i < |folders|
    requires forall f :: f in folders[..i] ==> Distributed(fs1, all, f)
    requires Distributed(fs2, all, folders[i])
    requires ChangedOnlyAt(fs1, fs2, folders[i].Join(ObjectCsvFilename), folders[i].Join(DatastreamCsvFilename))
    ensures forall f :: f in folders[..i + 1] ==> Distributed(fs2, all, f)
  {
    forall f | f in folders[..i + 1] ensures Distributed(fs2, all, f) {
      if f != folders[i] {
        assert f in folders[..i];
        HoldsKept(fs1, fs2, f, folders[i], Share(all, f));
      }
    }
  }

  /** One round of `update_csv_files` for the consolidated records `all`. */
  function UpdateRound(all: (seq<ObjectData>, seq<DSData>)): (Fs, Path) -> (Fs, Result<(nat, nat), Error>) {
    (fs: Fs, f: Path) => UpdatedFolder(fs, all, f)
  }

  /**
   * The loop of `update_csv_files`: `round` runs on each folder in turn, on what the earlier
   * rounds left, and the counts are added up; the first error ends the loop.
   */
  function Rounds(fs: Fs, folders: seq<Path>, round: (Fs, Path) -> (Fs, Result<(nat, nat), Error>))
    : (Fs, Result<(nat, nat), Error>)
  {
    if folders == [] then (fs, Success((0, 0)))
    else
      var before := Rounds(fs, folders[..|folders| - 1], round);
      if before.1.Failure? then before
      else
        var last := round(before.0, folders[|folders| - 1]);
        if last.1.Failure? then last
        else (last.0, Success((before.1.value.0 + last.1.value.0, before.1.value.1 + last.1.value.1)))
  }

  /** One round more: the next folder's round runs on what the earlier rounds left. */
  lemma RoundsStep(fs: Fs, folders: seq<Path>, i: nat, round: (Fs, Path) -> (Fs, Result<(nat, nat), Error>))
    requires i < |folders| && Rounds(fs, folders[..i], round).1.Success?
    ensures var before := Rounds(fs, folders[..i], round);
      var last := round(before.0, folders[i]);
      Rounds(fs, folders[..i + 1], round)
        == if last.1.Failure? then last
           else (last.0, Success((before.1.value.0 + last.1.value.0, before.1.value.1 + last.1.value.1)))
  {
    assert folders[..i + 1][..i] == folders[..i];
  }

  /** The next round, named by its outcome: an error ends the loop, counts are added. */
  lemma RoundsNext(fs: Fs, folders: seq<Path>, i: nat, round: (Fs, Path) -> (Fs, Result<(nat, nat), Error>),
                   prev: Fs, counts: (nat, nat), next: Fs, one: Result<(nat, nat), Error>)
    requires i < |folders| && Rounds(fs, folders[..i], round) == (prev, Success(counts))
    requires round(prev, folders[i]) == (next, one)
    ensures one.Failure? ==> Rounds(fs, folders[..i + 1], round) == (next, one)
    ensures one.Success? ==>
      Rounds(fs, folders[..i + 1], round) == (next, Success((counts.0 + one.value.0, counts.1 + one.value.1)))
  {
    RoundsStep(fs, folders, i, round);
  }

  /** Once a round fails, the later folders are not visited. */
  lemma {:induction false} RoundsFailurePrefix(fs: Fs, folders: seq<Path>, n: nat,
                                               round: (Fs, Path) -> (Fs, Result<(nat, nat), Error>))
    requires n <= |folders| && Rounds(fs, folders[..n], round).1.Failure?
    ensures Rounds(fs, folders, round) == Rounds(fs, folders[..n], round)
    decreases |folders|
  {
    if n < |folders| {
      var init := folders[..|folders| - 1];
      assert init[..n] == folders[..n];
      RoundsFailurePrefix(fs, init, n, round);
    } else {
      assert folders[..n] == folders;
    }
  }

  /**
   * A failed loop ends with the first failing folder: the rounds before it succeeded, and its
   * round's outcome, error included, is the loop's.
   */
  lemma {:induction false} RoundsFirstFailure(fs: Fs, folders: seq<Path>,
                                              round: (Fs, Path) -> (Fs, Result<(nat, nat), Error>))
    requires Rounds(fs, folders, round).1.Failure?
    ensures exists k ::
      0 <= k < |folders| && Rounds(fs, folders[..k], round).1.Success?
      && Rounds(fs, folders, round) == round(Rounds(fs, folders[..k], round).0, folders[k])
  {
    var n := |folders| - 1;
    var init := folders[..n];
    if Rounds(fs, init, round).1.Failure? {
      RoundsFirstFailure(fs, init, round);
      var k :| 0 <= k < |init| && Rounds(fs, init[..k], round).1.Success?
        && Rounds(fs, init, round) == round(Rounds(fs, init[..k], round).0, init[k]);
      assert init[..k] == folders[..k];
    } else {
      assert Rounds(fs, folders, round) == round(Rounds(fs, folders[..n], round).0, folders[n]);
    }
  }

  /**
   * A round that changes only the folder's store files and, when it succeeds, leaves the
   * folder holding its share of `all`.
   */
  ghost predicate StoreRound(round: (Fs, Path) -> (Fs, Result<(nat, nat), Error>), all: (seq<ObjectData>, seq<DSData>)) {
    forall fs: Fs, f: Path ::
      ChangedOnlyAt(fs, round(fs, f).0, f.Join(ObjectCsvFilename), f.Join(DatastreamCsvFilename))
      && (round(fs, f).1.Success? ==> Distributed(round(fs, f).0, all, f))
  }

  /** A round whose counts, when it succeeds, are the sizes of the folder's share of `all`. */
  ghost predicate CountingRound(round: (Fs, Path) -> (Fs, Result<(nat, nat), Error>), all: (seq<ObjectData>, seq<DSData>)) {
    forall fs: Fs, f: Path ::
      round(fs, f).1.Success? ==> round(fs, f).1.value == (|Share(all, f).0|, |Share(all, f).1|)
  }

  lemma UpdateRoundKinds(all: (seq<ObjectData>, seq<DSData>))
    ensures StoreRound(UpdateRound(all), all) && CountingRound(UpdateRound(all), all)
  {
    forall fs: Fs, f: Path
      ensures ChangedOnlyAt(fs, UpdateRound(all)(fs, f).0, f.Join(ObjectCsvFilename), f.Join(DatastreamCsvFilename))
      ensures UpdateRound(all)(fs, f).1.Success? ==>
        Distributed(UpdateRound(all)(fs, f).0, all, f)
        && UpdateRound(all)(fs, f).1.value == (|Share(all, f).0|, |Share(all, f).1|)
    {
      UpdatedFolderEffect(fs, all, f);
    }
  }

  /** "Only store files changed" for some of the folders holds for all of them. */
  lemma StoreFilesWiden(fs: Fs, fs2: Fs, folders: seq<Path>, n: nat)
    requires n <= |folders| && OnlyStoreFilesChanged(fs, fs2, folders[..n])
    ensures OnlyStoreFilesChanged(fs, fs2, folders)
  {
    forall p | !IsStoreFile(folders, p)
      ensures !IsStoreFile(folders[..n], p)
    {
    }
  }

  /**
   * Rounds that change only their folder's store files change only the folders' store
   * files; when they all succeed, every folder holds its share of `all`.
   */
  lemma {:induction false} RoundsEffect(fs: Fs, all: (seq<ObjectData>, seq<DSData>), folders: seq<Path>,
                                        round: (Fs, Path) -> (Fs, Result<(nat, nat), Error>))
    requires StoreRound(round, all)
    ensures var u := Rounds(fs, folders, round);
      OnlyStoreFilesChanged(fs, u.0, folders)
      && (u.1.Success? ==> forall f :: f in folders ==> Distributed(u.0, all, f))
  {
    if folders != [] {
      var n := |folders| - 1;
      var init := folders[..n];
      RoundsEffect(fs, all, init, round);
      var before := Rounds(fs, init, round);
      StoreFilesWiden(fs, before.0, folders, n);
      if before.1.Success? {
        RoundsStep(fs, folders, n, round);
        var last := round(before.0, folders[n]);
        StoreFilesChangedStep(fs, before.0, last.0, folders, n);
        assert folders[..n + 1] == folders;
        if last.1.Success? {
          DistributedStep(before.0, last.0, all, folders, n);
        }
      }
    }
  }

  /** When counting rounds all succeed, the counts are the sums of the shares' sizes. */
  lemma {:induction false} RoundsCounts(fs: Fs, all: (seq<ObjectData>, seq<DSData>), folders: seq<Path>,
                                        round: (Fs, Path) -> (Fs, Result<(nat, nat), Error>))
    requires CountingRound(round, all)
    ensures Rounds(fs, folders, round).1.Success? ==> Rounds(fs, folders, round).1.value == ShareCounts(all, folders)
  {
    if folders != [] {
      var n := |folders| - 1;
      RoundsCounts(fs, all, folders[..n], round);
      if Rounds(fs, folders[..n], round).1.Success? {
        RoundsStep(fs, folders, n, round);
        ShareCountsStep(all, folders, n);
        assert folders[..n + 1] == folders;
      }
    }
  }

  /** A round that writes nothing and fails. */
  ghost predicate AbortingRound(round: (Fs, Path) -> (Fs, Result<(nat, nat), Error>)) {
    forall fs: Fs, f: Path :: round(fs, f).0 == fs && round(fs, f).1.Failure?
  }

  lemma {:induction false} RoundsAbort(fs: Fs, folders: seq<Path>, round: (Fs, Path) -> (Fs, Result<(nat, nat), Error>))
    requires AbortingRound(round)
    ensures Rounds(fs, folders, round).0 == fs
    ensures Rounds(fs, folders, round).1.Failure? <==> folders != []
  {
    if folders != [] {
      RoundsAbort(fs, folders[..|folders| - 1], round);
    }
  }

  /**
   * A datastream of `all` without an object id stops `update_csv_files` in the first folder,
   * before anything is written; only an empty folder list escapes the error.
   */
  lemma PartlessStopsUpdate(fs: Fs, all: (seq<ObjectData>, seq<DSData>), folders: seq<Path>)
    requires SomePartless(all.1)
    ensures Rounds(fs, folders, UpdateRound(all)).0 == fs
    ensures Rounds(fs, folders, UpdateRound(all)).1.Failure? <==> folders != []
  {
    forall fs': Fs, f: Path
      ensures UpdateRound(all)(fs', f).0 == fs' && UpdateRound(all)(fs', f).1.Failure?
    {
      assert UpdateRound(all)(fs', f) == UpdatedFolder(fs', all, f);
    }
    RoundsAbort(fs, folders, UpdateRound(all));
  }

  /** The next round of `update_csv_files`, named by its outcome. */
  lemma UpdateRoundNext(fs: Fs, all: (seq<ObjectData>, seq<DSData>), folders: seq<Path>, i: nat,
                        prev: Fs, counts: (nat, nat), next: Fs, one: Result<(nat, nat), Error>)
    requires i < |folders| && Rounds(fs, folders[..i], UpdateRound(all)) == (prev, Success(counts))
    requires (next, one) == UpdatedFolder(prev, all, folders[i])
    ensures one.Failure? ==> Rounds(fs, folders[..i + 1], UpdateRound(all)) == (next, one)
    ensures one.Success? ==>
      Rounds(fs, folders[..i + 1], UpdateRound(all)) == (next, Success((counts.0 + one.value.0, counts.1 + one.value.1)))
  {
    assert UpdateRound(all)(prev, folders[i]) == (next, one);
    RoundsNext(fs, folders, i, UpdateRound(all), prev, counts, next, one);
  }

  /** The body of the loop of `update_csv_files` for the folder `folders[i]`. */
  method DistributeNext(fs: Fs, all: ObjectCSV, folders: seq<Path>, i: nat, prev: Fs, counts: (nat, nat))
    returns (next: Fs, one: Result<(nat, nat), Error>)
    requires i < |folders| && Rounds(fs, folders[..i], UpdateRound(Contents(all))) == (prev, Success(counts))
    ensures one.Failure? ==> Rounds(fs, folders[..i + 1], UpdateRound(Contents(all))) == (next, one)
    ensures one.Success? ==>
      Rounds(fs, folders[..i + 1], UpdateRound(Contents(all)))
        == (next, Success((counts.0 + one.value.0, counts.1 + one.value.1)))
  {
    next, one := UpdateOne(prev, all, folders[i], Contents(all));
    UpdateRoundNext(fs, Contents(all), folders, i, prev, counts, next, one);
  }

  /** The loop of `update_csv_files`, over folders found beforehand. */
  method Distribute(fs: Fs, all: ObjectCSV, folders: seq<Path>) returns (fs': Fs, r: Result<(nat, nat), Error>)
    ensures (fs', r) == Rounds(fs, folders, UpdateRound(Contents(all)))
    ensures OnlyStoreFilesChanged(fs, fs', folders)
    ensures r.Success? ==>
      r.value == ShareCounts(Contents(all), folders)
      && forall f :: f in folders ==> Distributed(fs', Contents(all), f)
  {
    ghost var A := Contents(all);
    ghost var round := UpdateRound(A);
    fs' := fs;
    var counts: (nat, nat) := (0, 0);
    var i := 0;
    assert folders[..0] == [];
    while i < |folders|
      invariant 0 <= i <= |folders|
      invariant Contents(all) == A
      invariant Rounds(fs, folders[..i], round) == (fs', Success(counts))
    {
      var fs2, one := DistributeNext(fs, all, folders, i, fs', counts);
      if one.Failure? {
        RoundsFailurePrefix(fs, folders, i + 1, round);
        UpdateRoundKinds(A);
        RoundsEffect(fs, A, folders, round);
        return fs2, Failure(one.error);
      }
      counts := (counts.0 + one.value.0, counts.1 + one.value.1);
      fs' := fs2;
      i := i + 1;
    }
    assert folders[..i] == folders;
    UpdateRoundKinds(A);
    RoundsEffect(fs, A, folders, round);
    RoundsCounts(fs, A, folders, round);
    return fs', Success(counts);
  }

  /**
   * `update_csv_files`: the consolidated store is read from `collected_csv_dir` (the root when
   * none is given); then every object folder's store is replaced by the consolidated records
   * with its name as recid or object id. Returns how many records were handed out.
   */
  method UpdateCsvFiles(fs: Fs, root: Path, collectedDir: Option<Path>, objectCsv: string, dsCsv: string,
                        walk: seq<Path>)
    returns (fs': Fs, r: Result<(nat, nat), Error>)
    ensures var loaded := Opened(fs, collectedDir.GetOr(root), objectCsv, dsCsv);
      var folders := FindObjectFolders(fs, walk).0;
      OnlyStoreFilesChanged(fs, fs', folders)
      && (loaded.Failure? ==> fs' == fs && r.Failure? && r.error == loaded.error)
      && (loaded.Success? ==> (fs', r) == Rounds(fs, folders, UpdateRound(loaded.value)))
      && (r.Success? ==>
            loaded.Success? && r.value == ShareCounts(loaded.value, folders)
            && forall f :: f in folders ==> Distributed(fs', loaded.value, f))
  {
    var store := ObjectCSV.Open(fs, collectedDir.GetOr(root), objectCsv, dsCsv);
    if store.Failure? {
      return fs, Failure(store.error);
    }
    var folders := FindObjectFolders(fs, walk).0;
    fs', r := Distribute(fs, store.value, folders);
  }
}
