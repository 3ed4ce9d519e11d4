/**
 * `find_object_folders`: the directories below a root that hold a "DC.xml". The recursive
 * walk `rglob("*")` performs is taken as its result, the list of paths in the order it yields
 * them; directory tests and child names come from the file system.
 */
module ObjectFolders {
  import opened Paths
  import opened Records
  import opened Disk

  const DcFilename: Component := "DC.xml"

  /** A directory among whose children is "DC.xml". */
  predicate IsObjectFolder(fs: Fs, p: Path) {
    fs.IsDir(p) && fs.Exists(p.Join(DcFilename))
  }

  function SkipWarning(p: Path): string {
    "Skipping folder " + p.ToString() + " as it does not contain a DC.xml file."
  }

  /** The paths the generator yields and the warnings it logs on the way, in walk order. */
  function FindObjectFolders(fs: Fs, walk: seq<Path>): (r: (seq<Path>, seq<string>))
    ensures |r.0| + |r.1| <= |walk|
    ensures forall p :: p in r.0 <==> p in walk && IsObjectFolder(fs, p)
    ensures forall w :: w in r.1 <==> exists p :: p in walk && fs.IsDir(p) && !IsObjectFolder(fs, p) && w == SkipWarning(p)
  {
    if walk == [] then ([], [])
    else
      var rest := FindObjectFolders(fs, walk[1..]);
      var p := walk[0];
      assert forall q :: q in walk <==> q == p || q in walk[1..];
      if !fs.IsDir(p) then rest
      else if IsObjectFolder(fs, p) then ([p] + rest.0, rest.1)
      else (rest.0, [SkipWarning(p)] + rest.1)
  }

  /** The folders are exactly the walk filtered by the folder test, in walk order. */
  lemma {:induction false} FoldersAreFilter(fs: Fs, walk: seq<Path>)
    ensures FindObjectFolders(fs, walk).0 == Filter(walk, (p: Path) => IsObjectFolder(fs, p))
  {
    if walk != [] {
      FoldersAreFilter(fs, walk[1..]);
    }
  }

  /** Files and other entries that are not directories are passed over without a warning. */
  lemma {:induction false} NonDirectoriesIgnored(fs: Fs, walk: seq<Path>, extra: Path)
    requires !fs.IsDir(extra)
    ensures FindObjectFolders(fs, [extra] + walk) == FindObjectFolders(fs, walk)
  {
    assert ([extra] + walk)[1..] == walk;
  }

  /**
   * Writing files that are not named "DC.xml", without touching the directories, does not
   * change which folders are found.
   */
  lemma {:induction false} FoldersStable(fs: Fs, fs2: Fs, walk: seq<Path>)
    requires fs2.dirs == fs.dirs
    requires forall p: Path :: p.Name() == DcFilename ==> (p in fs2.files <==> p in fs.files)
    ensures FindObjectFolders(fs2, walk) == FindObjectFolders(fs, walk)
  {
    if walk != [] {
      FoldersStable(fs, fs2, walk[1..]);
      assert walk[0].Join(DcFilename).Name() == DcFilename;
    }
  }
}
