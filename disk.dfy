/**
 * The file system the modelled code touches: a set of directories and a map from file path to
 * the file's contents as read through the CSV layer.
 */
module Disk {
  import opened Wrappers
  import opened Errors
  import opened Paths
  import opened CsvTables

  datatype Fs = Fs(dirs: set<Path>, files: map<Path, Table>) {

    predicate IsDir(p: Path) { p in dirs }

    predicate IsFile(p: Path) { p in files }

    predicate Exists(p: Path) { IsDir(p) || IsFile(p) }

    /** `open(p)` for reading. */
    function Read(p: Path): (r: Result<Table, Error>)
      ensures r.Success? <==> IsFile(p)
      ensures r.Success? ==> r.value == files[p]
    {
      if p in files then Success(files[p])
      else if p in dirs then Failure(IsADirectoryError("[Errno 21] Is a directory: '" + p.ToString() + "'"))
      else Failure(FileNotFoundError("[Errno 2] No such file or directory: '" + p.ToString() + "'"))
    }

    /** `open(p, "w")` followed by writing `t`: needs an existing parent and no directory at `p`. */
    function Write(p: Path, t: Table): (r: Result<Fs, Error>)
      ensures r.Success? <==> !IsDir(p) && IsDir(p.Parent())
      ensures r.Success? ==> r.value == Fs(dirs, files[p := t])
    {
      if p in dirs then Failure(IsADirectoryError("[Errno 21] Is a directory: '" + p.ToString() + "'"))
      else if p.Parent() !in dirs then
        Failure(FileNotFoundError("[Errno 2] No such file or directory: '" + p.ToString() + "'"))
      else Success(Fs(dirs, files[p := t]))
    }
  }

  /** A successful write is read back unchanged, and no other file changes. */
  lemma WriteThenRead(fs: Fs, p: Path, t: Table, q: Path)
    requires fs.Write(p, t).Success?
    ensures fs.Write(p, t).value.Read(p) == Success(t)
    ensures q != p ==> fs.Write(p, t).value.Read(q) == fs.Read(q)
  {
  }
}
