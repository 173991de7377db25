/**
 * A snapshot of the part of the file system the collector sees. Every existing
 * folder is a key of the map, under its full path; its value lists the names
 * of its files and of its subfolders in the order a directory listing returns
 * them. A subfolder exists while its full path is a key, so deleting a folder
 * removes its key and listings of its parent skip it from then on.
 */
module FileStore {
  import opened Common
  import opened Paths

  datatype Dir = Dir(files: seq<string>, subdirs: seq<string>)

  type FileSystem = map<string, Dir>

  /** The files of folder `p` (none when it does not exist). */
  function Files(fs: FileSystem, p: string): seq<string> {
    if p in fs then fs[p].files else []
  }

  /** Names in `names` whose folder under `p` exists, in listing order. */
  function Existing(fs: FileSystem, p: string, names: seq<string>): seq<string> {
    Filter(names, ExistsUnder(fs, p))
  }

  /** The test "names an existing subfolder of `p`". */
  function ExistsUnder(fs: FileSystem, p: string): string -> bool {
    n => Combine(p, n) in fs
  }

  /** `EnumerateDirectories()` of folder `p`: the names of its existing subfolders. */
  function Subdirectories(fs: FileSystem, p: string): seq<string> {
    if p in fs then Existing(fs, p, fs[p].subdirs) else []
  }

  /** `EnumerateFileSystemInfos().Any()`: the folder holds a file or a subfolder. */
  predicate HasEntries(fs: FileSystem, p: string) {
    Files(fs, p) != [] || Subdirectories(fs, p) != []
  }

  /** The listing `files` without the name `name`. */
  function Without(files: seq<string>, name: string): seq<string> {
    Filter(files, Other(name))
  }

  /** The test "is not `name`". */
  function Other(name: string): string -> bool {
    n => n != name
  }

  /** Listings of subfolders depend only on which folders exist and on the listed names. */
  lemma SubdirectoriesSameKeys(fs: FileSystem, fs': FileSystem, p: string)
    requires fs.Keys == fs'.Keys && p in fs && fs[p].subdirs == fs'[p].subdirs
    ensures Subdirectories(fs, p) == Subdirectories(fs', p)
  {
    FilterPointwise(fs[p].subdirs, ExistsUnder(fs, p), ExistsUnder(fs', p));
  }
}
