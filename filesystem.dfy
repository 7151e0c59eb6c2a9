/**
 * The part of the host filesystem the loader looks at, as a value.
 *
 * Directories are looked up by path and either do not exist, are not
 * directories, cannot be listed, or list their file names in a fixed order.
 * Archive files are looked up by path and either cannot be opened, or open
 * to a table of entries; an entry whose content cannot be streamed has no
 * content.
 */
module FileSystem {
  import opened Wrappers

  newtype byte = b: int | 0 <= b < 256

  /** What `File.exists`, `File.isDirectory` and `File.list` report for a path. */
  datatype Location =
    | Missing                        // exists() is false
    | NotADirectory                  // exists() but isDirectory() is false
    | Unlistable                     // a directory whose list() returns null
    | Listing(names: seq<string>)    // a directory and its file names, in listing order

  /** The entries of an opened archive: entry path to content, None when reading it fails. */
  type Entries = map<string, Option<seq<byte>>>

  /**
   * `dirs` gives the state of each directory path; `archives` gives, for each
   * file path, the entries it opens to, or None when opening it as an
   * archive fails. Paths absent from a map are missing / fail to open.
   */
  datatype FileSystem = FileSystem(
    dirs: map<string, Location>,
    archives: map<string, Option<Entries>>)

  function ListDir(fs: FileSystem, dir: string): Location {
    if dir in fs.dirs then fs.dirs[dir] else Missing
  }

  function OpenArchive(fs: FileSystem, file: string): Option<Entries> {
    if file in fs.archives then fs.archives[file] else None
  }

  /** The path of `name` inside directory `dir` (`new File(dir, name)`). */
  function Child(dir: string, name: string): string {
    dir + "/" + name
  }

  predicate EndsWith(s: string, suffix: string) {
    |suffix| <= |s| && s[|s| - |suffix|..] == suffix
  }
}
