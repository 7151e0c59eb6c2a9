/**
 * The archive index: every archive found under the loader's locations, in
 * location order and, within a location, in directory-listing order.
 * `Scan` is the index one complete scan produces; the loader's
 * `GetAllJars` builds it step by step and is proved to produce it.
 */
module ArchiveIndex {
  import opened Wrappers
  import opened FileSystem

  /** An opened archive and the file it was opened from. */
  datatype Jar = Jar(entries: Entries, sourcePath: string)

  const ArchiveSuffix: string := ".jar"

  /** The two locations under the agent directory, searched in this order. */
  function DefaultLocations(agentDirectory: string): seq<string> {
    [Child(agentDirectory, "plugins"), Child(agentDirectory, "activations")]
  }

  /** The names a listing keeps: those ending with ".jar", in listing order. */
  function JarFileNames(names: seq<string>): (r: seq<string>)
    ensures |r| <= |names|
    ensures forall n :: n in r <==> n in names && EndsWith(n, ArchiveSuffix)
  {
    if names == [] then []
    else (if EndsWith(names[0], ArchiveSuffix) then [names[0]] else []) + JarFileNames(names[1..])
  }

  /** The filter keeps listing order: filtering two runs of names gives the first run's kept names, then the second's. */
  lemma {:induction false} JarFileNamesConcat(a: seq<string>, b: seq<string>)
    ensures JarFileNames(a + b) == JarFileNames(a) + JarFileNames(b)
  {
    if a == [] {
      assert a + b == b;
    } else {
      assert (a + b)[0] == a[0];
      assert (a + b)[1..] == a[1..] + b;
      JarFileNamesConcat(a[1..], b);
    }
  }

  /** Opening one listed file: the archive, or nothing when it cannot be opened. */
  function OpenJar(fs: FileSystem, dir: string, fileName: string): seq<Jar> {
    var file := Child(dir, fileName);
    match OpenArchive(fs, file)
    case Some(entries) => [Jar(entries, file)]
    case None => []
  }

  /** Opening the listed files of `dir` one after the other. */
  function OpenAll(fs: FileSystem, dir: string, fileNames: seq<string>): seq<Jar>
  {
    if fileNames == [] then []
    else OpenAll(fs, dir, fileNames[..|fileNames| - 1]) + OpenJar(fs, dir, fileNames[|fileNames| - 1])
  }

  /** What one location contributes: nothing unless it is a listable directory. */
  function ScanLocation(fs: FileSystem, dir: string): seq<Jar> {
    match ListDir(fs, dir)
    case Listing(names) => OpenAll(fs, dir, JarFileNames(names))
    case _ => []
  }

  /** The index built by one complete scan of `locations`, in order. */
  function Scan(fs: FileSystem, locations: seq<string>): seq<Jar>
  {
    if locations == [] then []
    else Scan(fs, locations[..|locations| - 1]) + ScanLocation(fs, locations[|locations| - 1])
  }

  /** One more location scanned appends what it contributes. */
  lemma ScanStep(fs: FileSystem, locations: seq<string>, i: nat)
    requires i < |locations|
    ensures Scan(fs, locations[..i + 1]) == Scan(fs, locations[..i]) + ScanLocation(fs, locations[i])
  {
    assert locations[..i + 1][..i] == locations[..i];
  }

  /** One more file opened appends its archive, if it opens. */
  lemma OpenAllStep(fs: FileSystem, dir: string, fileNames: seq<string>, k: nat)
    requires k < |fileNames|
    ensures OpenAll(fs, dir, fileNames[..k + 1]) == OpenAll(fs, dir, fileNames[..k]) + OpenJar(fs, dir, fileNames[k])
  {
    assert fileNames[..k + 1][..k] == fileNames[..k];
  }

  /** File `fileName` of `dir` is an archive name and opens to `jar`. */
  predicate Provides(fs: FileSystem, dir: string, fileName: string, jar: Jar) {
    EndsWith(fileName, ArchiveSuffix) &&
    jar.sourcePath == Child(dir, fileName) &&
    OpenArchive(fs, jar.sourcePath) == Some(jar.entries)
  }

  /** Opening files in two runs gives the archives of the first run, then those of the second. */
  lemma {:induction false} OpenAllConcat(fs: FileSystem, dir: string, a: seq<string>, b: seq<string>)
    ensures OpenAll(fs, dir, a + b) == OpenAll(fs, dir, a) + OpenAll(fs, dir, b)
  {
    if b == [] {
      assert a + b == a;
    } else {
      var b' := b[..|b| - 1];
      assert (a + b)[..|a + b| - 1] == a + b';
      assert (a + b)[|a + b| - 1] == b[|b| - 1];
      OpenAllConcat(fs, dir, a, b');
    }
  }

  /**
   * Within a location, archives come in directory-listing order: the
   * archives of a listing `a + b` are those of `a`, then those of `b`.
   */
  lemma ListingOrderKept(fs: FileSystem, dir: string, a: seq<string>, b: seq<string>)
    ensures OpenAll(fs, dir, JarFileNames(a + b)) == OpenAll(fs, dir, JarFileNames(a)) + OpenAll(fs, dir, JarFileNames(b))
  {
    JarFileNamesConcat(a, b);
    OpenAllConcat(fs, dir, JarFileNames(a), JarFileNames(b));
  }

  /** Earlier locations come first in the index: the scan of `a + b` is that of `a`, then that of `b`. */
  lemma {:induction false} ScanConcat(fs: FileSystem, a: seq<string>, b: seq<string>)
    ensures Scan(fs, a + b) == Scan(fs, a) + Scan(fs, b)
  {
    if b == [] {
      assert a + b == a;
    } else {
      var b' := b[..|b| - 1];
      assert (a + b)[..|a + b| - 1] == a + b';
      assert (a + b)[|a + b| - 1] == b[|b| - 1];
      ScanConcat(fs, a, b');
    }
  }

  /** The loader's index: every archive of "plugins", then every archive of "activations". */
  lemma PluginsBeforeActivations(fs: FileSystem, agentDirectory: string)
    ensures Scan(fs, DefaultLocations(agentDirectory))
         == ScanLocation(fs, Child(agentDirectory, "plugins")) + ScanLocation(fs, Child(agentDirectory, "activations"))
  {
    var locations := DefaultLocations(agentDirectory);
    assert locations[..1][..0] == [];
    assert locations[..1] == [locations[0]];
    ScanConcat(fs, [locations[0]], [locations[1]]);
    assert [locations[0]] + [locations[1]] == locations;
  }

  /**
   * A listed file that cannot be opened is skipped and the files after it
   * are still opened: it contributes nothing, and nothing else changes.
   */
  lemma OpenFailureSkipped(fs: FileSystem, dir: string, before: seq<string>, fileName: string, after: seq<string>)
    requires OpenArchive(fs, Child(dir, fileName)) == None
    ensures OpenAll(fs, dir, before + [fileName] + after) == OpenAll(fs, dir, before) + OpenAll(fs, dir, after)
  {
    OpenAllConcat(fs, dir, before + [fileName], after);
    OpenAllConcat(fs, dir, before, [fileName]);
    assert OpenAll(fs, dir, [fileName]) == OpenAll(fs, dir, []) + OpenJar(fs, dir, fileName);
  }

  /** Exactly the files that open are in the archives opened from a run of file names. */
  lemma {:induction false} OpenAllMember(fs: FileSystem, dir: string, fileNames: seq<string>, jar: Jar)
    requires forall f :: f in fileNames ==> EndsWith(f, ArchiveSuffix)
    ensures jar in OpenAll(fs, dir, fileNames) <==> exists f :: f in fileNames && Provides(fs, dir, f, jar)
  {
    if fileNames != [] {
      var init, last := fileNames[..|fileNames| - 1], fileNames[|fileNames| - 1];
      assert fileNames == init + [last];
      OpenAllMember(fs, dir, init, jar);
      if jar in OpenJar(fs, dir, last) {
        assert Provides(fs, dir, last, jar);
      }
      if f :| f in fileNames && Provides(fs, dir, f, jar) {
        if f != last {
          assert f in init;
        }
      }
    }
  }

  /** An archive is in a location's scan iff that location lists a ".jar" name that opens to it. */
  lemma ScanLocationMember(fs: FileSystem, dir: string, jar: Jar)
    ensures jar in ScanLocation(fs, dir) <==>
      ListDir(fs, dir).Listing? && exists f :: f in ListDir(fs, dir).names && Provides(fs, dir, f, jar)
  {
    if ListDir(fs, dir).Listing? {
      var names := ListDir(fs, dir).names;
      OpenAllMember(fs, dir, JarFileNames(names), jar);
    }
  }

  /**
   * An archive is in the index iff some location is a listable directory
   * that lists a ".jar" name opening to it: missing, non-directory and
   * unlistable locations, other names and archives that fail to open
   * contribute nothing, and every other archive of every location is there.
   */
  lemma {:induction false} ScanMember(fs: FileSystem, locations: seq<string>, jar: Jar)
    ensures jar in Scan(fs, locations) <==>
      exists i, f :: 0 <= i < |locations| && ListDir(fs, locations[i]).Listing? &&
                     f in ListDir(fs, locations[i]).names && Provides(fs, locations[i], f, jar)
  {
    if locations != [] {
      var init, n := locations[..|locations| - 1], |locations| - 1;
      ScanMember(fs, init, jar);
      ScanLocationMember(fs, locations[n], jar);
      if jar in Scan(fs, locations) {
        if jar !in Scan(fs, init) {
          var f :| f in ListDir(fs, locations[n]).names && Provides(fs, locations[n], f, jar);
          assert 0 <= n < |locations| && Provides(fs, locations[n], f, jar);
        } else {
          var i, f :| 0 <= i < |init| && ListDir(fs, init[i]).Listing? &&
                      f in ListDir(fs, init[i]).names && Provides(fs, init[i], f, jar);
          assert locations[i] == init[i];
        }
      }
      if i, f :| 0 <= i < |locations| && ListDir(fs, locations[i]).Listing? &&
                 f in ListDir(fs, locations[i]).names && Provides(fs, locations[i], f, jar) {
        if i < n {
          assert init[i] == locations[i];
        }
      }
    }
  }

  /**
   * The outcome of the scan as written: `File.list` returns null for a
   * directory it cannot read, and the loop over that null listing throws a
   * NullPointerException out of the scan. The index field was already
   * assigned the list filled so far, so that partial list is what every later
   * lookup sees.
   */
  datatype ScanOutcome = Completed(jars: seq<Jar>) | NullPointer(partial: seq<Jar>)

  function ScanAsWritten(fs: FileSystem, locations: seq<string>): ScanOutcome
  {
    if locations == [] then Completed([])
    else
      var last := locations[|locations| - 1];
      match ScanAsWritten(fs, locations[..|locations| - 1])
      case NullPointer(partial) => NullPointer(partial)
      case Completed(jars) =>
        match ListDir(fs, last)
        case Unlistable => NullPointer(jars)
        case _ => Completed(jars + ScanLocation(fs, last))
  }

  /** Where no location is unlistable, the scan as written completes with the corrected index. */
  lemma {:induction false} ScanAsWrittenAgrees(fs: FileSystem, locations: seq<string>)
    requires forall i :: 0 <= i < |locations| ==> ListDir(fs, locations[i]) != Unlistable
    ensures ScanAsWritten(fs, locations) == Completed(Scan(fs, locations))
  {
    if locations != [] {
      var init := locations[..|locations| - 1];
      assert forall i :: 0 <= i < |init| ==> init[i] == locations[i];
      ScanAsWrittenAgrees(fs, init);
    }
  }

  /**
   * As written, the first unlistable location ends the scan with a
   * NullPointerException, leaving only the archives of the locations before it.
   */
  lemma {:induction false} ScanAsWrittenStops(fs: FileSystem, locations: seq<string>, k: nat)
    requires k < |locations| && ListDir(fs, locations[k]) == Unlistable
    requires forall i :: 0 <= i < k ==> ListDir(fs, locations[i]) != Unlistable
    ensures ScanAsWritten(fs, locations) == NullPointer(Scan(fs, locations[..k]))
  {
    var init := locations[..|locations| - 1];
    if k == |locations| - 1 {
      assert forall i :: 0 <= i < |init| ==> init[i] == locations[i];
      ScanAsWrittenAgrees(fs, init);
      assert locations[..k] == init;
    } else {
      assert forall i :: 0 <= i < |init| ==> init[i] == locations[i];
      ScanAsWrittenStops(fs, init, k);
      assert init[..k] == locations[..k];
    }
  }

  /**
   * An unreadable "plugins" directory hides a good archive in "activations":
   * as written the scan throws with an empty index, while the corrected scan
   * finds the archive.
   */
  lemma UnlistablePluginsHidesActivations(agentDirectory: string)
    ensures var plugins, activations := Child(agentDirectory, "plugins"), Child(agentDirectory, "activations");
            var fs := FileSystem(
              map[plugins := Unlistable, activations := Listing(["a.jar"])],
              map[Child(activations, "a.jar") := Some(map[])]);
            ScanAsWritten(fs, DefaultLocations(agentDirectory)) == NullPointer([]) &&
            Scan(fs, DefaultLocations(agentDirectory)) == [Jar(map[], Child(activations, "a.jar"))]
  {
    var plugins, activations := Child(agentDirectory, "plugins"), Child(agentDirectory, "activations");
    var fs := FileSystem(
      map[plugins := Unlistable, activations := Listing(["a.jar"])],
      map[Child(activations, "a.jar") := Some(map[])]);
    var locations := DefaultLocations(agentDirectory);
    assert |plugins| != |activations|;
    assert ListDir(fs, locations[0]) == Unlistable;
    ScanAsWrittenStops(fs, locations, 0);
    assert locations[..0] == [];
    assert EndsWith("a.jar", ArchiveSuffix);
    assert JarFileNames(["a.jar"]) == ["a.jar"];
    assert OpenAll(fs, activations, ["a.jar"]) == [Jar(map[], Child(activations, "a.jar"))];
    PluginsBeforeActivations(fs, agentDirectory);
  }
}
