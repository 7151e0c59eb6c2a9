/**
 * The plugin class loader: it builds its archive index once, on first use,
 * and answers class, resource and all-resources lookups from it. The
 * filesystem is passed to each lookup; once the index is built, the
 * filesystem is never looked at again.
 */
module AgentLoader {
  import opened Wrappers
  import opened FileSystem
  import opened Naming
  import opened ArchiveIndex
  import opened Resolution
  import opened Streams

  /** Errors the loader raises to its callers. */
  datatype LoaderError =
    | ClassNotFoundException(message: string)
    | AgentPackageNotFoundException

  /** The one-shot enumeration `findResources` returns, over a fixed list of locators. */
  class LocatorEnumeration {
    const elements: seq<string>
    var cursor: nat

    ghost predicate Valid()
      reads this
    {
      cursor <= |elements|
    }

    /** The locators handed out so far, front to back. */
    ghost function Yielded(): seq<string>
      reads this
      requires Valid()
    {
      elements[..cursor]
    }

    constructor (elements: seq<string>)
      ensures Valid() && this.elements == elements && Yielded() == []
    {
      this.elements := elements;
      cursor := 0;
    }

    /** Whether some locator has not been handed out yet. */
    predicate HasMoreElements()
      reads this
      ensures Valid() ==> (HasMoreElements() <==> Yielded() != elements)
    {
      cursor < |elements|
    }

    /** The next locator, or None (NoSuchElementException) once all were handed out. */
    method NextElement() returns (r: Option<string>)
      requires Valid()
      modifies this`cursor
      ensures Valid()
      ensures old(HasMoreElements()) ==> r == Some(elements[old(cursor)]) && Yielded() == old(Yielded()) + [r.value]
      ensures !old(HasMoreElements()) ==> r == None && Yielded() == old(Yielded()) == elements
    {
      if cursor < |elements| {
        r := Some(elements[cursor]);
        cursor := cursor + 1;
      } else {
        r := None;
      }
    }
  }

  class AgentClassLoader {
    /** The locations searched, in order; fixed at construction. */
    const classpath: seq<string>
    /** The archive index: None until the first lookup builds it. */
    var allJars: Option<seq<Jar>>

    /** A loader over "plugins" then "activations" of the agent directory, index not yet built. */
    constructor (agentDirectory: string)
      ensures classpath == DefaultLocations(agentDirectory)
      ensures allJars == None
    {
      classpath := DefaultLocations(agentDirectory);
      allJars := None;
    }

    /**
     * The index, built from `fs` if it is not built yet. Once built it is
     * returned as it is, whatever `fs` now holds.
     */
    method GetAllJars(fs: FileSystem) returns (jars: seq<Jar>)
      modifies this`allJars
      ensures allJars == Some(jars)
      ensures old(allJars).Some? ==> jars == old(allJars).value
      ensures old(allJars).None? ==> jars == Scan(fs, classpath)
    {
      if allJars.None? {
        // the double check under the scan lock collapses to this one test when run sequentially
        allJars := Some([]);
        for i := 0 to |classpath|
          invariant allJars == Some(Scan(fs, classpath[..i]))
        {
          var path := classpath[i];
          ghost var scanned := Scan(fs, classpath[..i]);
          ScanStep(fs, classpath, i);
          match ListDir(fs, path)
          case Listing(names) =>
            var jarFileNames := JarFileNames(names);
            assert scanned + OpenAll(fs, path, jarFileNames[..0]) == scanned + [] == scanned;
            for k := 0 to |jarFileNames|
              invariant allJars == Some(scanned + OpenAll(fs, path, jarFileNames[..k]))
            {
              var file := Child(path, jarFileNames[k]);
              OpenAllStep(fs, path, jarFileNames, k);
              match OpenArchive(fs, file)
              case Some(entries) =>
                assert scanned + OpenAll(fs, path, jarFileNames[..k + 1])
                    == scanned + OpenAll(fs, path, jarFileNames[..k]) + [Jar(entries, file)];
                allJars := Some(allJars.value + [Jar(entries, file)]);
              case None =>
                // the archive cannot be opened: logged and skipped
                ghost var openedSoFar := OpenAll(fs, path, jarFileNames[..k]);
                assert OpenAll(fs, path, jarFileNames[..k + 1]) == openedSoFar + [] == openedSoFar;
            }
            assert jarFileNames[..|jarFileNames|] == jarFileNames;
          case _ =>
            // missing, not a directory or unlistable: nothing to scan
            assert scanned + [] == scanned;
        }
        assert classpath[..|classpath|] == classpath;
      }
      jars := allJars.value;
    }

    /**
     * The bytes of class `name`: from the first archive, in index order,
     * that holds its entry and can read it; an archive whose entry cannot be
     * read is passed over. ClassNotFoundException when no archive succeeds.
     */
    method FindClass(fs: FileSystem, name: string) returns (r: Result<seq<byte>, LoaderError>)
      modifies this`allJars
      ensures old(allJars).Some? ==> allJars == old(allJars)
      ensures old(allJars).None? ==> allJars == Some(Scan(fs, classpath))
      ensures allJars.Some? && r == match FirstReadable(allJars.value, ClassEntryPath(name))
        case Some(data) => Success(data)
        case None => Failure(ClassNotFoundException("Can't find " + name))
    {
      var jars := GetAllJars(fs);
      var path := ClassEntryPath(name);
      for i := 0 to |jars|
        invariant FirstReadable(jars, path) == FirstReadable(jars[i..], path)
      {
        var jar := jars[i];
        assert jars[i..][1..] == jars[i + 1..];
        if path in jar.entries {
          match jar.entries[path]
          case Some(content) =>
            var data := ReadEntryBytes(content);
            return Success(data);
          case None =>
            // reading the entry failed: logged, and the search goes on
        }
      }
      return Failure(ClassNotFoundException("Can't find " + name));
    }

    /** The locator of `name` in the first archive, in index order, that holds it; None if none does. */
    method FindResource(fs: FileSystem, name: string) returns (url: Option<string>)
      modifies this`allJars
      ensures old(allJars).Some? ==> allJars == old(allJars)
      ensures old(allJars).None? ==> allJars == Some(Scan(fs, classpath))
      ensures allJars.Some? && url == FirstLocator(allJars.value, name)
    {
      var jars := GetAllJars(fs);
      for i := 0 to |jars|
        invariant FirstLocator(jars, name) == FirstLocator(jars[i..], name)
      {
        var jar := jars[i];
        assert jars[i..][1..] == jars[i + 1..];
        if name in jar.entries {
          return Some(Locator(jar.sourcePath, name));
        }
      }
      return None;
    }

    /** An enumeration of the locators of `name` in every archive that holds it, in index order. */
    method FindResources(fs: FileSystem, name: string) returns (resources: LocatorEnumeration)
      modifies this`allJars
      ensures old(allJars).Some? ==> allJars == old(allJars)
      ensures old(allJars).None? ==> allJars == Some(Scan(fs, classpath))
      ensures fresh(resources) && resources.Valid() && resources.Yielded() == []
      ensures allJars.Some? && resources.elements == AllLocators(allJars.value, name)
    {
      var allResources: seq<string> := [];
      var jars := GetAllJars(fs);
      for i := 0 to |jars|
        invariant allResources == AllLocators(jars[..i], name)
      {
        var jar := jars[i];
        assert jars[..i + 1][..i] == jars[..i];
        if name in jar.entries {
          allResources := allResources + [Locator(jar.sourcePath, name)];
        }
      }
      assert jars[..|jars|] == jars;
      resources := new LocatorEnumeration(allResources);
    }
  }

  /** The loader class's static DEFAULT_LOADER field and its accessors. */
  class DefaultLoaderHolder {
    var defaultLoader: AgentClassLoader?

    constructor ()
      ensures GetDefault() == null
    {
      defaultLoader := null;
    }

    /** The published default loader; null until a call to InitDefaultLoader succeeds. */
    function GetDefault(): AgentClassLoader?
      reads this
    {
      defaultLoader
    }

    /**
     * The default loader, created on the first successful call and the same
     * object on every call after. `agentDirectory` is what locating the agent
     * package yields, None when it cannot be located; it is consulted only
     * when a loader has to be created, and a failure publishes nothing.
     */
    method InitDefaultLoader(agentDirectory: Option<string>) returns (r: Result<AgentClassLoader, LoaderError>)
      modifies this
      ensures old(defaultLoader) != null ==> r == Success(old(defaultLoader)) && defaultLoader == old(defaultLoader)
      ensures old(defaultLoader) == null && agentDirectory.None? ==>
        r == Failure(AgentPackageNotFoundException) && defaultLoader == null
      ensures old(defaultLoader) == null && agentDirectory.Some? ==>
        r.Success? && fresh(r.value) && defaultLoader == r.value &&
        r.value.classpath == DefaultLocations(agentDirectory.value) && r.value.allJars == None
      ensures r.Success? ==> GetDefault() == r.value
      ensures r.Failure? ==> GetDefault() == null
      ensures old(GetDefault()) != null ==> GetDefault() == old(GetDefault())
    {
      if defaultLoader == null {
        // the double check under the class lock collapses to this one test when run sequentially
        match agentDirectory
        case None =>
          return Failure(AgentPackageNotFoundException);
        case Some(dir) =>
          defaultLoader := new AgentClassLoader(dir);
      }
      return Success(GetDefault());
    }
  }
}
