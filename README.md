# AgentClassLoader, modelled in Dafny

This project models the discovery-and-resolution engine of the SkyWalking
agent's plugin class loader, `AgentClassLoader`. The loader searches two
locations under the agent directory, `plugins` and then `activations`.
The first lookup builds an index of every `.jar` archive found there, and
the index is built only once. Lookups then answer from that index:

- a class name becomes the bytes of its `.class` entry, taken from the first
  archive that holds the entry and can read it;
- a resource name becomes the locator of the first archive that holds it;
- a resource name becomes the locators of all archives that hold it, in
  index order, handed out by a one-shot enumeration.

The filesystem is a value (`FileSystem.FileSystem`). It maps each directory
path to its state (missing, not a directory, unlistable, or a listing of
file names in order). It maps each file path to the entry table the file
opens to, or to nothing when it cannot be opened as an archive. An entry
whose content cannot be read has no content. Each lookup is given the
filesystem. Once the index is built, the filesystem is not consulted again.

Files:

- `wrappers.dfy`: `Option` and `Result`.
- `filesystem.dfy`: bytes, the filesystem value, path joining and `endsWith`.
- `naming.dfy`: the class-name-to-entry-path translation and the locator string.
- `archive_index.dfy`: the archive record `Jar` and `Scan`, the index one
  complete scan produces. It holds the lemmas on location order,
  listing order, the `.jar` filter and skipped archives. It also holds the
  scan as written, for the finding below.
- `resolution.dfy`: what each lookup answers for a given index
  (`FirstLocator`, `AllLocators`, `FirstReadable`), with lemmas on
  first-match, collect-all, shadowing and fall-through on read failure.
- `streams.dfy`: the byte-by-byte copy of an entry through an input stream
  into a byte buffer.
- `agent_class_loader.dfy`: the class `AgentClassLoader` with its fields
  `classpath` and `allJars`, its lookups, the enumeration returned by
  `findResources`, and the static `DEFAULT_LOADER` (as the class
  `DefaultLoaderHolder`).

A read failure on a matched class entry does not end `findClass`. The
`catch` blocks (`AgentClassLoader.java:130-134`) sit inside the loop over the
archives (`:100`), so the search goes on with the next archive
(`Resolution.ReadFailureFallsThrough`).

## Model

| member | source | states |
|---|---|---|
| `Naming.ClassEntryPath` | apm-sniffer/apm-agent-core/src/main/java/org/apache/skywalking/apm/agent/core/plugin/loader/AgentClassLoader.java:99 | The entry path is six characters longer than `name` and ends with ".class". At each position of `name`, a dot becomes '/' and any other character is kept. |
| `ArchiveIndex.JarFileNames` | apm-sniffer/apm-agent-core/src/main/java/org/apache/skywalking/apm/agent/core/plugin/loader/AgentClassLoader.java:189-194 | A name is kept iff it is a listed name ending with ".jar"; no more names are kept than were listed. |
| `ArchiveIndex.JarFileNamesConcat` | apm-sniffer/apm-agent-core/src/main/java/org/apache/skywalking/apm/agent/core/plugin/loader/AgentClassLoader.java:189-194 | The filter keeps listing order: filtering `a + b` gives the kept names of `a`, then those of `b`. |
| `ArchiveIndex.ListingOrderKept` | apm-sniffer/apm-agent-core/src/main/java/org/apache/skywalking/apm/agent/core/plugin/loader/AgentClassLoader.java:189-204 | Within a location, archives enter the index in raw directory-listing order: a listing `a + b` gives the archives of `a`, then those of `b`. |
| `ArchiveIndex.OpenAllConcat` | apm-sniffer/apm-agent-core/src/main/java/org/apache/skywalking/apm/agent/core/plugin/loader/AgentClassLoader.java:195-204 | Within a location, archives enter the index in listing order: opening two runs of names gives the first run's archives, then the second's. |
| `ArchiveIndex.ScanConcat` | apm-sniffer/apm-agent-core/src/main/java/org/apache/skywalking/apm/agent/core/plugin/loader/AgentClassLoader.java:186-206 | Locations are scanned in order: the index of `a + b` is the index of `a` followed by the index of `b`. |
| `ArchiveIndex.PluginsBeforeActivations` | apm-sniffer/apm-agent-core/src/main/java/org/apache/skywalking/apm/agent/core/plugin/loader/AgentClassLoader.java:91-93 | The loader's index is everything from `plugins`, then everything from `activations`. |
| `ArchiveIndex.OpenFailureSkipped` | apm-sniffer/apm-agent-core/src/main/java/org/apache/skywalking/apm/agent/core/plugin/loader/AgentClassLoader.java:196-203 | A listed file that fails to open contributes nothing. The files after it are still opened, so the result equals opening the names before it and the names after it. |
| `ArchiveIndex.ScanLocationMember` | apm-sniffer/apm-agent-core/src/main/java/org/apache/skywalking/apm/agent/core/plugin/loader/AgentClassLoader.java:188-204 | An archive comes from a location iff the location is a listable directory that lists a ".jar" name opening to that archive. |
| `ArchiveIndex.ScanMember` | apm-sniffer/apm-agent-core/src/main/java/org/apache/skywalking/apm/agent/core/plugin/loader/AgentClassLoader.java:186-206 | An archive is in the index iff some configured location lists a ".jar" name that opens to it. Missing, non-directory and unlistable locations, other names and unopenable files add nothing, and no openable archive is left out. |
| `ArchiveIndex.ScanAsWrittenAgrees` | apm-sniffer/apm-agent-core/src/main/java/org/apache/skywalking/apm/agent/core/plugin/loader/AgentClassLoader.java:186-206 | When no location is an unlistable directory, the scan as written completes with the same index as the corrected scan. |
| `ArchiveIndex.ScanAsWrittenStops` | apm-sniffer/apm-agent-core/src/main/java/org/apache/skywalking/apm/agent/core/plugin/loader/AgentClassLoader.java:188-195 | As written, the first location that is a directory but cannot be listed throws a NullPointerException. The index is then left holding only the archives of the earlier locations. |
| `ArchiveIndex.UnlistablePluginsHidesActivations` | apm-sniffer/apm-agent-core/src/main/java/org/apache/skywalking/apm/agent/core/plugin/loader/AgentClassLoader.java:186-199 | Counterexample: with an unreadable `plugins` directory and a good `activations/a.jar`, the scan as written throws with an empty index. The corrected scan finds the archive. |
| `Naming.Locator` | apm-sniffer/apm-agent-core/src/main/java/org/apache/skywalking/apm/agent/core/plugin/loader/AgentClassLoader.java:147 | The locator is "jar:file:", then the archive's source path, then "!/", then the entry name, and nothing else. |
| `Resolution.FirstLocatorIsFirst` | apm-sniffer/apm-agent-core/src/main/java/org/apache/skywalking/apm/agent/core/plugin/loader/AgentClassLoader.java:141-154 | The single-resource answer is `"jar:file:" + sourcePath + "!/" + name` of the first archive in index order that holds `name`. |
| `Resolution.FirstLocatorNone` | apm-sniffer/apm-agent-core/src/main/java/org/apache/skywalking/apm/agent/core/plugin/loader/AgentClassLoader.java:141-154 | The single-resource answer is null exactly when no archive holds `name`. |
| `Resolution.FirstLocatorShadows` | apm-sniffer/apm-agent-core/src/main/java/org/apache/skywalking/apm/agent/core/plugin/loader/AgentClassLoader.java:143-152 | A match among earlier archives shadows every later archive. The later archives are consulted only when no earlier one matches. |
| `Resolution.AllLocatorsConcat` | apm-sniffer/apm-agent-core/src/main/java/org/apache/skywalking/apm/agent/core/plugin/loader/AgentClassLoader.java:158-165 | All locators of an index `a + b` are those from `a`, then those from `b`. |
| `Resolution.AllLocatorsAt` | apm-sniffer/apm-agent-core/src/main/java/org/apache/skywalking/apm/agent/core/plugin/loader/AgentClassLoader.java:160-165 | No archive is skipped. Each archive that holds `name` puts its locator between the earlier archives' locators and the later archives' locators. |
| `Resolution.AllLocatorsMember` | apm-sniffer/apm-agent-core/src/main/java/org/apache/skywalking/apm/agent/core/plugin/loader/AgentClassLoader.java:160-165 | A locator is listed iff some archive holds `name` and that locator is its locator. |
| `Resolution.FirstLocatorIsHead` | apm-sniffer/apm-agent-core/src/main/java/org/apache/skywalking/apm/agent/core/plugin/loader/AgentClassLoader.java:141-165 | The single-resource answer is the head of the all-resources list, and null when that list is empty. |
| `Resolution.FirstReadableIsFirst` | apm-sniffer/apm-agent-core/src/main/java/org/apache/skywalking/apm/agent/core/plugin/loader/AgentClassLoader.java:100-129 | The class bytes come from the first archive in index order that holds the entry and can read it. |
| `Resolution.FirstReadableNone` | apm-sniffer/apm-agent-core/src/main/java/org/apache/skywalking/apm/agent/core/plugin/loader/AgentClassLoader.java:100-137 | There are no class bytes exactly when no archive holds the entry readably. |
| `Resolution.ReadFailureFallsThrough` | apm-sniffer/apm-agent-core/src/main/java/org/apache/skywalking/apm/agent/core/plugin/loader/AgentClassLoader.java:130-134 | An archive whose matched entry cannot be read is passed over as if it did not hold the entry. The search continues with the next archive. |
| `Resolution.ClassRoundTrip` | apm-sniffer/apm-agent-core/src/main/java/org/apache/skywalking/apm/agent/core/plugin/loader/AgentClassLoader.java:99-115 | When the first archive holding the class's entry can read it, the class resolves to exactly that entry's bytes. |
| `Streams.EntryInputStream.Read` | apm-sniffer/apm-agent-core/src/main/java/org/apache/skywalking/apm/agent/core/plugin/loader/AgentClassLoader.java:112 | Gives the next byte (0..255) and advances, or gives -1 at the end without moving. |
| `Streams.ByteArrayOutputStream.Write` | apm-sniffer/apm-agent-core/src/main/java/org/apache/skywalking/apm/agent/core/plugin/loader/AgentClassLoader.java:113 | Appends the low eight bits of its argument to the buffer. |
| `Streams.ReadEntryBytes` | apm-sniffer/apm-agent-core/src/main/java/org/apache/skywalking/apm/agent/core/plugin/loader/AgentClassLoader.java:109-115 | Copying until -1 yields every byte of the entry, in order, with nothing added. |
| `AgentLoader.AgentClassLoader.constructor` | apm-sniffer/apm-agent-core/src/main/java/org/apache/skywalking/apm/agent/core/plugin/loader/AgentClassLoader.java:87-94 | The classpath is `plugins` then `activations` under the agent directory, and no index is built yet. |
| `AgentLoader.AgentClassLoader.GetAllJars` | apm-sniffer/apm-agent-core/src/main/java/org/apache/skywalking/apm/agent/core/plugin/loader/AgentClassLoader.java:181-214 | Afterwards the index is present. A first call builds exactly `Scan` of the classpath. A later call returns the existing index unchanged, whatever the filesystem holds. |
| `AgentLoader.AgentClassLoader.FindClass` | apm-sniffer/apm-agent-core/src/main/java/org/apache/skywalking/apm/agent/core/plugin/loader/AgentClassLoader.java:97-138 | Returns the bytes `FirstReadable` gives for the class's entry path, or ClassNotFoundException("Can't find " + name). It builds the index only if it is absent and otherwise leaves it unchanged. |
| `AgentLoader.AgentClassLoader.FindResource` | apm-sniffer/apm-agent-core/src/main/java/org/apache/skywalking/apm/agent/core/plugin/loader/AgentClassLoader.java:141-154 | Returns `FirstLocator` of the index, and null when it has none. The index is treated as in `FindClass`. |
| `AgentLoader.AgentClassLoader.FindResources` | apm-sniffer/apm-agent-core/src/main/java/org/apache/skywalking/apm/agent/core/plugin/loader/AgentClassLoader.java:157-179 | Returns a fresh enumeration over `AllLocators` of the index that has handed out nothing yet. The index is treated as in `FindClass`. |
| `AgentLoader.LocatorEnumeration.HasMoreElements` | apm-sniffer/apm-agent-core/src/main/java/org/apache/skywalking/apm/agent/core/plugin/loader/AgentClassLoader.java:170-172 | True exactly while not every element has been handed out. |
| `AgentLoader.LocatorEnumeration.NextElement` | apm-sniffer/apm-agent-core/src/main/java/org/apache/skywalking/apm/agent/core/plugin/loader/AgentClassLoader.java:167-178 | Hands out the elements once, front to back, each appended to what was handed out. Once all are handed out it gives None (NoSuchElementException) and stays exhausted. |
| `AgentLoader.DefaultLoaderHolder.InitDefaultLoader` | apm-sniffer/apm-agent-core/src/main/java/org/apache/skywalking/apm/agent/core/plugin/loader/AgentClassLoader.java:66-85 | With a default loader present, returns that same object and changes nothing. Otherwise it creates and publishes a fresh loader over the agent directory. When the agent package cannot be located, it fails with AgentPackageNotFoundException and publishes nothing. Afterwards `GetDefault` gives the returned loader on success, null on failure, and a loader once published stays published. |

## Findings

| source | as written | input that shows it | evidently intended | confidence | as-written member | corrected member |
|---|---|---|---|---|---|---|
| apm-sniffer/apm-agent-core/src/main/java/org/apache/skywalking/apm/agent/core/plugin/loader/AgentClassLoader.java:188-195 | `File.list` returns null for a directory it cannot read. The `for` loop over that null throws a NullPointerException after `allJars` was already assigned, so every later lookup sees the partial index and the scan is never retried. | `plugins` exists and is a directory but cannot be read; `activations/a.jar` is a good archive. | Skip an unlistable location like a missing one, and keep scanning the later locations. | medium; not executed | `ArchiveIndex.UnlistablePluginsHidesActivations` | `ArchiveIndex.ScanMember` |

## Left out

- AgentLoader.AgentClassLoader.GetAllJars: implements the corrected scan. A location that is a directory but cannot be listed is skipped like a missing one. The source instead throws a NullPointerException at `:195` on the first lookup and keeps the partial index assigned at `:186`; only `ArchiveIndex.ScanAsWritten` models that (see "## Findings").
- Locking: the scan lock and the class-level `synchronized` block are not modelled. Both double-checked patterns are modelled sequentially as "build if absent". Races between threads are not covered.
- `defineClass` and parent-first delegation to the parent class loader are JVM services. `FindClass` ends at the bytes it would hand to `defineClass`, and the constructor's parent argument is not modelled.
- Files, `JarFile`, `URL.openStream` and stream closing are replaced by the filesystem value. A class entry's bytes come from the entry table the archive opened to, not from reopening the file through its URL. A failure to open the stream and a failure in mid-read are both the entry's missing content.
- `MalformedURLException` is never raised: locators are plain strings. So `findResource`'s `continue` on it and `findResources` propagating it are not modelled.
- `getAbsolutePath` is the joined path `dir + "/" + name`. The agent directory is taken to be absolute already.
- `JarFile.getJarEntry` also finds a directory entry `name + "/"` when `name` itself is absent. The model looks entries up by exact name only.
- `AgentPackagePath.getPath` is not part of this model. Its result is the `Option<string>` argument of `InitDefaultLoader`, where None stands for `AgentPackageNotFoundException`.
- Logging has no functional effect and is left out.
- Bytes are 0..255. Java's signed `byte` is the same eight bits and is not modelled separately.
