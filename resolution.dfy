/**
 * What the three lookups answer for a given index, as functions of the
 * index: the first locator, all locators, and the bytes of the first
 * readable class entry. The loader's methods are proved to compute these.
 */
module Resolution {
  import opened Wrappers
  import opened FileSystem
  import opened Naming
  import opened ArchiveIndex

  /** The archive has an entry at `entry` (`getJarEntry` is not null). */
  predicate Holds(jar: Jar, entry: string) {
    entry in jar.entries
  }

  /** The archive has an entry at `entry` and its content can be read. */
  predicate Readable(jar: Jar, entry: string) {
    entry in jar.entries && jar.entries[entry].Some?
  }

  /** The locator of `name` in the first archive that holds it. */
  function FirstLocator(jars: seq<Jar>, name: string): Option<string>
  {
    if jars == [] then None
    else if Holds(jars[0], name) then Some(Locator(jars[0].sourcePath, name))
    else FirstLocator(jars[1..], name)
  }

  /** The locators of `name` in every archive that holds it, in index order. */
  function AllLocators(jars: seq<Jar>, name: string): seq<string>
  {
    if jars == [] then []
    else
      var last := jars[|jars| - 1];
      AllLocators(jars[..|jars| - 1], name) + (if Holds(last, name) then [Locator(last.sourcePath, name)] else [])
  }

  /** The content of `entry` in the first archive that holds it readably. */
  function FirstReadable(jars: seq<Jar>, entry: string): Option<seq<byte>>
  {
    if jars == [] then None
    else if Readable(jars[0], entry) then jars[0].entries[entry]
    else FirstReadable(jars[1..], entry)
  }

  /** The first archive holding `name` gives the locator; later ones are shadowed. */
  lemma {:induction false} FirstLocatorIsFirst(jars: seq<Jar>, name: string, i: nat)
    requires i < |jars| && Holds(jars[i], name)
    requires forall j :: 0 <= j < i ==> !Holds(jars[j], name)
    ensures FirstLocator(jars, name) == Some(Locator(jars[i].sourcePath, name))
  {
    if i > 0 {
      assert !Holds(jars[0], name);
      FirstLocatorIsFirst(jars[1..], name, i - 1);
    }
  }

  /** There is no locator exactly when no archive holds `name`. */
  lemma {:induction false} FirstLocatorNone(jars: seq<Jar>, name: string)
    ensures FirstLocator(jars, name) == None <==> forall i :: 0 <= i < |jars| ==> !Holds(jars[i], name)
  {
    if jars != [] {
      FirstLocatorNone(jars[1..], name);
      assert forall i :: 1 <= i < |jars| ==> jars[i] == jars[1..][i - 1];
    }
  }

  /** Archives of an earlier run shadow those of a later one. */
  lemma {:induction false} FirstLocatorShadows(a: seq<Jar>, b: seq<Jar>, name: string)
    ensures FirstLocator(a + b, name) == if FirstLocator(a, name).Some? then FirstLocator(a, name) else FirstLocator(b, name)
  {
    if a == [] {
      assert a + b == b;
    } else {
      assert (a + b)[0] == a[0];
      assert (a + b)[1..] == a[1..] + b;
      FirstLocatorShadows(a[1..], b, name);
    }
  }

  /** All locators of a concatenated index are those of the first run, then those of the second. */
  lemma {:induction false} AllLocatorsConcat(a: seq<Jar>, b: seq<Jar>, name: string)
    ensures AllLocators(a + b, name) == AllLocators(a, name) + AllLocators(b, name)
  {
    if b == [] {
      assert a + b == a;
    } else {
      var b' := b[..|b| - 1];
      assert (a + b)[..|a + b| - 1] == a + b';
      assert (a + b)[|a + b| - 1] == b[|b| - 1];
      AllLocatorsConcat(a, b', name);
    }
  }

  /**
   * None skipped, in place: the locators are those of the archives before
   * archive `i`, then archive `i`'s own if it holds `name`, then those after.
   */
  lemma AllLocatorsAt(jars: seq<Jar>, name: string, i: nat)
    requires i < |jars|
    ensures AllLocators(jars, name)
         == AllLocators(jars[..i], name)
          + (if Holds(jars[i], name) then [Locator(jars[i].sourcePath, name)] else [])
          + AllLocators(jars[i + 1..], name)
  {
    assert jars == jars[..i + 1] + jars[i + 1..];
    AllLocatorsConcat(jars[..i + 1], jars[i + 1..], name);
    assert jars[..i + 1][..i] == jars[..i];
  }

  /** A locator is listed iff some archive holds `name` and has that locator. */
  lemma {:induction false} AllLocatorsMember(jars: seq<Jar>, name: string, u: string)
    ensures u in AllLocators(jars, name) <==>
      exists i :: 0 <= i < |jars| && Holds(jars[i], name) && u == Locator(jars[i].sourcePath, name)
  {
    if jars != [] {
      var init, n := jars[..|jars| - 1], |jars| - 1;
      AllLocatorsMember(init, name, u);
      if u in AllLocators(jars, name) && u !in AllLocators(init, name) {
        assert Holds(jars[n], name) && u == Locator(jars[n].sourcePath, name);
      }
      if i :| 0 <= i < |jars| && Holds(jars[i], name) && u == Locator(jars[i].sourcePath, name) {
        if i < n {
          assert init[i] == jars[i];
        }
      }
    }
  }

  /** The single lookup answers the head of the list the multiple lookup answers. */
  lemma {:induction false} FirstLocatorIsHead(jars: seq<Jar>, name: string)
    ensures FirstLocator(jars, name) == if AllLocators(jars, name) == [] then None else Some(AllLocators(jars, name)[0])
  {
    if jars != [] {
      var head := if Holds(jars[0], name) then [Locator(jars[0].sourcePath, name)] else [];
      assert jars == [jars[0]] + jars[1..];
      AllLocatorsConcat([jars[0]], jars[1..], name);
      assert [jars[0]][..0] == [];
      assert AllLocators([jars[0]], name) == head;
      FirstLocatorIsHead(jars[1..], name);
    }
  }

  /** The first archive that holds `entry` readably supplies its content. */
  lemma {:induction false} FirstReadableIsFirst(jars: seq<Jar>, entry: string, i: nat)
    requires i < |jars| && Readable(jars[i], entry)
    requires forall j :: 0 <= j < i ==> !Readable(jars[j], entry)
    ensures FirstReadable(jars, entry) == jars[i].entries[entry]
  {
    if i > 0 {
      assert !Readable(jars[0], entry);
      FirstReadableIsFirst(jars[1..], entry, i - 1);
    }
  }

  /** There are no bytes exactly when no archive holds `entry` readably. */
  lemma {:induction false} FirstReadableNone(jars: seq<Jar>, entry: string)
    ensures FirstReadable(jars, entry) == None <==> forall i :: 0 <= i < |jars| ==> !Readable(jars[i], entry)
  {
    if jars != [] {
      FirstReadableNone(jars[1..], entry);
      assert forall i :: 1 <= i < |jars| ==> jars[i] == jars[1..][i - 1];
    }
  }

  /**
   * A matched entry that cannot be read does not end the search: the
   * archive is passed over as if it did not hold the entry at all.
   */
  lemma {:induction false} ReadFailureFallsThrough(before: seq<Jar>, failing: Jar, after: seq<Jar>, entry: string)
    requires entry in failing.entries && failing.entries[entry] == None
    ensures FirstReadable(before + [failing] + after, entry) == FirstReadable(before + after, entry)
  {
    if before == [] {
      assert before + [failing] + after == [failing] + after;
      assert ([failing] + after)[1..] == after;
      assert before + after == after;
    } else {
      assert (before + [failing] + after)[1..] == before[1..] + [failing] + after;
      assert (before + after)[1..] == before[1..] + after;
      ReadFailureFallsThrough(before[1..], failing, after, entry);
    }
  }

  /**
   * Round trip: a class whose entry the first archive holding it can read
   * resolves to exactly that entry's bytes.
   */
  lemma ClassRoundTrip(jars: seq<Jar>, className: string, i: nat, data: seq<byte>)
    requires i < |jars| && ClassEntryPath(className) in jars[i].entries
    requires jars[i].entries[ClassEntryPath(className)] == Some(data)
    requires forall j :: 0 <= j < i ==> !Holds(jars[j], ClassEntryPath(className))
    ensures FirstReadable(jars, ClassEntryPath(className)) == Some(data)
  {
    FirstReadableIsFirst(jars, ClassEntryPath(className), i);
  }
}
