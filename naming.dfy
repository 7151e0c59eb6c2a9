/** The two string compositions of the loader: class entry paths and resource locators. */
module Naming {

  /** `s.replace(from, to)`: every occurrence of `from` becomes `to`. */
  function Replace(s: string, from: char, to: char): (r: string)
    ensures |r| == |s|
    ensures forall i :: 0 <= i < |s| ==> r[i] == (if s[i] == from then to else s[i])
  {
    if s == [] then [] else [if s[0] == from then to else s[0]] + Replace(s[1..], from, to)
  }

  const ClassSuffix: string := ".class"

  /**
   * The archive entry holding class `name`: dots become slashes and
   * ".class" is appended, so `a.b.C` is found at `a/b/C.class`.
   */
  function ClassEntryPath(name: string): (path: string)
    ensures |path| == |name| + 6
    ensures path[|name|..] == ".class"
    ensures forall i :: 0 <= i < |name| ==> path[i] == (if name[i] == '.' then '/' else name[i])
  {
    Replace(name, '.', '/') + ClassSuffix
  }

  /** `"jar:file:" + sourcePath + "!/" + entry`, the locator of an entry inside an archive. */
  function Locator(sourcePath: string, entry: string): (u: string)
    ensures |u| == 9 + |sourcePath| + 2 + |entry|
    ensures u[..9] == "jar:file:" && u[9..9 + |sourcePath|] == sourcePath
    ensures u[9 + |sourcePath|..11 + |sourcePath|] == "!/" && u[11 + |sourcePath|..] == entry
  {
    "jar:file:" + sourcePath + "!/" + entry
  }

}
