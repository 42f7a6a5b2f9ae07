/** The pieces of Rust's `Path` that the converter relies on: the final
    component (`file_name`), its split at the last dot (`file_stem`,
    `extension`) and `join`. Paths are strings with '/' as separator. */
module Paths {
  import opened Outcomes

  const Sep: char := '/'

  /** Index where the final component starts: just past the last separator. */
  function ComponentStart(path: string): (k: nat)
    ensures k <= |path|
    ensures forall i | k <= i < |path| :: path[i] != Sep
    ensures k > 0 ==> path[k - 1] == Sep
  {
    if path == [] then 0
    else if path[|path| - 1] == Sep then |path|
    else ComponentStart(path[..|path| - 1])
  }

  /** The file name of a path: its final component, absent for the root,
      for a trailing separator and for the special components "." and "..". */
  function FileName(path: string): (r: Option<string>)
    ensures r.Some? ==> Sep !in r.value && r.value !in {"", ".", ".."}
  {
    var c := path[ComponentStart(path)..];
    if c in {"", ".", ".."} then None else Some(c)
  }

  /** Index of the last '.' of `name`, if any. */
  function LastDot(name: string): (r: Option<nat>)
    ensures r.Some? ==> r.value < |name| && name[r.value] == '.'
                        && forall i | r.value < i < |name| :: name[i] != '.'
    ensures r.None? ==> '.' !in name
  {
    if name == [] then None
    else if name[|name| - 1] == '.' then Some(|name| - 1)
    else LastDot(name[..|name| - 1])
  }

  /** A file name split at its last dot: a dot at the very start does not
      count, so ".hidden" has no extension. */
  function SplitAtDot(name: string): (r: (string, Option<string>))
  {
    match LastDot(name)
    case Some(i) => if i == 0 then (name, None) else (name[..i], Some(name[i + 1..]))
    case None => (name, None)
  }

  /** `Path::extension`. */
  function Extension(path: string): Option<string>
  {
    match FileName(path)
    case Some(n) => SplitAtDot(n).1
    case None => None
  }

  /** `Path::file_stem`. */
  function FileStem(path: string): Option<string>
  {
    match FileName(path)
    case Some(n) => Some(SplitAtDot(n).0)
    case None => None
  }

  /** `Path::join`: an absolute second part replaces the first; otherwise a
      separator is put between them unless the first is empty or already
      ends with one. */
  function Join(dir: string, name: string): (r: string)
    ensures |r| >= |name|
    ensures |name| > 0 && name[0] != Sep ==> r[|r| - |name|..] == name
  {
    if |name| > 0 && name[0] == Sep then name
    else if dir == [] || dir[|dir| - 1] == Sep then dir + name
    else dir + [Sep] + name
  }

  /** A path that has an extension splits into stem, dot and extension; the
      stem is not empty and the extension holds no dot. */
  lemma {:induction false} StemDotExtension(path: string)
    requires Extension(path).Some?
    ensures FileStem(path).Some? && FileStem(path).value != ""
    ensures FileName(path) == Some(FileStem(path).value + "." + Extension(path).value)
    ensures '.' !in Extension(path).value
  {
    var n := FileName(path).value;
    var i := LastDot(n).value;
    assert n == n[..i] + "." + n[i + 1..];
  }

  /** A path has an extension exactly when its file name holds a dot that is
      not its first character; when it has none, the stem is the whole name. */
  lemma {:induction false} ExtensionIffInnerDot(path: string)
    requires FileName(path).Some?
    ensures Extension(path).Some? <==> exists i | 0 < i < |FileName(path).value| :: FileName(path).value[i] == '.'
    ensures Extension(path).None? ==> FileStem(path) == FileName(path)
  {
    var n := FileName(path).value;
    match LastDot(n)
    case None =>
    case Some(d) =>
      if d == 0 {
        assert forall i | 0 < i < |n| :: n[i] != '.';
      }
  }

  /** Joining a directory with a plain file name gives a path whose file
      name is exactly that name. */
  lemma {:induction false} FileNameOfJoin(dir: string, name: string)
    requires Sep !in name && name !in {"", ".", ".."}
    ensures FileName(Join(dir, name)) == Some(name)
  {
    var p := Join(dir, name);
    var k := |p| - |name|;
    assert p[k..] == name;
    assert k > 0 ==> p[k - 1] == Sep;
    ComponentStartAt(p, k);
  }

  /** When position k follows a separator (or is 0) and nothing after it is a
      separator, the final component starts at k. */
  lemma {:induction false} ComponentStartAt(path: string, k: nat)
    requires k <= |path|
    requires k > 0 ==> path[k - 1] == Sep
    requires forall i | k <= i < |path| :: path[i] != Sep
    ensures ComponentStart(path) == k
  {
    if path != [] && path[|path| - 1] != Sep {
      ComponentStartAt(path[..|path| - 1], k);
    }
  }

  /** When position d holds a dot and none follows it, d is the last dot. */
  lemma {:induction false} LastDotAt(name: string, d: nat)
    requires d < |name| && name[d] == '.'
    requires forall i | d < i < |name| :: name[i] != '.'
    ensures LastDot(name) == Some(d)
  {
    if name[|name| - 1] != '.' {
      LastDotAt(name[..|name| - 1], d);
    }
  }
}
