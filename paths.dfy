/**
 * Paths as the commands see them. A file found by globbing one directory is
 * a directory plus a base name; an entry produced by walking a directory tree
 * carries its path relative to the walk's root as a sequence of components.
 * The cleaning that Go's filepath.Join applies to `.` and `..` is not modelled.
 */
module Paths {
  import opened GoStrings

  /** A file path split as filepath.Dir / filepath.Base split it. */
  datatype FilePath = FilePath(dir: string, name: string)

  /**
   * filepath.Join of a directory and one element: an empty or `.` element
   * adds nothing, and neither does an empty or `.` directory.
   */
  function JoinPath(dir: string, elem: string): string {
    if elem == "" || elem == "." then (if dir == "" then elem else dir)
    else if dir == "" || dir == "." then elem
    else dir + "/" + elem
  }

  /** The path as Go prints it (filepath.Join of directory and base name). */
  function Render(p: FilePath): string {
    JoinPath(p.dir, p.name)
  }

  function RenderAll(ps: seq<FilePath>): (r: seq<string>)
    ensures |r| == |ps|
    ensures forall i :: 0 <= i < |ps| ==> r[i] == Render(ps[i])
  {
    if ps == [] then [] else [Render(ps[0])] + RenderAll(ps[1..])
  }

  /**
   * One entry visited by filepath.Walk: its path relative to the walk's root
   * (the root itself has `rel == []`), whether it is a directory, and its size.
   */
  datatype Entry = Entry(rel: seq<string>, isDir: bool, size: nat)

  /** info.Name(): the last component of the entry's path. */
  function Name(e: Entry): string {
    if e.rel == [] then "" else e.rel[|e.rel| - 1]
  }

  /** The part of a path after its last separator (all of it when it has none). */
  function LastElement(p: string): string {
    if p == [] || p[|p| - 1] == '/' then [] else LastElement(p[..|p| - 1]) + [p[|p| - 1]]
  }

  /**
   * filepath.Base: "." for the empty path, "/" for a path made only of
   * separators, otherwise the last element once trailing separators are removed.
   * It is what os.Lstat reports as the name of the path it is given.
   */
  function Base(p: string): string {
    if p == "" then "."
    else
      var q := TrimRightFunc(p, c => c == '/');
      if q == "" then "/" else LastElement(q)
  }

  /**
   * The base name of a joined path is the last element of what was joined on,
   * whatever the directory: filepath.Base undoes filepath.Join.
   */
  lemma BaseOfJoin(dir: string, elem: string)
    requires elem != "" && elem != "." && elem[|elem| - 1] != '/'
    ensures Base(JoinPath(dir, elem)) == LastElement(elem)
  {
    var p := JoinPath(dir, elem);
    assert p[|p| - 1] == elem[|elem| - 1];
    assert TrimRightFunc(p, c => c == '/') == p;
    if dir != "" && dir != "." {
      LastElementAfterSeparator(dir, elem);
    }
  }

  /** Whatever precedes the last separator does not matter to the last element. */
  lemma {:induction false} LastElementAfterSeparator(dir: string, elem: string)
    ensures LastElement(dir + "/" + elem) == LastElement(elem)
    decreases |elem|
  {
    var p := dir + "/" + elem;
    if elem == [] {
      assert p[|p| - 1] == '/';
    } else if elem[|elem| - 1] != '/' {
      var init := elem[..|elem| - 1];
      assert p[|p| - 1] == elem[|elem| - 1];
      assert p[..|p| - 1] == dir + "/" + init;
      LastElementAfterSeparator(dir, init);
    }
  }

  /** A name without a separator is its own last element. */
  lemma {:induction false} LastElementOfName(name: string)
    requires '/' !in name
    ensures LastElement(name) == name
  {
    if name != [] {
      var init := name[..|name| - 1];
      assert '/' !in init by {
        forall i | 0 <= i < |init| ensures init[i] != '/' {
          assert init[i] == name[i];
        }
      }
      LastElementOfName(init);
      assert init + [name[|name| - 1]] == name;
    }
  }

  /** The relative path as filepath.Rel prints it, components joined by the separator. */
  function RelString(rel: seq<string>): string {
    Join(rel, '/')
  }

  /** filepath.Rel of a walked entry against the walk's root: `.` for the root itself. */
  function RelPath(rel: seq<string>): string {
    if rel == [] then "." else RelString(rel)
  }
}
