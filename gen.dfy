/**
 * `proto gen <sdk>` (cmd/proto/commands/gen.go): the go_package rewrite of
 * each proto file, the module-path scan of go.mod, and the order in which the
 * command checks its inputs before it runs protoc.
 */
module Gen {
  import opened Wrappers
  import opened GoStrings
  import opened Paths
  import opened ProtoConfig

  const GoPackagePrefix: string := "option go_package"
  const PackagePrefix: string := "package "
  const ModulePrefix: string := "module "

  /** A line whose trimmed form starts with `option go_package`. */
  predicate IsGoPackageOption(line: string) {
    HasPrefix(TrimSpace(line), GoPackagePrefix)
  }

  /** A line whose trimmed form starts with `package `. */
  predicate IsPackageLine(line: string) {
    HasPrefix(TrimSpace(line), PackagePrefix)
  }

  /** The line the rewrite inserts. */
  function GoPackageLine(modulePath: string): string {
    "option go_package = \"" + modulePath + "\";"
  }

  predicate HasPackageLine(lines: seq<string>) {
    exists i :: 0 <= i < |lines| && IsPackageLine(lines[i])
  }

  /** No line is both a go_package option and a package declaration. */
  lemma OptionIsNotPackage(line: string)
    ensures !(IsGoPackageOption(line) && IsPackageLine(line))
  {
    var t := TrimSpace(line);
    if HasPrefix(t, GoPackagePrefix) {
      assert t[0] == GoPackagePrefix[0];
    }
  }

  /** The inserted line is itself a go_package option, whatever the module path. */
  lemma GoPackageLineIsOption(modulePath: string)
    ensures IsGoPackageOption(GoPackageLine(modulePath))
    ensures !IsPackageLine(GoPackageLine(modulePath))
  {
    var l := GoPackageLine(modulePath);
    assert l[0] == 'o' && l[|l| - 1] == ';';
    TrimFuncNoop(l, IsSpace);
    TrimSpaceIsTrimFunc(l);
    assert l[..|GoPackagePrefix|] == GoPackagePrefix;
    OptionIsNotPackage(l);
  }

  /** What Kept keeps of one line. */
  function LineKept(line: string): seq<string> {
    if IsGoPackageOption(line) then [] else [line]
  }

  /** The lines that are not go_package options, in their original order. */
  function Kept(lines: seq<string>): (r: seq<string>)
    ensures |r| <= |lines|
    ensures forall i :: 0 <= i < |r| ==> !IsGoPackageOption(r[i])
  {
    if lines == [] then []
    else if IsGoPackageOption(lines[0]) then Kept(lines[1..])
    else [lines[0]] + Kept(lines[1..])
  }

  /** How many lines are go_package options. */
  function OptionCount(lines: seq<string>): nat {
    if lines == [] then 0
    else (if IsGoPackageOption(lines[0]) then 1 else 0) + OptionCount(lines[1..])
  }

  /**
   * The rewrite loop of gen.go as a recursion over the remaining lines;
   * `found` is the loop's packageLineFound flag.
   */
  function RewriteFrom(lines: seq<string>, modulePath: string, found: bool): seq<string> {
    if lines == [] then []
    else if IsGoPackageOption(lines[0]) then RewriteFrom(lines[1..], modulePath, found)
    else if IsPackageLine(lines[0]) && !found then
      [lines[0], GoPackageLine(modulePath)] + RewriteFrom(lines[1..], modulePath, true)
    else [lines[0]] + RewriteFrom(lines[1..], modulePath, found)
  }

  /** The rewrite of a whole file's lines. */
  function Rewrite(lines: seq<string>, modulePath: string): seq<string> {
    RewriteFrom(lines, modulePath, false)
  }

  /** The rewrite of a file's text: split on newlines, rewrite, join again. */
  function RewriteProto(content: string, modulePath: string): string {
    Join(Rewrite(Split(content, '\n'), modulePath), '\n')
  }

  /** The rewrite loop, as gen.go runs it on the lines of one file. */
  method RewriteLines(lines: seq<string>, modulePath: string) returns (newLines: seq<string>)
    ensures newLines == Rewrite(lines, modulePath)
  {
    newLines := [];
    var found := false;
    var i := 0;
    ghost var target := Rewrite(lines, modulePath);
    while i < |lines|
      invariant 0 <= i <= |lines|
      invariant newLines + RewriteFrom(lines[i..], modulePath, found) == target
    {
      var line := lines[i];
      ghost var out, foundAfter := RewriteStep(lines, i, modulePath, found, newLines);
      if IsGoPackageOption(line) {
        i := i + 1;
        continue;
      }
      if IsPackageLine(line) && !found {
        newLines := newLines + [line, GoPackageLine(modulePath)];
        found := true;
      } else {
        newLines := newLines + [line];
      }
      i := i + 1;
    }
    assert lines[i..] == [];
  }

  /** One step of the rewrite loop: the lines line `i` contributes and the flag after it. */
  lemma RewriteStep(lines: seq<string>, i: nat, modulePath: string, found: bool, done: seq<string>)
    returns (out: seq<string>, foundAfter: bool)
    requires i < |lines|
    ensures IsGoPackageOption(lines[i]) ==> out == [] && foundAfter == found
    ensures !IsGoPackageOption(lines[i]) && IsPackageLine(lines[i]) && !found ==>
      out == [lines[i], GoPackageLine(modulePath)] && foundAfter
    ensures !IsGoPackageOption(lines[i]) && !(IsPackageLine(lines[i]) && !found) ==>
      out == [lines[i]] && foundAfter == found
    ensures done + RewriteFrom(lines[i..], modulePath, found) == (done + out) + RewriteFrom(lines[i + 1..], modulePath, foundAfter)
  {
    assert lines[i..][0] == lines[i] && lines[i..][1..] == lines[i + 1..];
    if IsGoPackageOption(lines[i]) {
      out, foundAfter := [], found;
    } else if IsPackageLine(lines[i]) && !found {
      out, foundAfter := [lines[i], GoPackageLine(modulePath)], true;
    } else {
      out, foundAfter := [lines[i]], found;
    }
    AppendAssoc(done, out, RewriteFrom(lines[i + 1..], modulePath, foundAfter));
  }

  // ---------------------------------------------------------------------------
  // What the rewrite does to the lines of a file

  lemma {:induction false} KeptAppend(a: seq<string>, b: seq<string>)
    ensures Kept(a + b) == Kept(a) + Kept(b)
  {
    if a != [] {
      KeptFirst(a, b);
      KeptAppend(a[1..], b);
      AppendAssoc(LineKept(a[0]), Kept(a[1..]), Kept(b));
    } else {
      assert a + b == b;
    }
  }

  /** Once the package line has been seen, the rewrite only drops go_package options. */
  lemma {:induction false} RewriteAfterFoundKeeps(lines: seq<string>, modulePath: string)
    ensures RewriteFrom(lines, modulePath, true) == Kept(lines)
  {
    if lines != [] {
      RewriteAfterFoundKeeps(lines[1..], modulePath);
    }
  }

  /**
   * With a package line at `p` and none before it, the rewrite is the kept
   * lines up to and including that line, then the go_package line, then the
   * kept lines after it.
   */
  lemma RewriteInsertsAfterFirstPackage(lines: seq<string>, modulePath: string, p: nat)
    requires p < |lines| && IsPackageLine(lines[p])
    requires forall j :: 0 <= j < p ==> !IsPackageLine(lines[j])
    ensures Rewrite(lines, modulePath)
         == Kept(lines[..p + 1]) + [GoPackageLine(modulePath)] + Kept(lines[p + 1..])
  {
    var before, after := lines[..p], lines[p..];
    assert lines == before + after;
    forall j | 0 <= j < |before| ensures !IsPackageLine(before[j]) {
      assert before[j] == lines[j];
    }
    RewriteBeforePackage(before, after, modulePath);
    assert after[0] == lines[p] && after[..1] == [lines[p]] && after[1..] == lines[p + 1..];
    RewriteAtPackageLine(after, modulePath);
    assert lines[..p + 1] == before + [lines[p]];
    KeptAppend(before, [lines[p]]);
  }

  /** A prefix without package lines only loses its go_package options, and the rewrite of the rest is unaffected. */
  lemma {:induction false} RewriteBeforePackage(a: seq<string>, b: seq<string>, modulePath: string)
    requires forall j :: 0 <= j < |a| ==> !IsPackageLine(a[j])
    ensures RewriteFrom(a + b, modulePath, false) == Kept(a) + RewriteFrom(b, modulePath, false)
  {
    if a == [] {
      assert a + b == b;
    } else {
      var rest := a[1..];
      forall j | 0 <= j < |rest| ensures !IsPackageLine(rest[j]) {
        assert rest[j] == a[j + 1];
      }
      RewriteBeforePackage(rest, b, modulePath);
      RewriteBeforePackageStep(a, b, modulePath);
    }
  }

  lemma KeptFirst(a: seq<string>, b: seq<string>)
    requires a != []
    ensures Kept(a + b) == LineKept(a[0]) + Kept(a[1..] + b)
  {
    assert (a + b)[0] == a[0] && (a + b)[1..] == a[1..] + b;
  }

  /** The step of RewriteBeforePackage: a first line that is no package line is kept or dropped as an option. */
  lemma RewriteBeforePackageStep(a: seq<string>, b: seq<string>, modulePath: string)
    requires a != [] && !IsPackageLine(a[0])
    requires RewriteFrom(a[1..] + b, modulePath, false) == Kept(a[1..]) + RewriteFrom(b, modulePath, false)
    ensures RewriteFrom(a + b, modulePath, false) == Kept(a) + RewriteFrom(b, modulePath, false)
  {
    RewriteFromFirst(a, b, modulePath);
    assert Kept(a) == LineKept(a[0]) + Kept(a[1..]);
    AppendAssoc(LineKept(a[0]), Kept(a[1..]), RewriteFrom(b, modulePath, false));
  }

  /** Before the package line, the first line of `a + b` is dropped if it is a go_package option and kept otherwise. */
  lemma RewriteFromFirst(a: seq<string>, b: seq<string>, modulePath: string)
    requires a != [] && !IsPackageLine(a[0])
    ensures RewriteFrom(a + b, modulePath, false) == LineKept(a[0]) + RewriteFrom(a[1..] + b, modulePath, false)
  {
    assert (a + b)[0] == a[0] && (a + b)[1..] == a[1..] + b;
  }

  /** At a first line that is a package line, the go_package line follows it and the rest only loses option lines. */
  lemma RewriteAtPackageLine(lines: seq<string>, modulePath: string)
    requires lines != [] && IsPackageLine(lines[0])
    ensures Rewrite(lines, modulePath) == Kept(lines[..1]) + [GoPackageLine(modulePath)] + Kept(lines[1..])
  {
    OptionIsNotPackage(lines[0]);
    RewriteAfterFoundKeeps(lines[1..], modulePath);
    assert lines[..1] == [lines[0]];
    assert Kept(lines[..1]) == [lines[0]];
  }

  /** Without a package line nothing is inserted: the rewrite only drops go_package options. */
  lemma {:induction false} RewriteWithoutPackage(lines: seq<string>, modulePath: string, found: bool)
    requires !HasPackageLine(lines)
    ensures RewriteFrom(lines, modulePath, found) == Kept(lines)
    ensures OptionCount(RewriteFrom(lines, modulePath, found)) == 0
  {
    if lines != [] {
      assert !IsPackageLine(lines[0]);
      assert !HasPackageLine(lines[1..]) by {
        forall i | 0 <= i < |lines[1..]| ensures !IsPackageLine(lines[1..][i]) {
          assert lines[1..][i] == lines[i + 1];
        }
      }
      RewriteWithoutPackage(lines[1..], modulePath, found);
    }
    NoOptionsInKept(Kept(lines));
  }

  lemma {:induction false} NoOptionsInKept(lines: seq<string>)
    requires forall i :: 0 <= i < |lines| ==> !IsGoPackageOption(lines[i])
    ensures OptionCount(lines) == 0 && Kept(lines) == lines
  {
    if lines != [] {
      NoOptionsInKept(lines[1..]);
    }
  }

  /** Every line the rewrite outputs is an input line or the inserted go_package line. */
  lemma {:induction false} RewriteLinesFrom(lines: seq<string>, modulePath: string, found: bool)
    ensures forall line :: line in RewriteFrom(lines, modulePath, found) ==>
      line in lines || line == GoPackageLine(modulePath)
  {
    if lines != [] {
      var rest := lines[1..];
      var f := if IsPackageLine(lines[0]) && !IsGoPackageOption(lines[0]) then true else found;
      RewriteLinesFrom(rest, modulePath, f);
      var tail := RewriteFrom(rest, modulePath, f);
      var head := RewriteFrom(lines, modulePath, found)[..|RewriteFrom(lines, modulePath, found)| - |tail|];
      assert RewriteFrom(lines, modulePath, found) == head + tail;
      assert forall i :: 0 <= i < |head| ==> head[i] == lines[0] || head[i] == GoPackageLine(modulePath);
      forall line | line in rest ensures line in lines {
        var j :| 0 <= j < |rest| && rest[j] == line;
        assert lines[j + 1] == line;
      }
    }
  }

  /**
   * The only go_package option left in the output is the inserted one, and it
   * sits directly after a package line.
   */
  lemma RewriteDropsOldOptions(lines: seq<string>, modulePath: string)
    ensures var r := Rewrite(lines, modulePath);
      forall i :: 0 <= i < |r| && IsGoPackageOption(r[i]) ==>
        r[i] == GoPackageLine(modulePath) && 0 < i && IsPackageLine(r[i - 1])
  {
    var r := Rewrite(lines, modulePath);
    if HasPackageLine(lines) {
      var p := FirstPackageIndex(lines);
      RewriteInsertsAfterFirstPackage(lines, modulePath, p);
      var a := Kept(lines[..p + 1]);
      assert lines[..p + 1] == lines[..p] + [lines[p]];
      KeptAppend(lines[..p], [lines[p]]);
      OptionIsNotPackage(lines[p]);
      assert a[|a| - 1] == lines[p];
      forall i | 0 <= i < |r| && i != |a| ensures !IsGoPackageOption(r[i]) {
        NoOptionBesideInserted(a, GoPackageLine(modulePath), Kept(lines[p + 1..]), i);
      }
      assert r[|a|] == GoPackageLine(modulePath) && r[|a| - 1] == lines[p];
    } else {
      RewriteWithoutPackage(lines, modulePath, false);
    }
  }

  /** Around one inserted line, two runs of non-option lines hold no option. */
  lemma NoOptionBesideInserted(a: seq<string>, inserted: string, b: seq<string>, i: int)
    requires forall j :: 0 <= j < |a| ==> !IsGoPackageOption(a[j])
    requires forall j :: 0 <= j < |b| ==> !IsGoPackageOption(b[j])
    requires 0 <= i < |a| + 1 + |b| && i != |a|
    ensures !IsGoPackageOption((a + [inserted] + b)[i])
  {
    if i < |a| {
      assert (a + [inserted] + b)[i] == a[i];
    } else {
      assert (a + [inserted] + b)[i] == b[i - |a| - 1];
    }
  }

  /** The index of the first package line. */
  function FirstPackageIndex(lines: seq<string>): (p: nat)
    requires HasPackageLine(lines)
    ensures p < |lines| && IsPackageLine(lines[p])
    ensures forall j :: 0 <= j < p ==> !IsPackageLine(lines[j])
  {
    if IsPackageLine(lines[0]) then 0
    else
      assert HasPackageLine(lines[1..]) by {
        var i :| 0 <= i < |lines| && IsPackageLine(lines[i]);
        assert lines[1..][i - 1] == lines[i];
      }
      1 + FirstPackageIndex(lines[1..])
  }

  /** Every line that is not a go_package option survives, unchanged and in order. */
  lemma {:induction false} RewriteKeepsOtherLines(lines: seq<string>, modulePath: string, found: bool)
    ensures Kept(RewriteFrom(lines, modulePath, found)) == Kept(lines)
  {
    if lines != [] {
      RewriteKeepsOtherLines(lines[1..], modulePath, found);
      RewriteKeepsOtherLines(lines[1..], modulePath, true);
      GoPackageLineIsOption(modulePath);
      var rest := RewriteFrom(lines[1..], modulePath, true);
      assert ([lines[0], GoPackageLine(modulePath)] + rest)[1..] == [GoPackageLine(modulePath)] + rest;
      assert ([GoPackageLine(modulePath)] + rest)[1..] == rest;
    }
  }

  /**
   * Exactly one go_package option is in the output when the input has a
   * package line, and none otherwise.
   */
  lemma {:induction false} RewriteInsertsOnce(lines: seq<string>, modulePath: string, found: bool)
    ensures OptionCount(RewriteFrom(lines, modulePath, found))
         == if !found && HasPackageLine(lines) then 1 else 0
  {
    if lines == [] {
    } else {
      var rest := lines[1..];
      HasPackageLineFirstOrRest(lines);
      OptionIsNotPackage(lines[0]);
      GoPackageLineIsOption(modulePath);
      if IsGoPackageOption(lines[0]) {
        RewriteInsertsOnce(rest, modulePath, found);
      } else if IsPackageLine(lines[0]) && !found {
        RewriteInsertsOnce(rest, modulePath, true);
        var tail := RewriteFrom(rest, modulePath, true);
        OptionCountCons(GoPackageLine(modulePath), tail);
        OptionCountCons(lines[0], [GoPackageLine(modulePath)] + tail);
        assert [lines[0], GoPackageLine(modulePath)] + tail == [lines[0]] + ([GoPackageLine(modulePath)] + tail);
      } else {
        RewriteInsertsOnce(rest, modulePath, found);
        OptionCountCons(lines[0], RewriteFrom(rest, modulePath, found));
      }
    }
  }

  lemma OptionCountCons(line: string, tail: seq<string>)
    ensures OptionCount([line] + tail) == (if IsGoPackageOption(line) then 1 else 0) + OptionCount(tail)
  {
    assert ([line] + tail)[0] == line && ([line] + tail)[1..] == tail;
  }

  /** A file has a package line exactly when its first line is one or the rest has one. */
  lemma HasPackageLineFirstOrRest(lines: seq<string>)
    requires lines != []
    ensures HasPackageLine(lines) <==> IsPackageLine(lines[0]) || HasPackageLine(lines[1..])
  {
    var rest := lines[1..];
    if HasPackageLine(lines) && !IsPackageLine(lines[0]) {
      var i :| 0 <= i < |lines| && IsPackageLine(lines[i]);
      assert rest[i - 1] == lines[i];
    }
    if HasPackageLine(rest) {
      var i :| 0 <= i < |rest| && IsPackageLine(rest[i]);
      assert lines[i + 1] == rest[i];
    }
  }

  /** The rewrite only looks at the lines that are not go_package options. */
  lemma {:induction false} RewriteIgnoresOptions(lines: seq<string>, modulePath: string, found: bool)
    ensures RewriteFrom(lines, modulePath, found) == RewriteFrom(Kept(lines), modulePath, found)
  {
    if lines != [] {
      RewriteIgnoresOptions(lines[1..], modulePath, found);
      RewriteIgnoresOptions(lines[1..], modulePath, true);
      var k := Kept(lines[1..]);
      assert !IsGoPackageOption(lines[0]) ==> ([lines[0]] + k)[1..] == k;
    }
  }

  /** For a fixed module path, rewriting an already rewritten file changes nothing. */
  lemma RewriteIdempotent(lines: seq<string>, modulePath: string)
    ensures Rewrite(Rewrite(lines, modulePath), modulePath) == Rewrite(lines, modulePath)
  {
    var r := Rewrite(lines, modulePath);
    RewriteIgnoresOptions(r, modulePath, false);
    RewriteKeepsOtherLines(lines, modulePath, false);
    RewriteIgnoresOptions(lines, modulePath, false);
  }

  /** A file with neither package lines nor go_package options keeps all its lines. */
  lemma RewriteIdentity(lines: seq<string>, modulePath: string)
    requires forall i :: 0 <= i < |lines| ==> !IsPackageLine(lines[i]) && !IsGoPackageOption(lines[i])
    ensures Rewrite(lines, modulePath) == lines
  {
    RewriteWithoutPackage(lines, modulePath, false);
    NoOptionsInKept(lines);
  }

  /** ... and so its text comes back byte for byte. */
  lemma RewriteProtoIdentity(content: string, modulePath: string)
    requires forall line :: line in Split(content, '\n') ==> !IsPackageLine(line) && !IsGoPackageOption(line)
    ensures RewriteProto(content, modulePath) == content
  {
    RewriteIdentity(Split(content, '\n'), modulePath);
    JoinSplit(content, '\n');
  }

  /**
   * Rewriting a file's text twice gives the text of rewriting it once, for a
   * module path without a newline (as every module path read from go.mod is).
   */
  lemma RewriteProtoIdempotent(content: string, modulePath: string)
    requires '\n' !in modulePath
    ensures RewriteProto(RewriteProto(content, modulePath), modulePath) == RewriteProto(content, modulePath)
  {
    var lines := Split(content, '\n');
    var r := Rewrite(lines, modulePath);
    if r == [] {
      assert RewriteProto(content, modulePath) == "";
      assert Split("", '\n') == [""];
      assert !HasPrefix(TrimSpace(""), GoPackagePrefix);
      assert !HasPrefix(TrimSpace(""), PackagePrefix);
      assert [""][1..] == [];
      assert Rewrite([""], modulePath) == [""] + Rewrite([], modulePath);
    } else {
      RewriteLinesFrom(lines, modulePath, false);
      forall i | 0 <= i < |r| ensures '\n' !in r[i] {
        assert r[i] in r;
        if r[i] != GoPackageLine(modulePath) {
          assert r[i] in lines;
          var j :| 0 <= j < |lines| && lines[j] == r[i];
        }
      }
      SplitJoin(r, '\n');
      RewriteIdempotent(lines, modulePath);
    }
  }

  // ---------------------------------------------------------------------------
  // The module path read from go.mod

  /** A go.mod line whose trimmed form starts with `module `. */
  predicate IsModuleLine(line: string) {
    HasPrefix(TrimSpace(line), ModulePrefix)
  }

  /**
   * The value gen.go takes from a module line. The prefix is removed from the
   * line as written, before trimming, so an indented line keeps its `module `.
   */
  function ModuleValue(line: string): string {
    TrimSpace(TrimPrefix(line, ModulePrefix))
  }

  /** The module path of the first module line, or "" when there is none. */
  function ModulePathOf(lines: seq<string>): string {
    if lines == [] then ""
    else if IsModuleLine(lines[0]) then ModuleValue(lines[0])
    else ModulePathOf(lines[1..])
  }

  /** The scan of go.mod's lines, stopping at the first module line. */
  method ScanModulePath(lines: seq<string>) returns (modulePath: string)
    ensures modulePath == ModulePathOf(lines)
  {
    modulePath := "";
    var i := 0;
    while i < |lines|
      invariant 0 <= i <= |lines|
      invariant ModulePathOf(lines[i..]) == ModulePathOf(lines)
    {
      assert lines[i..][0] == lines[i] && lines[i..][1..] == lines[i + 1..];
      if IsModuleLine(lines[i]) {
        modulePath := ModuleValue(lines[i]);
        break;
      }
      i := i + 1;
    }
  }

  /** The first module line decides the module path; the lines after it are ignored. */
  lemma {:induction false} ModulePathIsFirstModuleLine(lines: seq<string>, i: nat)
    requires i < |lines| && IsModuleLine(lines[i])
    requires forall j :: 0 <= j < i ==> !IsModuleLine(lines[j])
    ensures ModulePathOf(lines) == ModuleValue(lines[i])
  {
    if i > 0 {
      ModulePathIsFirstModuleLine(lines[1..], i - 1);
    }
  }

  /** Without a module line the module path is empty. */
  lemma {:induction false} ModulePathWithoutModuleLine(lines: seq<string>)
    requires forall j :: 0 <= j < |lines| ==> !IsModuleLine(lines[j])
    ensures ModulePathOf(lines) == ""
  {
    if lines != [] {
      ModulePathWithoutModuleLine(lines[1..]);
    }
  }

  /** An ordinary module line gives the path after `module `. */
  lemma ModulePathPlain()
    ensures ModulePathOf(["module example.com/app", "go 1.21"]) == "example.com/app"
  {
    var line := "module example.com/app";
    assert line[0] == 'm' && line[|line| - 1] == 'p' && !IsSpace('m') && !IsSpace('p');
    TrimFuncNoop(line, IsSpace);
    TrimSpaceIsTrimFunc(line);
    assert IsModuleLine(line);
    var path := "example.com/app";
    assert path[0] == 'e' && path[|path| - 1] == 'p' && !IsSpace('e');
    TrimFuncNoop(path, IsSpace);
    TrimSpaceIsTrimFunc(path);
  }

  /** An indented module line keeps its `module ` word in the path. */
  lemma ModulePathIndented()
    ensures ModulePathOf(["  module example.com/app"]) == "module example.com/app"
  {
    var line := "  module example.com/app";
    IndentedModuleLineTrims(line);
    assert IsModuleLine(line);
    assert !HasPrefix(line, ModulePrefix);
  }

  lemma IndentedModuleLineTrims(line: string)
    requires line == "  module example.com/app"
    ensures TrimSpace(line) == "module example.com/app"
  {
    assert IsSpace(line[0]) && line[1..][0] == line[1] && IsSpace(line[1]);
    assert TrimLeftSpace(line) == TrimLeftSpace(line[1..]);
    assert line[1..][1..] == line[2..];
    assert TrimLeftSpace(line[1..]) == TrimLeftSpace(line[2..]);
    var m := "module example.com/app";
    assert line[2..] == m;
    assert m[0] == 'm' && m[|m| - 1] == 'p' && !IsSpace('m') && !IsSpace('p');
    TrimFuncNoop(m, IsSpace);
    TrimSpaceIsTrimFunc(m);
  }

  /** A module path read from a file split into lines holds no newline. */
  lemma ModulePathHasNoNewline(content: string)
    ensures '\n' !in ModulePathOf(Split(content, '\n'))
  {
    var lines := Split(content, '\n');
    if exists i :: 0 <= i < |lines| && IsModuleLine(lines[i]) {
      var i := FirstModuleLineIndex(lines);
      ModulePathIsFirstModuleLine(lines, i);
      var t := TrimPrefix(lines[i], ModulePrefix);
      assert forall c :: c in t ==> c in lines[i];
      TrimSpaceIsTrimFunc(t);
      TrimLeftFuncSpec(t, IsSpace);
      TrimRightFuncSpec(TrimLeftFunc(t, IsSpace), IsSpace);
    } else {
      ModulePathWithoutModuleLine(lines);
    }
  }

  function FirstModuleLineIndex(lines: seq<string>): (i: nat)
    requires exists i :: 0 <= i < |lines| && IsModuleLine(lines[i])
    ensures i < |lines| && IsModuleLine(lines[i])
    ensures forall j :: 0 <= j < i ==> !IsModuleLine(lines[j])
  {
    if IsModuleLine(lines[0]) then 0
    else
      assert exists i :: 0 <= i < |lines[1..]| && IsModuleLine(lines[1..][i]) by {
        var i :| 0 <= i < |lines| && IsModuleLine(lines[i]);
        assert lines[1..][i - 1] == lines[i];
      }
      1 + FirstModuleLineIndex(lines[1..])
  }

  // ---------------------------------------------------------------------------
  // The command: checks, temporary files and protoc runs

  /** Why `proto gen` stops with exit status 1. */
  datatype GenError =
    | ConfigLoadFailed
    | NotInitialized
    | BuildDirFailed
    | GlobFailed
    | NoProtoFiles
    | ToolMissing(tool: string)
    | GoModNotFound
    | NoModulePath
    | ProtocFailed(args: seq<string>)
    | UnsupportedSdk(sdkType: string)

  /**
   * What the command finds in its environment: the loaded configuration, the
   * outcome of each file-system step, the tools on the search path, the
   * contents of the files it reads and the argument lists protoc rejects.
   */
  datatype GenEnv = GenEnv(
    config: Option<Config>,
    buildDirCreated: bool,
    protoFiles: Option<seq<FilePath>>,
    onPath: set<string>,
    pythonModules: set<string>,
    goMod: Option<string>,
    contents: map<FilePath, string>,
    unwritable: set<FilePath>,
    protocFailures: set<seq<string>>)

  /** A temporary copy of a proto file with the go_package line rewritten. */
  datatype TempFile = TempFile(path: FilePath, content: string)

  /**
   * The observable effect of one run: the error it stopped with (none on
   * success), the temporary files it wrote and each protoc argument list it ran.
   */
  datatype GenReport = GenReport(failure: Option<GenError>, tempFiles: seq<TempFile>, protocRuns: seq<seq<string>>)

  function Failed(e: GenError): GenReport {
    GenReport(Some(e), [], [])
  }

  /** The temporary file for a proto file: `pb_<base>` in the same directory. */
  function TempPath(p: FilePath): FilePath {
    FilePath(p.dir, "pb_" + p.name)
  }

  function TempPaths(ts: seq<TempFile>): (r: seq<FilePath>)
    ensures |r| == |ts| && forall i :: 0 <= i < |ts| ==> r[i] == ts[i].path
  {
    if ts == [] then [] else [ts[0].path] + TempPaths(ts[1..])
  }

  /** The single protoc run of the go SDK, over all the temporary files. */
  function GoProtocArgs(config: Config, temps: seq<FilePath>): seq<string> {
    ["--go_out=" + config.buildDir, "--go_opt=paths=source_relative",
     "--go-grpc_out=" + config.buildDir, "--go-grpc_opt=paths=source_relative",
     "-I", config.protoDir] + RenderAll(temps)
  }

  /** The protoc run of the python SDK for one proto file. */
  function PythonProtocArgs(config: Config, file: FilePath): seq<string> {
    ["--python_out=" + config.buildDir, "--grpc_python_out=" + config.buildDir,
     "--mypy_out=" + config.buildDir, "-I", config.protoDir, Render(file)]
  }

  /**
   * The temporary files the go branch writes: one per proto file that can be
   * read and whose temporary file can be written; the others are skipped.
   * `contents` is the directory as the loop finds it at each turn: a written
   * `pb_` file is there for the turns that follow, so a globbed `pb_` file
   * left over from an earlier run is read back as this run wrote it.
   */
  function GoTempFiles(files: seq<FilePath>, contents: map<FilePath, string>, unwritable: set<FilePath>, modulePath: string)
    : seq<TempFile>
    decreases |files|
  {
    if files == [] then []
    else
      var f := files[0];
      if f !in contents || TempPath(f) in unwritable then GoTempFiles(files[1..], contents, unwritable, modulePath)
      else
        var t := TempFile(TempPath(f), RewriteProto(contents[f], modulePath));
        [t] + GoTempFiles(files[1..], contents[t.path := t.content], unwritable, modulePath)
  }

  /** The directory once the temporary files `temps` have been written over `contents`, in order. */
  function Written(contents: map<FilePath, string>, temps: seq<TempFile>): map<FilePath, string>
    decreases |temps|
  {
    if temps == [] then contents else Written(contents[temps[0].path := temps[0].content], temps[1..])
  }

  /** The directory as the loop finds it at the turn of `files[i]`: the input with the temporary files written so far. */
  function ContentsBefore(files: seq<FilePath>, contents: map<FilePath, string>, unwritable: set<FilePath>, modulePath: string, i: nat)
    : map<FilePath, string>
    requires i <= |files|
  {
    Written(contents, GoTempFiles(files[..i], contents, unwritable, modulePath))
  }

  /** The python runs: one per proto file, in order, up to and including the first that fails. */
  function PythonRuns(files: seq<FilePath>, config: Config, failures: set<seq<string>>): seq<seq<string>> {
    if files == [] then []
    else
      var args := PythonProtocArgs(config, files[0]);
      if args in failures then [args] else [args] + PythonRuns(files[1..], config, failures)
  }

  /** The checks every SDK type passes before its own steps. */
  predicate CommonChecksPass(env: GenEnv) {
    env.config.Some? && env.config.value.gitHubURL != "" && env.buildDirCreated && env.protoFiles.Some?
  }

  predicate GoToolsPresent(env: GenEnv) {
    "protoc-gen-go" in env.onPath && "protoc-gen-go-grpc" in env.onPath
  }

  predicate PythonToolsPresent(env: GenEnv) {
    "google.protobuf" in env.pythonModules && "mypy_protobuf" in env.pythonModules
  }

  /** The module path the go branch reads from go.mod. */
  function GoModulePath(env: GenEnv): string
    requires env.goMod.Some?
  {
    ModulePathOf(Split(env.goMod.value, '\n'))
  }

  /** The go branch's loop: rewrite each readable file into its `pb_` file, skipping failures. */
  method WriteTempFiles(files: seq<FilePath>, env: GenEnv, modulePath: string) returns (temps: seq<TempFile>)
    ensures temps == GoTempFiles(files, env.contents, env.unwritable, modulePath)
  {
    temps := [];
    var contents := env.contents;
    var i := 0;
    while i < |files|
      invariant 0 <= i <= |files|
      invariant temps + GoTempFiles(files[i..], contents, env.unwritable, modulePath)
             == GoTempFiles(files, env.contents, env.unwritable, modulePath)
    {
      var file := files[i];
      assert files[i..][0] == file && files[i..][1..] == files[i + 1..];
      if file !in contents {
        i := i + 1;
        continue;
      }
      var tmp := TempPath(file);
      var newLines := RewriteLines(Split(contents[file], '\n'), modulePath);
      if tmp in env.unwritable {
        i := i + 1;
        continue;
      }
      var temp := TempFile(tmp, Join(newLines, '\n'));
      contents := contents[tmp := temp.content];
      ghost var rest := GoTempFiles(files[i + 1..], contents, env.unwritable, modulePath);
      AppendAssoc(temps, [temp], rest);
      temps := temps + [temp];
      i := i + 1;
    }
    assert files[i..] == [];
  }

  /** The python branch's loop: one protoc run per file, exiting at the first failure. */
  method RunPythonProtoc(files: seq<FilePath>, config: Config, failures: set<seq<string>>) returns (runs: seq<seq<string>>)
    ensures runs == PythonRuns(files, config, failures)
  {
    runs := [];
    var i := 0;
    while i < |files|
      invariant 0 <= i <= |files|
      invariant runs + PythonRuns(files[i..], config, failures) == PythonRuns(files, config, failures)
    {
      assert files[i..][0] == files[i] && files[i..][1..] == files[i + 1..];
      var args := PythonProtocArgs(config, files[i]);
      var rest := PythonRuns(files[i + 1..], config, failures);
      assert PythonRuns(files[i..], config, failures) == if args in failures then [args] else [args] + rest;
      runs := runs + [args];
      if args in failures {
        return;
      }
      assert runs + rest == PythonRuns(files, config, failures);
      i := i + 1;
    }
    assert files[i..] == [];
  }

  /**
   * `proto gen <sdkType>`. The module name argument is accepted and not used,
   * as in gen.go.
   */
  method GenCmd(sdkType: string, moduleName: string, env: GenEnv) returns (report: GenReport)
    ensures env.config.None? ==> report == Failed(ConfigLoadFailed)
    ensures env.config.Some? && env.config.value.gitHubURL == "" ==> report == Failed(NotInitialized)
    ensures env.config.Some? && env.config.value.gitHubURL != "" && !env.buildDirCreated ==>
      report == Failed(BuildDirFailed)
    ensures env.config.Some? && env.config.value.gitHubURL != "" && env.buildDirCreated && env.protoFiles.None? ==>
      report == Failed(GlobFailed)
    ensures CommonChecksPass(env) && env.protoFiles.value == [] ==> report == Failed(NoProtoFiles)
    ensures CommonChecksPass(env) && env.protoFiles.value != [] && sdkType == "go" && "protoc-gen-go" !in env.onPath ==>
      report == Failed(ToolMissing("protoc-gen-go"))
    ensures (&& CommonChecksPass(env) && env.protoFiles.value != [] && sdkType == "go"
             && "protoc-gen-go" in env.onPath && "protoc-gen-go-grpc" !in env.onPath) ==>
      report == Failed(ToolMissing("protoc-gen-go-grpc"))
    ensures CommonChecksPass(env) && env.protoFiles.value != [] && sdkType == "go" && GoToolsPresent(env) && env.goMod.None? ==>
      report == Failed(GoModNotFound)
    ensures (&& CommonChecksPass(env) && env.protoFiles.value != [] && sdkType == "python"
             && "google.protobuf" !in env.pythonModules) ==>
      report == Failed(ToolMissing("google.protobuf"))
    ensures (&& CommonChecksPass(env) && env.protoFiles.value != [] && sdkType == "python"
             && "google.protobuf" in env.pythonModules && "mypy_protobuf" !in env.pythonModules) ==>
      report == Failed(ToolMissing("mypy_protobuf"))
    ensures CommonChecksPass(env) && env.protoFiles.value != [] && sdkType != "go" && sdkType != "python" ==>
      report == Failed(UnsupportedSdk(sdkType))
    ensures report.protocRuns != [] ==>
      CommonChecksPass(env) && env.protoFiles.value != [] && (sdkType == "go" || sdkType == "python")
    ensures report.failure.None? ==>
      && CommonChecksPass(env) && env.protoFiles.value != []
      && (sdkType == "go" || sdkType == "python") && |report.protocRuns| >= 1
      && forall args :: args in report.protocRuns ==> args !in env.protocFailures
    ensures (&& CommonChecksPass(env) && env.protoFiles.value != [] && sdkType == "go"
             && GoToolsPresent(env) && env.goMod.Some? && GoModulePath(env) != "") ==>
        var temps := GoTempFiles(env.protoFiles.value, env.contents, env.unwritable, GoModulePath(env));
        var args := GoProtocArgs(env.config.value, TempPaths(temps));
        report == GenReport(if args in env.protocFailures then Some(ProtocFailed(args)) else None, temps, [args])
    ensures (&& CommonChecksPass(env) && env.protoFiles.value != [] && sdkType == "go"
             && GoToolsPresent(env) && env.goMod.Some? && GoModulePath(env) == "") ==>
      report == Failed(NoModulePath)
    ensures CommonChecksPass(env) && env.protoFiles.value != [] && sdkType == "python" && PythonToolsPresent(env) ==>
      var runs := PythonRuns(env.protoFiles.value, env.config.value, env.protocFailures);
      report == GenReport(if runs[|runs| - 1] in env.protocFailures then Some(ProtocFailed(runs[|runs| - 1])) else None, [], runs)
  {
    if env.config.None? {
      return Failed(ConfigLoadFailed);
    }
    var config := env.config.value;
    if config.gitHubURL == "" {
      return Failed(NotInitialized);
    }
    if !env.buildDirCreated {
      return Failed(BuildDirFailed);
    }
    if env.protoFiles.None? {
      return Failed(GlobFailed);
    }
    var files := env.protoFiles.value;
    if |files| == 0 {
      return Failed(NoProtoFiles);
    }
    if sdkType == "go" {
      if "protoc-gen-go" !in env.onPath {
        return Failed(ToolMissing("protoc-gen-go"));
      }
      if "protoc-gen-go-grpc" !in env.onPath {
        return Failed(ToolMissing("protoc-gen-go-grpc"));
      }
      if env.goMod.None? {
        return Failed(GoModNotFound);
      }
      var modulePath := ScanModulePath(Split(env.goMod.value, '\n'));
      if modulePath == "" {
        return Failed(NoModulePath);
      }
      var temps := WriteTempFiles(files, env, modulePath);
      assert temps == GoTempFiles(files, env.contents, env.unwritable, GoModulePath(env));
      var args := GoProtocArgs(config, TempPaths(temps));
      if args in env.protocFailures {
        return GenReport(Some(ProtocFailed(args)), temps, [args]);
      }
      return GenReport(None, temps, [args]);
    } else if sdkType == "python" {
      if "google.protobuf" !in env.pythonModules {
        return Failed(ToolMissing("google.protobuf"));
      }
      if "mypy_protobuf" !in env.pythonModules {
        return Failed(ToolMissing("mypy_protobuf"));
      }
      var runs := RunPythonProtoc(files, config, env.protocFailures);
      PythonRunsStopAtFirstFailure(files, config, env.protocFailures);
      if runs[|runs| - 1] in env.protocFailures {
        return GenReport(Some(ProtocFailed(runs[|runs| - 1])), [], runs);
      }
      return GenReport(None, [], runs);
    } else {
      return Failed(UnsupportedSdk(sdkType));
    }
  }

  /**
   * `t` is the temporary file of `files[i]`: that file is there at its turn,
   * its `pb_` file can be written, and `t` holds its rewritten text as read then.
   */
  predicate WrittenAt(
    files: seq<FilePath>, contents: map<FilePath, string>, unwritable: set<FilePath>, modulePath: string, i: nat, t: TempFile)
    requires i < |files|
  {
    var c := ContentsBefore(files, contents, unwritable, modulePath, i);
    files[i] in c && TempPath(files[i]) !in unwritable &&
    t == TempFile(TempPath(files[i]), RewriteProto(c[files[i]], modulePath))
  }

  /**
   * The go branch writes exactly one temporary file for each proto file it can
   * read and whose `pb_` file it can write, holding that file's rewritten text
   * as the loop reads it at that file's turn, and nothing else.
   */
  lemma {:induction false} GoTempFilesExactlyReadable(
    files: seq<FilePath>, contents: map<FilePath, string>, unwritable: set<FilePath>, modulePath: string)
    ensures forall t :: t in GoTempFiles(files, contents, unwritable, modulePath) <==>
      exists i :: 0 <= i < |files| && WrittenAt(files, contents, unwritable, modulePath, i, t)
  {
    if files != [] {
      var f, rest := files[0], files[1..];
      var next := if f !in contents || TempPath(f) in unwritable then contents
                  else contents[TempPath(f) := RewriteProto(contents[f], modulePath)];
      GoTempFilesExactlyReadable(rest, next, unwritable, modulePath);
      assert ContentsBefore(files, contents, unwritable, modulePath, 0) == contents by {
        assert files[..0] == [];
      }
      forall i, t | 0 < i < |files|
        ensures WrittenAt(files, contents, unwritable, modulePath, i, t) <==> WrittenAt(rest, next, unwritable, modulePath, i - 1, t)
      {
        ContentsBeforeNext(files, contents, unwritable, modulePath, i);
      }
      forall t | t in GoTempFiles(files, contents, unwritable, modulePath)
        ensures exists i :: 0 <= i < |files| && WrittenAt(files, contents, unwritable, modulePath, i, t)
      {
        if t !in GoTempFiles(rest, next, unwritable, modulePath) {
          assert WrittenAt(files, contents, unwritable, modulePath, 0, t);
        } else {
          var j :| 0 <= j < |rest| && WrittenAt(rest, next, unwritable, modulePath, j, t);
          assert WrittenAt(files, contents, unwritable, modulePath, j + 1, t);
        }
      }
      forall t | exists i :: 0 <= i < |files| && WrittenAt(files, contents, unwritable, modulePath, i, t)
        ensures t in GoTempFiles(files, contents, unwritable, modulePath)
      {
        var i :| 0 <= i < |files| && WrittenAt(files, contents, unwritable, modulePath, i, t);
        if i > 0 {
          assert WrittenAt(rest, next, unwritable, modulePath, i - 1, t);
        }
      }
    }
  }

  /** One turn of the loop: what the turns after the first see is what they would see starting from the first turn's result. */
  lemma ContentsBeforeNext(
    files: seq<FilePath>, contents: map<FilePath, string>, unwritable: set<FilePath>, modulePath: string, i: nat)
    requires 0 < i <= |files|
    ensures var f := files[0];
      var next := if f !in contents || TempPath(f) in unwritable then contents
                  else contents[TempPath(f) := RewriteProto(contents[f], modulePath)];
      ContentsBefore(files, contents, unwritable, modulePath, i)
        == ContentsBefore(files[1..], next, unwritable, modulePath, i - 1)
    ensures i < |files| ==> files[i] == files[1..][i - 1]
  {
    var f := files[0];
    assert files[..i] == [f] + files[1..][..i - 1];
    assert files[..i][1..] == files[1..][..i - 1];
    if f in contents && TempPath(f) !in unwritable {
      var t := TempFile(TempPath(f), RewriteProto(contents[f], modulePath));
      var more := GoTempFiles(files[1..][..i - 1], contents[t.path := t.content], unwritable, modulePath);
      assert ([t] + more)[0] == t && ([t] + more)[1..] == more;
    }
  }

  /**
   * A path no earlier turn wrote is read as the input gives it: with no
   * leftover `pb_` files among the globbed files, every file is read from
   * the directory as the run found it.
   */
  lemma {:induction false} ContentsBeforeUnwritten(
    files: seq<FilePath>, contents: map<FilePath, string>, unwritable: set<FilePath>, modulePath: string, i: nat, p: FilePath)
    requires i <= |files|
    requires forall j :: 0 <= j < i ==> TempPath(files[j]) != p
    ensures var c := ContentsBefore(files, contents, unwritable, modulePath, i);
      (p in c <==> p in contents) && (p in c ==> c[p] == contents[p])
    decreases i
  {
    if i > 0 {
      var f := files[0];
      var next := if f !in contents || TempPath(f) in unwritable then contents
                  else contents[TempPath(f) := RewriteProto(contents[f], modulePath)];
      ContentsBeforeNext(files, contents, unwritable, modulePath, i);
      forall j | 0 <= j < i - 1 ensures TempPath(files[1..][j]) != p {
        assert files[1..][j] == files[j + 1];
      }
      ContentsBeforeUnwritten(files[1..], next, unwritable, modulePath, i - 1, p);
    } else {
      assert files[..0] == [];
    }
  }

  /**
   * Without leftover `pb_` files among the globbed files, the temporary files
   * are exactly the rewritten texts of the readable files, as the run found them.
   */
  lemma GoTempFilesWithoutLeftovers(
    files: seq<FilePath>, contents: map<FilePath, string>, unwritable: set<FilePath>, modulePath: string)
    requires forall i, j :: 0 <= i < |files| && 0 <= j < |files| ==> TempPath(files[i]) != files[j]
    ensures forall t :: t in GoTempFiles(files, contents, unwritable, modulePath) <==>
      exists f :: f in files && f in contents && TempPath(f) !in unwritable &&
        t == TempFile(TempPath(f), RewriteProto(contents[f], modulePath))
  {
    GoTempFilesExactlyReadable(files, contents, unwritable, modulePath);
    forall i | 0 <= i < |files|
      ensures var c := ContentsBefore(files, contents, unwritable, modulePath, i);
        (files[i] in c <==> files[i] in contents) && (files[i] in c ==> c[files[i]] == contents[files[i]])
    {
      ContentsBeforeUnwritten(files, contents, unwritable, modulePath, i, files[i]);
    }
    forall t | exists f :: f in files && f in contents && TempPath(f) !in unwritable &&
                           t == TempFile(TempPath(f), RewriteProto(contents[f], modulePath))
      ensures t in GoTempFiles(files, contents, unwritable, modulePath)
    {
      var f :| f in files && f in contents && TempPath(f) !in unwritable &&
        t == TempFile(TempPath(f), RewriteProto(contents[f], modulePath));
      var i :| 0 <= i < |files| && files[i] == f;
      assert WrittenAt(files, contents, unwritable, modulePath, i, t);
    }
  }

  /**
   * A `pb_a.proto` left behind by an earlier run is globbed after `a.proto`;
   * this run first rewrites `a.proto` into it and then reads it back, so
   * `pb_pb_a.proto` holds the rewritten text of the rewritten `a.proto`,
   * whatever the leftover file held.
   */
  lemma StalePbFileReadAsWritten(a: FilePath, contents: map<FilePath, string>, unwritable: set<FilePath>, modulePath: string)
    requires a in contents && TempPath(a) !in unwritable && TempPath(TempPath(a)) !in unwritable
    ensures var once := RewriteProto(contents[a], modulePath);
      GoTempFiles([a, TempPath(a)], contents, unwritable, modulePath)
        == [TempFile(TempPath(a), once), TempFile(TempPath(TempPath(a)), RewriteProto(once, modulePath))]
  {
    var files := [a, TempPath(a)];
    var once := RewriteProto(contents[a], modulePath);
    var next := contents[TempPath(a) := once];
    assert files[1..] == [TempPath(a)] && files[1..][1..] == [];
    assert GoTempFiles(files[1..], next, unwritable, modulePath)
        == [TempFile(TempPath(TempPath(a)), RewriteProto(once, modulePath))] + GoTempFiles([], next[TempPath(TempPath(a)) := RewriteProto(once, modulePath)], unwritable, modulePath);
  }

  /**
   * The python branch runs protoc once per proto file, in order, and stops at
   * the first run that fails.
   */
  lemma {:induction false} PythonRunsStopAtFirstFailure(files: seq<FilePath>, config: Config, failures: set<seq<string>>)
    requires files != []
    ensures var runs := PythonRuns(files, config, failures);
      && 1 <= |runs| <= |files|
      && (forall i :: 0 <= i < |runs| ==> runs[i] == PythonProtocArgs(config, files[i]))
      && (forall i :: 0 <= i < |runs| - 1 ==> runs[i] !in failures)
      && (|runs| < |files| ==> runs[|runs| - 1] in failures)
  {
    var args := PythonProtocArgs(config, files[0]);
    if args !in failures && |files| > 1 {
      PythonRunsStopAtFirstFailure(files[1..], config, failures);
    }
  }
}
