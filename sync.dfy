/**
 * `proto sync` (cmd/proto/commands/sync.go): clone the configured repository,
 * compare its head commit with the cached one, find the `.proto` files under
 * the configured sub-path and copy them, best effort, into the proto
 * directory, then record the new head in the cache file.
 *
 * The clone, the walk of its directories and the file reads and writes are
 * inputs: the walk is the sequence of entries filepath.Walk visits, in its
 * lexical pre-order, each with its path relative to the walk's root.
 */
module Sync {
  import opened Wrappers
  import opened GoStrings
  import opened Paths
  import opened ProtoConfig

  // ---------------------------------------------------------------------------
  // The cache file and the up-to-date decision

  /** The cache file `.proto_cache` in the proto directory. */
  datatype CacheFile = NoCacheFile | Corrupt | CacheHead(head: string)

  /** LoadCache's two results: the cached head and whether it reported an error. */
  datatype CacheLoad = CacheLoad(head: string, failed: bool)

  /**
   * LoadCache: a missing file is no error and gives "", any other failure
   * (unreadable, not YAML) is an error and also gives "".
   */
  function LoadCache(cache: CacheFile, unreadable: bool): (r: CacheLoad)
    ensures r.failed ==> r.head == ""
    ensures cache.NoCacheFile? ==> r == CacheLoad("", false)
    ensures !r.failed && cache.CacheHead? ==> r.head == cache.head
    ensures r.failed <==> cache.Corrupt? || (cache.CacheHead? && unreadable)
  {
    match cache
    case NoCacheFile => CacheLoad("", false)
    case Corrupt => CacheLoad("", true)
    case CacheHead(h) => if unreadable then CacheLoad("", true) else CacheLoad(h, false)
  }

  // ---------------------------------------------------------------------------
  // The source directory

  const QuoteChars: string := "\"'"

  /** The configured remote path with every leading and trailing quote character removed. */
  function CleanRemotePath(remotePath: string): string {
    Trim(remotePath, QuoteChars)
  }

  /** The directory searched for proto files: the clone itself, or the cleaned remote path inside it. */
  function SourceDir(cloneDir: string, remotePath: string): string {
    if remotePath == "" then cloneDir else JoinPath(cloneDir, CleanRemotePath(remotePath))
  }

  /**
   * The cleaned remote path is the remote path with a run of quote characters
   * cut from each end: what is left neither starts nor ends with a quote.
   */
  lemma CleanRemotePathTrimsQuotes(remotePath: string)
    ensures var c := CleanRemotePath(remotePath);
      exists a, b :: 0 <= a <= b <= |remotePath| && c == remotePath[a..b] &&
        (forall i :: 0 <= i < a ==> remotePath[i] in QuoteChars) &&
        (forall i :: b <= i < |remotePath| ==> remotePath[i] in QuoteChars) &&
        (c == [] || (c[0] !in QuoteChars && c[|c| - 1] !in QuoteChars))
  {
    var drop := (ch: char) => ch in QuoteChars;
    var l := TrimLeftFunc(remotePath, drop);
    TrimLeftFuncSpec(remotePath, drop);
    TrimRightFuncSpec(l, drop);
    var c := TrimRightFunc(l, drop);
    var a := |remotePath| - |l|;
    var b := a + |c|;
    assert c == remotePath[a..b];
    forall i | b <= i < |remotePath| ensures remotePath[i] in QuoteChars {
      assert remotePath[i] == l[i - a];
    }
  }

  /**
   * An empty remote path searches the whole clone; a quoted one searches its
   * unquoted sub-path. The clone directory is one os.MkdirTemp made, so it is
   * neither empty nor `.`.
   */
  lemma SourceDirExamples(cloneDir: string)
    requires cloneDir != "" && cloneDir != "."
    ensures SourceDir(cloneDir, "") == cloneDir
    ensures SourceDir(cloneDir, "\"protos\"") == cloneDir + "/protos"
    ensures SourceDir(cloneDir, "'api/v1'") == cloneDir + "/api/v1"
  {
    CleanDoubleQuoted();
    CleanSingleQuoted();
  }

  lemma CleanDoubleQuoted()
    ensures CleanRemotePath("\"protos\"") == "protos"
  {
    var drop := (ch: char) => ch in QuoteChars;
    var q := "\"protos\"";
    assert TrimLeftFunc(q, drop) == TrimLeftFunc(q[1..], drop);
    assert q[1..] == "protos\"";
    assert TrimRightFunc(q[1..], drop) == TrimRightFunc(q[1..][..|q| - 2], drop);
    assert q[1..][..|q| - 2] == "protos";
    TrimFuncNoop("protos", drop);
  }

  lemma CleanSingleQuoted()
    ensures CleanRemotePath("'api/v1'") == "api/v1"
  {
    var drop := (ch: char) => ch in QuoteChars;
    var s := "'api/v1'";
    assert TrimLeftFunc(s, drop) == TrimLeftFunc(s[1..], drop);
    assert s[1..] == "api/v1'";
    assert TrimRightFunc(s[1..], drop) == TrimRightFunc(s[1..][..|s| - 2], drop);
    assert s[1..][..|s| - 2] == "api/v1";
    TrimFuncNoop("api/v1", drop);
  }

  // ---------------------------------------------------------------------------
  // Finding the proto files

  /**
   * info.Name() of a walked entry. Walk gets the root's info from os.Lstat on
   * the walked path, so the root is named by that path's base name; every
   * other entry by its last component.
   */
  function EntryName(e: Entry, rootName: string): string {
    if e.rel == [] then rootName else Name(e)
  }

  predicate IsProtoFile(e: Entry, rootName: string) {
    !e.isDir && HasSuffix(EntryName(e, rootName), ".proto")
  }

  /** The relative paths of the walked entries that are proto files, in walk order. */
  function ProtoFilesIn(walk: seq<Entry>, rootName: string): seq<seq<string>> {
    if walk == [] then []
    else (if IsProtoFile(walk[0], rootName) then [walk[0].rel] else []) + ProtoFilesIn(walk[1..], rootName)
  }

  /** The Walk callback that collects proto files; `rootName` is the base name of the walked path. */
  method CollectProtoFiles(walk: seq<Entry>, rootName: string) returns (protoFiles: seq<seq<string>>)
    ensures protoFiles == ProtoFilesIn(walk, rootName)
  {
    protoFiles := [];
    var i := 0;
    while i < |walk|
      invariant 0 <= i <= |walk|
      invariant protoFiles + ProtoFilesIn(walk[i..], rootName) == ProtoFilesIn(walk, rootName)
    {
      assert walk[i..][0] == walk[i] && walk[i..][1..] == walk[i + 1..];
      if !walk[i].isDir && HasSuffix(EntryName(walk[i], rootName), ".proto") {
        protoFiles := protoFiles + [walk[i].rel];
      }
      i := i + 1;
    }
  }

  /** The discovered files keep walk order: the files of a longer walk extend those of its prefix. */
  lemma {:induction false} ProtoFilesInAppend(a: seq<Entry>, b: seq<Entry>, rootName: string)
    ensures ProtoFilesIn(a + b, rootName) == ProtoFilesIn(a, rootName) + ProtoFilesIn(b, rootName)
  {
    if a == [] {
      assert a + b == b;
    } else {
      ProtoFilesInFirst(a, b, rootName);
      ProtoFilesInAppend(a[1..], b, rootName);
      AppendAssoc(if IsProtoFile(a[0], rootName) then [a[0].rel] else [], ProtoFilesIn(a[1..], rootName), ProtoFilesIn(b, rootName));
    }
  }

  lemma ProtoFilesInFirst(a: seq<Entry>, b: seq<Entry>, rootName: string)
    requires a != []
    ensures ProtoFilesIn(a + b, rootName)
         == (if IsProtoFile(a[0], rootName) then [a[0].rel] else []) + ProtoFilesIn(a[1..] + b, rootName)
  {
    assert (a + b)[0] == a[0] && (a + b)[1..] == a[1..] + b;
  }

  /**
   * A path is discovered exactly when some walked entry at that path, at any
   * depth and the root included, is a file whose name ends in `.proto`.
   */
  lemma {:induction false} ProtoFilesInExactly(walk: seq<Entry>, rootName: string, rel: seq<string>)
    ensures rel in ProtoFilesIn(walk, rootName) <==>
      exists i :: 0 <= i < |walk| && walk[i].rel == rel && IsProtoFile(walk[i], rootName)
  {
    if walk != [] {
      ProtoFilesInExactly(walk[1..], rootName, rel);
      if exists i :: 0 <= i < |walk[1..]| && walk[1..][i].rel == rel && IsProtoFile(walk[1..][i], rootName) {
        var i :| 0 <= i < |walk[1..]| && walk[1..][i].rel == rel && IsProtoFile(walk[1..][i], rootName);
        assert walk[i + 1] == walk[1..][i];
      }
      if exists i :: 0 <= i < |walk| && walk[i].rel == rel && IsProtoFile(walk[i], rootName) {
        var i :| 0 <= i < |walk| && walk[i].rel == rel && IsProtoFile(walk[i], rootName);
        if i > 0 {
          assert walk[1..][i - 1] == walk[i];
        }
      }
    }
  }

  // ---------------------------------------------------------------------------
  // Copying

  /** Walked path components are names: never empty, never `.`, and without the separator. */
  predicate PlainRel(rel: seq<string>) {
    forall i :: 0 <= i < |rel| ==> rel[i] != "" && rel[i] != "." && '/' !in rel[i]
  }

  /**
   * The destination of a discovered file: filepath.Join of the proto directory
   * and the file's relative path, which is `.` for the walk's root.
   */
  function DestPath(protoDir: string, rel: seq<string>): string {
    JoinPath(protoDir, RelPath(rel))
  }

  /** The relative path of an entry below the root is neither empty nor `.`. */
  lemma RelStringIsAName(rel: seq<string>)
    requires rel != [] && PlainRel(rel)
    ensures RelString(rel) != "" && RelString(rel) != "."
  {
    if |rel| > 1 {
      assert |RelString(rel)| >= |rel[0]| + 1 >= 2;
    }
  }

  /**
   * Two relative paths share a destination if and only if they are equal: the
   * sub-directory structure is kept and no copy overwrites another.
   */
  lemma DestPathKeepsStructure(protoDir: string, rel1: seq<string>, rel2: seq<string>)
    requires PlainRel(rel1) && PlainRel(rel2)
    ensures DestPath(protoDir, rel1) == DestPath(protoDir, rel2) <==> rel1 == rel2
  {
    if rel1 != [] {
      RelStringIsAName(rel1);
    }
    if rel2 != [] {
      RelStringIsAName(rel2);
    }
    if rel1 != [] && rel2 != [] && DestPath(protoDir, rel1) == DestPath(protoDir, rel2) {
      if protoDir != "" && protoDir != "." {
        var n := |protoDir| + 1;
        assert RelString(rel1) == DestPath(protoDir, rel1)[n..];
        assert RelString(rel2) == DestPath(protoDir, rel2)[n..];
      }
      SplitJoin(rel1, '/');
      SplitJoin(rel2, '/');
    }
  }

  /**
   * What the file system does to each step of one copy. Every file that
   * filepath.Rel, MkdirAll, ReadFile or WriteFile fails on is skipped.
   */
  datatype CopyEnv = CopyEnv(
    relFails: set<seq<string>>,
    mkdirFails: set<seq<string>>,
    sourceContents: map<seq<string>, string>,
    writeFails: set<seq<string>>)

  /**
   * Every step of one file's copy succeeds. The walk's root, found when the
   * remote path names a file, has the proto directory itself as destination,
   * and WriteFile on a directory fails.
   */
  predicate CopySucceeds(rel: seq<string>, env: CopyEnv) {
    rel !in env.relFails && rel !in env.mkdirFails && rel in env.sourceContents && rel != [] && rel !in env.writeFails
  }

  /** The proto directory's files, by path, after copying the given files in order. */
  function CopyAll(files: map<string, string>, protoDir: string, protoFiles: seq<seq<string>>, env: CopyEnv): map<string, string>
    decreases |protoFiles|
  {
    if protoFiles == [] then files
    else
      var rel := protoFiles[0];
      var next := if CopySucceeds(rel, env) then files[DestPath(protoDir, rel) := env.sourceContents[rel]] else files;
      CopyAll(next, protoDir, protoFiles[1..], env)
  }

  /** The destinations of the copies that succeed. */
  function CopiedDests(protoDir: string, protoFiles: seq<seq<string>>, env: CopyEnv): set<string> {
    set rel | rel in protoFiles && CopySucceeds(rel, env) :: DestPath(protoDir, rel)
  }

  /**
   * Copying is best effort: every file whose copy succeeds is at its
   * destination with its source's contents, a failed file does not stop the
   * others, and every path that no successful copy targets is left as it was.
   */
  lemma {:induction false} CopyAllBestEffort(files: map<string, string>, protoDir: string, protoFiles: seq<seq<string>>, env: CopyEnv)
    requires forall rel :: rel in protoFiles ==> PlainRel(rel)
    ensures var r := CopyAll(files, protoDir, protoFiles, env);
      && (forall rel :: rel in protoFiles && CopySucceeds(rel, env) ==>
            DestPath(protoDir, rel) in r && r[DestPath(protoDir, rel)] == env.sourceContents[rel])
      && (forall p :: p !in CopiedDests(protoDir, protoFiles, env) ==>
            (p in r <==> p in files) && (p in files ==> r[p] == files[p]))
    decreases |protoFiles|
  {
    if protoFiles != [] {
      var rel := protoFiles[0];
      var rest := protoFiles[1..];
      var next := if CopySucceeds(rel, env) then files[DestPath(protoDir, rel) := env.sourceContents[rel]] else files;
      forall p | p in protoFiles ensures p == rel || p in rest {
        var j :| 0 <= j < |protoFiles| && protoFiles[j] == p;
        if j > 0 {
          assert rest[j - 1] == p;
        }
      }
      CopyAllBestEffort(next, protoDir, rest, env);
      var r := CopyAll(files, protoDir, protoFiles, env);
      assert r == CopyAll(next, protoDir, rest, env);
      forall p | p in CopiedDests(protoDir, rest, env) ensures p in CopiedDests(protoDir, protoFiles, env) {
        var q :| q in rest && CopySucceeds(q, env) && p == DestPath(protoDir, q);
      }
      if CopySucceeds(rel, env) && rel !in rest {
        forall q | q in rest && CopySucceeds(q, env) ensures DestPath(protoDir, q) != DestPath(protoDir, rel) {
          DestPathKeepsStructure(protoDir, q, rel);
        }
        assert DestPath(protoDir, rel) !in CopiedDests(protoDir, rest, env);
      }
    }
  }

  // ---------------------------------------------------------------------------
  // The diagnostic tree listing

  predicate Hidden(name: string) {
    HasPrefix(name, ".")
  }

  /** strings.Count(relPath, separator): the depth of an entry below the walk's root. */
  function Depth(e: Entry): nat {
    Count(RelString(e.rel), '/')
  }

  /** One line of the listing: two spaces per level, then `name/` or `- name (N bytes)`. */
  function ListingLine(e: Entry): string {
    Repeat("  ", Depth(e)) +
    (if e.isDir then Name(e) + "/" else "- " + Name(e) + " (" + NatToString(e.size) + " bytes)")
  }

  /** The depth is one less than the number of path components. */
  lemma DepthIsComponentsMinusOne(e: Entry)
    requires |e.rel| >= 1 && forall i :: 0 <= i < |e.rel| ==> '/' !in e.rel[i]
    ensures Depth(e) == |e.rel| - 1
    ensures |ListingLine(e)| > 2 * (|e.rel| - 1)
    ensures forall i :: 0 <= i < 2 * (|e.rel| - 1) ==> ListingLine(e)[i] == ' '
  {
    CountJoin(e.rel, '/');
  }

  predicate UnderPruned(rel: seq<string>, pruned: set<seq<string>>) {
    exists p :: p in pruned && p < rel
  }

  /**
   * The entries the listing callback prints, in walk order. The root is
   * skipped; a hidden name is skipped, and a hidden directory is also pruned
   * (filepath.SkipDir), so that Walk visits nothing below it.
   */
  function Listed(walk: seq<Entry>, pruned: set<seq<string>>): seq<Entry> {
    if walk == [] then []
    else
      var e := walk[0];
      if UnderPruned(e.rel, pruned) then Listed(walk[1..], pruned)
      else if e.rel == [] then Listed(walk[1..], pruned)
      else if Hidden(Name(e)) then Listed(walk[1..], if e.isDir then pruned + {e.rel} else pruned)
      else [e] + Listed(walk[1..], pruned)
  }

  /** The listing printed when no proto file (or no remote path) is found. */
  function TreeListing(walk: seq<Entry>): seq<string> {
    ListingLines(Listed(walk, {}))
  }

  function ListingLines(es: seq<Entry>): (r: seq<string>)
    ensures |r| == |es| && forall i :: 0 <= i < |es| ==> r[i] == ListingLine(es[i])
  {
    if es == [] then [] else [ListingLine(es[0])] + ListingLines(es[1..])
  }

  /** An entry below the root none of whose path components is hidden. */
  predicate Shown(e: Entry) {
    e.rel != [] && forall i :: 0 <= i < |e.rel| ==> !Hidden(e.rel[i])
  }

  function ShownEntries(walk: seq<Entry>): seq<Entry> {
    if walk == [] then []
    else (if Shown(walk[0]) then [walk[0]] else []) + ShownEntries(walk[1..])
  }

  predicate SeenDirBefore(walk: seq<Entry>, i: int, dir: seq<string>) {
    exists j :: 0 <= j < i && j < |walk| && walk[j].rel == dir && walk[j].isDir
  }

  /** Walk's pre-order: every directory above an entry is visited before it. */
  predicate PreOrder(walk: seq<Entry>) {
    forall i, k :: 0 <= i < |walk| && 0 < k < |walk[i].rel| ==> SeenDirBefore(walk, i, walk[i].rel[..k])
  }

  /** Every hidden directory above a remaining entry is already pruned or still to be visited before it. */
  predicate HiddenAncestorsCovered(walk: seq<Entry>, pruned: set<seq<string>>) {
    forall i, k :: 0 <= i < |walk| && 0 <= k < |walk[i].rel| - 1 && Hidden(walk[i].rel[k]) ==>
      UnderPruned(walk[i].rel, pruned) || SeenDirBefore(walk, i, walk[i].rel[..k + 1])
  }

  predicate PrunedAreHidden(pruned: set<seq<string>>) {
    forall p :: p in pruned ==> p != [] && Hidden(p[|p| - 1])
  }

  /** The pruned set once the callback has seen `e`: a hidden directory it lists nothing under is added. */
  function PrunedAfter(e: Entry, pruned: set<seq<string>>): set<seq<string>> {
    if !UnderPruned(e.rel, pruned) && e.rel != [] && Hidden(Name(e)) && e.isDir then pruned + {e.rel} else pruned
  }

  /** The first entry of the walk is listed exactly when it is shown. */
  lemma ListedFirst(walk: seq<Entry>, pruned: set<seq<string>>)
    requires walk != []
    requires PrunedAreHidden(pruned)
    requires HiddenAncestorsCovered(walk, pruned)
    ensures Listed(walk, pruned)
         == (if Shown(walk[0]) then [walk[0]] else []) + Listed(walk[1..], PrunedAfter(walk[0], pruned))
  {
    var e := walk[0];
    if UnderPruned(e.rel, pruned) {
      var p :| p in pruned && p < e.rel;
      assert e.rel[|p| - 1] == p[|p| - 1];
    } else if e.rel != [] && !Hidden(Name(e)) {
      forall k | 0 <= k < |e.rel| ensures !Hidden(e.rel[k]) {
        assert !SeenDirBefore(walk, 0, walk[0].rel[..k + 1]);
      }
    }
  }

  /** After the first entry, the remaining entries keep the covering invariant. */
  lemma CoveredAfterFirst(walk: seq<Entry>, pruned: set<seq<string>>)
    requires walk != []
    requires PrunedAreHidden(pruned)
    requires HiddenAncestorsCovered(walk, pruned)
    ensures PrunedAreHidden(PrunedAfter(walk[0], pruned))
    ensures HiddenAncestorsCovered(walk[1..], PrunedAfter(walk[0], pruned))
  {
    var e, rest, pruned' := walk[0], walk[1..], PrunedAfter(walk[0], pruned);
    forall i, k | 0 <= i < |rest| && 0 <= k < |rest[i].rel| - 1 && Hidden(rest[i].rel[k])
      ensures UnderPruned(rest[i].rel, pruned') || SeenDirBefore(rest, i, rest[i].rel[..k + 1])
    {
      var rel := rest[i].rel;
      assert walk[i + 1] == rest[i];
      assert UnderPruned(rel, pruned) || SeenDirBefore(walk, i + 1, rel[..k + 1]);
      if UnderPruned(rel, pruned) {
        var p :| p in pruned && p < rel;
        assert p in pruned';
      } else {
        var j :| 0 <= j < i + 1 && walk[j].rel == rel[..k + 1] && walk[j].isDir;
        if j == 0 {
          assert e.rel == rel[..k + 1] && e.rel < rel;
          assert !UnderPruned(e.rel, pruned);
          assert Name(e) == rel[k];
          assert e.rel in pruned';
        } else {
          assert rest[j - 1] == walk[j];
        }
      }
    }
  }

  lemma {:induction false} ListedFrom(walk: seq<Entry>, pruned: set<seq<string>>)
    requires PrunedAreHidden(pruned)
    requires HiddenAncestorsCovered(walk, pruned)
    ensures Listed(walk, pruned) == ShownEntries(walk)
  {
    if walk != [] {
      ListedFirst(walk, pruned);
      CoveredAfterFirst(walk, pruned);
      ListedFrom(walk[1..], PrunedAfter(walk[0], pruned));
    }
  }

  /**
   * For a walk in pre-order, the listing shows exactly the entries below the
   * root none of whose path components starts with `.`, in walk order: the
   * callback's skip of hidden names together with SkipDir hides everything
   * inside a hidden directory.
   */
  lemma ListingShowsExactlyVisible(walk: seq<Entry>)
    requires PreOrder(walk)
    ensures Listed(walk, {}) == ShownEntries(walk)
  {
    forall i, k | 0 <= i < |walk| && 0 <= k < |walk[i].rel| - 1 && Hidden(walk[i].rel[k])
      ensures UnderPruned(walk[i].rel, {}) || SeenDirBefore(walk, i, walk[i].rel[..k + 1])
    {
      assert 0 < k + 1 < |walk[i].rel|;
    }
    ListedFrom(walk, {});
  }

  // ---------------------------------------------------------------------------
  // The command

  /** What the outside world answers to each step of one `proto sync` run. */
  datatype SyncEnv = SyncEnv(
    config: Option<Config>,        // LoadConfig's result
    tempDirCreated: bool,          // os.MkdirTemp succeeds
    cloneDir: string,              // the directory os.MkdirTemp returns
    cloned: bool,                  // `git clone -b <branch> <url> <tmp>` succeeds
    commitID: Option<string>,      // output of `git rev-parse HEAD`, trailing newline included
    cacheUnreadable: bool,         // an existing cache file cannot be read
    protoDirCreated: bool,         // os.MkdirAll on the proto directory succeeds
    sourceMissing: bool,           // os.Stat on the source directory reports that it does not exist
    cloneWalk: seq<Entry>,         // filepath.Walk over the clone
    sourceWalk: seq<Entry>,        // filepath.Walk over the source directory
    walkFailed: bool,              // the search walk returns an error
    copy: CopyEnv,                 // the outcome of each file's copy
    cacheSaveFails: bool)          // SaveCache fails

  datatype SyncError =
    | ConfigLoadFailed
    | NotInitialized
    | TempDirFailed
    | CloneFailed
    | CommitIDFailed
    | ProtoDirFailed
    | RemotePathMissing(remotePath: string, listing: seq<string>)
    | SearchFailed
    | NoProtoFiles(dir: string, listing: seq<string>)
    | CacheSaveFailed

  datatype SyncOutcome = Failed(error: SyncError) | UpToDate | Synced

  /** Every step before the comparison with the cached head succeeds. */
  predicate ReachesComparison(env: SyncEnv) {
    env.config.Some? && env.config.value.gitHubURL != "" && env.tempDirCreated && env.cloned && env.commitID.Some?
  }

  /** The proto files the search walk finds below the source directory. */
  function FoundProtoFiles(env: SyncEnv): seq<seq<string>>
    requires env.config.Some?
  {
    ProtoFilesIn(env.sourceWalk, Base(SourceDir(env.cloneDir, env.config.value.remotePath)))
  }

  /** The commit is new and the proto directory exists: the run goes on to look for the source directory. */
  predicate ReachesSearch(env: SyncEnv, cache: CacheFile) {
    && ReachesComparison(env)
    && env.commitID.value != LoadCache(cache, env.cacheUnreadable).head
    && env.protoDirCreated
  }

  /** Every step up to and including the search for proto files succeeds and finds some. */
  predicate ReachesCopy(env: SyncEnv, cache: CacheFile) {
    && ReachesSearch(env, cache)
    && !(env.config.value.remotePath != "" && env.sourceMissing)
    && !env.walkFailed
    && FoundProtoFiles(env) != []
  }

  /**
   * A remote path that names one proto file rather than a directory: the
   * search walk visits only that file, which is discovered as the walk's root
   * (relative path `.`); its copy targets the proto directory itself and
   * fails, so the run copies nothing and still goes on to save the new commit.
   */
  lemma FileRemotePathCopiesNothing(env: SyncEnv, cache: CacheFile, files: map<string, string>)
    requires ReachesComparison(env) && env.config.value.remotePath == "api/a.proto"
    requires env.commitID.value != LoadCache(cache, env.cacheUnreadable).head
    requires env.protoDirCreated && !env.sourceMissing && !env.walkFailed
    requires |env.sourceWalk| == 1 && env.sourceWalk[0].rel == [] && !env.sourceWalk[0].isDir
    ensures FoundProtoFiles(env) == [[]]
    ensures ReachesCopy(env, cache)
    ensures CopyAll(files, env.config.value.protoDir, FoundProtoFiles(env), env.copy) == files
  {
    FileRemotePathRootName(env.cloneDir);
    assert "a.proto"[|"a.proto"| - |".proto"|..] == ".proto";
    assert IsProtoFile(env.sourceWalk[0], "a.proto");
    assert env.sourceWalk[1..] == [];
    assert ProtoFilesIn(env.sourceWalk, "a.proto") == [[]] + ProtoFilesIn([], "a.proto");
  }

  /** Walking `api/a.proto` inside the clone names the root `a.proto`. */
  lemma FileRemotePathRootName(cloneDir: string)
    ensures Base(SourceDir(cloneDir, "api/a.proto")) == "a.proto"
  {
    CleanUnquoted();
    BaseOfJoin(cloneDir, "api/a.proto");
    LastElementOfFilePath();
  }

  lemma CleanUnquoted()
    ensures CleanRemotePath("api/a.proto") == "api/a.proto"
  {
    var path := "api/a.proto";
    assert path[0] == 'a' && path[|path| - 1] == 'o';
    TrimFuncNoop(path, (ch: char) => ch in QuoteChars);
  }

  lemma LastElementOfFilePath()
    ensures LastElement("api/a.proto") == "a.proto"
  {
    assert "api/a.proto" == "api" + "/" + "a.proto";
    LastElementAfterSeparator("api", "a.proto");
    LastElementOfName("a.proto");
  }

  /** The local file system seen by sync: its files by path, and the proto directory's cache file. */
  class ProtoDirectory {
    var files: map<string, string>
    var cache: CacheFile

    constructor (files: map<string, string>, cache: CacheFile)
      ensures this.files == files && this.cache == cache
    {
      this.files := files;
      this.cache := cache;
    }

    /** The copy loop: each discovered file is copied unless one of its steps fails. */
    method CopyProtoFiles(protoDir: string, protoFiles: seq<seq<string>>, env: CopyEnv)
      modifies this
      ensures files == CopyAll(old(files), protoDir, protoFiles, env)
      ensures cache == old(cache)
    {
      var i := 0;
      while i < |protoFiles|
        invariant 0 <= i <= |protoFiles|
        invariant CopyAll(files, protoDir, protoFiles[i..], env) == CopyAll(old(files), protoDir, protoFiles, env)
        invariant cache == old(cache)
      {
        var rel := protoFiles[i];
        assert protoFiles[i..][0] == rel && protoFiles[i..][1..] == protoFiles[i + 1..];
        i := i + 1;
        if rel in env.relFails {
          continue;
        }
        var destPath := DestPath(protoDir, rel);
        if rel in env.mkdirFails {
          continue;
        }
        if rel !in env.sourceContents {
          continue;
        }
        var data := env.sourceContents[rel];
        // writing onto the proto directory itself fails
        if rel == [] || rel in env.writeFails {
          continue;
        }
        files := files[destPath := data];
      }
      assert protoFiles[i..] == [];
    }

    /**
     * One `proto sync` run. Returns the outcome and whether a warning about the
     * cache file was printed.
     */
    method Sync(env: SyncEnv) returns (outcome: SyncOutcome, cacheWarning: bool)
      modifies this
      ensures !ReachesComparison(env) ==> outcome.Failed? && !cacheWarning
      ensures env.config.None? ==> outcome == Failed(ConfigLoadFailed)
      ensures env.config.Some? && env.config.value.gitHubURL == "" ==> outcome == Failed(NotInitialized)
      ensures env.config.Some? && env.config.value.gitHubURL != "" && !env.tempDirCreated ==>
        outcome == Failed(TempDirFailed)
      ensures env.config.Some? && env.config.value.gitHubURL != "" && env.tempDirCreated && !env.cloned ==>
        outcome == Failed(CloneFailed)
      ensures (&& env.config.Some? && env.config.value.gitHubURL != "" && env.tempDirCreated && env.cloned
               && env.commitID.None?) ==> outcome == Failed(CommitIDFailed)
      ensures (&& ReachesComparison(env) && env.commitID.value != LoadCache(old(cache), env.cacheUnreadable).head
               && !env.protoDirCreated) ==> outcome == Failed(ProtoDirFailed)
      ensures ReachesSearch(env, old(cache)) && env.config.value.remotePath != "" && env.sourceMissing ==>
        outcome == Failed(RemotePathMissing(env.config.value.remotePath, TreeListing(env.cloneWalk)))
      ensures (&& ReachesSearch(env, old(cache)) && !(env.config.value.remotePath != "" && env.sourceMissing)
               && env.walkFailed) ==> outcome == Failed(SearchFailed)
      ensures (&& ReachesSearch(env, old(cache)) && !(env.config.value.remotePath != "" && env.sourceMissing)
               && !env.walkFailed && FoundProtoFiles(env) == []) ==>
        outcome == Failed(NoProtoFiles(SourceDir(env.cloneDir, env.config.value.remotePath), TreeListing(env.sourceWalk)))
      ensures cacheWarning <==> ReachesComparison(env) && LoadCache(old(cache), env.cacheUnreadable).failed
      ensures outcome == UpToDate <==>
        ReachesComparison(env) && env.commitID.value == LoadCache(old(cache), env.cacheUnreadable).head
      ensures outcome.Failed? && outcome.error.RemotePathMissing? ==>
        && env.config.Some?
        && outcome.error.remotePath == env.config.value.remotePath != ""
        && outcome.error.listing == TreeListing(env.cloneWalk)
      ensures outcome.Failed? && outcome.error.NoProtoFiles? ==>
        && env.config.Some?
        && outcome.error.dir == SourceDir(env.cloneDir, env.config.value.remotePath)
        && outcome.error.listing == TreeListing(env.sourceWalk)
        && FoundProtoFiles(env) == []
      ensures !ReachesCopy(env, old(cache)) ==> files == old(files) && cache == old(cache)
      ensures ReachesCopy(env, old(cache)) ==>
        && files == CopyAll(old(files), env.config.value.protoDir, FoundProtoFiles(env), env.copy)
        && (if env.cacheSaveFails
            then outcome == Failed(CacheSaveFailed) && cache == old(cache)
            else outcome == Synced && cache == CacheHead(env.commitID.value))
      ensures outcome == Synced <==> ReachesCopy(env, old(cache)) && !env.cacheSaveFails
    {
      cacheWarning := false;
      if env.config.None? {
        return Failed(ConfigLoadFailed), cacheWarning;
      }
      var config := env.config.value;
      if config.gitHubURL == "" {
        return Failed(NotInitialized), cacheWarning;
      }
      if !env.tempDirCreated {
        return Failed(TempDirFailed), cacheWarning;
      }
      if !env.cloned {
        return Failed(CloneFailed), cacheWarning;
      }
      if env.commitID.None? {
        return Failed(CommitIDFailed), cacheWarning;
      }
      var commitID := env.commitID.value;
      var cached := LoadCache(cache, env.cacheUnreadable);
      cacheWarning := cached.failed;
      if commitID == cached.head {
        return UpToDate, cacheWarning;
      }
      if !env.protoDirCreated {
        return Failed(ProtoDirFailed), cacheWarning;
      }
      var sourceDir := SourceDir(env.cloneDir, config.remotePath);
      if config.remotePath != "" && env.sourceMissing {
        return Failed(RemotePathMissing(config.remotePath, TreeListing(env.cloneWalk))), cacheWarning;
      }
      if env.walkFailed {
        return Failed(SearchFailed), cacheWarning;
      }
      var protoFiles := CollectProtoFiles(env.sourceWalk, Base(sourceDir));
      if |protoFiles| == 0 {
        return Failed(NoProtoFiles(sourceDir, TreeListing(env.sourceWalk))), cacheWarning;
      }
      CopyProtoFiles(config.protoDir, protoFiles, env.copy);
      if env.cacheSaveFails {
        return Failed(CacheSaveFailed), cacheWarning;
      }
      cache := CacheHead(commitID);
      outcome := Synced;
    }
  }

  /**
   * Running sync again right after a successful run, against the same clone,
   * reports that everything is already up to date and changes nothing.
   */
  method SyncTwice(dir: ProtoDirectory, env: SyncEnv) returns (first: SyncOutcome, second: SyncOutcome)
    requires !env.cacheUnreadable
    modifies dir
    ensures first == Synced ==> ReachesCopy(env, old(dir.cache))
    ensures first == Synced ==>
      && second == UpToDate
      && dir.files == CopyAll(old(dir.files), env.config.value.protoDir, FoundProtoFiles(env), env.copy)
  {
    var warned;
    first, warned := dir.Sync(env);
    if first == Synced {
      second, warned := dir.Sync(env);
    } else {
      second := first;
    }
  }
}
