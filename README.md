# proto: a verified model of the proto CLI core

`proto` is a small command-line tool that keeps a project's Protocol Buffer
files in step with a Git repository and builds SDKs from them. This project
models its core in Dafny:

- **`gen`** (`cmd/proto/commands/gen.go`, module `Gen` in `gen.dfy`):
  - the line-by-line rewrite that removes every existing
    `option go_package` line and inserts `option go_package = "<module>";`
    right after the first `package` line;
  - the scan of `go.mod` for the module path;
  - the order of the command's guards, and its dispatch on the SDK type.
- **`sync`** (`cmd/proto/commands/sync.go`, module `Sync` in `sync.dfy`):
  - the up-to-date check against the cached head commit;
  - the cleaning of the configured remote path;
  - the search for `.proto` files at any depth;
  - the best-effort copy loop and the cache update that follows it;
  - the indented tree listing printed when nothing is found.
- **the entry point** (`cmd/proto/main.go`, module `Cli` in `cli.dfy`):
  - dispatch on the command word;
  - the `init` flags, with Go's flag-package rules and the defaults;
  - `build` with its per-file protoc runs;
  - main.go's own flat `sync`, which copies only the top-level `*.proto`
    files and records `LastCommitID` in the configuration.

Supporting modules:

- `GoStrings`: the parts of Go's `strings` package the code relies on, with
  the split/join round trip proved.
- `Paths`: file paths, walked directory entries, and the one `filepath.Join`
  (`Paths.JoinPath`) and `filepath.Base` every command uses.
- `ProtoConfig`: the configuration record.
- `Wrappers`: an `Option` type.

How each kind of source code is modelled:

- Each `for` loop of the source is a method with loop invariants, proved
  equal to a recursive specification function. These are the rewrite and
  go.mod scans, gen's temporary-file and python protoc loops, build's
  per-file protoc loop, and the two copy loops of the sync commands.
- `filepath.Walk` drives the callbacks of sync.go, so there the loop is
  Walk's, not the source's. The walk is an input sequence of entries, and
  each callback is a recursive function over it: `Sync.ProtoFilesIn` for
  the search (whose callback is also a method, `Sync.CollectProtoFiles`)
  and `Sync.Listed` for the tree listings.
- What the source promises is proved about those functions as lemmas.
- State the commands change is held in classes:
  - `Sync.ProtoDirectory` holds the files sync writes, by destination path,
    and the proto directory's `.proto_cache` file.
  - `Cli.Workdir` holds the `.protorc` record and the files written.
- Everything outside the process is an input to the command methods: git,
  protoc, the file system's answers, and the directory walks.

Behaviour of the source that the model keeps as written:

- main.go dispatches `build`, not `gen`. Its `build` runs protoc once per
  file, with no gRPC options.
- A malformed or undefined `init` flag exits with code 2, because the flag
  set uses `flag.ExitOnError`.
- The Go branch of `gen` skips a proto file it cannot read, or whose
  temporary copy it cannot write. It does not abort.
- When the remote path names a single `.proto` file, `sync.go` finds that
  file as the walk's root, fails to write it onto the proto directory itself, and still
  saves the new head.
- Two `sync` variants exist:
  - `sync.go` caches the head in a side file;
  - main.go's `syncCmd`, the one that `main` calls, stores it as
    `LastCommitID` in the configuration record.

  Both are modelled.

## Model

| member | source | states |
|---|---|---|
| Gen.OptionIsNotPackage | cmd/proto/commands/gen.go:114-119 | no line is both an `option go_package` line and a `package ` line, once trimmed |
| Gen.GoPackageLineIsOption | cmd/proto/commands/gen.go:120 | the inserted line is itself a go_package option line, and never a package line |
| Gen.Kept | cmd/proto/commands/gen.go:113-118 | filtering out the option lines leaves no option line and never adds lines |
| Gen.RewriteLines | cmd/proto/commands/gen.go:108-123 | the loop with its `packageLineFound` flag computes exactly `Rewrite(lines, modulePath)` |
| Gen.KeptAppend | cmd/proto/commands/gen.go:113-118 | the kept lines of a concatenation are the kept lines of each part, in order |
| Gen.RewriteAfterFoundKeeps | cmd/proto/commands/gen.go:118-122 | once a package line has been seen, the loop only drops option lines and inserts nothing more |
| Gen.RewriteInsertsAfterFirstPackage | cmd/proto/commands/gen.go:111-122 | with the first package line at p, the output is the kept lines up to p, the go_package line, then the kept lines after p |
| Gen.RewriteBeforePackage | cmd/proto/commands/gen.go:111-122 | lines before the first package line only lose their option lines, and do not change how the rest is rewritten |
| Gen.RewriteAtPackageLine | cmd/proto/commands/gen.go:118-122 | at a package line with the flag unset, the go_package line follows it and the rest only loses option lines |
| Gen.RewriteWithoutPackage | cmd/proto/commands/gen.go:111-122 | without a package line the output is the input minus its option lines, with no go_package line at all |
| Gen.NoOptionsInKept | cmd/proto/commands/gen.go:113-117 | lines without option lines are kept unchanged |
| Gen.RewriteLinesFrom | cmd/proto/commands/gen.go:113-123 | every output line is an input line or the inserted go_package line |
| Gen.RewriteDropsOldOptions | cmd/proto/commands/gen.go:113-122 | every option line of the output is the inserted line, and it directly follows a package line |
| Gen.FirstPackageIndex | cmd/proto/commands/gen.go:119 | when a package line exists, the index of the first one |
| Gen.RewriteKeepsOtherLines | cmd/proto/commands/gen.go:118 | removing option lines from the output gives exactly the non-option input lines, in order |
| Gen.RewriteInsertsOnce | cmd/proto/commands/gen.go:111-122 | the output has exactly one option line if the input has a package line, and none otherwise |
| Gen.RewriteIgnoresOptions | cmd/proto/commands/gen.go:113-117 | old option lines have no effect on the output |
| Gen.RewriteIdempotent | cmd/proto/commands/gen.go:113-123 | rewriting twice with the same module path equals rewriting once |
| Gen.RewriteIdentity | cmd/proto/commands/gen.go:113-123 | lines with neither package nor option lines come back unchanged |
| Gen.RewriteProtoIdentity | cmd/proto/commands/gen.go:108-126 | a file with neither package nor option lines comes back identical after split, rewrite and join |
| Gen.RewriteProtoIdempotent | cmd/proto/commands/gen.go:108-126 | for a module path without a newline, rewriting a whole file twice equals rewriting it once |
| GoStrings.JoinSplit | cmd/proto/commands/gen.go:109-126 | joining the split pieces with the separator gives back the original text |
| GoStrings.SplitJoin | cmd/proto/commands/gen.go:109-126 | splitting the join of separator-free pieces gives back the pieces |
| Gen.ScanModulePath | cmd/proto/commands/gen.go:76-83 | the loop with `break` computes `ModulePathOf(lines)` |
| Gen.ModulePathIsFirstModuleLine | cmd/proto/commands/gen.go:78-82 | the module path comes from the first line whose trimmed form starts with `module `, and later lines are ignored |
| Gen.ModulePathWithoutModuleLine | cmd/proto/commands/gen.go:76-88 | without a module line the path is empty, the case the command rejects |
| Gen.ModulePathPlain | cmd/proto/commands/gen.go:79-80 | `module example.com/app` yields `example.com/app` |
| Gen.ModulePathIndented | cmd/proto/commands/gen.go:79-80 | an indented `  module example.com/app` yields `module example.com/app`, because the prefix is cut from the untrimmed line |
| Gen.ModulePathHasNoNewline | cmd/proto/commands/gen.go:77-80 | a module path read from go.mod never contains a newline |
| Gen.FirstModuleLineIndex | cmd/proto/commands/gen.go:78-79 | when a module line exists, the index of the first one |
| Gen.GenCmd | cmd/proto/commands/gen.go:14-204 | each guard fails with its own error, in source order, before any temporary file or protoc run: configuration load, URL, build directory, glob, empty file list, then per SDK each missing plugin or module, go.mod and its module path; an unknown SDK type fails the same way; the Go branch runs protoc once on the rewritten temporary files named `pb_<base>`; the Python branch runs protoc per file until the first failure |
| Gen.WriteTempFiles | cmd/proto/commands/gen.go:93-133 | the temp-file loop, with `continue` on a read or write failure, produces exactly `GoTempFiles(files, env.contents, env.unwritable, modulePath)`; each `pb_` file it writes is in the directory that later turns read from |
| Gen.RunPythonProtoc | cmd/proto/commands/gen.go:173-198 | the per-file protoc loop, which exits at the first failure, makes exactly the runs `PythonRuns` describes |
| Gen.GoTempFilesExactlyReadable | cmd/proto/commands/gen.go:94-131 | a temporary file is written exactly when some proto file is readable at its turn and its `pb_` file is writable; the temporary file holds the rewrite of that file's content as the directory stands at that turn, including `pb_` files written by earlier turns |
| Gen.ContentsBeforeUnwritten | cmd/proto/commands/gen.go:104-126 | a path that no earlier turn's `pb_` name hits is read exactly as it was before the loop: present or absent, with the same content |
| Gen.GoTempFilesWithoutLeftovers | cmd/proto/commands/gen.go:94-131 | when no globbed file is another globbed file's `pb_` name, the temporary files are exactly the readable, writable files with their original content rewritten |
| Gen.StalePbFileReadAsWritten | cmd/proto/commands/gen.go:94-131 | when the glob returns `a.proto` and a leftover `pb_a.proto`, the second turn reads the `pb_a.proto` the first turn just wrote, so `pb_pb_a.proto` holds the rewrite applied twice |
| Gen.PythonRunsStopAtFirstFailure | cmd/proto/commands/gen.go:173-198 | the Python branch runs protoc on the files in order, and stops right after the first failure |
| Sync.LoadCache | cmd/proto/commands/sync.go:55-59 | a missing cache is no error; a failed load is only a warning, and the comparison then uses the empty string |
| Sync.CleanRemotePathTrimsQuotes | cmd/proto/commands/sync.go:77 | the cleaned remote path is the middle of the configured one, with only quote characters removed from each end, and neither starts nor ends with a quote |
| Sync.SourceDirExamples | cmd/proto/commands/sync.go:74-78 | for a clone directory as os.MkdirTemp makes it, an empty remote path searches the clone root and a quoted one searches the unquoted sub-path |
| Paths.BaseOfJoin | cmd/proto/commands/sync.go:130-134 | the name Walk reports for its root, filepath.Base of the joined path, is the last element of what was joined onto the directory, whatever the directory |
| Sync.CollectProtoFiles | cmd/proto/commands/sync.go:129-138 | the Walk callback collects exactly `ProtoFilesIn(walk, rootName)`, the root named by its base name |
| Sync.ProtoFilesInAppend | cmd/proto/commands/sync.go:129-138 | the files are discovered in walk order |
| Sync.ProtoFilesInExactly | cmd/proto/commands/sync.go:130-137 | a path is discovered if and only if some walked non-directory entry, at any depth and the root included, has it and its name ends in `.proto` |
| Sync.DestPathKeepsStructure | cmd/proto/commands/sync.go:193-200 | two relative paths, the root's `.` included, share a destination under the proto directory if and only if they are equal, whatever the proto directory, so the sub-directory structure is kept and no copy overwrites another |
| Sync.CopyAllBestEffort | cmd/proto/commands/sync.go:191-219 | every file whose copy succeeds is at its destination with its source's contents; a failing file is skipped without stopping the rest; every path no successful copy targets is untouched |
| Sync.FileRemotePathCopiesNothing | cmd/proto/commands/sync.go:74-219 | a remote path naming one proto file: that file is found as the walk's root, the run reaches the copy, and the copy onto the proto directory itself fails, leaving the files as they were |
| Sync.ProtoDirectory.CopyProtoFiles | cmd/proto/commands/sync.go:190-219 | the copy loop with `continue` on each failure leaves the files `CopyAll` describes, and does not touch the cache |
| Sync.ProtoDirectory.Sync | cmd/proto/commands/sync.go:14-228 | reports up to date, with no copy and no cache write, if and only if the commit equals the cached head; a cache-load error is only a warning; a missing remote path fails with that path and the clone's listing; with no proto files, fails naming the searched directory `SourceDir(clone, remote path)` with its listing, and writes nothing; otherwise copies best effort to `DestPath(protoDir, rel)`, then sets the cache to the new commit, unless saving fails |
| Sync.SyncTwice | cmd/proto/commands/sync.go:61-65 | a second run right after a successful one reports up to date |
| Sync.DepthIsComponentsMinusOne | cmd/proto/commands/sync.go:164-170 | a listing line is indented by two spaces per separator in the relative path, one level less than its number of components |
| Sync.ListedFirst | cmd/proto/commands/sync.go:148-162 | the callback lists an entry exactly when it is shown, and prunes a hidden directory it skips |
| Sync.ListedFrom | cmd/proto/commands/sync.go:148-162 | the Walk-with-SkipDir callback lists exactly the shown entries, provided every hidden ancestor is pruned or still to come |
| Sync.ListingShowsExactlyVisible | cmd/proto/commands/sync.go:148-176 | for a pre-order walk, the listing omits the root and shows exactly the entries with no hidden path component, in walk order |
| Cli.FlagArgsParse | cmd/proto/main.go:62-69 | parsing `--name value` pairs of defined flags consumes every argument and sets each flag to the value given last |
| Cli.InitCmd | cmd/proto/main.go:61-90 | a configuration is saved only with a non-empty URL and exit 0; help exits 0; a bad flag exits 2 |
| Cli.InitFromFlags | cmd/proto/main.go:62-82 | each field takes its flag's last value, or the defaults `main`, empty, `./proto` and `./gen`; without a URL, exit 1 and nothing saved |
| Cli.InitMissingUrl | cmd/proto/main.go:71-74 | `proto init` with no flags exits 1 and saves nothing |
| Cli.InitValidExample | cmd/proto/main.go:63-82 | `init --url … --branch main --remote-path ./protos` saves that URL, branch and path with the default directories |
| Cli.InitUndefinedFlag | cmd/proto/main.go:62-69 | an undefined flag exits 2 and saves nothing |
| Cli.InitHelpFlag | cmd/proto/main.go:62-69 | `-h` exits 0 and saves nothing |
| Cli.InitMissingValue | cmd/proto/main.go:62-69 | a last flag without a value exits 2 and saves nothing, even after a URL was given |
| Cli.RunUntilFailurePrefix | cmd/proto/main.go:221-230 | the protoc runs are a prefix of the planned ones, every run but the last succeeded, and a cut-short sequence ends in a failure |
| Cli.RunUntilFailureFails | cmd/proto/main.go:221-230 | the runs end in a failed protoc invocation if and only if some planned invocation fails |
| Cli.BuildSdk | cmd/proto/main.go:207-232 | exit 0 exactly when protoc succeeds on every proto file, and then it ran once per file in order |
| Cli.RunProtocPerFile | cmd/proto/main.go:221-256 | the loop that exits at the first failing protoc run makes exactly the runs `RunUntilFailure` describes, and reports failure exactly when the last run failed |
| Cli.RunBuild | cmd/proto/main.go:183-258 | buildCmd run step by step, guards then the per-file loop, gives exactly the result `BuildCmd` describes |
| Cli.BuildCmd | cmd/proto/main.go:183-258 | protoc runs only with a language argument of `go` or `python`, a loaded configuration and a build directory; exit 0 exactly when every file's run succeeds, and then protoc ran once per file in order |
| Cli.GlobProtoExactly | cmd/proto/main.go:147 | the flat sync takes exactly the names in the source directory that end in `.proto` |
| Cli.FlatCopySpec | cmd/proto/main.go:158-171 | the copy succeeds if and only if every file is readable and writable; each then lands at `ProtoDir/<name>` with its contents; nothing outside those paths changes |
| Cli.Workdir.CopyFlat | cmd/proto/main.go:158-171 | the copy loop, which exits at the first failure, leaves the files and success flag `FlatCopy` describes |
| Cli.LastCommitIDAfterAllCopies | cmd/proto/main.go:158-178 | `LastCommitID` changes only on a run in which every matched file was copied, and then it holds the clone's commit |
| Cli.FlatSyncWritesOnlyTopLevelProtos | cmd/proto/main.go:147-171 | the flat sync writes only top-level `*.proto` names into the configured proto directory |
| Cli.Workdir.SyncFlat | cmd/proto/main.go:92-181 | an empty URL fails before cloning; a commit equal to `LastCommitID` exits 0 and writes nothing; otherwise the copy runs and the record is updated only after every copy succeeded |
| Cli.Workdir.Run | cmd/proto/main.go:38-59 | fewer than two arguments prints the help and exits 1; `help` exits 0; an unknown command exits 1 and changes nothing; `init`, `sync` and `build` do what their models state |

## Left out

- YAML and the `.protorc` / `.proto_cache` files:
  - A configuration is a record, and the cache file is a head string (or
    corrupt, or missing). Marshalling, `os.Getwd` and directory creation are
    not modelled.
  - pkg/proto/config.go's `Config` declares no `LastCommitID`, although
    main.go reads and writes it. The model's record carries the field as
    main.go uses it.
  - pkg/proto/config_test.go expects a missing configuration to load as an
    empty record, whereas `LoadConfig` fails. The model follows `LoadConfig`:
    a missing record is a load failure.
- External processes are success/failure inputs, as is whether a plugin is on
  the search path. These are `git clone`, `git rev-parse`, `protoc`, and
  `python3 -c import ...`. Output text and stdout/stderr wiring are not
  modelled.
- Directory walks are inputs:
  - `filepath.Walk` is an input sequence of entries with relative component
    paths.
  - `filepath.Glob` is an input list of matched names.
  - `filepath.Join` is `Paths.JoinPath`: an empty or `.` element, or an
    empty or `.` directory, adds nothing. Its cleaning (`filepath.Clean`) is
    not modelled: the removal of a leading `./`, of `..`, of inner `.`
    elements and of repeated separators. Nor is `filepath.Rel`, whose failure
    is an input.
- Cli.ProtocArgs: with the default proto directory `./proto`, the model
  passes `./proto/a.proto` where Go passes `proto/a.proto`, because the
  cleaning by `filepath.Join` is not modelled.
- Sync.DestPath: the destination keeps a leading `./` of the proto
  directory, which `filepath.Join` would remove, for the same reason.
- Sync.TreeListing: a walk error while printing a listing is printed and then
  ignored by the source. The model lists the whole walk and does not model an
  early stop.
- Temporary directories, and the deferred removal of temporary files:
  - They are not modelled.
  - `os.Exit` skips deferred calls, so gen's `pb_*` files stay behind when
    protoc fails. The model reports which temporary files were written, not
    their removal. A `pb_` file left behind is matched by the next glob and
    read like any other proto file (Gen.StalePbFileReadAsWritten).
- Gen.GenCmd: the `moduleName` parameter is accepted and unused, as in the
  source.
- Sync.ProtoDirectory.Sync, Cli.Workdir.SyncFlat: directories created by
  `MkdirAll` are not part of the state; only files are. A `Stat` error other
  than "does not exist" is not distinguished.
- Messages, help text and remediation hints: the model keeps the error
  variants and exit codes only.
- Strings are sequences of code points rather than UTF-8 bytes.
  `unicode.IsSpace` is modelled over code points.
- cmd/proto/commands/init.go is not part of this model. It is a thin wrapper
  over directory creation and `SaveConfig`, and `main` does not call it.
- Cli.ParseFlags: only string flags are modelled, since `init` defines no
  other kind.
