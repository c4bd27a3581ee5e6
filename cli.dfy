/**
 * The `proto` entry point (cmd/proto/main.go): command dispatch, the `init`
 * flags, the `build` command and main.go's own flat `sync`, which copies
 * the top-level `*.proto` files of the clone and records the synced commit
 * in the configuration.
 *
 * The working directory is a class whose fields the commands update: the
 * `.protorc` record and the files written into it. Processes (git, protoc),
 * directory listings and file reads and writes are inputs.
 */
module Cli {
  import opened Wrappers
  import opened GoStrings
  import opened Paths
  import opened ProtoConfig

  // ---------------------------------------------------------------------------
  // Go's flag package, for a flag set of string flags with ExitOnError

  /** The outcome of FlagSet.Parse: the values set and the arguments left, `-h`/`-help`, or an error. */
  datatype FlagParse = Parsed(values: map<string, string>, rest: seq<string>) | HelpRequested | BadFlag(arg: string)

  /** The index of the first `=` in a flag's text, or its length when there is none. */
  function FirstEquals(s: string): (k: nat)
    ensures k <= |s|
    ensures forall i :: 0 <= i < k ==> s[i] != '='
    ensures k < |s| ==> s[k] == '='
  {
    if s == [] || s[0] == '=' then 0 else 1 + FirstEquals(s[1..])
  }

  /**
   * FlagSet.Parse over string flags named in `known`: `-name value`,
   * `--name value`, `-name=value` and `--name=value` set a flag (a later
   * setting wins); `--` or the first argument that is not a flag ends the
   * flags; an undefined `h` or `help` asks for help; anything else malformed
   * or undefined is an error.
   */
  function ParseFlags(args: seq<string>, known: set<string>, values: map<string, string>): FlagParse
    decreases |args|
  {
    if args == [] then Parsed(values, [])
    else
      var s := args[0];
      if |s| < 2 || s[0] != '-' then Parsed(values, args)
      else if s == "--" then Parsed(values, args[1..])
      else
        var text := if s[1] == '-' then s[2..] else s[1..];
        if text == [] || text[0] == '-' || text[0] == '=' then BadFlag(s)
        else
          var k := FirstEquals(text);
          var name := text[..k];
          if name !in known then (if name == "help" || name == "h" then HelpRequested else BadFlag(s))
          else if k < |text| then ParseFlags(args[1..], known, values[name := text[k + 1..]])
          else if |args| >= 2 then ParseFlags(args[2..], known, values[name := args[1]])
          else BadFlag(s)
  }

  /** A flag name `--name` can carry. */
  predicate PlainFlagName(name: string) {
    name != [] && name[0] != '-' && name[0] != '=' && '=' !in name
  }

  /** Command-line arguments `--name value` for each pair, in order. */
  function FlagArgs(pairs: seq<(string, string)>): (r: seq<string>)
    ensures |r| == 2 * |pairs|
  {
    if pairs == [] then [] else ["--" + pairs[0].0, pairs[0].1] + FlagArgs(pairs[1..])
  }

  /** The value given last for `name` in `pairs`, or `fallback` when none is. */
  function LastValue(pairs: seq<(string, string)>, name: string, fallback: string): string {
    if pairs == [] then fallback
    else LastValue(pairs[1..], name, if pairs[0].0 == name then pairs[0].1 else fallback)
  }

  function SetAll(values: map<string, string>, pairs: seq<(string, string)>): map<string, string>
    decreases |pairs|
  {
    if pairs == [] then values else SetAll(values[pairs[0].0 := pairs[0].1], pairs[1..])
  }

  /** A flag's value after parsing: the value set, or its default. */
  function Lookup(values: map<string, string>, name: string, default: string): string {
    if name in values then values[name] else default
  }

  lemma {:induction false} LookupSetAll(values: map<string, string>, pairs: seq<(string, string)>, name: string, default: string)
    ensures Lookup(SetAll(values, pairs), name, default) == LastValue(pairs, name, Lookup(values, name, default))
    decreases |pairs|
  {
    if pairs != [] {
      LookupSetAll(values[pairs[0].0 := pairs[0].1], pairs[1..], name, default);
    }
  }

  /**
   * Parsing `--name value` pairs of defined flags sets each flag to the value
   * given last for it and consumes every argument.
   */
  lemma {:induction false} FlagArgsParse(pairs: seq<(string, string)>, known: set<string>, values: map<string, string>)
    requires forall i :: 0 <= i < |pairs| ==> pairs[i].0 in known && PlainFlagName(pairs[i].0)
    ensures ParseFlags(FlagArgs(pairs), known, values) == Parsed(SetAll(values, pairs), [])
  {
    if pairs != [] {
      var (name, value) := pairs[0];
      var args := FlagArgs(pairs);
      var s := "--" + name;
      assert args[0] == s && args[1] == value && args[2..] == FlagArgs(pairs[1..]);
      assert s[2..] == name;
      assert forall i :: 0 <= i < |name| ==> name[i] != '=';
      assert FirstEquals(name) == |name|;
      assert name[..|name|] == name;
      FlagArgsParse(pairs[1..], known, values[name := value]);
    }
  }

  // ---------------------------------------------------------------------------
  // init

  const InitFlags: set<string> := {"url", "branch", "remote-path", "proto-dir", "build-dir"}

  /** The exit code of `init` and the configuration it saves, if any. */
  datatype InitResult = InitResult(exitCode: int, saved: Option<Config>)

  /**
   * initCmd, given the arguments after `init`: a help flag exits 0 and a bad
   * flag exits 2 (ExitOnError), an empty URL exits 1, and otherwise the
   * configuration with its defaults is saved unless SaveConfig fails.
   */
  function InitCmd(flagArgs: seq<string>, saveFails: bool): (r: InitResult)
    ensures r.saved.Some? ==> r.exitCode == 0 && r.saved.value.gitHubURL != "" && r.saved.value.lastCommitID == ""
    ensures r.exitCode == 0 <==> r.saved.Some? || ParseFlags(flagArgs, InitFlags, map[]).HelpRequested?
    ensures r.exitCode == 2 <==> ParseFlags(flagArgs, InitFlags, map[]).BadFlag?
  {
    match ParseFlags(flagArgs, InitFlags, map[])
    case HelpRequested => InitResult(0, None)
    case BadFlag(_) => InitResult(2, None)
    case Parsed(values, _) =>
      var url := Lookup(values, "url", "");
      if url == "" then InitResult(1, None)
      else
        var config := Config(
          url,
          Lookup(values, "branch", "main"),
          Lookup(values, "remote-path", ""),
          Lookup(values, "proto-dir", "./proto"),
          Lookup(values, "build-dir", "./gen"),
          "");
        if saveFails then InitResult(1, None) else InitResult(0, Some(config))
  }

  /**
   * For `init --name value ...`: each field takes the last value given for
   * its flag, or its default (branch `main`, remote path empty, proto
   * directory `./proto`, build directory `./gen`); without a URL nothing is
   * saved and the exit code is 1.
   */
  lemma InitFromFlags(pairs: seq<(string, string)>, saveFails: bool)
    requires forall i :: 0 <= i < |pairs| ==> pairs[i].0 in InitFlags
    ensures var r := InitCmd(FlagArgs(pairs), saveFails);
      var url := LastValue(pairs, "url", "");
      if url == "" then r == InitResult(1, None)
      else if saveFails then r == InitResult(1, None)
      else r == InitResult(0, Some(Config(
        url,
        LastValue(pairs, "branch", "main"),
        LastValue(pairs, "remote-path", ""),
        LastValue(pairs, "proto-dir", "./proto"),
        LastValue(pairs, "build-dir", "./gen"),
        "")))
  {
    forall i | 0 <= i < |pairs| ensures PlainFlagName(pairs[i].0) {
      InitFlagIsPlain(pairs[i].0);
    }
    FlagArgsParse(pairs, InitFlags, map[]);
    LookupSetAll(map[], pairs, "url", "");
    LookupSetAll(map[], pairs, "branch", "main");
    LookupSetAll(map[], pairs, "remote-path", "");
    LookupSetAll(map[], pairs, "proto-dir", "./proto");
    LookupSetAll(map[], pairs, "build-dir", "./gen");
  }

  lemma InitFlagIsPlain(name: string)
    requires name in InitFlags
    ensures PlainFlagName(name)
  {
    if name == "url" {
    } else if name == "branch" {
    } else if name == "remote-path" {
    } else if name == "proto-dir" {
    } else {
      assert name == "build-dir";
    }
  }

  /** `proto init` without arguments saves nothing and exits 1. */
  lemma InitMissingUrl(saveFails: bool)
    ensures InitCmd([], saveFails) == InitResult(1, None)
  {
  }

  const ValidInitPairs: seq<(string, string)> :=
    [("url", "https://github.com/example/proto"), ("branch", "main"), ("remote-path", "./protos")]

  lemma ValidInitArgs()
    ensures FlagArgs(ValidInitPairs) ==
      ["--url", "https://github.com/example/proto", "--branch", "main", "--remote-path", "./protos"]
  {
    var pairs := ValidInitPairs;
    assert "--" + "url" == "--url" && "--" + "branch" == "--branch" && "--" + "remote-path" == "--remote-path";
    assert pairs[2..][1..] == [] && pairs[1..][1..] == pairs[2..] && pairs[2..][0] == pairs[2];
    assert FlagArgs(pairs[2..]) == ["--remote-path", "./protos"];
    assert FlagArgs(pairs[1..]) == ["--branch", "main"] + FlagArgs(pairs[2..]);
  }

  /** The arguments of a valid `init`: the given values, and the default directories. */
  lemma InitValidExample()
    ensures InitCmd(FlagArgs(ValidInitPairs), false)
      == InitResult(0, Some(Config("https://github.com/example/proto", "main", "./protos", "./proto", "./gen", "")))
    ensures FlagArgs(ValidInitPairs) ==
      ["--url", "https://github.com/example/proto", "--branch", "main", "--remote-path", "./protos"]
  {
    var pairs := ValidInitPairs;
    ValidInitArgs();
    assert forall i :: 0 <= i < |pairs| ==> pairs[i].0 in InitFlags;
    InitFromFlags(pairs, false);
  }

  /** An undefined flag makes `init` exit 2 without saving. */
  lemma InitUndefinedFlag()
    ensures InitCmd(["--verbose"], false) == InitResult(2, None)
  {
    UndefinedVerbose();
  }

  lemma UndefinedVerbose()
    ensures ParseFlags(["--verbose"], InitFlags, map[]) == BadFlag("--verbose")
  {
    assert "--verbose"[2..] == "verbose";
    assert FirstEquals("verbose") == 7;
    assert "verbose"[..7] == "verbose";
  }

  /** `-h` makes `init` exit 0 without saving. */
  lemma InitHelpFlag()
    ensures InitCmd(["-h"], false) == InitResult(0, None)
  {
    assert "-h"[1..] == "h";
    assert FirstEquals("h") == 1;
    assert "h"[..1] == "h";
  }

  /** A last flag without its value makes `init` exit 2 without saving, even after a URL. */
  lemma InitMissingValue()
    ensures InitCmd(["-url=x", "-branch"], false) == InitResult(2, None)
  {
    var args := ["-url=x", "-branch"];
    assert args[0][1..] == "url=x";
    assert FirstEquals("url=x") == 3;
    assert "url=x"[..3] == "url" && "url=x"[4..] == "x";
    assert args[1..] == ["-branch"];
    BranchWithoutValue(map["url" := "x"]);
  }

  /** `-branch` as the last argument lacks its value, whatever was parsed before it. */
  lemma BranchWithoutValue(values: map<string, string>)
    ensures ParseFlags(["-branch"], InitFlags, values) == BadFlag("-branch")
  {
    assert "-branch"[1..] == "branch";
    assert FirstEquals("branch") == 6;
    assert "branch"[..6] == "branch";
  }

  // ---------------------------------------------------------------------------
  // build

  /** The answers of the file system and of protoc to one `build` run. */
  datatype BuildEnv = BuildEnv(
    buildDirCreated: bool,        // os.MkdirAll on the build directory succeeds
    globFailed: bool,             // filepath.Glob rejects the pattern
    protoMatches: seq<string>,    // names Glob matches for `*.proto` in the proto directory, sorted
    protocFails: set<seq<string>>)

  datatype BuildResult = BuildResult(exitCode: int, protocRuns: seq<seq<string>>)

  /** The protoc arguments for one file and language. */
  function ProtocArgs(lang: string, config: Config, name: string): seq<string> {
    var file := Render(FilePath(config.protoDir, name));
    if lang == "go" then ["--go_out=" + config.buildDir, "--go_opt=paths=source_relative", file]
    else ["--python_out=" + config.buildDir, file]
  }

  function AllProtocArgs(lang: string, config: Config, names: seq<string>): (r: seq<seq<string>>)
    ensures |r| == |names| && forall i :: 0 <= i < |names| ==> r[i] == ProtocArgs(lang, config, names[i])
  {
    if names == [] then [] else [ProtocArgs(lang, config, names[0])] + AllProtocArgs(lang, config, names[1..])
  }

  /** Runs the invocations in order, stopping after the first one that fails. */
  function RunUntilFailure(runs: seq<seq<string>>, fails: set<seq<string>>): seq<seq<string>> {
    if runs == [] then []
    else if runs[0] in fails then [runs[0]]
    else [runs[0]] + RunUntilFailure(runs[1..], fails)
  }

  /**
   * The runs made are a prefix of the planned ones, every run but the last
   * succeeded, and a sequence cut short ends in a failure.
   */
  lemma {:induction false} RunUntilFailurePrefix(runs: seq<seq<string>>, fails: set<seq<string>>)
    ensures var r := RunUntilFailure(runs, fails);
      && |r| <= |runs| && r == runs[..|r|]
      && (forall i :: 0 <= i < |r| - 1 ==> r[i] !in fails)
      && (r != runs ==> r != [] && r[|r| - 1] in fails)
  {
    if runs != [] && runs[0] !in fails {
      RunUntilFailurePrefix(runs[1..], fails);
      var rest := RunUntilFailure(runs[1..], fails);
      var r := [runs[0]] + rest;
      assert RunUntilFailure(runs, fails) == r;
      assert runs[1..][..|rest|] == runs[1..|rest| + 1];
      assert r == runs[..|r|];
      forall i | 0 <= i < |r| - 1 ensures r[i] !in fails {
        if i > 0 {
          assert r[i] == rest[i - 1];
        }
      }
    }
  }

  /** The runs end in a failure exactly when some planned invocation fails. */
  lemma {:induction false} RunUntilFailureFails(runs: seq<seq<string>>, fails: set<seq<string>>)
    ensures var r := RunUntilFailure(runs, fails);
      (r != [] && r[|r| - 1] in fails) <==> exists i :: 0 <= i < |runs| && runs[i] in fails
  {
    RunUntilFailurePrefix(runs, fails);
    var r := RunUntilFailure(runs, fails);
    if r != [] && r[|r| - 1] in fails {
      assert runs[|r| - 1] == r[|r| - 1];
    }
    if exists i :: 0 <= i < |runs| && runs[i] in fails {
      var i :| 0 <= i < |runs| && runs[i] in fails;
      if r == runs {
        assert r[i] in fails;
      }
    }
  }

  /** buildGoSDK / buildPythonSDK after their directory and glob steps: protoc per file until one fails. */
  function BuildSdk(lang: string, config: Config, env: BuildEnv): (r: BuildResult)
    ensures r.exitCode == 0 <==>
      forall i :: 0 <= i < |env.protoMatches| ==> ProtocArgs(lang, config, env.protoMatches[i]) !in env.protocFails
    ensures r.exitCode == 0 ==> r.protocRuns == AllProtocArgs(lang, config, env.protoMatches)
    ensures r.exitCode == 0 || r.exitCode == 1
  {
    var all := AllProtocArgs(lang, config, env.protoMatches);
    var runs := RunUntilFailure(all, env.protocFails);
    RunUntilFailurePrefix(all, env.protocFails);
    RunUntilFailureFails(all, env.protocFails);
    BuildResult(if runs != [] && runs[|runs| - 1] in env.protocFails then 1 else 0, runs)
  }

  /**
   * buildCmd, given the whole argument list: a missing language prints the
   * usage, the configuration is loaded before the language is looked at, and
   * `go` and `python` run protoc once per proto file until one fails.
   */
  function BuildCmd(args: seq<string>, config: Option<Config>, env: BuildEnv): (r: BuildResult)
    ensures r.protocRuns != [] ==>
      |args| >= 3 && (args[2] == "go" || args[2] == "python") && config.Some? && env.buildDirCreated && !env.globFailed
    ensures r.exitCode == 0 <==>
      && |args| >= 3 && (args[2] == "go" || args[2] == "python") && config.Some? && env.buildDirCreated && !env.globFailed
      && forall i :: 0 <= i < |env.protoMatches| ==> ProtocArgs(args[2], config.value, env.protoMatches[i]) !in env.protocFails
    ensures r.exitCode == 0 ==> r.protocRuns == AllProtocArgs(args[2], config.value, env.protoMatches)
    ensures r.exitCode == 0 || r.exitCode == 1
  {
    if |args| < 3 then BuildResult(1, [])
    else if config.None? then BuildResult(1, [])
    else
      var lang := args[2];
      if lang != "go" && lang != "python" then BuildResult(1, [])
      else if !env.buildDirCreated || env.globFailed then BuildResult(1, [])
      else
        BuildSdk(lang, config.value, env)
  }

  /**
   * The loop of buildGoSDK and buildPythonSDK: protoc on each file in turn,
   * exiting at the first failure.
   */
  method RunProtocPerFile(planned: seq<seq<string>>, fails: set<seq<string>>) returns (failed: bool, runs: seq<seq<string>>)
    ensures runs == RunUntilFailure(planned, fails)
    ensures failed <==> runs != [] && runs[|runs| - 1] in fails
  {
    runs := [];
    var i := 0;
    while i < |planned|
      invariant 0 <= i <= |planned|
      invariant runs + RunUntilFailure(planned[i..], fails) == RunUntilFailure(planned, fails)
      invariant runs == [] || runs[|runs| - 1] !in fails
    {
      var protocArgs := planned[i];
      assert planned[i..][0] == protocArgs && planned[i..][1..] == planned[i + 1..];
      var rest := RunUntilFailure(planned[i + 1..], fails);
      assert RunUntilFailure(planned[i..], fails) == if protocArgs in fails then [protocArgs] else [protocArgs] + rest;
      runs := runs + [protocArgs];
      if protocArgs in fails {
        return true, runs;
      }
      assert runs + rest == RunUntilFailure(planned, fails);
      i := i + 1;
    }
    assert planned[i..] == [];
    failed := false;
  }

  /** buildCmd step by step: its guards, then the per-file protoc loop of the chosen SDK. */
  method RunBuild(args: seq<string>, config: Option<Config>, env: BuildEnv) returns (r: BuildResult)
    ensures r == BuildCmd(args, config, env)
  {
    if |args| < 3 || config.None? {
      return BuildResult(1, []);
    }
    var lang := args[2];
    if lang != "go" && lang != "python" {
      return BuildResult(1, []);
    }
    if !env.buildDirCreated || env.globFailed {
      return BuildResult(1, []);
    }
    var failed, runs := RunProtocPerFile(AllProtocArgs(lang, config.value, env.protoMatches), env.protocFails);
    return BuildResult(if failed then 1 else 0, runs);
  }

  // ---------------------------------------------------------------------------
  // main.go's flat sync

  /** What the outside world answers to each step of one flat sync run. */
  datatype FlatEnv = FlatEnv(
    tempDirCreated: bool,
    cloned: bool,
    commitID: Option<string>,
    protoDirCreated: bool,
    globFailed: bool,                       // filepath.Glob rejects the pattern
    sourceNames: seq<string>,               // the names in the source directory, sorted
    sourceContents: map<string, string>,    // the readable files among them
    writeFails: set<string>,                // names whose destination cannot be written
    configSaveFails: bool)

  /** filepath.Glob of `*.proto` in one directory: every name ending in `.proto`, directories and dot-files included. */
  function GlobProto(names: seq<string>): seq<string> {
    if names == [] then []
    else (if HasSuffix(names[0], ".proto") then [names[0]] else []) + GlobProto(names[1..])
  }

  lemma {:induction false} GlobProtoExactly(names: seq<string>, name: string)
    ensures name in GlobProto(names) <==> name in names && HasSuffix(name, ".proto")
  {
    if names != [] {
      GlobProtoExactly(names[1..], name);
      assert names == [names[0]] + names[1..];
    }
  }

  /** The state of a copy loop that exits at the first failure. */
  datatype CopyRun = CopyRun(files: map<FilePath, string>, ok: bool)

  /** Copies each name to the proto directory under its base name, stopping at the first failure. */
  function FlatCopy(files: map<FilePath, string>, protoDir: string, names: seq<string>, env: FlatEnv): CopyRun
    decreases |names|
  {
    if names == [] then CopyRun(files, true)
    else
      var name := names[0];
      if name !in env.sourceContents || name in env.writeFails then CopyRun(files, false)
      else FlatCopy(files[FilePath(protoDir, name) := env.sourceContents[name]], protoDir, names[1..], env)
  }

  predicate Copyable(name: string, env: FlatEnv) {
    name in env.sourceContents && name !in env.writeFails
  }

  /**
   * The copy succeeds exactly when every name can be read and written, and
   * then each lands in the proto directory under its own name with the
   * source's contents. Whatever happens, nothing is written anywhere but
   * directly in the proto directory under one of the names.
   */
  lemma {:induction false} FlatCopySpec(files: map<FilePath, string>, protoDir: string, names: seq<string>, env: FlatEnv)
    ensures var r := FlatCopy(files, protoDir, names, env);
      && (r.ok <==> forall i :: 0 <= i < |names| ==> Copyable(names[i], env))
      && (r.ok ==> forall i :: 0 <= i < |names| ==>
            FilePath(protoDir, names[i]) in r.files && r.files[FilePath(protoDir, names[i])] == env.sourceContents[names[i]])
      && (forall p: FilePath :: p.dir != protoDir || p.name !in names ==>
            (p in r.files <==> p in files) && (p in files ==> r.files[p] == files[p]))
    decreases |names|
  {
    if names != [] {
      var name := names[0];
      if Copyable(name, env) {
        FlatCopySpec(files[FilePath(protoDir, name) := env.sourceContents[name]], protoDir, names[1..], env);
        assert forall i :: 1 <= i < |names| ==> names[i] == names[1..][i - 1];
        assert forall n :: n in names[1..] ==> n in names;
      }
    }
  }

  /** The flat sync stops before copying because the synced commit is already recorded. */
  predicate FlatUpToDate(env: FlatEnv, protorc: Option<Config>) {
    && protorc.Some? && protorc.value.gitHubURL != "" && env.tempDirCreated && env.cloned && env.commitID.Some?
    && env.commitID.value == protorc.value.lastCommitID
  }

  /** Every step before the copy loop succeeds and Glob finds some files. */
  predicate FlatReachesCopy(env: FlatEnv, protorc: Option<Config>) {
    && protorc.Some? && protorc.value.gitHubURL != "" && env.tempDirCreated && env.cloned && env.commitID.Some?
    && env.commitID.value != protorc.value.lastCommitID
    && env.protoDirCreated && !env.globFailed && GlobProto(env.sourceNames) != []
  }

  /** What one flat sync does, from the record and files before it to those after it and its exit code. */
  predicate FlatSyncEffect(env: FlatEnv, protorc: Option<Config>, files: map<FilePath, string>,
                           protorc': Option<Config>, files': map<FilePath, string>, exitCode: int)
  {
    if FlatReachesCopy(env, protorc) then
      var run := FlatCopy(files, protorc.value.protoDir, GlobProto(env.sourceNames), env);
      && files' == run.files
      && if run.ok && !env.configSaveFails
         then exitCode == 0 && protorc' == Some(protorc.value.(lastCommitID := env.commitID.value))
         else exitCode == 1 && protorc' == protorc
    else
      && files' == files && protorc' == protorc
      && exitCode == (if FlatUpToDate(env, protorc) then 0 else 1)
  }

  /**
   * The recorded commit changes only on a run in which every matched file
   * was read and written, and it then names the clone's commit; each matched
   * file is then in the proto directory under its base name.
   */
  lemma LastCommitIDAfterAllCopies(env: FlatEnv, protorc: Option<Config>, files: map<FilePath, string>,
                                   protorc': Option<Config>, files': map<FilePath, string>, exitCode: int)
    requires FlatSyncEffect(env, protorc, files, protorc', files', exitCode)
    requires protorc' != protorc
    ensures exitCode == 0 && protorc.Some? && env.commitID.Some?
    ensures protorc' == Some(protorc.value.(lastCommitID := env.commitID.value))
    ensures forall name :: name in env.sourceNames && HasSuffix(name, ".proto") ==>
      name in env.sourceContents && FilePath(protorc.value.protoDir, name) in files' &&
      files'[FilePath(protorc.value.protoDir, name)] == env.sourceContents[name]
  {
    var names := GlobProto(env.sourceNames);
    FlatCopySpec(files, protorc.value.protoDir, names, env);
    forall name | name in env.sourceNames && HasSuffix(name, ".proto")
      ensures name in env.sourceContents && FilePath(protorc.value.protoDir, name) in files'
      ensures files'[FilePath(protorc.value.protoDir, name)] == env.sourceContents[name]
    {
      GlobProtoExactly(env.sourceNames, name);
      var i :| 0 <= i < |names| && names[i] == name;
    }
  }

  /** A flat sync writes only top-level `.proto` names into the configured proto directory. */
  lemma FlatSyncWritesOnlyTopLevelProtos(env: FlatEnv, protorc: Option<Config>, files: map<FilePath, string>,
                                         protorc': Option<Config>, files': map<FilePath, string>, exitCode: int)
    requires FlatSyncEffect(env, protorc, files, protorc', files', exitCode)
    ensures forall p: FilePath :: p in files' && (p !in files || files'[p] != files[p]) ==>
      protorc.Some? && p.dir == protorc.value.protoDir && p.name in env.sourceNames && HasSuffix(p.name, ".proto")
  {
    if FlatReachesCopy(env, protorc) {
      var names := GlobProto(env.sourceNames);
      FlatCopySpec(files, protorc.value.protoDir, names, env);
      forall p | p in files' && (p !in files || files'[p] != files[p])
        ensures p.name in env.sourceNames && HasSuffix(p.name, ".proto")
      {
        GlobProtoExactly(env.sourceNames, p.name);
      }
    }
  }

  /** The directory `proto` runs in: its `.protorc` record and the files the commands write. */
  class Workdir {
    var protorc: Option<Config>
    var files: map<FilePath, string>

    constructor (protorc: Option<Config>, files: map<FilePath, string>)
      ensures this.protorc == protorc && this.files == files
    {
      this.protorc := protorc;
      this.files := files;
    }

    /** The copy loop of the flat sync: read each file and write it, exiting at the first failure. */
    method CopyFlat(protoDir: string, names: seq<string>, env: FlatEnv) returns (ok: bool)
      modifies this
      ensures CopyRun(files, ok) == FlatCopy(old(files), protoDir, names, env)
      ensures protorc == old(protorc)
    {
      var i := 0;
      while i < |names|
        invariant 0 <= i <= |names|
        invariant FlatCopy(files, protoDir, names[i..], env) == FlatCopy(old(files), protoDir, names, env)
        invariant protorc == old(protorc)
      {
        var name := names[i];
        assert names[i..][0] == name && names[i..][1..] == names[i + 1..];
        if name !in env.sourceContents {
          return false;
        }
        var data := env.sourceContents[name];
        if name in env.writeFails {
          return false;
        }
        files := files[FilePath(protoDir, name) := data];
        i := i + 1;
      }
      assert names[i..] == [];
      ok := true;
    }

    /** main.go's syncCmd. */
    method SyncFlat(env: FlatEnv) returns (exitCode: int)
      modifies this
      ensures FlatSyncEffect(env, old(protorc), old(files), protorc, files, exitCode)
    {
      if protorc.None? {
        return 1;
      }
      var config := protorc.value;
      if config.gitHubURL == "" || !env.tempDirCreated || !env.cloned || env.commitID.None? {
        return 1;
      }
      var commitID := env.commitID.value;
      if commitID == config.lastCommitID {
        return 0;
      }
      if !env.protoDirCreated || env.globFailed {
        return 1;
      }
      var protoFiles := GlobProto(env.sourceNames);
      if |protoFiles| == 0 {
        return 1;
      }
      var ok := CopyFlat(config.protoDir, protoFiles, env);
      if !ok {
        return 1;
      }
      if env.configSaveFails {
        return 1;
      }
      protorc := Some(config.(lastCommitID := commitID));
      exitCode := 0;
    }

    /**
     * main: dispatch on the command word. Returns the exit code, the protoc
     * invocations made, and whether the help text was printed.
     */
    method Run(args: seq<string>, initSaveFails: bool, syncEnv: FlatEnv, buildEnv: BuildEnv)
      returns (exitCode: int, protocRuns: seq<seq<string>>, helpShown: bool)
      modifies this
      ensures |args| < 2 ==> exitCode == 1 && helpShown && protocRuns == [] && protorc == old(protorc) && files == old(files)
      ensures |args| >= 2 && args[1] == "help" ==> exitCode == 0 && helpShown && protocRuns == [] && protorc == old(protorc) && files == old(files)
      ensures |args| >= 2 && args[1] !in {"init", "sync", "build", "help"} ==>
        exitCode == 1 && !helpShown && protocRuns == [] && protorc == old(protorc) && files == old(files)
      ensures |args| >= 2 && args[1] == "init" ==>
        var r := InitCmd(args[2..], initSaveFails);
        && exitCode == r.exitCode && protocRuns == [] && files == old(files)
        && protorc == (if r.saved.Some? then r.saved else old(protorc))
      ensures |args| >= 2 && args[1] == "sync" ==>
        protocRuns == [] && FlatSyncEffect(syncEnv, old(protorc), old(files), protorc, files, exitCode)
      ensures |args| >= 2 && args[1] == "build" ==>
        BuildResult(exitCode, protocRuns) == BuildCmd(args, old(protorc), buildEnv) &&
        protorc == old(protorc) && files == old(files)
      ensures helpShown ==> exitCode == 0 || |args| < 2
    {
      protocRuns := [];
      helpShown := false;
      if |args| < 2 {
        return 1, [], true;
      }
      var command := args[1];
      if command == "init" {
        var r := InitCmd(args[2..], initSaveFails);
        if r.saved.Some? {
          protorc := r.saved;
        }
        exitCode := r.exitCode;
      } else if command == "sync" {
        exitCode := SyncFlat(syncEnv);
      } else if command == "build" {
        var r := RunBuild(args, protorc, buildEnv);
        exitCode, protocRuns := r.exitCode, r.protocRuns;
      } else if command == "help" {
        exitCode, helpShown := 0, true;
      } else {
        exitCode := 1;
      }
    }
  }
}
