/** The `protractor(options)` stream: a sink that collects the path of every
    file written to it, launches the protractor CLI once the input ends, and
    ends with the verdict of that child's exit. */
module Protractor {
  import opened Wrappers
  import Paths
  import Arguments
  import opened ExitStatus

  /** One child-process launch: the script run and its argument vector. */
  datatype Invocation = Invocation(command: string, args: seq<string>)

  /** Collecting files; child running; child exited with a verdict. */
  datatype Phase = Collecting | Running | Finished(verdict: Verdict)

  class ProtractorStream {
    const cwd: string
    const configFile: string
    const userArgs: seq<string>
    /** The collected paths, in arrival order, duplicates kept. */
    var files: seq<string>
    var phase: Phase
    /** The child launched at end of input, if it was. */
    var launched: Option<Invocation>

    /** A child exists exactly once input has ended, and it runs the CLI on
        the vector built from the files collected before the end. */
    ghost predicate Valid()
      reads this
    {
      (phase.Collecting? <==> launched.None?) &&
      (launched.Some? ==>
        launched.value == Invocation(Paths.CliPath(cwd), Arguments.BuildArgs(configFile, files, userArgs)))
    }

    constructor (cwd: string, configFile: string, userArgs: seq<string>)
      ensures Valid()
      ensures this.cwd == cwd && this.configFile == configFile && this.userArgs == userArgs
      ensures files == [] && phase == Collecting && launched == None
    {
      this.cwd := cwd;
      this.configFile := configFile;
      this.userArgs := userArgs;
      files := [];
      phase := Collecting;
      launched := None;
    }

    /** A file arrives: its path is appended while input is still open; a
        write after the end is refused and changes nothing. */
    method Write(path: string) returns (accepted: bool)
      requires Valid()
      modifies this
      ensures Valid()
      ensures accepted <==> old(phase).Collecting?
      ensures files == if accepted then old(files) + [path] else old(files)
      ensures phase == old(phase) && launched == old(launched)
    {
      accepted := phase.Collecting?;
      if accepted {
        files := files + [path];
      }
    }

    /** End of input: the CLI is launched exactly once, whether or not any
        file was collected; a second end launches nothing. */
    method End() returns (launch: Option<Invocation>)
      requires Valid()
      modifies this
      ensures Valid()
      ensures files == old(files)
      ensures old(phase).Collecting? ==>
        phase == Running &&
        launch == Some(Invocation(Paths.CliPath(cwd), Arguments.BuildArgs(configFile, files, userArgs)))
      ensures !old(phase).Collecting? ==> launch == None && phase == old(phase) && launched == old(launched)
    {
      if phase.Collecting? {
        var argv := Arguments.BuildArgs(configFile, files, userArgs);
        launch := Some(Invocation(Paths.CliPath(cwd), argv));
        launched := launch;
        phase := Running;
      } else {
        launch := None;
      }
    }

    /** The child exits: while it runs, its exit is translated once into the
        stream's verdict; any later exit notification is ignored. */
    method OnExit(code: Option<int>, signal: Option<string>) returns (verdict: Option<Verdict>)
      requires Valid()
      modifies this
      ensures Valid()
      ensures files == old(files) && launched == old(launched)
      ensures old(phase) == Running ==>
        verdict == Some(Translate(code, signal)) && phase == Finished(Translate(code, signal))
      ensures old(phase) != Running ==> verdict == None && phase == old(phase)
    {
      if phase == Running {
        var v := Translate(code, signal);
        phase := Finished(v);
        verdict := Some(v);
      } else {
        verdict := None;
      }
    }
  }

  /** A pipeline run: write every path in order, then end the input. The
      launch reflects all of them, in arrival order, duplicates kept, for any
      number of files including none. */
  method CollectAll(cwd: string, configFile: string, userArgs: seq<string>, paths: seq<string>)
    returns (launch: Invocation)
    ensures launch.command == Paths.CliPath(cwd)
    ensures launch.args == Arguments.BuildArgs(configFile, paths, userArgs)
  {
    var stream := new ProtractorStream(cwd, configFile, userArgs);
    var i := 0;
    while i < |paths|
      invariant 0 <= i <= |paths|
      invariant stream.Valid() && stream.phase == Collecting
      invariant stream.cwd == cwd && stream.configFile == configFile && stream.userArgs == userArgs
      invariant stream.files == paths[..i]
    {
      var accepted := stream.Write(paths[i]);
      assert paths[..i + 1] == paths[..i] + [paths[i]];
      i := i + 1;
    }
    assert paths[..i] == paths;
    var ended := stream.End();
    launch := ended.value;
  }

  const TestConfig: string := "test/fixtures/protractor.config.js"
  const TestSpec: string := "test/fixtures/test.js"

  /** The config file first, then the user's arguments at positions 1 to 3,
      although a spec file was written too. */
  method PassesUserArgs(cwd: string) returns (launch: Invocation)
    ensures Paths.Basename(launch.command) == "cli.js"
    ensures |launch.args| >= 4 && launch.args[0] == TestConfig
    ensures launch.args[1..4] == ["--browser", "Chrome", "--chrome-only"]
  {
    var stream := new ProtractorStream(cwd, TestConfig, ["--browser", "Chrome", "--chrome-only"]);
    var accepted := stream.Write(TestSpec);
    var ended := stream.End();
    launch := ended.value;
  }

  /** One written file and no user arguments: `--specs` and that path follow
      the config file. */
  method PassesSpecs(cwd: string) returns (launch: Invocation)
    ensures Paths.Basename(launch.command) == "cli.js"
    ensures launch.args == [TestConfig, "--specs", TestSpec]
  {
    var stream := new ProtractorStream(cwd, TestConfig, []);
    var accepted := stream.Write(TestSpec);
    var ended := stream.End();
    launch := ended.value;
  }

  /** No file written: the CLI is still launched, with the config file alone. */
  method LaunchesWithoutFiles(cwd: string) returns (launch: Invocation)
    ensures Paths.Basename(launch.command) == "cli.js"
    ensures launch.args == [TestConfig]
  {
    var stream := new ProtractorStream(cwd, TestConfig, []);
    var ended := stream.End();
    launch := ended.value;
  }

  /** A run whose child exits with the given code and signal; returns the
      stream's terminal event. */
  method RunAndExit(cwd: string, code: Option<int>, signal: Option<string>) returns (verdict: Verdict)
    ensures verdict.Failure? <==> code != Some(0)
    ensures verdict == Translate(code, signal)
  {
    var stream := new ProtractorStream(cwd, TestConfig, []);
    var accepted := stream.Write(TestSpec);
    var ended := stream.End();
    var exited := stream.OnExit(code, signal);
    verdict := exited.value;
  }

  /** Exit code 255 ends the stream with an error event. */
  method PropagatesExitCode(cwd: string) returns (verdict: Verdict)
    ensures verdict == Failure(ReportedFailure(255))
  {
    verdict := RunAndExit(cwd, Some(255), None);
  }

  /** A null exit code with SIGABRT ends the stream with an error event. */
  method ErrorOnNullCode(cwd: string) returns (verdict: Verdict)
    ensures verdict == Failure(AbnormalTermination(Some("SIGABRT")))
  {
    verdict := RunAndExit(cwd, None, Some("SIGABRT"));
  }
}
