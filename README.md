# gulp-protractor, modelled in Dafny

A model of the observable logic of the gulp-protractor plugin, as fixed by
its mocha suite `test/main.js`. The plugin's `protractor(options)` returns a
stream that collects the path of every file written to it; when the input
ends it launches the protractor CLI (`<cwd>/node_modules/protractor/built/cli.js`)
with an argument vector built from the config file, the user's pass-through
`args` and the collected paths, and it turns the child's exit into the
stream's completion or an error event. `webdriver()` spawns
`<cwd>/node_modules/.bin/webdriver-manager[.cmd] update` and, once that
process has closed, `webdriver-manager start`.

Modules, one per component:

- `Wrappers` (`wrappers.dfy`): the `Option` type standing for JavaScript's null.
- `Paths` (`paths.dfy`): the binary directory, the CLI entry, the
  webdriver-manager binary, the `.cmd` suffix chosen when the platform
  identifier starts with `win`, and `Basename` (the last path segment).
  Pure functions of an explicit working directory and platform string.
- `Arguments` (`arguments.dfy`): `BuildArgs`, the argument vector, and
  `FlagValue`, the way an option parser reads a flag's value back, used to
  state that the CLI reads back exactly the collected specs.
- `ExitStatus` (`exit_status.dfy`): `Translate` from (exit code or null,
  signal or null) to `Success`, `ReportedFailure(code)` or
  `AbnormalTermination(signal)`, with the round trip back to the exit code.
- `Protractor` (`protractor.dfy`): the stream as the class `ProtractorStream`
  (collected `files`, a `Collecting`/`Running`/`Finished` phase, the
  launched invocation) with `Write`, `End` and `OnExit`; `CollectAll`, a
  pipeline run of any number of writes followed by the end; and one method
  per test of the suite.
- `Webdriver` (`webdriver.dfy`): the two-phase launcher as the class
  `WebdriverLauncher` (phase `Idle`/`Updating`/`Serving` and a log of spawns
  and closes), whose invariant `LogShape` implies that `start` is spawned
  only after `update` has closed. This behaviour comes from a test the
  suite marks as skipped (`it.skip` at test/main.js:192).

The order of the argument vector follows the suite: test/main.js:62-71
writes a spec file and still expects `--browser`, `Chrome`, `--chrome-only`
at positions 1-3, so the `--specs` pair comes after the user arguments.

## Model

| member | source | states |
|---|---|---|
| Paths.StartsWithIsSlicePrefix | test/main.js:20 | the anchored prefix test holds exactly when the string's first characters are the prefix |
| Paths.ExecutableSuffix | test/main.js:20 | the suffix is `.cmd` if and only if the platform starts with `win`, and empty otherwise |
| Paths.Basename | test/main.js:45 | the basename contains no `/`, is a suffix of the path, and starts right after the path's last `/` (the whole path when it has none) |
| Paths.BasenameOfChild | test/main.js:45 | appending `/name` to any directory makes `name` the basename |
| Paths.BinDir | test/main.js:26 | the binary directory is `<cwd>/node_modules/.bin`: the working directory, a `/`, then `node_modules/.bin`, with basename `.bin` |
| Paths.CliPath | test/main.js:34 | the CLI entry is `<cwd>/node_modules/protractor/built/cli.js`: the working directory, a `/`, then `node_modules/protractor/built/cli.js`, with basename `cli.js` |
| Paths.ManagerPath | test/main.js:197 | the manager binary lies in the binary directory itself (not a subdirectory): `BinDir(cwd) + "/"` followed by exactly `webdriver-manager` plus the platform suffix |
| Arguments.Join | test/main.js:81 | no paths join to the empty string and a single path joins to itself |
| Arguments.BuildArgs | test/main.js:41-111 | element 0 is the config file, the user arguments follow verbatim and in order, and the `--specs` pair comes last and only when a file was collected |
| Arguments.FlagValueSkipsOtherTokens | test/main.js:47-49 | tokens other than the flag in front of it do not change the flag's value |
| Arguments.SpecsReadBack | test/main.js:80-81 | the `--specs` value read from the vector is the joined paths, and absent when nothing was collected |
| Arguments.NoSpecsFlagWithoutFiles | test/main.js:105-111 | with no collected file the vector holds no `--specs` token even with user arguments |
| Arguments.SingleSpecNoArgs | test/main.js:80-81 | one file and no user arguments give `[config, --specs, path]` |
| Arguments.NoSpecsNoArgs | test/main.js:110-111 | no file and no user arguments give exactly `[config]` |
| ExitStatus.Translate | test/main.js:134-186 | success exactly on code 0, a reported failure exactly on a non-zero code, an abnormal termination exactly on a null code |
| ExitStatus.TranslateKeepsOutcome | test/main.js:138 | the exit code can be read back from the verdict, and the signal of an abnormal termination too |
| ExitStatus.VerdictFromItsOutcome | test/main.js:165 | every well-formed verdict is the translation of its own exit code and signal |
| ExitStatus.ExitCode255Fails | test/main.js:138 | code 255 is a reported failure carrying 255 |
| ExitStatus.NullCodeSigabrtFails | test/main.js:165 | a null code with `SIGABRT` is an abnormal termination carrying the signal |
| Protractor.ProtractorStream.constructor | test/main.js:62-68 | a new stream collects nothing yet and has launched nothing |
| Protractor.ProtractorStream.Write | test/main.js:70 | while input is open the path is appended; after the end a write changes nothing |
| Protractor.ProtractorStream.End | test/main.js:71 | the first end launches the CLI on the vector built from all collected paths, even when none; a second end launches nothing |
| Protractor.ProtractorStream.OnExit | test/main.js:156-158 | the running child's exit becomes the stream's verdict exactly once |
| Protractor.CollectAll | test/main.js:96-101 | N writes then the end launch the CLI with the paths in arrival order, duplicates kept, for every N including 0 |
| Protractor.PassesUserArgs | test/main.js:41-72 | the CLI is `cli.js`, position 0 is the config file and positions 1-3 are the user arguments although a file was written |
| Protractor.PassesSpecs | test/main.js:74-103 | one written file gives `[config, --specs, test/fixtures/test.js]` |
| Protractor.LaunchesWithoutFiles | test/main.js:105-132 | with no file written the CLI is still launched, with `[config]` alone |
| Protractor.RunAndExit | test/main.js:134-186 | a run ends in an error event exactly when the child's code is not 0 |
| Protractor.PropagatesExitCode | test/main.js:134-159 | exit code 255 ends the stream with an error |
| Protractor.ErrorOnNullCode | test/main.js:161-186 | a null code with `SIGABRT` ends the stream with an error |
| Webdriver.LogShapeOrdersSpawns | test/main.js:195-212 | every spawn runs the manager binary, the spawns are `update` then at most one `start`, and `start` follows a close of `update` |
| Webdriver.OnlyClosesSpawnNothing | test/main.js:210-211 | a log of closes holds no spawn |
| Webdriver.WebdriverLauncher.constructor | test/main.js:208 | the launcher resolves the manager binary from the working directory and platform and has spawned nothing |
| Webdriver.WebdriverLauncher.Launch | test/main.js:198-199 | the first spawn is `update`, and it happens once |
| Webdriver.WebdriverLauncher.OnClose | test/main.js:200-211 | the close of `update` spawns `start`; later closes spawn nothing |
| Webdriver.UpdateThenStart | test/main.js:192-215 | launch then close give exactly `update`, a close, then `start`, on `webdriver-manager` with the platform suffix |

## Left out

- Process creation (`child_process.fork` and `spawn`), `kill`, stdio and
  environment inheritance: the model records the invocation a launch would
  make and takes the exit or close event as a method call.
- Cancellation (killing the active child when the pipeline is torn down):
  no test exercises it.
- The event-stream machinery, `process.nextTick` and `setTimeout`: writes,
  the end of input and exit events are plain method calls in order.
- Whether collected files are also forwarded downstream: not asserted by the suite.
- Vinyl file objects beyond their path, and `path.resolve`/`path.join`
  normalisation: a path is a string built by concatenation.
- Paths.Basename: does not strip trailing slashes as Node's `path.basename`
  does; no path in the model ends with one.
- Reading `process.platform`: the platform is a parameter.
- Arguments.Join: nothing is proved for two or more paths beyond the
  separator being the constant `,`; the suite never joins several paths.
- Webdriver.WebdriverLauncher.OnClose: a failing `update` phase is not
  modelled (the close event carries no exit code), so the rule that `start`
  must not follow a failed `update` is not captured.
- The error messages carried by error events: the suite checks only that an
  error is emitted.
