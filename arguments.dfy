/** The argument vector handed to the protractor CLI: the config file, then
    the user's pass-through arguments verbatim, then, only when at least one
    file was collected, the pair `--specs <joined paths>`. */
module Arguments {
  import opened Wrappers

  const SpecsFlag: string := "--specs"
  /** Separator between several collected paths in the `--specs` value. */
  const SpecsSeparator: string := ","

  /** The collected paths joined by `sep`. */
  function Join(paths: seq<string>, sep: string): (joined: string)
    ensures paths == [] ==> joined == []
    ensures |paths| == 1 ==> joined == paths[0]
  {
    if paths == [] then []
    else if |paths| == 1 then paths[0]
    else paths[0] + sep + Join(paths[1..], sep)
  }

  /** The argument vector for one protractor run. */
  function BuildArgs(configFile: string, specs: seq<string>, userArgs: seq<string>): (argv: seq<string>)
    ensures |argv| == 1 + |userArgs| + (if specs == [] then 0 else 2)
    ensures argv[0] == configFile
    ensures argv[1..1 + |userArgs|] == userArgs
    ensures specs != [] ==> argv[1 + |userArgs|..] == [SpecsFlag, Join(specs, SpecsSeparator)]
  {
    var specArgs := if specs == [] then [] else [SpecsFlag, Join(specs, SpecsSeparator)];
    [configFile] + userArgs + specArgs
  }

  /** How an option parser reads a flag's value out of an argument list: the
      token right after the first occurrence of `flag`, if there is one. */
  function FlagValue(flag: string, tokens: seq<string>): (value: Option<string>)
    ensures value.Some? ==> exists i :: 0 <= i < |tokens| - 1 && tokens[i] == flag && tokens[i + 1] == value.value &&
                                        flag !in tokens[..i]
    ensures value.None? ==> forall i :: 0 <= i < |tokens| - 1 ==> tokens[i] != flag
  {
    if |tokens| < 2 then None
    else if tokens[0] == flag then Some(tokens[1])
    else
      var rest := FlagValue(flag, tokens[1..]);
      assert forall i :: 1 <= i < |tokens| - 1 ==> tokens[i] == tokens[1..][i - 1];
      rest
  }

  /** Tokens that never equal the flag do not change what the flag reads. */
  lemma {:induction false} FlagValueSkipsOtherTokens(flag: string, before: seq<string>, after: seq<string>)
    requires flag !in before
    ensures FlagValue(flag, before + after) == FlagValue(flag, after)
  {
    if before != [] {
      var all := before + after;
      assert all[0] == before[0] != flag;
      assert all[1..] == before[1..] + after;
      FlagValueSkipsOtherTokens(flag, before[1..], after);
      if |all| >= 2 {
        assert FlagValue(flag, all) == FlagValue(flag, all[1..]);
      }
    } else {
      assert before + after == after;
    }
  }

  /** The wrapped tool reads back exactly the collected specs: as long as the
      user arguments do not themselves carry `--specs`, the flag's value in the
      built vector is the joined paths, and there is no such value when no
      file was collected. */
  lemma SpecsReadBack(configFile: string, specs: seq<string>, userArgs: seq<string>)
    requires SpecsFlag !in userArgs
    ensures FlagValue(SpecsFlag, BuildArgs(configFile, specs, userArgs)[1..])
         == if specs == [] then None else Some(Join(specs, SpecsSeparator))
  {
    var argv := BuildArgs(configFile, specs, userArgs);
    var tail := argv[1 + |userArgs|..];
    assert argv[1..] == userArgs + tail;
    FlagValueSkipsOtherTokens(SpecsFlag, userArgs, tail);
  }

  /** No collected file means no `--specs` token anywhere in the vector, even
      with pass-through arguments present. */
  lemma NoSpecsFlagWithoutFiles(configFile: string, userArgs: seq<string>)
    requires configFile != SpecsFlag && SpecsFlag !in userArgs
    ensures SpecsFlag !in BuildArgs(configFile, [], userArgs)
  {
    assert BuildArgs(configFile, [], userArgs) == [configFile] + userArgs;
  }

  /** One collected file and no pass-through arguments. */
  lemma SingleSpecNoArgs(configFile: string, path: string)
    ensures BuildArgs(configFile, [path], []) == [configFile, SpecsFlag, path]
  {
  }

  /** No collected file and no pass-through arguments: the config file alone,
      with no empty trailing element. */
  lemma NoSpecsNoArgs(configFile: string)
    ensures BuildArgs(configFile, [], []) == [configFile]
  {
  }
}
