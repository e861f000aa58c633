/** Where the plugin finds the binaries it launches: the dependency-binary
    directory, the protractor CLI entry script, and the webdriver-manager
    binary with its platform-dependent suffix. Paths are strings built by
    concatenation from an explicit working directory; the platform identifier
    is a parameter instead of ambient process state. */
module Paths {

  /** The dependency-binary directory, relative to the working directory. */
  const BinDirRelative: string := "node_modules/.bin"
  /** The CLI entry script of the installed protractor package, relative to
      the working directory. */
  const CliRelative: string := "node_modules/protractor/built/cli.js"
  const CliName: string := "cli.js"
  const ManagerName: string := "webdriver-manager"
  /** Platforms whose identifier starts with this need the suffix below. */
  const WindowsPrefix: string := "win"
  const WindowsSuffix: string := ".cmd"

  /** Character-by-character prefix test, the `/^win/` test on `process.platform`. */
  predicate StartsWith(s: string, prefix: string)
  {
    if prefix == [] then true
    else if s == [] then false
    else s[0] == prefix[0] && StartsWith(s[1..], prefix[1..])
  }

  lemma {:induction false} StartsWithIsSlicePrefix(s: string, prefix: string)
    ensures StartsWith(s, prefix) <==> |prefix| <= |s| && s[..|prefix|] == prefix
  {
    if prefix != [] && s != [] {
      StartsWithIsSlicePrefix(s[1..], prefix[1..]);
      if |prefix| <= |s| {
        assert s[..|prefix|] == [s[0]] + s[1..][..|prefix| - 1];
        assert prefix == [prefix[0]] + prefix[1..];
      }
    }
  }

  /** The executable suffix: ".cmd" exactly when the platform identifier
      begins with "win", and nothing otherwise. */
  function ExecutableSuffix(platform: string): (ext: string)
    ensures ext == WindowsSuffix <==> |platform| >= 3 && platform[..3] == "win"
    ensures ext == "" <==> !(|platform| >= 3 && platform[..3] == "win")
  {
    StartsWithIsSlicePrefix(platform, WindowsPrefix);
    if StartsWith(platform, WindowsPrefix) then WindowsSuffix else ""
  }

  /** The last segment of a path: everything after its last '/', or the
      whole path when it has none. */
  function Basename(path: string): (name: string)
    ensures '/' !in name
    ensures |name| <= |path| && name == path[|path| - |name|..]
    ensures |name| < |path| ==> path[|path| - |name| - 1] == '/'
    decreases |path|
  {
    if path == [] then []
    else if path[|path| - 1] == '/' then []
    else
      var init := path[..|path| - 1];
      var base := Basename(init);
      assert |base| < |init| ==> path[|path| - |base| - 2] == init[|init| - |base| - 1];
      base + [path[|path| - 1]]
  }

  /** Appending "/name" to any directory makes `name` the basename. */
  lemma {:induction false} BasenameOfChild(dir: string, name: string)
    requires '/' !in name
    ensures Basename(dir + "/" + name) == name
    decreases |name|
  {
    var path := dir + "/" + name;
    if name != [] {
      var init := name[..|name| - 1];
      assert path[..|path| - 1] == dir + "/" + init;
      assert path[|path| - 1] == name[|name| - 1];
      BasenameOfChild(dir, init);
      assert name == init + [name[|name| - 1]];
    }
  }

  /** The directory holding locally installed dependency binaries. */
  function BinDir(cwd: string): (dir: string)
    ensures |dir| > |cwd| + 1 && dir[..|cwd| + 1] == cwd + "/" && dir[|cwd| + 1..] == "node_modules/.bin"
    ensures Basename(dir) == ".bin"
  {
    var dir := cwd + "/" + BinDirRelative;
    BasenameOfChild(cwd + "/node_modules", ".bin");
    assert dir == cwd + "/node_modules" + "/" + ".bin";
    assert dir[..|cwd| + 1] == cwd + "/";
    assert dir[|cwd| + 1..] == BinDirRelative;
    dir
  }

  /** The protractor CLI entry script inside the dependency tree. */
  function CliPath(cwd: string): (cli: string)
    ensures |cli| > |cwd| + 1 && cli[..|cwd| + 1] == cwd + "/"
    ensures cli[|cwd| + 1..] == "node_modules/protractor/built/cli.js"
    ensures Basename(cli) == CliName
  {
    var cli := cwd + "/" + CliRelative;
    BasenameOfChild(cwd + "/node_modules/protractor/built", CliName);
    assert cli == cwd + "/node_modules/protractor/built" + "/" + CliName;
    assert cli[..|cwd| + 1] == cwd + "/";
    assert cli[|cwd| + 1..] == CliRelative;
    cli
  }

  /** The webdriver-manager binary: inside the binary directory, named
      "webdriver-manager" plus the platform's executable suffix. */
  function ManagerPath(cwd: string, platform: string): (bin: string)
    ensures |bin| > |BinDir(cwd)| + 1 && bin[..|BinDir(cwd)| + 1] == BinDir(cwd) + "/"
    ensures bin[|BinDir(cwd)| + 1..] == ManagerName + ExecutableSuffix(platform)
    ensures Basename(bin) == ManagerName + ExecutableSuffix(platform)
  {
    var name := ManagerName + ExecutableSuffix(platform);
    assert '/' !in name by {
      assert ExecutableSuffix(platform) == WindowsSuffix || ExecutableSuffix(platform) == "";
    }
    BasenameOfChild(BinDir(cwd), name);
    BinDir(cwd) + "/" + name
  }
}
