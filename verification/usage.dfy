/**
 * Launches from the usage text of tools/fnc.c, worked out against the model:
 * the exact command each one hands to the runtime, or the error it ends with.
 */
module UsageExamples {
  import opened Results
  import opened Words
  import opened Options
  import opened Paths
  import opened Launcher

  /** `fnc foo.ifn` next to a `../ebin`: compile to beam in the current directory. */
  lemma CompileExample()
    ensures LaunchSpec(["fnc", "foo.ifn"], [], 1, None, d => d == "../ebin")
      == Executed(Wrap("fn run beam \".\" foo.ifn", "../ebin"))
  {
    var argv: seq<string> := ["fnc", "foo.ifn"];
    assert argv[1..] == ["foo.ifn"];
    assert "fn run " + "beam" + " \"" + "." + "\" " + "foo.ifn" == "fn run beam \".\" foo.ifn";
  }

  /** `fnc -t erl -T foo.ifn` with FNPATH=/opt/efene: the translation command is printed, not run. */
  lemma TranslateExample()
    ensures LaunchSpec(["fnc", "-t", "erl", "-T", "foo.ifn"], [OutputType("erl"), DryRun], 4, Some("/opt/efene"), d => false)
      == Printed(Wrap("fn run erl foo.ifn", "/opt/efene/ebin"))
  {
    var flags := [OutputType("erl"), DryRun];
    assert flags[..1] == [OutputType("erl")];
    assert flags[1] == DryRun;
    assert ["fnc", "-t", "erl", "-T", "foo.ifn"][4..] == ["foo.ifn"];
    assert "fn run " + "erl" + " " + "foo.ifn" == "fn run erl foo.ifn";
    assert "/opt/efene" + "/ebin" == "/opt/efene/ebin";
    assert LastArg(flags, 't') == Some("erl");
    assert LastMode(flags) == '?';
    assert LastArg(flags, 'o') == None;
    assert ArgsOf(flags, 'a') == [] && ArgsOf(flags, 'p') == [];
    assert ScannedConfig(flags, ["foo.ifn"]) == Config('?', true, "erl", ".", "", "", ["foo.ifn"]);
  }

  /** The record the scan of `-r -a lib` builds for the positional arguments `foo run`. */
  lemma RunExampleScan()
    ensures ScannedConfig([RunFunction, Append("lib")], ["foo", "run"])
      == Config('r', false, "beam", ".", " -pa lib", "", ["foo", "run"])
  {
    var flags := [RunFunction, Append("lib")];
    assert flags[..1] == [RunFunction];
    assert ArgsOf(flags, 'a') == ["lib"];
    assert Fragment("-pa", ["lib"]) == " -pa lib" by {
      assert ["-pa"] + ["lib"] == ["-pa", "lib"];
      assert ["-pa", "lib"][1..] == ["lib"];
    }
    assert LastMode(flags) == 'r';
    assert DryRun !in flags;
    assert LastArg([RunFunction], 't') == None;
    assert LastArg(flags, 'o') == None && LastArg(flags, 't') == None;
    assert ArgsOf(flags, 'p') == [];
  }

  /**
   * `fnc -r -a lib foo run` invoked as plain `fnc`, with only `./ebin` present:
   * the third tier finds it, and the search path follows the function's arguments.
   */
  lemma RunExample()
    ensures LaunchSpec(["fnc", "-r", "-a", "lib", "foo", "run"], [RunFunction, Append("lib")], 4, None, d => d == "./ebin")
      == Executed(Wrap("foo run -pa lib", "./ebin"))
  {
    RunExampleScan();
    assert ["fnc", "-r", "-a", "lib", "foo", "run"][4..] == ["foo", "run"];
    assert Join(["foo", "run"]) == "foo run" by {
      assert ["foo", "run"][1..] == ["run"];
    }
    assert "foo run" + " -pa lib" + "" == "foo run -pa lib";
    assert BasePath("fnc") == ".";
    assert "." + "/ebin" == "./ebin";
  }

  /** `fnc -r foo`: a function name is missing, so nothing is run whatever the paths. */
  lemma MissingFunctionExample(env: Option<string>, isDir: string -> bool)
    ensures LaunchSpec(["fnc", "-r", "foo"], [RunFunction], 2, env, isDir) == Failed(TooFewRunArguments(1))
  {
    assert ["fnc", "-r", "foo"][2..] == ["foo"];
    assert [RunFunction][..0] == [];
  }
}
