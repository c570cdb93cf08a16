/**
 * `main` of tools/fnc.c: scan the options, check the positional arguments
 * against the mode, build the inner command in one of four shapes, and hand
 * it to `fn_run`.
 */
module Launcher {
  import opened Results
  import opened Words
  import opened Options
  import opened Paths

  /**
   * The inner command `main` builds from a complete record, or the error that
   * ends it before `fn_run`: shell mode needs no file; any other mode needs at
   * least one (checked first, for -r too), and -r needs two.
   */
  function InnerCommand(c: Config): (r: Result<string>)
    ensures r.Err? <==> c.mode != 's' && (c.files == [] || (c.mode == 'r' && |c.files| < 2))
    ensures c.mode != 's' && c.files == [] ==> r == Err(NoFiles)
    ensures c.mode == 'r' && |c.files| == 1 ==> r == Err(TooFewRunArguments(1))
  {
    if c.mode == 's' then
      Ok("fn run shell" + c.appends + c.prepends)
    else if c.files == [] then
      Err(NoFiles)
    else if c.mode == 'r' then
      if |c.files| < 2 then Err(TooFewRunArguments(|c.files|))
      else Ok(Join(c.files) + c.appends + c.prepends)
    else if c.outputType == "beam" then
      Ok("fn run " + c.outputType + " \"" + c.outputPath + "\" " + Join(c.files))
    else
      Ok("fn run " + c.outputType + " " + Join(c.files))
  }

  // ---------------------------------------------------------------------------
  // The inner command split at single spaces.
  // ---------------------------------------------------------------------------

  /** The words a search-path fragment stands for: none, or the flag and every path. */
  function SearchWords(flag: string, paths: seq<string>): seq<string>
  {
    if paths == [] then [] else [flag] + paths
  }

  /** Every -a, -p, -o and -t argument is a single word. */
  predicate ArgsNoSpaces(flags: seq<Flag>)
  {
    forall k :: 0 <= k < |flags| && flags[k].Carries(flags[k].Letter()) ==> ' ' !in flags[k].Arg()
  }

  /**
   * The inner command for the scanned options `flags` and the positional
   * arguments, split at single spaces: the compile shapes name the type (and, for beam, the
   * quoted output directory) and then the files; the shell and run shapes end
   * with the search paths, -a ones before -p ones.
   */
  function InnerWords(flags: seq<Flag>, positional: seq<string>): seq<string>
  {
    var c := ScannedConfig(flags, positional);
    var appends, prepends := SearchWords("-pa", ArgsOf(flags, 'a')), SearchWords("-pz", ArgsOf(flags, 'p'));
    if c.mode == 's' then ["fn", "run", "shell"] + appends + prepends
    else if c.mode == 'r' then positional + appends + prepends
    else if c.outputType == "beam" then ["fn", "run", "beam", "\"" + c.outputPath + "\""] + positional
    else ["fn", "run", c.outputType] + positional
  }

  /** A fragment after a joined list is the joined list with the fragment's words appended. */
  lemma FragmentAfter(ws: seq<string>, flag: string, paths: seq<string>)
    requires |ws| > 0
    ensures Join(ws) + Fragment(flag, paths) == Join(ws + SearchWords(flag, paths))
  {
    if paths == [] {
      assert ws + SearchWords(flag, paths) == ws;
    } else {
      JoinAppend(ws, [flag] + paths);
    }
  }

  /** Two fragments after a joined list, as one joined list. */
  lemma FragmentsAfter(ws: seq<string>, f: string, fs: seq<string>, g: string, gs: seq<string>)
    requires |ws| > 0
    ensures Join(ws) + Fragment(f, fs) + Fragment(g, gs) == Join(ws + SearchWords(f, fs) + SearchWords(g, gs))
  {
    FragmentAfter(ws, f, fs);
    FragmentAfter(ws + SearchWords(f, fs), g, gs);
  }

  /** The arguments of the `-<letter>` options are single words when every option argument is. */
  lemma {:induction false} ArgsOfNoSpaces(flags: seq<Flag>, letter: char)
    requires ArgsNoSpaces(flags)
    ensures NoSpaces(ArgsOf(flags, letter))
  {
    if flags != [] {
      var init := flags[..|flags| - 1];
      assert ArgsNoSpaces(init) by {
        assert forall k :: 0 <= k < |init| ==> init[k] == flags[k];
      }
      ArgsOfNoSpaces(init, letter);
      var last := flags[|flags| - 1];
      if last.Carries(letter) {
        assert last.Carries(last.Letter());
        NoSpacesAppend(ArgsOf(init, letter), [last.Arg()]);
      } else {
        assert ArgsOf(flags, letter) == ArgsOf(init, letter) + [];
      }
    }
  }

  /** The last -o or -t argument is a single word when every option argument is. */
  lemma LastArgNoSpaces(flags: seq<Flag>, letter: char)
    requires ArgsNoSpaces(flags)
    ensures LastArg(flags, letter).Some? ==> ' ' !in LastArg(flags, letter).value
  {
    LastArgIsLast(flags, letter);
    if LastArg(flags, letter).Some? {
      var k :| 0 <= k < |flags| && flags[k].Carries(letter)
        && flags[k].Arg() == LastArg(flags, letter).value
        && forall j :: k < j < |flags| ==> !flags[j].Carries(letter);
      assert flags[k].Carries(flags[k].Letter());
    }
  }

  /** A list of single words followed by the search-path words is still a list of single words. */
  lemma SearchPathsNoSpaces(ws: seq<string>, appends: seq<string>, prepends: seq<string>)
    requires NoSpaces(ws) && NoSpaces(appends) && NoSpaces(prepends)
    ensures NoSpaces(ws + SearchWords("-pa", appends) + SearchWords("-pz", prepends))
  {
    SearchWordsNoSpaces("-pa", appends);
    SearchWordsNoSpaces("-pz", prepends);
    NoSpacesAppend(ws, SearchWords("-pa", appends));
    NoSpacesAppend(ws + SearchWords("-pa", appends), SearchWords("-pz", prepends));
  }

  lemma SearchWordsNoSpaces(flag: string, paths: seq<string>)
    requires ' ' !in flag && NoSpaces(paths)
    ensures NoSpaces(SearchWords(flag, paths))
  {
    if paths != [] {
      NoSpacesAppend([flag], paths);
    }
  }

  lemma ShellJoin()
    ensures Join(["fn", "run", "shell"]) == "fn run shell"
  {
    JoinCons("run", ["shell"]);
    assert ["run", "shell"] == ["run"] + ["shell"];
    JoinCons("fn", ["run", "shell"]);
    assert ["fn", "run", "shell"] == ["fn"] + ["run", "shell"];
    assert "fn" + " " + ("run" + " " + "shell") == "fn run shell";
  }

  /** The prefix of the compile shapes: `fn run <type>` followed by the words `more`. */
  lemma CompileJoin(t: string, more: seq<string>)
    requires |more| > 0
    ensures Join(["fn", "run", t] + more) == "fn run " + t + " " + Join(more)
  {
    var r1 := t + " " + Join(more);
    var l1 := [t] + more;
    assert Join(l1) == r1 by {
      JoinCons(t, more);
    }
    var l2 := ["run"] + l1;
    assert Join(l2) == "run" + " " + r1 by {
      JoinCons("run", l1);
    }
    assert Join(["fn"] + l2) == "fn" + " " + ("run" + " " + r1) by {
      JoinCons("fn", l2);
    }
    assert ["fn", "run", t] + more == ["fn"] + l2;
    FnRunPrefix(t, Join(more));
  }

  lemma FnRunPrefix(t: string, rest: string)
    ensures "fn" + " " + ("run" + " " + (t + " " + rest)) == "fn run " + t + " " + rest
  {
    assert "fn" + " " + ("run" + " " + (t + " " + rest)) == ("fn" + " " + "run" + " ") + (t + " " + rest);
    assert "fn" + " " + "run" + " " == "fn run ";
  }

  /** The beam shape puts the quoted output directory between the type and the files. */
  lemma BeamJoin(t: string, path: string, files: seq<string>)
    requires |files| > 0
    ensures Join(["fn", "run", t, "\"" + path + "\""] + files)
      == "fn run " + t + " \"" + path + "\" " + Join(files)
  {
    var q := "\"" + path + "\"";
    JoinCons(q, files);
    CompileJoin(t, [q] + files);
    assert ["fn", "run", t] + ([q] + files) == ["fn", "run", t, q] + files;
    QuotedBetween("fn run " + t, path, Join(files));
  }

  /** A quoted word between two strings, each after one space. */
  lemma QuotedBetween(before: string, path: string, after: string)
    ensures before + " " + ("\"" + path + "\"" + " " + after) == before + " \"" + path + "\" " + after
  {
    var q := "\"" + path + "\"";
    assert before + " \"" == before + " " + "\"";
    assert "\" " == "\"" + " ";
    assert before + " " + (q + " " + after) == ((before + " ") + q) + " " + after;
    assert (before + " ") + q == before + " \"" + path + "\"";
  }

  /** The shell shape split at single spaces. */
  lemma ShellWords(appends: seq<string>, prepends: seq<string>)
    requires NoSpaces(appends) && NoSpaces(prepends)
    ensures Split("fn run shell" + Fragment("-pa", appends) + Fragment("-pz", prepends))
      == ["fn", "run", "shell"] + SearchWords("-pa", appends) + SearchWords("-pz", prepends)
  {
    var ws := ["fn", "run", "shell"];
    ShellJoin();
    FragmentsAfter(ws, "-pa", appends, "-pz", prepends);
    SearchPathsNoSpaces(ws, appends, prepends);
    SplitJoin(ws + SearchWords("-pa", appends) + SearchWords("-pz", prepends));
  }

  /** The run shape split at single spaces. */
  lemma RunWords(files: seq<string>, appends: seq<string>, prepends: seq<string>)
    requires |files| > 0 && NoSpaces(files) && NoSpaces(appends) && NoSpaces(prepends)
    ensures Split(Join(files) + Fragment("-pa", appends) + Fragment("-pz", prepends))
      == files + SearchWords("-pa", appends) + SearchWords("-pz", prepends)
  {
    FragmentsAfter(files, "-pa", appends, "-pz", prepends);
    SearchPathsNoSpaces(files, appends, prepends);
    SplitJoin(files + SearchWords("-pa", appends) + SearchWords("-pz", prepends));
  }

  /** The beam shape split at single spaces. */
  lemma BeamWords(t: string, path: string, files: seq<string>)
    requires |files| > 0 && NoSpaces(files) && ' ' !in t && ' ' !in path
    ensures Split("fn run " + t + " \"" + path + "\" " + Join(files))
      == ["fn", "run", t, "\"" + path + "\""] + files
  {
    var q := "\"" + path + "\"";
    QuotedNoSpaces(path);
    BeamJoin(t, path, files);
    NoSpacesAppend(["fn", "run", t, q], files);
    SplitJoin(["fn", "run", t, q] + files);
  }

  /** The shape for the other output types split at single spaces. */
  lemma CompileWords(t: string, files: seq<string>)
    requires |files| > 0 && NoSpaces(files) && ' ' !in t
    ensures Split("fn run " + t + " " + Join(files)) == ["fn", "run", t] + files
  {
    CompileJoin(t, files);
    NoSpacesAppend(["fn", "run", t], files);
    SplitJoin(["fn", "run", t] + files);
  }

  /**
   * The inner command split at single spaces: when no option argument and no
   * positional argument holds a space, the inner command `main` builds splits into
   * exactly `InnerWords` — search-path flags once each, paths and files in the
   * order given, nothing merged and nothing lost.
   */
  lemma InnerCommandWords(flags: seq<Flag>, positional: seq<string>)
    requires ArgsNoSpaces(flags) && NoSpaces(positional)
    requires InnerCommand(ScannedConfig(flags, positional)).Ok?
    ensures Split(InnerCommand(ScannedConfig(flags, positional)).value) == InnerWords(flags, positional)
  {
    var c := ScannedConfig(flags, positional);
    var appends, prepends := ArgsOf(flags, 'a'), ArgsOf(flags, 'p');
    if c.mode == 's' {
      ArgsOfNoSpaces(flags, 'a');
      ArgsOfNoSpaces(flags, 'p');
      ShellWords(appends, prepends);
    } else if c.mode == 'r' {
      ArgsOfNoSpaces(flags, 'a');
      ArgsOfNoSpaces(flags, 'p');
      RunWords(positional, appends, prepends);
    } else {
      LastArgNoSpaces(flags, 't');
      if c.outputType == "beam" {
        LastArgNoSpaces(flags, 'o');
        BeamWords(c.outputType, c.outputPath, positional);
      } else {
        CompileWords(c.outputType, positional);
      }
    }
  }

  /** The compile shapes do not depend on the search paths given with -a and -p. */
  lemma CompileIgnoresSearchPaths(c: Config, appends: string, prepends: string)
    requires c.mode != 's' && c.mode != 'r'
    ensures InnerCommand(c.(appends := appends, prepends := prepends)) == InnerCommand(c)
  {
  }

  /** Shell mode depends on nothing but the search paths: not on files, type or output path. */
  lemma ShellIgnoresFiles(c: Config, files: seq<string>, outputType: string, outputPath: string)
    requires c.mode == 's'
    ensures InnerCommand(c.(files := files, outputType := outputType, outputPath := outputPath))
      == InnerCommand(c)
    ensures InnerCommand(c).Ok?
  {
  }

  // ---------------------------------------------------------------------------
  // The whole launcher.
  // ---------------------------------------------------------------------------

  /**
   * How the launcher ends for the options getopt reports (`flags`), the
   * arguments `argv` whose positional part starts at `optind`, the value of
   * FNPATH and the directories that exist.
   */
  function LaunchSpec(argv: seq<string>, flags: seq<Flag>, optind: nat, env: Option<string>,
                      isDir: string -> bool): (o: Outcome)
    requires 0 < optind <= |argv|
    ensures o.UsageShown? <==> StatusOf(flags) == HelpRequested
    ensures StatusOf(flags).BadOption? ==> o == Failed(ArgumentError(StatusOf(flags).optopt))
    ensures (o.Printed? || o.Executed?) ==>
      StatusOf(flags) == Scanned && InnerCommand(ScannedConfig(flags, argv[optind..])).Ok?
    ensures o.Printed? ==> DryRun in flags
    ensures o.Executed? ==> DryRun !in flags
  {
    match StatusOf(flags)
    case HelpRequested => UsageShown
    case BadOption(c) => Failed(ArgumentError(c))
    case Scanned =>
      var config := ScannedConfig(flags, argv[optind..]);
      match InnerCommand(config)
      case Err(e) => Failed(e)
      case Ok(inner) => Run(inner, argv[0], config.isTest, env, isDir)
  }

  /**
   * A failed check of the positional arguments ends the launcher with that
   * error: nothing is printed and nothing is executed, whatever the paths.
   */
  lemma ValidationStopsLaunch(argv: seq<string>, flags: seq<Flag>, optind: nat, env: Option<string>,
                              isDir: string -> bool)
    requires 0 < optind <= |argv|
    requires StatusOf(flags) == Scanned
    requires LastMode(flags) != 's'
    requires optind == |argv| || (LastMode(flags) == 'r' && optind + 1 == |argv|)
    ensures LaunchSpec(argv, flags, optind, env, isDir)
      == Failed(if optind == |argv| then NoFiles else TooFewRunArguments(1))
  {
  }

  /**
   * End to end: when no option argument, positional argument or resolved
   * directory holds a space, a command the launcher prints or executes splits
   * at single spaces into `erl -run`, the inner words, and the tail naming the
   * directory the tiers found.
   */
  lemma LaunchWords(argv: seq<string>, flags: seq<Flag>, optind: nat, env: Option<string>,
                    isDir: string -> bool)
    requires 0 < optind <= |argv|
    requires ArgsNoSpaces(flags) && NoSpaces(argv[optind..])
    requires Resolve(env, isDir, argv[0]).Some? ==> ' ' !in Resolve(env, isDir, argv[0]).value
    ensures (LaunchSpec(argv, flags, optind, env, isDir).Printed?
          || LaunchSpec(argv, flags, optind, env, isDir).Executed?) ==>
      Split(LaunchSpec(argv, flags, optind, env, isDir).cmd)
        == Head + InnerWords(flags, argv[optind..]) + TailWords(Resolve(env, isDir, argv[0]).value)
  {
    var o := LaunchSpec(argv, flags, optind, env, isDir);
    if o.Printed? || o.Executed? {
      var positional := argv[optind..];
      var inner := InnerCommand(ScannedConfig(flags, positional)).value;
      InnerCommandWords(flags, positional);
      JoinSplit(inner);
      WrapWords(Split(inner), Resolve(env, isDir, argv[0]).value);
    }
  }

  /**
   * `main`: parse the options, stop on -h or a bad option, check the positional
   * arguments, build the inner command (joining the files with `StrJoin`) and
   * hand it to `fn_run`.
   */
  method Launch(argv: seq<string>, flags: seq<Flag>, optind: nat, env: Option<string>,
                isDir: string -> bool) returns (outcome: Outcome)
    requires 0 < optind <= |argv|
    ensures outcome == LaunchSpec(argv, flags, optind, env, isDir)
  {
    var status, options, _ := ParseOptions(argv, flags, optind);
    if status.HelpRequested? {
      return UsageShown;
    } else if status.BadOption? {
      return Failed(ArgumentError(status.optopt));
    }
    var inner: string;
    if options.mode == 's' {
      inner := "fn run shell" + options.appends + options.prepends;
    } else {
      if options.filesNum == 0 {
        return Failed(NoFiles);
      }
      var extraArgs := StrJoin(options.files);
      if options.mode == 'r' {
        if options.filesNum < 2 {
          return Failed(TooFewRunArguments(options.filesNum));
        }
        inner := extraArgs + options.appends + options.prepends;
      } else if options.outputType.value == "beam" {
        inner := "fn run " + options.outputType.value + " \"" + options.outputPath.value + "\" " + extraArgs;
      } else {
        inner := "fn run " + options.outputType.value + " " + extraArgs;
      }
    }
    outcome := Run(inner, argv[0], options.isTest, env, isDir);
  }
}
