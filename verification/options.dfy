/**
 * The option record of tools/fnc.c (`struct FnOptions`) and the left-to-right
 * scan of command-line options that fills it (`parse_options`).
 *
 * getopt itself is not modelled: the scan receives the options getopt reports,
 * in order, as `Flag` values, together with `argv` and the index `optind` of
 * the first positional argument.
 */
module Options {
  import opened Results
  import opened Words

  /** One option as getopt reports it for the option string "o:ht:sTra:p:". */
  datatype Flag =
    | Append(path: string)        // -a path
    | Prepend(path: string)       // -p path
    | OutputPath(path: string)    // -o path
    | OutputType(name: string)    // -t type
    | Shell                       // -s
    | RunFunction                 // -r
    | DryRun                      // -T
    | Help                        // -h
    | Unrecognised(optopt: char)  // '?': unknown option, or an option missing its argument
  {
    /** The character getopt returns for this option. */
    function Letter(): char
    {
      match this
        case Append(_) => 'a'
        case Prepend(_) => 'p'
        case OutputPath(_) => 'o'
        case OutputType(_) => 't'
        case Shell => 's'
        case RunFunction => 'r'
        case DryRun => 'T'
        case Help => 'h'
        case Unrecognised(_) => '?'
    }

    /** The option `-<letter>` with its argument. */
    predicate Carries(letter: char)
    {
      (Append? || Prepend? || OutputPath? || OutputType?) && Letter() == letter
    }

    /** The argument of an option that takes one. */
    function Arg(): string
      requires Append? || Prepend? || OutputPath? || OutputType?
    {
      match this
        case Append(p) => p
        case Prepend(p) => p
        case OutputPath(p) => p
        case OutputType(t) => t
    }

    /** -s or -r: the options that go through `set_mode`. */
    predicate IsMode()
    {
      Shell? || RunFunction?
    }

    /** -h and '?' end the process inside the scan. */
    predicate Terminal()
    {
      Help? || Unrecognised?
    }
  }

  /** How the scan ends: it reaches the end of the options, or exits inside the loop. */
  datatype ScanStatus = Scanned | HelpRequested | BadOption(optopt: char)

  /** The record once the scan is complete, as a value. */
  datatype Config = Config(
    mode: char,             // '?' (compile files), 's' (shell) or 'r' (run a function)
    isTest: bool,           // -T: print the command instead of running it
    outputType: string,
    outputPath: string,
    appends: string,        // "" or " -pa p1 p2 ..."
    prepends: string,       // "" or " -pz p1 p2 ..."
    files: seq<string>)     // the positional arguments

  /** The fields the scan changes, as a value. */
  datatype Progress = Progress(
    mode: char,
    isTest: bool,
    outputType: Option<string>,
    outputPath: Option<string>,
    appends: string,
    prepends: string)

  /**
   * One turn of the switch in `parse_options`, for an option that does not end
   * the process: -a and -p add " -pa" / " -pz" when their buffer is still
   * empty and then " " and the path; -o and -t replace the value; -s and -r set
   * the mode; -T sets the test flag.
   */
  function Step(p: Progress, f: Flag): Progress
  {
    match f
    case Append(path) => p.(appends := (if p.appends == "" then " -pa" else p.appends) + " " + path)
    case Prepend(path) => p.(prepends := (if p.prepends == "" then " -pz" else p.prepends) + " " + path)
    case OutputPath(path) => p.(outputPath := Some(path))
    case OutputType(name) => p.(outputType := Some(name))
    case Shell => p.(mode := 's')
    case RunFunction => p.(mode := 'r')
    case DryRun => p.(isTest := true)
    case _ => p
  }

  // ---------------------------------------------------------------------------
  // What the scan computes, stated over the option sequence.
  // ---------------------------------------------------------------------------

  /** The scan stops at the first -h or '?'; without one it reaches the end. */
  function StatusOf(flags: seq<Flag>): ScanStatus
  {
    if flags == [] then Scanned
    else match flags[0]
        case Help => HelpRequested
        case Unrecognised(c) => BadOption(c)
        case _ => StatusOf(flags[1..])
  }

  /** How many options the scan handles before it stops: all of them, or those before the first -h or '?'. */
  function ScanLength(flags: seq<Flag>): (n: nat)
    ensures n <= |flags|
  {
    if flags == [] || flags[0].Terminal() then 0 else 1 + ScanLength(flags[1..])
  }

  /** `ScanLength` stops at the first -h or '?': every option before it is handled. */
  lemma {:induction false} ScanLengthIsFirst(flags: seq<Flag>)
    ensures forall k :: 0 <= k < ScanLength(flags) ==> !flags[k].Terminal()
    ensures ScanLength(flags) < |flags| ==> flags[ScanLength(flags)].Terminal()
  {
    if flags != [] && !flags[0].Terminal() {
      ScanLengthIsFirst(flags[1..]);
      assert forall k :: 1 <= k < |flags| ==> flags[k] == flags[1..][k - 1];
    }
  }

  /** The scan handles exactly the options before the first -h or '?', or all of them. */
  lemma ScanStopsAt(flags: seq<Flag>, i: nat)
    requires i <= |flags|
    requires forall k :: 0 <= k < i ==> !flags[k].Terminal()
    requires i == |flags| || flags[i].Terminal()
    ensures ScanLength(flags) == i
  {
    ScanLengthIsFirst(flags);
  }

  /** The argument of the last `-<letter>` option, if there is one. */
  function LastArg(flags: seq<Flag>, letter: char): Option<string>
  {
    if flags == [] then None
    else if flags[|flags| - 1].Carries(letter) then Some(flags[|flags| - 1].Arg())
    else LastArg(flags[..|flags| - 1], letter)
  }

  /** The arguments of all `-<letter>` options, in the order given. */
  function ArgsOf(flags: seq<Flag>, letter: char): seq<string>
  {
    if flags == [] then []
    else
      var last := flags[|flags| - 1];
      ArgsOf(flags[..|flags| - 1], letter) + if last.Carries(letter) then [last.Arg()] else []
  }

  /** The letter of the last -s or -r, or '?' when there is none. */
  function LastMode(flags: seq<Flag>): char
  {
    if flags == [] then '?'
    else if flags[|flags| - 1].IsMode() then flags[|flags| - 1].Letter()
    else LastMode(flags[..|flags| - 1])
  }

  /** How many -s and -r options there are. */
  function ModeCount(flags: seq<Flag>): nat
  {
    if flags == [] then 0
    else ModeCount(flags[..|flags| - 1]) + if flags[|flags| - 1].IsMode() then 1 else 0
  }

  /** How many times `set_mode` warns: once for every -s or -r after the first. */
  function Warnings(flags: seq<Flag>): nat
  {
    if ModeCount(flags) == 0 then 0 else ModeCount(flags) - 1
  }

  /** The search-path fragment for `paths`: empty, or `flag` then every path, each after one space. */
  function Fragment(flag: string, paths: seq<string>): string
  {
    if paths == [] then "" else " " + Join([flag] + paths)
  }

  /** What the scan has built after the options `flags`, none of them -h or '?'. */
  function ProgressOf(flags: seq<Flag>): Progress
  {
    Progress(
      LastMode(flags),
      DryRun in flags,
      LastArg(flags, 't'),
      LastArg(flags, 'o'),
      Fragment("-pa", ArgsOf(flags, 'a')),
      Fragment("-pz", ArgsOf(flags, 'p')))
  }

  /** The record a complete scan of `flags` produces, with `positional` as the files. */
  function ScannedConfig(flags: seq<Flag>, positional: seq<string>): Config
  {
    Config(
      LastMode(flags),
      DryRun in flags,
      LastArg(flags, 't').GetOr("beam"),
      LastArg(flags, 'o').GetOr("."),
      Fragment("-pa", ArgsOf(flags, 'a')),
      Fragment("-pz", ArgsOf(flags, 'p')),
      positional)
  }

  // ---------------------------------------------------------------------------
  // Lemmas about the specification functions.
  // ---------------------------------------------------------------------------

  /** Options before the first -h or '?' do not decide how the scan ends. */
  lemma {:induction false} StatusSkipsOptions(flags: seq<Flag>, i: nat)
    requires i <= |flags|
    requires forall k :: 0 <= k < i ==> !flags[k].Terminal()
    ensures StatusOf(flags) == StatusOf(flags[i..])
  {
    if i > 0 {
      assert flags[1..][i - 1..] == flags[i..];
      assert forall k :: 0 <= k < i - 1 ==> flags[1..][k] == flags[k + 1];
      StatusSkipsOptions(flags[1..], i - 1);
    }
  }

  /** The scan completes exactly when there is no -h and no '?'; otherwise the first one decides. */
  lemma {:induction false} StatusIsFirstTerminal(flags: seq<Flag>)
    ensures StatusOf(flags) == Scanned <==> forall k :: 0 <= k < |flags| ==> !flags[k].Terminal()
    ensures StatusOf(flags) != Scanned ==>
      exists k :: 0 <= k < |flags| && flags[k].Terminal()
        && (forall j :: 0 <= j < k ==> !flags[j].Terminal())
        && StatusOf(flags) == (if flags[k].Help? then HelpRequested else BadOption(flags[k].optopt))
  {
    if flags != [] && !flags[0].Terminal() {
      StatusIsFirstTerminal(flags[1..]);
      assert forall k :: 1 <= k < |flags| ==> flags[k] == flags[1..][k - 1];
      if StatusOf(flags) != Scanned {
        var k :| 0 <= k < |flags[1..]| && flags[1..][k].Terminal()
          && (forall j :: 0 <= j < k ==> !flags[1..][j].Terminal())
          && StatusOf(flags[1..]) == (if flags[1..][k].Help? then HelpRequested else BadOption(flags[1..][k].optopt));
        assert forall j :: 0 <= j < k + 1 ==> !flags[j].Terminal() by {
          forall j | 0 <= j < k + 1 ensures !flags[j].Terminal() {
            if j > 0 {
              assert flags[j] == flags[1..][j - 1];
            }
          }
        }
      }
    }
  }

  /** Last value wins: `LastArg` is absent exactly when the option never occurs, else it is the last one's argument. */
  lemma {:induction false} LastArgIsLast(flags: seq<Flag>, letter: char)
    ensures LastArg(flags, letter).None? <==> forall k :: 0 <= k < |flags| ==> !flags[k].Carries(letter)
    ensures LastArg(flags, letter).Some? ==>
      exists k :: 0 <= k < |flags| && flags[k].Carries(letter)
        && flags[k].Arg() == LastArg(flags, letter).value
        && forall j :: k < j < |flags| ==> !flags[j].Carries(letter)
  {
    if flags != [] {
      var init := flags[..|flags| - 1];
      assert forall k :: 0 <= k < |init| ==> init[k] == flags[k];
      if !flags[|flags| - 1].Carries(letter) {
        LastArgIsLast(init, letter);
      }
    }
  }

  /** The mode is still '?' exactly when no -s or -r has been seen. */
  lemma {:induction false} ModeUnset(flags: seq<Flag>)
    ensures LastMode(flags) == '?' <==> ModeCount(flags) == 0
  {
    if flags != [] {
      ModeUnset(flags[..|flags| - 1]);
    }
  }

  /** Last mode wins: the final mode is the letter of the last -s or -r; with none it stays '?'. */
  lemma {:induction false} LastModeIsLast(flags: seq<Flag>)
    ensures ModeCount(flags) == 0 <==> forall k :: 0 <= k < |flags| ==> !flags[k].IsMode()
    ensures ModeCount(flags) == 0 ==> LastMode(flags) == '?'
    ensures ModeCount(flags) > 0 ==>
      exists k :: 0 <= k < |flags| && flags[k].IsMode()
        && flags[k].Letter() == LastMode(flags)
        && forall j :: k < j < |flags| ==> !flags[j].IsMode()
  {
    if flags != [] {
      var init := flags[..|flags| - 1];
      assert forall k :: 0 <= k < |init| ==> init[k] == flags[k];
      LastModeIsLast(init);
    }
  }

  /** The -a (or -p) arguments are kept one for one, in order, and nothing else is. */
  lemma {:induction false} ArgsOfKeepsOrder(flags: seq<Flag>, letter: char, more: seq<Flag>)
    ensures ArgsOf(flags + more, letter) == ArgsOf(flags, letter) + ArgsOf(more, letter)
    decreases |more|
  {
    if more == [] {
      assert flags + more == flags;
    } else {
      var init := more[..|more| - 1];
      assert (flags + more)[..|flags + more| - 1] == flags + init;
      ArgsOfKeepsOrder(flags, letter, init);
    }
  }

  /** The fragment of an option is empty exactly when the option was never given. */
  lemma FragmentEmpty(flag: string, paths: seq<string>)
    ensures Fragment(flag, paths) == "" <==> paths == []
  {
    if paths != [] {
      assert Fragment(flag, paths)[0] == ' ';
    }
  }

  /**
   * When it is not empty, the fragment after its leading space splits into the
   * search-path flag once, followed by every path in order.
   */
  lemma FragmentWords(flag: string, paths: seq<string>)
    requires ' ' !in flag && NoSpaces(paths)
    ensures paths != [] ==> Split(Fragment(flag, paths)[1..]) == [flag] + paths
  {
    if paths != [] {
      assert NoSpaces([flag] + paths) by {
        forall k | 0 <= k < |[flag] + paths| ensures ' ' !in ([flag] + paths)[k] {
          if k > 0 {
            assert ([flag] + paths)[k] == paths[k - 1];
          }
        }
      }
      SplitJoin([flag] + paths);
      assert Fragment(flag, paths)[1..] == Join([flag] + paths);
    }
  }

  /**
   * The switch computes the specification: one turn of it on what the scan has
   * built so far gives what the longer option sequence specifies.
   */
  lemma ProgressStep(before: seq<Flag>, f: Flag)
    requires !f.Terminal()
    ensures ProgressOf(before + [f]) == Step(ProgressOf(before), f)
  {
    var p, q := Step(ProgressOf(before), f), ProgressOf(before + [f]);
    ModeAndTestStep(before, f);
    ValuesStep(before, f);
    AppendsStep(before, f);
    PrependsStep(before, f);
    assert q == Progress(p.mode, p.isTest, p.outputType, p.outputPath, p.appends, p.prepends);
  }

  lemma ModeAndTestStep(before: seq<Flag>, f: Flag)
    requires !f.Terminal()
    ensures ProgressOf(before + [f]).mode == Step(ProgressOf(before), f).mode
    ensures ProgressOf(before + [f]).isTest == Step(ProgressOf(before), f).isTest
  {
    LastModeStep(before, f);
    assert DryRun in before + [f] <==> DryRun in before || f == DryRun;
  }

  lemma ValuesStep(before: seq<Flag>, f: Flag)
    requires !f.Terminal()
    ensures ProgressOf(before + [f]).outputType == Step(ProgressOf(before), f).outputType
    ensures ProgressOf(before + [f]).outputPath == Step(ProgressOf(before), f).outputPath
  {
    LastArgStep(before, f, 't');
    LastArgStep(before, f, 'o');
  }

  lemma AppendsStep(before: seq<Flag>, f: Flag)
    requires !f.Terminal()
    ensures ProgressOf(before + [f]).appends == Step(ProgressOf(before), f).appends
  {
    FragmentScanStep(before, f, 'a', "-pa");
  }

  lemma PrependsStep(before: seq<Flag>, f: Flag)
    requires !f.Terminal()
    ensures ProgressOf(before + [f]).prepends == Step(ProgressOf(before), f).prepends
  {
    FragmentScanStep(before, f, 'p', "-pz");
  }

  /** One more option changes the mode exactly when it is -s or -r. */
  lemma LastModeStep(before: seq<Flag>, f: Flag)
    ensures LastMode(before + [f]) == if f.IsMode() then f.Letter() else LastMode(before)
  {
    assert (before + [f])[..|before|] == before;
  }

  /** One more option replaces the `-<letter>` value exactly when it is that option. */
  lemma LastArgStep(before: seq<Flag>, f: Flag, letter: char)
    ensures LastArg(before + [f], letter) == if f.Carries(letter) then Some(f.Arg()) else LastArg(before, letter)
  {
    assert (before + [f])[..|before|] == before;
  }

  /** One more option counts once more exactly when it is -s or -r. */
  lemma ModeCountStep(before: seq<Flag>, f: Flag)
    ensures ModeCount(before + [f]) == ModeCount(before) + if f.IsMode() then 1 else 0
  {
    assert (before + [f])[..|before|] == before;
  }

  /** One more option adds a warning exactly when it is -s or -r and a mode is already set. */
  lemma WarningStep(before: seq<Flag>, f: Flag)
    ensures Warnings(before + [f]) == Warnings(before) + if f.IsMode() && LastMode(before) != '?' then 1 else 0
  {
    ModeCountStep(before, f);
    ModeUnset(before);
  }

  /** The record a complete scan produces is what the scan has built, with the defaults and the files. */
  lemma ScannedFromProgress(flags: seq<Flag>, positional: seq<string>)
    ensures ScannedConfig(flags, positional) == Config(
      ProgressOf(flags).mode, ProgressOf(flags).isTest,
      ProgressOf(flags).outputType.GetOr("beam"), ProgressOf(flags).outputPath.GetOr("."),
      ProgressOf(flags).appends, ProgressOf(flags).prepends, positional)
  {
  }

  /** One more option extends the `-<letter>` fragment exactly as the scan's -a and -p cases do. */
  lemma FragmentScanStep(before: seq<Flag>, f: Flag, letter: char, flag: string)
    ensures Fragment(flag, ArgsOf(before + [f], letter)) == if f.Carries(letter)
      then (if Fragment(flag, ArgsOf(before, letter)) == "" then " " + flag else Fragment(flag, ArgsOf(before, letter))) + " " + f.Arg()
      else Fragment(flag, ArgsOf(before, letter))
  {
    assert (before + [f])[..|before|] == before;
    if f.Carries(letter) {
      FragmentStep(flag, ArgsOf(before, letter), f.Arg());
    } else {
      assert ArgsOf(before, letter) + [] == ArgsOf(before, letter);
    }
  }

  /** What the -a and -p cases of the scan do to a fragment: the flag once, then one path more. */
  lemma FragmentStep(flag: string, paths: seq<string>, path: string)
    ensures Fragment(flag, paths + [path])
      == (if Fragment(flag, paths) == "" then " " + flag else Fragment(flag, paths)) + " " + path
  {
    assert [flag] + (paths + [path]) == ([flag] + paths) + [path];
    JoinAppend([flag] + paths, [path]);
  }

  // ---------------------------------------------------------------------------
  // The record and the scan.
  // ---------------------------------------------------------------------------

  /** `struct FnOptions`: filled in place while the options are scanned. */
  class FnOptions {
    var mode: char
    var isTest: bool
    var appends: string
    var prepends: string
    var outputType: Option<string>
    var outputPath: Option<string>
    var files: seq<string>
    var filesNum: nat

    /** `files_num` counts `files`. */
    predicate Valid()
      reads this
    {
      filesNum == |files|
    }

    /** The defaults for type and path have been applied. */
    predicate Finalized()
      reads this
    {
      outputType.Some? && outputPath.Some?
    }

    /** The fields the scan changes, as a value. */
    function Current(): Progress
      reads this
    {
      Progress(mode, isTest, outputType, outputPath, appends, prepends)
    }

    /** The record as a value. */
    function AsConfig(): Config
      reads this
      requires Finalized()
    {
      Config(mode, isTest, outputType.value, outputPath.value, appends, prepends, files)
    }

    /** `fn_options_new`: no mode, no test, no search paths, no type, no path, no files. */
    constructor ()
      ensures Valid()
      ensures mode == '?' && !isTest
      ensures appends == "" && prepends == ""
      ensures outputType == None && outputPath == None
      ensures files == [] && filesNum == 0
    {
      mode := '?';
      isTest := false;
      appends := "";
      prepends := "";
      outputType := None;
      outputPath := None;
      files := [];
      filesNum := 0;
    }

    /** `set_mode`: warns when a mode was already set, and always takes the new one. */
    method SetMode(newMode: char) returns (warned: bool)
      modifies this`mode
      ensures warned <==> old(mode) != '?'
      ensures mode == newMode
    {
      warned := mode != '?';
      mode := newMode;
    }

    /** `fn_options_copy_output_type`: a missing argument changes nothing and reports 0. */
    method CopyOutputType(arg: Option<string>) returns (ok: bool)
      modifies this`outputType
      ensures ok <==> arg.Some?
      ensures outputType == if ok then arg else old(outputType)
    {
      if arg.None? {
        return false;
      }
      outputType := arg;
      ok := true;
    }

    /** `fn_options_copy_output_path`: a missing argument changes nothing and reports 0. */
    method CopyOutputPath(arg: Option<string>) returns (ok: bool)
      modifies this`outputPath
      ensures ok <==> arg.Some?
      ensures outputPath == if ok then arg else old(outputPath)
    {
      if arg.None? {
        return false;
      }
      outputPath := arg;
      ok := true;
    }

    /** The -a case of the scan: " -pa" the first time, then " " and the path. */
    method AppendPath(path: string)
      modifies this`appends
      ensures appends == (if old(appends) == "" then " -pa" else old(appends)) + " " + path
    {
      if appends == "" {
        appends := " -pa";
      }
      appends := appends + " " + path;
    }

    /** The -p case of the scan: " -pz" the first time, then " " and the path. */
    method PrependPath(path: string)
      modifies this`prepends
      ensures prepends == (if old(prepends) == "" then " -pz" else old(prepends)) + " " + path
    {
      if prepends == "" {
        prepends := " -pz";
      }
      prepends := prepends + " " + path;
    }

    /**
     * One turn of the scan's switch for an option that does not end the
     * process: -a and -p accumulate, -o and -t are copied, -T sets the test
     * flag, -s and -r go through `SetMode`.
     */
    method ApplyOption(f: Flag) returns (warned: bool)
      requires !f.Terminal()
      modifies this
      ensures warned <==> f.IsMode() && old(mode) != '?'
      ensures Current() == Step(old(Current()), f)
      ensures files == old(files) && filesNum == old(filesNum)
    {
      warned := false;
      match f {
        case Append(path) =>
          AppendPath(path);
        case Prepend(path) =>
          PrependPath(path);
        case OutputPath(path) =>
          var _ := CopyOutputPath(Some(path));
        case OutputType(name) =>
          var _ := CopyOutputType(Some(name));
        case Shell =>
          warned := SetMode('s');
        case RunFunction =>
          warned := SetMode('r');
        case DryRun =>
          isTest := true;
      }
    }

    /** The defaults applied after the scan: type "beam" and path "." unless given. */
    method Finalize()
      modifies this`outputType, this`outputPath
      ensures Finalized()
      ensures outputType == Some(old(outputType).GetOr("beam"))
      ensures outputPath == Some(old(outputPath).GetOr("."))
    {
      if outputType.None? {
        outputType := Some("beam");
      }
      if outputPath.None? {
        outputPath := Some(".");
      }
    }

    /**
     * `fn_options_copy_extra_args`: the files become `argv[optind..]`, in order;
     * with no positional argument the record is left as it was.
     */
    method CopyExtraArgs(optind: nat, argv: seq<string>)
      requires Valid()
      requires optind <= |argv|
      modifies this`files, this`filesNum
      ensures Valid()
      ensures files == if optind == |argv| then old(files) else argv[optind..]
    {
      if optind == |argv| {
        return;
      }
      filesNum := |argv| - optind;
      var copied := new string[filesNum];
      var index := optind;
      while index < |argv|
        invariant optind <= index <= |argv|
        invariant filesNum == |argv| - optind == copied.Length
        invariant forall k :: 0 <= k < index - optind ==> copied[k] == argv[optind + k]
      {
        copied[index - optind] := argv[index];
        index := index + 1;
      }
      files := copied[..];
      assert files == argv[optind..];
    }
  }

  /**
   * The loop of `parse_options`: applies the options in order to a fresh record
   * until the first -h or '?', and counts the warnings of `set_mode`.
   */
  method ScanOptions(options: FnOptions, flags: seq<Flag>) returns (handled: nat, warnings: nat)
    requires options.Valid() && options.files == [] && options.Current() == ProgressOf([])
    modifies options
    ensures handled == ScanLength(flags)
    ensures options.Valid() && options.files == []
    ensures options.Current() == ProgressOf(flags[..handled])
    ensures warnings == Warnings(flags[..handled])
  {
    warnings := 0;
    handled := 0;
    assert flags[..0] == [];
    while handled < |flags| && !flags[handled].Terminal()
      invariant 0 <= handled <= |flags|
      invariant forall k :: 0 <= k < handled ==> !flags[k].Terminal()
      invariant options.Valid() && options.files == []
      invariant options.Current() == ProgressOf(flags[..handled])
      invariant warnings == Warnings(flags[..handled])
    {
      ghost var before := flags[..handled];
      assert flags[..handled + 1] == before + [flags[handled]];
      ProgressStep(before, flags[handled]);
      WarningStep(before, flags[handled]);
      var warned := options.ApplyOption(flags[handled]);
      if warned {
        warnings := warnings + 1;
      }
      handled := handled + 1;
    }
    ScanStopsAt(flags, handled);
  }

  /**
   * `parse_options`: scans the options left to right into a fresh record,
   * stopping at the first -h or '?', then applies the defaults and captures the
   * positional arguments. `warnings` counts the mode warnings `set_mode` emitted.
   */
  method ParseOptions(argv: seq<string>, flags: seq<Flag>, optind: nat)
    returns (status: ScanStatus, options: FnOptions, warnings: nat)
    requires optind <= |argv|
    ensures status == StatusOf(flags)
    ensures status == Scanned ==>
      options.Valid() && options.Finalized() && options.AsConfig() == ScannedConfig(flags, argv[optind..])
    ensures status == Scanned ==>
      warnings == Warnings(flags)
    ensures warnings == Warnings(flags[..ScanLength(flags)])
  {
    options := new FnOptions();
    var i;
    i, warnings := ScanOptions(options, flags);
    ScanLengthIsFirst(flags);
    StatusSkipsOptions(flags, i);
    if i < |flags| {
      status := if flags[i].Help? then HelpRequested else BadOption(flags[i].optopt);
      return;
    }
    assert flags[..i] == flags;
    ScannedFromProgress(flags, argv[optind..]);
    options.Finalize();
    options.CopyExtraArgs(optind, argv);
    status := Scanned;
  }
}
