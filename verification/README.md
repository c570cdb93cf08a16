# fnc — the efene launcher, modelled in Dafny

`fnc` (tools/fnc.c) is the command-line front end of the efene compiler. It
scans its options into a `struct FnOptions` record, checks the positional
arguments against the chosen mode, builds an inner command in one of four
shapes (interactive shell, run a function, compile to beam, compile to some
other output type), finds the directory of efene's support libraries by three
tiers (the `FNPATH` variable, `../ebin`, the `ebin` directory above the
launcher's own directory), wraps the inner command into an
`erl -run … -run init stop -noshell -pa "<dir>"` command line, and prints it
(`-T`, dry run) or hands it to `system`.

The model has eight modules:

- `Results` holds the values the stages pass on: `Option`, `Result`, the
  `LaunchError`s and the four ways the launcher can end (`Outcome`).
- `Words` holds `str_join` as an imperative method over a character array,
  `Join`, the function that specifies it, and `Split`, which cuts a string at
  every single space and keeps empty pieces and quote characters. Joining and
  splitting at single spaces are proved inverse for strings without spaces.
- `Options` holds the `FnOptions` record as a class whose methods update its
  fields, and the option scan of `parse_options` as a loop. getopt is not
  modelled. The scan receives the options getopt reports as a sequence of
  `Flag`s, together with `argv` and the index `optind` of the first
  positional argument. Functions over that sequence specify what the scan
  builds: last value wins, ordered accumulation, last mode wins, and the
  first `-h`/`?` ends the scan.
- `Paths` holds `fn_run`: the tier selection (`Resolve`), the wrapping
  (`Wrap`) and the final outcome (`Run`). FNPATH is a parameter `env` (None
  when unset) and `is_dir` is a parameter `isDir`.
- `Launcher` holds `main`: the inner-command selection (`InnerCommand`), the
  whole launcher as a function (`LaunchSpec`), and the method `Launch`, which
  mirrors `main` statement by statement and is proved equal to `LaunchSpec`. It also
  proves what every printed or executed command splits into at single spaces:
  `erl -run`, the intended inner words and the tail. This holds when no option
  argument, positional argument or resolved directory holds a space.
- `Buffers` holds the fixed command buffer and the check that follows each
  `snprintf` (see Findings).
- `ExitStatus` holds what becomes of the status `system` returns when
  `fn_run` passes it to `exit` (see Findings).
- `UsageExamples` works through launches from the program's usage text.

The code decides set-ness of `FNPATH` by `getenv` returning non-NULL. A
variable that is set but empty therefore still selects the first tier, giving
`-pa "/ebin"`. The model follows the code.

## Model

| member | source | states |
|---|---|---|
| Words.StrJoin | tools/fnc.c:343-367 | For a non-empty list, the two loops (measure, then copy each string followed by a space, and end at the last space) yield exactly the strings separated by single spaces. The length is the total length plus one less than the count. |
| Words.MeasureStrings | tools/fnc.c:349-352 | The measuring loop yields the total length of the strings plus one per string: room for every separator and the final NUL. |
| Words.CopyWithSpace | tools/fnc.c:358-362 | One turn of the copy loop writes the string and then a space at the offset. What was written before and the rest of the buffer beyond the new space are unchanged. |
| Words.SpacedIsJoin | tools/fnc.c:357-365 | The copy loop's text (each string followed by a space) is the joined string plus one trailing space, which the final NUL overwrites. |
| Words.JoinLength | tools/fnc.c:349-352 | The joined string has one separator fewer than it has strings: sum of lengths plus count minus one. |
| Words.JoinAppend | tools/fnc.c:357-363 | Joining two non-empty lists is joining each and putting a single space between them. |
| Words.SplitJoin | tools/fnc.c:343-367 | When no string holds a space, splitting the joined string at single spaces gives back exactly the strings that were joined, in order. |
| Words.JoinSplit | tools/fnc.c:343-367 | Conversely, every string is the join of its own words, and those words hold no space. |
| Options.FnOptions.constructor | tools/fnc.c:132-148 | A fresh record has mode '?', no test flag, empty appends and prepends, no output type or path, and no files. |
| Options.FnOptions.SetMode | tools/fnc.c:258-264 | Warns exactly when a mode was already set, and always leaves the new mode in place. |
| Options.FnOptions.CopyOutputType | tools/fnc.c:206-219 | A missing argument reports failure and keeps the old type. Otherwise the argument replaces it. |
| Options.FnOptions.CopyOutputPath | tools/fnc.c:221-234 | A missing argument reports failure and keeps the old path. Otherwise the argument replaces it. |
| Options.FnOptions.AppendPath | tools/fnc.c:272-279 | The `-a` case adds " -pa" only when the buffer is still empty, then " " and the path. |
| Options.FnOptions.PrependPath | tools/fnc.c:280-287 | The `-p` case adds " -pz" only when the buffer is still empty, then " " and the path. |
| Options.FnOptions.ApplyOption | tools/fnc.c:271-311 | One turn of the switch for a non-terminal option moves the record exactly as `Step` says. It warns only for a second mode option and leaves the files alone. |
| Options.FnOptions.Finalize | tools/fnc.c:330-336 | After the scan, the type defaults to "beam" and the path to "." unless they were given. |
| Options.FnOptions.CopyExtraArgs | tools/fnc.c:236-256 | The files become `argv[optind..]` in order, with `files_num` counting them. With no positional argument the record is unchanged. |
| Options.ScanOptions | tools/fnc.c:269-328 | The loop handles exactly the options before the first -h or '?' (`ScanLength`). It leaves the record at `ProgressOf` of those options and counts one warning per -s/-r after the first among them. |
| Options.ParseOptions | tools/fnc.c:266-341 | The scan stops at the first -h or '?' (StatusOf). A complete scan yields the record `ScannedConfig`: last -t or "beam", last -o or ".", last -s/-r or '?', -T seen, the ordered -a/-p fragments, and the positional files. Whether or not the scan completes, it emits one mode warning per -s/-r after the first, counting only the options before any -h or '?'. |
| Options.ScanLengthIsFirst | tools/fnc.c:294-326 | The number of options the scan handles is the index of the first -h or '?', or all of them: every option before that point is handled. |
| Options.StatusIsFirstTerminal | tools/fnc.c:294-326 | The scan completes exactly when there is no -h and no bad option. Otherwise the first such option decides between usage and error. |
| Options.StatusSkipsOptions | tools/fnc.c:270-311 | Options before the first -h or '?' do not change how the scan ends. |
| Options.LastArgIsLast | tools/fnc.c:288-308 | The stored -o/-t value is absent exactly when the option never occurs. Otherwise it is the argument of the last occurrence: last value wins. |
| Options.ModeUnset | tools/fnc.c:258-264 | The mode is still '?' exactly when no -s or -r was seen, so a warning is due exactly from the second mode option on. |
| Options.LastModeIsLast | tools/fnc.c:300-311 | The final mode is the letter of the last -s or -r. With none the mode stays '?'. |
| Options.ArgsOfKeepsOrder | tools/fnc.c:272-287 | The -a (-p) paths are kept one for one, in the order given, across any split of the options. |
| Options.FragmentEmpty | tools/fnc.c:272-287 | The -a (-p) fragment is empty exactly when no -a (-p) was given, whatever the paths hold. |
| Options.FragmentWords | tools/fnc.c:272-287 | When the flag and paths hold no space, a non-empty fragment after its leading space splits at single spaces into the flag once, followed by every path in order. |
| Options.FragmentStep | tools/fnc.c:272-279 | Adding a path to the fragment is what the -a case does to its buffer: the flag the first time only, then " " and the path. |
| Options.ProgressStep | tools/fnc.c:271-311 | `Step` models one turn of the switch: -a/-p extend their buffer, -o/-t replace their value, -s/-r set the mode, -T sets the test flag. Applied to what the scan has built from the earlier options, it gives `ProgressOf` of the longer sequence, so the loop computes `ProgressOf`. |
| Paths.Resolve | tools/fnc.c:66-127 | First match wins. A set FNPATH gives "<FNPATH>/ebin" without a directory check. Otherwise an existing "../ebin" is used, then an existing "<dirname(dirname(argv0))>/ebin". Nothing is found exactly when neither exists. A directory the resolver finds without FNPATH exists. |
| Paths.Run | tools/fnc.c:60-130 | Fails with the tried path exactly when no tier matches, and then prints and executes nothing. Otherwise the wrapped command is printed exactly on a dry run and executed exactly otherwise. |
| Paths.Dirname | tools/fnc.c:64 | dirname for a path without trailing slashes. With no '/' it gives ".". With only a leading '/' it gives "/". Otherwise it gives the non-empty prefix before the last '/', and what follows that slash holds no '/'. |
| Paths.BasePath | tools/fnc.c:64 | The directory two levels up from the launcher is ".", "/", or a proper prefix of argv[0] that ends just before a '/'. With no '/' in argv[0] it is ".". |
| Paths.Wrap | tools/fnc.c:83-85 | The command line starts with "erl -run " followed by the inner command intact. It ends with the directory and a closing quote, and is 40 characters longer than the two together. |
| Paths.DirnameOfChild | tools/fnc.c:64 | The directory part of "<parent>/<name>" is the parent. |
| Paths.InstalledBasePath | tools/fnc.c:64-69 | A launcher installed as <root>/<dir>/<name> looks for the third tier in <root>/ebin. |
| Paths.RelativeBasePath | tools/fnc.c:64-69 | A launcher invoked as <dir>/<name> looks in "./ebin". |
| Paths.TailJoin | tools/fnc.c:83-85 | The fixed tail of the command line is the words -run init stop -noshell -pa "<dir>", joined. |
| Paths.WrapIsJoin | tools/fnc.c:83-85 | The wrapped command is the join of `erl -run`, the inner words and the tail. |
| Paths.WrapWords | tools/fnc.c:83-85 | When the inner words and the directory hold no space, the wrapped command splits at single spaces into exactly `erl -run`, the inner command's words and the tail naming the directory. |
| Launcher.InnerCommand | tools/fnc.c:374-406 | Fails exactly when the mode is not shell and there is no file, or -r has fewer than two. No files is reported first, even for -r; one file under -r reports "got 1". Shell mode never checks files. |
| Launcher.InnerCommandWords | tools/fnc.c:374-406 | When no argument holds a space, the four shapes split at single spaces into the intended words. Shell is `fn run shell` plus search paths. Run is the files plus search paths. Beam is `fn run beam "<path>"` plus files. Other types are `fn run <type>` plus files. Each search-path flag appears once, before its paths in order. |
| Launcher.CompileIgnoresSearchPaths | tools/fnc.c:399-406 | The two compile shapes do not depend on -a or -p. |
| Launcher.ShellIgnoresFiles | tools/fnc.c:374-377 | Shell mode always builds a command and depends on neither files, type nor output path. |
| Launcher.LaunchSpec | tools/fnc.c:369-416 | -h ends with usage, and a bad option ends with its error. A command is printed or executed only after a complete scan and a passed file check. It is printed only on a dry run and executed only otherwise. |
| Launcher.ValidationStopsLaunch | tools/fnc.c:379-394 | A failed file check ends the launcher with that error whatever FNPATH and the directories are: fn_run is never reached. |
| Launcher.LaunchWords | tools/fnc.c:411-415 | End to end, when no option argument, positional argument or resolved directory holds a space: the command printed or executed splits at single spaces into `erl -run`, the intended inner words and the tail with the resolved directory. |
| Launcher.Launch | tools/fnc.c:369-416 | `main`: parse, stop on -h or a bad option, check the files, build the inner command with `StrJoin`, and hand it to `fn_run`. It ends exactly as `LaunchSpec`. |
| ExitStatus.ExitCode | tools/fnc.c:129 | `exit` keeps only the low eight bits of its argument: the result is below 256, and a status already below 256 is kept. |
| ExitStatus.RelayAsWrittenLosesCode | tools/fnc.c:123-129 | As written, `exit(system(cmd))` turns every normal exit code of the child, failures included, into 0. |
| ExitStatus.RelayKeepsCode | tools/fnc.c:123-129 | The corrected relay hands on the child's exit code unchanged and reports a child killed by a signal as 128 plus the signal, and the code survives `exit`. |
| Buffers.Snprintf | tools/fnc.c:69-70 | What a buffer of the given size keeps is a prefix of the formatted text, shorter than the size. It is the whole text exactly when the text is shorter than the size. |
| Buffers.CountCheckAsWrittenTruncates | tools/fnc.c:411 | A command of exactly 2048 characters passes `count <= STR_BUFFER_SIZE` and loses its last character. |
| Buffers.CountCheckKeepsCommand | tools/fnc.c:411 | `count < STR_BUFFER_SIZE` passes exactly the commands the buffer holds whole. |
| UsageExamples.CompileExample | tools/fnc.c:47 | `fnc foo.ifn` next to ../ebin executes the wrap of `fn run beam "." foo.ifn` with ../ebin. |
| UsageExamples.TranslateExample | tools/fnc.c:51 | `fnc -t erl -T foo.ifn` with FNPATH=/opt/efene prints the wrap of `fn run erl foo.ifn` with /opt/efene/ebin. |
| UsageExamples.RunExample | tools/fnc.c:52 | `fnc -r -a lib foo run`, invoked as `fnc` with only ./ebin present, executes the wrap of `foo run -pa lib` with ./ebin. |
| UsageExamples.MissingFunctionExample | tools/fnc.c:387-394 | `fnc -r foo` fails with "got 1", whatever the environment. |

## Left out

- getopt itself is not modelled: option parsing, the `optind`/`optopt` globals and GNU argument permutation. Its reports are the input `flags`, and `argv` and `optind` are taken as given.
- I/O is not modelled: `getenv`, `stat`/`is_dir`, `system` and `exit`. FNPATH and the existing directories are parameters. `system` and printing become the `Executed`/`Printed` outcomes.
- `fn_run` passes `system()`'s wait status, not the child's exit code, to `exit()`. The launcher's outcomes do not carry a status; `ExitStatus` models only what `exit` makes of a wait status (see Findings).
- The exit status after a dry run is not modelled, because `status` is never assigned on that path.
- The texts of `show_usage`, `fn_options_print` and the diagnostics on stderr are not modelled. Of the diagnostics, only the fact that `set_mode` warns is kept (counted by `ParseOptions`).
- Memory management is not modelled: `malloc`/`free`/`strdup`, `fn_options_delete`, `fn_options_free_files`, and the record leaked on the `-r` failure path.
- The fixed buffers are not modelled: appends and prepends are unbounded strings, so the `strncat` limits into the 512-character buffers are not modelled, and overflow past them is not either. Commands are unbounded strings too. The 2048-character buffer appears only in `Buffers`, where the corrected check keeps every command whole.
- The word splitting of the shell that `system` starts is not modelled: runs of blanks, dropped empty words and quote removal. `Split` cuts at single spaces, so the word lemmas say what the command is made of, not how a shell reads it.
- Paths.Dirname: covers paths without trailing slashes. The POSIX corner cases (trailing or doubled slashes) and the in-place change `dirname` makes to `argv[0]` are not modelled.
- Options.FnOptions.CopyOutputType: stores the argument it is given, while the source copies the global `optarg`. The only caller passes `optarg`, so the two agree.
- Options.FnOptions.CopyOutputPath: stores the argument it is given, while the source copies the global `optarg`. The only caller passes `optarg`, so the two agree.

## Findings

| source | as written | input that shows it | evidently intended | confidence | as-written member | corrected member |
|---|---|---|---|---|---|---|
| tools/fnc.c:411 | `assert(count <= STR_BUFFER_SIZE)` after `snprintf` into a 2048-character buffer (also lines 70, 87, 102, 117) | an inner command whose full command line is exactly 2048 characters long: the check passes, and the buffer holds only the first 2047 characters | `count < STR_BUFFER_SIZE`: reject every command the buffer cannot hold whole | high; not executed | Buffers.CountCheckAsWrittenTruncates | Buffers.CountCheckKeepsCommand |
| tools/fnc.c:129 | `exit(status)` where `status` is the value `system` returned (lines 93, 108, 123) | a command whose child exits with code 1: `system` returns the wait status 256, and `exit(256)` leaves the status 0 | hand on the child's exit code (and 128 plus the signal for a killed child) | medium (depends on the wait-status encoding of Linux and the BSDs); not executed | ExitStatus.RelayAsWrittenLosesCode | ExitStatus.RelayKeepsCode |
