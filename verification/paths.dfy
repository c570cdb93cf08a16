/**
 * `fn_run` of tools/fnc.c: find the directory of the runtime's support
 * libraries by three tiers, wrap the inner command into the `erl` command
 * line, and print it (dry run) or hand it over for execution.
 *
 * The environment variable FNPATH and the `is_dir` test are parameters: `env`
 * is the value of FNPATH (None when it is not set) and `isDir` says which
 * paths name existing directories.
 */
module Paths {
  import opened Results
  import opened Words

  /** The index of the last '/' of `s`, or -1 when there is none. */
  function LastSlash(s: string): (r: int)
    ensures -1 <= r < |s|
    ensures r >= 0 ==> s[r] == '/'
    ensures forall k :: r < k < |s| ==> s[k] != '/'
  {
    if s == [] then -1
    else if s[|s| - 1] == '/' then |s| - 1
    else LastSlash(s[..|s| - 1])
  }

  /**
   * dirname(3) for a path without trailing slashes: everything before the last
   * '/', "/" when that slash is the first character, "." when there is none.
   */
  function Dirname(path: string): (r: string)
    ensures '/' !in path ==> r == "."
    ensures path != [] && path[0] == '/' && '/' !in path[1..] ==> r == "/"
    ensures path != [] && '/' in path[1..] ==>
      0 < |r| < |path| && r == path[..|r|] && path[|r|] == '/' && '/' !in path[|r| + 1..]
  {
    var i := LastSlash(path);
    if i < 0 then "." else if i == 0 then "/" else path[..i]
  }

  /** `dirname(dirname(argv0))`: the directory above the one holding the launcher. */
  function BasePath(argv0: string): (r: string)
    ensures '/' !in argv0 ==> r == "."
    ensures r == "." || r == "/" || (0 < |r| < |argv0| && r == argv0[..|r|] && argv0[|r|] == '/')
  {
    Dirname(Dirname(argv0))
  }

  /**
   * The three tiers of `fn_run`, first match wins: FNPATH when it is set (its
   * "/ebin" is not checked), else "../ebin" when it is a directory, else
   * "<BasePath(argv0)>/ebin" when that is a directory; None when all fail.
   */
  function Resolve(env: Option<string>, isDir: string -> bool, argv0: string): (r: Option<string>)
    ensures env.Some? ==> r == Some(env.value + "/ebin")
    ensures env.None? ==> (r.Some? <==> isDir("../ebin") || isDir(BasePath(argv0) + "/ebin"))
    ensures env.None? && r.Some? ==> isDir(r.value)
    ensures env.None? && isDir("../ebin") ==> r == Some("../ebin")
    ensures env.None? && !isDir("../ebin") && r.Some? ==> r.value == BasePath(argv0) + "/ebin"
  {
    if env.None? then
      if !isDir("../ebin") then
        var fnpath := BasePath(argv0) + "/ebin";
        if !isDir(fnpath) then None else Some(fnpath)
      else
        Some("../ebin")
    else
      Some(env.value + "/ebin")
  }

  /** The command line that runs `args` in the runtime with `dir` on the code path. */
  function Wrap(args: string, dir: string): (r: string)
    ensures |r| == |args| + |dir| + 40
    ensures r[..9] == "erl -run " && r[9..9 + |args|] == args
    ensures r[|r| - |dir| - 1..] == dir + "\""
  {
    "erl -run " + args + " -run init stop -noshell -pa \"" + dir + "\""
  }

  /**
   * `fn_run`: when no tier finds the directory the launcher fails and nothing
   * is printed or executed; otherwise the wrapped command is printed in a dry
   * run and executed in any other.
   */
  function Run(args: string, argv0: string, isTest: bool, env: Option<string>, isDir: string -> bool)
    : (o: Outcome)
    ensures !o.UsageShown?
    ensures o.Failed? <==> Resolve(env, isDir, argv0).None?
    ensures o.Failed? ==> o.error == PathNotFound(BasePath(argv0) + "/ebin")
    ensures o.Printed? <==> isTest && Resolve(env, isDir, argv0).Some?
    ensures o.Executed? <==> !isTest && Resolve(env, isDir, argv0).Some?
    ensures o.Printed? || o.Executed? ==> o.cmd == Wrap(args, Resolve(env, isDir, argv0).value)
  {
    match Resolve(env, isDir, argv0)
    case None => Failed(PathNotFound(BasePath(argv0) + "/ebin"))
    case Some(dir) =>
      var cmd := Wrap(args, dir);
      if isTest then Printed(cmd) else Executed(cmd)
  }

  /** Dirname undoes appending "/" and a name to a non-empty directory. */
  lemma DirnameOfChild(parent: string, name: string)
    requires parent != "" && '/' !in name
    ensures Dirname(parent + "/" + name) == parent
  {
    var path := parent + "/" + name;
    assert path[|parent|] == '/';
    assert forall k :: |parent| < k < |path| ==> path[k] == name[k - |parent| - 1];
    assert LastSlash(path) == |parent|;
    assert path[..|parent|] == parent;
  }

  /** A name without a slash lies in the current directory. */
  lemma DirnameOfName(name: string)
    requires '/' !in name
    ensures Dirname(name) == "."
  {
  }

  /**
   * A launcher installed as `<root>/<dir>/<name>` looks for the support
   * libraries in `<root>/ebin` (the third tier).
   */
  lemma InstalledBasePath(root: string, dir: string, name: string)
    requires root != "" && '/' !in dir && '/' !in name
    ensures BasePath(root + "/" + dir + "/" + name) == root
  {
    assert root + "/" + dir + "/" + name == (root + "/" + dir) + "/" + name;
    DirnameOfChild(root + "/" + dir, name);
    DirnameOfChild(root, dir);
  }

  /** A launcher invoked as `<dir>/<name>` looks in "./ebin". */
  lemma RelativeBasePath(dir: string, name: string)
    requires dir != "" && '/' !in dir && '/' !in name
    ensures BasePath(dir + "/" + name) == "."
  {
    DirnameOfChild(dir, name);
    DirnameOfName(dir);
  }

  /** The words in front of the inner command. */
  const Head: seq<string> := ["erl", "-run"]

  /** The words after the inner command: stop the runtime, no shell, `dir` on the code path. */
  function TailWords(dir: string): seq<string>
  {
    ["-run", "init", "stop", "-noshell", "-pa", "\"" + dir + "\""]
  }

  lemma HeadJoin()
    ensures Join(Head) == "erl -run"
  {
    JoinCons("erl", ["-run"]);
    assert Head == ["erl"] + ["-run"];
    assert "erl" + " " + "-run" == "erl -run";
  }

  lemma TailJoin(dir: string)
    ensures Join(TailWords(dir)) == "-run init stop -noshell -pa \"" + dir + "\""
  {
    var q := "\"" + dir + "\"";
    var s4 := "-pa" + " " + q;
    JoinCons("-pa", [q]);
    assert Join(["-pa", q]) == s4 by {
      assert ["-pa", q] == ["-pa"] + [q];
    }
    var s3 := "-noshell" + " " + s4;
    JoinCons("-noshell", ["-pa", q]);
    assert Join(["-noshell", "-pa", q]) == s3 by {
      assert ["-noshell", "-pa", q] == ["-noshell"] + ["-pa", q];
    }
    var s2 := "stop" + " " + s3;
    JoinCons("stop", ["-noshell", "-pa", q]);
    assert Join(["stop", "-noshell", "-pa", q]) == s2 by {
      assert ["stop", "-noshell", "-pa", q] == ["stop"] + ["-noshell", "-pa", q];
    }
    var s1 := "init" + " " + s2;
    JoinCons("init", ["stop", "-noshell", "-pa", q]);
    assert Join(["init", "stop", "-noshell", "-pa", q]) == s1 by {
      assert ["init", "stop", "-noshell", "-pa", q] == ["init"] + ["stop", "-noshell", "-pa", q];
    }
    JoinCons("-run", ["init", "stop", "-noshell", "-pa", q]);
    assert TailWords(dir) == ["-run"] + ["init", "stop", "-noshell", "-pa", q];
    assert "-run" + " " + s1 == "-run init stop -noshell -pa \"" + dir + "\"";
  }

  /** The format of the wrapped command, cut where the inner command's words end. */
  lemma WrapForm(args: string, dir: string)
    ensures Wrap(args, dir) == "erl -run" + " " + args + " " + ("-run init stop -noshell -pa \"" + dir + "\"")
  {
    var lit := "-run init stop -noshell -pa \"";
    assert "erl -run " == "erl -run" + " ";
    assert " -run init stop -noshell -pa \"" == " " + lit;
    var a := "erl -run" + " " + args;
    assert Wrap(args, dir) == a + (" " + lit) + dir + "\"";
    assert a + (" " + lit) + dir + "\"" == a + " " + (lit + dir + "\"");
  }

  /** The wrapped command is the head words, the inner words and the tail words, joined. */
  lemma WrapIsJoin(inner: seq<string>, dir: string)
    requires |inner| > 0
    ensures Wrap(Join(inner), dir) == Join(Head + inner + TailWords(dir))
  {
    HeadJoin();
    TailJoin(dir);
    JoinThree(Head, inner, TailWords(dir));
    WrapForm(Join(inner), dir);
  }

  /** The head and tail words hold no space when the directory holds none. */
  lemma FixedWordsNoSpaces(dir: string)
    requires ' ' !in dir
    ensures NoSpaces(Head) && NoSpaces(TailWords(dir))
  {
    QuotedNoSpaces(dir);
  }

  /**
   * The wrapped command, split at single spaces, is `erl -run`, the words of the
   * inner command, and the fixed tail naming the directory.
   */
  lemma WrapWords(inner: seq<string>, dir: string)
    requires |inner| > 0 && NoSpaces(inner) && ' ' !in dir
    ensures Split(Wrap(Join(inner), dir)) == Head + inner + TailWords(dir)
  {
    WrapIsJoin(inner, dir);
    FixedWordsNoSpaces(dir);
    NoSpacesAppend(Head, inner);
    NoSpacesAppend(Head + inner, TailWords(dir));
    SplitJoin(Head + inner + TailWords(dir));
  }
}
