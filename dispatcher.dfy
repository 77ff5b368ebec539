/** Running one parsed command (`ksh_execute`): an empty command does
    nothing, a builtin name runs the builtin at the same index of the table,
    anything else is launched as a program. */
module Dispatcher {
  import opened System
  import opened Builtins
  import opened Launcher

  /** Calling `builtin_func[i](args)` for the builtin `b`. */
  function RunBuiltin(b: Builtin, args: seq<string>, env: Env, os: Os): (r: Step)
    requires |args| >= 1
    ensures r.status == 0 <==> b == Exit
    ensures b != Help ==> r.env.out == env.out
    ensures b == Help ==> r.env == env.(out := env.out + HelpText())
    ensures b != Cd ==> r.env.cwd == env.cwd
  {
    match b
    case Cd => CdBuiltin(args, env, os)
    case Help => Step(1, env.(out := env.out + HelpText()))
    case Exit => ExitBuiltin(args, env)
  }

  /** What `ksh_execute(args)` does, for the argument vector `args` (the
      strings before the NULL sentinel). */
  function Dispatch(args: seq<string>, env: Env, os: Os): (r: Step)
    ensures args == [] ==> r == Step(1, env)
    ensures args != [] && FindBuiltin(args[0], 0).Some? ==>
              r == RunBuiltin(BuiltinFunc[FindBuiltin(args[0], 0).value], args, env, os)
    ensures args != [] && FindBuiltin(args[0], 0).None? ==> r == LaunchStep(args, env, os)
  {
    if args == [] then Step(1, env)
    else
      match FindBuiltin(args[0], 0)
      case Some(i) => RunBuiltin(BuiltinFunc[i], args, env, os)
      case None => LaunchStep(args, env, os)
  }

  /** Only `exit` stops the loop: every other command, including an empty
      line, a failed `cd` and a program that cannot be run, returns a
      non-zero status. */
  lemma DispatchStopsOnlyOnExit(args: seq<string>, env: Env, os: Os)
    ensures Dispatch(args, env, os).status == 0 <==> |args| > 0 && args[0] == "exit"
  {
    if args != [] {
      match FindBuiltin(args[0], 0)
      case Some(i) =>
        assert BuiltinStr[i] == args[0];
        assert BuiltinFunc[i] == Exit <==> i == 2;
      case None =>
        assert BuiltinStr[2] != args[0];
    }
  }

  /** The command names in the table select their builtin, whatever
      follows them; every other name is launched. */
  lemma DispatchByName(args: seq<string>, env: Env, os: Os)
    requires |args| >= 1
    ensures args[0] == "cd" ==> Dispatch(args, env, os) == CdBuiltin(args, env, os)
    ensures args[0] == "help" ==>
              Dispatch(args, env, os) == Step(1, env.(out := env.out + HelpText()))
    ensures args[0] == "exit" ==> Dispatch(args, env, os) == Step(0, env)
    ensures args[0] !in BuiltinStr ==> Dispatch(args, env, os) == LaunchStep(args, env, os)
  {
    var found := FindBuiltin(args[0], 0);
    if args[0] in BuiltinStr {
      var i :| 0 <= i < |BuiltinStr| && BuiltinStr[i] == args[0];
      assert found.Some?;
    } else {
      assert forall j :: 0 <= j < NumBuiltins() ==> BuiltinStr[j] != args[0];
    }
  }

  /** Only `cd` can change the working directory, and a command only ever
      appends to standard output and standard error. */
  lemma DispatchFrame(args: seq<string>, env: Env, os: Os)
    ensures var r := Dispatch(args, env, os);
            (r.env.cwd != env.cwd ==> |args| >= 2 && args[0] == "cd")
            && env.out <= r.env.out && env.err <= r.env.err
  {
    if args != [] {
      match FindBuiltin(args[0], 0)
      case Some(i) =>
        assert BuiltinStr[i] == args[0];
        assert BuiltinFunc[i] == Cd <==> i == 0;
      case None =>
    }
  }

  /** `(*builtin_func[i])(args)`. */
  method CallBuiltin(b: Builtin, args: seq<string>, env: Env, os: Os) returns (step: Step)
    requires |args| >= 1
    ensures step == RunBuiltin(b, args, env, os)
  {
    match b
    case Cd => step := CdBuiltin(args, env, os);
    case Help => step := HelpBuiltin(args, env);
    case Exit => step := ExitBuiltin(args, env);
  }

  /** `ksh_execute`: the search over the table in order, then the launch. */
  method Execute(args: seq<string>, env: Env, os: Os) returns (step: Step)
    ensures step == Dispatch(args, env, os)
  {
    if args == [] {
      return Step(1, env);
    }
    for i := 0 to NumBuiltins()
      invariant forall j :: 0 <= j < i ==> BuiltinStr[j] != args[0]
    {
      if args[0] == BuiltinStr[i] {
        assert FindBuiltin(args[0], 0) == Some(i);
        step := CallBuiltin(BuiltinFunc[i], args, env, os);
        return;
      }
    }
    step := Launch(args, env, os);
  }

  /** The world can change between commands: `cd d` fails, a program then
      creates `d`, and the same `cd d` succeeds. */
  lemma WorldChangesBetweenCalls(env: Env)
    requires env.calls == 0
    ensures var os := Os((n: nat, cwd: string, path: string) =>
                           if n == 0 then ChdirErr("No such file or directory") else ChdirOk(cwd + "/" + path),
                         (n: nat, cwd: string, argv: seq<string>) => Forked(None, [Exited(0)]));
            var e1 := Dispatch(["cd", "d"], env, os).env;
            var e2 := Dispatch(["mkdir", "d"], e1, os).env;
            var e3 := Dispatch(["cd", "d"], e2, os).env;
            e1.cwd == env.cwd && e1.err == env.err + [Perror("ksh", "No such file or directory")]
            && e3.cwd == env.cwd + "/d"
  {
    var os := Os((n: nat, cwd: string, path: string) =>
                   if n == 0 then ChdirErr("No such file or directory") else ChdirOk(cwd + "/" + path),
                 (n: nat, cwd: string, argv: seq<string>) => Forked(None, [Exited(0)]));
    DispatchByName(["cd", "d"], env, os);
    var e1 := Dispatch(["cd", "d"], env, os).env;
    assert "mkdir" !in BuiltinStr;
    DispatchByName(["mkdir", "d"], e1, os);
    var e2 := Dispatch(["mkdir", "d"], e1, os).env;
    assert e2.calls == 2;
    DispatchByName(["cd", "d"], e2, os);
  }
}
