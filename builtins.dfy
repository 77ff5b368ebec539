/** The builtin commands: the fixed, ordered table of names and the commands
    `cd`, `help` and `exit`, each returning the loop's continuation status. */
module Builtins {
  import opened System

  /** The functions of `builtin_func`. */
  datatype Builtin = Cd | Help | Exit

  /** `builtin_str`: the names, in table order. */
  const BuiltinStr: seq<string> := ["cd", "help", "exit"]

  /** `builtin_func`: the function at the same index as each name. */
  const BuiltinFunc: seq<Builtin> := [Cd, Help, Exit]

  /** `ksh_num_builtins`: the number of entries in the name table, which the
      function table matches entry for entry. */
  function NumBuiltins(): (n: nat)
    ensures n == |BuiltinStr| == |BuiltinFunc| == 3
  {
    |BuiltinStr|
  }

  /** The first index from `i` on whose name is exactly `name`
      (`strcmp(name, builtin_str[j]) == 0`), searching in table order. */
  function FindBuiltin(name: string, i: nat): (r: Option<nat>)
    requires i <= NumBuiltins()
    ensures r.Some? ==> i <= r.value < NumBuiltins() && BuiltinStr[r.value] == name
    ensures r.Some? ==> forall j :: i <= j < r.value ==> BuiltinStr[j] != name
    ensures r.None? <==> forall j :: i <= j < NumBuiltins() ==> BuiltinStr[j] != name
    decreases NumBuiltins() - i
  {
    if i == NumBuiltins() then None
    else if BuiltinStr[i] == name then Some(i)
    else FindBuiltin(name, i + 1)
  }

  /** The diagnostic `ksh_cd` writes when it has no argument. */
  const CdUsage: string := "ksh: expected argument to \"cd\"\n"

  /** `ksh_cd`: without a second token, reports the usage error and keeps
      the working directory; otherwise `chdir` to the second token, and on
      failure `perror("ksh")`. Always continues. */
  function CdBuiltin(args: seq<string>, env: Env, os: Os): (r: Step)
    requires |args| >= 1
    ensures r.status == 1
    ensures r.env.out == env.out
    ensures |args| == 1 ==> r.env == env.(err := env.err + [CdUsage])
    ensures |args| >= 2 && os.chdir(env.calls, env.cwd, args[1]).ChdirOk? ==>
              r.env == env.(cwd := os.chdir(env.calls, env.cwd, args[1]).dir, calls := env.calls + 1)
    ensures |args| >= 2 && os.chdir(env.calls, env.cwd, args[1]).ChdirErr? ==>
              r.env == env.(err := env.err + [Perror("ksh", os.chdir(env.calls, env.cwd, args[1]).reason)],
                            calls := env.calls + 1)
  {
    if |args| < 2 then
      Step(1, env.(err := env.err + [CdUsage]))
    else
      match os.chdir(env.calls, env.cwd, args[1])
      case ChdirOk(dir) => Step(1, env.(cwd := dir, calls := env.calls + 1))
      case ChdirErr(reason) =>
        Step(1, env.(err := env.err + [Perror("ksh", reason)], calls := env.calls + 1))
  }

  /** `ksh_cd` looks at the second token only: the ones after it are
      ignored. */
  lemma CdIgnoresExtraArgs(args: seq<string>, env: Env, os: Os)
    requires |args| >= 2
    ensures CdBuiltin(args, env, os) == CdBuiltin(args[..2], env, os)
  {
  }

  /** The three lines `ksh_help` writes before the builtin names. */
  const HelpBanner: seq<string> := [
    "Kay\U{C3}\U{AA} Holanda's KSH\n",
    "Type program names and arguments and hit enter\n",
    "The following are built in:\n"
  ]

  /** The line `ksh_help` writes after the builtin names. */
  const HelpClosing: string := "Use the man command for information on other programs\n"

  /** One line ` %s\n` per name, in order. */
  function NameLines(names: seq<string>): (lines: seq<string>)
    ensures |lines| == |names|
    ensures forall k :: 0 <= k < |names| ==> lines[k] == " " + names[k] + "\n"
  {
    if names == [] then []
    else
      var rest := NameLines(names[1..]);
      assert forall k :: 1 <= k < |names| ==> names[k] == names[1..][k - 1];
      [" " + names[0] + "\n"] + rest
  }

  /** Everything `ksh_help` writes: the banner, one line per builtin in
      table order, then the closing line. */
  function HelpText(): (lines: seq<string>)
    ensures |lines| == 3 + NumBuiltins() + 1
    ensures lines[..3] == HelpBanner
    ensures forall k :: 0 <= k < NumBuiltins() ==> lines[3 + k] == " " + BuiltinStr[k] + "\n"
    ensures lines[|lines| - 1] == HelpClosing
  {
    HelpBanner + NameLines(BuiltinStr) + [HelpClosing]
  }

  /** `ksh_help`: writes the help text, changes nothing else and
      continues. */
  method HelpBuiltin(args: seq<string>, env: Env) returns (step: Step)
    ensures step == Step(1, env.(out := env.out + HelpText()))
  {
    var out := env.out + HelpBanner;
    for i := 0 to NumBuiltins()
      invariant out == env.out + HelpBanner + NameLines(BuiltinStr[..i])
    {
      assert BuiltinStr[..i + 1] == BuiltinStr[..i] + [BuiltinStr[i]];
      NameLinesSnoc(BuiltinStr[..i], BuiltinStr[i]);
      out := out + [" " + BuiltinStr[i] + "\n"];
    }
    assert BuiltinStr[..NumBuiltins()] == BuiltinStr;
    out := out + [HelpClosing];
    step := Step(1, env.(out := out));
  }

  /** One more name adds its line at the end. */
  lemma NameLinesSnoc(names: seq<string>, name: string)
    ensures NameLines(names + [name]) == NameLines(names) + [" " + name + "\n"]
  {
    var l := NameLines(names + [name]);
    var r := NameLines(names) + [" " + name + "\n"];
    assert |l| == |r|;
    forall k | 0 <= k < |l|
      ensures l[k] == r[k]
    {
      if k < |names| {
        assert (names + [name])[k] == names[k];
      }
    }
  }

  /** `ksh_exit`: does nothing and stops the loop. */
  function ExitBuiltin(args: seq<string>, env: Env): (r: Step)
    ensures r.status == 0 && r.env == env
  {
    Step(0, env)
  }

  /** The table pairs each name with its function. */
  lemma BuiltinTable()
    ensures FindBuiltin("cd", 0) == Some(0) && BuiltinFunc[0] == Cd
    ensures FindBuiltin("help", 0) == Some(1) && BuiltinFunc[1] == Help
    ensures FindBuiltin("exit", 0) == Some(2) && BuiltinFunc[2] == Exit
  {
  }
}
