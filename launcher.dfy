/** Running an external program (`ksh_launch`): fork, `execvp` in the child,
    and in the parent wait until the child has exited or been killed. What
    the operating system does is the `launch` oracle of `Os`. */
module Launcher {
  import opened System

  /** The effect of `ksh_launch` on the shell: it always continues; if
      `fork` fails, or the child's `execvp` fails, one `perror("ksh")` line
      is written to standard error; nothing else the shell can see
      changes. */
  function LaunchStep(args: seq<string>, env: Env, os: Os): (r: Step)
    requires |args| >= 1
    ensures r.status == 1
    ensures r.env.cwd == env.cwd && r.env.out == env.out && r.env.calls == env.calls + 1
    ensures os.launch(env.calls, env.cwd, args).ForkFailed? ==>
              r.env.err == env.err + [Perror("ksh", os.launch(env.calls, env.cwd, args).reason)]
    ensures os.launch(env.calls, env.cwd, args).Forked? &&
            os.launch(env.calls, env.cwd, args).execError.Some? ==>
              r.env.err == env.err + [Perror("ksh", os.launch(env.calls, env.cwd, args).execError.value)]
    ensures os.launch(env.calls, env.cwd, args).Forked? &&
            os.launch(env.calls, env.cwd, args).execError.None? ==>
              r.env == env.(calls := env.calls + 1)
  {
    var e := env.(calls := env.calls + 1);
    match os.launch(env.calls, env.cwd, args)
    case ForkFailed(reason) => Step(1, e.(err := e.err + [Perror("ksh", reason)]))
    case Forked(None, _) => Step(1, e)
    case Forked(Some(reason), _) => Step(1, e.(err := e.err + [Perror("ksh", reason)]))
  }

  /** The parent's `do { waitpid(...) } while (!WIFEXITED && !WIFSIGNALED)`:
      consumes reports until the first one in which the child has exited or
      been killed; stop reports are skipped. */
  method WaitForChild(reports: WaitReports) returns (k: nat, status: ChildReport)
    ensures k < |reports| && status == reports[k]
    ensures IsTerminal(status)
    ensures forall j :: 0 <= j < k ==> reports[j].Stopped?
  {
    k := 0;
    status := reports[0];
    while !IsTerminal(status)
      invariant k < |reports| && status == reports[k]
      invariant forall j :: 0 <= j < k ==> reports[j].Stopped?
      decreases |reports| - k
    {
      k := k + 1;
      status := reports[k];
    }
  }

  /** `ksh_launch`. */
  method Launch(args: seq<string>, env: Env, os: Os) returns (step: Step)
    requires |args| >= 1
    ensures step == LaunchStep(args, env, os)
  {
    var e := env.(calls := env.calls + 1);
    match os.launch(env.calls, env.cwd, args)
    case ForkFailed(reason) =>
      step := Step(1, e.(err := e.err + [Perror("ksh", reason)]));
    case Forked(execError, reports) =>
      if execError.Some? {
        e := e.(err := e.err + [Perror("ksh", execError.value)]);
      }
      var _, _ := WaitForChild(reports);
      step := Step(1, e);
  }
}
