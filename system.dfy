/** The process environment the shell runs in: what `getchar` can return,
    the state the shell changes (working directory, the writes to standard
    output and standard error) and the operating-system calls whose effect is
    decided outside the shell (`chdir`, `fork`/`execvp`/`waitpid`). */
module System {

  datatype Option<T> = None | Some(value: T)

  /** The value `getchar` returns at end of input. */
  const EOF: int := -1

  /** What `getchar` returns: an unsigned byte, or EOF. */
  type GetcharResult = c: int | -1 <= c < 256

  /** The process state the shell changes: the current working directory,
      the strings written to standard output and standard error, one entry
      per `printf`, `fprintf` or `perror` call, in the order written, and the
      number of operating-system calls (`chdir`, `fork`) made so far. */
  datatype Env = Env(cwd: string, out: seq<string>, err: seq<string>, calls: nat)

  /** What a builtin, the launcher or the dispatcher returns: the
      continuation status (non-zero keeps the loop running) and the new
      process state. */
  datatype Step = Step(status: int, env: Env)

  /** The effect of `chdir(path)` from a given working directory: the new
      working directory, or the reason `perror` reports. */
  datatype ChdirResult = ChdirOk(dir: string) | ChdirErr(reason: string)

  /** One status change `waitpid(pid, &status, WUNTRACED)` reports. */
  datatype ChildReport = Exited(code: int) | Signaled(signal: int) | Stopped(signal: int)

  /** WIFEXITED(status) || WIFSIGNALED(status): the child is gone, as
      opposed to only stopped. */
  predicate IsTerminal(r: ChildReport): (gone: bool)
    ensures gone <==> !r.Stopped?
  {
    r.Exited? || r.Signaled?
  }

  /** The successive reports `waitpid` delivers for one child; the child
      eventually reaches a terminal state. */
  type WaitReports = rs: seq<ChildReport> | |rs| > 0 && IsTerminal(rs[|rs| - 1])
    witness [Exited(0)]

  /** What happens when the shell forks to run an external program: `fork`
      fails with a reason, or it succeeds, the child's `execvp` either runs
      the program or fails with a reason, and the parent sees `reports`. */
  datatype LaunchOutcome =
    | ForkFailed(reason: string)
    | Forked(execError: Option<string>, reports: WaitReports)

  /** The operating system as seen by the shell: `chdir` from a working
      directory, and launching an argument vector from a working directory.
      Each answer also depends on how many calls came before it, so the
      world may change between calls: a directory a program creates can
      make a later `chdir` succeed, and a `fork` that once failed can later
      succeed. */
  datatype Os = Os(chdir: (nat, string, string) -> ChdirResult,
                   launch: (nat, string, seq<string>) -> LaunchOutcome)

  /** The line `perror(prefix)` writes for an error with the given reason:
      the prefix, a colon and a space, the reason, and a newline. */
  function Perror(prefix: string, reason: string): (line: string)
    ensures |line| == |prefix| + |reason| + 3
    ensures line[..|prefix|] == prefix
    ensures line[|prefix|..|prefix| + 2] == ": "
    ensures line[|prefix| + 2..|line| - 1] == reason
    ensures line[|line| - 1] == '\n'
  {
    prefix + ": " + reason + "\n"
  }

  /** `realloc`: a fresh array of `size` elements that starts with the
      elements of `a`. */
  method Realloc<T(0)>(a: array<T>, size: nat) returns (b: array<T>)
    requires a.Length <= size
    ensures fresh(b) && b.Length == size
    ensures forall k :: 0 <= k < a.Length ==> b[k] == a[k]
  {
    b := new T[size];
    var k := 0;
    while k < a.Length
      invariant 0 <= k <= a.Length
      invariant forall j :: 0 <= j < k ==> b[j] == a[j]
    {
      b[k] := a[k];
      k := k + 1;
    }
  }
}
