/** The read-parse-execute loop (`ksh_loop`): print the prompt, read a line,
    split it into words, run the command, and go on while the command's
    status is non-zero. */
module Shell {
  import opened System
  import opened LineReader
  import opened Tokenizer
  import opened Dispatcher

  /** What `ksh_loop` prints before reading each line. */
  const Prompt: string := "> "

  /** The argument vector made from the line that starts at cursor `i`: the
      words of the line, up to its first NUL character. */
  function LineArgs(input: seq<GetcharResult>, i: nat): (args: seq<string>)
    ensures forall k :: 0 <= k < |args| ==> IsWord(args[k])
  {
    Tokenize(CStr(LineFrom(input, i)))
  }

  /** The line at `i` is an `exit` command. */
  predicate IsExitLine(input: seq<GetcharResult>, i: nat) {
    var args := LineArgs(input, i);
    |args| > 0 && args[0] == "exit"
  }

  /** One pass of the loop body: the step of the command and the cursor after
      its line. */
  datatype Turn = Turn(step: Step, next: nat)

  /** One pass of the loop body from cursor `i`. Its status is zero exactly
      for an `exit` line; it writes the prompt first and only appends to the
      output streams; once the input is used up, a pass writes the prompt,
      changes nothing else and leaves the cursor where it was. */
  function Iteration(input: seq<GetcharResult>, i: nat, env: Env, os: Os): (t: Turn)
    ensures t.next == LineEnd(input, i)
    ensures t.step.status == 0 <==> IsExitLine(input, i)
    ensures env.out + [Prompt] <= t.step.env.out && env.err <= t.step.env.err
    ensures i >= |input| ==> t == Turn(Step(1, env.(out := env.out + [Prompt])), i)
  {
    var e := env.(out := env.out + [Prompt]);
    var args := LineArgs(input, i);
    DispatchStopsOnlyOnExit(args, e, os);
    DispatchFrame(args, e, os);
    Turn(Dispatch(args, e, os), LineEnd(input, i))
  }

  /** How a run of the loop ends: `stopped` when a command returned status
      zero; otherwise the input was used up, and from then on every pass
      only prints the prompt, for ever. `lines` counts the passes made up
      to that point. */
  datatype Final = Final(stopped: bool, env: Env, lines: nat)

  /** The loop from cursor `i`, after `lines` passes. */
  function Run(input: seq<GetcharResult>, i: nat, env: Env, os: Os, lines: nat): (f: Final)
    ensures f.lines > lines
    decreases |input| - i
  {
    var t := Iteration(input, i, env, os);
    if t.step.status == 0 then Final(true, t.step.env, lines + 1)
    else if t.next >= |input| then Final(false, t.step.env, lines + 1)
    else Run(input, t.next, t.step.env, os, lines + 1)
  }

  /** The cursors at which the lines of the input start, from `i` on: each
      line starts where the previous one ended, and the last one reaches the
      end of the input. */
  function Starts(input: seq<GetcharResult>, i: nat): (ss: seq<nat>)
    ensures |ss| >= 1 && ss[0] == i
    ensures forall k :: 0 <= k < |ss| - 1 ==> ss[k + 1] == LineEnd(input, ss[k]) < |input|
    ensures LineEnd(input, ss[|ss| - 1]) >= |input|
    decreases |input| - i
  {
    var next := LineEnd(input, i);
    if next >= |input| then [i] else [i] + Starts(input, next)
  }

  /** The number of passes the loop makes from cursor `i`: up to and
      including the first `exit` line, or up to the end of the input. */
  function Passes(input: seq<GetcharResult>, i: nat): (p: nat)
    ensures p >= 1
    decreases |input| - i
  {
    if IsExitLine(input, i) || LineEnd(input, i) >= |input| then 1
    else 1 + Passes(input, LineEnd(input, i))
  }

  /** The loop, started at cursor `i`, reaches an `exit` line before the
      input is used up. */
  predicate Stops(input: seq<GetcharResult>, i: nat)
    decreases |input| - i
  {
    IsExitLine(input, i) || (LineEnd(input, i) < |input| && Stops(input, LineEnd(input, i)))
  }

  /** How the loop ends depends on the lines alone, not on what the commands
      do: it makes `Passes` passes and stops exactly when `Stops` holds. */
  lemma {:induction false} RunFollowsLines(input: seq<GetcharResult>, i: nat, env: Env, os: Os, n: nat)
    ensures Run(input, i, env, os, n).lines == n + Passes(input, i)
    ensures Run(input, i, env, os, n).stopped == Stops(input, i)
    decreases |input| - i
  {
    var t := Iteration(input, i, env, os);
    if t.step.status != 0 && t.next < |input| {
      RunFollowsLines(input, t.next, t.step.env, os, n + 1);
    }
  }

  /** The passes run the lines in order and end at the first `exit` line;
      when there is none, they run every line of the input. */
  lemma {:induction false} PassesEndAtFirstExit(input: seq<GetcharResult>, i: nat)
    ensures Passes(input, i) <= |Starts(input, i)|
    ensures forall k :: 0 <= k < Passes(input, i) - 1 ==> !IsExitLine(input, Starts(input, i)[k])
    ensures Stops(input, i) <==> IsExitLine(input, Starts(input, i)[Passes(input, i) - 1])
    ensures !Stops(input, i) ==> Passes(input, i) == |Starts(input, i)|
    decreases |input| - i
  {
    if !IsExitLine(input, i) && LineEnd(input, i) < |input| {
      PassesEndAtFirstExit(input, LineEnd(input, i));
      var ss := Starts(input, i);
      var rest := Starts(input, LineEnd(input, i));
      assert ss == [i] + rest;
      forall k | 0 <= k < Passes(input, i) - 1
        ensures !IsExitLine(input, ss[k])
      {
        if k > 0 {
          assert ss[k] == rest[k - 1];
        }
      }
      assert ss[Passes(input, i) - 1] == rest[Passes(input, LineEnd(input, i)) - 1];
    }
  }

  /** The loop stops exactly when some line of the input is an `exit`
      command; otherwise it makes one pass per line and is left spinning at
      the end of the input. */
  lemma RunStopsIffExitLine(input: seq<GetcharResult>, env: Env, os: Os)
    ensures Run(input, 0, env, os, 0).stopped <==>
              exists k :: 0 <= k < |Starts(input, 0)| && IsExitLine(input, Starts(input, 0)[k])
    ensures !Run(input, 0, env, os, 0).stopped ==> Run(input, 0, env, os, 0).lines == |Starts(input, 0)|
  {
    RunFollowsLines(input, 0, env, os, 0);
    PassesEndAtFirstExit(input, 0);
    var ss := Starts(input, 0);
    var p := Passes(input, 0);
    if Stops(input, 0) {
      assert IsExitLine(input, ss[p - 1]);
    } else {
      forall k | 0 <= k < |ss|
        ensures !IsExitLine(input, ss[k])
      {
        if k == p - 1 {
          assert !IsExitLine(input, ss[p - 1]);
        }
      }
    }
  }

  /** The loop only appends to standard output and standard error, starting
      with a prompt. */
  lemma {:induction false} RunOnlyAppends(input: seq<GetcharResult>, i: nat, env: Env, os: Os, n: nat)
    ensures var f := Run(input, i, env, os, n);
            env.out + [Prompt] <= f.env.out && env.err <= f.env.err
    decreases |input| - i
  {
    var t := Iteration(input, i, env, os);
    if t.step.status != 0 && t.next < |input| {
      RunOnlyAppends(input, t.next, t.step.env, os, n + 1);
    }
  }

  /** One pass of the loop body of `ksh_loop`. */
  method Iterate(input: seq<GetcharResult>, i: nat, env: Env, os: Os) returns (step: Step, next: nat)
    ensures Turn(step, next) == Iteration(input, i, env, os)
  {
    var e := env.(out := env.out + [Prompt]);
    var buffer, position, n := ReadLine(input, i);
    var tokens, count := SplitLine(buffer[..]);
    assert buffer[..] == buffer[..position] + ['\0'] + buffer[position + 1..];
    CStrStopsAtNul(buffer[..position], buffer[position + 1..]);
    ArgvUpToSentinel(tokens[..], LineArgs(input, i));
    var args := Argv(tokens[..]);
    step := Execute(args, e, os);
    next := n;
  }

  /** `ksh_loop` on the given input, processed from its start. Where the
      program would print prompts for ever at the end of the input, the
      method returns with `stopped` false. */
  method Loop(input: seq<GetcharResult>, env: Env, os: Os) returns (final: Final)
    ensures final == Run(input, 0, env, os, 0)
  {
    var cursor := 0;
    var e := env;
    var lines := 0;
    while true
      invariant Run(input, 0, env, os, 0) == Run(input, cursor, e, os, lines)
      decreases |input| - cursor
    {
      var step, next := Iterate(input, cursor, e, os);
      lines := lines + 1;
      if step.status == 0 {
        return Final(true, step.env, lines);
      }
      if next >= |input| {
        return Final(false, step.env, lines);
      }
      cursor, e := next, step.env;
    }
  }

  /** A session that types `exit` prints one prompt and stops, with nothing
      else written. */
  lemma ExitSession(env: Env, os: Os)
    ensures var input: seq<GetcharResult> := ['e' as int, 'x' as int, 'i' as int, 't' as int, '\n' as int];
            Run(input, 0, env, os, 0) == Final(true, env.(out := env.out + [Prompt]), 1)
  {
    var input: seq<GetcharResult> := ['e' as int, 'x' as int, 'i' as int, 't' as int, '\n' as int];
    LineIsRun(input, 0, 4);
    var line := LineFrom(input, 0);
    assert |line| == 4;
    assert line[0] == input[0] as char && line[1] == input[1] as char;
    assert line[2] == input[2] as char && line[3] == input[3] as char;
    assert line == "exit";
    assert CStr(line) == "exit";
    TokenizeWord("exit");
    assert LineArgs(input, 0) == ["exit"];
    DispatchByName(["exit"], env.(out := env.out + [Prompt]), os);
  }
}
