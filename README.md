# ksh — a verified model of a tiny Unix shell

`ksh` is a minimal interactive shell written in C (`main.c`). Its loop does four things per line of standard input:

- prints the prompt `> `;
- reads one line with `getchar` into a growable character buffer;
- splits the line into words on the delimiters space, tab, carriage return, newline and bell;
- runs the command.

Running a command means one of two things:

- if the first word is one of the builtins `cd`, `help` or `exit`, that builtin runs;
- otherwise the shell forks and `execvp`s the program, and waits for it.

The loop goes on while the command returns a non-zero status. Only `exit` returns zero.

This project models that pipeline in Dafny and proves what each stage promises. The modules follow the program's structure:

| module | file | models |
|---|---|---|
| `System` | `system.dfy` | the process state the shell changes and the operating-system calls it makes |
| `LineReader` | `line_reader.dfy` | `ksh_read_line` |
| `Tokenizer` | `tokenizer.dfy` | `ksh_split_line` |
| `Builtins` | `builtins.dfy` | the builtin table, `ksh_num_builtins`, `ksh_cd`, `ksh_help`, `ksh_exit` |
| `Launcher` | `launcher.dfy` | `ksh_launch` |
| `Dispatcher` | `dispatcher.dfy` | `ksh_execute` |
| `Shell` | `shell.dfy` | `ksh_loop` |

The C global state is passed by value, as follows.

- **Process state.** An `Env` holds four things:
  - the current working directory;
  - the writes to standard output and to standard error, one entry per `printf`, `fprintf` or `perror` call, in the order written;
  - the number of operating-system calls (`chdir`, `fork`) made so far.
- **Standard input.** A sequence of `getchar` results, each a byte 0..255 or `EOF` (-1), read from a cursor. Past its end, `getchar` returns `EOF` and consumes nothing.
- **Operating system.** An `Os` value of two functions:
  - `chdir`: the new directory or an error reason, given the current directory and the path;
  - `launch`: a fork failure, or an exec error and the sequence of status reports `waitpid` delivers, given the directory and the argument vector.

  Both functions also receive the number of calls made before, so their answers can change during a session. For example, a directory created by a program can make a later `cd` succeed (`Dispatcher.WorldChangesBetweenCalls`).

The parts that work step by step in C are methods with loops:

- the line reader and the tokenizer fill arrays, keep their explicit capacities and grow the arrays as the C code does;
- `help` prints the table with a `for` loop over the builtin names;
- the dispatcher searches the builtin-name sequence with a `for` loop and returns early;
- the wait for a child is a loop over the reports `waitpid` delivers;
- the loop is a `while` over passes.

Each method is proved equal to a reference function:

| method | reference function |
|---|---|
| `ReadLine` | `LineFrom`, `LineEnd` |
| `SplitLine` | `Tokenize` of the line up to its first NUL |
| `HelpBuiltin` | `HelpText` |
| `Execute` | `Dispatch` |
| `Launch` | `LaunchStep` |
| `Loop` | `Run` |

The lemmas state the properties of those reference functions.

**End of input.** `ksh_read_line` does not end the program when `getchar` returns `EOF`. It returns the characters read so far, possibly none. So once standard input is exhausted, the loop reads empty lines for ever: each pass prints `> ` and does nothing else.

The model follows the code here. Typing Ctrl-D at the prompt does not exit the shell. The one `getline`-based reader that does exit on end of input is never called.

`Shell.Run` and `Shell.Loop` stop at the point where every later pass would only print the prompt, and report it with `stopped == false`. `Shell.Iteration` proves that a pass at the end of the input writes only the prompt and does not move the cursor.

## Model

| member | source | states |
|---|---|---|
| LineReader.IsTerminator | main.c:95 | a line ends at a newline or at EOF |
| LineReader.LineFrom | main.c:92-100 | the line is the run of input characters before the first newline or EOF value; none of them is a terminator, each stored as the character the byte encodes |
| LineReader.LineEnd | main.c:93-97 | reading resumes just past the newline or EOF value that ended the line; once the input is used up, the cursor stays put |
| LineReader.LineIsRun | main.c:92-100 | a run of non-terminators followed by a terminator (or the end of the input) is exactly the line read, and the cursor ends past that terminator |
| LineReader.ReadLine | main.c:80-113 | the buffer holds exactly the line, then a NUL at `position`; the NUL write is in bounds; the capacity is a multiple of 1024 and the smallest one above `position`, so it grew in steps of 1024 |
| LineReader.ExhaustedInputReadsEmptyLine | main.c:92-97 | at the end of the input the reader returns the empty line and consumes nothing; it does not exit |
| Tokenizer.IsDelim | main.c:116 | the delimiters are space, tab, carriage return, newline and bell |
| Tokenizer.DelimitersAreTokDelim | main.c:116 | a character is a delimiter if and only if it occurs in the KSH_TOK_DELIM string |
| Tokenizer.CStr | main.c:128 | the string a buffer holds is its prefix before the first NUL, which contains no NUL |
| Tokenizer.CStrStopsAtNul | main.c:128 | whatever follows the NUL terminator does not change the string the tokenizer sees |
| Tokenizer.RunLength | main.c:116-144 | the length of the maximal run of non-delimiters at the start of a string |
| Tokenizer.Tokenize | main.c:116-145 | every token is non-empty and holds no delimiter |
| Tokenizer.SplitLine | main.c:117-150 | the array holds, in order, the tokens of the line up to its first NUL, then the NULL sentinel at index = token count; the sentinel write is in bounds; the capacity is the smallest multiple of 64 above the count |
| Tokenizer.SplitWords | main.c:128-149 | the same, for a string without NUL: the tokenizing loop stores exactly `Tokenize(s)` |
| Tokenizer.NextToken | main.c:128-144 | one `strtok` step: the next token is the maximal run after the skipped delimiters, and the rest of the tokens follow it; no token is found exactly when only delimiters remain |
| Tokenizer.SkipDelimiters | main.c:116-128 | skips exactly the leading delimiters, which contribute no tokens |
| Tokenizer.WordEnd | main.c:116-128 | finds the end of the maximal non-delimiter run |
| Tokenizer.Push | main.c:131-142 | stores the token at `position`, keeps earlier entries and grows the array by 64 when the next index reaches the capacity |
| Tokenizer.TokenizeSkip | main.c:116-128 | a leading delimiter contributes no token |
| Tokenizer.TokenizeRun | main.c:128-145 | a maximal run of non-delimiters is the first token, followed by the tokens of the rest |
| Tokenizer.TokenizeSplit | main.c:116-145 | a delimiter separates: the tokens of `a + [d] + b` are those of `a` followed by those of `b` |
| Tokenizer.TokenizeWord | main.c:128-145 | a delimiter-free non-empty string is its only token |
| Tokenizer.TokenizeEmpty | main.c:128-149 | a line yields no tokens if and only if it consists only of delimiters, the empty line among them |
| Tokenizer.TokenizeJoin | main.c:128-145 | splitting undoes joining words with single spaces: any list of words is recovered |
| Tokenizer.TokenCountUnbounded | main.c:130-142 | there is no fixed upper bound on the number of tokens in a line |
| Tokenizer.WordCharsOfRun | main.c:128-145 | the first token holds exactly the non-delimiter characters of its run |
| Tokenizer.TokenizeKeepsWordChars | main.c:116-145 | the tokens, concatenated, are exactly the non-delimiter characters of the line, in order: nothing is lost, reordered or invented |
| Tokenizer.Argv | main.c:147 | the argument vector is the strings before the first NULL entry |
| Tokenizer.ArgvUpToSentinel | main.c:147 | an array of tokens closed by the NULL sentinel reads back as exactly those tokens |
| Builtins.NumBuiltins | main.c:12-26 | the table has three entries, and the name and function tables have the same length |
| Builtins.FindBuiltin | main.c:186-187 | the first index, in table order, whose name is exactly the given string; none if and only if no name equals it |
| Builtins.BuiltinTable | main.c:12-22 | `cd`, `help` and `exit` sit at indices 0, 1 and 2, paired with their functions |
| Builtins.CdBuiltin | main.c:30-40 | always returns 1 and writes nothing to standard output; without a second token it writes the usage error and keeps the directory; with one it makes one `chdir` call, changes to the new directory only when it succeeds, and writes one `perror` line when it fails |
| Builtins.CdIgnoresExtraArgs | main.c:32-35 | tokens after the second do not affect `cd` |
| Builtins.NameLines | main.c:49-51 | one ` name` line per name, in order |
| Builtins.HelpText | main.c:45-53 | three banner lines, one line per builtin name in table order, then the closing line |
| Builtins.NameLinesSnoc | main.c:49-51 | each further loop pass appends the next name's line |
| Builtins.HelpBuiltin | main.c:42-55 | `ksh_help` returns 1, writes exactly the help text to standard output and changes nothing else |
| Builtins.ExitBuiltin | main.c:57-60 | `ksh_exit` returns 0 and changes nothing |
| System.Realloc | main.c:105 | `realloc` gives an array of the requested size whose leading elements are the old array's elements |
| System.Perror | main.c:36 | a `perror("ksh")` line is the prefix, `: `, the reason and a newline |
| System.IsTerminal | main.c:172 | `WIFEXITED` or `WIFSIGNALED`: a report is terminal if and only if the child was not merely stopped |
| Launcher.LaunchStep | main.c:152-176 | launching always returns 1, never changes the directory or standard output, and counts one operating-system call; it writes one `perror` line when `fork` fails or the child's `execvp` fails, and nothing otherwise |
| Launcher.WaitForChild | main.c:170-172 | the wait loop ends at the first report in which the child exited or was killed; every earlier report was a stop |
| Launcher.Launch | main.c:152-176 | `ksh_launch` has exactly the effect `LaunchStep` describes |
| Dispatcher.RunBuiltin | main.c:188 | calling a builtin returns 0 exactly for `exit`; only `help` writes standard output; only `cd` can change the directory |
| Dispatcher.Dispatch | main.c:178-193 | an empty argument vector returns 1 and changes nothing; otherwise the first builtin whose name equals the first word runs, and else the unchanged argument vector is launched |
| Dispatcher.DispatchStopsOnlyOnExit | main.c:182-192 | a command returns 0 if and only if its first word is `exit` |
| Dispatcher.DispatchByName | main.c:186-192 | `cd`, `help` and `exit` select their builtins whatever follows them; any other first word is launched |
| Dispatcher.DispatchFrame | main.c:178-193 | only `cd` with an argument can change the directory; a command only appends to standard output and standard error |
| Dispatcher.WorldChangesBetweenCalls | main.c:30-40 | the operating system's answers may change during a session: after a failed `cd d` and a program run, the same `cd d` can succeed |
| Dispatcher.CallBuiltin | main.c:188 | `(*builtin_func[i])(args)` has the effect that `RunBuiltin` describes |
| Dispatcher.Execute | main.c:178-193 | `ksh_execute` has exactly the effect that `Dispatch` describes |
| Shell.LineArgs | main.c:203-204 | the argument vector of a line consists of words |
| Shell.Iteration | main.c:202-205 | one pass: the status is 0 exactly for an `exit` line; the prompt is written first and the streams are only appended to; at the end of the input a pass writes only the prompt and leaves the cursor in place |
| Shell.Run | main.c:195-210 | the outcome of the do-while loop: it makes at least one pass, ends on status 0 or at the end of the input; `RunFollowsLines`, `RunStopsIffExitLine` and `RunOnlyAppends` state what that outcome is |
| Shell.Starts | main.c:201-209 | the successive line starts: each line starts where the previous one ended, and the last one reaches the end of the input |
| Shell.Passes | main.c:201-209 | the number of passes, at least one: through the first `exit` line or through the last line; `PassesEndAtFirstExit` relates it to the line starts |
| Shell.RunFollowsLines | main.c:201-209 | how the loop ends depends on the lines alone: it makes `Passes` passes and stops exactly when `Stops` holds, whatever the commands do to the directory and the streams |
| Shell.PassesEndAtFirstExit | main.c:201-209 | the passes run the lines in order up to and including the first `exit` line and no later line; the loop stops at that line; when there is no `exit` line, it runs every line |
| Shell.RunStopsIffExitLine | main.c:201-209 | the loop stops if and only if some line of the input is an `exit` command; otherwise it runs one pass per line and is then left spinning at the end of the input |
| Shell.RunOnlyAppends | main.c:202-205 | over the whole run, standard output starts with the old output and a prompt, and standard error only grows |
| Shell.Iterate | main.c:202-208 | one pass of the loop body (prompt, read, split, execute) has exactly the effect that `Iteration` describes |
| Shell.Loop | main.c:195-210 | `ksh_loop` has exactly the effect that `Run` describes, up to the point the input is used up |
| Shell.ExitSession | main.c:201-209 | the input `exit\n` prints one prompt, runs one pass and stops, with nothing else written |

## Left out

- Process creation: `fork`, `execvp` and `waitpid` are operating-system calls. They are the `launch` oracle of `Os`, and what the child program does (its own output, its exit code) is not modelled. The child's exec failure is modelled as one `perror` line written to the shared standard error. The parent waits. The child's `exit(EXIT_FAILURE)` is only a report in the oracle's sequence.
- The oracle gets the number of earlier calls, the working directory and the argument vector. It can therefore describe any course of the world, but the model does not say what the world is: the program's environment variables, the file system and `PATH` lookup all stay inside the oracle.
- `chdir`: its real effect and the text `perror` produces are operating-system behaviour. `chdir` is the oracle's result, and `perror`'s reason is a string from that result.
- `ksh_read_line_with_getline` (main.c:62-77) is never called, so it is not modelled, and neither is its exit on end of input.
- Allocation failures (main.c:87-90, main.c:107-110, main.c:123-126, main.c:138-141) are allocator behaviour. Every allocation is taken to succeed.
- `free` and the reuse of memory are not modelled. `realloc` is modelled as a fresh array that starts with the old contents.
- `strtok`'s hidden static state and its in-place writing of NUL bytes into the line are not modelled. Tokens are modelled as fresh strings holding the same characters.
- The real writes to standard output and standard error, including buffering and the interleaving of the two streams, are not modelled. They are the sequences of strings in `Env`.
- `main` (main.c:212-221) runs the loop and returns `EXIT_SUCCESS`. The process's exit status is not modelled.
- Shell.Loop: where the C loop would go on for ever after the input is exhausted, printing `> ` each time, the method returns with `stopped == false`. `Shell.Iteration` states what every such further pass does.
- LineReader.ReadLine: the 32-bit `int` counters `position` and `bufsize` are unbounded integers. A line longer than 2^31 bytes, where the C counters would overflow, is not modelled.
- Bytes are turned into characters by their code (`c as char`, that is, the Latin-1 reading). Multi-byte encodings are not interpreted, as in the C code. The string literals the shell prints are written the same way: the `ê` of the help banner is its two UTF-8 bytes 0xC3 0xAA, one character each.
- WaitForChild: the report sequence is taken to end in a terminal report. A `waitpid` that fails and leaves `status` unset is not modelled.
