/** Reading one line of standard input into a growable character buffer
    (`ksh_read_line`). Standard input is the sequence of `getchar` results
    still to come, read from a cursor; once it is used up, `getchar` returns
    EOF and consumes nothing. */
module LineReader {
  import opened System

  /** The initial capacity of the line buffer and the step it grows by. */
  const RlBufSize: nat := 1024

  /** A character that ends a line: a newline or end of input. */
  predicate IsTerminator(c: GetcharResult) {
    c == EOF || c == '\n' as int
  }

  /** The characters of the line that starts at cursor `i`: every input value
      before the first newline or EOF, each stored as the `char` it encodes. */
  function LineFrom(input: seq<GetcharResult>, i: nat): (line: string)
    ensures line == [] || i + |line| <= |input|
    ensures forall j :: i <= j < i + |line| ==>
              !IsTerminator(input[j]) && line[j - i] == input[j] as char
    ensures i + |line| < |input| ==> IsTerminator(input[i + |line|])
    decreases |input| - i
  {
    if i >= |input| || IsTerminator(input[i]) then []
    else [input[i] as char] + LineFrom(input, i + 1)
  }

  /** The cursor after reading the line that starts at `i`: past the line and
      past the newline or EOF value that ended it, if the input held one. */
  function LineEnd(input: seq<GetcharResult>, i: nat): (next: nat)
    ensures i >= |input| ==> next == i
    ensures i < |input| ==> i < next <= |input|
  {
    var n := i + |LineFrom(input, i)|;
    if n < |input| then n + 1 else n
  }

  /** The line read from `i` is the run of input values up to `k`, when
      none of them ends a line and the value at `k` does (or the input is
      used up there); reading resumes past that value. */
  lemma {:induction false} LineIsRun(input: seq<GetcharResult>, i: nat, k: nat)
    requires i == k || i < k <= |input|
    requires forall j :: i <= j < k ==> !IsTerminator(input[j])
    requires k >= |input| || IsTerminator(input[k])
    ensures |LineFrom(input, i)| == k - i
    ensures LineEnd(input, i) == if k < |input| then k + 1 else k
    decreases k - i
  {
    if i < k {
      LineIsRun(input, i + 1, k);
    }
  }

  /** `ksh_read_line`: reads characters from cursor `start` into a buffer
      until a newline or EOF, and terminates the buffer with a NUL at
      `position`. The buffer starts with RlBufSize places and grows by
      RlBufSize whenever `position` reaches its capacity, so the capacity is
      always the smallest multiple of RlBufSize above `position`. */
  method ReadLine(input: seq<GetcharResult>, start: nat)
    returns (buffer: array<char>, position: nat, next: nat)
    ensures position < buffer.Length
    ensures buffer.Length % RlBufSize == 0 && buffer.Length - RlBufSize <= position
    ensures buffer[..position] == LineFrom(input, start)
    ensures buffer[position] == '\0'
    ensures next == LineEnd(input, start)
  {
    var bufsize := RlBufSize;
    position := 0;
    buffer := new char[bufsize];
    next := start;
    while true
      invariant bufsize == buffer.Length && fresh(buffer)
      invariant position < bufsize
      invariant bufsize % RlBufSize == 0 && bufsize - RlBufSize <= position
      invariant next == start + position
      invariant position > 0 ==> next <= |input|
      invariant forall j :: start <= j < next ==>
                  !IsTerminator(input[j]) && buffer[j - start] == input[j] as char
      decreases |input| - next
    {
      var c: GetcharResult := if next < |input| then input[next] else EOF;
      if IsTerminator(c) {
        LineIsRun(input, start, next);
        next := if next < |input| then next + 1 else next;
        buffer[position] := '\0';
        ghost var line := LineFrom(input, start);
        forall k | 0 <= k < position
          ensures buffer[k] == line[k]
        {
          var j := start + k;
          assert buffer[j - start] == input[j] as char == line[j - start];
        }
        assert buffer[..position] == line;
        return;
      } else {
        next := next + 1;
        buffer[position] := c as char;
      }
      position := position + 1;

      if position >= bufsize {
        bufsize := bufsize + RlBufSize;
        buffer := Realloc(buffer, bufsize);
      }
    }
  }

  /** When the input is used up, reading a line reads the empty line and
      consumes nothing: `ksh_read_line` returns rather than ending the
      program. */
  lemma ExhaustedInputReadsEmptyLine(input: seq<GetcharResult>, i: nat)
    requires i >= |input|
    ensures LineFrom(input, i) == [] && LineEnd(input, i) == i
  {
  }

}
