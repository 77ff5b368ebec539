/** Splitting a line into words (`ksh_split_line`). The reference definition
    Tokenize takes the maximal runs of non-delimiter characters from left to
    right; SplitLine is the scan that fills the growable, NULL-terminated
    token array, proved to produce exactly those runs. */
module Tokenizer {
  import opened System

  /** The initial capacity of the token array and the step it grows by. */
  const TokBufSize: nat := 64

  /** KSH_TOK_DELIM, the delimiter string passed to `strtok`. */
  const TokDelim: string := " \t\r\n\U{7}"

  /** A delimiter: space, tab, carriage return, newline or bell. */
  predicate IsDelim(c: char) {
    c == ' ' || c == '\t' || c == '\r' || c == '\n' || c == '\U{7}'
  }

  /** The delimiters are exactly the characters of KSH_TOK_DELIM. */
  lemma DelimitersAreTokDelim(c: char)
    ensures IsDelim(c) <==> c in TokDelim
  {
    assert TokDelim == [' ', '\t', '\r', '\n', '\U{7}'];
  }

  /** A token: a non-empty string with no delimiter in it. */
  predicate IsWord(w: string) {
    |w| > 0 && forall k :: 0 <= k < |w| ==> !IsDelim(w[k])
  }

  /** The C string stored in `s`: its characters up to the first NUL. */
  function CStr(s: string): (r: string)
    ensures |r| <= |s| && r == s[..|r|]
    ensures '\0' !in r
    ensures |r| < |s| ==> s[|r|] == '\0'
  {
    if s == [] || s[0] == '\0' then []
    else
      var rest := CStr(s[1..]);
      assert s[1..][..|rest|] == s[1..|rest| + 1];
      [s[0]] + rest
  }

  /** The string a buffer holds is what precedes its first NUL, whatever
      follows it. */
  lemma {:induction false} CStrStopsAtNul(a: string, b: string)
    ensures CStr(a + ['\0'] + b) == CStr(a)
    decreases |a|
  {
    if a != [] && a[0] != '\0' {
      assert (a + ['\0'] + b)[1..] == a[1..] + ['\0'] + b;
      CStrStopsAtNul(a[1..], b);
    }
  }

  /** The length of the run of non-delimiters at the start of `s`. */
  function RunLength(s: string): (n: nat)
    ensures n <= |s|
    ensures forall k :: 0 <= k < n ==> !IsDelim(s[k])
    ensures n < |s| ==> IsDelim(s[n])
  {
    if s == [] || IsDelim(s[0]) then 0
    else
      var m := RunLength(s[1..]);
      assert forall k :: 1 <= k < m + 1 ==> s[k] == s[1..][k - 1];
      1 + m
  }

  /** The words of `s`: its maximal runs of non-delimiters, left to right. */
  function Tokenize(s: string): (tokens: seq<string>)
    ensures forall k :: 0 <= k < |tokens| ==> IsWord(tokens[k])
    decreases |s|
  {
    if s == [] then []
    else if IsDelim(s[0]) then Tokenize(s[1..])
    else
      var n := RunLength(s);
      assert n > 0;
      [s[..n]] + Tokenize(s[n..])
  }

  /** The token strings of a NULL-terminated token array: the entries before
      the first NULL. */
  function Argv(ts: seq<Option<string>>): (args: seq<string>)
    ensures |args| <= |ts|
    ensures forall k :: 0 <= k < |args| ==> ts[k] == Some(args[k])
    ensures |args| < |ts| ==> ts[|args|] == None
  {
    if ts == [] || ts[0].None? then []
    else
      var rest := Argv(ts[1..]);
      assert forall k :: 1 <= k < |rest| + 1 ==> ts[k] == ts[1..][k - 1];
      [ts[0].value] + rest
  }

  /** `ksh_split_line`: splits the C string in `line` (`strtok` stops at
      the first NUL) into its words: `tokens` holds them in order, then the
      NULL sentinel at `position`. */
  method SplitLine(line: string) returns (tokens: array<Option<string>>, position: nat)
    ensures position < tokens.Length
    ensures tokens.Length % TokBufSize == 0 && tokens.Length - TokBufSize <= position
    ensures position == |Tokenize(CStr(line))|
    ensures forall k :: 0 <= k < position ==> tokens[k] == Some(Tokenize(CStr(line))[k])
    ensures tokens[position] == None
  {
    tokens, position := SplitWords(CStr(line));
  }

  /** The `strtok` loop of `ksh_split_line` over the string it sees:
      stores each word of `s` in a token array, then the NULL sentinel at
      `position`. The array starts with TokBufSize places and grows by
      TokBufSize whenever `position` reaches its capacity. */
  method SplitWords(s: string) returns (tokens: array<Option<string>>, position: nat)
    ensures position < tokens.Length
    ensures tokens.Length % TokBufSize == 0 && tokens.Length - TokBufSize <= position
    ensures position == |Tokenize(s)|
    ensures forall k :: 0 <= k < position ==> tokens[k] == Some(Tokenize(s)[k])
    ensures tokens[position] == None
  {
    tokens := new Option<string>[TokBufSize];
    position := 0;
    ghost var done: seq<string> := [];
    var i := 0;
    var found, from, to := NextToken(s, i);
    while found
      invariant i <= |s|
      invariant found ==> i <= from < to <= |s|
      invariant found ==> Tokenize(s[i..]) == [s[from..to]] + Tokenize(s[to..])
      invariant !found ==> Tokenize(s[i..]) == []
      invariant done + Tokenize(s[i..]) == Tokenize(s)
      invariant fresh(tokens) && position < tokens.Length
      invariant tokens.Length % TokBufSize == 0 && tokens.Length - TokBufSize <= position
      invariant position == |done|
      invariant forall k :: 0 <= k < position ==> tokens[k] == Some(done[k])
      decreases |s| - i
    {
      var token := s[from..to];
      tokens := Push(tokens, position, token);
      assert (done + [token]) + Tokenize(s[to..]) == done + Tokenize(s[i..]);
      done := done + [token];
      position := position + 1;

      i := to;
      found, from, to := NextToken(s, i);
    }
    tokens[position] := None;
  }

  /** Stores `token` at `position` and moves past it: `tokens[position] =
      token; position++`, then a `realloc` by TokBufSize places when
      `position` reaches the capacity. */
  method Push(tokens: array<Option<string>>, position: nat, token: string)
    returns (grown: array<Option<string>>)
    requires position < tokens.Length
    requires tokens.Length % TokBufSize == 0 && tokens.Length - TokBufSize <= position
    modifies tokens
    ensures grown == tokens || fresh(grown)
    ensures position + 1 < grown.Length
    ensures grown.Length % TokBufSize == 0 && grown.Length - TokBufSize <= position + 1
    ensures forall k :: 0 <= k < position ==> grown[k] == old(tokens[k])
    ensures grown[position] == Some(token)
  {
    tokens[position] := Some(token);
    grown := tokens;
    if position + 1 >= tokens.Length {
      grown := Realloc(tokens, tokens.Length + TokBufSize);
    }
  }

  /** One call of `strtok` from `i`: the next word of `s` is `s[from..to]`,
      or there is none. */
  method NextToken(s: string, i: nat) returns (found: bool, from: nat, to: nat)
    requires i <= |s|
    ensures found ==> i <= from < to <= |s|
    ensures found ==> Tokenize(s[i..]) == [s[from..to]] + Tokenize(s[to..])
    ensures !found ==> Tokenize(s[i..]) == []
  {
    from := SkipDelimiters(s, i);
    if from == |s| {
      return false, from, from;
    }
    to := WordEnd(s, from);
    TokenizeRun(s, from, to);
    found := true;
  }

  /** The scan `strtok` starts with: past the delimiters from `i`. */
  method SkipDelimiters(s: string, i: nat) returns (k: nat)
    requires i <= |s|
    ensures i <= k <= |s| && (k == |s| || !IsDelim(s[k]))
    ensures forall m :: i <= m < k ==> IsDelim(s[m])
    ensures Tokenize(s[k..]) == Tokenize(s[i..])
  {
    k := i;
    while k < |s| && IsDelim(s[k])
      invariant i <= k <= |s|
      invariant forall m :: i <= m < k ==> IsDelim(s[m])
      invariant Tokenize(s[k..]) == Tokenize(s[i..])
    {
      TokenizeSkip(s, k);
      k := k + 1;
    }
  }

  /** The scan `strtok` ends a word with: up to the next delimiter. */
  method WordEnd(s: string, i: nat) returns (j: nat)
    requires i < |s| && !IsDelim(s[i])
    ensures i < j <= |s| && (j == |s| || IsDelim(s[j]))
    ensures forall k :: i <= k < j ==> !IsDelim(s[k])
  {
    j := i + 1;
    while j < |s| && !IsDelim(s[j])
      invariant i < j <= |s|
      invariant forall k :: i <= k < j ==> !IsDelim(s[k])
    {
      j := j + 1;
    }
  }

  /** A delimiter at `i` contributes nothing. */
  lemma TokenizeSkip(s: string, i: nat)
    requires i < |s| && IsDelim(s[i])
    ensures Tokenize(s[i..]) == Tokenize(s[i + 1..])
  {
    assert s[i..][1..] == s[i + 1..];
  }

  /** A maximal run of non-delimiters from `i` to `j` is the next word. */
  lemma TokenizeRun(s: string, i: nat, j: nat)
    requires i < j <= |s|
    requires forall k :: i <= k < j ==> !IsDelim(s[k])
    requires j == |s| || IsDelim(s[j])
    ensures Tokenize(s[i..]) == [s[i..j]] + Tokenize(s[j..])
  {
    var t := s[i..];
    var n := RunLength(t);
    assert forall k :: 0 <= k < j - i ==> !IsDelim(t[k]);
    assert j - i < |t| ==> IsDelim(t[j - i]);
    assert n == j - i;
    assert t[..n] == s[i..j] && t[n..] == s[j..];
  }

  /** A delimiter separates: the words on either side of it are the words
      of the two sides, in order, and no word spans it. */
  lemma {:induction false} TokenizeSplit(a: string, d: char, b: string)
    requires IsDelim(d)
    ensures Tokenize(a + [d] + b) == Tokenize(a) + Tokenize(b)
    decreases |a|
  {
    var s := a + [d] + b;
    if a == [] {
      assert s[1..] == b;
    } else if IsDelim(a[0]) {
      assert s[1..] == a[1..] + [d] + b;
      TokenizeSplit(a[1..], d, b);
    } else {
      var n := RunLength(s);
      var m := RunLength(a);
      assert forall k :: 0 <= k < m ==> !IsDelim(s[k]);
      assert m < |s| && IsDelim(s[m]);
      assert n == m;
      assert s[..n] == a[..m];
      assert s[n..] == a[m..] + [d] + b;
      TokenizeSplit(a[m..], d, b);
    }
  }

  /** A word on its own is its only token. */
  lemma TokenizeWord(w: string)
    requires IsWord(w)
    ensures Tokenize(w) == [w]
  {
    var n := RunLength(w);
    assert n == |w|;
    assert w[..n] == w && w[n..] == [];
  }

  /** A line yields no tokens exactly when all its characters are
      delimiters; in particular the empty line yields none. */
  lemma {:induction false} TokenizeEmpty(s: string)
    ensures Tokenize(s) == [] <==> forall k :: 0 <= k < |s| ==> IsDelim(s[k])
    decreases |s|
  {
    if s != [] {
      TokenizeEmpty(s[1..]);
      assert forall k :: 1 <= k < |s| ==> s[k] == s[1..][k - 1];
    }
  }

  /** The words joined by single spaces. */
  function Join(words: seq<string>): string {
    if words == [] then []
    else if |words| == 1 then words[0]
    else words[0] + [' '] + Join(words[1..])
  }

  /** Tokenizing undoes joining: any list of words survives being joined
      with spaces and split again. */
  lemma {:induction false} TokenizeJoin(words: seq<string>)
    requires forall k :: 0 <= k < |words| ==> IsWord(words[k])
    ensures Tokenize(Join(words)) == words
    decreases |words|
  {
    if |words| == 1 {
      TokenizeWord(words[0]);
    } else if |words| > 1 {
      TokenizeSplit(words[0], ' ', Join(words[1..]));
      TokenizeWord(words[0]);
      TokenizeJoin(words[1..]);
    }
  }

  /** There is no bound on the number of tokens a line can hold. */
  lemma TokenCountUnbounded(n: nat)
    ensures exists line :: |Tokenize(line)| == n
  {
    var words := seq(n, _ => "x");
    TokenizeJoin(words);
    assert |Tokenize(Join(words))| == n;
  }

  /** The non-delimiter characters of `s`, in order. */
  function WordChars(s: string): string {
    if s == [] then []
    else (if IsDelim(s[0]) then [] else [s[0]]) + WordChars(s[1..])
  }

  /** All the words' characters, in order. */
  function Concat(words: seq<string>): string {
    if words == [] then [] else words[0] + Concat(words[1..])
  }

  /** WordChars of a run that starts `s` is the run itself. */
  lemma {:induction false} WordCharsOfRun(s: string, n: nat)
    requires n <= |s|
    requires forall k :: 0 <= k < n ==> !IsDelim(s[k])
    ensures WordChars(s) == s[..n] + WordChars(s[n..])
    decreases n
  {
    if n > 0 {
      WordCharsOfRun(s[1..], n - 1);
      assert s[1..][..n - 1] == s[1..n];
      assert s[1..][n - 1..] == s[n..];
      assert s[..n] == [s[0]] + s[1..n];
    }
  }

  /** Tokenizing loses no character but the delimiters and reorders
      nothing: the words, put together, are the line's non-delimiters. */
  lemma {:induction false} TokenizeKeepsWordChars(s: string)
    ensures Concat(Tokenize(s)) == WordChars(s)
    decreases |s|
  {
    if s != [] {
      if IsDelim(s[0]) {
        TokenizeKeepsWordChars(s[1..]);
      } else {
        var n := RunLength(s);
        WordCharsOfRun(s, n);
        TokenizeKeepsWordChars(s[n..]);
        var t := Tokenize(s);
        assert t == [s[..n]] + Tokenize(s[n..]);
        assert t[1..] == Tokenize(s[n..]);
      }
    }
  }

  /** The token array read up to its NULL sentinel gives back the words. */
  lemma {:induction false} ArgvUpToSentinel(ts: seq<Option<string>>, words: seq<string>)
    requires |words| < |ts| && ts[|words|] == None
    requires forall k :: 0 <= k < |words| ==> ts[k] == Some(words[k])
    ensures Argv(ts) == words
    decreases |words|
  {
    if words != [] {
      assert forall k :: 0 <= k < |words| - 1 ==> ts[1..][k] == ts[k + 1];
      ArgvUpToSentinel(ts[1..], words[1..]);
      assert words == [words[0]] + words[1..];
    }
  }
}
