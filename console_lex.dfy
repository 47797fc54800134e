/**
 * Step 1 of `IConsoleCmdExec`: splitting a command line into tokens.
 *
 * Tokens are separated by spaces; a double quote toggles a mode in which
 * spaces are part of the token, and `\"` writes a literal quote. The
 * characters of all tokens are written into one fixed stream of
 * `STREAM_SIZE` characters, each token ended by a NUL, and at most
 * `TOKEN_COUNT` tokens are recorded, by the position where each starts.
 *
 * `Lex` states the splitting on strings; `Tokenize` is the buffer-filling
 * loop, proved to yield the tokens `Lex` describes.
 */
module ConsoleLex {

  /** `ICON_TOKEN_COUNT`: the size of the token array. */
  const TOKEN_COUNT: nat := 20
  /** `ICON_MAX_STREAMSIZE`: the size of the token stream (and of an alias buffer). */
  const STREAM_SIZE: nat := 2048

  /** A C string: no NUL inside. */
  predicate IsCString(s: string) {
    '\0' !in s
  }

  ghost predicate AllCStrings(ss: seq<string>) {
    forall k :: 0 <= k < |ss| ==> IsCString(ss[k])
  }

  /**
   * The tokenizer's state: the tokens so far, whether the last one is still
   * open (`foundtoken`), whether a quote is open (`longtoken`), and how many
   * stream characters are used (`tstream_i`).
   */
  datatype LexState = LexState(toks: seq<string>, found: bool, long: bool, used: nat)

  const LEX_START := LexState([], false, false, 0)

  datatype LexResult =
    /** "command line too long": the stream or the token array ran out. */
    | TooLong
    | Lexed(tokens: seq<string>)

  /** Append one character to the open token. */
  function AddChar(st: LexState, c: char): LexState
    requires |st.toks| > 0
  {
    var n := |st.toks| - 1;
    st.(toks := st.toks[..n] + [st.toks[n] + [c]], used := st.used + 1)
  }

  /** Start a new token whose first character is `c`. */
  function StartToken(st: LexState, c: char): LexState {
    st.(toks := st.toks + [[c]], found := true, used := st.used + 1)
  }

  /** An opening quote outside a token starts an empty token. */
  function OpenQuoted(st: LexState): LexState {
    st.(toks := st.toks + [""], found := true, long := !st.long)
  }

  /** A separating space ends the open token with a NUL. */
  function CloseToken(st: LexState): LexState {
    st.(found := false, used := st.used + 1)
  }

  /** The outcome of one pass of the tokenizer loop. */
  datatype Step =
    /** "command line too long" */
    | Halt
    /** go on at character `j` in state `st` */
    | Next(j: nat, st: LexState)

  /** One pass of the tokenizer loop, at character `i` of the line. */
  function LexStep(line: string, i: nat, st: LexState): (s: Step)
    requires i < |line| && (st.found ==> |st.toks| > 0)
    ensures s.Next? ==> i < s.j <= |line| && (s.st.found ==> |s.st.toks| > 0)
  {
    if st.used >= STREAM_SIZE then Halt
    else if line[i] == ' ' then
      if !st.found then Next(i + 1, st)
      else if st.long then Next(i + 1, AddChar(st, ' '))
      else Next(i + 1, CloseToken(st))
    else if line[i] == '"' then
      if st.found then Next(i + 1, st.(long := !st.long))
      else if |st.toks| >= TOKEN_COUNT then Halt
      else Next(i + 1, OpenQuoted(st))
    else if line[i] == '\\' && i + 1 < |line| && line[i + 1] == '"' && st.used + 1 < STREAM_SIZE then
      // the quote is written to the stream; outside a token no token holds it
      if st.found then Next(i + 2, AddChar(st, '"'))
      else Next(i + 2, st.(used := st.used + 1))
    else if st.found then Next(i + 1, AddChar(st, line[i]))
    else if |st.toks| >= TOKEN_COUNT then Halt
    else Next(i + 1, StartToken(st, line[i]))
  }

  /** The splitting of `line[i..]` from state `st`: the tokenizer loop run to its end. */
  function LexFrom(line: string, i: nat, st: LexState): LexResult
    requires st.found ==> |st.toks| > 0
    decreases |line| - i
  {
    if i >= |line| then Lexed(st.toks)
    else match LexStep(line, i, st)
      case Halt => TooLong
      case Next(j, st') => LexFrom(line, j, st')
  }

  function Lex(line: string): LexResult {
    LexFrom(line, 0, LEX_START)
  }

  // ---------------------------------------------------------------------
  // Properties of the splitting.

  function TotalLength(ts: seq<string>): nat {
    if ts == [] then 0 else TotalLength(ts[..|ts| - 1]) + |ts[|ts| - 1]|
  }

  lemma TotalLengthAppend(ts: seq<string>, t: string)
    ensures TotalLength(ts + [t]) == TotalLength(ts) + |t|
  {
    assert (ts + [t])[..|ts|] == ts;
  }

  lemma AddCharLength(st: LexState, c: char)
    requires |st.toks| > 0
    ensures TotalLength(AddChar(st, c).toks) == TotalLength(st.toks) + 1
    ensures |AddChar(st, c).toks| == |st.toks|
  {
    var n := |st.toks| - 1;
    assert st.toks == st.toks[..n] + [st.toks[n]];
    TotalLengthAppend(st.toks[..n], st.toks[n]);
    TotalLengthAppend(st.toks[..n], st.toks[n] + [c]);
  }

  /** The bounds the fixed buffers impose. */
  ghost predicate Bounded(st: LexState) {
    && (st.found ==> |st.toks| > 0)
    && |st.toks| <= TOKEN_COUNT
    && TotalLength(st.toks) <= st.used <= STREAM_SIZE
  }

  lemma StepBounded(line: string, i: nat, st: LexState)
    requires i < |line| && Bounded(st)
    ensures LexStep(line, i, st).Next? ==> Bounded(LexStep(line, i, st).st)
  {
    if st.used < STREAM_SIZE {
      if st.found {
        AddCharLength(st, ' ');
        AddCharLength(st, '"');
        AddCharLength(st, line[i]);
      } else {
        TotalLengthAppend(st.toks, "");
        TotalLengthAppend(st.toks, [line[i]]);
      }
    }
  }

  /**
   * Never more than `TOKEN_COUNT` tokens, and never more characters than
   * the stream holds.
   */
  lemma {:induction false} LexBounded(line: string, i: nat, st: LexState)
    requires Bounded(st)
    ensures LexFrom(line, i, st).Lexed? ==>
      var ts := LexFrom(line, i, st).tokens;
      |ts| <= TOKEN_COUNT && TotalLength(ts) <= STREAM_SIZE
    decreases |line| - i
  {
    if i < |line| {
      var s := LexStep(line, i, st);
      if s.Next? {
        StepBounded(line, i, st);
        LexBounded(line, s.j, s.st);
      }
    }
  }

  /** No token holds character `c`. */
  ghost predicate Lacks(ts: seq<string>, c: char) {
    forall k :: 0 <= k < |ts| ==> c !in ts[k]
  }

  lemma AddCharLacks(st: LexState, c: char, x: char)
    requires |st.toks| > 0 && Lacks(st.toks, x) && c != x
    ensures Lacks(AddChar(st, c).toks, x)
  {
    var ts := AddChar(st, c).toks;
    forall k | 0 <= k < |ts| ensures x !in ts[k] {
      if k < |st.toks| - 1 {
        assert ts[k] == st.toks[k];
      }
    }
  }

  /** The tokens of a C string are C strings. */
  lemma {:induction false} LexFromCString(line: string, i: nat, st: LexState)
    requires st.found ==> |st.toks| > 0
    requires IsCString(line) && Lacks(st.toks, '\0')
    ensures LexFrom(line, i, st).Lexed? ==> AllCStrings(LexFrom(line, i, st).tokens)
    decreases |line| - i
  {
    if i >= |line| {
      assert AllCStrings(st.toks);
    } else {
      var s := LexStep(line, i, st);
      if s.Next? {
        if st.used < STREAM_SIZE && st.found {
          AddCharLacks(st, ' ', '\0');
          AddCharLacks(st, '"', '\0');
          AddCharLacks(st, line[i], '\0');
        }
        LexFromCString(line, s.j, s.st);
      }
    }
  }

  lemma LexCString(line: string)
    requires IsCString(line)
    ensures Lex(line).Lexed? ==> AllCStrings(Lex(line).tokens)
  {
    LexFromCString(line, 0, LEX_START);
  }

  /**
   * Quote characters are not copied into tokens: only an escaped quote
   * can put one there.
   */
  lemma {:induction false} QuotesNotCopied(line: string, i: nat, st: LexState)
    requires st.found ==> |st.toks| > 0
    requires Lacks(st.toks, '"')
    requires forall j :: i <= j < |line| ==> line[j] != '\\'
    ensures LexFrom(line, i, st).Lexed? ==> Lacks(LexFrom(line, i, st).tokens, '"')
    decreases |line| - i
  {
    if i < |line| {
      var s := LexStep(line, i, st);
      if s.Next? {
        if st.used < STREAM_SIZE && st.found && line[i] != '"' {
          AddCharLacks(st, line[i], '"');
        }
        QuotesNotCopied(line, s.j, s.st);
      }
    }
  }

  /** Without quotes, spaces only separate: no token holds a space. */
  lemma {:induction false} SpacesSeparate(line: string, i: nat, st: LexState)
    requires st.found ==> |st.toks| > 0
    requires !st.long && Lacks(st.toks, ' ')
    requires forall j :: i <= j < |line| ==> line[j] != '"'
    ensures LexFrom(line, i, st).Lexed? ==> Lacks(LexFrom(line, i, st).tokens, ' ')
    decreases |line| - i
  {
    if i < |line| {
      var s := LexStep(line, i, st);
      if s.Next? {
        if st.used < STREAM_SIZE && st.found && line[i] != ' ' {
          AddCharLacks(st, if s.j == i + 2 then '"' else line[i], ' ');
        }
        SpacesSeparate(line, s.j, s.st);
      }
    }
  }

  function Concat(ts: seq<string>): string {
    if ts == [] then [] else Concat(ts[..|ts| - 1]) + ts[|ts| - 1]
  }

  lemma ConcatAppend(ts: seq<string>, t: string)
    ensures Concat(ts + [t]) == Concat(ts) + t
  {
    assert (ts + [t])[..|ts|] == ts;
  }

  lemma AddCharConcat(st: LexState, c: char)
    requires |st.toks| > 0
    ensures Concat(AddChar(st, c).toks) == Concat(st.toks) + [c]
  {
    var n := |st.toks| - 1;
    assert st.toks == st.toks[..n] + [st.toks[n]];
    ConcatAppend(st.toks[..n], st.toks[n]);
    ConcatAppend(st.toks[..n], st.toks[n] + [c]);
  }

  /** The characters of `s` other than spaces, in order. */
  function NonSpaces(s: string): string {
    if s == [] then [] else (if s[0] == ' ' then [] else [s[0]]) + NonSpaces(s[1..])
  }

  ghost predicate NoEmptyToken(ts: seq<string>) {
    forall k :: 0 <= k < |ts| ==> ts[k] != ""
  }

  /** One pass over a plain character: a space adds nothing, any other character is appended. */
  lemma PlainStep(line: string, i: nat, st: LexState)
    requires i < |line| && (st.found ==> |st.toks| > 0) && !st.long
    requires line[i] != '"' && line[i] != '\\' && NoEmptyToken(st.toks)
    ensures var s := LexStep(line, i, st);
      s.Next? ==>
        && s.j == i + 1 && !s.st.long && NoEmptyToken(s.st.toks)
        && Concat(s.st.toks) == Concat(st.toks) + (if line[i] == ' ' then [] else [line[i]])
  {
    var s := LexStep(line, i, st);
    if s.Next? && line[i] != ' ' {
      if st.found {
        AddCharConcat(st, line[i]);
        forall k | 0 <= k < |s.st.toks| ensures s.st.toks[k] != "" {
          if k < |st.toks| - 1 {
            assert s.st.toks[k] == st.toks[k];
          }
        }
      } else {
        ConcatAppend(st.toks, [line[i]]);
      }
    }
  }

  /**
   * Without quotes or backslashes, every character other than a space is
   * kept, in order, and no token is empty: the tokens are the words of the
   * line.
   */
  lemma {:induction false} PlainLineKeepsWords(line: string, i: nat, st: LexState)
    requires i <= |line| && (st.found ==> |st.toks| > 0) && !st.long
    requires NoEmptyToken(st.toks)
    requires forall j :: i <= j < |line| ==> line[j] != '"' && line[j] != '\\'
    ensures LexFrom(line, i, st).Lexed? ==>
      var ts := LexFrom(line, i, st).tokens;
      Concat(ts) == Concat(st.toks) + NonSpaces(line[i..]) && NoEmptyToken(ts)
    decreases |line| - i
  {
    if i == |line| {
      assert line[i..] == [];
    } else {
      var s := LexStep(line, i, st);
      if s.Next? {
        PlainStep(line, i, st);
        assert line[i..][1..] == line[i + 1..];
        PlainLineKeepsWords(line, i + 1, s.st);
      }
    }
  }

  /** A word without spaces, quotes or backslashes. */
  predicate IsWord(w: string) {
    forall k :: 0 <= k < |w| ==> w[k] != ' ' && w[k] != '"' && w[k] != '\\'
  }

  lemma {:induction false} WordFrom(w: string, i: nat)
    requires 0 < i <= |w| < STREAM_SIZE && IsWord(w)
    ensures LexFrom(w, i, LexState([w[..i]], true, false, i)) == Lexed([w])
    decreases |w| - i
  {
    if i == |w| {
      assert w[..i] == w;
    } else {
      var st := LexState([w[..i]], true, false, i);
      assert w[..i] + [w[i]] == w[..i + 1];
      assert AddChar(st, w[i]) == LexState([w[..i + 1]], true, false, i + 1);
      WordFrom(w, i + 1);
    }
  }

  /** A non-empty word that fits in the stream is a line of one token, itself. */
  lemma OneWord(w: string)
    requires 0 < |w| < STREAM_SIZE && IsWord(w)
    ensures Lex(w) == Lexed([w])
  {
    assert [w[0]] == w[..1];
    assert LexStep(w, 0, LEX_START) == Next(1, LexState([w[..1]], true, false, 1));
    WordFrom(w, 1);
  }

  /**
   * `\"` with room for two stream characters writes a literal quote: into
   * the open token if there is one (quote mode is left as it is), and
   * otherwise into the stream outside every token, so no token holds it.
   * Without that room the backslash is an ordinary character.
   */
  lemma EscapedQuotePlacement(line: string, i: nat, st: LexState)
    requires i + 1 < |line| && line[i] == '\\' && line[i + 1] == '"'
    requires (st.found ==> |st.toks| > 0) && st.used < STREAM_SIZE
    ensures st.used + 1 < STREAM_SIZE && st.found ==>
      LexFrom(line, i, st) == LexFrom(line, i + 2, AddChar(st, '"'))
    ensures st.used + 1 < STREAM_SIZE && !st.found ==>
      LexFrom(line, i, st) == LexFrom(line, i + 2, st.(used := st.used + 1))
    ensures st.used + 1 == STREAM_SIZE && st.found ==>
      LexFrom(line, i, st) == LexFrom(line, i + 1, AddChar(st, '\\'))
    ensures st.used + 1 == STREAM_SIZE && !st.found ==>
      LexFrom(line, i, st) == (if |st.toks| >= TOKEN_COUNT then TooLong else LexFrom(line, i + 1, StartToken(st, '\\')))
  {
  }

  // ---------------------------------------------------------------------
  // The buffer: tokens as NUL-terminated strings inside one stream.

  /** The C string starting at `start`: up to the first NUL or the end of the buffer. */
  function CStrAt(stream: seq<char>, start: nat): string
    decreases |stream| - start
  {
    if start >= |stream| || stream[start] == '\0' then [] else [stream[start]] + CStrAt(stream, start + 1)
  }

  lemma {:induction false} CStrAtReads(stream: seq<char>, start: nat, n: nat)
    requires start + n <= |stream|
    requires '\0' !in stream[start..start + n]
    requires start + n == |stream| || stream[start + n] == '\0'
    ensures CStrAt(stream, start) == stream[start..start + n]
    decreases n
  {
    if n > 0 {
      assert stream[start + 1..start + n] == stream[start..start + n][1..];
      CStrAtReads(stream, start + 1, n - 1);
    }
  }

  /**
   * Token `tok` starts at `start` of the stream; a closed token is followed
   * by a NUL, the open one reaches up to `used`.
   */
  ghost predicate TokenAt(stream: seq<char>, start: nat, tok: string, used: nat, open: bool) {
    && start + |tok| <= used <= |stream|
    && stream[start..start + |tok|] == tok
    && (open ==> start + |tok| == used)
    && (!open ==> start + |tok| < used && stream[start + |tok|] == '\0')
  }

  /** The stream and the start positions hold the tokens of `st`. */
  ghost predicate Holds(stream: seq<char>, starts: seq<nat>, st: LexState) {
    && |stream| == STREAM_SIZE
    && |starts| == |st.toks|
    && st.used <= STREAM_SIZE
    && (st.found ==> |st.toks| > 0)
    && (forall j :: st.used <= j < STREAM_SIZE ==> stream[j] == '\0')
    && (forall k :: 0 <= k < |st.toks| ==> IsCString(st.toks[k]))
    && (forall k :: 0 <= k < |st.toks| ==>
          TokenAt(stream, starts[k], st.toks[k], st.used, st.found && k == |st.toks| - 1))
  }

  /** Writing a character of the open token at `used`. */
  lemma HoldsAddChar(stream: seq<char>, starts: seq<nat>, st: LexState, c: char)
    requires Holds(stream, starts, st) && st.found && st.used < STREAM_SIZE && c != '\0'
    ensures Holds(stream[st.used := c], starts, AddChar(st, c))
  {
    var s' := stream[st.used := c];
    var st' := AddChar(st, c);
    var n := |st.toks| - 1;
    forall k | 0 <= k < |st'.toks|
      ensures TokenAt(s', starts[k], st'.toks[k], st'.used, st'.found && k == n)
    {
      if k < n {
        assert st'.toks[k] == st.toks[k];
        assert TokenAt(stream, starts[k], st.toks[k], st.used, false);
        assert s'[starts[k]..starts[k] + |st.toks[k]|] == stream[starts[k]..starts[k] + |st.toks[k]|];
      } else {
        assert TokenAt(stream, starts[n], st.toks[n], st.used, true);
        assert s'[starts[n]..starts[n] + |st.toks[n]| + 1] == stream[starts[n]..starts[n] + |st.toks[n]|] + [c];
      }
    }
  }

  /** Starting a new token with character `c` at `used`. */
  lemma HoldsNewToken(stream: seq<char>, starts: seq<nat>, st: LexState, c: char)
    requires Holds(stream, starts, st) && !st.found && st.used < STREAM_SIZE && c != '\0'
    ensures Holds(stream[st.used := c], starts + [st.used],
                  st.(toks := st.toks + [[c]], found := true, used := st.used + 1))
  {
    var s' := stream[st.used := c];
    var st' := st.(toks := st.toks + [[c]], found := true, used := st.used + 1);
    var starts' := starts + [st.used];
    forall k | 0 <= k < |st'.toks|
      ensures TokenAt(s', starts'[k], st'.toks[k], st'.used, k == |st.toks|)
    {
      if k < |st.toks| {
        assert TokenAt(stream, starts[k], st.toks[k], st.used, false);
        assert s'[starts[k]..starts[k] + |st.toks[k]|] == stream[starts[k]..starts[k] + |st.toks[k]|];
      }
    }
  }

  /** Starting an empty token at `used` (an opening quote). */
  lemma HoldsNewEmpty(stream: seq<char>, starts: seq<nat>, st: LexState)
    requires Holds(stream, starts, st) && !st.found
    requires st.used <= STREAM_SIZE
    ensures Holds(stream, starts + [st.used], st.(toks := st.toks + [""], found := true, long := !st.long))
  {
    var st' := st.(toks := st.toks + [""], found := true, long := !st.long);
    var starts' := starts + [st.used];
    forall k | 0 <= k < |st'.toks|
      ensures TokenAt(stream, starts'[k], st'.toks[k], st'.used, k == |st.toks|)
    {
      if k < |st.toks| {
        assert TokenAt(stream, starts[k], st.toks[k], st.used, false);
      }
    }
  }

  /** Ending the open token with a NUL at `used`. */
  lemma HoldsClose(stream: seq<char>, starts: seq<nat>, st: LexState)
    requires Holds(stream, starts, st) && st.found && st.used < STREAM_SIZE
    ensures Holds(stream[st.used := '\0'], starts, st.(found := false, used := st.used + 1))
  {
    var s' := stream[st.used := '\0'];
    var st' := st.(found := false, used := st.used + 1);
    forall k | 0 <= k < |st.toks|
      ensures TokenAt(s', starts[k], st.toks[k], st'.used, false)
    {
      assert TokenAt(stream, starts[k], st.toks[k], st.used, st.found && k == |st.toks| - 1);
      assert s'[starts[k]..starts[k] + |st.toks[k]|] == stream[starts[k]..starts[k] + |st.toks[k]|];
    }
  }

  /** Writing a character that belongs to no token at `used`. */
  lemma HoldsOrphan(stream: seq<char>, starts: seq<nat>, st: LexState, c: char)
    requires Holds(stream, starts, st) && !st.found && st.used < STREAM_SIZE
    ensures Holds(stream[st.used := c], starts, st.(used := st.used + 1))
  {
    var s' := stream[st.used := c];
    forall k | 0 <= k < |st.toks|
      ensures TokenAt(s', starts[k], st.toks[k], st.used + 1, false)
    {
      assert TokenAt(stream, starts[k], st.toks[k], st.used, false);
      assert s'[starts[k]..starts[k] + |st.toks[k]|] == stream[starts[k]..starts[k] + |st.toks[k]|];
    }
  }

  /** The quote mode is not recorded in the buffer. */
  lemma HoldsToggle(stream: seq<char>, starts: seq<nat>, st: LexState)
    requires Holds(stream, starts, st)
    ensures Holds(stream, starts, st.(long := !st.long))
  {
  }

  /** Reading the tokens back from the stream gives the tokens of the state. */
  lemma HoldsReadBack(stream: seq<char>, starts: seq<nat>, st: LexState, k: nat)
    requires Holds(stream, starts, st) && k < |st.toks|
    ensures CStrAt(stream, starts[k]) == st.toks[k]
  {
    var open := st.found && k == |st.toks| - 1;
    assert TokenAt(stream, starts[k], st.toks[k], st.used, open);
    CStrAtReads(stream, starts[k], |st.toks[k]|);
  }

  lemma AddCharCString(st: LexState, c: char)
    requires |st.toks| > 0 && c != '\0'
    requires forall k :: 0 <= k < |st.toks| ==> IsCString(st.toks[k])
    ensures forall k :: 0 <= k < |AddChar(st, c).toks| ==> IsCString(AddChar(st, c).toks[k])
  {
    var ts := AddChar(st, c).toks;
    forall k | 0 <= k < |ts| ensures IsCString(ts[k]) {
      if k < |st.toks| - 1 {
        assert ts[k] == st.toks[k];
      }
    }
  }

  /**
   * The working state of step 1 of `IConsoleCmdExec`: the token stream,
   * the token start positions, and the loop's counters and flags. The
   * ghost `st` is the state of the splitting the buffers hold.
   */
  class Tokenizer {
    const tokenstream: array<char>
    const tokens: array<nat>
    var tIndex: nat
    var tstreamI: nat
    var longtoken: bool
    var foundtoken: bool
    ghost var st: LexState

    ghost predicate Valid()
      reads this, tokenstream, tokens
    {
      && tokenstream.Length == STREAM_SIZE && tokens.Length == TOKEN_COUNT
      && tIndex == |st.toks| <= TOKEN_COUNT && tstreamI == st.used
      && foundtoken == st.found && longtoken == st.long
      && Holds(tokenstream[..], tokens[..tIndex], st)
    }

    /** Both buffers zero-filled, no token yet. */
    constructor ()
      ensures Valid() && st == LEX_START
      ensures fresh(tokenstream) && fresh(tokens)
    {
      tokenstream := new char[STREAM_SIZE](_ => '\0');
      tokens := new nat[TOKEN_COUNT](_ => 0);
      tIndex, tstreamI := 0, 0;
      longtoken, foundtoken := false, false;
      st := LEX_START;
    }

    /** The token separator: ends the open token, or is kept inside quotes. */
    method Space()
      requires Valid() && st.used < STREAM_SIZE
      modifies this, tokenstream
      ensures Valid()
      ensures st == if !old(st).found then old(st)
        else if old(st).long then AddChar(old(st), ' ')
        else CloseToken(old(st))
    {
      if !foundtoken {
        return;
      }
      ghost var before := tokenstream[..];
      if longtoken {
        tokenstream[tstreamI] := ' ';
        assert tokenstream[..] == before[st.used := ' '];
        HoldsAddChar(before, tokens[..tIndex], st, ' ');
        AddCharCString(st, ' ');
        st := AddChar(st, ' ');
      } else {
        tokenstream[tstreamI] := '\0';
        assert tokenstream[..] == before[st.used := '\0'];
        HoldsClose(before, tokens[..tIndex], st);
        st := CloseToken(st);
        foundtoken := false;
      }
      tstreamI := tstreamI + 1;
    }

    /** A double quote: toggles the quote mode, starting a token if none is open. */
    method Quote() returns (tooLong: bool)
      requires Valid()
      modifies this, tokens
      ensures tooLong <==> !old(st).found && |old(st).toks| >= TOKEN_COUNT
      ensures !tooLong ==> Valid()
      ensures !tooLong ==> st == if old(st).found then old(st).(long := !old(st).long) else OpenQuoted(old(st))
    {
      tooLong := false;
      longtoken := !longtoken;
      if !foundtoken {
        if tIndex >= TOKEN_COUNT {
          return true;
        }
        ghost var before := tokens[..tIndex];
        tokens[tIndex] := tstreamI;
        assert tokens[..tIndex + 1] == before + [st.used];
        HoldsNewEmpty(tokenstream[..], before, st);
        st := OpenQuoted(st);
        tIndex := tIndex + 1;
        foundtoken := true;
      } else {
        HoldsToggle(tokenstream[..], tokens[..tIndex], st);
        st := st.(long := !st.long);
      }
    }

    /** `\"`: a literal quote is written to the stream. */
    method EscapedQuote()
      requires Valid() && st.used + 1 < STREAM_SIZE
      modifies this, tokenstream
      ensures Valid()
      ensures st == if old(st).found then AddChar(old(st), '"') else old(st).(used := old(st).used + 1)
    {
      ghost var before := tokenstream[..];
      tokenstream[tstreamI] := '"';
      assert tokenstream[..] == before[st.used := '"'];
      if foundtoken {
        HoldsAddChar(before, tokens[..tIndex], st, '"');
        AddCharCString(st, '"');
        st := AddChar(st, '"');
      } else {
        HoldsOrphan(before, tokens[..tIndex], st, '"');
        st := st.(used := st.used + 1);
      }
      tstreamI := tstreamI + 1;
    }

    /** Any other character: written to the stream, starting a token if none is open. */
    method Normal(c: char) returns (tooLong: bool)
      requires Valid() && st.used < STREAM_SIZE && c != '\0'
      modifies this, tokenstream, tokens
      ensures tooLong <==> !old(st).found && |old(st).toks| >= TOKEN_COUNT
      ensures !tooLong ==> Valid()
      ensures !tooLong ==> st == if old(st).found then AddChar(old(st), c) else StartToken(old(st), c)
    {
      tooLong := false;
      ghost var before := tokenstream[..];
      tokenstream[tstreamI] := c;
      assert tokenstream[..] == before[st.used := c];
      tstreamI := tstreamI + 1;
      if !foundtoken {
        if tIndex >= TOKEN_COUNT {
          return true;
        }
        ghost var starts := tokens[..tIndex];
        tokens[tIndex] := tstreamI - 1;
        assert tokens[..tIndex + 1] == starts + [st.used];
        HoldsNewToken(before, starts, st, c);
        st := StartToken(st, c);
        tIndex := tIndex + 1;
        foundtoken := true;
      } else {
        HoldsAddChar(before, tokens[..tIndex], st, c);
        AddCharCString(st, c);
        st := AddChar(st, c);
      }
    }
  }

  /**
   * Step 1 of `IConsoleCmdExec`: the loop over the line, one case per
   * character class, then the tokens read back as C strings from their
   * starts.
   */
  method Tokenize(line: string) returns (r: LexResult)
    requires IsCString(line)
    ensures r == Lex(line)
  {
    var tk := new Tokenizer();
    var i := 0;
    while i < |line|
      invariant i <= |line| && tk.Valid()
      invariant fresh(tk.tokenstream) && fresh(tk.tokens)
      invariant LexFrom(line, i, tk.st) == Lex(line)
      decreases |line| - i
    {
      ghost var st0 := tk.st;
      ghost var i0 := i;
      if tk.tstreamI >= STREAM_SIZE {
        assert LexStep(line, i, st0) == Halt;
        return TooLong;
      }
      var c := line[i];
      if c == ' ' {
        tk.Space();
        i := i + 1;
      } else if c == '"' {
        var tooLong := tk.Quote();
        if tooLong {
          assert LexStep(line, i, st0) == Halt;
          return TooLong;
        }
        i := i + 1;
      } else if c == '\\' && i + 1 < |line| && line[i + 1] == '"' && tk.tstreamI + 1 < STREAM_SIZE {
        tk.EscapedQuote();
        i := i + 2;
      } else {
        var tooLong := tk.Normal(c);
        if tooLong {
          assert LexStep(line, i, st0) == Halt;
          return TooLong;
        }
        i := i + 1;
      }
      assert LexStep(line, i0, st0) == Next(i, tk.st);
    }
    var stream := tk.tokenstream[..];
    var starts := tk.tokens[..tk.tIndex];
    ghost var st := tk.st;
    var result: seq<string> := [];
    var k := 0;
    while k < |starts|
      invariant k <= |starts| == |st.toks|
      invariant |result| == k && forall j :: 0 <= j < k ==> result[j] == st.toks[j]
    {
      HoldsReadBack(stream, starts, st, k);
      result := result + [CStrAt(stream, starts[k])];
      k := k + 1;
    }
    assert result == st.toks;
    r := Lexed(result);
  }

  // ---------------------------------------------------------------------
  // Quoted text through the tokenizer, step by step.

  /** `s` in double quotes. */
  function Quote(s: string): string {
    "\"" + s + "\""
  }

  /** A parameter that quoting passes through unchanged: no quote, no backslash. */
  predicate Quotable(p: string) {
    forall k :: 0 <= k < |p| ==> p[k] != '"' && p[k] != '\\'
  }

  /** `s` appended to the open token. */
  function Extend(st: LexState, s: string): LexState
    requires |st.toks| > 0
  {
    var n := |st.toks| - 1;
    st.(toks := st.toks[..n] + [st.toks[n] + s], used := st.used + |s|)
  }

  /** Inside quotes, a space or any other character but `"` and `\\` goes into the open token. */
  lemma QuotedCharStep(line: string, i: nat, st: LexState, c: char)
    requires i < |line| && line[i] == c && c != '"' && c != '\\'
    requires st.found && st.long && |st.toks| > 0 && st.used < STREAM_SIZE
    ensures LexFrom(line, i, st) == LexFrom(line, i + 1, AddChar(st, c))
  {
    assert LexStep(line, i, st) == Next(i + 1, AddChar(st, c));
  }

  lemma ExtendAddChar(st: LexState, c: char, s: string)
    requires |st.toks| > 0
    ensures Extend(AddChar(st, c), s) == Extend(st, [c] + s)
  {
    var n := |st.toks| - 1;
    assert AddChar(st, c).toks[..n] == st.toks[..n];
    assert st.toks[n] + [c] + s == st.toks[n] + ([c] + s);
  }

  lemma ExtendNothing(st: LexState)
    requires |st.toks| > 0
    ensures Extend(st, "") == st
  {
    var n := |st.toks| - 1;
    assert st.toks[n] + "" == st.toks[n];
    assert st.toks[..n] + [st.toks[n]] == st.toks;
  }

  lemma MatchRest(line: string, i: nat, p: string)
    requires |p| > 0 && i + |p| <= |line| && Quotable(p)
    requires forall m :: 0 <= m < |p| ==> line[i + m] == p[m]
    ensures line[i] == p[0] && p[0] != '"' && p[0] != '\\' && Quotable(p[1..])
    ensures forall m :: 0 <= m < |p| - 1 ==> line[i + 1 + m] == p[1..][m]
  {
    assert line[i + 0] == p[0];
    forall m | 0 <= m < |p| - 1 ensures line[i + 1 + m] == p[1..][m] {
      assert line[i + (m + 1)] == p[m + 1];
    }
  }

  /**
   * Inside quotes, spaces and other characters alike go into the open
   * token: the parameter `p` takes the tokenizer from `i` to `e` and from
   * `st` to `st2`.
   */
  lemma {:induction false} InsideQuotes(line: string, i: nat, st: LexState, p: string, e: nat, st2: LexState)
    requires i + |p| <= |line| && st.found && st.long && |st.toks| > 0
    requires st.used + |p| <= STREAM_SIZE && Quotable(p)
    requires forall m :: 0 <= m < |p| ==> line[i + m] == p[m]
    requires e == i + |p| && st2 == Extend(st, p)
    ensures LexFrom(line, i, st) == LexFrom(line, e, st2)
    decreases |p|
  {
    if p == [] {
      ExtendNothing(st);
    } else {
      var c, rest := p[0], p[1..];
      MatchRest(line, i, p);
      ExtendAddChar(st, c, rest);
      assert [c] + rest == p;
      QuotedCharStep(line, i, st, c);
      InsideQuotes(line, i + 1, AddChar(st, c), rest, e, st2);
    }
  }

  /** An opening quote outside a token opens an empty one in quote mode. */
  lemma OpenQuoteStep(line: string, i: nat, st: LexState)
    requires i < |line| && line[i] == '"'
    requires !st.found && !st.long && |st.toks| < TOKEN_COUNT && st.used < STREAM_SIZE
    ensures LexFrom(line, i, st) == LexFrom(line, i + 1, OpenQuoted(st))
  {
    assert LexStep(line, i, st) == Next(i + 1, OpenQuoted(st));
  }

  /** A closing quote ends quote mode and leaves the token open. */
  lemma CloseQuoteStep(line: string, i: nat, st: LexState)
    requires i < |line| && line[i] == '"'
    requires st.found && |st.toks| > 0 && st.used < STREAM_SIZE
    ensures LexFrom(line, i, st) == LexFrom(line, i + 1, st.(long := !st.long))
  {
    assert LexStep(line, i, st) == Next(i + 1, st.(long := !st.long));
  }

  /** A space outside quotes ends the open token. */
  lemma SeparatorStep(line: string, i: nat, st: LexState)
    requires i < |line| && line[i] == ' '
    requires st.found && !st.long && |st.toks| > 0 && st.used < STREAM_SIZE
    ensures LexFrom(line, i, st) == LexFrom(line, i + 1, CloseToken(st))
  {
    assert LexStep(line, i, st) == Next(i + 1, CloseToken(st));
  }

  lemma QuoteParts(line: string, i: nat, p: string)
    requires i + |p| + 2 <= |line| && line[i..i + |p| + 2] == Quote(p)
    ensures line[i] == '"' && line[i + 1 + |p|] == '"'
    ensures forall m :: 0 <= m < |p| ==> line[i + 1 + m] == p[m]
  {
    var q := line[i..i + |p| + 2];
    assert line[i] == q[0];
    assert line[i + 1 + |p|] == q[|p| + 1];
    forall m | 0 <= m < |p| ensures line[i + 1 + m] == p[m] {
      assert line[i + 1 + m] == q[1 + m];
    }
  }

  /** An opening quote and the parameter after it: a new token holding the parameter, quote mode on. */
  lemma OpenAndFill(line: string, i: nat, st: LexState, p: string)
    requires !st.found && !st.long && |st.toks| < TOKEN_COUNT && st.used + |p| < STREAM_SIZE
    requires i + |p| + 1 <= |line| && line[i] == '"' && Quotable(p)
    requires forall m :: 0 <= m < |p| ==> line[i + 1 + m] == p[m]
    ensures LexFrom(line, i, st) ==
      LexFrom(line, i + 1 + |p|, st.(toks := st.toks + [p], found := true, long := true, used := st.used + |p|))
  {
    var open := OpenQuoted(st);
    assert open.toks[..|st.toks|] == st.toks;
    assert open.toks[|st.toks|] + p == p;
    var filled := st.(toks := st.toks + [p], found := true, long := true, used := st.used + |p|);
    assert Extend(open, p) == filled;
    OpenQuoteStep(line, i, st);
    InsideQuotes(line, i + 1, open, p, i + 1 + |p|, filled);
  }

  /** A quoted parameter, met outside a token, becomes one token, itself. */
  lemma QuotedToken(line: string, i: nat, st: LexState, p: string)
    requires !st.found && !st.long && |st.toks| < TOKEN_COUNT && st.used + |p| < STREAM_SIZE
    requires i + |p| + 2 <= |line| && line[i..i + |p| + 2] == Quote(p) && Quotable(p)
    ensures LexFrom(line, i, st) ==
      LexFrom(line, i + |p| + 2, st.(toks := st.toks + [p], found := true, used := st.used + |p|))
  {
    QuoteParts(line, i, p);
    var inside := st.(toks := st.toks + [p], found := true, long := true, used := st.used + |p|);
    OpenAndFill(line, i, st, p);
    CloseQuoteStep(line, i + 1 + |p|, inside);
  }
}
