/**
 * The text an alias expands to (`IConsoleAliasExec`).
 *
 * An alias's command line is copied into a buffer of `STREAM_SIZE`
 * characters, with `'` standing for a double quote, `;` ending one command
 * and starting the next, and `%+`, `%!` and `%A`, `%B`, ... standing for
 * the parameters the alias was called with. Copies into the buffer are
 * bounded the way `strecpy` bounds them, and expansion stops when the
 * buffer is nearly full.
 *
 * `Expand` states the commands an alias yields and why expansion stopped
 * early, if it did; the buffer loop itself runs the commands as it finds
 * them and lives with the console.
 */
module ConsoleAlias {
  import opened Types
  import opened ConsoleLex

  /** Index of the last character of the buffer (`lastof(alias_buffer)`). */
  const LAST: nat := STREAM_SIZE - 1

  /** Expansion stops once the buffer holds this many characters. */
  const OVERFLOW_AT: nat := LAST - 1

  /**
   * `strecpy(dst, s, lastof(buffer))` with `dst` after `buf`: the string
   * appended, cut so that the terminating NUL still fits.
   */
  function Put(buf: string, s: string): (r: string)
    requires |buf| <= LAST
    ensures |r| <= LAST && |buf| <= |r|
    ensures r[..|buf|] == buf
    ensures |buf| + |s| <= LAST ==> r == buf + s
  {
    var n := |buf| + |s|;
    (buf + s)[..if n < LAST then n else LAST]
  }

  /** Two copies in a row write what one copy of both strings writes. */
  lemma PutPut(buf: string, s: string, t: string)
    requires |buf| <= LAST
    ensures Put(Put(buf, s), t) == Put(buf, s + t)
  {
    assert buf + (s + t) == (buf + s) + t;
    if |buf| + |s| >= LAST {
      assert (buf + s + t)[..LAST] == (buf + s)[..LAST];
    }
  }

  /** `%+`: every parameter quoted, separated by spaces. */
  function QuoteEach(params: seq<string>): string {
    if params == [] then ""
    else
      var ps := params[..|params| - 1];
      QuoteEach(ps) + (if ps == [] then "" else " ") + Quote(params[|params| - 1])
  }

  /** The parameters separated by spaces. */
  function Join(params: seq<string>): string {
    if params == [] then ""
    else
      var ps := params[..|params| - 1];
      Join(ps) + (if ps == [] then "" else " ") + params[|params| - 1]
  }

  /** `%!`: all parameters inside one quoted string. */
  function QuoteAll(params: seq<string>): string {
    Quote(Join(params))
  }

  /** A character read as the C `char` of the source: bytes above 127 are negative. */
  function SignedChar(c: char): int {
    var b := c as int % 256;
    if b < 128 then b else b - 256
  }

  /** Which parameter `%X` names: `X - 'A'`, or `None` when that is no parameter. */
  function ParamIndex(x: char, count: nat): (p: Option<nat>)
    ensures p.Some? ==> p.value < count
    ensures p.None? <==> (SignedChar(x) < 'A' as int || SignedChar(x) - 'A' as int >= count)
  {
    var p := SignedChar(x) - 'A' as int;
    if p < 0 || p >= count then None else Some(p)
  }

  datatype Failure =
    /** "too many or wrong amount of parameters passed to alias" */
    | BadParams
    /** "Requested alias execution would overflow execution buffer" */
    | WouldOverflow

  /** What one pass over the alias's command line does to the buffer. */
  datatype Pass =
    /** the buffer now holds `buf`; go on at `next` */
    | Continue(buf: string, next: nat)
    /** run the buffer as a command, empty it and go on at `next` */
    | Flush(next: nat)
    /** a `%X` names no parameter */
    | Fail

  /** The character after `j`, or the terminating NUL. */
  function After(cmd: string, j: nat): char {
    if j + 1 < |cmd| then cmd[j + 1] else '\0'
  }

  /** One pass of the expansion loop, at character `j` of the command line. */
  function ExpandPass(cmd: string, params: seq<string>, j: nat, buf: string): (p: Pass)
    requires j < |cmd| && |buf| < OVERFLOW_AT
    ensures p.Continue? ==> j < p.next && |p.buf| <= LAST
    ensures p.Flush? ==> p.next == j + 2
  {
    var c := cmd[j];
    if c == '\'' then Continue(Put(buf, "\""), j + 1)
    else if c == ';' then Flush(j + 2) // the character after ';' is skipped
    else if c == '%' then
      var x := After(cmd, j);
      if x == '+' then Continue(Put(buf, QuoteEach(params)), j + 2)
      else if x == '!' then Continue(Put(buf, QuoteAll(params)), j + 2)
      else
        var p := ParamIndex(x, |params|);
        if p.None? then Fail else Continue(Put(buf, Quote(params[p.value])), j + 2)
    else Continue(buf + [c], j + 1)
  }

  /**
   * The commands found: the lines flushed, in order, and the reason
   * expansion stopped early, if it did. When it stops early, the text in
   * the buffer is not run.
   */
  datatype Expansion = Expansion(lines: seq<string>, failure: Option<Failure>)

  /** The expansion of `cmd[j..]` from buffer `buf`, after `lines` were flushed. */
  function ExpandFrom(cmd: string, params: seq<string>, j: nat, buf: string, lines: seq<string>): Expansion
    requires |buf| < OVERFLOW_AT
    decreases |cmd| - j
  {
    if j >= |cmd| || cmd[j] == '\0' then Expansion(lines + [buf], None)
    else match ExpandPass(cmd, params, j, buf)
      case Fail => Expansion(lines, Some(BadParams))
      case Flush(next) => ExpandFrom(cmd, params, next, "", lines + [buf])
      case Continue(b, next) =>
        if |b| >= OVERFLOW_AT then Expansion(lines, Some(WouldOverflow))
        else ExpandFrom(cmd, params, next, b, lines)
  }

  function Expand(cmd: string, params: seq<string>): Expansion {
    ExpandFrom(cmd, params, 0, "", [])
  }

  // ---------------------------------------------------------------------
  // Properties of the expansion.

  /** Every line run fits the buffer with room to spare, and so fits the command stream. */
  lemma {:induction false} ExpandFromBounded(cmd: string, params: seq<string>, j: nat, buf: string, lines: seq<string>)
    requires |buf| < OVERFLOW_AT
    requires forall k :: 0 <= k < |lines| ==> |lines[k]| < OVERFLOW_AT
    ensures var e := ExpandFrom(cmd, params, j, buf, lines);
      |lines| <= |e.lines| && e.lines[..|lines|] == lines &&
      forall k :: 0 <= k < |e.lines| ==> |e.lines[k]| < OVERFLOW_AT
    decreases |cmd| - j
  {
    if j < |cmd| && cmd[j] != '\0' {
      var p := ExpandPass(cmd, params, j, buf);
      if p.Flush? {
        ExpandFromBounded(cmd, params, p.next, "", lines + [buf]);
        assert (lines + [buf])[..|lines|] == lines;
      } else if p.Continue? && |p.buf| < OVERFLOW_AT {
        ExpandFromBounded(cmd, params, p.next, p.buf, lines);
      }
    }
  }

  lemma ExpandBounded(cmd: string, params: seq<string>)
    ensures forall k :: 0 <= k < |Expand(cmd, params).lines| ==> |Expand(cmd, params).lines[k]| < OVERFLOW_AT
  {
    ExpandFromBounded(cmd, params, 0, "", []);
  }

  /** No NUL is put into the buffer: every line is a C string. */
  lemma PutCString(buf: string, s: string)
    requires |buf| <= LAST && IsCString(buf) && IsCString(s)
    ensures IsCString(Put(buf, s))
  {
  }

  lemma {:induction false} QuoteEachCString(params: seq<string>)
    requires forall k :: 0 <= k < |params| ==> IsCString(params[k])
    ensures IsCString(QuoteEach(params))
  {
    if params != [] {
      QuoteEachCString(params[..|params| - 1]);
    }
  }

  lemma {:induction false} JoinCString(params: seq<string>)
    requires forall k :: 0 <= k < |params| ==> IsCString(params[k])
    ensures IsCString(Join(params))
  {
    if params != [] {
      JoinCString(params[..|params| - 1]);
    }
  }

  /** A pass never puts a NUL into the buffer. */
  lemma PassCString(cmd: string, params: seq<string>, j: nat, buf: string)
    requires j < |cmd| && |buf| < OVERFLOW_AT && IsCString(buf) && cmd[j] != '\0'
    requires AllCStrings(params)
    ensures ExpandPass(cmd, params, j, buf).Continue? ==> IsCString(ExpandPass(cmd, params, j, buf).buf)
  {
    QuoteEachCString(params);
    JoinCString(params);
  }

  lemma {:induction false} ExpandFromCString(cmd: string, params: seq<string>, j: nat, buf: string, lines: seq<string>)
    requires |buf| < OVERFLOW_AT && IsCString(buf)
    requires AllCStrings(params) && AllCStrings(lines)
    ensures AllCStrings(ExpandFrom(cmd, params, j, buf, lines).lines)
    decreases |cmd| - j
  {
    if j >= |cmd| || cmd[j] == '\0' {
      assert AllCStrings(lines + [buf]);
    } else {
      var p := ExpandPass(cmd, params, j, buf);
      PassCString(cmd, params, j, buf);
      if p.Flush? {
        assert AllCStrings(lines + [buf]);
        ExpandFromCString(cmd, params, p.next, "", lines + [buf]);
      } else if p.Continue? && |p.buf| < OVERFLOW_AT {
        ExpandFromCString(cmd, params, p.next, p.buf, lines);
      }
    }
  }

  /** Every command an alias runs is a C string, given C-string parameters. */
  lemma ExpandCString(cmd: string, params: seq<string>)
    requires AllCStrings(params)
    ensures AllCStrings(Expand(cmd, params).lines)
  {
    ExpandFromCString(cmd, params, 0, "", []);
  }

  /** A character with no special meaning in an alias. */
  predicate Plain(c: char) {
    c != '\'' && c != ';' && c != '%' && c != '\0'
  }

  /** A run of plain characters is copied as it is. */
  lemma {:induction false} PlainRunCopied(cmd: string, params: seq<string>, j: nat, k: nat, buf: string, lines: seq<string>)
    requires j <= k <= |cmd| && |buf| + (k - j) < OVERFLOW_AT
    requires forall m :: j <= m < k ==> Plain(cmd[m])
    ensures ExpandFrom(cmd, params, j, buf, lines) == ExpandFrom(cmd, params, k, buf + cmd[j..k], lines)
    decreases k - j
  {
    if j == k {
      assert buf + cmd[j..k] == buf;
    } else {
      assert ExpandPass(cmd, params, j, buf) == Continue(buf + [cmd[j]], j + 1);
      assert buf + [cmd[j]] + cmd[j + 1..k] == buf + cmd[j..k];
      PlainRunCopied(cmd, params, j + 1, k, buf + [cmd[j]], lines);
    }
  }

  /** An alias without special characters runs its command line as it is, as one command. */
  lemma PlainAliasIsOneCommand(cmd: string, params: seq<string>)
    requires |cmd| < OVERFLOW_AT && forall m :: 0 <= m < |cmd| ==> Plain(cmd[m])
    ensures Expand(cmd, params) == Expansion([cmd], None)
  {
    PlainRunCopied(cmd, params, 0, |cmd|, "", []);
    assert "" + cmd[0..|cmd|] == cmd;
    assert [] + [cmd] == [cmd];
  }

  /**
   * `a; b` runs `a`, then `b`: the `;` ends the first command and the
   * character after it is skipped.
   */
  lemma SemicolonSeparates(a: string, b: string, params: seq<string>)
    requires |a| < OVERFLOW_AT && |b| < OVERFLOW_AT
    requires forall m :: 0 <= m < |a| ==> Plain(a[m])
    requires forall m :: 0 <= m < |b| ==> Plain(b[m])
    ensures Expand(a + "; " + b, params) == Expansion([a, b], None)
  {
    var cmd := a + "; " + b;
    var n := |a|;
    assert forall m :: 0 <= m < n ==> cmd[m] == a[m];
    assert forall m :: n + 2 <= m < |cmd| ==> cmd[m] == b[m - n - 2];
    PlainRunCopied(cmd, params, 0, n, "", []);
    assert "" + cmd[0..n] == a;
    assert cmd[n] == ';';
    assert ExpandPass(cmd, params, n, a) == Flush(n + 2);
    assert [] + [a] == [a];
    PlainRunCopied(cmd, params, n + 2, |cmd|, "", [a]);
    assert "" + cmd[n + 2..|cmd|] == b;
  }

  /** `s` with every `'` written as a double quote. */
  function Requoted(s: string): (r: string)
    ensures |r| == |s|
  {
    seq(|s|, k requires 0 <= k < |s| => if s[k] == '\'' then '"' else s[k])
  }

  /** A run of plain characters and `'` is copied with each `'` turned into `"`. */
  lemma {:induction false} QuoteMarkRun(cmd: string, params: seq<string>, j: nat, k: nat, buf: string, lines: seq<string>)
    requires j <= k <= |cmd| && |buf| + (k - j) < OVERFLOW_AT
    requires forall m :: j <= m < k ==> Plain(cmd[m]) || cmd[m] == '\''
    ensures ExpandFrom(cmd, params, j, buf, lines) == ExpandFrom(cmd, params, k, buf + Requoted(cmd[j..k]), lines)
    decreases k - j
  {
    if j == k {
      assert buf + Requoted(cmd[j..k]) == buf;
    } else {
      var c := if cmd[j] == '\'' then '"' else cmd[j];
      assert ExpandPass(cmd, params, j, buf) == Continue(buf + [c], j + 1);
      assert Requoted(cmd[j..k]) == [c] + Requoted(cmd[j + 1..k]);
      assert buf + [c] + Requoted(cmd[j + 1..k]) == buf + Requoted(cmd[j..k]);
      QuoteMarkRun(cmd, params, j + 1, k, buf + [c], lines);
    }
  }

  /**
   * `'` stands for a double quote: a command line of plain characters and
   * `'` runs as one command, itself with every `'` written as `"`.
   */
  lemma QuoteMarkIsDoubleQuote(cmd: string, params: seq<string>)
    requires |cmd| < OVERFLOW_AT
    requires forall m :: 0 <= m < |cmd| ==> Plain(cmd[m]) || cmd[m] == '\''
    ensures Expand(cmd, params) == Expansion([Requoted(cmd)], None)
  {
    QuoteMarkRun(cmd, params, 0, |cmd|, "", []);
    assert cmd[0..|cmd|] == cmd;
    assert "" + Requoted(cmd) == Requoted(cmd);
  }

  /**
   * `%X`, other than `%+` and `%!`, names parameter `X - 'A'` and is
   * replaced by it in quotes; when there is no such parameter expansion
   * fails and nothing more is run, and when the quoted parameter does not
   * fit it stops with an overflow.
   */
  lemma ParamQuoted(cmd: string, params: seq<string>, j: nat, buf: string, lines: seq<string>)
    requires j < |cmd| && cmd[j] == '%' && After(cmd, j) != '+' && After(cmd, j) != '!'
    requires |buf| < OVERFLOW_AT
    ensures var x := SignedChar(After(cmd, j)) - 'A' as int;
      x < 0 || x >= |params| ==>
        ExpandFrom(cmd, params, j, buf, lines) == Expansion(lines, Some(BadParams))
    ensures var x := SignedChar(After(cmd, j)) - 'A' as int;
      0 <= x < |params| && |buf| + |Quote(params[x])| < OVERFLOW_AT ==>
        ExpandFrom(cmd, params, j, buf, lines) == ExpandFrom(cmd, params, j + 2, buf + Quote(params[x]), lines)
    ensures var x := SignedChar(After(cmd, j)) - 'A' as int;
      0 <= x < |params| && |buf| + |Quote(params[x])| >= OVERFLOW_AT ==>
        ExpandFrom(cmd, params, j, buf, lines) == Expansion(lines, Some(WouldOverflow))
  {
  }

  /** A `%` that ends the command line names no parameter, wherever expansion reaches it. */
  lemma TrailingPercentFails(cmd: string, params: seq<string>, buf: string, lines: seq<string>)
    requires |cmd| > 0 && cmd[|cmd| - 1] == '%' && |buf| < OVERFLOW_AT
    ensures ExpandFrom(cmd, params, |cmd| - 1, buf, lines) == Expansion(lines, Some(BadParams))
  {
    assert After(cmd, |cmd| - 1) == '\0';
  }

  /** Every parameter in quotes. */
  function Quoted(params: seq<string>): (r: seq<string>)
    ensures |r| == |params|
  {
    seq(|params|, k requires 0 <= k < |params| => Quote(params[k]))
  }

  /**
   * `%+` writes what `%!` would write for the parameters each put in
   * quotes first: the quoted parameters, separated by spaces.
   */
  lemma {:induction false} ParameterLists(params: seq<string>)
    ensures QuoteEach(params) == Join(Quoted(params))
  {
    if params != [] {
      var ps := params[..|params| - 1];
      ParameterLists(ps);
      assert Quoted(params)[..|params| - 1] == Quoted(ps);
    }
  }

  // ---------------------------------------------------------------------
  // Parameters survive the tokenizer of the expanded command.

  lemma {:induction false} QuoteEachLength(params: seq<string>)
    ensures |QuoteEach(params)| == if params == [] then 0 else TotalLength(params) + 3 * |params| - 1
  {
    if params != [] {
      var ps := params[..|params| - 1];
      QuoteEachLength(ps);
      assert ps + [params[|params| - 1]] == params;
      TotalLengthAppend(ps, params[|params| - 1]);
    }
  }

  lemma {:induction false} QuoteEachPrefix(params: seq<string>, k: nat)
    requires k <= |params|
    ensures QuoteEach(params[..k]) <= QuoteEach(params)
    decreases |params| - k
  {
    if k == |params| {
      assert params[..k] == params;
    } else {
      QuoteEachPrefix(params, k + 1);
      QuoteEachStep(params, k);
    }
  }

  /** The state after lexing the first `k` quoted parameters of `QuoteEach(params)`. */
  function AfterQuoted(params: seq<string>, k: nat): LexState
    requires k <= |params|
  {
    LexState(params[..k], k > 0, false, if k == 0 then 0 else TotalLength(params[..k]) + k - 1)
  }

  /**
   * Where the `k`-th quoted parameter sits in `QuoteEach(params)`: after
   * the first `k - 1` and, unless it is the first, a space.
   */
  lemma QuoteEachPiece(params: seq<string>, k: nat)
    requires 0 < k <= |params|
    ensures var a := |QuoteEach(params[..k - 1])|;
      var b := a + (if k > 1 then 1 else 0);
      var p := params[k - 1];
      && |QuoteEach(params[..k])| == b + |p| + 2 <= |QuoteEach(params)|
      && (k > 1 ==> QuoteEach(params)[a] == ' ')
      && QuoteEach(params)[b..b + |p| + 2] == Quote(p)
  {
    QuoteEachStep(params, k - 1);
    QuoteEachPrefix(params, k);
    var line := QuoteEach(params);
    var a := |QuoteEach(params[..k - 1])|;
    var b := a + (if k > 1 then 1 else 0);
    var p := params[k - 1];
    var piece := (if k > 1 then " " else "") + Quote(p);
    assert line[..a + |piece|] == QuoteEach(params[..k - 1]) + piece;
    assert line[a] == line[..a + |piece|][a];
    assert line[b..b + |p| + 2] == line[..a + |piece|][b..];
  }

  /** The stream characters the first `k` quoted parameters use. */
  lemma QuoteEachRoom(params: seq<string>, k: nat)
    requires 0 < k <= |params|
    ensures TotalLength(params[..k]) == TotalLength(params[..k - 1]) + |params[k - 1]|
    ensures |QuoteEach(params[..k])| == TotalLength(params[..k]) + 3 * k - 1 <= |QuoteEach(params)|
  {
    assert params[..k] == params[..k - 1] + [params[k - 1]];
    TotalLengthAppend(params[..k - 1], params[k - 1]);
    QuoteEachLength(params[..k]);
    QuoteEachPrefix(params, k);
  }

  /** `QuotedToken`, ending at `e` in state `st2`. */
  lemma QuotedTokenTo(line: string, a: nat, st: LexState, p: string, e: nat, st2: LexState)
    requires !st.found && !st.long && |st.toks| < TOKEN_COUNT && st.used + |p| < STREAM_SIZE
    requires e == a + |p| + 2 <= |line| && line[a..e] == Quote(p) && Quotable(p)
    requires st2 == st.(toks := st.toks + [p], found := true, used := st.used + |p|)
    ensures LexFrom(line, a, st) == LexFrom(line, e, st2)
  {
    QuotedToken(line, a, st, p);
  }

  /** A space that ends the open token, then a quoted parameter. */
  lemma SeparatedToken(line: string, a: nat, st: LexState, p: string, e: nat, st2: LexState)
    requires st.found && !st.long && 0 < |st.toks| < TOKEN_COUNT && st.used + |p| + 1 < STREAM_SIZE
    requires e == a + |p| + 3 <= |line| && line[a] == ' ' && line[a + 1..e] == Quote(p) && Quotable(p)
    requires st2 == st.(toks := st.toks + [p], found := true, used := st.used + 1 + |p|)
    ensures LexFrom(line, a, st) == LexFrom(line, e, st2)
  {
    SeparatorStep(line, a, st);
    QuotedTokenTo(line, a + 1, CloseToken(st), p, e, st2);
  }

  /**
   * A quoted parameter, after a space that ends the open token if `sep`,
   * takes the tokenizer from `a` to `e` and from `st` to `st2`.
   */
  lemma PieceLexes(line: string, a: nat, st: LexState, p: string, sep: bool, e: nat, st2: LexState)
    requires !st.long && |st.toks| < TOKEN_COUNT && Quotable(p)
    requires if sep then st.found && |st.toks| > 0 else !st.found
    requires st.used + |p| + 1 < STREAM_SIZE
    requires var b := a + (if sep then 1 else 0);
      && e == b + |p| + 2 <= |line|
      && (sep ==> line[a] == ' ')
      && line[b..e] == Quote(p)
    requires st2 == st.(toks := st.toks + [p], found := true, used := st.used + (if sep then 1 else 0) + |p|)
    ensures LexFrom(line, a, st) == LexFrom(line, e, st2)
  {
    if sep {
      SeparatedToken(line, a, st, p, e, st2);
    } else {
      QuotedTokenTo(line, a, st, p, e, st2);
    }
  }

  /** Lexing the `k`-th quoted parameter of `QuoteEach(params)`, and the space before it. */
  lemma QuoteEachNext(params: seq<string>, k: nat)
    requires 0 < k <= |params| <= TOKEN_COUNT && |QuoteEach(params)| <= STREAM_SIZE
    requires Quotable(params[k - 1])
    ensures var line := QuoteEach(params);
      LexFrom(line, |QuoteEach(params[..k - 1])|, AfterQuoted(params, k - 1)) ==
      LexFrom(line, |QuoteEach(params[..k])|, AfterQuoted(params, k))
  {
    var p := params[k - 1];
    QuoteEachPiece(params, k);
    QuoteEachRoom(params, k);
    assert params[..k] == params[..k - 1] + [p];
    PieceLexes(QuoteEach(params), |QuoteEach(params[..k - 1])|, AfterQuoted(params, k - 1), p, k > 1,
               |QuoteEach(params[..k])|, AfterQuoted(params, k));
  }

  lemma {:induction false} QuoteEachLexes(params: seq<string>, k: nat)
    requires k <= |params| <= TOKEN_COUNT && |QuoteEach(params)| <= STREAM_SIZE
    requires forall m :: 0 <= m < |params| ==> Quotable(params[m])
    ensures Lex(QuoteEach(params)) ==
      LexFrom(QuoteEach(params), |QuoteEach(params[..k])|, AfterQuoted(params, k))
  {
    if k > 0 {
      QuoteEachLexes(params, k - 1);
      QuoteEachNext(params, k);
    } else {
      assert params[..0] == [];
    }
  }

  /**
   * `%+` hands each parameter on intact: the command it writes splits into
   * exactly the parameters again, spaces inside them included.
   */
  lemma QuoteEachRelexes(params: seq<string>)
    requires |params| <= TOKEN_COUNT && |QuoteEach(params)| <= STREAM_SIZE
    requires forall m :: 0 <= m < |params| ==> Quotable(params[m])
    ensures Lex(QuoteEach(params)) == Lexed(params)
  {
    QuoteEachLexes(params, |params|);
    assert params[..|params|] == params;
  }

  lemma {:induction false} JoinQuotable(params: seq<string>)
    requires forall m :: 0 <= m < |params| ==> Quotable(params[m])
    ensures Quotable(Join(params))
  {
    if params != [] {
      JoinQuotable(params[..|params| - 1]);
    }
  }

  /** `%!` hands all parameters on as one token: the parameters joined by spaces. */
  lemma QuoteAllRelexes(params: seq<string>)
    requires |QuoteAll(params)| <= STREAM_SIZE
    requires forall m :: 0 <= m < |params| ==> Quotable(params[m])
    ensures Lex(QuoteAll(params)) == Lexed([Join(params)])
  {
    var p := Join(params);
    JoinQuotable(params);
    assert QuoteAll(params)[0..|p| + 2] == Quote(p);
    QuotedToken(QuoteAll(params), 0, LEX_START, p);
  }

  // ---------------------------------------------------------------------
  // The bounded copy.

  /**
   * `strecpy(buffer + dst, src, lastof(buffer))`: copies `src` until it ends
   * or the last character of the buffer is reached, writes a NUL after the
   * copy and returns where that NUL is.
   */
  method StrECopy(buffer: array<char>, dst: nat, src: string) returns (end: nat)
    requires buffer.Length == STREAM_SIZE && dst <= LAST && IsCString(src)
    modifies buffer
    ensures end <= LAST && buffer[end] == '\0'
    ensures buffer[..end] == Put(old(buffer[..dst]), src)
  {
    ghost var start := buffer[..dst];
    end := dst;
    var i := 0;
    while end != LAST && i < |src|
      invariant i <= |src| && end == dst + i <= LAST
      invariant buffer[..end] == start + src[..i]
    {
      buffer[end] := src[i];
      assert buffer[..end + 1] == buffer[..end] + [src[i]];
      assert src[..i + 1] == src[..i] + [src[i]];
      end := end + 1;
      i := i + 1;
    }
    buffer[end] := '\0';
    assert buffer[..end] == start + src[..i];
    if i == |src| {
      assert src[..i] == src;
    } else {
      assert (start + src)[..LAST] == start + src[..i];
    }
  }

  lemma PutNothing(buf: string)
    requires |buf| <= LAST
    ensures Put(buf, "") == buf
  {
    assert buf + "" == buf;
  }

  lemma QuoteEachStep(params: seq<string>, i: nat)
    requires i < |params|
    ensures QuoteEach(params[..i + 1]) == QuoteEach(params[..i]) + ((if i != 0 then " " else "") + Quote(params[i]))
  {
    assert params[..i + 1][..i] == params[..i];
    var sep := if i != 0 then " " else "";
    assert QuoteEach(params[..i]) + sep + Quote(params[i]) == QuoteEach(params[..i]) + (sep + Quote(params[i]));
  }

  lemma JoinStep(params: seq<string>, i: nat)
    requires i < |params|
    ensures "\"" + Join(params[..i + 1]) == "\"" + Join(params[..i]) + ((if i != 0 then " " else "") + params[i])
  {
    assert params[..i + 1][..i] == params[..i];
  }

  /** `%+`: each parameter copied in quotes, separated by spaces. */
  method PutEachQuoted(buffer: array<char>, stream: nat, params: seq<string>) returns (end: nat)
    requires buffer.Length == STREAM_SIZE && stream <= LAST && AllCStrings(params)
    modifies buffer
    ensures end <= LAST
    ensures buffer[..end] == Put(old(buffer[..stream]), QuoteEach(params))
  {
    ghost var start := buffer[..stream];
    end := stream;
    var i := 0;
    PutNothing(start);
    assert params[..0] == [];
    while i != |params|
      invariant i <= |params| && end <= LAST
      invariant buffer[..end] == Put(start, QuoteEach(params[..i]))
    {
      ghost var before := buffer[..end];
      ghost var sep := if i != 0 then " " else "";
      if i != 0 {
        end := StrECopy(buffer, end, " ");
      } else {
        PutNothing(before);
      }
      assert buffer[..end] == Put(before, sep);
      end := PutQuoted(buffer, end, params[i]);
      PutPut(before, sep, Quote(params[i]));
      PutPut(start, QuoteEach(params[..i]), sep + Quote(params[i]));
      QuoteEachStep(params, i);
      i := i + 1;
    }
    assert params[..i] == params;
  }

  /** `%!`: all parameters copied inside one pair of quotes, separated by spaces. */
  method PutAllQuoted(buffer: array<char>, stream: nat, params: seq<string>) returns (end: nat)
    requires buffer.Length == STREAM_SIZE && stream <= LAST && AllCStrings(params)
    modifies buffer
    ensures end <= LAST
    ensures buffer[..end] == Put(old(buffer[..stream]), QuoteAll(params))
  {
    ghost var start := buffer[..stream];
    end := StrECopy(buffer, stream, "\"");
    var i := 0;
    assert params[..0] == [];
    assert "\"" + Join(params[..0]) == "\"";
    while i != |params|
      invariant i <= |params| && end <= LAST
      invariant buffer[..end] == Put(start, "\"" + Join(params[..i]))
    {
      ghost var before := buffer[..end];
      ghost var sep := if i != 0 then " " else "";
      if i != 0 {
        end := StrECopy(buffer, end, " ");
      } else {
        PutNothing(before);
      }
      assert buffer[..end] == Put(before, sep);
      end := StrECopy(buffer, end, params[i]);
      PutPut(before, sep, params[i]);
      PutPut(start, "\"" + Join(params[..i]), sep + params[i]);
      JoinStep(params, i);
      i := i + 1;
    }
    end := StrECopy(buffer, end, "\"");
    assert params[..i] == params;
    PutPut(start, "\"" + Join(params), "\"");
  }

  /** `%A`, `%B`, ...: one parameter copied in quotes. */
  method PutQuoted(buffer: array<char>, stream: nat, param: string) returns (end: nat)
    requires buffer.Length == STREAM_SIZE && stream <= LAST && IsCString(param)
    modifies buffer
    ensures end <= LAST
    ensures buffer[..end] == Put(old(buffer[..stream]), Quote(param))
  {
    ghost var start := buffer[..stream];
    end := StrECopy(buffer, stream, "\"");
    end := StrECopy(buffer, end, param);
    end := StrECopy(buffer, end, "\"");
    PutPut(start, "\"", param);
    PutPut(start, "\"" + param, "\"");
  }

  /**
   * One pass of the expansion loop at a character other than `;`: the
   * `'`, `%` and plain-character cases, writing into the buffer. Returns
   * whether a `%X` named no parameter, and otherwise the new end of the
   * buffer and where the loop goes on.
   */
  method CopyPass(buffer: array<char>, stream: nat, cmd: string, j: nat, params: seq<string>, ghost lines: seq<string>)
    returns (failed: bool, end: nat, next: nat)
    requires buffer.Length == STREAM_SIZE && stream < OVERFLOW_AT
    requires j < |cmd| && cmd[j] != ';' && cmd[j] != '\0' && AllCStrings(params)
    requires IsCString(buffer[..stream])
    modifies buffer
    ensures failed <==> ExpandPass(cmd, params, j, old(buffer[..stream])).Fail?
    ensures !failed ==> end <= LAST && IsCString(buffer[..end])
    ensures !failed ==> ExpandPass(cmd, params, j, old(buffer[..stream])) == Continue(buffer[..end], next)
    ensures failed ==> ExpandFrom(cmd, params, j, old(buffer[..stream]), lines) == Expansion(lines, Some(BadParams))
    ensures !failed && end >= OVERFLOW_AT ==>
      ExpandFrom(cmd, params, j, old(buffer[..stream]), lines) == Expansion(lines, Some(WouldOverflow))
    ensures !failed && end < OVERFLOW_AT ==>
      ExpandFrom(cmd, params, j, old(buffer[..stream]), lines) == ExpandFrom(cmd, params, next, buffer[..end], lines)
  {
    ghost var buf := buffer[..stream];
    PassCString(cmd, params, j, buf);
    failed := false;
    var c := cmd[j];
    next := j + 1;
    if c == '\'' {
      end := StrECopy(buffer, stream, "\"");
    } else if c == '%' {
      next := j + 2;
      var x := if j + 1 < |cmd| then cmd[j + 1] else '\0';
      if x == '+' {
        end := PutEachQuoted(buffer, stream, params);
      } else if x == '!' {
        end := PutAllQuoted(buffer, stream, params);
      } else {
        var p := SignedChar(x) - 'A' as int;
        if p < 0 || p >= |params| {
          return true, stream, next;
        }
        end := PutQuoted(buffer, stream, params[p]);
      }
    } else {
      buffer[stream] := c;
      end := stream + 1;
      buffer[end] := '\0';
      assert buffer[..end] == buf + [c];
    }
  }
}
