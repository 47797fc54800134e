/**
 * The console's command and alias registries and the execution of a
 * command line: `IConsoleCmdExec` (comment and character checks, then the
 * tokenizer), `IConsoleCmdExecTokens` (dispatch to a command or an alias)
 * and `IConsoleAliasExec` (expansion, running each command it yields).
 *
 * What execution does is recorded as a sequence of events: a command
 * procedure called with its tokens, the help call that follows a failed
 * one, or an error message. Command procedures and hooks are code outside
 * the console; their answers are parameters of the console, and the
 * registries do not change while a line runs.
 */
module ConsoleExec {
  import opened Types
  import opened ConsoleText
  import opened ConsoleLex
  import opened ConsoleAlias

  /** `ICON_MAX_RECURSE`: how deeply aliases may expand into aliases. */
  const MAX_RECURSE: nat := 10

  /** Identities of command procedures and hooks (function pointers in the source). */
  type ProcId = nat
  type HookId = nat

  datatype HookResult = Allow | Disallow | Hide

  datatype Cmd = Cmd(name: string, proc: ProcId, hook: Option<HookId>, unlisted: bool)

  datatype Alias = Alias(name: string, cmdline: string)

  datatype ErrorKind =
    /** "command contains malformed characters, aborting" */
    | Malformed
    /** "command line too long" */
    | LineTooLong
    /** "Too many alias expansions, recursion limit reached. Aborting" */
    | RecursionLimit
    /** expansion of an alias stopped early */
    | AliasFailed(why: Failure)
    /** "command not found" */
    | NotFound
    /** "an alias with this name already exists; insertion aborted" */
    | DuplicateAlias

  datatype Event =
    /** the command procedure called with the tokens */
    | Invoke(proc: ProcId, args: seq<string>)
    /** the procedure called with no tokens, to print its help */
    | Help(proc: ProcId)
    | Error(kind: ErrorKind)

  /**
   * What execution depends on: the registries, whether a procedure
   * succeeds on given tokens, what a hook answers, and which characters
   * `IsValidChar(c, CS_ALPHANUMERAL)` accepts.
   */
  datatype Env = Env(
    commands: map<string, Cmd>,
    aliases: map<string, Alias>,
    procSucceeds: (ProcId, seq<string>) -> bool,
    hookVerdict: HookId -> HookResult,
    validChar: char -> bool)

  /** Look-up by the underscore-free name, as `CmdGet` and `AliasGet` do. */
  function Lookup<T>(m: map<string, T>, name: string): (r: Option<T>)
    ensures r.Some? <==> RemoveUnderscores(name) in m
    ensures r.Some? ==> r.value == m[RemoveUnderscores(name)]
  {
    var key := RemoveUnderscores(name);
    if key in m then Some(m[key]) else None
  }

  /** An underscore in a name changes nothing about what it finds. */
  lemma LookupIgnoresUnderscores<T>(m: map<string, T>, a: string, b: string)
    ensures Lookup(m, a + "_" + b) == Lookup(m, a + b)
  {
    UnderscoresIgnored(a, b);
  }

  /** What a command's hook answers; a command without a hook is allowed. */
  function Verdict(env: Env, c: Cmd): HookResult {
    if c.hook.None? then Allow else env.hookVerdict(c.hook.value)
  }

  /** Alias expansions left before the recursion limit: the termination measure. */
  function Depth(r: nat): nat {
    if r > MAX_RECURSE + 1 then 0 else MAX_RECURSE + 2 - r
  }

  predicate HasInvalidChar(env: Env, line: string) {
    exists k :: 0 <= k < |line| && !env.validChar(line[k])
  }

  /** The events of `IConsoleCmdExec(line, r)`. */
  function RunLine(env: Env, line: string, r: nat): seq<Event>
    decreases Depth(r), 3, 0
  {
    if |line| > 0 && line[0] == '#' then [] // a comment
    else if HasInvalidChar(env, line) then [Error(Malformed)]
    else match Lex(line)
      case TooLong => [Error(LineTooLong)]
      case Lexed(tokens) => RunTokens(env, tokens, r)
  }

  /** The events of `IConsoleCmdExecTokens(|tokens|, tokens, r)`. */
  function RunTokens(env: Env, tokens: seq<string>, r: nat): seq<Event>
    decreases Depth(r), 2, 0
  {
    if tokens == [] || tokens[0] == "" then []
    else
      var cmd := Lookup(env.commands, tokens[0]);
      if cmd.Some? && Verdict(env, cmd.value) == Allow then
        var proc := cmd.value.proc;
        [Invoke(proc, tokens)] + (if env.procSucceeds(proc, tokens) then [] else [Help(proc)])
      else if cmd.Some? && Verdict(env, cmd.value) == Disallow then []
      else
        // no command, or a hidden one: try the aliases
        var alias := Lookup(env.aliases, tokens[0]);
        if alias.Some? then RunAlias(env, alias.value, tokens[1..], r + 1)
        else [Error(NotFound)]
  }

  /** The events of `IConsoleAliasExec(alias, |params|, params, r)`. */
  function RunAlias(env: Env, alias: Alias, params: seq<string>, r: nat): seq<Event>
    decreases if r > MAX_RECURSE then 0 else Depth(r) + 1, 1, 0
  {
    if r > MAX_RECURSE then [Error(RecursionLimit)]
    else
      var e := Expand(alias.cmdline, params);
      RunLines(env, e.lines, r) + (if e.failure.Some? then [Error(AliasFailed(e.failure.value))] else [])
  }

  /** The events of running each line in turn. */
  function RunLines(env: Env, lines: seq<string>, r: nat): seq<Event>
    decreases Depth(r), 4, |lines|
  {
    if lines == [] then []
    else RunLines(env, lines[..|lines| - 1], r) + RunLine(env, lines[|lines| - 1], r)
  }

  /** A `;` runs the buffer and starts an empty one two characters on. */
  lemma FlushStep(cmd: string, params: seq<string>, j: nat, buf: string, lines: seq<string>)
    requires j < |cmd| && cmd[j] == ';' && |buf| < OVERFLOW_AT
    ensures ExpandFrom(cmd, params, j, buf, lines) == ExpandFrom(cmd, params, j + 2, "", lines + [buf])
  {
  }

  /** An alias whose expansion stops early runs the lines before the failure, then reports it. */
  lemma AliasStops(env: Env, alias: Alias, params: seq<string>, r: nat, lines: seq<string>, why: Failure)
    requires r <= MAX_RECURSE && Expand(alias.cmdline, params) == Expansion(lines, Some(why))
    ensures RunAlias(env, alias, params, r) == RunLines(env, lines, r) + [Error(AliasFailed(why))]
  {
  }

  /** An alias whose expansion completes runs every line, the last one included. */
  lemma AliasCompletes(env: Env, alias: Alias, params: seq<string>, r: nat, lines: seq<string>)
    requires r <= MAX_RECURSE && Expand(alias.cmdline, params) == Expansion(lines, None)
    ensures RunAlias(env, alias, params, r) == RunLines(env, lines, r)
  {
  }

  /** A comment line does nothing; a line with a character the console refuses is reported and not run. */
  lemma LineChecks(env: Env, line: string, r: nat)
    ensures |line| > 0 && line[0] == '#' ==> RunLine(env, line, r) == []
    ensures (|line| == 0 || line[0] != '#') && (exists k :: 0 <= k < |line| && !env.validChar(line[k])) ==>
      RunLine(env, line, r) == [Error(Malformed)]
  {
  }

  /**
   * Commands are tried before aliases: an allowed command runs even when an
   * alias has the same name, and a hidden command is passed over, so the
   * alias of that name runs, or the name is reported as not found.
   */
  lemma CommandsBeforeAliases(env: Env, tokens: seq<string>, r: nat)
    requires |tokens| > 0 && tokens[0] != ""
    ensures var cmd := Lookup(env.commands, tokens[0]);
      cmd.Some? && Verdict(env, cmd.value) == Allow ==> RunTokens(env, tokens, r)[0] == Invoke(cmd.value.proc, tokens)
    ensures var cmd := Lookup(env.commands, tokens[0]);
      var alias := Lookup(env.aliases, tokens[0]);
      (cmd.None? || Verdict(env, cmd.value) == Hide) ==>
        RunTokens(env, tokens, r) == (if alias.Some? then RunAlias(env, alias.value, tokens[1..], r + 1) else [Error(NotFound)])
  {
  }

  /**
   * An alias whose command line is its own name, with no command of that
   * name, calls itself until the recursion limit stops it: the only event is
   * the one error, and nothing is run.
   */
  lemma {:induction false} SelfAliasHitsLimit(env: Env, name: string, r: nat)
    requires 0 < |name| < OVERFLOW_AT && name[0] != '#' && IsWord(name)
    requires forall k :: 0 <= k < |name| ==> Plain(name[k]) && env.validChar(name[k])
    requires Lookup(env.commands, name).None? && Lookup(env.aliases, name) == Some(Alias(name, name))
    ensures RunAlias(env, Alias(name, name), [], r) == [Error(RecursionLimit)]
    decreases MAX_RECURSE + 1 - r
  {
    if r <= MAX_RECURSE {
      PlainAliasIsOneCommand(name, []);
      OneWord(name);
      assert RunLines(env, [name], r) == RunLine(env, name, r) by {
        assert [name][..0] == [];
      }
      assert [name][1..] == [];
      SelfAliasHitsLimit(env, name, r + 1);
    }
  }

  /**
   * The console: the two registries, keyed by the underscore-free name,
   * and the events produced so far.
   */
  class Console {
    var commands: map<string, Cmd>
    var aliases: map<string, Alias>
    var events: seq<Event>
    const procSucceeds: (ProcId, seq<string>) -> bool
    const hookVerdict: HookId -> HookResult
    const validChar: char -> bool

    constructor (procSucceeds: (ProcId, seq<string>) -> bool, hookVerdict: HookId -> HookResult, validChar: char -> bool)
      ensures commands == map[] && aliases == map[] && events == []
      ensures this.procSucceeds == procSucceeds && this.hookVerdict == hookVerdict && this.validChar == validChar
    {
      commands, aliases, events := map[], map[], [];
      this.procSucceeds, this.hookVerdict, this.validChar := procSucceeds, hookVerdict, validChar;
    }

    function Context(): Env
      reads this`commands, this`aliases
    {
      Env(commands, aliases, procSucceeds, hookVerdict, validChar)
    }

    /** `CmdRegister`: the first command registered under a key stays. */
    method CmdRegister(name: string, proc: ProcId, hook: Option<HookId>, unlisted: bool)
      modifies this`commands
      ensures commands == TryEmplace(old(commands), RemoveUnderscores(name), Cmd(name, proc, hook, unlisted))
    {
      commands := TryEmplace(commands, RemoveUnderscores(name), Cmd(name, proc, hook, unlisted));
    }

    /** `CmdGet`: the command registered under the underscore-free name. */
    function CmdGet(name: string): (r: Option<Cmd>)
      reads this`commands
      ensures r.Some? <==> RemoveUnderscores(name) in commands
      ensures r.Some? ==> r.value == commands[RemoveUnderscores(name)]
    {
      Lookup(commands, name)
    }

    /**
     * `AliasRegister`: the first alias registered under a key stays; a
     * second one is refused with an error.
     */
    method AliasRegister(name: string, cmd: string)
      modifies this`aliases, this`events
      ensures var key := RemoveUnderscores(name);
        && (key in old(aliases) ==> aliases == old(aliases) && events == old(events) + [Error(DuplicateAlias)])
        && (key !in old(aliases) ==> aliases == old(aliases)[key := Alias(name, cmd)] && events == old(events))
    {
      var key := RemoveUnderscores(name);
      var inserted := key !in aliases;
      aliases := TryEmplace(aliases, key, Alias(name, cmd));
      if !inserted {
        events := events + [Error(DuplicateAlias)];
      }
    }

    /** `AliasGet`: the alias registered under the underscore-free name. */
    function AliasGet(name: string): (r: Option<Alias>)
      reads this`aliases
      ensures r.Some? <==> RemoveUnderscores(name) in aliases
      ensures r.Some? ==> r.value == aliases[RemoveUnderscores(name)]
    {
      Lookup(aliases, name)
    }

    /** `IConsoleCmdExec`: check the line, split it into tokens and run them. */
    method Exec(line: string, r: nat)
      requires IsCString(line)
      modifies this`events
      ensures events == old(events) + RunLine(Context(), line, r)
      decreases Depth(r), 3, 0
    {
      if |line| > 0 && line[0] == '#' {
        return;
      }
      var k := 0;
      while k < |line|
        invariant k <= |line| && events == old(events)
        invariant forall m :: 0 <= m < k ==> validChar(line[m])
      {
        if !validChar(line[k]) {
          events := events + [Error(Malformed)];
          return;
        }
        k := k + 1;
      }
      var lexed := Tokenize(line);
      if lexed.TooLong? {
        events := events + [Error(LineTooLong)];
        return;
      }
      LexCString(line);
      ExecTokens(lexed.tokens, r);
    }

    /** `IConsoleCmdExecTokens`: commands first, then aliases. */
    method ExecTokens(tokens: seq<string>, r: nat)
      requires AllCStrings(tokens)
      modifies this`events
      ensures events == old(events) + RunTokens(Context(), tokens, r)
      decreases Depth(r), 2, 0
    {
      if |tokens| == 0 || tokens[0] == "" {
        return;
      }
      var cmd := CmdGet(tokens[0]);
      if cmd.Some? {
        var chr := if cmd.value.hook.None? then Allow else hookVerdict(cmd.value.hook.value);
        match chr {
          case Allow =>
            events := events + [Invoke(cmd.value.proc, tokens)];
            if !procSucceeds(cmd.value.proc, tokens) {
              events := events + [Help(cmd.value.proc)];
            }
            return;
          case Disallow =>
            return;
          case Hide =>
        }
      }
      var alias := AliasGet(tokens[0]);
      if alias.Some? {
        AliasExec(alias.value, tokens[1..], r + 1);
        return;
      }
      events := events + [Error(NotFound)];
    }

    /** One more line of an alias run: its events follow those of the lines before it. */
    method ExecNext(line: string, ghost lines: seq<string>, ghost before: seq<Event>, r: nat)
      requires IsCString(line)
      requires events == before + RunLines(Context(), lines, r)
      modifies this`events
      ensures events == before + RunLines(Context(), lines + [line], r)
      decreases Depth(r), 3, 1
    {
      assert (lines + [line])[..|lines|] == lines;
      Exec(line, r);
    }

    /**
     * `IConsoleAliasExec`: the alias's command line copied into a buffer,
     * each `;` running the buffer as a command line, and the rest run at
     * the end.
     */
    method AliasExec(alias: Alias, params: seq<string>, r: nat)
      requires AllCStrings(params)
      modifies this`events
      ensures events == old(events) + RunAlias(Context(), alias, params, r)
      decreases if r > MAX_RECURSE then 0 else Depth(r) + 1, 1, 0
    {
      if r > MAX_RECURSE {
        events := events + [Error(RecursionLimit)];
        return;
      }
      var cmd := alias.cmdline;
      var buffer := new char[STREAM_SIZE](_ => '\0');
      var stream: nat := 0;
      var j: nat := 0;
      ghost var lines: seq<string> := [];
      ghost var env := Context();
      while j < |cmd| && cmd[j] != '\0'
        invariant stream < OVERFLOW_AT && IsCString(buffer[..stream])
        invariant ExpandFrom(cmd, params, j, buffer[..stream], lines) == Expand(cmd, params)
        invariant Context() == env
        invariant events == old(events) + RunLines(env, lines, r)
        decreases |cmd| - j
      {
        var buf := buffer[..stream];
        if cmd[j] == ';' {
          FlushStep(cmd, params, j, buf, lines);
          ExecNext(buf, lines, old(events), r);
          lines := lines + [buf];
          stream := 0;
          buffer[0] := '\0';
          assert buffer[..stream] == "";
          j := j + 2; // the character after ';' is skipped
          continue;
        }
        var failed, end, next := CopyPass(buffer, stream, cmd, j, params, lines);
        if failed {
          AliasStops(env, alias, params, r, lines, BadParams);
          events := events + [Error(AliasFailed(BadParams))];
          return;
        }
        stream, j := end, next;
        if stream >= OVERFLOW_AT {
          AliasStops(env, alias, params, r, lines, WouldOverflow);
          events := events + [Error(AliasFailed(WouldOverflow))];
          return;
        }
      }
      var last := buffer[..stream];
      assert ExpandFrom(cmd, params, j, last, lines) == Expansion(lines + [last], None);
      AliasCompletes(env, alias, params, r, lines + [last]);
      ExecNext(last, lines, old(events), r);
    }
  }
}
