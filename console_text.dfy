/**
 * The console's small string helpers: the underscore-insensitive key of a
 * command or alias name, and the parsing of an integer argument.
 */
module ConsoleText {

  /** `RemoveUnderscores`: the name with every '_' removed, the other characters kept in order. */
  function RemoveUnderscores(name: string): (r: string)
    ensures |r| <= |name|
    ensures forall c :: c in r <==> c in name && c != '_'
  {
    if name == [] then []
    else
      var last := name[|name| - 1];
      RemoveUnderscores(name[..|name| - 1]) + (if last == '_' then [] else [last])
  }

  /** Removing underscores distributes over concatenation. */
  lemma {:induction false} RemoveUnderscoresAppend(a: string, b: string)
    ensures RemoveUnderscores(a + b) == RemoveUnderscores(a) + RemoveUnderscores(b)
    decreases |b|
  {
    if b == [] {
      assert a + b == a;
    } else {
      assert (a + b)[..|a + b| - 1] == a + b[..|b| - 1];
      RemoveUnderscoresAppend(a, b[..|b| - 1]);
    }
  }

  /** A name without underscores is its own key. */
  lemma {:induction false} RemoveUnderscoresKeeps(name: string)
    requires '_' !in name
    ensures RemoveUnderscores(name) == name
  {
    if name != [] {
      assert '_' !in name[..|name| - 1];
      RemoveUnderscoresKeeps(name[..|name| - 1]);
    }
  }

  /** Stripping twice is stripping once. */
  lemma RemoveUnderscoresIdempotent(name: string)
    ensures RemoveUnderscores(RemoveUnderscores(name)) == RemoveUnderscores(name)
  {
    RemoveUnderscoresKeeps(RemoveUnderscores(name));
  }

  /** The characters dropped are exactly the underscores. */
  function Underscores(name: string): nat {
    if name == [] then 0 else Underscores(name[..|name| - 1]) + (if name[|name| - 1] == '_' then 1 else 0)
  }

  lemma {:induction false} RemoveUnderscoresLength(name: string)
    ensures |RemoveUnderscores(name)| == |name| - Underscores(name)
  {
    if name != [] {
      RemoveUnderscoresLength(name[..|name| - 1]);
    }
  }

  /** Two names that differ only in underscores reach the same key. */
  lemma UnderscoresIgnored(a: string, b: string)
    ensures RemoveUnderscores(a + "_" + b) == RemoveUnderscores(a + b)
  {
    RemoveUnderscoresAppend(a + "_", b);
    RemoveUnderscoresAppend(a, "_");
    RemoveUnderscoresAppend(a, b);
    assert RemoveUnderscores("_") == [];
  }

  // ---------------------------------------------------------------------
  // Integer arguments.

  const UINT32_LIMIT: nat := 0x1_0000_0000

  /**
   * The result of the C library's `strtoul` on a string with base 0: the
   * value read, and how many characters it consumed (0 when the string does
   * not start with a number). The conversion itself is a library routine
   * and is a parameter here.
   */
  datatype StrToUL = StrToUL(value: nat, consumed: nat)

  /** Whether the argument was understood, and the value stored in the 32-bit output. */
  datatype ArgValue = ArgValue(ok: bool, value: nat)

  /**
   * `GetArgumentInteger`: the keywords "on"/"true" and "off"/"false", or
   * else the number `strtoul` reads, truncated to 32 bits on assignment.
   */
  function GetArgumentInteger(arg: string, strtoul: string -> StrToUL): (r: ArgValue)
    ensures r.value < UINT32_LIMIT
    ensures (arg == "on" || arg == "true") ==> r == ArgValue(true, 1)
    ensures (arg == "off" || arg == "false") ==> r == ArgValue(true, 0)
    ensures arg !in {"on", "true", "off", "false"} ==>
      (r.ok <==> strtoul(arg).consumed > 0) && r.value == strtoul(arg).value % UINT32_LIMIT
  {
    if arg == "on" || arg == "true" then ArgValue(true, 1)
    else if arg == "off" || arg == "false" then ArgValue(true, 0)
    else
      var n := strtoul(arg);
      ArgValue(n.consumed > 0, n.value % UINT32_LIMIT)
  }

  /** A keyword never reaches the numeric conversion: its value does not depend on it. */
  lemma KeywordsIgnoreConversion(arg: string, f: string -> StrToUL, g: string -> StrToUL)
    requires arg in {"on", "true", "off", "false"}
    ensures GetArgumentInteger(arg, f) == GetArgumentInteger(arg, g)
    ensures GetArgumentInteger(arg, f).ok
  {
  }
}
