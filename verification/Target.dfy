/** The target node of a migration, read from the argv of its process
    (parseMigrateTarget and its helpers, internal/enrich/enrich.go). */
module Target {
  import opened Text

  predicate NodeChar(c: char) {
    'a' <= c <= 'z' || 'A' <= c <= 'Z' || '0' <= c <= '9' || c == '-' || c == '_' || c == '.'
  }

  predicate LooksLikeNode(s: string) {
    s != "" && s[0] != '-' && Atoi(s).None? && forall c <- s :: NodeChar(c)
  }

  function SplitKV(s: string): Option<(string, string)> {
    var (key, val, found) := Cut(s, '=');
    var k, v := TrimLeft(TrimSpace(key), {'-'}), TrimSpace(val);
    if !found || k == "" || v == "" then None else Some((k, v))
  }

  predicate AfterKey(k: string) { k in {"target", "targetnode", "target_node", "node"} }
  predicate OptionKey(k: string) { AfterKey(k) || k == "to" }
  predicate OptionFlag(s: string) { s in {"--target", "-target", "--target-node", "--targetnode", "--to"} }

  /** What the option pass takes from an argument and the one after it. */
  function OptionOf(raw: string, next: string): string {
    var arg := TrimSpace(raw);
    var kv := SplitKV(arg);
    if arg == "" then ""
    else if kv.Some? && OptionKey(Lower(kv.value.0)) && LooksLikeNode(kv.value.1) then kv.value.1
    else if OptionFlag(Lower(arg)) && LooksLikeNode(next) then next
    else ""
  }

  function OptionHere(args: seq<string>): string
    requires args != []
  {
    OptionOf(args[0], if |args| > 1 then args[1] else "")
  }

  function TargetOption(args: seq<string>): string {
    if args == [] then ""
    else if OptionHere(args) != "" then OptionHere(args)
    else TargetOption(args[1..])
  }

  /** The scan after the migrate word, without the option pass before it. With
      `kv` it also returns the value of a target key. */
  function Positional(args: seq<string>, seenVMID: bool, kv: bool): string {
    if args == [] then ""
    else
      var arg, rest := args[0], args[1..];
      var pair := SplitKV(arg);
      if arg == "" || arg[0] == '-' then Positional(rest, seenVMID, kv)
      else if pair.Some? then
        var (k, v) := pair.value;
        if kv && AfterKey(Lower(k)) && LooksLikeNode(v) then v
        else Positional(rest, seenVMID || ((Lower(k) == "vmid" || Lower(k) == "id") && Atoi(v).Some?), kv)
      else if !seenVMID then Positional(rest, Atoi(arg).Some?, kv)
      else if LooksLikeNode(arg) then arg
      else Positional(rest, seenVMID, kv)
  }

  function TargetAfterMigrate(args: seq<string>): string {
    if TargetOption(args) != "" then TargetOption(args) else Positional(args, false, true)
  }

  function Base(arg: string): string {
    Lower(LastPathElement(arg))
  }

  function LastPathElement(s: string): (r: string)
    ensures Free(r, '/')
  {
    if s == "" then ""
    else if Free(s, '/') then s
    else LastPathElement(s[1..])
  }

  predicate TwoWordTool(b: string) { b == "qm" || b == "pct" }
  predicate OneWordTool(b: string) { b == "qmigrate" || b == "vzmigrate" }

  /** The arguments after the migrate command that `args` starts with, if any. */
  function CommandTail(args: seq<string>): Option<seq<string>>
    requires args != []
  {
    var b := Base(args[0]);
    if TwoWordTool(b) then
      if |args| > 1 && EqualFold(args[1], "migrate") then Some(args[2..]) else None
    else if OneWordTool(b) then Some(args[1..])
    else None
  }

  /** The two search loops, over a reading `after` of the remaining arguments. */
  function CommandSearch(args: seq<string>, after: seq<string> -> string): string {
    if args == [] then ""
    else
      var tail := CommandTail(args);
      if tail.Some? && after(tail.value) != "" then after(tail.value) else CommandSearch(args[1..], after)
  }

  function WordSearch(args: seq<string>, after: seq<string> -> string): string {
    if args == [] then ""
    else if EqualFold(args[0], "migrate") && after(args[1..]) != "" then after(args[1..])
    else WordSearch(args[1..], after)
  }

  function SearchWith(args: seq<string>, after: seq<string> -> string): string {
    if TargetOption(args) != "" then TargetOption(args)
    else if CommandSearch(args, after) != "" then CommandSearch(args, after)
    else WordSearch(args, after)
  }

  function MigrateTarget(args: seq<string>): string { SearchWith(args, TargetAfterMigrate) }

  function SplitCmdline(b: string): seq<string> {
    NonEmpty(Split(b, '\0'))
  }

  function NonEmpty(parts: seq<string>): seq<string> {
    if parts == [] then []
    else (if parts[0] != "" then [parts[0]] else []) + NonEmpty(parts[1..])
  }

  // ---- the scanning loops ----

  method ParseTargetOption(args: seq<string>) returns (target: string)
    ensures target == TargetOption(args)
  {
    for i := 0 to |args|
      invariant TargetOption(args) == TargetOption(args[i..])
    {
      assert args[i..][0] == args[i] && args[i..][1..] == args[i + 1..];
      var arg := TrimSpace(args[i]);
      if arg == "" {
        continue;
      }
      var kv := SplitKV(arg);
      if kv.Some? && OptionKey(Lower(kv.value.0)) {
        if LooksLikeNode(kv.value.1) {
          return kv.value.1;
        }
      }
      if OptionFlag(Lower(arg)) {
        if i + 1 < |args| && LooksLikeNode(args[i + 1]) {
          assert args[i..][1] == args[i + 1];
          return args[i + 1];
        }
      }
    }
    return "";
  }

  method ParseTargetAfterMigrate(args: seq<string>) returns (target: string)
    ensures target == TargetAfterMigrate(args)
  {
    target := ParseTargetOption(args);
    if target != "" {
      return;
    }
    var seenVMID := false;
    for i := 0 to |args|
      invariant Positional(args, false, true) == Positional(args[i..], seenVMID, true)
    {
      assert args[i..][0] == args[i] && args[i..][1..] == args[i + 1..];
      var arg := args[i];
      if arg == "" || arg[0] == '-' {
        continue;
      }
      var kv := SplitKV(arg);
      if kv.Some? {
        var (k, v) := kv.value;
        if AfterKey(Lower(k)) {
          if LooksLikeNode(v) {
            return v;
          }
        } else if Lower(k) == "vmid" || Lower(k) == "id" {
          if Atoi(v).Some? {
            seenVMID := true;
          }
        }
        continue;
      }
      if !seenVMID {
        if Atoi(arg).Some? {
          seenVMID := true;
        }
        continue;
      }
      if LooksLikeNode(arg) {
        return arg;
      }
    }
    return "";
  }

  method ParseMigrateTarget(args: seq<string>) returns (target: string)
    ensures target == MigrateTarget(args)
  {
    if |args| == 0 {
      return "";
    }
    target := ParseTargetOption(args);
    if target != "" {
      return;
    }
    for i := 0 to |args|
      invariant CommandSearch(args, TargetAfterMigrate) == CommandSearch(args[i..], TargetAfterMigrate)
    {
      assert args[i..][0] == args[i] && args[i..][1..] == args[i + 1..];
      var base := Base(args[i]);
      if TwoWordTool(base) {
        if i + 1 < |args| && EqualFold(args[i + 1], "migrate") {
          assert args[i..][1] == args[i + 1] && args[i..][2..] == args[i + 2..];
          target := ParseTargetAfterMigrate(args[i + 2..]);
          if target != "" {
            return;
          }
        }
      } else if OneWordTool(base) {
        target := ParseTargetAfterMigrate(args[i + 1..]);
        if target != "" {
          return;
        }
      }
    }
    for i := 0 to |args|
      invariant WordSearch(args, TargetAfterMigrate) == WordSearch(args[i..], TargetAfterMigrate)
    {
      assert args[i..][0] == args[i] && args[i..][1..] == args[i + 1..];
      if EqualFold(args[i], "migrate") {
        target := ParseTargetAfterMigrate(args[i + 1..]);
        if target != "" {
          return;
        }
      }
    }
    return "";
  }

  // ---- where a result comes from ----

  /** An argument, or the value of a `key=value` argument, that looks like a node. */
  predicate Source(args: seq<string>, t: string) {
    LooksLikeNode(t)
    && (t in args
        || exists a <- args :: SplitKV(TrimSpace(a)).Some? && SplitKV(TrimSpace(a)).value.1 == t)
  }

  lemma SourceOfTail(args: seq<string>, i: nat, t: string)
    requires i <= |args| && Source(args[i..], t)
    ensures Source(args, t)
  {
  }

  lemma {:induction false} OptionSource(args: seq<string>)
    ensures TargetOption(args) != "" ==> Source(args, TargetOption(args))
  {
    if args != [] {
      if OptionHere(args) != "" {
        assert args[0] in args;
        if |args| > 1 { assert args[1] in args; }
      } else {
        OptionSource(args[1..]);
        if TargetOption(args) != "" { SourceOfTail(args, 1, TargetOption(args)); }
      }
    }
  }

  lemma {:induction false} PositionalSource(args: seq<string>, seenVMID: bool, kv: bool)
    ensures Positional(args, seenVMID, kv) != "" ==> Source(args, Positional(args, seenVMID, kv))
  {
    if args != [] {
      var arg := args[0];
      var pair := SplitKV(arg);
      KVTrim(arg);
      assert arg in args;
      PositionalSource(args[1..], seenVMID, kv);
      if pair.Some? {
        var (k, v) := pair.value;
        PositionalSource(args[1..], seenVMID || ((Lower(k) == "vmid" || Lower(k) == "id") && Atoi(v).Some?), kv);
      } else {
        PositionalSource(args[1..], Atoi(arg).Some?, kv);
      }
      forall t | Source(args[1..], t) ensures Source(args, t) { SourceOfTail(args, 1, t); }
    }
  }

  lemma AfterSource(args: seq<string>)
    ensures TargetAfterMigrate(args) != "" ==> Source(args, TargetAfterMigrate(args))
  {
    OptionSource(args);
    PositionalSource(args, false, true);
  }

  lemma AfterSourceAt(args: seq<string>, i: nat)
    requires i <= |args| && TargetAfterMigrate(args[i..]) != ""
    ensures Source(args, TargetAfterMigrate(args[i..]))
  {
    AfterSource(args[i..]);
    SourceOfTail(args, i, TargetAfterMigrate(args[i..]));
  }

  lemma {:induction false} CommandSource(args: seq<string>)
    ensures CommandSearch(args, TargetAfterMigrate) != "" ==> Source(args, CommandSearch(args, TargetAfterMigrate))
  {
    if args != [] && CommandSearch(args, TargetAfterMigrate) != "" {
      var tail := CommandTail(args);
      if tail.Some? && TargetAfterMigrate(tail.value) != "" {
        AfterSourceAt(args, if tail.value == args[1..] then 1 else 2);
      } else {
        CommandSource(args[1..]);
        SourceOfTail(args, 1, CommandSearch(args, TargetAfterMigrate));
      }
    }
  }

  lemma {:induction false} WordSource(args: seq<string>)
    ensures WordSearch(args, TargetAfterMigrate) != "" ==> Source(args, WordSearch(args, TargetAfterMigrate))
  {
    if args != [] && WordSearch(args, TargetAfterMigrate) != "" {
      if EqualFold(args[0], "migrate") && TargetAfterMigrate(args[1..]) != "" {
        AfterSourceAt(args, 1);
      } else {
        WordSource(args[1..]);
        SourceOfTail(args, 1, WordSearch(args, TargetAfterMigrate));
      }
    }
  }

  /** On every argv a non-empty result looks like a node name and is either an
      argument or the trimmed value of a `key=value` argument. */
  lemma TargetSource(args: seq<string>)
    ensures MigrateTarget(args) != "" ==> Source(args, MigrateTarget(args))
  {
    OptionSource(args);
    CommandSource(args);
    WordSource(args);
  }

  // ---- the inner option passes are redundant ----

  lemma {:induction false} IndexShift(p: string, s: string, c: char)
    requires Free(p, c)
    ensures Index(p + s, c) == |p| + Index(s, c)
  {
    if p == "" {
      assert p + s == s;
    } else {
      assert (p + s)[1..] == p[1..] + s;
      IndexShift(p[1..], s, c);
    }
  }

  lemma {:induction false} TrimLeftParts(s: string) returns (p: string)
    ensures s == p + TrimLeft(s, SPACES) && forall c <- p :: IsSpace(c)
  {
    if s != "" && s[0] in SPACES {
      p := TrimLeftParts(s[1..]);
      p := [s[0]] + p;
    } else {
      p := "";
      assert s == p + s;
    }
  }

  lemma {:induction false} TrimRightParts(s: string) returns (p: string)
    ensures s == TrimRight(s, SPACES) + p && forall c <- p :: IsSpace(c)
  {
    if s != "" && s[|s| - 1] in SPACES {
      p := TrimRightParts(s[..|s| - 1]);
      p := p + [s[|s| - 1]];
      assert s == s[..|s| - 1] + [s[|s| - 1]];
    } else {
      p := "";
      assert s == s + p;
    }
  }

  lemma TrimSpaceLeading(p: string, s: string)
    requires forall c <- p :: IsSpace(c)
    ensures TrimSpace(p + s) == TrimSpace(s)
  {
    TrimLeftSkips(p, s);
  }

  /** Trimming an argument does not change its key and value. */
  lemma KVTrim(s: string)
    ensures SplitKV(TrimSpace(s)) == SplitKV(s)
  {
    var l := TrimLeft(s, SPACES);
    var p := TrimLeftParts(s);
    var q := TrimRightParts(l);
    KVLeading(p, l);
    KVTrailing(TrimRight(l, SPACES), q);
  }

  lemma KVLeading(p: string, s: string)
    requires forall c <- p :: IsSpace(c)
    ensures SplitKV(p + s) == SplitKV(s)
  {
    IndexShift(p, s, '=');
    var i := Index(s, '=');
    TrimSpaceLeading(p, s[..i]);
    assert (p + s)[..|p| + i] == p + s[..i];
    if i < |s| { assert (p + s)[|p| + i + 1..] == s[i + 1..]; }
  }

  lemma {:induction false} IndexKeeps(s: string, p: string, c: char)
    requires Free(p, c)
    ensures Index(s + p, c) == if Index(s, c) < |s| then Index(s, c) else |s| + |p|
  {
    if s == "" {
      assert s + p == p;
      IndexAt(p, c, "");
    } else if s[0] != c {
      assert (s + p)[1..] == s[1..] + p;
      IndexKeeps(s[1..], p, c);
    }
  }

  lemma KVTrailing(s: string, p: string)
    requires forall c <- p :: IsSpace(c)
    ensures SplitKV(s + p) == SplitKV(s)
  {
    IndexKeeps(s, p, '=');
    var i := Index(s, '=');
    if i < |s| {
      assert (s + p)[..i] == s[..i];
      assert (s + p)[i + 1..] == s[i + 1..] + p;
      TrimSpaceTrailing(s[i + 1..], p);
    }
  }

  /** If the option pass finds nothing, it finds nothing in any suffix. */
  lemma {:induction false} NoOptionInSuffix(args: seq<string>, i: nat)
    requires i <= |args| && TargetOption(args) == ""
    ensures TargetOption(args[i..]) == ""
  {
    if i > 0 {
      NoOptionInSuffix(args[1..], i - 1);
      assert args[1..][i - 1..] == args[i..];
    } else {
      assert args[0..] == args;
    }
  }

  /** After an option pass that finds nothing, the key-value return never fires. */
  lemma {:induction false} KeyReturnIsDead(args: seq<string>, seenVMID: bool)
    requires TargetOption(args) == ""
    ensures Positional(args, seenVMID, true) == Positional(args, seenVMID, false)
  {
    if args != [] {
      var arg := args[0];
      var pair := SplitKV(arg);
      KVTrim(arg);
      KeyReturnIsDead(args[1..], seenVMID);
      if pair.Some? {
        var (k, v) := pair.value;
        assert SplitKV("").None?;
        assert !(OptionKey(Lower(k)) && LooksLikeNode(v));
        KeyReturnIsDead(args[1..], seenVMID || ((Lower(k) == "vmid" || Lower(k) == "id") && Atoi(v).Some?));
      } else {
        KeyReturnIsDead(args[1..], Atoi(arg).Some?);
      }
    }
  }

  function PlainAfter(args: seq<string>): string { Positional(args, false, false) }

  lemma {:induction false} AfterAgrees(args: seq<string>, i: nat)
    requires i <= |args| && TargetOption(args) == ""
    ensures TargetAfterMigrate(args[i..]) == PlainAfter(args[i..])
  {
    NoOptionInSuffix(args, i);
    KeyReturnIsDead(args[i..], false);
  }

  lemma {:induction false} WordsAgree(args: seq<string>)
    requires TargetOption(args) == ""
    ensures WordSearch(args, TargetAfterMigrate) == WordSearch(args, PlainAfter)
  {
    if args != [] {
      NoOptionInSuffix(args, 1);
      WordsAgree(args[1..]);
      AfterAgrees(args, 1);
    }
  }

  lemma {:induction false} CommandsAgree(args: seq<string>)
    requires TargetOption(args) == ""
    ensures CommandSearch(args, TargetAfterMigrate) == CommandSearch(args, PlainAfter)
  {
    if args != [] {
      NoOptionInSuffix(args, 1);
      CommandsAgree(args[1..]);
      var tail := CommandTail(args);
      if tail.Some? {
        AfterAgrees(args, if tail.value == args[1..] then 1 else 2);
        assert TargetAfterMigrate(tail.value) == PlainAfter(tail.value);
      }
    }
  }

  /** The layered search equals the one with a single option pass in front and
      purely positional readings after the migrate word. */
  lemma {:induction false} OnePassSuffices(args: seq<string>)
    ensures MigrateTarget(args) == SearchWith(args, PlainAfter)
  {
    if TargetOption(args) == "" {
      CommandsAgree(args);
      WordsAgree(args);
    }
  }

  // ---- canonical command lines ----

  lemma {:induction false} FreeFound(s: string)
    requires Free(s, '=')
    ensures SplitKV(s).None?
  {
  }

  lemma WordTrim(w: string)
    requires IsWord(w)
    ensures TrimSpace(w) == w
  {
    assert w[0] in w && w[|w| - 1] in w;
  }

  lemma FlagDash(s: string)
    requires OptionFlag(Lower(s))
    ensures s != "" && s[0] == '-' && Free(s, '/') && !Free(s, '-')
  {
  }

  /** A word that is neither a flag nor a key-value pair. */
  predicate Ordinary(w: string) { IsWord(w) && w[0] != '-' && Free(w, '=') }

  lemma OrdinaryIsNoOption(args: seq<string>)
    requires args != [] && Ordinary(args[0])
    ensures OptionHere(args) == ""
  {
    WordTrim(args[0]);
    FreeFound(args[0]);
    if OptionFlag(Lower(args[0])) { FlagDash(args[0]); }
  }

  lemma TrimKeeps(s: string, c: char)
    requires !IsSpace(c)
    ensures Free(TrimSpace(s), c) == Free(s, c)
  {
    var p := TrimLeftParts(s);
    var q := TrimRightParts(TrimLeft(s, SPACES));
    assert s == p + (TrimSpace(s) + q);
  }

  predicate Tool(b: string) { OneWordTool(b) || TwoWordTool(b) }

  lemma ToolLetters(b: string)
    requires Tool(b)
    ensures Free(b, '-') && b != Lower("migrate")
  {
    assert |Lower("migrate")| == 7;
  }

  lemma LowerKeeps(s: string, c: char)
    requires LowerChar(c) == c && !('a' <= c <= 'z')
    ensures Free(Lower(s), c) == Free(s, c)
  {
    if !Free(s, c) {
      var i :| 0 <= i < |s| && s[i] == c;
      assert Lower(s)[i] == c;
    }
    if !Free(Lower(s), c) {
      var i :| 0 <= i < |Lower(s)| && Lower(s)[i] == c;
      assert s[i] == c;
    }
  }

  /** The path of a migrate tool is neither an option flag nor the migrate word. */
  lemma ToolIsNoFlag(path: string)
    requires Tool(Base(path))
    ensures !OptionFlag(Lower(TrimSpace(path))) && !EqualFold(path, "migrate")
  {
    ToolLetters(Base(path));
    LowerKeeps("migrate", '/');
    LowerKeeps(path, '/');
    LowerKeeps(path, '-');
    TrimKeeps(path, '/');
    TrimKeeps(path, '-');
    if OptionFlag(Lower(TrimSpace(path))) {
      FlagDash(TrimSpace(path));
    }
  }

  /** The option pass over any reading `f` of an argument and the next one. */
  function Sift(f: (string, string) -> string, args: seq<string>): string {
    if args == [] then ""
    else
      var here := f(args[0], if |args| > 1 then args[1] else "");
      if here != "" then here else Sift(f, args[1..])
  }

  lemma {:induction false} OptionIsSift(args: seq<string>)
    ensures TargetOption(args) == Sift(OptionOf, args)
  {
    if args != [] { OptionIsSift(args[1..]); }
  }

  lemma {:induction false} SiftAppend(f: (string, string) -> string, a: seq<string>, b: seq<string>)
    requires Sift(f, a) == "" && Sift(f, b) == ""
    requires a != [] && b != [] ==> f(a[|a| - 1], b[0]) == ""
    ensures Sift(f, a + b) == ""
  {
    if a == [] {
      assert a + b == b;
    } else {
      SiftAppend(f, a[1..], b);
      assert (a + b)[1..] == a[1..] + b;
    }
  }

  lemma {:induction false} SiftLast(f: (string, string) -> string, a: seq<string>)
    requires a != [] && Sift(f, a) == ""
    ensures f(a[|a| - 1], "") == ""
  {
    if |a| > 1 { SiftLast(f, a[1..]); }
  }

  lemma SiftAround(f: (string, string) -> string, a: seq<string>, x: string, b: seq<string>)
    requires Sift(f, a + [x]) == "" && Sift(f, b) == ""
    requires b != [] && f(x, "") == "" ==> f(x, b[0]) == ""
    ensures Sift(f, a + ([x] + b)) == ""
  {
    SiftLast(f, a + [x]);
    SiftAppend(f, a + [x], b);
    assert a + [x] + b == a + ([x] + b);
  }

  lemma NoFlagNext(raw: string, next: string)
    requires OptionOf(raw, "") == "" && !OptionFlag(Lower(TrimSpace(raw)))
    ensures OptionOf(raw, next) == ""
  {
  }

  /** Arguments behind one that is no flag do not change what is before them. */
  lemma OptionAppend(a: seq<string>, path: string, b: seq<string>)
    requires TargetOption(a + [path]) == "" && TargetOption(b) == ""
    requires !OptionFlag(Lower(TrimSpace(path)))
    ensures TargetOption(a + ([path] + b)) == ""
  {
    OptionIsSift(a + [path]);
    OptionIsSift(b);
    OptionIsSift(a + ([path] + b));
    if b != [] && OptionOf(path, "") == "" { NoFlagNext(path, b[0]); }
    SiftAround(OptionOf, a, path, b);
  }

  lemma {:induction false} OrdinaryPrefix(w: seq<string>, rest: seq<string>)
    requires (forall x <- w :: Ordinary(x)) && TargetOption(rest) == ""
    ensures TargetOption(w + rest) == ""
  {
    if w == [] {
      assert w + rest == rest;
    } else {
      assert (w + rest)[1..] == w[1..] + rest;
      OrdinaryPrefix(w[1..], rest);
      OrdinaryIsNoOption(w + rest);
    }
  }

  /** No element of the prefix starts a migrate command inside the prefix. */
  predicate NoCommand(prefix: seq<string>) {
    forall i: nat :: i < |prefix| ==> CommandTail(prefix[i..]).None?
  }

  lemma {:induction false} SkipPrefix(prefix: seq<string>, rest: seq<string>)
    requires NoCommand(prefix) && rest != [] && !EqualFold(rest[0], "migrate")
    ensures CommandSearch(prefix + rest, TargetAfterMigrate) == CommandSearch(rest, TargetAfterMigrate)
  {
    if prefix == [] {
      assert prefix + rest == rest;
    } else {
      var whole := prefix + rest;
      assert whole[1..] == prefix[1..] + rest;
      forall i: nat | i < |prefix[1..]| ensures CommandTail(prefix[1..][i..]).None? {
        assert prefix[1..][i..] == prefix[i + 1..];
      }
      SkipPrefix(prefix[1..], rest);
      assert prefix[0..] == prefix;
      assert CommandTail(prefix).None?;
      assert CommandTail(whole).None? by {
        if |prefix| > 1 { assert whole[1] == prefix[1]; } else { assert whole[1] == rest[0]; }
      }
    }
  }

  predicate IsVmid(v: string) { v != "" && AllDigits(v, 10) && Atoi(v).Some? }

  lemma VmidAndNode(vmid: string, node: string)
    requires IsVmid(vmid) && LooksLikeNode(node)
    ensures Ordinary(vmid) && Ordinary(node)
  {
    assert vmid[0] in vmid;
    forall c | c in vmid ensures !IsSpace(c) && c != '=' && c != '-' { assert DigitOf(c) < 10; }
    forall c | c in node ensures !IsSpace(c) && c != '=' { assert NodeChar(c); }
  }

  lemma VmidThenNode(vmid: string, node: string, tail: seq<string>)
    requires IsVmid(vmid) && LooksLikeNode(node) && TargetOption(tail) == ""
    ensures TargetOption([vmid, node] + tail) == ""
    ensures TargetAfterMigrate([vmid, node] + tail) == node
  {
    VmidAndNode(vmid, node);
    OrdinaryPrefix([vmid, node], tail);
    FreeFound(vmid);
    FreeFound(node);
    PositionalPair(vmid, node, tail);
  }

  lemma PositionalPair(vmid: string, node: string, tail: seq<string>)
    requires Ordinary(vmid) && Ordinary(node) && SplitKV(vmid).None? && SplitKV(node).None?
    requires Atoi(vmid).Some? && LooksLikeNode(node)
    ensures Positional([vmid, node] + tail, false, true) == node
  {
  }

  lemma {:induction false} LastOfPath(dir: string, tool: string)
    requires Free(tool, '/')
    ensures LastPathElement(dir + "/" + tool) == tool
  {
    var s := dir + "/" + tool;
    assert s[|dir|] == '/';
    if dir == "" {
      assert s[1..] == tool;
    } else {
      assert s[1..] == dir[1..] + "/" + tool;
      LastOfPath(dir[1..], tool);
    }
  }

  /** A command is recognised by its last path element, with or without a directory. */
  lemma BaseOfPath(dir: string, tool: string)
    requires Free(tool, '/')
    ensures Base(dir + "/" + tool) == Lower(tool) && Base(tool) == Lower(tool)
  {
    LastOfPath(dir, tool);
  }

  /** The arguments up to the tool hold no target and no earlier command, and those
      after the node hold no target option. */
  predicate Canonical(prefix: seq<string>, path: string, vmid: string, node: string, tail: seq<string>) {
    && NoCommand(prefix) && TargetOption(prefix + [path]) == "" && TargetOption(tail) == ""
    && IsVmid(vmid) && LooksLikeNode(node)
  }

  lemma CommandUpTo(prefix: seq<string>, path: string, rest: seq<string>)
    requires NoCommand(prefix) && Tool(Base(path))
    ensures CommandSearch(prefix + ([path] + rest), TargetAfterMigrate) == CommandSearch([path] + rest, TargetAfterMigrate)
  {
    ToolIsNoFlag(path);
    SkipPrefix(prefix, [path] + rest);
  }

  lemma OneTail(path: string, rest: seq<string>)
    requires OneWordTool(Base(path))
    ensures CommandTail([path] + rest) == Some(rest)
  {
  }

  lemma TwoTail(path: string, word: string, words: seq<string>, tail: seq<string>)
    requires TwoWordTool(Base(path)) && EqualFold(word, "migrate")
    ensures CommandTail([path] + ([word] + words + tail)) == Some(words + tail)
  {
    assert ([path] + ([word] + words + tail))[2..] == words + tail;
  }

  lemma FoundHere(args: seq<string>, t: string)
    requires args != [] && CommandTail(args).Some? && TargetAfterMigrate(CommandTail(args).value) == t != ""
    ensures CommandSearch(args, TargetAfterMigrate) == t
  {
  }

  lemma {:induction false} Command(prefix: seq<string>, path: string, words: seq<string>, vmid: string, node: string, tail: seq<string>)
    requires Canonical(prefix, path, vmid, node, tail) && Tool(Base(path)) && forall w <- words :: Ordinary(w)
    requires CommandTail([path] + (words + tail)) == Some([vmid, node] + tail)
    ensures MigrateTarget(prefix + ([path] + (words + tail))) == node
  {
    VmidThenNode(vmid, node, tail);
    OrdinaryPrefix(words, tail);
    ToolIsNoFlag(path);
    OptionAppend(prefix, path, words + tail);
    CommandUpTo(prefix, path, words + tail);
    FoundHere([path] + (words + tail), node);
  }

  /** `qmigrate <vmid> <node> ...` and `vzmigrate ...`, by any path, yield the node. */
  lemma {:induction false} OneWordCommand(prefix: seq<string>, path: string, vmid: string, node: string, tail: seq<string>)
    requires Canonical(prefix, path, vmid, node, tail) && OneWordTool(Base(path))
    ensures MigrateTarget(prefix + ([path] + ([vmid, node] + tail))) == node
  {
    VmidAndNode(vmid, node);
    OneTail(path, [vmid, node] + tail);
    Command(prefix, path, [vmid, node], vmid, node, tail);
  }

  /** `qm migrate <vmid> <node> ...` and `pct migrate ...`, by any path, yield the node. */
  lemma {:induction false} TwoWordCommand(prefix: seq<string>, path: string, word: string, vmid: string, node: string, tail: seq<string>)
    requires Canonical(prefix, path, vmid, node, tail) && TwoWordTool(Base(path)) && EqualFold(word, "migrate")
    ensures MigrateTarget(prefix + ([path] + ([word, vmid, node] + tail))) == node
  {
    VmidAndNode(vmid, node);
    MigrateIsOrdinary(word);
    TwoTail(path, word, [vmid, node], tail);
    assert [word] + [vmid, node] == [word, vmid, node];
    Command(prefix, path, [word, vmid, node], vmid, node, tail);
  }

  lemma MigrateIsOrdinary(word: string)
    requires EqualFold(word, "migrate")
    ensures Ordinary(word)
  {
    assert |word| == |Lower(word)| == 7;
    forall c | c in word ensures !IsSpace(c) && c != '=' && c != '-' {
      var i :| 0 <= i < |word| && word[i] == c;
      assert Lower(word)[i] == LowerChar(c) && Lower("migrate")[i] == LowerChar("migrate"[i]);
    }
    assert word[0] in word;
  }

  // ---- option targets ----

  /** A pass that finds nothing up to x goes on from x. */
  lemma {:induction false} SiftReach(f: (string, string) -> string, a: seq<string>, x: string, rest: seq<string>)
    requires Sift(f, a) == "" && (a != [] ==> f(a[|a| - 1], x) == "")
    ensures Sift(f, a + ([x] + rest)) == Sift(f, [x] + rest)
  {
    if a == [] {
      assert a + ([x] + rest) == [x] + rest;
    } else {
      SiftReach(f, a[1..], x, rest);
      assert (a + ([x] + rest))[1..] == a[1..] + ([x] + rest);
    }
  }

  lemma NextIsNoNode(raw: string, next: string)
    requires OptionOf(raw, "") == "" && !LooksLikeNode(next)
    ensures OptionOf(raw, next) == ""
  {
  }

  /** The first option target of the arguments is the target. */
  lemma FirstOption(prefix: seq<string>, x: string, rest: seq<string>, node: string)
    requires TargetOption(prefix) == "" && !LooksLikeNode(x)
    requires OptionHere([x] + rest) == node != ""
    ensures MigrateTarget(prefix + ([x] + rest)) == node
  {
    OptionIsSift(prefix);
    OptionIsSift([x] + rest);
    OptionIsSift(prefix + ([x] + rest));
    if prefix != [] {
      SiftLast(OptionOf, prefix);
      NextIsNoNode(prefix[|prefix| - 1], x);
    }
    SiftReach(OptionOf, prefix, x, rest);
  }

  predicate IsOptionFlag(flag: string) {
    || EqualFold(flag, "--target") || EqualFold(flag, "-target") || EqualFold(flag, "--target-node")
    || EqualFold(flag, "--targetnode") || EqualFold(flag, "--to")
  }

  lemma {:induction false} LowerWord(s: string)
    requires IsWord(Lower(s))
    ensures IsWord(s)
  {
    forall c | c in s ensures !IsSpace(c) {
      var i :| 0 <= i < |s| && s[i] == c;
      assert Lower(s)[i] == LowerChar(c) && Lower(s)[i] in Lower(s);
    }
  }

  /** A word in small letters and dashes, and any text that folds to it. */
  lemma FoldWord(s: string, w: string)
    requires EqualFold(s, w) && Lower(w) == w && IsWord(w) && Free(w, '=')
    ensures Lower(s) == w && IsWord(s) && Free(s, '=') && (Free(w, '-') ==> Free(s, '-'))
  {
    LowerWord(s);
    LowerKeeps(s, '=');
    LowerKeeps(s, '-');
  }

  /** A word in small letters, dashes and underscores. */
  predicate Small(w: string) { w != "" && forall c <- w :: 'a' <= c <= 'z' || c == '-' || c == '_' }

  lemma SmallWord(w: string)
    requires Small(w)
    ensures Lower(w) == w && IsWord(w) && Free(w, '=')
  {
    forall i | 0 <= i < |w| ensures LowerChar(w[i]) == w[i] { assert w[i] in w; }
  }

  lemma FlagsSmall()
    ensures Small("--target") && Small("-target") && Small("--target-node") && Small("--targetnode") && Small("--to")
  {
  }

  lemma FlagWord(flag: string)
    requires IsOptionFlag(flag)
    ensures OptionFlag(Lower(flag)) && IsWord(flag) && Free(flag, '=') && flag[0] == '-'
  {
    var w :| (w == "--target" || w == "-target" || w == "--target-node" || w == "--targetnode" || w == "--to")
      && EqualFold(flag, w);
    FlagsSmall();
    SmallWord(w);
    FoldWord(flag, w);
    FlagDash(flag);
  }

  /** `--target <node>` and its other spellings, in any letter case, give the node, behind
      arguments without an option target and whatever follows. */
  lemma {:induction false} FlagTarget(prefix: seq<string>, flag: string, node: string, tail: seq<string>)
    requires TargetOption(prefix) == "" && IsOptionFlag(flag) && LooksLikeNode(node)
    ensures MigrateTarget(prefix + ([flag] + ([node] + tail))) == node
  {
    FlagWord(flag);
    WordTrim(flag);
    FreeFound(flag);
    assert ([flag] + ([node] + tail))[1] == node;
    FirstOption(prefix, flag, [node] + tail, node);
  }

  predicate IsOptionKey(key: string) {
    || EqualFold(key, "target") || EqualFold(key, "targetnode") || EqualFold(key, "target_node")
    || EqualFold(key, "node") || EqualFold(key, "to")
  }

  lemma KeysSmall()
    ensures Small("target") && Small("targetnode") && Small("target_node") && Small("node") && Small("to")
    ensures Free("target", '-') && Free("targetnode", '-') && Free("target_node", '-') && Free("node", '-') && Free("to", '-')
  {
  }

  lemma KeyWord(key: string)
    requires IsOptionKey(key)
    ensures OptionKey(Lower(key)) && IsWord(key) && Free(key, '=') && Free(key, '-')
  {
    var w :| (w == "target" || w == "targetnode" || w == "target_node" || w == "node" || w == "to") && EqualFold(key, w);
    KeysSmall();
    SmallWord(w);
    FoldWord(key, w);
  }

  predicate Dashes(s: string) { forall c <- s :: c == '-' }

  lemma {:induction false} TrimDashes(dashes: string, key: string)
    requires Dashes(dashes) && key != "" && key[0] != '-'
    ensures TrimLeft(dashes + key, {'-'}) == key
  {
    if dashes == "" {
      assert dashes + key == key;
    } else {
      assert dashes[0] in dashes;
      assert (dashes + key)[1..] == dashes[1..] + key;
      forall c | c in dashes[1..] ensures c == '-' { assert c in dashes; }
      TrimDashes(dashes[1..], key);
    }
  }

  lemma NodeWord(node: string)
    requires LooksLikeNode(node)
    ensures IsWord(node) && Free(node, '=')
  {
    forall c | c in node ensures !IsSpace(c) && c != '=' { assert NodeChar(c); }
  }

  lemma PairSplits(dashes: string, key: string, node: string)
    requires Dashes(dashes) && IsWord(key) && Free(key, '=') && Free(key, '-') && IsWord(node)
    ensures SplitKV(dashes + key + "=" + node) == Some((key, node))
  {
    var k := dashes + key;
    assert key[0] in key;
    CutAt(k, '=', node);
    WordTrim(k);
    WordTrim(node);
    TrimDashes(dashes, key);
  }

  lemma PairShape(dashes: string, key: string, node: string)
    requires Dashes(dashes) && IsWord(key) && Free(key, '=') && Free(key, '-') && IsWord(node)
    ensures var arg := dashes + key + "=" + node;
      IsWord(arg) && !LooksLikeNode(arg) && TrimSpace(arg) == arg && SplitKV(arg) == Some((key, node))
  {
    var arg := dashes + key + "=" + node;
    PairSplits(dashes, key, node);
    assert arg[|dashes + key|] == '=';
    assert '=' in arg && !NodeChar('=');
    assert IsWord(arg);
    WordTrim(arg);
  }

  lemma PairOption(arg: string, key: string, node: string, next: string)
    requires arg != "" && TrimSpace(arg) == arg && SplitKV(arg) == Some((key, node))
    requires OptionKey(Lower(key)) && LooksLikeNode(node)
    ensures OptionOf(arg, next) == node
  {
  }

  /** `target=<node>` and its other keys, in any letter case and behind any dashes. */
  lemma {:induction false} PairTarget(prefix: seq<string>, dashes: string, key: string, node: string, tail: seq<string>)
    requires TargetOption(prefix) == "" && Dashes(dashes) && IsOptionKey(key) && LooksLikeNode(node)
    ensures MigrateTarget(prefix + ([dashes + key + "=" + node] + tail)) == node
  {
    var arg := dashes + key + "=" + node;
    KeyWord(key);
    NodeWord(node);
    PairShape(dashes, key, node);
    PairOption(arg, key, node, if |[arg] + tail| > 1 then ([arg] + tail)[1] else "");
    FirstOption(prefix, arg, tail, node);
  }

  // ---- node names and command lines ----

  /** Which texts pass for a node name: letters, digits, dashes, underscores and dots, not
      starting with a dash, and not a decimal number that fits 64 bits. */
  lemma NodeNames(s: string)
    ensures LooksLikeNode(s) <==>
      && s != "" && s[0] != '-'
      && (forall c <- s :: 'a' <= c <= 'z' || 'A' <= c <= 'Z' || '0' <= c <= '9' || c == '-' || c == '_' || c == '.')
      && ((forall c <- s :: '0' <= c <= '9') ==> Value(s, 10) >= 0x8000_0000_0000_0000)
  {
    if s != "" && s[0] != '-' && forall c <- s :: NodeChar(c) {
      assert s[0] in s && s[0] != '+';
      assert AllDigits(s, 10) <==> forall c <- s :: '0' <= c <= '9';
    }
  }

  lemma {:induction false} NonEmptyAll(parts: seq<string>)
    ensures forall p <- NonEmpty(parts) :: p != "" && p in parts
    ensures (forall p <- parts :: p != "") ==> NonEmpty(parts) == parts
  {
    if parts != [] {
      NonEmptyAll(parts[1..]);
      assert parts == [parts[0]] + parts[1..];
      if forall p <- parts :: p != "" {
        forall p | p in parts[1..] ensures p != "" { assert p in parts; }
        assert parts[0] in parts;
      }
    }
  }

  lemma {:induction false} NonEmptyAppend(a: seq<string>, b: seq<string>)
    ensures NonEmpty(a + b) == NonEmpty(a) + NonEmpty(b)
  {
    if a == [] {
      assert a + b == b;
    } else {
      assert (a + b)[1..] == a[1..] + b;
      NonEmptyAppend(a[1..], b);
    }
  }

  lemma {:induction false} JoinOneMore(parts: seq<string>, sep: string)
    requires parts != []
    ensures Join(parts + [""], sep) == Join(parts, sep) + sep
  {
    assert (parts + [""])[1..] == parts[1..] + [""];
    if |parts| > 1 {
      JoinOneMore(parts[1..], sep);
      assert parts[0] + sep + (Join(parts[1..], sep) + sep) == parts[0] + sep + Join(parts[1..], sep) + sep;
    } else {
      assert parts[1..] + [""] == [""];
    }
  }

  /** The arguments of a process come back from its command line, which has a zero byte
      after each of them or between them; none is empty or holds a zero byte. */
  lemma {:induction false} CmdlineArgs(args: seq<string>)
    requires args != [] && forall a <- args :: a != "" && Free(a, '\0')
    ensures SplitCmdline(Join(args, "\0")) == args
    ensures SplitCmdline(Join(args, "\0") + "\0") == args
  {
    SplitJoin(args, '\0');
    NonEmptyAll(args);
    JoinOneMore(args, "\0");
    SplitJoin(args + [""], '\0');
    NonEmptyAppend(args, [""]);
  }

  lemma CmdlineClean(b: string)
    ensures forall a <- SplitCmdline(b) :: a != "" && Free(a, '\0')
  {
    NonEmptyAll(Split(b, '\0'));
    SplitParts(b, '\0');
  }
}
