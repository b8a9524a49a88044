/** The migration target of a command line told by positions, without the passes that
    look for it (parseMigrateTarget, internal/enrich/enrich.go). */
module Argv {
  import opened Text
  import opened Target

  // ---- options ----

  /** The argument gives `t` as an option, alone or with the argument after it. */
  predicate OptionAt(args: seq<string>, i: int, t: string) {
    && 0 <= i < |args| && LooksLikeNode(t)
    && var arg := TrimSpace(args[i]);
       match SplitKV(arg)
       case Some((k, v)) => IsOptionKey(k) && v == t
       case None => IsOptionFlag(arg) && i + 1 < |args| && args[i + 1] == t
  }

  ghost predicate NoOptionAt(args: seq<string>, i: int) { forall t :: !OptionAt(args, i, t) }

  lemma OptionWords(s: string)
    ensures IsOptionFlag(s) <==> OptionFlag(Lower(s))
    ensures IsOptionKey(s) <==> OptionKey(Lower(s))
  {
    FlagsSmall();
    KeysSmall();
    forall w | OptionFlag(w) || OptionKey(w) ensures Lower(w) == w { SmallWord(w); }
    assert OptionFlag("--target") && OptionFlag("-target") && OptionFlag("--target-node");
    assert OptionFlag("--targetnode") && OptionFlag("--to");
    assert OptionKey("target") && OptionKey("targetnode") && OptionKey("target_node") && OptionKey("node") && OptionKey("to");
  }

  lemma OptionHereIs(args: seq<string>, i: nat)
    requires i < |args|
    ensures var t := OptionHere(args[i..]); if t == "" then NoOptionAt(args, i) else OptionAt(args, i, t)
  {
    var arg := TrimSpace(args[i]);
    var kv := SplitKV(arg);
    OptionWords(arg);
    if kv.Some? {
      OptionWords(kv.value.0);
      if IsOptionFlag(arg) {
        FlagWord(arg);
        FreeFound(arg);
      }
    }
    assert SplitKV("").None?;
  }

  /** The option target is that of the first argument that gives one. */
  lemma {:induction false} OptionExact(args: seq<string>, from: nat) returns (i: nat)
    requires from <= |args|
    ensures var t := TargetOption(args[from..]); if t == "" then i == |args| else OptionAt(args, i, t) && from <= i
    ensures forall k :: from <= k < i ==> NoOptionAt(args, k)
    decreases |args| - from
  {
    i := from;
    if from < |args| {
      OptionHereIs(args, from);
      if OptionHere(args[from..]) == "" {
        assert args[from..][1..] == args[from + 1..];
        i := OptionExact(args, from + 1);
      }
    }
  }

  // ---- positions ----

  /** The argument is a VMID, plain or under one of its keys. */
  predicate GivesVmid(a: string) {
    && a != "" && a[0] != '-'
    && match SplitKV(a)
       case Some((k, v)) => (EqualFold(k, "vmid") || EqualFold(k, "id")) && Atoi(v).Some?
       case None => Atoi(a).Some?
  }

  predicate VmidIn(args: seq<string>, from: nat, to: int)
    requires to <= |args|
  {
    exists j :: from <= j < to && GivesVmid(args[j])
  }

  /** A node name stands at k and a VMID somewhere before it. */
  predicate NodeAt(args: seq<string>, from: nat, k: int) {
    from <= k < |args| && LooksLikeNode(args[k]) && VmidIn(args, from, k)
  }

  ghost predicate Barren(args: seq<string>, from: nat) { forall k :: !NodeAt(args, from, k) }

  /** The first node name behind a VMID. */
  ghost predicate Yields(args: seq<string>, from: nat, t: string) {
    exists k :: NodeAt(args, from, k) && args[k] == t && forall i :: i < k ==> !NodeAt(args, from, i)
  }

  lemma VmidKeys(k: string)
    ensures Lower(k) == "vmid" <==> EqualFold(k, "vmid")
    ensures Lower(k) == "id" <==> EqualFold(k, "id")
  {
    assert Small("vmid") && Small("id");
    SmallWord("vmid");
    SmallWord("id");
  }

  lemma NodeIsPlain(s: string)
    requires LooksLikeNode(s)
    ensures s != "" && s[0] != '-' && SplitKV(s).None? && Atoi(s).None?
  {
    NodeWord(s);
    FreeFound(s);
  }

  /** One step of the positional reading. */
  lemma PositionalNext(args: seq<string>, seen: bool)
    requires args != []
    ensures seen && LooksLikeNode(args[0]) ==> Positional(args, seen, false) == args[0] != ""
    ensures !(seen && LooksLikeNode(args[0])) ==>
      Positional(args, seen, false) == Positional(args[1..], seen || GivesVmid(args[0]), false)
  {
    if LooksLikeNode(args[0]) { NodeIsPlain(args[0]); }
    var pair := SplitKV(args[0]);
    if pair.Some? { VmidKeys(pair.value.0); }
  }

  lemma VmidNext(args: seq<string>, from: nat, to: int)
    requires from < to <= |args|
    ensures VmidIn(args, from, to) <==> GivesVmid(args[from]) || VmidIn(args, from + 1, to)
  {
  }

  /** The first node name behind a VMID, if one had been seen before `from`. */
  ghost predicate FirstAt(args: seq<string>, from: nat, seen: bool, k: nat) {
    && from <= k <= |args|
    && (k < |args| ==> LooksLikeNode(args[k]) && (seen || VmidIn(args, from, k)))
    && forall i :: from <= i < k && LooksLikeNode(args[i]) ==> !seen && !VmidIn(args, from, i)
  }

  lemma FirstNext(args: seq<string>, from: nat, seen: bool, k: nat)
    requires from < |args| && !(seen && LooksLikeNode(args[from]))
    requires FirstAt(args, from + 1, seen || GivesVmid(args[from]), k)
    ensures FirstAt(args, from, seen, k)
  {
    forall i | from < i <= k ensures VmidIn(args, from, i) <==> GivesVmid(args[from]) || VmidIn(args, from + 1, i) {
      VmidNext(args, from, i);
    }
  }

  lemma {:induction false} PositionalExact(args: seq<string>, from: nat, seen: bool) returns (k: nat)
    requires from <= |args|
    ensures FirstAt(args, from, seen, k)
    ensures Positional(args[from..], seen, false) == if k < |args| then args[k] else ""
    decreases |args| - from
  {
    k := from;
    if from < |args| {
      var rest := args[from..];
      PositionalNext(rest, seen);
      if !(seen && LooksLikeNode(rest[0])) {
        assert rest[1..] == args[from + 1..];
        k := PositionalExact(args, from + 1, seen || GivesVmid(args[from]));
        FirstNext(args, from, seen, k);
      }
    }
  }

  /** What the arguments after a migrate word give. */
  lemma AfterExact(args: seq<string>, from: nat)
    requires from <= |args| && TargetOption(args) == ""
    ensures var t := TargetAfterMigrate(args[from..]); if t == "" then Barren(args, from) else Yields(args, from, t)
  {
    NoOptionInSuffix(args, from);
    KeyReturnIsDead(args[from..], false);
    var k := PositionalExact(args, from, false);
    forall i | i < k ensures !NodeAt(args, from, i) {}
    if k < |args| { assert NodeAt(args, from, k); }
  }

  // ---- commands ----

  /** The path's last element is the tool's name, in any letter case. */
  predicate RunsTool(path: string, tool: string) {
    exists k :: 0 <= k <= |path| && (k == 0 || path[k - 1] == '/') && Free(path[k..], '/') && EqualFold(path[k..], tool)
  }

  lemma {:induction false} LastElementAt(s: string) returns (k: nat)
    ensures k <= |s| && LastPathElement(s) == s[k..] && (k == 0 || s[k - 1] == '/')
  {
    if s == "" || Free(s, '/') {
      k := 0;
    } else {
      k := LastElementAt(s[1..]);
      k := k + 1;
    }
  }

  lemma ToolIs(path: string, tool: string)
    requires Small(tool)
    ensures RunsTool(path, tool) <==> Base(path) == tool
  {
    SmallWord(tool);
    var last := LastElementAt(path);
    if RunsTool(path, tool) {
      var k :| 0 <= k <= |path| && (k == 0 || path[k - 1] == '/') && Free(path[k..], '/') && EqualFold(path[k..], tool);
      assert k == last;
    }
  }

  /** A migrate command stands at i, and its arguments begin at `from`. */
  predicate CommandAt(args: seq<string>, i: int, from: nat) {
    && 0 <= i < from <= |args|
    && (((RunsTool(args[i], "qm") || RunsTool(args[i], "pct")) && from == i + 2 && EqualFold(args[i + 1], "migrate"))
        || ((RunsTool(args[i], "qmigrate") || RunsTool(args[i], "vzmigrate")) && from == i + 1))
  }

  /** The word migrate stands at i. */
  predicate WordAt(args: seq<string>, i: int, from: nat) {
    0 <= i < |args| && from == i + 1 && EqualFold(args[i], "migrate")
  }

  lemma ToolsAre(path: string)
    ensures RunsTool(path, "qm") || RunsTool(path, "pct") <==> TwoWordTool(Base(path))
    ensures RunsTool(path, "qmigrate") || RunsTool(path, "vzmigrate") <==> OneWordTool(Base(path))
  {
    assert Small("qm") && Small("pct") && Small("qmigrate") && Small("vzmigrate");
    ToolIs(path, "qm");
    ToolIs(path, "pct");
    ToolIs(path, "qmigrate");
    ToolIs(path, "vzmigrate");
  }

  lemma TailAt(args: seq<string>, i: nat)
    requires i < |args|
    ensures var tail := CommandTail(args[i..]);
      if tail.None? then forall from: nat :: !CommandAt(args, i, from)
      else exists from: nat :: CommandAt(args, i, from) && tail.value == args[from..]
    ensures forall a: nat, b: nat :: CommandAt(args, i, a) && CommandAt(args, i, b) ==> a == b
  {
    ToolsAre(args[i]);
    if TwoWordTool(Base(args[i])) {
      if i + 1 < |args| && EqualFold(args[i + 1], "migrate") {
        assert CommandAt(args, i, i + 2) && args[i..][2..] == args[i + 2..];
      }
    } else if OneWordTool(Base(args[i])) {
      assert CommandAt(args, i, i + 1) && args[i..][1..] == args[i + 1..];
    }
  }

  ghost predicate NoCommandTo(args: seq<string>, to: int) {
    forall i, from: nat :: i < to && CommandAt(args, i, from) ==> Barren(args, from)
  }

  ghost predicate NoWordTo(args: seq<string>, to: int) {
    forall i, from: nat :: i < to && WordAt(args, i, from) ==> Barren(args, from)
  }

  ghost predicate NoOptionTo(args: seq<string>, to: int) { forall k :: k < to ==> NoOptionAt(args, k) }

  ghost predicate FromOption(args: seq<string>, t: string) {
    exists i :: OptionAt(args, i, t) && NoOptionTo(args, i)
  }

  ghost predicate FromCommand(args: seq<string>, t: string) {
    exists i, from: nat :: CommandAt(args, i, from) && Yields(args, from, t) && NoCommandTo(args, i)
  }

  ghost predicate FromWord(args: seq<string>, t: string) {
    exists i, from: nat :: WordAt(args, i, from) && Yields(args, from, t) && NoWordTo(args, i)
  }

  lemma {:induction false} CommandExact(args: seq<string>, n: nat)
    requires n <= |args| && TargetOption(args) == "" && NoCommandTo(args, n)
    ensures var t := CommandSearch(args[n..], TargetAfterMigrate);
      if t == "" then NoCommandTo(args, |args|) else FromCommand(args, t)
    decreases |args| - n
  {
    if n < |args| {
      var tail := CommandTail(args[n..]);
      TailAt(args, n);
      assert args[n..][1..] == args[n + 1..];
      if tail.Some? {
        var from: nat :| CommandAt(args, n, from) && tail.value == args[from..];
        AfterExact(args, from);
      }
      if tail.None? || TargetAfterMigrate(tail.value) == "" {
        CommandExact(args, n + 1);
      }
    }
  }

  lemma {:induction false} WordExact(args: seq<string>, n: nat)
    requires n <= |args| && TargetOption(args) == "" && NoWordTo(args, n)
    ensures var t := WordSearch(args[n..], TargetAfterMigrate);
      if t == "" then NoWordTo(args, |args|) else FromWord(args, t)
    decreases |args| - n
  {
    if n < |args| {
      assert args[n..][1..] == args[n + 1..];
      AfterExact(args, n + 1);
      if EqualFold(args[n], "migrate") && TargetAfterMigrate(args[n + 1..]) != "" {
        assert WordAt(args, n, n + 1);
      } else {
        WordExact(args, n + 1);
      }
    }
  }

  // ---- the whole command line ----

  /** `t` is what the arguments say: the first option target; without one, what follows
      the first migrate command that names a node behind a VMID; without one, what
      follows the first such migrate word; else nothing. */
  ghost predicate Says(args: seq<string>, t: string) {
    if exists i, o :: OptionAt(args, i, o) then
      FromOption(args, t)
    else if !NoCommandTo(args, |args|) then FromCommand(args, t)
    else if !NoWordTo(args, |args|) then FromWord(args, t)
    else t == ""
  }

  lemma YieldsNotBarren(args: seq<string>, from: nat, t: string)
    requires Yields(args, from, t)
    ensures !Barren(args, from)
  {
  }

  lemma Unsaid(args: seq<string>)
    requires forall k :: 0 <= k < |args| ==> NoOptionAt(args, k)
    ensures forall i, o :: !OptionAt(args, i, o)
  {
    forall i, o ensures !OptionAt(args, i, o) {
      if 0 <= i < |args| { assert NoOptionAt(args, i); }
    }
  }

  lemma CommandFound(args: seq<string>, t: string)
    requires FromCommand(args, t)
    ensures !NoCommandTo(args, |args|)
  {
    var k, from: nat :| CommandAt(args, k, from) && Yields(args, from, t) && NoCommandTo(args, k);
    YieldsNotBarren(args, from, t);
  }

  lemma WordFound(args: seq<string>, t: string)
    requires FromWord(args, t)
    ensures !NoWordTo(args, |args|)
  {
    var k, from: nat :| WordAt(args, k, from) && Yields(args, from, t) && NoWordTo(args, k);
    YieldsNotBarren(args, from, t);
  }

  lemma SearchIsSaid(args: seq<string>, c: string, w: string)
    requires forall i, o :: !OptionAt(args, i, o)
    requires if c == "" then NoCommandTo(args, |args|) else FromCommand(args, c)
    requires if w == "" then NoWordTo(args, |args|) else FromWord(args, w)
    ensures Says(args, if c != "" then c else w)
  {
    if c != "" { CommandFound(args, c); }
    if w != "" { WordFound(args, w); }
  }

  lemma OptionIsSaid(args: seq<string>, i: nat, t: string)
    requires OptionAt(args, i, t) && forall k :: 0 <= k < i ==> NoOptionAt(args, k)
    ensures Says(args, t)
  {
    assert NoOptionTo(args, i);
  }

  lemma {:induction false} ParserSays(args: seq<string>)
    ensures Says(args, MigrateTarget(args))
  {
    assert args[0..] == args;
    var i := OptionExact(args, 0);
    if TargetOption(args) != "" {
      OptionIsSaid(args, i, TargetOption(args));
    } else {
      Unsaid(args);
      CommandExact(args, 0);
      WordExact(args, 0);
      SearchIsSaid(args, CommandSearch(args, TargetAfterMigrate), WordSearch(args, TargetAfterMigrate));
    }
  }

  lemma YieldsOne(args: seq<string>, from: nat, a: string, b: string)
    requires Yields(args, from, a) && Yields(args, from, b)
    ensures a == b
  {
    var i :| NodeAt(args, from, i) && args[i] == a && forall k :: k < i ==> !NodeAt(args, from, k);
    var j :| NodeAt(args, from, j) && args[j] == b && forall k :: k < j ==> !NodeAt(args, from, k);
    assert i == j;
  }

  lemma CommandOne(args: seq<string>, a: string, b: string)
    requires FromCommand(args, a) && FromCommand(args, b)
    ensures a == b
  {
    var i, from: nat :| CommandAt(args, i, from) && Yields(args, from, a) && NoCommandTo(args, i);
    var j, to: nat :| CommandAt(args, j, to) && Yields(args, to, b) && NoCommandTo(args, j);
    YieldsNotBarren(args, from, a);
    YieldsNotBarren(args, to, b);
    assert i == j;
    TailAt(args, i);
    YieldsOne(args, from, a, b);
  }

  lemma WordOne(args: seq<string>, a: string, b: string)
    requires FromWord(args, a) && FromWord(args, b)
    ensures a == b
  {
    var i, from: nat :| WordAt(args, i, from) && Yields(args, from, a) && NoWordTo(args, i);
    var j, to: nat :| WordAt(args, j, to) && Yields(args, to, b) && NoWordTo(args, j);
    YieldsNotBarren(args, from, a);
    YieldsNotBarren(args, to, b);
    assert i == j;
    YieldsOne(args, from, a, b);
  }

  lemma OptionSame(args: seq<string>, i: int, a: string, b: string)
    requires OptionAt(args, i, a) && OptionAt(args, i, b)
    ensures a == b
  {
  }

  lemma GivesOption(args: seq<string>, i: int, t: string)
    requires OptionAt(args, i, t)
    ensures !NoOptionAt(args, i)
  {
  }

  lemma OptionOne(args: seq<string>, a: string, b: string)
    requires FromOption(args, a) && FromOption(args, b)
    ensures a == b
  {
    var i :| OptionAt(args, i, a) && NoOptionTo(args, i);
    var j :| OptionAt(args, j, b) && NoOptionTo(args, j);
    GivesOption(args, i, a);
    GivesOption(args, j, b);
    assert i == j;
    OptionSame(args, i, a, b);
  }

  /** The arguments say one thing only. */
  lemma SaysOne(args: seq<string>, a: string, b: string)
    requires Says(args, a) && Says(args, b)
    ensures a == b
  {
    if exists i, o :: OptionAt(args, i, o) {
      OptionOne(args, a, b);
    } else if !NoCommandTo(args, |args|) {
      CommandOne(args, a, b);
    } else if !NoWordTo(args, |args|) {
      WordOne(args, a, b);
    }
  }

  /** On every command line the parser's target is what its arguments say. */
  lemma {:induction false} TargetIsSaid(args: seq<string>, t: string)
    ensures MigrateTarget(args) == t <==> Says(args, t)
  {
    ParserSays(args);
    if Says(args, t) { SaysOne(args, t, MigrateTarget(args)); }
  }
}
