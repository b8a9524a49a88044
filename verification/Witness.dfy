/** Runs that show where the documented order of synced and terminal fails, and
    the refinement of the scan specification by an undisturbed scanner. */
module Witness {
  import opened Text
  import opened Events
  import opened Upid
  import opened Watch
  import opened Interleave

  predicate Migration(u: UPID) { GoodUpid(u) && WorkerType(u.typ) == Some((QEMU, Migrate)) }

  function Running(u: UPID): Item { Item(u, QEMU, Migrate, "") }
  function Ended(u: UPID): Item { Item(u, QEMU, Migrate, "OK") }

  /** Every well-formed migration UPID has the two lines the runs below read. */
  lemma {:induction false} MigrationLines(u: UPID, end: string)
    requires WellFormed(u) && u.typ == "qmigrate" && IsHex(end)
    ensures Migration(u)
    ensures Observe(Spaced(u.raw, "0"), {QEMU, LXC}) == Some(Running(u))
    ensures Observe(Spaced(u.raw, Spaced("1", Spaced(end, "OK"))), {QEMU, LXC}) == Some(Ended(u))
  {
    MigrateWorker();
    UpidRoundTrip(u);
    RunningLine(u);
    OkIsWord();
    EndedLine(u, end, "OK");
  }

  lemma OkIsWord()
    ensures IsWord("OK")
  {
  }

  lemma RunningLine(u: UPID)
    requires WellFormed(u) && WorkerType(u.typ) == Some((QEMU, Migrate))
    ensures Observe(Spaced(u.raw, "0"), {QEMU, LXC}) == Some(Running(u))
  {
    RunningForms(u);
    ObserveOk(Spaced(u.raw, "0"), u, "");
  }

  lemma EndedLine(u: UPID, end: string, status: string)
    requires WellFormed(u) && WorkerType(u.typ) == Some((QEMU, Migrate)) && IsHex(end) && IsWord(status)
    ensures Observe(Spaced(u.raw, Spaced("1", Spaced(end, status))), {QEMU, LXC})
         == Some(Item(u, QEMU, Migrate, status))
  {
    SavedForm(u, end, status);
    OneWord(status);
    ObserveOk(Spaced(u.raw, Spaced("1", Spaced(end, status))), u, status);
  }

  lemma MigrateWorker()
    ensures WorkerType("qmigrate") == Some((QEMU, Migrate))
  {
  }

  lemma ObserveOk(line: string, u: UPID, status: string)
    requires line != "" && ParseActiveLine(line) == Ok((u, status)) && WorkerType(u.typ) == Some((QEMU, Migrate))
    ensures Observe(line, {QEMU, LXC}) == Some(Item(u, QEMU, Migrate, status))
  {
  }

  lemma OneWord(w: string)
    requires IsWord(w)
    ensures Normal(w) == w && Fields(w) == [w]
  {
    FieldsWord(w, "");
    assert w + "" == w;
  }

  /** Some run of the mode reaches the state. */
  ghost predicate Reached(m: Mode, s: World) {
    exists ls :: Valid(m, INIT, ls) && Exec(INIT, ls) == s
  }

  lemma Go(m: Mode, s: World, l: Label, t: World)
    requires Reached(m, s) && Allowed(m, s, l) && Do(s, l) == t
    ensures Reached(m, t)
  {
    var ls :| Valid(m, INIT, ls) && Exec(INIT, ls) == s;
    Extend(m, INIT, ls, l);
  }

  function Entry(u: UPID, started: bool, finished: bool, synced: bool): Known {
    map[u.raw := UpidState(started, finished, synced)]
  }

  function StartOf(u: UPID, obs: int): Event { StartEvent(Running(u), obs) }
  function EndOf(u: UPID, obs: int): Event { EndEvent(Ended(u), obs) }
  function SyncOf(u: UPID, obs: int): Event { Event(u, QEMU, Migrate, Synced, "", obs) }

  /** The watcher between two scans, one poller alive. */
  function Rest(u: UPID, known: Known, pc: PollerPc, log: seq<Event>, gone: set<string>): World {
    World(known, Idle, [Poller(u, pc)], log, log, gone)
  }

  predicate Free2(m: Mode, s: World) {
    && |s.chan| + 2 <= CAPACITY
    && (m.apart ==> forall p <- s.pollers :: !InWindow(p))
  }

  /** The state after a scan of the single line `it`, all sent. */
  function Scanned(s: World, it: Item, obs: int): World {
    var emitted := Emits(s.known, it, obs);
    World(Mark(s.known, it), Between([], {it.upid.raw}, false, obs),
          s.pollers + (if Spawns(s.known, it) then [Poller(it.upid, Waiting)] else []),
          s.chan + emitted, s.log + emitted, s.gone)
  }

  /** The scanner sends and spawns what it owes. */
  lemma ActAll(m: Mode, s: World)
    requires Reached(m, s) && s.scan.Sending? && |s.chan| + |OwedEvents(s)| <= CAPACITY
    ensures var o := s.scan.cur;
      Reached(m, World(s.known, Between(s.scan.rest, s.scan.seen, s.scan.broken, s.scan.obs),
                       s.pollers + (if o.spawn then [Poller(o.item.upid, Waiting)] else []),
                       s.chan + OwedEvents(s), Full(s), s.gone))
    decreases s.scan.cur.start, s.scan.cur.spawn, s.scan.cur.end
  {
    var t := DoAct(s);
    Go(m, s, Act, t);
    if t.scan.Sending? {
      ActAll(m, t);
    }
    ActOnce(s);
  }

  lemma ActOnce(s: World)
    requires s.scan.Sending? && Enabled(s, Act)
    ensures var t := DoAct(s);
      && Full(t) == Full(s) && t.chan + OwedEvents(t) == s.chan + OwedEvents(s)
      && t.pollers + (if t.scan.Sending? && t.scan.cur.spawn then [Poller(t.scan.cur.item.upid, Waiting)] else [])
         == s.pollers + (if s.scan.cur.spawn then [Poller(s.scan.cur.item.upid, Waiting)] else [])
      && (t.scan.Sending? ==> t.scan.cur.item == s.scan.cur.item)
  {
  }

  lemma ScanOne(m: Mode, s: World, it: Item, obs: int)
    requires Reached(m, s) && s.scan.Idle? && GoodItem(it) && Free2(m, s)
    requires m.noReturn ==> it.upid.raw !in s.gone
    ensures Reached(m, Scanned(s, it, obs))
  {
    var s1 := s.(scan := Between([it], {}, false, obs));
    Go(m, s, Begin([it], false, obs), s1);
    var s2 := DoLine(s1);
    Go(m, s1, Line, s2);
    LineOnly(s1, it);
    if s2.scan.Sending? {
      ActAll(m, s2);
    }
  }

  lemma LineOnly(s: World, it: Item)
    requires s.scan.Between? && s.scan.rest == [it] && s.scan.seen == {} && !s.scan.broken
    ensures var t, owed := DoLine(s), Emits(s.known, it, s.scan.obs);
      && OwedEvents(t) == owed && |owed| <= 2
      && t.known == Mark(s.known, it) && t.pollers == s.pollers && t.chan == s.chan && t.log == s.log && t.gone == s.gone
      && (t.scan.Sending? ==> t.scan.rest == [] && t.scan.seen == {it.upid.raw} && !t.scan.broken
                              && t.scan.obs == s.scan.obs && t.scan.cur.item == it
                              && t.scan.cur.spawn == Spawns(s.known, it))
      && (!t.scan.Sending? ==> t == Scanned(s, it, s.scan.obs))
  {
  }

  /** Every saved line of a known worker is logged as its status says: from an empty
      map, a scan of that line logs started and then finished or failed. */
  lemma SavedLineReported(u: UPID, kinds: set<Kind>, end: string, status: string) returns (s: World)
    requires WellFormed(u) && IsHex(end) && Fields(status) != []
    requires WorkerType(u.typ).Some? && WorkerType(u.typ).value.0 in kinds
    ensures Reached(ANY, s) && |s.log| == 2
    ensures var line := Spaced(u.raw, Spaced("1", Spaced(end, status)));
      && Items([line], kinds) == [Item(u, WorkerType(u.typ).value.0, WorkerType(u.typ).value.1, Normal(status))]
    ensures s.log[0].upid == s.log[1].upid == u && s.log[0].phase == Started && s.log[1].status == Normal(status)
    ensures Verdict(s.log[1].phase, Normal(status))
  {
    var line := Spaced(u.raw, Spaced("1", Spaced(end, status)));
    var it := Item(u, WorkerType(u.typ).value.0, WorkerType(u.typ).value.1, Normal(status));
    SavedForm(u, end, status);
    ObserveExact(line, kinds, it);
    assert [line][..0] == [];
    UpidRoundTrip(u);
    NormalFilled(status);
    assert Valid(ANY, INIT, []) && Exec(INIT, []) == INIT;
    ScanOne(ANY, INIT, it, 1);
    s := Scanned(INIT, it, 1);
  }

  lemma NormalFilled(status: string)
    requires Fields(status) != []
    ensures Normal(status) != ""
  {
    WordsNonEmpty(status);
    assert Fields(status)[0] in Fields(status);
  }

  /** The first scan finds the migration running. */
  lemma FirstLife(m: Mode, u: UPID)
    requires Migration(u)
    ensures Reached(m, Rest(u, Entry(u, true, false, false), Waiting, [StartOf(u, 1)], {}))
  {
    assert Valid(m, INIT, []) && Exec(INIT, []) == INIT;
    ScanOne(m, INIT, Running(u), 1);
    var s := Scanned(INIT, Running(u), 1);
    var known := Entry(u, true, false, false);
    assert Mark(map[], Running(u)) == known;
    NothingCollected(known, {u.raw});
    assert s == Rest(u, known, Waiting, [StartOf(u, 1)], {}).(scan := s.scan);
    Go(m, s, Finish, s.(scan := Idle));
  }

  lemma NothingCollected(known: Known, seen: set<string>)
    requires forall k <- known :: k in seen
    ensures Collect(known, seen) == known && known.Keys - Collect(known, seen).Keys == {}
  {
  }

  /** A scan that finds the migration ended. */
  lemma {:induction false} SecondScan(m: Mode, u: UPID, synced: bool, pc: PollerPc, log: seq<Event>)
    requires Migration(u) && (!InWindow(Poller(u, pc)) || !m.apart) && |log| + 2 <= CAPACITY
    requires Reached(m, Rest(u, Entry(u, true, false, synced), pc, log, {}))
    ensures Reached(m, Rest(u, Entry(u, true, true, synced), pc, log + [EndOf(u, 2)], {}))
  {
    var s0 := Rest(u, Entry(u, true, false, synced), pc, log, {});
    ScanOne(m, s0, Ended(u), 2);
    var s := Scanned(s0, Ended(u), 2);
    var known := Entry(u, true, true, synced);
    assert Mark(s0.known, Ended(u)) == known;
    NothingCollected(known, {u.raw});
    assert s == Rest(u, known, pc, log + [EndOf(u, 2)], {}).(scan := s.scan);
    Go(m, s, Finish, s.(scan := Idle));
  }

  /** A scan of an empty file collects the ended migration. */
  lemma EmptyScan(m: Mode, u: UPID, synced: bool, pc: PollerPc, log: seq<Event>)
    requires Reached(m, Rest(u, Entry(u, true, true, synced), pc, log, {}))
    ensures Reached(m, Rest(u, map[], pc, log, {u.raw}))
  {
    var s0 := Rest(u, Entry(u, true, true, synced), pc, log, {});
    var s1 := s0.(scan := Between([], {}, false, 3));
    Go(m, s0, Begin([], false, 3), s1);
    assert Collect(s1.known, {}) == map[];
    assert {} + (s1.known.Keys - Collect(s1.known, {}).Keys) == {u.raw};
    Go(m, s1, Finish, Rest(u, map[], pc, log, {u.raw}));
  }

  /** The document says a synced always precedes the terminal event of its task.
      Here the scan marks the end between the poller's check and its send. */
  lemma SyncedCanTrail(u: UPID) returns (s: World)
    requires Migration(u)
    ensures Reached(Stays(u.raw), s) && Trace(s.log, u.raw, true) == [Started, Finished, Synced]
  {
    var m := Stays(u.raw);
    FirstLife(m, u);
    CheckPasses(m, u, [StartOf(u, 1)]);
    SecondScan(m, u, false, Checked, [StartOf(u, 1)]);
    var log := [StartOf(u, 1), EndOf(u, 2)];
    s := MarkAndSend(m, u, Rest(u, Entry(u, true, true, false), Checked, log, {}), 0);
    ThreeTrace(s.log, u.raw);
  }

  /** The poller's mark. */
  function Flag(u: UPID, s: World, i: nat): World
    requires i < |s.pollers|
  {
    s.(known := s.known[u.raw := Get(s.known, u.raw).(syncedEmitted := true)],
       pollers := s.pollers[i := Poller(u, Marked)])
  }

  lemma FlagIsMark(u: UPID, s: World, i: nat)
    requires Migration(u) && i < |s.pollers| && s.pollers[i] == Poller(u, Checked)
    requires !Get(s.known, u.raw).syncedEmitted
    ensures Enabled(s, MarkSynced(i)) && Do(s, MarkSynced(i)) == Flag(u, s, i)
  {
  }

  lemma SendIs(u: UPID, s: World, i: nat)
    requires Migration(u) && Room(s) && i < |s.pollers| && s.pollers[i] == Poller(u, Marked)
    ensures Enabled(s, SendSynced(i, 5))
    ensures Do(s, SendSynced(i, 5))
         == s.(log := s.log + [SyncOf(u, 5)], chan := s.chan + [SyncOf(u, 5)], pollers := s.pollers[i := Poller(u, Done(true))])
  {
  }

  /** The poller finishes its window. */
  lemma MarkAndSend(m: Mode, u: UPID, s: World, i: nat) returns (t: World)
    requires Migration(u) && !m.settled && Reached(m, s) && Room(s)
    requires i < |s.pollers| && s.pollers[i] == Poller(u, Checked) && !Get(s.known, u.raw).syncedEmitted
    ensures Reached(m, t)
    ensures t == s.(known := s.known[u.raw := Get(s.known, u.raw).(syncedEmitted := true)],
                    log := s.log + [SyncOf(u, 5)], chan := s.chan + [SyncOf(u, 5)],
                    pollers := s.pollers[i := Poller(u, Done(true))])
  {
    FlagIsMark(u, s, i);
    Go(m, s, MarkSynced(i), Flag(u, s, i));
    SendIs(u, Flag(u, s, i), i);
    t := Do(Flag(u, s, i), SendSynced(i, 5));
    Go(m, Flag(u, s, i), SendSynced(i, 5), t);
  }

  /** A scanner that never steps inside a window is not enough when a collected
      UPID returns: its old poller can send before the new start is sent. */
  lemma SyncedCanPrecedeItsStart(u: UPID) returns (s: World)
    requires Migration(u)
    ensures Reached(Separate(u.raw), s) && Trace(s.log, u.raw, true) == [Started, Finished, Synced]
    ensures u.raw in s.gone && OwesStart(s, u.raw)
  {
    var m := Separate(u.raw);
    FirstLife(m, u);
    SecondScan(m, u, false, Waiting, [StartOf(u, 1)]);
    var log := [StartOf(u, 1), EndOf(u, 2)];
    EmptyScan(m, u, false, Waiting, log);
    var s2 := Rest(u, map[], Waiting, log, {u.raw});
    s := LateHalf(m, u, s2);
    ThreeTrace(s.log, u.raw);
  }

  /** The UPID returns, and its old poller runs before the new start is out. */
  lemma {:induction false} LateHalf(m: Mode, u: UPID, s2: World) returns (s: World)
    requires Migration(u) && m == Separate(u.raw) && Reached(m, s2) && s2.scan.Idle? && Room(s2)
    requires s2.known == map[] && s2.pollers == [Poller(u, Waiting)]
    ensures Reached(m, s) && s.log == s2.log + [SyncOf(u, 5)]
    ensures OwesStart(s, u.raw) && s.gone == s2.gone
  {
    var s3 := s2.(scan := Between([Running(u)], {}, false, 4));
    Go(m, s2, Begin([Running(u)], false, 4), s3);
    var s4 := DoLine(s3);
    Go(m, s3, Line, s4);
    LateStart(s3, u);
    var s5 := s4.(pollers := [Poller(u, Checked)]);
    Go(m, s4, Check(0), s5);
    s := MarkAndSend(m, u, s5, 0);
  }

  lemma LateStart(s: World, u: UPID)
    requires Enabled(s, Line) && s.known == map[] && s.scan.rest == [Running(u)]
    ensures var t := DoLine(s);
      && Get(t.known, u.raw) == UpidState(true, false, false) && u.raw in t.known
      && t.chan == s.chan && t.log == s.log && t.pollers == s.pollers && t.gone == s.gone && OwesStart(t, u.raw)
  {
  }

  /** A check of a running migration passes. */
  lemma CheckPasses(m: Mode, u: UPID, log: seq<Event>)
    requires Reached(m, Rest(u, Entry(u, true, false, false), Waiting, log, {}))
    ensures Reached(m, Rest(u, Entry(u, true, false, false), Checked, log, {}))
  {
    Go(m, Rest(u, Entry(u, true, false, false), Waiting, log, {}), Check(0),
       Rest(u, Entry(u, true, false, false), Checked, log, {}));
  }

  lemma FlagOnce(u: UPID, log: seq<Event>)
    ensures var s := Rest(u, Entry(u, true, false, false), Checked, log, {});
      s.(known := s.known[u.raw := Get(s.known, u.raw).(syncedEmitted := true)],
         log := s.log + [SyncOf(u, 5)], chan := s.chan + [SyncOf(u, 5)], pollers := s.pollers[0 := Poller(u, Done(true))])
      == Rest(u, Entry(u, true, false, true), Done(true), log + [SyncOf(u, 5)], {})
  {
  }

  /** A running migration that has been synced. */
  lemma FirstSynced(u: UPID)
    requires Migration(u)
    ensures Reached(ANY, Rest(u, Entry(u, true, false, true), Done(true), [StartOf(u, 1)] + [SyncOf(u, 5)], {}))
  {
    FirstLife(ANY, u);
    CheckPasses(ANY, u, [StartOf(u, 1)]);
    var t := MarkAndSend(ANY, u, Rest(u, Entry(u, true, false, false), Checked, [StartOf(u, 1)], {}), 0);
    FlagOnce(u, [StartOf(u, 1)]);
  }

  /** The same migration, ended and collected. */
  lemma SyncedLife(u: UPID) returns (log: seq<Event>)
    requires Migration(u)
    ensures Reached(ANY, Rest(u, map[], Done(true), log, {u.raw}))
    ensures log == [StartOf(u, 1)] + [SyncOf(u, 5)] + [EndOf(u, 2)]
  {
    log := [StartOf(u, 1)] + [SyncOf(u, 5)];
    FirstSynced(u);
    SecondScan(ANY, u, true, Done(true), log);
    log := log + [EndOf(u, 2)];
    EmptyScan(ANY, u, true, Done(true), log);
  }

  /** Its UPID returns, and a second poller passes its check. */
  lemma SecondStart(u: UPID, log: seq<Event>) returns (s: World)
    requires Migration(u) && |log| == 3 && Reached(ANY, Rest(u, map[], Done(true), log, {u.raw}))
    ensures Reached(ANY, s) && |s.pollers| == 2 && s.pollers[1] == Poller(u, Checked) && Room(s)
    ensures s.log == log + [StartOf(u, 4)] && !Get(s.known, u.raw).syncedEmitted
  {
    var s0 := Rest(u, map[], Done(true), log, {u.raw});
    ScanOne(ANY, s0, Running(u), 4);
    var s1 := Scanned(s0, Running(u), 4);
    s := s1.(pollers := [Poller(u, Done(true)), Poller(u, Checked)]);
    Go(ANY, s1, Check(1), s);
  }

  lemma TwoMore(log: seq<Event>, a: Event, b: Event, u: string)
    requires a.upid.raw == u == b.upid.raw
    ensures Trace(log + [a] + [b], u, true) == Trace(log, u, true) + [a.phase] + [b.phase]
  {
    TraceAppend(log, [a], u, true);
    TraceOne(a, u, true);
    TraceAppend(log + [a], [b], u, true);
    TraceOne(b, u, true);
  }

  /** A UPID that returns after its collection can be synced twice. */
  lemma SyncedTwice(u: UPID) returns (s: World)
    requires Migration(u)
    ensures Reached(ANY, s) && Trace(s.log, u.raw, true) == [Started, Synced, Finished] + [Started] + [Synced]
  {
    var log := SyncedLife(u);
    var s1 := SecondStart(u, log);
    s := MarkAndSend(ANY, u, s1, 1);
    ThreeTrace(log, u.raw);
    TwoMore(log, StartOf(u, 4), SyncOf(u, 5), u.raw);
  }

  lemma ThreeTrace(log: seq<Event>, u: string)
    requires |log| == 3 && forall e <- log :: e.upid.raw == u
    ensures Trace(log, u, true) == [log[0].phase, log[1].phase, log[2].phase]
  {
    assert log == [log[0]] + [log[1]] + [log[2]];
    TraceAppend([log[0]], [log[1]], u, true);
    TraceAppend([log[0]] + [log[1]], [log[2]], u, true);
    TraceOne(log[0], u, true);
    TraceOne(log[1], u, true);
    TraceOne(log[2], u, true);
  }

  // ---- the scanner alone ----

  function Upids(ps: seq<Poller>): seq<UPID> {
    if ps == [] then [] else Upids(ps[..|ps| - 1]) + [ps[|ps| - 1].upid]
  }

  datatype Result = Result(known: Known, log: seq<Event>, pollers: seq<UPID>)

  /** The pollers started, the one still to be started included. */
  function Launched(s: World): seq<UPID> {
    Upids(s.pollers) + (if s.scan.Sending? && s.scan.cur.spawn then [s.scan.cur.item.upid] else [])
  }

  /** What the watcher will know, have logged and have started when the scan under
      way is over, if no poller marks or sends anything in between. */
  function Outcome(s: World): Result {
    if s.scan.Idle? then Result(s.known, s.log, Upids(s.pollers))
    else
      var after := After(s.known, s.scan.rest);
      Result(if s.scan.broken then after else Collect(after, s.scan.seen + Seen(s.scan.rest)),
             Full(s) + Sent(s.known, s.scan.rest, s.scan.obs),
             Launched(s) + Spawned(s.known, s.scan.rest))
  }

  lemma {:induction false} AfterHead(known: Known, items: seq<Item>)
    requires items != []
    ensures After(known, items) == After(Mark(known, items[0]), items[1..])
  {
    if |items| == 1 {
      assert items[..0] == [];
    } else {
      AfterHead(known, items[..|items| - 1]);
      assert items[..|items| - 1][1..] == items[1..][..|items| - 2];
    }
  }

  lemma {:induction false} SeenHead(items: seq<Item>)
    requires items != []
    ensures Seen(items) == {items[0].upid.raw} + Seen(items[1..])
  {
    if |items| == 1 {
      assert items[..0] == [];
    } else {
      SeenHead(items[..|items| - 1]);
      assert items[..|items| - 1][1..] == items[1..][..|items| - 2];
    }
  }

  lemma SentLast(known: Known, items: seq<Item>, obs: int)
    requires items != []
    ensures var n := |items| - 1;
      Sent(known, items, obs) == Sent(known, items[..n], obs) + Emits(After(known, items[..n]), items[n], obs)
  {
  }

  lemma TailInit<T>(xs: seq<T>)
    requires |xs| > 1
    ensures xs[1..][..|xs| - 2] == xs[..|xs| - 1][1..]
  {
  }

  lemma {:induction false} SentHead(known: Known, items: seq<Item>, obs: int)
    requires items != []
    ensures Sent(known, items, obs)
         == Emits(known, items[0], obs) + Sent(Mark(known, items[0]), items[1..], obs)
  {
    var n := |items| - 1;
    var init, k := items[..n], Mark(known, items[0]);
    SentLast(known, items, obs);
    if n == 0 {
      assert init == [];
    } else {
      SentHead(known, init, obs);
      AfterHead(known, init);
      TailInit(items);
      SentLast(k, items[1..], obs);
      Regroup(Emits(known, items[0], obs), Sent(k, init[1..], obs), Emits(After(known, init), items[n], obs));
    }
  }

  lemma {:induction false} SpawnedHead(known: Known, items: seq<Item>)
    requires items != []
    ensures Spawned(known, items)
         == (if Spawns(known, items[0]) then [items[0].upid] else []) + Spawned(Mark(known, items[0]), items[1..])
  {
    var init, k := items[..|items| - 1], Mark(known, items[0]);
    if |items| == 1 {
      assert init == [];
      assert Spawned(known, init) == [] && After(known, init) == known;
    } else {
      var last := if Spawns(After(known, init), items[|items| - 1]) then [items[|items| - 1].upid] else [];
      SpawnedHead(known, init);
      AfterHead(known, init);
      assert init[1..] == items[1..][..|items| - 2];
      assert Spawned(k, items[1..]) == Spawned(k, init[1..]) + last;
      Regroup(if Spawns(known, items[0]) then [items[0].upid] else [], Spawned(k, init[1..]), last);
    }
  }

  lemma OutcomeKept(s: World, l: Label)
    requires Enabled(s, l) && (l.Line? || l.Act? || l.Finish? || l.Recv?)
    ensures Outcome(Do(s, l)) == Outcome(s)
  {
    if l.Line? {
      OutcomeLine(s);
    } else if l.Act? {
      ActFull(s);
      ActLaunched(s);
    } else if l.Finish? {
      assert Full(s) + [] == s.log && s.log + [] == s.log;
      assert s.scan.seen + {} == s.scan.seen;
      assert Launched(s) + [] == Upids(s.pollers);
    } else {
      assert Full(Do(s, l)) == Full(s);
    }
  }

  lemma ActFull(s: World)
    requires Enabled(s, Act)
    ensures Full(DoAct(s)) == Full(s)
  {
  }

  lemma ActLaunched(s: World)
    requires Enabled(s, Act)
    ensures Launched(DoAct(s)) == Launched(s)
  {
    var p := Poller(s.scan.cur.item.upid, Waiting);
    assert (s.pollers + [p])[..|s.pollers|] == s.pollers;
  }

  lemma OutcomeLine(s: World)
    requires Enabled(s, Line)
    ensures Outcome(DoLine(s)) == Outcome(s)
  {
    var it, k := s.scan.rest[0], Mark(s.known, s.scan.rest[0]);
    AfterHead(s.known, s.scan.rest);
    SeenHead(s.scan.rest);
    SentHead(s.known, s.scan.rest, s.scan.obs);
    SpawnedHead(s.known, s.scan.rest);
    LineFullLog(s);
    assert s.scan.seen + {it.upid.raw} + Seen(s.scan.rest[1..]) == s.scan.seen + Seen(s.scan.rest);
    Regroup(s.log, Emits(s.known, it, s.scan.obs), Sent(k, s.scan.rest[1..], s.scan.obs));
    Regroup(Upids(s.pollers), if Spawns(s.known, it) then [it.upid] else [], Spawned(k, s.scan.rest[1..]));
  }

  lemma Regroup<T>(a: seq<T>, b: seq<T>, c: seq<T>)
    ensures a + b + c == a + (b + c)
  {
  }

  lemma LineFullLog(s: World)
    requires Enabled(s, Line)
    ensures Full(s) == s.log && Full(DoLine(s)) == s.log + Emits(s.known, s.scan.rest[0], s.scan.obs)
    ensures Launched(s) == Upids(s.pollers)
    ensures Launched(DoLine(s)) == Upids(s.pollers) + (if Spawns(s.known, s.scan.rest[0]) then [s.scan.rest[0].upid] else [])
  {
  }

  lemma {:induction false} OutcomeRun(s: World, ls: seq<Label>)
    requires Valid(ANY, s, ls) && forall l <- ls :: l.Line? || l.Act? || l.Finish? || l.Recv?
    ensures Outcome(Exec(s, ls)) == Outcome(s)
  {
    if ls != [] {
      OutcomeRun(s, ls[..|ls| - 1]);
      OutcomeKept(Exec(s, ls[..|ls| - 1]), ls[|ls| - 1]);
    }
  }

  lemma OutcomeAtBegin(s: World, items: seq<Item>, broken: bool, obs: int)
    requires Enabled(s, Begin(items, broken, obs))
    ensures Outcome(Do(s, Begin(items, broken, obs)))
         == Result(Scan(s.known, items, broken), s.log + Sent(s.known, items, obs),
                   Upids(s.pollers) + Spawned(s.known, items))
  {
    var s0 := Do(s, Begin(items, broken, obs));
    assert Full(s0) == s.log && Launched(s0) == Upids(s.pollers);
    assert {} + Seen(items) == Seen(items);
  }

  /** A scan of a file can always begin when none is under way. Run to its end with
      only the consumer beside it, it does step by step exactly what ParseAll is
      specified to do with the file's lines. */
  lemma {:induction false} ScanRefined(s: World, lines: seq<string>, kinds: set<Kind>, broken: bool, obs: int, ls: seq<Label>)
    requires s.scan.Idle?
    ensures var items := Items(lines, kinds);
      var s0 := Do(s, Begin(items, broken, obs));
      && Enabled(s, Begin(items, broken, obs))
      && (Valid(ANY, s0, ls) && Exec(s0, ls).scan.Idle?
          && (forall l <- ls :: l.Line? || l.Act? || l.Finish? || l.Recv?) ==>
            var t := Exec(s0, ls);
            && t.known == Scan(s.known, items, broken)
            && t.log == s.log + Sent(s.known, items, obs)
            && Upids(t.pollers) == Upids(s.pollers) + Spawned(s.known, items))
  {
    var items := Items(lines, kinds);
    ItemsGood(lines, kinds);
    var s0 := Do(s, Begin(items, broken, obs));
    OutcomeAtBegin(s, items, broken, obs);
    if Valid(ANY, s0, ls) && (forall l <- ls :: l.Line? || l.Act? || l.Finish? || l.Recv?) {
      OutcomeRun(s0, ls);
    }
  }
}
