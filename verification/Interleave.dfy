/** The watcher with its concurrent parts: the scanning goroutine, any number of
    synced pollers and the bounded event channel, interleaved step by step
    (parseAll and watchMigrationSynced of internal/tasks/watcher.go).

    Every block under the mutex is one step and every channel send is another.
    `log` (everything ever sent) and `gone` (every UPID a scan has collected)
    are history: no step reads them. */
module Interleave {
  import opened Text
  import opened Events
  import opened Lists
  import opened Upid
  import opened Watch

  const CAPACITY: nat := 256

  datatype PollerPc = Waiting | Checked | Marked | Done(sent: bool)
  datatype Poller = Poller(upid: UPID, pc: PollerPc)

  /** What the scanner still owes for the item it has just marked. */
  datatype Owed = Owed(item: Item, start: bool, spawn: bool, end: bool)

  datatype Scanner =
    | Idle
    | Between(rest: seq<Item>, seen: set<string>, broken: bool, obs: int)
    | Sending(rest: seq<Item>, seen: set<string>, broken: bool, obs: int, cur: Owed)

  datatype World = World(
    known: Known, scan: Scanner, pollers: seq<Poller>, chan: seq<Event>,
    log: seq<Event>, gone: set<string>)

  const INIT := World(map[], Idle, [], [], [], {})

  datatype Label =
    | Begin(items: seq<Item>, broken: bool, obs: int)  // the file is read
    | Line                                             // one line is marked
    | Act                                              // one send, or the go statement
    | Finish                                           // the collection, or the read error
    | Check(i: nat)                                    // a poller's first look at the map
    | Retry(i: nat)                                    // no log file, or no marker in it
    | MarkSynced(i: nat)                               // the marker was found
    | SendSynced(i: nat, now: int)
    | Quit(i: nat)                                     // cancelled while waiting
    | Recv                                             // the consumer takes an event

  predicate GoodUpid(u: UPID) { ParseUPID(u.raw) == Ok(u) }

  /** What every line that passes the filters gives (see ItemsGood). */
  predicate GoodItem(it: Item) {
    GoodUpid(it.upid) && WorkerType(it.upid.typ) == Some((it.kind, it.action))
  }

  lemma LineGood(line: string)
    ensures ParseActiveLine(line).Ok? ==> GoodUpid(ParseActiveLine(line).value.0)
  {
    if ParseActiveLine(line).Ok? {
      RawIsInput(Cut(TrimRight(line, {'\r', '\n'}), ' ').0);
    }
  }

  lemma ObserveGood(line: string, kinds: set<Kind>)
    ensures Observe(line, kinds).Some? ==> GoodItem(Observe(line, kinds).value)
  {
    LineGood(line);
  }

  /** So a scan can begin on whatever the file holds. */
  lemma {:induction false} ItemsGood(lines: seq<string>, kinds: set<Kind>)
    ensures forall it <- Items(lines, kinds) :: GoodItem(it)
  {
    if lines != [] {
      ItemsGood(lines[..|lines| - 1], kinds);
      ObserveGood(lines[|lines| - 1], kinds);
    }
  }

  predicate Settled(o: Owed) { !o.start && !o.spawn && !o.end }

  function Next(s: Scanner, o: Owed): Scanner
    requires !s.Idle?
  {
    if Settled(o) then Between(s.rest, s.seen, s.broken, s.obs)
    else Sending(s.rest, s.seen, s.broken, s.obs, o)
  }

  predicate PollerAt(s: World, i: nat, pc: PollerPc) { i < |s.pollers| && s.pollers[i].pc == pc }

  predicate Room(s: World) { |s.chan| < CAPACITY }

  predicate Enabled(s: World, l: Label) {
    match l
    case Begin(items, _, _) => s.scan.Idle? && forall it <- items :: GoodItem(it)
    case Line => s.scan.Between? && s.scan.rest != []
    case Act => s.scan.Sending? && (s.scan.cur.start || (!s.scan.cur.spawn && s.scan.cur.end) ==> Room(s))
    case Finish => s.scan.Between? && s.scan.rest == []
    case Check(i) => PollerAt(s, i, Waiting)
    case Retry(i) => PollerAt(s, i, Checked)
    case MarkSynced(i) => PollerAt(s, i, Checked)
    case SendSynced(i, _) => PollerAt(s, i, Marked) && Room(s)
    case Quit(i) => PollerAt(s, i, Waiting)
    case Recv => s.chan != []
  }

  function Send(s: World, e: Event): World { s.(chan := s.chan + [e], log := s.log + [e]) }

  function SetPc(s: World, i: nat, pc: PollerPc): World
    requires i < |s.pollers|
  {
    s.(pollers := s.pollers[i := s.pollers[i].(pc := pc)])
  }

  function SyncedEvent(u: UPID, now: int): Event {
    match WorkerType(u.typ)
    case Some((kind, action)) => Event(u, kind, action, Synced, "", now)
    case None => Event(u, NoKind, NoAction, Synced, "", now)
  }

  function DoLine(s: World): World
    requires Enabled(s, Line)
  {
    var it := s.scan.rest[0];
    var owed := Owed(it, EmitStart(s.known, it), Spawns(s.known, it), EmitEnd(s.known, it));
    s.(known := Mark(s.known, it),
       scan := Next(Between(s.scan.rest[1..], s.scan.seen + {it.upid.raw}, s.scan.broken, s.scan.obs), owed))
  }

  function DoAct(s: World): World
    requires Enabled(s, Act)
  {
    var o := s.scan.cur;
    if o.start then
      Send(s, StartEvent(o.item, s.scan.obs)).(scan := Next(s.scan, o.(start := false)))
    else if o.spawn then
      s.(pollers := s.pollers + [Poller(o.item.upid, Waiting)], scan := Next(s.scan, o.(spawn := false)))
    else if o.end then
      Send(s, EndEvent(o.item, s.scan.obs)).(scan := Next(s.scan, o.(end := false)))
    else s.(scan := Next(s.scan, o))
  }

  function DoFinish(s: World): World
    requires Enabled(s, Finish)
  {
    if s.scan.broken then s.(scan := Idle)
    else
      var known := Collect(s.known, s.scan.seen);
      s.(known := known, scan := Idle, gone := s.gone + (s.known.Keys - known.Keys))
  }

  function DoCheck(s: World, i: nat): World
    requires PollerAt(s, i, Waiting)
  {
    var u := s.pollers[i].upid.raw;
    if u !in s.known || s.known[u].finishedEmitted then SetPc(s, i, Done(false)) else SetPc(s, i, Checked)
  }

  /** The write does not look again at whether the entry is still there. */
  function DoMarkSynced(s: World, i: nat): World
    requires PollerAt(s, i, Checked)
  {
    var u := s.pollers[i].upid.raw;
    var st := Get(s.known, u);
    var marked := s.(known := s.known[u := st.(syncedEmitted := true)]);
    if st.syncedEmitted || WorkerType(s.pollers[i].upid.typ).None? then SetPc(marked, i, Done(false))
    else SetPc(marked, i, Marked)
  }

  function Do(s: World, l: Label): World {
    if !Enabled(s, l) then s else
      match l
      case Begin(items, broken, obs) => s.(scan := Between(items, {}, broken, obs))
      case Line => DoLine(s)
      case Act => DoAct(s)
      case Finish => DoFinish(s)
      case Check(i) => DoCheck(s, i)
      case Retry(i) => SetPc(s, i, Waiting)
      case MarkSynced(i) => DoMarkSynced(s, i)
      case SendSynced(i, now) => SetPc(Send(s, SyncedEvent(s.pollers[i].upid, now)), i, Done(true))
      case Quit(i) => SetPc(s, i, Done(false))
      case Recv => s.(chan := s.chan[1..])
  }

  // ---- runs ----

  /** Conditions on the environment and the schedule, as far as they concern the
      UPID `of`; nothing is asked for any other UPID.
      noReturn: once a scan has collected it, no file lists it again.
      apart: no scan marks its end while a poller of it is between check and send.
      settled: no poller of it sends while its start is still to be sent. */
  datatype Mode = Mode(of: string, noReturn: bool, apart: bool, settled: bool)

  const ANY := Mode("", false, false, false)

  function Stays(u: string): Mode { Mode(u, true, false, false) }
  function Separate(u: string): Mode { Mode(u, false, true, false) }

  predicate InWindow(p: Poller) { p.pc == Checked || p.pc == Marked }

  predicate ScannerLabel(l: Label) { l.Begin? || l.Line? || l.Act? || l.Finish? }

  predicate OwesStart(s: World, u: string) {
    s.scan.Sending? && s.scan.cur.start && s.scan.cur.item.upid.raw == u
  }

  /** A poller of the UPID sends before the scanner has sent its start. */
  predicate SendsEarly(s: World, l: Label, u: string) {
    l.SendSynced? && l.i < |s.pollers| && s.pollers[l.i].upid.raw == u && OwesStart(s, u)
  }

  /** The scanner reads a line of the UPID. */
  predicate ReadsLine(s: World, l: Label, u: string) {
    l.Line? && s.scan.Between? && s.scan.rest != [] && s.scan.rest[0].upid.raw == u
  }

  /** The scanner marks the end of the UPID. */
  predicate MarksEnd(s: World, l: Label, u: string) { ReadsLine(s, l, u) && EmitEnd(s.known, s.scan.rest[0]) }

  predicate NoWindow(s: World, u: string) { forall p <- s.pollers :: p.upid.raw == u ==> !InWindow(p) }

  predicate Allowed(m: Mode, s: World, l: Label) {
    && Enabled(s, l)
    && (m.noReturn && l.Begin? && m.of in s.gone ==> forall it <- l.items :: it.upid.raw != m.of)
    && (m.apart && MarksEnd(s, l, m.of) ==> NoWindow(s, m.of))
    && (m.settled ==> !SendsEarly(s, l, m.of))
  }

  function Exec(s: World, ls: seq<Label>): World {
    if ls == [] then s else Do(Exec(s, ls[..|ls| - 1]), ls[|ls| - 1])
  }

  predicate Valid(m: Mode, s: World, ls: seq<Label>) {
    ls == [] || (Valid(m, s, ls[..|ls| - 1]) && Allowed(m, Exec(s, ls[..|ls| - 1]), ls[|ls| - 1]))
  }

  lemma Extend(m: Mode, s: World, ls: seq<Label>, l: Label)
    requires Valid(m, s, ls) && Allowed(m, Exec(s, ls), l)
    ensures Valid(m, s, ls + [l]) && Exec(s, ls + [l]) == Do(Exec(s, ls), l)
  {
  }

  // ---- traces of one UPID ----

  function PhaseOfEvent(u: string, synced: bool): Event -> seq<Phase> {
    (e: Event) => if e.upid.raw == u && (synced || e.phase != Synced) then [e.phase] else []
  }

  /** The phases logged for a UPID, with or without the pollers' events. */
  function Trace(events: seq<Event>, u: string, synced: bool): seq<Phase> {
    Pick(PhaseOfEvent(u, synced), events)
  }

  function Count(events: seq<Event>, u: string, p: Phase): nat {
    if events == [] then 0
    else
      var e := events[|events| - 1];
      Count(events[..|events| - 1], u, p) + (if e.upid.raw == u && e.phase == p then 1 else 0)
  }

  /** started, terminal, started, terminal, ... */
  predicate Alternates(t: seq<Phase>) {
    forall i :: 0 <= i < |t| ==> if i % 2 == 0 then t[i] == Started else Terminal(t[i])
  }

  /** Repetitions of: started, at most one synced, terminal. */
  predicate Grammar(t: seq<Phase>) {
    forall i: nat :: i < |t| ==> Fits(t, i)
  }

  predicate Fits(t: seq<Phase>, i: nat)
    requires i < |t|
  {
    if i == 0 || Terminal(t[i - 1]) then t[i] == Started
    else Terminal(t[i]) || (t[i] == Synced && t[i - 1] == Started)
  }

  /** The events the scanner has marked and not yet sent. */
  function OwedEvents(s: World): seq<Event> {
    if s.scan.Sending? then
      (if s.scan.cur.start then [StartEvent(s.scan.cur.item, s.scan.obs)] else []) +
      (if s.scan.cur.end then [EndEvent(s.scan.cur.item, s.scan.obs)] else [])
    else []
  }

  /** The log as it will be once the scanner has sent what it owes. */
  function Full(s: World): seq<Event> { s.log + OwedEvents(s) }

  lemma TraceAppend(a: seq<Event>, b: seq<Event>, u: string, synced: bool)
    ensures Trace(a + b, u, synced) == Trace(a, u, synced) + Trace(b, u, synced)
  {
    PickAppend(PhaseOfEvent(u, synced), a, b);
  }

  lemma TraceOne(e: Event, u: string, synced: bool)
    ensures Trace([e], u, synced) == if e.upid.raw == u && (synced || e.phase != Synced) then [e.phase] else []
  {
    PickOne(PhaseOfEvent(u, synced), e);
  }

  /** In an alternating trace the counts are fixed by the length. */
  lemma {:induction false} CountOfLane(events: seq<Event>, u: string)
    requires Alternates(Trace(events, u, false))
    ensures var n := |Trace(events, u, false)|;
      && Count(events, u, Started) == (n + 1) / 2
      && Count(events, u, Finished) + Count(events, u, Failed) == n / 2
  {
    if events != [] {
      var init := events[..|events| - 1];
      var t, t' := Trace(init, u, false), Trace(events, u, false);
      assert forall i :: 0 <= i < |t| ==> t[i] == t'[i];
      CountOfLane(init, u);
      if |t'| > |t| {
        assert t'[|t|] == events[|events| - 1].phase;
      }
    }
  }

  /** The events the scanner owes, seen from one UPID. */
  lemma OwedTrace(s: World, u: string, synced: bool)
    ensures Trace(OwedEvents(s), u, synced) ==
      if s.scan.Sending? && s.scan.cur.item.upid.raw == u then
        (if s.scan.cur.start then [Started] else []) +
        (if s.scan.cur.end then [PhaseOf(s.scan.cur.item.status)] else [])
      else []
    ensures Trace(Full(s), u, synced) == Trace(s.log, u, synced) + Trace(OwedEvents(s), u, synced)
  {
    TraceAppend(s.log, OwedEvents(s), u, synced);
    if s.scan.Sending? {
      var a, b := StartEvent(s.scan.cur.item, s.scan.obs), EndEvent(s.scan.cur.item, s.scan.obs);
      TraceAppend(if s.scan.cur.start then [a] else [], if s.scan.cur.end then [b] else [], u, synced);
      TraceOne(a, u, synced);
      TraceOne(b, u, synced);
    }
  }

  /** How a step changes the marked trace of a UPID: a line adds what it marks,
      a synced send adds one event before what is owed, nothing else matters. */
  lemma FullStep(s: World, l: Label, u: string, synced: bool)
    requires Enabled(s, l)
    ensures var t, t' := Trace(Full(s), u, synced), Trace(Full(Do(s, l)), u, synced);
      if l.Line? then t' == t + LineTrace(s, u)
      else if l.SendSynced? && s.pollers[l.i].upid.raw == u && synced then
        t' == Trace(s.log, u, synced) + [Synced] + Trace(OwedEvents(s), u, synced)
      else t' == t
  {
    if l.Act? {
      ActLog(s, u, synced);
    } else if l.Line? {
      LineFull(s, u, synced);
    } else if l.SendSynced? {
      SyncedFull(s, l.i, l.now, u, synced);
    } else {
      assert Full(Do(s, l)) == Full(s);
    }
  }

  lemma LineFull(s: World, u: string, synced: bool)
    requires Enabled(s, Line)
    ensures Trace(Full(DoLine(s)), u, synced) == Trace(Full(s), u, synced) + LineTrace(s, u)
  {
    OwedTrace(DoLine(s), u, synced);
    assert Full(s) == s.log;
  }

  lemma SyncedFull(s: World, i: nat, now: int, u: string, synced: bool)
    requires Enabled(s, SendSynced(i, now))
    ensures var t, t' := Trace(Full(s), u, synced), Trace(Full(Do(s, SendSynced(i, now))), u, synced);
      if s.pollers[i].upid.raw == u && synced then
        t' == Trace(s.log, u, synced) + [Synced] + Trace(OwedEvents(s), u, synced)
      else t' == t
  {
    SyncedShape(s, i, now);
    SyncedInsert(s.log, SyncedEvent(s.pollers[i].upid, now), OwedEvents(s), u, synced);
  }

  lemma SyncedInsert(log: seq<Event>, e: Event, owed: seq<Event>, u: string, synced: bool)
    requires e.phase == Synced
    ensures Trace(log + [e] + owed, u, synced) ==
      if e.upid.raw == u && synced then Trace(log, u, synced) + [Synced] + Trace(owed, u, synced)
      else Trace(log + owed, u, synced)
  {
    InsertTrace(log, e, owed, u, synced);
    assert Trace(log, u, synced) + [] == Trace(log, u, synced);
  }

  lemma SyncedShape(s: World, i: nat, now: int)
    requires Enabled(s, SendSynced(i, now))
    ensures var e := SyncedEvent(s.pollers[i].upid, now);
      && e.upid == s.pollers[i].upid && e.phase == Synced
      && Full(Do(s, SendSynced(i, now))) == s.log + [e] + OwedEvents(s)
  {
  }

  lemma InsertTrace(log: seq<Event>, e: Event, owed: seq<Event>, u: string, synced: bool)
    ensures Trace(log + owed, u, synced) == Trace(log, u, synced) + Trace(owed, u, synced)
    ensures Trace(log + [e] + owed, u, synced)
         == Trace(log, u, synced) + (if e.upid.raw == u && (synced || e.phase != Synced) then [e.phase] else [])
            + Trace(owed, u, synced)
  {
    TraceAppend(log, [e], u, synced);
    TraceOne(e, u, synced);
    TraceAppend(log, owed, u, synced);
    TraceAppend(log + [e], owed, u, synced);
  }

  /** What the next line adds to the trace of a UPID. */
  function LineTrace(s: World, u: string): seq<Phase>
    requires Enabled(s, Line)
  {
    var it := s.scan.rest[0];
    if it.upid.raw == u then
      (if EmitStart(s.known, it) then [Started] else []) +
      (if EmitEnd(s.known, it) then [PhaseOf(it.status)] else [])
    else []
  }

  lemma ActLog(s: World, u: string, synced: bool)
    requires Enabled(s, Act)
    ensures Trace(Full(DoAct(s)), u, synced) == Trace(Full(s), u, synced)
  {
    var o := s.scan.cur;
    var a, b := StartEvent(o.item, s.scan.obs), EndEvent(o.item, s.scan.obs);
    if o.start {
      assert s.log + [a] + (if o.end then [b] else []) == Full(s);
    } else if o.end {
      assert s.log + [b] + [] == Full(s);
    }
    assert Full(DoAct(s)) == Full(s);
  }
}
