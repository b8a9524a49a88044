/** One scan of the task list: specification, its theorems and the Watcher class
    (parseAll of internal/tasks/watcher.go). */
module Watch {
  import opened Lists
  import opened Text
  import opened Events
  import opened Upid

  datatype Event = Event(upid: UPID, kind: Kind, action: Action, phase: Phase, status: string, obs: int)

  datatype UpidState = UpidState(startedEmitted: bool, finishedEmitted: bool, syncedEmitted: bool)

  const ZERO := UpidState(false, false, false)

  type Known = map<string, UpidState>

  /** A Go map lookup: the zero value when the key is missing. */
  function Get(known: Known, k: string): UpidState { if k in known then known[k] else ZERO }

  predicate IsOpen(known: Known, u: string) {
    Get(known, u).startedEmitted && !Get(known, u).finishedEmitted
  }

  predicate IsOK(status: string) { HasPrefix(status, "OK") }

  function PhaseOf(status: string): Phase { if IsOK(status) then Finished else Failed }

  /** What a terminal event's status says of its phase: a task has finished exactly
      when its status begins with the letters O and K, and failed exactly when not. */
  predicate Verdict(p: Phase, status: string) {
    && (p == Finished <==> |status| >= 2 && status[0] == 'O' && status[1] == 'K')
    && (p == Failed <==> |status| < 2 || status[0] != 'O' || status[1] != 'K')
  }

  // ---- from lines to items ----

  /** A line that passed the parser, the worker table and the kind filter. */
  datatype Item = Item(upid: UPID, kind: Kind, action: Action, status: string)

  function Observe(line: string, kinds: set<Kind>): Option<Item> {
    if line == "" then None
    else
      match ParseActiveLine(line)
      case Err(_) => None
      case Ok((u, status)) =>
        match WorkerType(u.typ)
        case None => None
        case Some((kind, action)) =>
          if kind in kinds then Some(Item(u, kind, action, status)) else None
  }

  /** The items are exactly the parsed lines of known workers of the wanted kinds. */
  lemma ObserveExact(line: string, kinds: set<Kind>, it: Item)
    ensures Observe(line, kinds) == Some(it) <==>
      && ParseActiveLine(line) == Ok((it.upid, it.status))
      && WorkerType(it.upid.typ) == Some((it.kind, it.action)) && it.kind in kinds
  {
    if line == "" { assert TrimRight("", {'\r', '\n'}) == ""; }
  }

  function Items(lines: seq<string>, kinds: set<Kind>): seq<Item> {
    if lines == [] then []
    else
      var init := Items(lines[..|lines| - 1], kinds);
      match Observe(lines[|lines| - 1], kinds)
      case None => init
      case Some(item) => init + [item]
  }

  // ---- the effect of one item and of a list of items ----

  predicate EmitStart(known: Known, it: Item) { !Get(known, it.upid.raw).startedEmitted }

  predicate EmitEnd(known: Known, it: Item) {
    it.status != "" && !Get(known, it.upid.raw).finishedEmitted
  }

  function Mark(known: Known, it: Item): Known {
    var st := Get(known, it.upid.raw);
    known[it.upid.raw := st.(startedEmitted := true,
                             finishedEmitted := st.finishedEmitted || it.status != "")]
  }

  function StartEvent(it: Item, obs: int): Event { Event(it.upid, it.kind, it.action, Started, "", obs) }

  function EndEvent(it: Item, obs: int): Event {
    Event(it.upid, it.kind, it.action, PhaseOf(it.status), it.status, obs)
  }

  function Emits(known: Known, it: Item, obs: int): seq<Event> {
    (if EmitStart(known, it) then [StartEvent(it, obs)] else []) +
    (if EmitEnd(known, it) then [EndEvent(it, obs)] else [])
  }

  /** Whether the item starts a poller for the synced marker. */
  predicate Spawns(known: Known, it: Item) {
    EmitStart(known, it) && it.kind == QEMU && it.action == Migrate
  }

  function After(known: Known, items: seq<Item>): Known {
    if items == [] then known
    else Mark(After(known, items[..|items| - 1]), items[|items| - 1])
  }

  function Sent(known: Known, items: seq<Item>, obs: int): seq<Event> {
    if items == [] then []
    else
      var init := items[..|items| - 1];
      Sent(known, init, obs) + Emits(After(known, init), items[|items| - 1], obs)
  }

  function Spawned(known: Known, items: seq<Item>): seq<UPID> {
    if items == [] then []
    else
      var init := items[..|items| - 1];
      Spawned(known, init) +
      (if Spawns(After(known, init), items[|items| - 1]) then [items[|items| - 1].upid] else [])
  }

  function Seen(items: seq<Item>): set<string> {
    if items == [] then {} else Seen(items[..|items| - 1]) + {items[|items| - 1].upid.raw}
  }

  /** Drops the terminated UPIDs that the scan did not see. */
  function Collect(known: Known, seen: set<string>): Known {
    map k | k in known && (k in seen || !known[k].finishedEmitted) :: known[k]
  }

  /** A scan of a file; one that broke off skips the collection. */
  function Scan(known: Known, items: seq<Item>, broken: bool): Known {
    if broken then After(known, items) else Collect(After(known, items), Seen(items))
  }

  // ---- what a scan does to a single UPID ----

  /** The first status the items give for the UPID, or "". */
  function FirstStatus(items: seq<Item>, u: string): string {
    if items == [] then ""
    else
      var s := FirstStatus(items[..|items| - 1], u);
      if s == "" && items[|items| - 1].upid.raw == u then items[|items| - 1].status else s
  }

  /** The phases and statuses of the events of one UPID, in order. */
  function PhasesOf(events: seq<Event>, u: string): seq<(Phase, string)> {
    Pick(StepOfEvent(u), events)
  }

  function StepOfEvent(u: string): Event -> seq<(Phase, string)> {
    (e: Event) => if e.upid.raw == u then [(e.phase, e.status)] else []
  }

  function ExpectedPhases(st: UpidState, seen: bool, status: string): seq<(Phase, string)> {
    (if seen && !st.startedEmitted then [(Started, "")] else []) +
    (if status != "" && !st.finishedEmitted then [(PhaseOf(status), status)] else [])
  }

  function ExpectedState(st: UpidState, seen: bool, status: string): UpidState {
    st.(startedEmitted := st.startedEmitted || seen, finishedEmitted := st.finishedEmitted || status != "")
  }

  lemma PhasesOfAppend(a: seq<Event>, b: seq<Event>, u: string)
    ensures PhasesOf(a + b, u) == PhasesOf(a, u) + PhasesOf(b, u)
  {
    PickAppend(StepOfEvent(u), a, b);
  }

  lemma EmitsPhases(known: Known, it: Item, obs: int, u: string)
    ensures PhasesOf(Emits(known, it, obs), u) ==
      if it.upid.raw == u then ExpectedPhases(Get(known, u), true, it.status) else []
  {
    var s := if EmitStart(known, it) then [StartEvent(it, obs)] else [];
    var e := if EmitEnd(known, it) then [EndEvent(it, obs)] else [];
    PhasesOfAppend(s, e, u);
    PhasesOfOne(StartEvent(it, obs), u);
    PhasesOfOne(EndEvent(it, obs), u);
  }

  lemma PhasesOfOne(e: Event, u: string)
    ensures PhasesOf([e], u) == if e.upid.raw == u then [(e.phase, e.status)] else []
  {
    PickOne(StepOfEvent(u), e);
  }

  /** The whole effect of a scan on one UPID depends only on whether the file
      lists it and on the first status the file gives for it. */
  lemma {:induction false} PerUpid(known: Known, items: seq<Item>, obs: int, u: string)
    ensures Get(After(known, items), u) == ExpectedState(Get(known, u), u in Seen(items), FirstStatus(items, u))
    ensures u in After(known, items) <==> u in known || u in Seen(items)
    ensures PhasesOf(Sent(known, items, obs), u)
         == ExpectedPhases(Get(known, u), u in Seen(items), FirstStatus(items, u))
    ensures FirstStatus(items, u) != "" ==> u in Seen(items)
  {
    if items != [] {
      var init, it := items[..|items| - 1], items[|items| - 1];
      PerUpid(known, init, obs, u);
      EmitsPhases(After(known, init), it, obs, u);
      MarkGet(After(known, init), it, u);
      PhasesOfAppend(Sent(known, init, obs), Emits(After(known, init), it, obs), u);
      ExpectedTwice(Get(known, u), u in Seen(init), FirstStatus(init, u), it.status);
    }
  }

  lemma ExpectedTwice(st: UpidState, seen: bool, first: string, status: string)
    requires first != "" ==> seen
    ensures var s := if first == "" then status else first;
      && ExpectedPhases(st, seen, first) + ExpectedPhases(ExpectedState(st, seen, first), true, status)
         == ExpectedPhases(st, true, s)
      && ExpectedState(ExpectedState(st, seen, first), true, status) == ExpectedState(st, true, s)
  {
  }

  lemma MarkGet(known: Known, it: Item, u: string)
    ensures Get(Mark(known, it), u) ==
      if it.upid.raw == u then ExpectedState(Get(known, u), true, it.status) else Get(known, u)
  {
  }

  /** What an event of a scan says of the line it comes from. */
  predicate Reports(e: Event, it: Item, obs: int) {
    && e.obs == obs && e.upid == it.upid && e.kind == it.kind && e.action == it.action
    && if e.phase == Started then e.status == "" else e.status == it.status != "" && Verdict(e.phase, e.status)
  }

  lemma EmitsReport(known: Known, it: Item, obs: int, e: Event)
    requires e in Emits(known, it, obs)
    ensures Reports(e, it, obs)
  {
  }

  /** Every event of a scan carries the scan's time and reports a line of its file:
      a start without a status, or the line's status with the phase it means. */
  lemma {:induction false} SentReports(known: Known, items: seq<Item>, obs: int, e: Event)
    requires e in Sent(known, items, obs)
    ensures exists it <- items :: Reports(e, it, obs)
  {
    var init, it := items[..|items| - 1], items[|items| - 1];
    if e in Sent(known, init, obs) {
      SentReports(known, init, obs, e);
      var jt :| jt in init && Reports(e, jt, obs);
      assert jt in items;
    } else {
      EmitsReport(After(known, init), it, obs, e);
      assert it in items;
    }
  }

  function MigrationStart(): Event -> seq<UPID> {
    (e: Event) => if e.phase == Started && e.kind == QEMU && e.action == Migrate then [e.upid] else []
  }

  lemma EmitsSpawn(known: Known, it: Item, obs: int)
    ensures Pick(MigrationStart(), Emits(known, it, obs)) == if Spawns(known, it) then [it.upid] else []
  {
    var s := if EmitStart(known, it) then [StartEvent(it, obs)] else [];
    var e := if EmitEnd(known, it) then [EndEvent(it, obs)] else [];
    PickAppend(MigrationStart(), s, e);
    PickOne(MigrationStart(), StartEvent(it, obs));
    PickOne(MigrationStart(), EndEvent(it, obs));
  }

  /** A scan starts one poller for each QEMU migration it reports as started, in
      that order, and no other. */
  lemma {:induction false} SpawnedAre(known: Known, items: seq<Item>, obs: int)
    ensures Spawned(known, items) == Pick(MigrationStart(), Sent(known, items, obs))
  {
    if items != [] {
      var init, it := items[..|items| - 1], items[|items| - 1];
      SpawnedAre(known, init, obs);
      EmitsSpawn(After(known, init), it, obs);
      PickAppend(MigrationStart(), Sent(known, init, obs), Emits(After(known, init), it, obs));
    }
  }

  // ---- theorems about scans ----

  /** After a clean scan the watcher knows exactly the UPIDs of the file and the
      earlier ones that have not terminated. */
  lemma ScanKeys(known: Known, items: seq<Item>)
    ensures Scan(known, items, false).Keys
         == Seen(items) + (set u | u in known && !known[u].finishedEmitted)
  {
    forall u: string
      ensures u in Scan(known, items, false)
         <==> u in Seen(items) || (u in known && !known[u].finishedEmitted)
    {
      PerUpid(known, items, 0, u);
    }
  }

  /** The state of a UPID after a clean scan. */
  lemma ScanGet(known: Known, items: seq<Item>, u: string)
    ensures u in Seen(items) || !Get(known, u).finishedEmitted ==>
      Get(Scan(known, items, false), u)
        == ExpectedState(Get(known, u), u in Seen(items), FirstStatus(items, u))
    ensures u !in Seen(items) && Get(known, u).finishedEmitted ==> u !in Scan(known, items, false)
    ensures u in Scan(known, items, false) <==> u in Seen(items) || (u in known && !known[u].finishedEmitted)
  {
    PerUpid(known, items, 0, u);
  }

  lemma {:induction false} SeenAre(items: seq<Item>, u: string)
    ensures u in Seen(items) <==> exists it <- items :: it.upid.raw == u
  {
    if items != [] {
      var n := |items| - 1;
      SeenAre(items[..n], u);
      assert forall it <- items :: it == items[n] || it in items[..n];
      assert forall it <- items[..n] :: it in items;
      assert items[n] in items;
    }
  }

  /** A scan that breaks off forgets nothing and learns the lines it has read; one
      that does not forgets, on top, the terminated UPIDs it has not read. */
  lemma BrokenScan(known: Known, items: seq<Item>, u: string)
    ensures u in Scan(known, items, true) <==> u in known || exists it <- items :: it.upid.raw == u
    ensures Get(Scan(known, items, true), u) == ExpectedState(Get(known, u), u in Seen(items), FirstStatus(items, u))
    ensures u in Scan(known, items, false) <==>
      u in Scan(known, items, true) && (Get(known, u).finishedEmitted ==> exists it <- items :: it.upid.raw == u)
  {
    PerUpid(known, items, 0, u);
    SeenAre(items, u);
    ScanGet(known, items, u);
  }

  /** Scanning an unchanged file again emits nothing and changes nothing, even
      when the file has several lines for a UPID. */
  lemma Rescan(known: Known, items: seq<Item>, obs: int)
    ensures var k := Scan(known, items, false);
      Scan(k, items, false) == k && Sent(k, items, obs) == []
  {
    var k := Scan(known, items, false);
    forall u: string
      ensures u in Scan(k, items, false) <==> u in k
      ensures Get(Scan(k, items, false), u) == Get(k, u)
      ensures PhasesOf(Sent(k, items, obs), u) == []
    {
      ScanGet(known, items, u);
      PerUpid(known, items, obs, u);
      ScanGet(k, items, u);
      PerUpid(k, items, obs, u);
    }
    SameMap(Scan(k, items, false), k);
    NoPhasesNoEvents(Sent(k, items, obs));
  }

  lemma SameMap(a: Known, b: Known)
    requires forall u: string :: (u in a <==> u in b) && Get(a, u) == Get(b, u)
    ensures a == b
  {
  }

  lemma NoPhasesNoEvents(events: seq<Event>)
    requires forall u: string :: PhasesOf(events, u) == []
    ensures events == []
  {
    if events != [] {
      LastHasPhase(events);
    }
  }

  lemma LastHasPhase(events: seq<Event>)
    requires events != []
    ensures PhasesOf(events, events[|events| - 1].upid.raw) != []
  {
  }

  /** The two reads may be coalesced for this UPID: what the first one lists, the
      second one lists too, and a status once written is not rewritten. A UPID
      that had terminated must not skip the first read and come back. */
  predicate Coalescible(known: Known, f1: seq<Item>, f2: seq<Item>, u: string) {
    && (u in Seen(f1) ==> u in Seen(f2))
    && (FirstStatus(f1, u) != "" ==> FirstStatus(f2, u) == FirstStatus(f1, u))
    && (u in Seen(f2) && u !in Seen(f1) ==> !Get(known, u).finishedEmitted)
  }

  /** The same law on what the scans see of one UPID. */
  lemma CoalesceStates(st: UpidState, seen1: bool, s1: string, seen2: bool, s2: string)
    requires (s1 != "" ==> seen1 && s2 == s1) && (seen1 ==> seen2) && (s2 != "" ==> seen2)
    ensures var mid := ExpectedState(st, seen1, s1);
      && ExpectedState(mid, seen2, s2) == ExpectedState(st, seen2, s2)
      && ExpectedPhases(st, seen1, s1) + ExpectedPhases(mid, seen2, s2) == ExpectedPhases(st, seen2, s2)
  {
  }

  lemma CoalesceOne(known: Known, f1: seq<Item>, f2: seq<Item>, obs1: int, obs2: int, u: string)
    requires Coalescible(known, f1, f2, u) || (u !in known && u !in Seen(f1) && u !in Seen(f2))
    ensures var k := Scan(known, f1, false);
      && (u in Scan(k, f2, false) <==> u in Scan(known, f2, false))
      && Get(Scan(k, f2, false), u) == Get(Scan(known, f2, false), u)
      && PhasesOf(Sent(known, f1, obs1), u) + PhasesOf(Sent(k, f2, obs2), u) == PhasesOf(Sent(known, f2, obs2), u)
  {
    var k := Scan(known, f1, false);
    PerUpid(known, f1, obs1, u);
    ScanGet(known, f1, u);
    ScanGet(known, f2, u);
    ScanGet(k, f2, u);
    PerUpid(k, f2, obs2, u);
    PerUpid(known, f2, obs2, u);
    CoalesceStates(Get(known, u), u in Seen(f1), FirstStatus(f1, u), u in Seen(f2), FirstStatus(f2, u));
  }

  /** Coalescing loses nothing: reading F1 and then F2 gives every UPID the same
      phases, and the watcher the same knowledge, as reading F2 alone. */
  lemma Coalesce(known: Known, f1: seq<Item>, f2: seq<Item>, obs1: int, obs2: int)
    requires forall u: string :: u in known || u in Seen(f1) || u in Seen(f2) ==> Coalescible(known, f1, f2, u)
    ensures var k := Scan(known, f1, false);
      && Scan(k, f2, false) == Scan(known, f2, false)
      && forall u: string :: PhasesOf(Sent(known, f1, obs1) + Sent(k, f2, obs2), u)
                          == PhasesOf(Sent(known, f2, obs2), u)
  {
    var k := Scan(known, f1, false);
    forall u: string
      ensures u in Scan(k, f2, false) <==> u in Scan(known, f2, false)
      ensures Get(Scan(k, f2, false), u) == Get(Scan(known, f2, false), u)
      ensures PhasesOf(Sent(known, f1, obs1) + Sent(k, f2, obs2), u) == PhasesOf(Sent(known, f2, obs2), u)
    {
      CoalesceOne(known, f1, f2, obs1, obs2, u);
      PhasesOfAppend(Sent(known, f1, obs1), Sent(k, f2, obs2), u);
    }
    SameMap(Scan(k, f2, false), Scan(known, f2, false));
  }

  /** The last condition is needed: a terminated UPID that skips one read starts
      a second life, which reading F2 alone would not give it. */
  lemma CoalesceBoundary(known: Known, f1: seq<Item>, f2: seq<Item>, obs1: int, obs2: int, u: string)
    requires u in known && known[u].startedEmitted && known[u].finishedEmitted
    requires u !in Seen(f1) && u in Seen(f2)
    ensures (Started, "") in PhasesOf(Sent(Scan(known, f1, false), f2, obs2), u)
    ensures PhasesOf(Sent(known, f2, obs2), u) == []
  {
    PerUpid(known, f1, obs1, u);
    ScanGet(known, f1, u);
    PerUpid(Scan(known, f1, false), f2, obs2, u);
    PerUpid(known, f2, obs2, u);
    assert ExpectedPhases(ZERO, true, FirstStatus(f2, u))[0] == (Started, "");
  }

  // ---- the loop of a scan, line by line ----

  /** What the loop carries: the watcher's fields and the UPIDs seen so far. */
  datatype View = View(known: Known, out: seq<Event>, pollers: seq<UPID>, seen: set<string>)

  function StepItem(v: View, it: Item, obs: int): View {
    View(Mark(v.known, it),
         v.out + Emits(v.known, it, obs),
         v.pollers + (if Spawns(v.known, it) then [it.upid] else []),
         v.seen + {it.upid.raw})
  }

  function StepLine(v: View, line: string, kinds: set<Kind>, obs: int): View {
    match Observe(line, kinds)
    case None => v
    case Some(it) => StepItem(v, it, obs)
  }

  function StepLines(v: View, lines: seq<string>, kinds: set<Kind>, obs: int): View {
    if lines == [] then v
    else StepLine(StepLines(v, lines[..|lines| - 1], kinds, obs), lines[|lines| - 1], kinds, obs)
  }

  function Whole(v: View, items: seq<Item>, obs: int): View {
    View(After(v.known, items), v.out + Sent(v.known, items, obs),
         v.pollers + Spawned(v.known, items), v.seen + Seen(items))
  }

  lemma WholeSnoc(v: View, items: seq<Item>, it: Item, obs: int)
    ensures StepItem(Whole(v, items, obs), it, obs) == Whole(v, items + [it], obs)
  {
  }

  lemma {:induction false} LinesWhole(v: View, lines: seq<string>, kinds: set<Kind>, obs: int)
    ensures StepLines(v, lines, kinds, obs) == Whole(v, Items(lines, kinds), obs)
  {
    if lines != [] {
      var init := lines[..|lines| - 1];
      LinesWhole(v, init, kinds, obs);
      var o := Observe(lines[|lines| - 1], kinds);
      if o.Some? {
        WholeSnoc(v, Items(init, kinds), o.value, obs);
      }
    }
  }

  /** The watcher. `out` is everything it has put on its channel, `pollers` the
      UPIDs it has started a synced poller for. */
  class Watcher {
    const kinds: set<Kind>
    var known: Known
    var out: seq<Event>
    var pollers: seq<UPID>

    constructor (filter: seq<Kind>)
      ensures kinds == if filter == [] then {QEMU, LXC} else set k | k in filter
      ensures known == map[] && out == [] && pollers == []
    {
      kinds := if filter == [] then {QEMU, LXC} else set k | k in filter;
      known, out, pollers := map[], [], [];
    }

    /** One read of the file: its lines, and whether the read broke off. */
    method ParseAll(lines: seq<string>, broken: bool, obs: int)
      modifies this
      ensures known == Scan(old(known), Items(lines, kinds), broken)
      ensures out == old(out) + Sent(old(known), Items(lines, kinds), obs)
      ensures pollers == old(pollers) + Spawned(old(known), Items(lines, kinds))
    {
      var seen: set<string> := {};
      ghost var start := View(known, out, pollers, seen);
      for i := 0 to |lines|
        invariant View(known, out, pollers, seen) == StepLines(start, lines[..i], kinds, obs)
      {
        assert lines[..i + 1][..i] == lines[..i];
        seen := ParseLine(lines[i], seen, obs);
      }
      assert lines[..|lines|] == lines;
      LinesWhole(start, lines, kinds, obs);
      if broken {
        return;
      }
      known := map k | k in known && (k in seen || !known[k].finishedEmitted) :: known[k];
    }

    /** The body of the loop. */
    method ParseLine(line: string, seen: set<string>, obs: int) returns (seen': set<string>)
      modifies this
      ensures View(known, out, pollers, seen') == StepLine(old(View(known, out, pollers, seen)), line, kinds, obs)
    {
      var item := Admit(line);
      if item.None? {
        return seen;
      }
      seen' := seen + {item.value.upid.raw};
      ParseOne(item.value, obs);
    }

    /** The filters at the head of the loop. */
    method Admit(line: string) returns (item: Option<Item>)
      ensures item == Observe(line, kinds)
    {
      if line == "" {
        return None;
      }
      var parsed := ParseActiveLine(line);
      if parsed.Err? {
        return None;
      }
      var (upid, status) := parsed.value;
      var worker := WorkerType(upid.typ);
      if worker.None? {
        return None;
      }
      var (kind, action) := worker.value;
      if kind !in kinds {
        return None;
      }
      return Some(Item(upid, kind, action, status));
    }

    /** The body of the loop for a line that passed the filters. */
    method ParseOne(it: Item, obs: int)
      modifies this
      ensures known == Mark(old(known), it)
      ensures out == old(out) + Emits(old(known), it, obs)
      ensures pollers == old(pollers) + (if Spawns(old(known), it) then [it.upid] else [])
    {
      var Item(upid, kind, action, status) := it;
      var st := if upid.raw in known then known[upid.raw] else UpidState(false, false, false);
      var emitStart := !st.startedEmitted;
      var emitEnd := status != "" && !st.finishedEmitted;
      if emitStart {
        st := st.(startedEmitted := true);
      }
      if emitEnd {
        st := st.(finishedEmitted := true);
      }
      known := known[upid.raw := st];
      if emitStart {
        out := out + [Event(upid, kind, action, Started, "", obs)];
        if kind == QEMU && action == Migrate {
          pollers := pollers + [upid];
        }
      }
      if emitEnd {
        var phase := Finished;
        if !IsOK(status) {
          phase := Failed;
        }
        out := out + [Event(upid, kind, action, phase, status, obs)];
      }
    }
  }
}
