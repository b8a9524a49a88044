/** Runs in which no scan marks the end of one UPID while a poller of it is between
    check and send: exactly when its log has the documented order started, synced,
    terminal. */
module Apart {
  import opened Events
  import opened Upid
  import opened Watch
  import opened Interleave
  import opened Ordering
  import opened Boundary

  predicate OwedQuiet(s: World, u: string) {
    s.scan.Sending? && s.scan.cur.item.upid.raw == u ==> !s.scan.cur.end
  }

  predicate Windows(s: World, u: string) {
    && (u in s.known ==> s.known[u].startedEmitted)
    && (forall i :: 0 <= i < |s.pollers| && s.pollers[i].upid.raw == u && InWindow(s.pollers[i]) ==>
          && IsOpen(s.known, u) && OwedQuiet(s, u)
          && (s.pollers[i].pc == Marked ==> s.known[u].syncedEmitted))
    && (forall i, j :: 0 <= i < j < |s.pollers| && s.pollers[i].pc == Marked && s.pollers[j].pc == Marked ==>
          s.pollers[i].upid.raw != u || s.pollers[j].upid.raw != u)
  }

  predicate SomeMarked(s: World, u: string) {
    exists i :: 0 <= i < |s.pollers| && s.pollers[i].upid.raw == u && s.pollers[i].pc == Marked
  }

  /** A trace in order that agrees with the watcher's entry for the UPID. */
  predicate Agrees(q: seq<Phase>, st: UpidState, marked: bool) {
    && Grammar(q)
    && if !st.startedEmitted || st.finishedEmitted then q == [] || Terminal(q[|q| - 1])
       else q != [] && q[|q| - 1] == if st.syncedEmitted && !marked then Synced else Started
  }

  predicate InOrder(s: World, u: string) {
    Agrees(Trace(Full(s), u, true), Get(s.known, u), SomeMarked(s, u))
  }

  /** The step does not mark the UPID's end inside a window of it, and does not send
      before its start is out. */
  predicate Calm(s: World, l: Label, u: string) {
    && Enabled(s, l)
    && (MarksEnd(s, l, u) ==> NoWindow(s, u))
    && !SendsEarly(s, l, u)
  }

  lemma {:induction false} WindowsStep(s: World, l: Label, u: string)
    requires Shape(s) && Windows(s, u) && Calm(s, l, u)
    ensures Windows(Do(s, l), u)
  {
    if ScannerLabel(l) {
      WindowsScanner(s, l, u);
    } else if !l.Recv? {
      PollerMoves(s, l);
      if s.pollers[l.i].upid.raw == u {
        WindowsMine(s, l, u);
      } else {
        WindowsOther(s, l, u);
      }
    }
  }

  lemma WindowsScanner(s: World, l: Label, u: string)
    requires Shape(s) && Windows(s, u) && Calm(s, l, u) && ScannerLabel(l)
    ensures Windows(Do(s, l), u)
  {
    ScannerPollers(s, l);
    ScannerEntry(s, l, u);
    if !NoWindow(s, u) { OpenKeeps(s, l, u); }
  }

  /** The scanner moves no poller; it adds waiting ones. */
  lemma ScannerPollers(s: World, l: Label)
    requires Enabled(s, l) && ScannerLabel(l)
    ensures var ps, qs := s.pollers, Do(s, l).pollers;
      && |ps| <= |qs| && qs[..|ps|] == ps
      && forall i :: |ps| <= i < |qs| ==> qs[i].pc == Waiting
  {
  }

  lemma ScannerEntry(s: World, l: Label, u: string)
    requires Enabled(s, l) && ScannerLabel(l) && (u in s.known ==> s.known[u].startedEmitted)
    ensures u in Do(s, l).known ==> Do(s, l).known[u].startedEmitted
  {
  }

  /** While a poller of the UPID is in its window, the scanner leaves its entry alone
      and owes nothing more for it. */
  lemma OpenKeeps(s: World, l: Label, u: string)
    requires Windows(s, u) && Calm(s, l, u) && ScannerLabel(l) && !NoWindow(s, u)
    ensures var s' := Do(s, l);
      && u in s.known && IsOpen(s.known, u) && u in s'.known && s'.known[u] == s.known[u] && OwedQuiet(s', u)
      && (l.Line? ==> LineTrace(s, u) == [])
  {
    var p :| p in s.pollers && p.upid.raw == u && InWindow(p);
    var i :| 0 <= i < |s.pollers| && s.pollers[i] == p;
  }

  /** A poller of another UPID moves. */
  lemma WindowsOther(s: World, l: Label, u: string)
    requires Windows(s, u) && Enabled(s, l) && !ScannerLabel(l) && !l.Recv? && s.pollers[l.i].upid.raw != u
    ensures Windows(Do(s, l), u)
  {
    PollerMoves(s, l);
    OtherEntry(s, l, u);
    var s' := Do(s, l);
    forall i | 0 <= i < |s.pollers| && s.pollers[i].upid.raw == u ensures s'.pollers[i] == s.pollers[i] {
    }
  }

  lemma OtherEntry(s: World, l: Label, u: string)
    requires Enabled(s, l) && !ScannerLabel(l) && !l.Recv? && s.pollers[l.i].upid.raw != u
    ensures var known := Do(s, l).known; (u in known <==> u in s.known) && (u in known ==> known[u] == s.known[u])
  {
  }

  /** The poller of the UPID that moves, against itself and against its siblings. */
  lemma WindowsMine(s: World, l: Label, u: string)
    requires Shape(s) && Windows(s, u) && Calm(s, l, u) && !ScannerLabel(l) && !l.Recv? && s.pollers[l.i].upid.raw == u
    ensures Windows(Do(s, l), u)
  {
    var s' := Do(s, l);
    PollerMoves(s, l);
    MyEntry(s, l, u);
    forall i | 0 <= i < |s.pollers| && i != l.i ensures s'.pollers[i] == s.pollers[i] {
    }
  }

  lemma MyEntry(s: World, l: Label, u: string)
    requires Shape(s) && Windows(s, u) && Calm(s, l, u) && !ScannerLabel(l) && !l.Recv? && s.pollers[l.i].upid.raw == u
    ensures var s' := Do(s, l);
      && (u in s'.known <==> u in s.known)
      && (u in s.known ==> s'.known[u] == s.known[u] || s'.known[u] == s.known[u].(syncedEmitted := true))
      && (InWindow(s'.pollers[l.i]) ==> IsOpen(s'.known, u) && OwedQuiet(s', u))
      && (s'.pollers[l.i].pc == Marked ==> s'.known[u].syncedEmitted)
      && (s'.pollers[l.i].pc == Marked ==>
            forall j :: 0 <= j < |s.pollers| && s.pollers[j].pc == Marked ==> s.pollers[j].upid.raw != u)
  {
  }

  lemma {:induction false} InOrderStep(s: World, l: Label, u: string)
    requires Shape(s) && Windows(s, u) && InOrder(s, u) && Calm(s, l, u)
    ensures InOrder(Do(s, l), u)
  {
    FullStep(s, l, u, true);
    if l.Line? {
      InOrderLine(s, u);
    } else if ScannerLabel(l) || l.Recv? {
      InOrderScanner(s, l, u);
    } else if l.SendSynced? {
      InOrderSend(s, l.i, l.now, u);
    } else {
      InOrderPoller(s, l, u);
    }
  }

  lemma GrammarSnoc(q: seq<Phase>, p: Phase)
    requires Grammar(q)
    requires if q == [] || Terminal(q[|q| - 1]) then p == Started
             else Terminal(p) || (p == Synced && q[|q| - 1] == Started)
    ensures Grammar(q + [p])
  {
    forall i: nat | i < |q + [p]| ensures Fits(q + [p], i) {
      if i < |q| { assert Fits(q, i); }
    }
  }

  lemma GrammarPrefix(t: seq<Phase>, q: seq<Phase>)
    requires Grammar(q) && t <= q
    ensures Grammar(t)
  {
    forall i: nat | i < |t| ensures Fits(t, i) { assert Fits(q, i); }
  }

  lemma NoneMarked(s: World, u: string)
    requires NoWindow(s, u)
    ensures !SomeMarked(s, u)
  {
    if SomeMarked(s, u) {
      var i :| 0 <= i < |s.pollers| && s.pollers[i].upid.raw == u && s.pollers[i].pc == Marked;
      assert s.pollers[i] in s.pollers;
      assert InWindow(s.pollers[i]);
    }
  }

  lemma {:induction false} InOrderLine(s: World, u: string)
    requires Shape(s) && Windows(s, u) && InOrder(s, u) && Calm(s, Line, u)
    requires Trace(Full(DoLine(s)), u, true) == Trace(Full(s), u, true) + LineTrace(s, u)
    ensures InOrder(DoLine(s), u)
  {
    var it, q := s.scan.rest[0], Trace(Full(s), u, true);
    MarkedKept(s, Line, u);
    if NoWindow(s, u) {
      NoneMarked(s, u);
      MarkGet(s.known, it, u);
      LineAgrees(q, Get(s.known, u), it.upid.raw == u, it);
    } else {
      OpenKeeps(s, Line, u);
      assert q + [] == q;
    }
  }

  /** The scanner's steps leave the marked pollers as they are. */
  lemma MarkedKept(s: World, l: Label, u: string)
    requires Enabled(s, l) && ScannerLabel(l)
    ensures SomeMarked(Do(s, l), u) == SomeMarked(s, u)
  {
    ScannerPollers(s, l);
    var ps, qs := s.pollers, Do(s, l).pollers;
    assert forall i :: 0 <= i < |ps| ==> qs[i] == ps[i];
  }

  lemma LineAgrees(q: seq<Phase>, st: UpidState, mine: bool, it: Item)
    requires Agrees(q, st, false) && (st == ZERO || st.startedEmitted)
    ensures
      var start, end := !st.startedEmitted, it.status != "" && !st.finishedEmitted;
      Agrees(q + (if mine then (if start then [Started] else []) + (if end then [PhaseOf(it.status)] else []) else []),
             if mine then ExpectedState(st, true, it.status) else st, false)
  {
    if mine {
      LineFits(q, !st.startedEmitted, it.status != "" && !st.finishedEmitted, PhaseOf(it.status));
    } else {
      assert q + [] == q;
    }
  }

  /** What a line adds to a trace in order keeps it in order. */
  lemma LineFits(q: seq<Phase>, start: bool, end: bool, p: Phase)
    requires Grammar(q) && Terminal(p)
    requires start ==> q == [] || Terminal(q[|q| - 1])
    requires end && !start ==> q != [] && !Terminal(q[|q| - 1])
    ensures var r := q + ((if start then [Started] else []) + (if end then [p] else []));
      && Grammar(r)
      && (end ==> r != [] && r[|r| - 1] == p)
      && (start && !end ==> r != [] && r[|r| - 1] == Started)
      && (!start && !end ==> r == q)
  {
    var q1 := if start then q + [Started] else q;
    if start { GrammarSnoc(q, Started); }
    if end { GrammarSnoc(q1, p); }
    assert q + ((if start then [Started] else []) + (if end then [p] else [])) == if end then q1 + [p] else q1;
  }

  lemma InOrderScanner(s: World, l: Label, u: string)
    requires InOrder(s, u) && Calm(s, l, u) && (ScannerLabel(l) || l.Recv?) && !l.Line?
    requires Trace(Full(Do(s, l)), u, true) == Trace(Full(s), u, true)
    ensures InOrder(Do(s, l), u)
  {
    OpenKept(s, l, u);
    if !l.Recv? { MarkedKept(s, l, u); }
  }

  lemma OpenKept(s: World, l: Label, u: string)
    requires Enabled(s, l) && (ScannerLabel(l) || l.Recv?) && !l.Line?
    ensures Get(Do(s, l).known, u) == Get(s.known, u)
         || (Get(s.known, u).finishedEmitted && Get(Do(s, l).known, u) == ZERO)
    ensures l.Recv? ==> Do(s, l).pollers == s.pollers
  {
  }

  lemma {:induction false} InOrderPoller(s: World, l: Label, u: string)
    requires Shape(s) && Windows(s, u) && InOrder(s, u) && Calm(s, l, u)
    requires l.Check? || l.Retry? || l.MarkSynced? || l.Quit?
    requires Trace(Full(Do(s, l)), u, true) == Trace(Full(s), u, true)
    ensures InOrder(Do(s, l), u)
  {
    if l.MarkSynced? && s.pollers[l.i].upid.raw == u && !Get(s.known, u).syncedEmitted {
      InOrderMark(s, l.i, u);
    } else {
      SameMarked(s, l, u);
      SameEntry(s, l, u);
    }
  }

  lemma InOrderMark(s: World, i: nat, u: string)
    requires Shape(s) && Windows(s, u) && InOrder(s, u) && Enabled(s, MarkSynced(i))
    requires s.pollers[i].upid.raw == u && !Get(s.known, u).syncedEmitted
    requires Trace(Full(DoMarkSynced(s, i)), u, true) == Trace(Full(s), u, true)
    ensures InOrder(DoMarkSynced(s, i), u)
  {
    assert s.pollers[i] in s.pollers;
    MarkedNow(s, i, u);
    StillOpen(s, i, u);
  }

  /** A poller that marks finds its entry still open. */
  lemma StillOpen(s: World, i: nat, u: string)
    requires Windows(s, u) && Enabled(s, MarkSynced(i)) && s.pollers[i].upid.raw == u
    ensures u in s.known && IsOpen(s.known, u)
  {
  }

  lemma SameEntry(s: World, l: Label, u: string)
    requires Windows(s, u) && Enabled(s, l) && (l.Check? || l.Retry? || l.MarkSynced? || l.Quit?)
    requires l.MarkSynced? && s.pollers[l.i].upid.raw == u ==> Get(s.known, u).syncedEmitted
    ensures Get(Do(s, l).known, u) == Get(s.known, u)
  {
  }

  lemma MarkedNow(s: World, i: nat, u: string)
    requires Windows(s, u) && Enabled(s, MarkSynced(i)) && s.pollers[i].upid.raw == u && !Get(s.known, u).syncedEmitted
    requires WorkerType(s.pollers[i].upid.typ).Some?
    ensures SomeMarked(DoMarkSynced(s, i), u)
    ensures DoMarkSynced(s, i).known[u] == Get(s.known, u).(syncedEmitted := true)
  {
    assert DoMarkSynced(s, i).pollers[i].pc == Marked;
  }

  lemma SameMarked(s: World, l: Label, u: string)
    requires Enabled(s, l) && (l.Check? || l.Retry? || l.MarkSynced? || l.Quit?)
    requires l.MarkSynced? && s.pollers[l.i].upid.raw == u ==> Get(s.known, u).syncedEmitted
    ensures SomeMarked(Do(s, l), u) == SomeMarked(s, u)
  {
    var s' := Do(s, l);
    PollerMoves(s, l);
    forall i | 0 <= i < |s.pollers| && s.pollers[i].upid.raw == u
      ensures s'.pollers[i].pc == Marked <==> s.pollers[i].pc == Marked
    {
    }
  }

  lemma InOrderSend(s: World, i: nat, now: int, u: string)
    requires Windows(s, u) && InOrder(s, u) && Calm(s, SendSynced(i, now), u)
    requires var q := Trace(Full(s), u, true);
      Trace(Full(Do(s, SendSynced(i, now))), u, true) ==
        if s.pollers[i].upid.raw == u then Trace(s.log, u, true) + [Synced] + Trace(OwedEvents(s), u, true) else q
    ensures InOrder(Do(s, SendSynced(i, now)), u)
  {
    if s.pollers[i].upid.raw == u {
      OwesNothing(s, i, u);
      OnlyMarked(s, i, now, u);
      SentFits(Trace(s.log, u, true), Get(s.known, u));
    } else {
      OthersMarked(s, i, now, u);
    }
  }

  /** Nothing of the UPID is owed while a poller of it is marked. */
  lemma OwesNothing(s: World, i: nat, u: string)
    requires Windows(s, u) && i < |s.pollers| && s.pollers[i].pc == Marked && s.pollers[i].upid.raw == u && !OwesStart(s, u)
    ensures Trace(OwedEvents(s), u, true) == [] && Trace(Full(s), u, true) == Trace(s.log, u, true)
    ensures IsOpen(s.known, u) && Get(s.known, u).syncedEmitted
  {
    assert InWindow(s.pollers[i]);
    OwedTrace(s, u, true);
  }

  lemma SentFits(q: seq<Phase>, st: UpidState)
    requires Agrees(q, st, true) && st.startedEmitted && !st.finishedEmitted && st.syncedEmitted
    ensures Agrees(q + [Synced] + [], st, false)
  {
    GrammarSnoc(q, Synced);
    assert q + [Synced] + [] == q + [Synced];
  }

  lemma OnlyMarked(s: World, i: nat, now: int, u: string)
    requires Windows(s, u) && Enabled(s, SendSynced(i, now)) && s.pollers[i].upid.raw == u
    ensures SomeMarked(s, u) && !SomeMarked(Do(s, SendSynced(i, now)), u)
  {
  }

  lemma OthersMarked(s: World, i: nat, now: int, u: string)
    requires Enabled(s, SendSynced(i, now)) && s.pollers[i].upid.raw != u
    ensures SomeMarked(Do(s, SendSynced(i, now)), u) == SomeMarked(s, u)
  {
    var s' := Do(s, SendSynced(i, now));
    PollerMoves(s, SendSynced(i, now));
    forall j | 0 <= j < |s.pollers| && s.pollers[j].upid.raw == u
      ensures s'.pollers[j] == s.pollers[j]
    {
    }
  }

  // ---- every such run ----

  ghost predicate Ordered(s: World, u: string) {
    Inv(s) && Windows(s, u) && InOrder(s, u)
  }

  lemma OrderedStep(s: World, l: Label, u: string)
    requires Ordered(s, u) && Calm(s, l, u)
    ensures Ordered(Do(s, l), u)
  {
    InvStep(s, l);
    WindowsStep(s, l, u);
    InOrderStep(s, l, u);
  }

  /** If the UPID does not return, a poller of it runs only once its start is sent. */
  lemma StartIsOut(s: World, i: nat, u: string)
    requires Single(s, u) && i < |s.pollers| && s.pollers[i].upid.raw == u
    ensures !OwesStart(s, u)
  {
    OnceEach(s, u);
    OnePoller(s.pollers, i, u);
    assert Counts(s, u);
  }

  lemma {:induction false} OrderedRun(m: Mode, ls: seq<Label>)
    requires m.apart && (m.settled || m.noReturn) && Valid(m, INIT, ls)
    ensures Ordered(Exec(INIT, ls), m.of)
  {
    if ls != [] {
      var init, l, u := ls[..|ls| - 1], ls[|ls| - 1], m.of;
      OrderedRun(m, init);
      var s := Exec(INIT, init);
      if SendsEarly(s, l, u) && m.noReturn {
        SingleInit(u);
        SingleRun(m, INIT, init);
        StartIsOut(s, l.i, u);
      }
      OrderedStep(s, l, u);
    }
  }

  /** When no scan marks the UPID's end between check and send of a poller of it, and
      either it does not return once collected or none of its pollers sends while its
      start is still to be sent, its log is a prefix of repetitions of started, at
      most one synced, terminal. Whatever else the scanner does in between. */
  lemma {:induction false} SyncedInOrder(m: Mode, ls: seq<Label>)
    requires m.apart && (m.settled || m.noReturn) && Valid(m, INIT, ls)
    ensures Grammar(Trace(Exec(INIT, ls).log, m.of, true))
  {
    OrderedRun(m, ls);
    var s, u := Exec(INIT, ls), m.of;
    OwedTrace(s, u, true);
    GrammarPrefix(Trace(s.log, u, true), Trace(Full(s), u, true));
  }

  // ---- exactly when ----

  /** The last step of some prefix of the run sends early. */
  predicate EarlySend(ls: seq<Label>, u: string) {
    ls != [] && (EarlySend(ls[..|ls| - 1], u) || SendsEarly(Exec(INIT, ls[..|ls| - 1]), ls[|ls| - 1], u))
  }

  lemma {:induction false} NoEarlySend(ls: seq<Label>, u: string)
    requires Valid(Separate(u), INIT, ls) && !EarlySend(ls, u)
    ensures Valid(Mode(u, false, true, true), INIT, ls)
  {
    if ls != [] { NoEarlySend(ls[..|ls| - 1], u); }
  }

  /** What the log of a UPID ends with, when that is a start. */
  lemma {:induction false} LastStart(log: seq<Event>, u: string)
    requires var t := Trace(log, u, true); t != [] && t[|t| - 1] == Started
    ensures var t := Trace(log, u, false); t != [] && t[|t| - 1] == Started
  {
    if log[|log| - 1].upid.raw != u {
      LastStart(log[..|log| - 1], u);
    }
  }

  /** While a start is owed, the log does not end with one. */
  lemma OwedAfterEnd(s: World, u: string)
    requires Lane(s, u) && OwesStart(s, u)
    ensures var t := Trace(s.log, u, true); t != [] ==> t[|t| - 1] != Started
  {
    OwedTrace(s, u, false);
    EvenHasNoStart(Trace(s.log, u, false), Trace(OwedEvents(s), u, false));
    var t := Trace(s.log, u, true);
    if t != [] && t[|t| - 1] == Started {
      LastStart(s.log, u);
    }
  }

  /** What an alternating trace goes on from with a start does not end with one. */
  lemma EvenHasNoStart(t: seq<Phase>, owed: seq<Phase>)
    requires Alternates(t + owed) && owed != [] && owed[0] == Started
    ensures t != [] ==> t[|t| - 1] != Started
  {
    assert (t + owed)[|t|] == Started;
    assert t != [] ==> (t + owed)[|t| - 1] == t[|t| - 1];
  }

  lemma EarlySendBreaks(s: World, l: Label, u: string)
    requires Inv(s) && Enabled(s, l) && SendsEarly(s, l, u)
    ensures !Grammar(Trace(Do(s, l).log, u, true))
  {
    assert Lane(s, u);
    OwedAfterEnd(s, u);
    SyncedShape(s, l.i, l.now);
    var e := SyncedEvent(s.pollers[l.i].upid, l.now);
    TraceAppend(s.log, [e], u, true);
    TraceOne(e, u, true);
    SyncedUnfit(Trace(s.log, u, true));
  }

  lemma SyncedUnfit(t: seq<Phase>)
    requires t != [] ==> t[|t| - 1] != Started
    ensures !Grammar(t + [Synced])
  {
    assert !Fits(t + [Synced], |t|);
  }

  /** A log that is out of order stays so. */
  lemma {:induction false} EarlySendShows(ls: seq<Label>, u: string)
    requires Valid(Separate(u), INIT, ls) && EarlySend(ls, u)
    ensures !Grammar(Trace(Exec(INIT, ls).log, u, true))
  {
    var init, l := ls[..|ls| - 1], ls[|ls| - 1];
    var s := Exec(INIT, init);
    Reachable(Separate(u), init);
    if EarlySend(init, u) {
      EarlySendShows(init, u);
      LogGrows(s, l);
      StillUnfit(s.log, Do(s, l).log, u);
    } else {
      EarlySendBreaks(s, l, u);
    }
  }

  lemma StillUnfit(log: seq<Event>, log': seq<Event>, u: string)
    requires log' == log || (|log'| == |log| + 1 && log'[..|log|] == log)
    requires !Grammar(Trace(log, u, true))
    ensures !Grammar(Trace(log', u, true))
  {
    assert Trace(log, u, true) <= Trace(log', u, true);
    if Grammar(Trace(log', u, true)) {
      GrammarPrefix(Trace(log, u, true), Trace(log', u, true));
    }
  }

  /** Exactly when the documented order holds for a UPID in runs in which no scan
      marks its end between check and send of a poller of it: when none of its
      pollers sends before the start of the UPID is out. */
  lemma {:induction false} OrderExact(ls: seq<Label>, u: string)
    requires Valid(Separate(u), INIT, ls)
    ensures Grammar(Trace(Exec(INIT, ls).log, u, true)) <==> !EarlySend(ls, u)
  {
    if EarlySend(ls, u) {
      EarlySendShows(ls, u);
    } else {
      NoEarlySend(ls, u);
      SyncedInOrder(Mode(u, false, true, true), ls);
    }
  }
}
