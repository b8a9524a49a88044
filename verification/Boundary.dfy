/** Runs in which one UPID, once collected, never comes back: each of its phases at
    most once, and the exact boundary between an early and a trailing synced. */
module Boundary {
  import opened Events
  import opened Upid
  import opened Watch
  import opened Interleave
  import opened Ordering

  /** The UPIDs of the lines the scan has not reached. */
  predicate Left(s: World, u: string) {
    !s.scan.Idle? && exists it <- s.scan.rest :: it.upid.raw == u
  }

  /** Where a task of n starts and ends is: collected, with one of each behind it, or
      in the map exactly once it has started. */
  predicate Life(n: nat, gone: bool, started: bool) {
    if gone then n == 2 && !started else n <= 2 && (n > 0 <==> started)
  }

  predicate Once(s: World, u: string) {
    Life(|Trace(Full(s), u, false)|, u in s.gone, Get(s.known, u).startedEmitted)
  }

  /** One life so far, and no line left that would begin another. */
  predicate OneLife(s: World, u: string) {
    Once(s, u) && (u in s.gone ==> !Left(s, u))
  }

  /** A set synced flag is the mark of a poller past its check. */
  predicate Flagged(s: World, u: string) {
    Get(s.known, u).syncedEmitted ==>
      exists i :: 0 <= i < |s.pollers| && s.pollers[i].upid.raw == u && (s.pollers[i].pc == Marked || s.pollers[i].pc.Done?)
  }

  ghost predicate Single(s: World, u: string) {
    Inv(s) && OneLife(s, u) && Flagged(s, u)
  }

  /** A line adds the start, if there is none, and the end, if the task is open. */
  lemma LifeMarks(n: nat, started: bool, finished: bool, ended: bool)
    requires Life(n, false, started) && (n % 2 == 1 <==> started && !finished) && (finished ==> started)
    ensures Life(n + (if started then 0 else 1) + (if ended && !finished then 1 else 0), false, true)
  {
  }

  lemma LifeEnds(n: nat, gone: bool)
    requires Life(n, gone, true) && n % 2 == 0
    ensures Life(n, true, false)
  {
  }

  lemma OnceLine(s: World, u: string)
    requires Shape(s) && Lane(s, u) && Once(s, u) && Enabled(s, Line)
    requires s.scan.rest[0].upid.raw == u ==> u !in s.gone
    requires Trace(Full(DoLine(s)), u, false) == Trace(Full(s), u, false) + LineTrace(s, u)
    ensures Once(DoLine(s), u)
  {
    var it := s.scan.rest[0];
    MarkGet(s.known, it, u);
    if it.upid.raw == u {
      var st := Get(s.known, u);
      LifeMarks(|Trace(Full(s), u, false)|, st.startedEmitted, st.finishedEmitted, it.status != "");
    } else {
      assert Trace(Full(s), u, false) + [] == Trace(Full(s), u, false);
    }
  }

  /** The collection keeps an entry or takes away one that has finished. */
  lemma FinishEntry(s: World, u: string)
    requires Enabled(s, Finish)
    ensures var s' := DoFinish(s);
      || (Get(s'.known, u) == Get(s.known, u) && (u in s'.gone <==> u in s.gone))
      || (Get(s.known, u).finishedEmitted && Get(s'.known, u) == ZERO && u in s'.gone)
  {
  }

  lemma OnceFinish(s: World, u: string)
    requires Shape(s) && Lane(s, u) && Once(s, u) && Enabled(s, Finish)
    requires Trace(Full(DoFinish(s)), u, false) == Trace(Full(s), u, false)
    ensures Once(DoFinish(s), u)
  {
    FinishEntry(s, u);
    if Get(s.known, u).finishedEmitted {
      LifeEnds(|Trace(Full(s), u, false)|, u in s.gone);
    }
  }

  lemma GoneSame(s: World, l: Label)
    requires Enabled(s, l) && !l.Finish?
    ensures Do(s, l).gone == s.gone
  {
  }

  lemma OnceStep(s: World, l: Label, u: string)
    requires Inv(s) && Once(s, u) && Enabled(s, l) && !(ReadsLine(s, l, u) && u in s.gone)
    ensures Once(Do(s, l), u)
  {
    assert Lane(s, u);
    FullStep(s, l, u, false);
    if l.Line? {
      OnceLine(s, u);
    } else if l.Finish? {
      OnceFinish(s, u);
    } else {
      FlagsKept(s, l, u);
      GoneSame(s, l);
    }
  }

  lemma ReadIsLeft(s: World, l: Label, u: string)
    requires ReadsLine(s, l, u)
    ensures Left(s, u)
  {
    assert s.scan.rest[0] in s.scan.rest;
  }

  lemma LeftStep(s: World, l: Label, u: string)
    requires Allowed(Stays(u), s, l) && (u in s.gone ==> !Left(s, u))
    ensures u in Do(s, l).gone ==> !Left(Do(s, l), u)
  {
    if !l.Finish? { GoneSame(s, l); }
  }

  lemma OneLifeStep(s: World, l: Label, u: string)
    requires Inv(s) && OneLife(s, u) && Allowed(Stays(u), s, l)
    ensures OneLife(Do(s, l), u)
  {
    if ReadsLine(s, l, u) { ReadIsLeft(s, l, u); }
    OnceStep(s, l, u);
    LeftStep(s, l, u);
  }

  lemma FlaggedStep(s: World, l: Label, u: string)
    requires Shape(s) && Flagged(s, u) && Enabled(s, l)
    ensures Flagged(Do(s, l), u)
  {
    var s' := Do(s, l);
    PollersStay(s, l);
    if Get(s'.known, u).syncedEmitted {
      if Get(s.known, u).syncedEmitted {
        var i :| 0 <= i < |s.pollers| && s.pollers[i].upid.raw == u && (s.pollers[i].pc == Marked || s.pollers[i].pc.Done?);
        assert s'.pollers[i].upid.raw == u;
      } else {
        FlagFrom(s, l, u);
      }
    }
  }

  lemma PollersStay(s: World, l: Label)
    requires Enabled(s, l)
    ensures var ps, qs := s.pollers, Do(s, l).pollers;
      && |ps| <= |qs|
      && (forall i :: 0 <= i < |ps| ==> qs[i].upid == ps[i].upid)
      && (forall i :: 0 <= i < |ps| && (ps[i].pc == Marked || ps[i].pc.Done?) ==> qs[i].pc == Marked || qs[i].pc.Done?)
  {
  }

  /** A flag that appears is set by a poller of the UPID. */
  lemma FlagFrom(s: World, l: Label, u: string)
    requires Enabled(s, l) && Get(Do(s, l).known, u).syncedEmitted && !Get(s.known, u).syncedEmitted
    ensures l.MarkSynced? && var p := Do(s, l).pollers[l.i]; p.upid.raw == u && (p.pc == Marked || p.pc.Done?)
  {
  }

  lemma SingleStep(s: World, l: Label, u: string)
    requires Single(s, u) && Allowed(Stays(u), s, l)
    ensures Single(Do(s, l), u)
  {
    InvStep(s, l);
    OneLifeStep(s, l, u);
    FlaggedStep(s, l, u);
  }

  lemma {:induction false} SingleRun(m: Mode, s: World, ls: seq<Label>)
    requires m.noReturn && Single(s, m.of) && Valid(m, s, ls)
    ensures Single(Exec(s, ls), m.of)
  {
    if ls != [] {
      SingleRun(m, s, ls[..|ls| - 1]);
      SingleStep(Exec(s, ls[..|ls| - 1]), ls[|ls| - 1], m.of);
    }
  }

  lemma SingleInit(u: string)
    ensures Single(INIT, u)
  {
  }

  /** If a UPID does not return once collected, each of its phases is logged at most
      once, whatever becomes of other UPIDs. */
  lemma {:induction false} AtMostOnce(ls: seq<Label>, u: string)
    requires Valid(Stays(u), INIT, ls)
    ensures var log := Exec(INIT, ls).log;
      && Count(log, u, Started) <= 1 && Count(log, u, Synced) <= 1
      && Count(log, u, Finished) + Count(log, u, Failed) <= 1
  {
    SingleInit(u);
    SingleRun(Stays(u), INIT, ls);
    OnceEach(Exec(INIT, ls), u);
  }

  lemma LogShort(s: World, u: string)
    requires Lane(s, u) && OneLife(s, u)
    ensures var t := Trace(s.log, u, false); Alternates(t) && |t| <= 2 && (OwesStart(s, u) ==> t == [])
  {
    LogLane(s, u);
    OwedTrace(s, u, false);
    if OwesStart(s, u) {
      assert Trace(Full(s), u, false)[|Trace(s.log, u, false)|] == Started;
    }
  }

  lemma SyncedBound(s: World, u: string)
    requires Counts(s, u)
    ensures Count(s.log, u, Synced) <= Count(s.log, u, Started)
  {
    assert s.log[..|s.log|] == s.log;
  }

  lemma OnceEach(s: World, u: string)
    requires Single(s, u)
    ensures Count(s.log, u, Started) <= 1 && Count(s.log, u, Synced) <= 1
    ensures Count(s.log, u, Finished) + Count(s.log, u, Failed) <= 1
    ensures OwesStart(s, u) ==> Count(s.log, u, Started) == 0
  {
    assert Lane(s, u) && Counts(s, u);
    LogShort(s, u);
    CountOfLane(s.log, u);
    SyncedBound(s, u);
  }

  // ---- exactly when there is one life ----

  /** A file lists the UPID again after its collection. */
  predicate ReadAgain(ls: seq<Label>, u: string) {
    ls != [] &&
    var s, l := Exec(INIT, ls[..|ls| - 1]), ls[|ls| - 1];
    ReadAgain(ls[..|ls| - 1], u) || (ReadsLine(s, l, u) && u in s.gone)
  }

  lemma SecondLife(s: World, l: Label, u: string)
    requires Once(s, u) && Enabled(s, l) && ReadsLine(s, l, u) && u in s.gone
    ensures |Trace(Full(Do(s, l)), u, false)| >= 3
  {
    FullStep(s, l, u, false);
  }

  lemma TraceGrows(s: World, l: Label, u: string)
    requires Enabled(s, l)
    ensures |Trace(Full(Do(s, l)), u, false)| >= |Trace(Full(s), u, false)|
  {
    FullStep(s, l, u, false);
  }

  lemma {:induction false} LivesOf(ls: seq<Label>, u: string)
    requires Valid(ANY, INIT, ls)
    ensures var s := Exec(INIT, ls);
      if ReadAgain(ls, u) then |Trace(Full(s), u, false)| >= 3 else Once(s, u)
  {
    if ls != [] {
      var init, l := ls[..|ls| - 1], ls[|ls| - 1];
      var s := Exec(INIT, init);
      LivesOf(init, u);
      Reachable(ANY, init);
      if ReadAgain(init, u) {
        TraceGrows(s, l, u);
      } else if ReadsLine(s, l, u) && u in s.gone {
        SecondLife(s, l, u);
      } else {
        OnceStep(s, l, u);
      }
    }
  }

  /** Exactly when a UPID has one start at most, the one still to be sent included, in
      every run: when no scan reads a line of it after its collection. Each of its
      phases is then logged at most once. */
  lemma {:induction false} OnceExact(ls: seq<Label>, u: string)
    requires Valid(ANY, INIT, ls)
    ensures var s := Exec(INIT, ls);
      && (Count(Full(s), u, Started) <= 1 <==> !ReadAgain(ls, u))
      && (!ReadAgain(ls, u) ==>
            && Count(s.log, u, Started) <= 1 && Count(s.log, u, Synced) <= 1
            && Count(s.log, u, Finished) + Count(s.log, u, Failed) <= 1)
  {
    LivesOf(ls, u);
    Reachable(ANY, ls);
    var s := Exec(INIT, ls);
    assert Lane(s, u) && Counts(s, u);
    CountOfLane(Full(s), u);
    LogLane(s, u);
    OwedTrace(s, u, false);
    CountOfLane(s.log, u);
    SyncedBound(s, u);
  }

  // ---- the boundary ----

  /** A scan has marked the terminal of the UPID, whether or not its event is out. */
  predicate Terminated(s: World, u: string) {
    var t := Trace(Full(s), u, false);
    t != [] && |t| % 2 == 0
  }

  predicate WindowOpen(s: World, u: string) {
    exists i :: 0 <= i < |s.pollers| && s.pollers[i].upid.raw == u && InWindow(s.pollers[i])
  }

  predicate AnyWaiting(s: World, u: string) {
    || (s.scan.Sending? && s.scan.cur.spawn && s.scan.cur.item.upid.raw == u)
    || exists i :: 0 <= i < |s.pollers| && s.pollers[i].upid.raw == u && s.pollers[i].pc == Waiting
  }

  /** Nothing can log a synced for the UPID any more. */
  predicate Quiet(s: World, u: string) {
    && Terminated(s, u) && !WindowOpen(s, u)
    && (u !in s.known || s.known[u].finishedEmitted || !AnyWaiting(s, u))
  }

  lemma {:induction false} TwoPollers(ps: seq<Poller>, i: nat, j: nat, u: string)
    requires i < j < |ps| && ps[i].upid.raw == u && ps[j].upid.raw == u
    ensures Pollers(ps, u, false) >= 2
  {
    if j < |ps| - 1 {
      TwoPollers(ps[..|ps| - 1], i, j, u);
    } else {
      OnePoller(ps[..|ps| - 1], i, u);
    }
  }

  lemma {:induction false} OnePoller(ps: seq<Poller>, i: nat, u: string)
    requires i < |ps| && ps[i].upid.raw == u
    ensures Pollers(ps, u, false) >= 1
  {
    if i < |ps| - 1 { OnePoller(ps[..|ps| - 1], i, u); }
  }

  /** There is one poller of the UPID at most, and none while one is still owed. */
  lemma OneOfUpid(s: World, i: nat, j: nat, u: string)
    requires Single(s, u) && i < |s.pollers| && s.pollers[i].upid.raw == u
    ensures j < |s.pollers| && s.pollers[j].upid.raw == u ==> i == j
    ensures !(s.scan.Sending? && s.scan.cur.item.upid.raw == u && s.scan.cur.spawn)
  {
    OnceEach(s, u);
    assert Counts(s, u);
    OnePoller(s.pollers, i, u);
    if j < |s.pollers| && s.pollers[j].upid.raw == u && i != j {
      TwoPollers(s.pollers, if i < j then i else j, if i < j then j else i, u);
    }
  }

  lemma ClosedWindowIsQuiet(s: World, u: string)
    requires Single(s, u) && Terminated(s, u) && !WindowOpen(s, u)
    ensures Quiet(s, u)
  {
    assert Lane(s, u) && OneLife(s, u) && Flagged(s, u);
    if u in s.known && !s.known[u].finishedEmitted {
      assert s.known[u].startedEmitted || s.known[u].syncedEmitted;
      var i :| 0 <= i < |s.pollers| && s.pollers[i].upid.raw == u && (s.pollers[i].pc == Marked || s.pollers[i].pc.Done?);
      forall j | 0 <= j < |s.pollers| && s.pollers[j].upid.raw == u ensures s.pollers[j].pc != Waiting {
        OneOfUpid(s, i, j, u);
      }
      OneOfUpid(s, i, i, u);
    }
  }

  lemma {:induction false} QuietStep(s: World, l: Label, u: string)
    requires Single(s, u) && Quiet(s, u) && Allowed(Stays(u), s, l)
    ensures Quiet(Do(s, l), u) && Count(Do(s, l).log, u, Synced) == Count(s.log, u, Synced)
  {
    var s' := Do(s, l);
    assert Lane(s, u) && OneLife(s, u) && Counts(s, u);
    SingleStep(s, l, u);
    assert OneLife(s', u) && Lane(s', u) && Counts(s', u);
    FullStep(s, l, u, false);
    QuietPollers(s, l, u);
    if !WindowOpen(s', u) {
      ClosedWindowIsQuiet(s', u);
    }
    QuietCount(s, l, u);
  }

  /** No poller of a quiet UPID enters its window. */
  lemma QuietPollers(s: World, l: Label, u: string)
    requires Quiet(s, u) && Enabled(s, l)
    ensures !WindowOpen(Do(s, l), u)
  {
  }

  lemma QuietCount(s: World, l: Label, u: string)
    requires Quiet(s, u) && Enabled(s, l)
    ensures Count(Do(s, l).log, u, Synced) == Count(s.log, u, Synced)
  {
    if l.Act? {
      var o := s.scan.cur;
      SendCounts(s, StartEvent(o.item, s.scan.obs), u);
      SendCounts(s, EndEvent(o.item, s.scan.obs), u);
    } else if l.SendSynced? {
      SyncedCounts(s, l.i, l.now, u);
      assert InWindow(s.pollers[l.i]);
    }
  }

  lemma {:induction false} QuietRun(s: World, ls: seq<Label>, u: string)
    requires Single(s, u) && Quiet(s, u) && Valid(Stays(u), s, ls)
    ensures Quiet(Exec(s, ls), u) && Single(Exec(s, ls), u)
    ensures Count(Exec(s, ls).log, u, Synced) == Count(s.log, u, Synced)
  {
    if ls != [] {
      var init := ls[..|ls| - 1];
      QuietRun(s, init, u);
      SingleStep(Exec(s, init), ls[|ls| - 1], u);
      QuietStep(Exec(s, init), ls[|ls| - 1], u);
    }
  }

  /** The consumer makes room. */
  lemma RoomMade(s: World, u: string) returns (ls: seq<Label>)
    requires |s.chan| <= CAPACITY
    ensures Valid(Stays(u), s, ls) && Room(Exec(s, ls))
    ensures Exec(s, ls) == s.(chan := Exec(s, ls).chan)
  {
    ls := [];
    if !Room(s) {
      Extend(Stays(u), s, ls, Recv);
      ls := ls + [Recv];
    }
  }

  lemma MarkNow(s: World, i: nat)
    requires PollerAt(s, i, Checked) && Room(s)
    requires !Get(s.known, s.pollers[i].upid.raw).syncedEmitted && WorkerType(s.pollers[i].upid.typ).Some?
    ensures var t := Do(s, MarkSynced(i));
      Room(t) && t.log == s.log && PollerAt(t, i, Marked) && t.pollers[i].upid == s.pollers[i].upid
  {
  }

  /** A poller in its window gets to its send. */
  lemma SendReady(s: World, i: nat, u: string) returns (ls: seq<Label>)
    requires Single(s, u) && i < |s.pollers| && s.pollers[i].upid.raw == u && InWindow(s.pollers[i])
    ensures Valid(Stays(u), s, ls)
    ensures var t := Exec(s, ls);
      Room(t) && t.log == s.log && PollerAt(t, i, Marked) && t.pollers[i].upid == s.pollers[i].upid
  {
    ls := RoomMade(s, u);
    if s.pollers[i].pc == Checked {
      NotYetFlagged(s, i, u);
      MarkNow(Exec(s, ls), i);
      Extend(Stays(u), s, ls, MarkSynced(i));
      ls := ls + [MarkSynced(i)];
    }
  }

  /** From an open window the synced event can still be sent. */
  lemma {:induction false} OpenWindowSends(s: World, i: nat, u: string) returns (ls: seq<Label>)
    requires Single(s, u) && i < |s.pollers| && s.pollers[i].upid.raw == u && InWindow(s.pollers[i])
    ensures Valid(Stays(u), s, ls) && Count(Exec(s, ls).log, u, Synced) == Count(s.log, u, Synced) + 1
  {
    ls := SendReady(s, i, u);
    SyncedCounts(Exec(s, ls), i, 0, u);
    Extend(Stays(u), s, ls, SendSynced(i, 0));
    ls := ls + [SendSynced(i, 0)];
  }

  lemma NotYetFlagged(s: World, i: nat, u: string)
    requires Single(s, u) && i < |s.pollers| && s.pollers[i].upid.raw == u && s.pollers[i].pc == Checked
    ensures !Get(s.known, u).syncedEmitted && WorkerType(s.pollers[i].upid.typ).Some?
  {
    assert Flagged(s, u);
    if Get(s.known, u).syncedEmitted {
      var j :| 0 <= j < |s.pollers| && s.pollers[j].upid.raw == u && (s.pollers[j].pc == Marked || s.pollers[j].pc.Done?);
      OneOfUpid(s, i, j, u);
    }
    assert s.pollers[i] in s.pollers;
  }

  /** Some continuation logs another synced for the UPID. */
  ghost predicate CanStillSync(s: World, u: string) {
    exists ls :: Valid(Stays(u), s, ls) && Count(Exec(s, ls).log, u, Synced) > Count(s.log, u, Synced)
  }

  lemma BoundaryAt(s: World, u: string)
    requires Single(s, u)
    ensures Terminated(s, u) ==> (CanStillSync(s, u) <==> WindowOpen(s, u))
  {
    if WindowOpen(s, u) {
      var i :| 0 <= i < |s.pollers| && s.pollers[i].upid.raw == u && InWindow(s.pollers[i]);
      var ls := OpenWindowSends(s, i, u);
    } else if Terminated(s, u) {
      ClosedWindowIsQuiet(s, u);
      forall ls | Valid(Stays(u), s, ls)
        ensures Count(Exec(s, ls).log, u, Synced) == Count(s.log, u, Synced)
      {
        QuietRun(s, ls, u);
      }
    }
  }

  /** A poller that comes to its check after the mark never passes it. */
  lemma LateCheck(s: World, i: nat, u: string)
    requires Single(s, u) && Terminated(s, u) && PollerAt(s, i, Waiting) && s.pollers[i].upid.raw == u
    ensures !CanStillSync(s, u) && PollerAt(Do(s, Check(i)), i, Done(false))
  {
    forall j | 0 <= j < |s.pollers| && s.pollers[j].upid.raw == u ensures !InWindow(s.pollers[j]) {
      OneOfUpid(s, i, j, u);
    }
    BoundaryAt(s, u);
    ClosedWindowIsQuiet(s, u);
    assert AnyWaiting(s, u);
  }

  /** Some step of the run is a check of the poller in a state in which no scan has
      marked the end of its UPID. */
  predicate CheckedInTime(ls: seq<Label>, i: nat, u: string) {
    ls != [] &&
    (CheckedInTime(ls[..|ls| - 1], i, u)
     || (ls[|ls| - 1] == Check(i) && !Terminated(Exec(INIT, ls[..|ls| - 1]), u)))
  }

  predicate WindowAt(s: World, i: nat, u: string) {
    i < |s.pollers| && s.pollers[i].upid.raw == u && InWindow(s.pollers[i])
  }

  lemma OnlyChecksOpen(s: World, l: Label, i: nat, u: string)
    requires Enabled(s, l) && WindowAt(Do(s, l), i, u) && !WindowAt(s, i, u)
    ensures l == Check(i) && PollerAt(s, i, Waiting) && s.pollers[i].upid.raw == u
  {
  }

  lemma {:induction false} WindowWasChecked(ls: seq<Label>, i: nat, u: string)
    requires Valid(Stays(u), INIT, ls) && WindowAt(Exec(INIT, ls), i, u)
    ensures CheckedInTime(ls, i, u)
  {
    if ls != [] {
      var init, l := ls[..|ls| - 1], ls[|ls| - 1];
      var s := Exec(INIT, init);
      if WindowAt(s, i, u) {
        WindowWasChecked(init, i, u);
      } else {
        OnlyChecksOpen(s, l, i, u);
        if Terminated(s, u) {
          SingleInit(u);
          SingleRun(Stays(u), INIT, init);
          LateCheck(s, i, u);
        }
      }
    }
  }

  /** The exact boundary. Once a scan has marked the terminal of a UPID that does not
      return, a synced for it can still be logged in some continuation if and only
      if a poller of it is still between check and send. Every such poller made a
      check in the run before the mark; one that checks after it always gives up. */
  lemma {:induction false} TrailingBoundary(run: seq<Label>, u: string)
    requires Valid(Stays(u), INIT, run)
    ensures var s := Exec(INIT, run);
      Terminated(s, u) ==> (CanStillSync(s, u) <==> WindowOpen(s, u))
    ensures forall i: nat :: WindowAt(Exec(INIT, run), i, u) ==> CheckedInTime(run, i, u)
    ensures var s := Exec(INIT, run);
      forall i: nat :: Terminated(s, u) && PollerAt(s, i, Waiting) && s.pollers[i].upid.raw == u ==>
        !CanStillSync(s, u) && PollerAt(Do(s, Check(i)), i, Done(false))
  {
    SingleInit(u);
    SingleRun(Stays(u), INIT, run);
    var s := Exec(INIT, run);
    BoundaryAt(s, u);
    forall i: nat | WindowAt(s, i, u) ensures CheckedInTime(run, i, u) { WindowWasChecked(run, i, u); }
    forall i: nat | Terminated(s, u) && PollerAt(s, i, Waiting) && s.pollers[i].upid.raw == u
      ensures !CanStillSync(s, u) && PollerAt(Do(s, Check(i)), i, Done(false))
    {
      LateCheck(s, i, u);
    }
  }
}
