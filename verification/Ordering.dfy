/** What every interleaving of scanner, pollers and channel keeps. */
module Ordering {
  import opened Text
  import opened Events
  import opened Upid
  import opened Watch
  import opened Interleave

  // ---- structure ----

  predicate GoodEvent(e: Event) {
    && GoodUpid(e.upid) && WorkerType(e.upid.typ) == Some((e.kind, e.action))
    && (e.phase == Started || e.phase == Synced || Terminal(e.phase))
    && (e.phase == Synced ==> e.kind == QEMU && e.action == Migrate)
    && if Terminal(e.phase) then e.status != "" && Verdict(e.phase, e.status) else e.status == ""
  }

  predicate GoodOwed(known: Known, o: Owed) {
    && GoodItem(o.item)
    && (o.spawn ==> o.item.kind == QEMU && o.item.action == Migrate)
    && (o.start ==> Get(known, o.item.upid.raw).startedEmitted)
    && (o.end ==> Get(known, o.item.upid.raw).finishedEmitted && o.item.status != "")
  }

  predicate Shape(s: World) {
    && (forall k <- s.known :: s.known[k].finishedEmitted ==> s.known[k].startedEmitted)
    && (forall k <- s.known :: s.known[k].startedEmitted || s.known[k].syncedEmitted)
    && (forall p <- s.pollers :: GoodUpid(p.upid) && WorkerType(p.upid.typ) == Some((QEMU, Migrate)))
    && (forall e <- s.log :: GoodEvent(e))
    && |s.chan| <= CAPACITY
    && (!s.scan.Idle? ==> forall it <- s.scan.rest :: GoodItem(it))
    && (s.scan.Sending? ==> GoodOwed(s.known, s.scan.cur))
  }

  lemma {:induction false} ShapeStep(s: World, l: Label)
    requires Shape(s) && Enabled(s, l)
    ensures Shape(Do(s, l))
  {
    if l.Line? {
      ShapeLine(s);
    } else if l.Act? {
      ShapeAct(s);
    } else if l.SendSynced? {
      ShapeSend(s, l.i, l.now);
    } else if l.Check? || l.Retry? || l.MarkSynced? || l.Quit? {
      ShapePoller(s, l);
    }
  }

  lemma ShapeSend(s: World, i: nat, now: int)
    requires Shape(s) && Enabled(s, SendSynced(i, now))
    ensures Shape(Do(s, SendSynced(i, now)))
  {
  }

  lemma {:induction false} ShapePoller(s: World, l: Label)
    requires Shape(s) && Enabled(s, l)
    requires l.Check? || l.Retry? || l.MarkSynced? || l.Quit?
    ensures Shape(Do(s, l))
  {
    PollerMoves(s, l);
    var s' := Do(s, l);
    assert s.pollers[l.i] in s.pollers;
    forall u: string
      ensures Get(s'.known, u).startedEmitted == Get(s.known, u).startedEmitted
      ensures Get(s'.known, u).finishedEmitted == Get(s.known, u).finishedEmitted
    {
      FlagsKept(s, l, u);
    }
  }

  /** Only lines and collections touch the started and finished flags. */
  lemma FlagsKept(s: World, l: Label, u: string)
    requires Enabled(s, l) && !l.Line? && !l.Finish?
    ensures Get(Do(s, l).known, u).startedEmitted == Get(s.known, u).startedEmitted
    ensures Get(Do(s, l).known, u).finishedEmitted == Get(s.known, u).finishedEmitted
  {
  }

  lemma ShapeLine(s: World)
    requires Shape(s) && Enabled(s, Line)
    ensures Shape(DoLine(s))
  {
  }

  lemma ShapeAct(s: World)
    requires Shape(s) && Enabled(s, Act)
    ensures Shape(DoAct(s))
  {
  }

  // ---- alternation ----

  predicate Lane(s: World, u: string) {
    var t := Trace(Full(s), u, false);
    Alternates(t) && (|t| % 2 == 1 <==> IsOpen(s.known, u))
  }

  lemma LaneStep(s: World, l: Label, u: string)
    requires Shape(s) && Lane(s, u) && Enabled(s, l)
    ensures Lane(Do(s, l), u)
  {
    FullStep(s, l, u, false);
    if l.Line? {
      LaneLine(s, u);
    } else if l.Finish? {
      assert IsOpen(DoFinish(s).known, u) == IsOpen(s.known, u);
    } else {
      FlagsKept(s, l, u);
    }
  }

  lemma {:induction false} LaneLine(s: World, u: string)
    requires Shape(s) && Lane(s, u) && Enabled(s, Line)
    requires Trace(Full(DoLine(s)), u, false) == Trace(Full(s), u, false) + LineTrace(s, u)
    ensures Lane(DoLine(s), u)
  {
    var it := s.scan.rest[0];
    var t, p := Trace(Full(s), u, false), PhaseOf(it.status);
    MarkGet(s.known, it, u);
    if it.upid.raw == u {
      LinePhases(t, EmitStart(s.known, it), EmitEnd(s.known, it), p);
    } else {
      assert t + [] == t;
    }
  }

  lemma LinePhases(t: seq<Phase>, start: bool, end: bool, p: Phase)
    requires Alternates(t) && Terminal(p)
    requires start ==> |t| % 2 == 0
    requires end && !start ==> |t| % 2 == 1
    ensures Alternates(t + ((if start then [Started] else []) + (if end then [p] else [])))
  {
  }

  // ---- synced events against started ones ----

  /** Pollers of a UPID: all of them, or those that have sent their event. */
  function Pollers(ps: seq<Poller>, u: string, sent: bool): nat {
    if ps == [] then 0
    else
      var p := ps[|ps| - 1];
      Pollers(ps[..|ps| - 1], u, sent) + (if p.upid.raw == u && (sent ==> p.pc == Done(true)) then 1 else 0)
  }

  lemma PollersAdd(ps: seq<Poller>, p: Poller, u: string, sent: bool)
    ensures Pollers(ps + [p], u, sent)
         == Pollers(ps, u, sent) + (if p.upid.raw == u && (sent ==> p.pc == Done(true)) then 1 else 0)
  {
    assert (ps + [p])[..|ps|] == ps;
  }

  lemma {:induction false} PollersSet(ps: seq<Poller>, i: nat, pc: PollerPc, u: string, sent: bool)
    requires i < |ps|
    ensures Pollers(ps[i := ps[i].(pc := pc)], u, sent) ==
      Pollers(ps, u, sent)
      - (if ps[i].upid.raw == u && (sent ==> ps[i].pc == Done(true)) then 1 else 0)
      + (if ps[i].upid.raw == u && (sent ==> pc == Done(true)) then 1 else 0)
  {
    var qs := ps[i := ps[i].(pc := pc)];
    if i < |ps| - 1 {
      PollersSet(ps[..|ps| - 1], i, pc, u, sent);
      assert qs[..|qs| - 1] == ps[..|ps| - 1][i := ps[i].(pc := pc)];
    } else {
      assert qs[..|qs| - 1] == ps[..|ps| - 1];
    }
  }

  /** A poller is due: its started event is sent and the go statement is next. */
  function Due(s: World, u: string): nat {
    if s.scan.Sending? && s.scan.cur.spawn && !s.scan.cur.start && s.scan.cur.item.upid.raw == u then 1 else 0
  }

  predicate Counts(s: World, u: string) {
    && Count(s.log, u, Synced) == Pollers(s.pollers, u, true)
    && Pollers(s.pollers, u, false) + Due(s, u) <= Count(s.log, u, Started)
    && Pollers(s.pollers, u, true) <= Pollers(s.pollers, u, false)
    && (forall n :: 0 <= n <= |s.log| ==> Count(s.log[..n], u, Synced) <= Count(s.log[..n], u, Started))
  }

  lemma {:induction false} SentAmongAll(ps: seq<Poller>, u: string)
    ensures Pollers(ps, u, true) <= Pollers(ps, u, false)
  {
    if ps != [] { SentAmongAll(ps[..|ps| - 1], u); }
  }

  lemma SendCounts(s: World, e: Event, u: string)
    ensures Count(Send(s, e).log, u, Synced)
         == Count(s.log, u, Synced) + (if e.upid.raw == u && e.phase == Synced then 1 else 0)
    ensures Count(Send(s, e).log, u, Started)
         == Count(s.log, u, Started) + (if e.upid.raw == u && e.phase == Started then 1 else 0)
  {
  }

  lemma PrefixCounts(log: seq<Event>, log': seq<Event>, u: string)
    requires log' == log || (|log'| == |log| + 1 && log'[..|log|] == log)
    requires forall n :: 0 <= n <= |log| ==> Count(log[..n], u, Synced) <= Count(log[..n], u, Started)
    requires Count(log', u, Synced) <= Count(log', u, Started)
    ensures forall n :: 0 <= n <= |log'| ==> Count(log'[..n], u, Synced) <= Count(log'[..n], u, Started)
  {
    forall n | 0 <= n <= |log'|
      ensures Count(log'[..n], u, Synced) <= Count(log'[..n], u, Started)
    {
      if n <= |log| { assert log'[..n] == log[..n]; } else { assert log'[..n] == log'; }
    }
  }

  lemma CountsStep(s: World, l: Label, u: string)
    requires Counts(s, u) && Enabled(s, l)
    ensures Counts(Do(s, l), u)
  {
    if l.Act? {
      CountsAct(s, u);
    } else if l.SendSynced? || l.Check? || l.Retry? || l.MarkSynced? || l.Quit? {
      CountsPoller(s, l, u);
    }
    LogGrows(s, l);
    SentAmongAll(Do(s, l).pollers, u);
    PrefixCounts(s.log, Do(s, l).log, u);
  }

  lemma SyncedCounts(s: World, i: nat, now: int, u: string)
    requires Enabled(s, SendSynced(i, now))
    ensures var log' := Do(s, SendSynced(i, now)).log;
      && Count(log', u, Synced) == Count(s.log, u, Synced) + (if s.pollers[i].upid.raw == u then 1 else 0)
      && Count(log', u, Started) == Count(s.log, u, Started)
  {
  }

  lemma LogGrows(s: World, l: Label)
    requires Enabled(s, l)
    ensures var log' := Do(s, l).log;
      log' == s.log || (|log'| == |s.log| + 1 && log'[..|s.log|] == s.log)
  {
  }

  lemma CountsPoller(s: World, l: Label, u: string)
    requires Counts(s, u) && Enabled(s, l)
    requires l.SendSynced? || l.Check? || l.Retry? || l.MarkSynced? || l.Quit?
    ensures var s' := Do(s, l);
      && Count(s'.log, u, Synced) == Pollers(s'.pollers, u, true)
      && Pollers(s'.pollers, u, false) + Due(s', u) <= Count(s'.log, u, Started)
  {
    var pc := Do(s, l).pollers[l.i].pc;
    PollerMoves(s, l);
    PollersSet(s.pollers, l.i, pc, u, true);
    PollersSet(s.pollers, l.i, pc, u, false);
    if l.SendSynced? {
      SyncedCounts(s, l.i, l.now, u);
    }
  }

  /** A poller step changes one poller, and only the send touches the log. */
  lemma PollerMoves(s: World, l: Label)
    requires Enabled(s, l)
    requires l.SendSynced? || l.Check? || l.Retry? || l.MarkSynced? || l.Quit?
    ensures var s' := Do(s, l);
      && l.i < |s.pollers| == |s'.pollers|
      && s'.pollers == s.pollers[l.i := s.pollers[l.i].(pc := s'.pollers[l.i].pc)]
      && s.pollers[l.i].pc != Done(true) && (s'.pollers[l.i].pc == Done(true) <==> l.SendSynced?)
      && s'.scan == s.scan && s'.gone == s.gone
      && s'.log == if l.SendSynced? then s.log + [SyncedEvent(s.pollers[l.i].upid, l.now)] else s.log
  {
  }

  lemma CountsAct(s: World, u: string)
    requires Counts(s, u) && Enabled(s, Act)
    ensures var s' := DoAct(s);
      && Count(s'.log, u, Synced) == Pollers(s'.pollers, u, true)
      && Pollers(s'.pollers, u, false) + Due(s', u) <= Count(s'.log, u, Started)
  {
    var o := s.scan.cur;
    if o.start {
      SendCounts(s, StartEvent(o.item, s.scan.obs), u);
    } else if o.spawn {
      PollersAdd(s.pollers, Poller(o.item.upid, Waiting), u, true);
      PollersAdd(s.pollers, Poller(o.item.upid, Waiting), u, false);
    } else if o.end {
      SendCounts(s, EndEvent(o.item, s.scan.obs), u);
    }
  }

  // ---- every reachable state ----

  ghost predicate Inv(s: World) {
    Shape(s) && forall u: string :: Lane(s, u) && Counts(s, u)
  }

  lemma InvStep(s: World, l: Label)
    requires Inv(s) && Enabled(s, l)
    ensures Inv(Do(s, l))
  {
    ShapeStep(s, l);
    forall u: string ensures Lane(Do(s, l), u) && Counts(Do(s, l), u) {
      LaneStep(s, l, u);
      CountsStep(s, l, u);
    }
  }

  lemma {:induction false} Reachable(m: Mode, ls: seq<Label>)
    requires Valid(m, INIT, ls)
    ensures Inv(Exec(INIT, ls))
  {
    if ls != [] {
      Reachable(m, ls[..|ls| - 1]);
      InvStep(Exec(INIT, ls[..|ls| - 1]), ls[|ls| - 1]);
    }
  }

  lemma LogLane(s: World, u: string)
    requires Lane(s, u)
    ensures Alternates(Trace(s.log, u, false))
  {
    OwedTrace(s, u, false);
    var t, f := Trace(s.log, u, false), Trace(Full(s), u, false);
    assert forall i :: 0 <= i < |t| ==> t[i] == f[i];
  }

  /** In every interleaving the log of a UPID, pollers' events removed, strictly
      alternates started and terminal; every synced comes after a started of its
      own, because no prefix of the log has more synced than started; only QEMU
      migrations are ever logged as synced; and a task is logged as finished or
      failed as its status says, the other events carrying none. The channel never
      holds more than its 256 places. */
  lemma {:induction false} EveryInterleaving(ls: seq<Label>, u: string)
    requires Valid(ANY, INIT, ls)
    ensures |Exec(INIT, ls).chan| <= 256
    ensures var log := Exec(INIT, ls).log;
      && Alternates(Trace(log, u, false))
      && (forall n :: 0 <= n <= |log| ==> Count(log[..n], u, Synced) <= Count(log[..n], u, Started))
      && (forall e <- log :: e.phase == Synced ==> e.kind == QEMU && e.action == Migrate)
      && (forall e <- log :: if Terminal(e.phase) then e.status != "" && Verdict(e.phase, e.status) else e.status == "")
  {
    Reachable(ANY, ls);
    var s := Exec(INIT, ls);
    assert Lane(s, u) && Counts(s, u);
    LogLane(s, u);
    forall e | e in s.log
      ensures e.phase == Synced ==> e.kind == QEMU && e.action == Migrate
      ensures if Terminal(e.phase) then e.status != "" && Verdict(e.phase, e.status) else e.status == ""
    {
      assert GoodEvent(e);
    }
  }
}
