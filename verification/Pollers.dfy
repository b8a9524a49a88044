/** When a poller for the synced marker is over, and that one which is not can still
    report (watchMigrationSynced, internal/tasks/watcher.go). */
module Pollers {
  import opened Events
  import opened Upid
  import opened Watch
  import opened Interleave
  import opened Ordering

  /** The steps that end a poller: its check finds the UPID missing or ended, its mark
      finds the flag already set, it sends, or it is cancelled. */
  predicate EndsPoller(s: World, l: Label, i: nat) {
    i < |s.pollers| &&
    var u := s.pollers[i].upid.raw;
    || (l == Check(i) && (u !in s.known || s.known[u].finishedEmitted))
    || (l == MarkSynced(i) && u in s.known && s.known[u].syncedEmitted)
    || (l.SendSynced? && l.i == i)
    || l == Quit(i)
  }

  /** Some step of the run ended the poller. */
  predicate Ended(ls: seq<Label>, i: nat) {
    ls != [] && (Ended(ls[..|ls| - 1], i) || EndsPoller(Exec(INIT, ls[..|ls| - 1]), ls[|ls| - 1], i))
  }

  predicate SentIn(ls: seq<Label>, i: nat) {
    ls != [] && (SentIn(ls[..|ls| - 1], i) || (ls[|ls| - 1].SendSynced? && ls[|ls| - 1].i == i))
  }

  predicate IsOver(s: World, i: nat) { i < |s.pollers| && s.pollers[i].pc.Done? }

  predicate HasSent(s: World, i: nat) { i < |s.pollers| && s.pollers[i].pc == Done(true) }

  predicate PollerLabel(l: Label) { l.Check? || l.Retry? || l.MarkSynced? || l.SendSynced? || l.Quit? }

  lemma OtherSteps(s: World, l: Label, i: nat)
    requires Enabled(s, l) && !PollerLabel(l)
    ensures IsOver(Do(s, l), i) == IsOver(s, i) && HasSent(Do(s, l), i) == HasSent(s, i)
  {
  }

  lemma PollerSteps(s: World, l: Label)
    requires Shape(s) && Enabled(s, l) && PollerLabel(l)
    ensures l.i < |s.pollers| == |Do(s, l).pollers| && !IsOver(s, l.i)
    ensures IsOver(Do(s, l), l.i) == EndsPoller(s, l, l.i) && HasSent(Do(s, l), l.i) == l.SendSynced?
  {
    assert s.pollers[l.i] in s.pollers;
  }

  lemma OverStep(s: World, l: Label, i: nat)
    requires Shape(s) && Enabled(s, l)
    ensures IsOver(Do(s, l), i) <==> IsOver(s, i) || EndsPoller(s, l, i)
    ensures HasSent(Do(s, l), i) <==> HasSent(s, i) || (l.SendSynced? && l.i == i)
  {
    if !PollerLabel(l) {
      OtherSteps(s, l, i);
    } else {
      PollerSteps(s, l);
      PollerMoves(s, l);
    }
  }

  /** Exactly when a poller is over, in every run: when one of those steps was taken.
      A look that finds no log file, or no marker in it, never ends it. */
  lemma {:induction false} OverExact(ls: seq<Label>, i: nat)
    requires Valid(ANY, INIT, ls)
    ensures IsOver(Exec(INIT, ls), i) <==> Ended(ls, i)
    ensures HasSent(Exec(INIT, ls), i) <==> SentIn(ls, i)
  {
    if ls != [] {
      var init := ls[..|ls| - 1];
      OverExact(init, i);
      Reachable(ANY, init);
      OverStep(Exec(INIT, init), ls[|ls| - 1], i);
    }
  }

  // ---- a poller that is not over ----

  /** The consumer makes room. */
  lemma MakeRoom(s: World) returns (ls: seq<Label>)
    requires |s.chan| <= CAPACITY
    ensures Valid(ANY, s, ls) && Room(Exec(s, ls)) && Exec(s, ls) == s.(chan := Exec(s, ls).chan)
  {
    ls := [];
    if !Room(s) {
      Extend(ANY, s, ls, Recv);
      ls := ls + [Recv];
    }
  }

  /** The poller can get to its send: it is past its mark, or nothing in the map stops
      its check and its mark. */
  predicate Hopeful(s: World, i: nat) {
    i < |s.pollers| &&
    var u, pc := s.pollers[i].upid.raw, s.pollers[i].pc;
    || pc == Marked
    || (pc == Checked && !Get(s.known, u).syncedEmitted)
    || (pc == Waiting && u in s.known && !s.known[u].finishedEmitted && !s.known[u].syncedEmitted)
  }

  lemma ToChecked(s: World, i: nat)
    requires Hopeful(s, i) && s.pollers[i].pc == Waiting
    ensures Enabled(s, Check(i)) && Hopeful(Do(s, Check(i)), i) && Do(s, Check(i)).pollers[i].pc == Checked
    ensures var t := Do(s, Check(i));
      t.log == s.log && t.chan == s.chan && t.pollers[i].upid == s.pollers[i].upid
  {
  }

  lemma ToMarked(s: World, i: nat)
    requires Hopeful(s, i) && s.pollers[i].pc == Checked && WorkerType(s.pollers[i].upid.typ).Some?
    ensures Enabled(s, MarkSynced(i)) && PollerAt(Do(s, MarkSynced(i)), i, Marked)
    ensures var t := Do(s, MarkSynced(i));
      t.log == s.log && t.chan == s.chan && t.pollers[i].upid == s.pollers[i].upid
  {
  }

  lemma ToSend(s: World, i: nat) returns (ls: seq<Label>)
    requires Shape(s) && Hopeful(s, i)
    ensures Valid(ANY, s, ls)
    ensures var t := Exec(s, ls);
      PollerAt(t, i, Marked) && Room(t) && t.log == s.log && t.pollers[i].upid == s.pollers[i].upid
  {
    assert s.pollers[i] in s.pollers;
    ls := MakeRoom(s);
    if s.pollers[i].pc == Waiting {
      ToChecked(Exec(s, ls), i);
      Extend(ANY, s, ls, Check(i));
      ls := ls + [Check(i)];
    }
    if s.pollers[i].pc != Marked {
      ToMarked(Exec(s, ls), i);
      Extend(ANY, s, ls, MarkSynced(i));
      ls := ls + [MarkSynced(i)];
    }
  }

  lemma HopefulSends(s: World, i: nat) returns (ls: seq<Label>)
    requires Shape(s) && Hopeful(s, i)
    ensures var u := s.pollers[i].upid.raw;
      Valid(ANY, s, ls) && Count(Exec(s, ls).log, u, Synced) == Count(s.log, u, Synced) + 1
  {
    ls := ToSend(s, i);
    SyncedCounts(Exec(s, ls), i, 0, s.pollers[i].upid.raw);
    Extend(ANY, s, ls, SendSynced(i, 0));
    ls := ls + [SendSynced(i, 0)];
  }

  /** Some continuation logs another synced for the UPID. */
  ghost predicate CanSync(s: World, u: string) {
    exists ls :: Valid(ANY, s, ls) && Count(Exec(s, ls).log, u, Synced) > Count(s.log, u, Synced)
  }

  /** A poller that no step has ended keeps watching, however often it looked in vain:
      while its UPID is known, not ended and not synced, some continuation logs its
      synced. One past its mark can always send. */
  lemma {:induction false} KeepsWatching(ls: seq<Label>, i: nat)
    requires Valid(ANY, INIT, ls) && i < |Exec(INIT, ls).pollers| && !Ended(ls, i)
    ensures var s := Exec(INIT, ls);
      var u := s.pollers[i].upid.raw;
      (u in s.known && !s.known[u].finishedEmitted && !s.known[u].syncedEmitted) || s.pollers[i].pc == Marked ==>
        CanSync(s, u)
  {
    OverExact(ls, i);
    Reachable(ANY, ls);
    var s := Exec(INIT, ls);
    if Hopeful(s, i) {
      var more := HopefulSends(s, i);
    }
  }
}
