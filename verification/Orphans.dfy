/** A poller marks its entry without looking whether it is still there, so it can
    write back an entry that the scanner has collected. */
module Orphans {
  import opened Upid
  import opened Watch
  import opened Interleave
  import opened Ordering
  import opened Boundary
  import opened Witness

  /** An entry of a UPID for which the watcher has no started event on record. */
  predicate Orphan(known: Known, u: string) { u in known && !known[u].startedEmitted }

  /** Not every entry has its start on record: the collection can fall between a
      poller's check and its mark. */
  lemma {:induction false} OrphanReached(u: UPID) returns (s: World)
    requires Migration(u)
    ensures Reached(Stays(u.raw), s) && Orphan(s.known, u.raw)
  {
    var m := Stays(u.raw);
    FirstLife(m, u);
    CheckPasses(m, u, [Witness.StartOf(u, 1)]);
    SecondScan(m, u, false, Checked, [Witness.StartOf(u, 1)]);
    var log := [Witness.StartOf(u, 1), EndOf(u, 2)];
    EmptyScan(m, u, false, Checked, log);
    var s0 := Rest(u, map[], Checked, log, {u.raw});
    s := DoMarkSynced(s0, 0);
    Go(m, s0, MarkSynced(0), s);
  }

  /** The branch that makes one: a poller marks its UPID while the map has no entry. */
  predicate WritesBack(s: World, l: Label, u: string) {
    l.MarkSynced? && l.i < |s.pollers| && s.pollers[l.i].upid.raw == u && u !in s.known
  }

  /** The UPID was written back, and no line of it was read since. */
  predicate WrittenBack(ls: seq<Label>, u: string) {
    ls != [] &&
    var s, l := Exec(INIT, ls[..|ls| - 1]), ls[|ls| - 1];
    && !ReadsLine(s, l, u)
    && (WrittenBack(ls[..|ls| - 1], u) || WritesBack(s, l, u))
  }

  lemma OrphanMoves(s: World, l: Label, u: string)
    requires Shape(s) && Enabled(s, l)
    ensures Orphan(Do(s, l).known, u) <==>
      !ReadsLine(s, l, u) && (Orphan(s.known, u) || WritesBack(s, l, u))
  {
    if l.Line? {
      MarkGet(s.known, s.scan.rest[0], u);
    } else if !l.Finish? {
      FlagsKept(s, l, u);
      KeysMoved(s, l, u);
    }
  }

  lemma KeysMoved(s: World, l: Label, u: string)
    requires Enabled(s, l) && !l.Finish? && !l.Line?
    ensures u in Do(s, l).known <==> u in s.known || WritesBack(s, l, u)
  {
  }

  /** Exactly when an entry has no start on record, in every run: when a poller has
      written it back and no scan has read a line of its UPID since. */
  lemma {:induction false} OrphanExact(ls: seq<Label>, u: string)
    requires Valid(ANY, INIT, ls)
    ensures Orphan(Exec(INIT, ls).known, u) <==> WrittenBack(ls, u)
  {
    if ls != [] {
      var init := ls[..|ls| - 1];
      OrphanExact(init, u);
      Reachable(ANY, init);
      OrphanMoves(Exec(INIT, init), ls[|ls| - 1], u);
    }
  }

  // ---- when the UPID does not return ----

  /** Only a collected UPID has such an entry. */
  lemma OrphanWasCollected(s: World, u: string)
    requires Single(s, u) && Orphan(s.known, u)
    ensures u in s.gone && !Left(s, u)
  {
    assert Lane(s, u) && Counts(s, u);
    if u !in s.gone {
      var i :| 0 <= i < |s.pollers| && s.pollers[i].upid.raw == u;
      OnePoller(s.pollers, i, u);
      LogShort(s, u);
      OwedTrace(s, u, false);
      CountOfLane(s.log, u);
    }
  }

  /** Some step of the run writes the UPID back. */
  predicate EverWrittenBack(ls: seq<Label>, u: string) {
    ls != [] &&
    (EverWrittenBack(ls[..|ls| - 1], u) || WritesBack(Exec(INIT, ls[..|ls| - 1]), ls[|ls| - 1], u))
  }

  lemma {:induction false} OrphanStays(ls: seq<Label>, u: string)
    requires Valid(Stays(u), INIT, ls)
    ensures Single(Exec(INIT, ls), u)
    ensures Orphan(Exec(INIT, ls).known, u) <==> EverWrittenBack(ls, u)
  {
    SingleInit(u);
    if ls != [] {
      var init, l := ls[..|ls| - 1], ls[|ls| - 1];
      var s := Exec(INIT, init);
      OrphanStays(init, u);
      SingleStep(s, l, u);
      OrphanMoves(s, l, u);
      if Orphan(s.known, u) {
        OrphanWasCollected(s, u);
        if ReadsLine(s, l, u) { ReadIsLeft(s, l, u); }
      }
    }
  }

  lemma OrphanHasEnded(s: World, u: string)
    requires Single(s, u) && Orphan(s.known, u)
    ensures u in s.gone && Terminated(s, u)
  {
    OrphanWasCollected(s, u);
  }

  /** While a UPID does not return once collected, its entry has no start on record
      exactly when some step has written it back: no scan ever removes it again.
      Then the task has ended and been collected. */
  lemma {:induction false} OrphansLeak(run: seq<Label>, u: string)
    requires Valid(Stays(u), INIT, run)
    ensures var s := Exec(INIT, run);
      && (Orphan(s.known, u) <==> EverWrittenBack(run, u))
      && (Orphan(s.known, u) ==> u in s.gone && Terminated(s, u))
  {
    OrphanStays(run, u);
    if Orphan(Exec(INIT, run).known, u) {
      OrphanHasEnded(Exec(INIT, run), u);
    }
  }
}
