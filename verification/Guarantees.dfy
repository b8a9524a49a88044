/** What the daemon promises in every reachable state of the whole pipeline. */
module Guarantees {
  import opened Text
  import opened Events
  import opened Lists
  import opened Upid
  import opened Watch
  import opened Enrich
  import opened Pipeline

  // ---- the log grammar meets the consumer ----

  /** In an alternating log a task has an open start exactly after an odd number
      of its events. */
  lemma {:induction false} OpenIffOdd(log: seq<Event>, u: string)
    requires Interleave.Alternates(Interleave.Trace(log, u, false))
    ensures OpenStart(log, u).Some? <==> |Interleave.Trace(log, u, false)| % 2 == 1
  {
    if log != [] {
      var n := |log| - 1;
      var t, t' := Interleave.Trace(log[..n], u, false), Interleave.Trace(log, u, false);
      AlternatesPrefix(t, t');
      OpenIffOdd(log[..n], u);
      if |t'| > |t| { assert t'[|t|] == log[n].phase; }
    }
  }

  lemma AlternatesPrefix(t: seq<Phase>, t': seq<Phase>)
    requires Interleave.Alternates(t') && t <= t'
    ensures Interleave.Alternates(t)
  {
  }

  lemma TakeAlternates(a: seq<Event>, b: seq<Event>, i: nat, u: string)
    requires i <= |a| && Interleave.Alternates(Interleave.Trace(a + b, u, false))
    ensures Interleave.Alternates(Interleave.Trace(a[..i], u, false))
  {
    assert (a + b)[..i] == a[..i];
    assert a + b == (a + b)[..i] + (a + b)[i..];
    Interleave.TraceAppend((a + b)[..i], (a + b)[i..], u, false);
    AlternatesPrefix(Interleave.Trace(a[..i], u, false), Interleave.Trace(a + b, u, false));
  }

  /** Every stretch of taken events alternates. */
  lemma {:induction false} EatenAlternates(who: Identity, s: Daemon, i: nat, u: string)
    requires Inv(who, s) && i <= |s.eaten|
    ensures Interleave.Alternates(Interleave.Trace(s.eaten[..i], u, false))
  {
    assert Ordering.Lane(s.w, u);
    Ordering.LogLane(s.w, u);
    TakeAlternates(s.eaten, s.w.chan, i, u);
  }

  lemma TraceTake(log: seq<Event>, i: nat, u: string)
    requires i < |log| && log[i].upid.raw == u && log[i].phase != Synced
    ensures Interleave.Trace(log[..i + 1], u, false) == Interleave.Trace(log[..i], u, false) + [log[i].phase]
  {
    assert log[..i + 1][..i] == log[..i];
  }

  lemma LastIsEven(t: seq<Phase>, p: Phase)
    requires Interleave.Alternates(t + [p]) && Terminal(p)
    ensures |t| % 2 == 1
  {
    assert (t + [p])[|t|] == p;
  }

  /** A terminal event always finds its start open. */
  lemma {:induction false} TerminalHasStart(who: Identity, s: Daemon, i: nat)
    requires Inv(who, s) && i < |s.eaten| && Terminal(s.eaten[i].phase)
    ensures OpenStart(s.eaten[..i], s.eaten[i].upid.raw).Some?
  {
    EatenAlternates(who, s, i, s.eaten[i].upid.raw);
    EatenAlternates(who, s, i + 1, s.eaten[i].upid.raw);
    TerminalOpen(s.eaten, i);
  }

  lemma TerminalOpen(log: seq<Event>, i: nat)
    requires i < |log| && Terminal(log[i].phase)
    requires Interleave.Alternates(Interleave.Trace(log[..i], log[i].upid.raw, false))
    requires Interleave.Alternates(Interleave.Trace(log[..i + 1], log[i].upid.raw, false))
    ensures OpenStart(log[..i], log[i].upid.raw).Some?
  {
    var u := log[i].upid.raw;
    TraceTake(log, i, u);
    LastIsEven(Interleave.Trace(log[..i], u, false), log[i].phase);
    OpenIffOdd(log[..i], u);
  }

  lemma EatenObserved(s: Daemon)
    requires Feed(s)
    ensures forall e <- s.eaten :: e.obs != 0
  {
  }

  /** Every terminal event of the daemon carries a duration, measured from the
      observation of its own start: the one since which the task neither started
      nor ended. */
  lemma {:induction false} EveryDuration(who: Identity, ls: seq<Label>)
    requires Valid(who, INIT, ls)
    ensures var s := Exec(who, INIT, ls);
      |s.eaten| == |s.envs| && AllTimed(s.eaten, s.envs, AllMade(who, s.eaten, s.envs))
  {
    Pipeline.Reachable(who, ls);
    DurationsIn(who, Exec(who, INIT, ls));
  }

  lemma DurationsIn(who: Identity, s: Daemon)
    requires Inv(who, s)
    ensures AllTimed(s.eaten, s.envs, AllMade(who, s.eaten, s.envs))
  {
    EatenObserved(s);
    forall i: nat | i < |s.eaten| && Terminal(s.eaten[i].phase)
      ensures Timed(s.eaten, s.envs, AllMade(who, s.eaten, s.envs), i)
    {
      TerminalHasStart(who, s, i);
      DurationFromOwnStart(who, s.eaten, s.envs, i);
    }
  }

  /** The events taken, without a terminal one that is still to be handed on. */
  function HandedOn(s: Daemon): (log: seq<Event>)
    ensures log <= s.eaten
  {
    if s.held.Some? && Terminal(s.held.value.ev.phase) && s.eaten != [] then s.eaten[..|s.eaten| - 1] else s.eaten
  }

  /** `starts` holds exactly the tasks whose start the consumer has taken and whose
      end it has not handed on. */
  lemma {:induction false} StartsExact(who: Identity, ls: seq<Label>, u: string)
    requires Valid(who, INIT, ls)
    ensures var s := Exec(who, INIT, ls);
      u in s.cache.starts <==> |Interleave.Trace(HandedOn(s), u, false)| % 2 == 1
  {
    Pipeline.Reachable(who, ls);
    StartsIn(who, Exec(who, INIT, ls), u);
  }

  lemma StartsIn(who: Identity, s: Daemon, u: string)
    requires Inv(who, s)
    ensures u in s.cache.starts <==> |Interleave.Trace(HandedOn(s), u, false)| % 2 == 1
  {
    var n := |HandedOn(s)|;
    EatenAlternates(who, s, n, u);
    HandedStarts(who, s);
    OddStarts(s.eaten[..n], s.envs[..n], u);
    assert s.eaten[..n] == HandedOn(s);
  }

  lemma OddStarts(log: seq<Event>, envs: seq<Env>, u: string)
    requires |log| == |envs| && Interleave.Alternates(Interleave.Trace(log, u, false))
    ensures u in Consumed(log, envs).starts <==> |Interleave.Trace(log, u, false)| % 2 == 1
  {
    OpenIffOdd(log, u);
    StartsAreOpen(log, envs, u);
  }

  lemma HandedStarts(who: Identity, s: Daemon)
    requires |s.eaten| == |s.envs| && Flow(who, s)
    ensures var n := |HandedOn(s)|; s.cache.starts == Consumed(s.eaten[..n], s.envs[..n]).starts
  {
    if s.held.Some? && Terminal(s.held.value.ev.phase) {
      DuringTerminal(s.eaten, s.envs);
    } else {
      WholeTake(s.eaten, s.envs);
    }
  }

  lemma DuringTerminal(eaten: seq<Event>, envs: seq<Env>)
    requires |eaten| == |envs| && eaten != [] && Terminal(eaten[|eaten| - 1].phase)
    ensures var n := |eaten| - 1; DuringLast(eaten, envs) == Consumed(eaten[..n], envs[..n]).starts
  {
  }

  lemma WholeTake(eaten: seq<Event>, envs: seq<Env>)
    requires |eaten| == |envs|
    ensures Consumed(eaten[..|eaten|], envs[..|eaten|]) == Consumed(eaten, envs)
  {
    assert eaten[..|eaten|] == eaten && envs[..|eaten|] == envs;
  }

  // ---- targets ----

  lemma {:induction false} EatenSameTask(who: Identity, s: Daemon)
    requires Inv(who, s)
    ensures SameTask(s.eaten) && forall e <- s.eaten :: e.upid.raw != ""
  {
    forall e | e in s.eaten ensures Ordering.GoodEvent(e) && e.upid.raw != "" {
      assert e in s.w.log;
      RawIsInput(e.upid.raw);
    }
    forall i, j | 0 <= i < |s.eaten| && 0 <= j < |s.eaten| && s.eaten[i].upid.raw == s.eaten[j].upid.raw
      ensures s.eaten[i].action == s.eaten[j].action
    {
      assert Ordering.GoodEvent(s.eaten[i]) && Ordering.GoodEvent(s.eaten[j]);
    }
  }

  /** Once a migration's started event carries a target, so does every later event
      of the task up to and including its terminal one. */
  lemma {:induction false} TargetsSurvive(who: Identity, ls: seq<Label>)
    requires Valid(who, INIT, ls)
    ensures var s := Exec(who, INIT, ls);
      |s.eaten| == |s.envs| && TargetsKept(s.eaten, AllMade(who, s.eaten, s.envs))
  {
    Pipeline.Reachable(who, ls);
    TargetsIn(who, Exec(who, INIT, ls));
  }

  lemma TargetsIn(who: Identity, s: Daemon)
    requires Inv(who, s)
    ensures TargetsKept(s.eaten, AllMade(who, s.eaten, s.envs))
  {
    var log, made := s.eaten, AllMade(who, s.eaten, s.envs);
    EatenSameTask(who, s);
    forall i: nat, j: nat | i < |log| && j < |log| && Follows(log, made, i, j)
      ensures made[j].data.targetNode != ""
    {
      assert log[i] in log;
      TargetNeverMissing(who, log, s.envs, i, j);
    }
  }

  /** The target cache never outlives its task: its keys are open migrations, and
      its targets are never empty. */
  lemma TargetKeysOpen(who: Identity, ls: seq<Label>, u: string)
    requires Valid(who, INIT, ls)
    ensures var s := Exec(who, INIT, ls);
      u in s.cache.targets ==>
        (s.cache.targets[u] != "" && u in s.cache.starts
         && exists e <- s.eaten :: e.upid.raw == u && e.phase == Started && e.action == Migrate)
  {
    Pipeline.Reachable(who, ls);
    var s := Exec(who, INIT, ls);
    EatenSameTask(who, s);
    TargetsAreOpen(s.eaten, s.envs, u);
    if u in s.cache.targets {
      assert s.eaten[OpenStart(s.eaten, u).value] in s.eaten;
    }
  }

  /** In every run each event's target is what its own process and log show, and if they
      show nothing, the target that was published on its own start; in every state the
      cached target of a task is the one published on its open start. */
  lemma {:induction false} TargetsExact(who: Identity, ls: seq<Label>, u: string)
    requires Valid(who, INIT, ls)
    ensures var s := Exec(who, INIT, ls);
      && |s.eaten| == |s.envs|
      && (forall j: nat :: j < |s.eaten| ==> TargetLaw(s.eaten, s.envs, AllMade(who, s.eaten, s.envs), j))
      && Lookup(s.cache.targets, u) == (match OpenStart(s.eaten, u)
           case None => ""
           case Some(i) => AllMade(who, s.eaten, s.envs)[i].data.targetNode)
  {
    Pipeline.Reachable(who, ls);
    var s := Exec(who, INIT, ls);
    EatenSameTask(who, s);
    forall j: nat | j < |s.eaten| ensures TargetLaw(s.eaten, s.envs, AllMade(who, s.eaten, s.envs), j) {
      TargetExact(who, s.eaten, s.envs, j);
    }
    CachedIsStarts(s.eaten, s.envs, u);
    var r := OpenStart(s.eaten, u);
    if r.Some? { TargetMade(who, s.eaten, s.envs, r.value); }
  }

  // ---- batches at the publisher ----

  /** Batches overlap and any send may drop; still, what has been published of a
      batch so far is sound: the states are a subsequence of its guests whether or
      not its marker is among them, the marker comes last and counts the guests, with
      k states before it exactly count - k were dropped, and with k = count the whole
      list arrived. */
  lemma {:induction false} PublishedBatch(who: Identity, ls: seq<Label>, b: nat)
    requires Valid(who, INIT, ls)
    ensures var s := Exec(who, INIT, ls);
      if b < |s.batches| then
        Snapshots.Sound(OfBatch(s.published, b),
                        Snapshots.StateEvents(who.cluster, who.node, b, s.batches[b].vms),
                        Snapshots.Drops(s.batches[b].kept))
      else OfBatch(s.published, b) == []
  {
    Pipeline.Reachable(who, ls);
    BatchIn(who, Exec(who, INIT, ls), b);
  }

  lemma BatchIn(who: Identity, s: Daemon, b: nat)
    requires Feed(s) && BatchedAll(who, s)
    ensures if b < |s.batches| then
        Snapshots.Sound(OfBatch(s.published, b),
                        Snapshots.StateEvents(who.cluster, who.node, b, s.batches[b].vms),
                        Snapshots.Drops(s.batches[b].kept))
      else OfBatch(s.published, b) == []
  {
    PickAppend(BatchOnly(b), s.published, s.out);
    if b < |s.batches| {
      var Batch(vms, kept) := s.batches[b];
      assert BatchOk(who, s, b);
      Snapshots.BatchSound(who.cluster, who.node, b, vms, kept);
      Snapshots.SoundPrefix(OfBatch(s.published, b), OfBatch(s.out, b),
                            Snapshots.StateEvents(who.cluster, who.node, b, vms), Snapshots.Drops(kept));
    } else {
      assert OfBatch(s.accepted, b) == [];
    }
  }

  // ---- subjects ----

  /** An event of this daemon's node: of a guest, or a completion marker. */
  predicate Typed(who: Identity, e: CloudEvent) {
    (VmScoped(e) || Marker(e)) && e.data.cluster == who.cluster && e.data.node == who.node
  }

  predicate AllTyped(who: Identity, s: Daemon) {
    && (forall e <- s.out :: Typed(who, e))
    && (forall e <- s.published :: Typed(who, e))
    && (s.held.Some? ==> Typed(who, s.held.value.ce))
  }

  lemma TypedStep(who: Identity, s: Daemon, l: Label)
    requires AllTyped(who, s) && Enabled(s, l)
    ensures AllTyped(who, Do(who, s, l))
  {
  }

  lemma {:induction false} TypedRun(who: Identity, ls: seq<Label>)
    requires Valid(who, INIT, ls)
    ensures AllTyped(who, Exec(who, INIT, ls))
  {
    if ls != [] {
      TypedRun(who, ls[..|ls| - 1]);
      TypedStep(who, Exec(who, INIT, ls[..|ls| - 1]), ls[|ls| - 1]);
    }
  }

  /** Every guest's event is published on the subject of this cluster and node and of
      its own kind, guest, action and phase, the last three being those of its type;
      only completion markers go to the completion subject of this cluster and node. */
  lemma {:induction false} PublishedSubjects(who: Identity, ls: seq<Label>, e: CloudEvent)
    requires Valid(who, INIT, ls) && e in Exec(who, INIT, ls).published
    ensures VmScoped(e) != Marker(e)
    ensures var d := e.data; VmScoped(e) ==>
      && Split(PublishSubject(e), '.')
         == ["pve", Safe(who.cluster), Safe(who.node), KindName(d.kind), Itoa(d.vmid), ActionName(d.action), PhaseName(d.phase)]
      && Split(e.typ, '.') == ["dev", "proxmox", "eventbus", KindName(d.kind), ActionName(d.action), PhaseName(d.phase)]
    ensures Marker(e) <==>
      Split(PublishSubject(e), '.') == ["pve", Safe(who.cluster), Safe(who.node), "snapshot", "complete"]
  {
    TypedRun(who, ls);
    assert Typed(who, e);
    SubjectAgreesWithType(e);
  }

  // ---- progress ----

  /** How many draining steps the events under way still need. */
  function Backlog(s: Daemon): nat {
    3 * |s.w.chan| + (if s.held.Some? then 2 else 0) + |s.out|
  }

  predicate Drains(l: Label) { l.Take? || l.Hand? || l.Publish? }

  /** The draining step that a state offers. */
  function Drain(s: Daemon, env: Env): Label {
    if s.out != [] then Publish else if s.held.Some? then Hand else Take(env)
  }

  lemma TakeMoves(who: Identity, s: Daemon, env: Env)
    requires s.held.None? && s.w.chan != []
    ensures var t := DoTake(who, s, env);
      t.w == s.w.(chan := s.w.chan[1..]) && t.held.Some? && t.out == s.out
  {
  }

  lemma DrainTakes(who: Identity, s: Daemon, l: Label)
    requires Enabled(s, l) && Drains(l)
    ensures var t := Do(who, s, l);
      && t.w.scan == s.w.scan && t.w.pollers == s.w.pollers && t.w.log == s.w.log
      && (l.Take? ==> |t.w.chan| == |s.w.chan| - 1 && s.held.None? && t.held.Some? && t.out == s.out)
      && (l.Hand? ==> t.w == s.w && s.held.Some? && t.held.None? && |t.out| == |s.out| + 1)
      && (l.Publish? ==> t.w == s.w && t.held == s.held && |t.out| == |s.out| - 1)
  {
    if l.Take? { TakeMoves(who, s, l.env); }
  }

  /** While anything is under way a draining step is enabled, and every one that is
      shrinks the backlog by exactly one. */
  lemma DrainStep(who: Identity, s: Daemon, env: Env, l: Label)
    ensures Backlog(s) > 0 ==> Drains(Drain(s, env)) && Enabled(s, Drain(s, env))
    ensures Drains(l) && Enabled(s, l) ==>
      Backlog(Do(who, s, l)) == Backlog(s) - 1 && Do(who, s, l).w.log == s.w.log
  {
    if Drains(l) && Enabled(s, l) { DrainTakes(who, s, l); }
  }

  lemma OneStep(who: Identity, s: Daemon, l: Label)
    requires Enabled(s, l)
    ensures Valid(who, s, [l]) && Exec(who, s, [l]) == Do(who, s, l)
  {
  }

  lemma ExtendRun(who: Identity, s: Daemon, ls: seq<Label>, l: Label)
    requires Valid(who, s, ls) && Enabled(Exec(who, s, ls), l)
    ensures Valid(who, s, ls + [l]) && Exec(who, s, ls + [l]) == Do(who, Exec(who, s, ls), l)
  {
  }

  lemma SnocAssoc<T>(a: seq<T>, b: seq<T>)
    requires b != []
    ensures a + b[..|b| - 1] + [b[|b| - 1]] == a + b
  {
  }

  lemma {:induction false} ExecConcat(who: Identity, s: Daemon, a: seq<Label>, b: seq<Label>)
    requires Valid(who, s, a) && Valid(who, Exec(who, s, a), b)
    ensures Valid(who, s, a + b) && Exec(who, s, a + b) == Exec(who, Exec(who, s, a), b)
  {
    if b == [] {
      assert a + b == a;
    } else {
      var n := |b| - 1;
      ExecConcat(who, s, a, b[..n]);
      ExtendRun(who, s, a + b[..n], b[n]);
      SnocAssoc(a, b);
    }
  }

  lemma {:induction false} DrainRun(who: Identity, s: Daemon, env: Env) returns (ls: seq<Label>)
    ensures |ls| == Backlog(s) && Valid(who, s, ls)
    ensures Backlog(Exec(who, s, ls)) == 0 && Exec(who, s, ls).w.log == s.w.log
    decreases Backlog(s)
  {
    ls := [];
    if Backlog(s) > 0 {
      var l := Drain(s, env);
      DrainStep(who, s, env, l);
      var t := Do(who, s, l);
      var rest := DrainRun(who, t, env);
      OneStep(who, s, l);
      ExecConcat(who, s, [l], rest);
      ls := [l] + rest;
    }
  }

  /** From every reachable state a run of the consumer and the publisher alone, of
      known length, publishes everything the watcher has sent so far. */
  lemma {:induction false} EverythingCanBePublished(who: Identity, ls: seq<Label>, env: Env) returns (more: seq<Label>)
    requires Valid(who, INIT, ls)
    ensures |more| == Backlog(Exec(who, INIT, ls)) && Valid(who, INIT, ls + more)
    ensures var s, t := Exec(who, INIT, ls), Exec(who, INIT, ls + more);
      && t.w.log == s.w.log == t.eaten && |t.eaten| == |t.envs|
      && Lifecycles(t.published) == AllMade(who, t.eaten, t.envs)
  {
    more := DrainRun(who, Exec(who, INIT, ls), env);
    ExecConcat(who, INIT, ls, more);
    Conservation(who, ls + more);
    var t := Exec(who, INIT, ls + more);
    assert t.out == [] && t.w.chan == [] && Lifecycles(t.out) == [];
  }
}
