/** What a blocked scanner and the pollers past their mark still owe gets published
    too: every step that works on it pays exactly one unit of a weighted debt. */
module Progress {
  import opened Watch
  import opened Enrich
  import opened Pipeline
  import opened Guarantees

  /** The synced events that marked pollers will send, in the pollers' order. */
  function MarkedEvents(ps: seq<Interleave.Poller>, now: int): seq<Event> {
    if ps == [] then []
    else
      (if ps[0].pc == Interleave.Marked then [Interleave.SyncedEvent(ps[0].upid, now)] else [])
      + MarkedEvents(ps[1..], now)
  }

  /** All that the watcher has sent, and all that it is committed to send. */
  function Promised(w: Interleave.World, now: int): seq<Event> {
    Interleave.Full(w) + MarkedEvents(w.pollers, now)
  }

  function OwedSteps(c: Interleave.Scanner): nat {
    if c.Sending? then
      (if c.cur.start then 4 else 0) + (if c.cur.spawn then 1 else 0) + (if c.cur.end then 4 else 0)
    else 0
  }

  /** How many steps all that is under way or owed still needs. */
  function Debt(s: Daemon): nat {
    OwedSteps(s.w.scan) + 4 * |MarkedEvents(s.w.pollers, 1)| + Backlog(s)
  }

  predicate Pays(s: Daemon, l: Label) {
    || Drains(l)
    || (l.Watch? && l.l.Act? && OwedSteps(s.w.scan) > 0)
    || (l.Watch? && l.l.SendSynced?)
  }

  function FirstMarked(ps: seq<Interleave.Poller>): (i: nat)
    ensures i <= |ps|
    ensures i < |ps| ==> ps[i].pc == Interleave.Marked
  {
    if ps == [] || ps[0].pc == Interleave.Marked then 0 else 1 + FirstMarked(ps[1..])
  }

  /** What a state can do about its debt. */
  function Pay(s: Daemon, env: Env, now: int): Label {
    if Backlog(s) > 0 then Drain(s, env)
    else if OwedSteps(s.w.scan) > 0 then Label.Watch(Interleave.Act)
    else Label.Watch(Interleave.SendSynced(FirstMarked(s.w.pollers), now))
  }

  // ---- lists of pollers ----

  lemma MarkedCons(p: Interleave.Poller, ps: seq<Interleave.Poller>, now: int)
    ensures MarkedEvents([p] + ps, now)
         == (if p.pc == Interleave.Marked then [Interleave.SyncedEvent(p.upid, now)] else []) + MarkedEvents(ps, now)
  {
    assert ([p] + ps)[1..] == ps;
  }

  lemma {:induction false} MarkedWaiting(ps: seq<Interleave.Poller>, p: Interleave.Poller, now: int)
    requires p.pc != Interleave.Marked
    ensures MarkedEvents(ps + [p], now) == MarkedEvents(ps, now)
  {
    if ps == [] {
      MarkedCons(p, [], now);
      assert [p] + [] == ps + [p];
    } else {
      MarkedWaiting(ps[1..], p, now);
      MarkedCons(ps[0], ps[1..], now);
      MarkedCons(ps[0], ps[1..] + [p], now);
      assert [ps[0]] + ps[1..] == ps;
      assert [ps[0]] + (ps[1..] + [p]) == ps + [p];
    }
  }

  lemma {:induction false} MarkedCount(ps: seq<Interleave.Poller>, a: int, b: int)
    ensures |MarkedEvents(ps, a)| == |MarkedEvents(ps, b)|
  {
    if ps != [] { MarkedCount(ps[1..], a, b); }
  }

  /** Sending takes one event away; if the first marked poller sends, the first. */
  lemma {:induction false} MarkedSent(ps: seq<Interleave.Poller>, i: nat, now: int)
    requires i < |ps| && ps[i].pc == Interleave.Marked
    ensures var qs := ps[i := ps[i].(pc := Interleave.Done(true))];
      && |MarkedEvents(qs, now)| == |MarkedEvents(ps, now)| - 1
      && (i == FirstMarked(ps) ==>
            MarkedEvents(ps, now) == [Interleave.SyncedEvent(ps[i].upid, now)] + MarkedEvents(qs, now))
  {
    var qs := ps[i := ps[i].(pc := Interleave.Done(true))];
    if i == 0 {
      assert qs[1..] == ps[1..];
    } else {
      assert qs[1..] == ps[1..][i - 1 := ps[i].(pc := Interleave.Done(true))];
      MarkedSent(ps[1..], i - 1, now);
    }
  }

  lemma {:induction false} NoneMarked(ps: seq<Interleave.Poller>, now: int)
    ensures FirstMarked(ps) == |ps| <==> MarkedEvents(ps, now) == []
  {
    if ps != [] { NoneMarked(ps[1..], now); }
  }

  // ---- one step ----

  lemma ActPays(w: Interleave.World)
    requires Interleave.Enabled(w, Interleave.Act) && OwedSteps(w.scan) > 0
    ensures var t := Interleave.DoAct(w);
      && Interleave.Full(t) == Interleave.Full(w)
      && |MarkedEvents(t.pollers, 1)| == |MarkedEvents(w.pollers, 1)|
      && OwedSteps(t.scan) + 3 * |t.chan| == OwedSteps(w.scan) + 3 * |w.chan| - 1
      && forall now: int :: MarkedEvents(t.pollers, now) == MarkedEvents(w.pollers, now)
  {
    var p := Interleave.Poller(w.scan.cur.item.upid, Interleave.Waiting);
    forall now: int ensures MarkedEvents(w.pollers + [p], now) == MarkedEvents(w.pollers, now) {
      MarkedWaiting(w.pollers, p, now);
    }
  }

  lemma SendPays(w: Interleave.World, i: nat, now: int)
    requires Interleave.Enabled(w, Interleave.SendSynced(i, now))
    ensures var t := Interleave.Do(w, Interleave.SendSynced(i, now));
      && t.scan == w.scan && |t.chan| == |w.chan| + 1
      && |MarkedEvents(t.pollers, 1)| == |MarkedEvents(w.pollers, 1)| - 1
      && (i == FirstMarked(w.pollers) && Interleave.OwedEvents(w) == [] ==> Promised(t, now) == Promised(w, now))
  {
    MarkedSent(w.pollers, i, 1);
    MarkedSent(w.pollers, i, now);
    var t := Interleave.Do(w, Interleave.SendSynced(i, now));
    var e := Interleave.SyncedEvent(w.pollers[i].upid, now);
    assert t.log == w.log + [e];
    if i == FirstMarked(w.pollers) && Interleave.OwedEvents(w) == [] {
      assert w.log + [] == w.log && t.log + [] == t.log;
      assert w.log + ([e] + MarkedEvents(t.pollers, now)) == w.log + [e] + MarkedEvents(t.pollers, now);
    }
  }

  lemma Nothing(c: Interleave.World)
    requires OwedSteps(c.scan) == 0
    ensures Interleave.OwedEvents(c) == []
  {
  }

  /** While anything is under way or owed, a paying step is enabled, and every one
      that is pays exactly one. */
  lemma {:induction false} PayStep(who: Identity, s: Daemon, env: Env, now: int, l: Label)
    requires now != 0
    ensures Debt(s) > 0 ==> Pays(s, Pay(s, env, now)) && Enabled(s, Pay(s, env, now))
    ensures Pays(s, l) && Enabled(s, l) ==> Debt(Do(who, s, l)) == Debt(s) - 1
  {
    NoneMarked(s.w.pollers, 1);
    DrainStep(who, s, env, l);
    if Enabled(s, l) && l.Watch? {
      if l.l.Act? && OwedSteps(s.w.scan) > 0 {
        ActPays(s.w);
      } else if l.l.SendSynced? {
        SendPays(s.w, l.l.i, l.l.now);
      }
    } else if Enabled(s, l) && Drains(l) {
      DrainTakes(who, s, l);
    }
  }

  /** Paying in that order changes nothing of what was promised. */
  lemma PayKeeps(who: Identity, s: Daemon, env: Env, now: int)
    requires now != 0 && Debt(s) > 0
    ensures Promised(Do(who, s, Pay(s, env, now)).w, now) == Promised(s.w, now)
  {
    PayStep(who, s, env, now, Pay(s, env, now));
    if Backlog(s) > 0 {
      DrainTakes(who, s, Pay(s, env, now));
    } else if OwedSteps(s.w.scan) > 0 {
      ActPays(s.w);
    } else {
      Nothing(s.w);
      SendPays(s.w, FirstMarked(s.w.pollers), now);
    }
  }

  // ---- runs ----

  lemma {:induction false} PayRun(who: Identity, s: Daemon, env: Env, now: int) returns (ls: seq<Label>)
    requires now != 0
    ensures |ls| == Debt(s) && Valid(who, s, ls)
    ensures Debt(Exec(who, s, ls)) == 0 && Promised(Exec(who, s, ls).w, now) == Promised(s.w, now)
    decreases Debt(s)
  {
    ls := [];
    if Debt(s) > 0 {
      var l := Pay(s, env, now);
      PayStep(who, s, env, now, l);
      PayKeeps(who, s, env, now);
      var rest := PayRun(who, Do(who, s, l), env, now);
      OneStep(who, s, l);
      ExecConcat(who, s, [l], rest);
      ls := [l] + rest;
    }
  }

  lemma NoDebt(s: Daemon, now: int)
    requires Debt(s) == 0
    ensures Promised(s.w, now) == s.w.log && s.out == [] && s.w.chan == [] && s.held.None?
  {
    MarkedCount(s.w.pollers, 1, now);
    Nothing(s.w);
  }

  /** From every reachable state a run of known length publishes everything: what
      the watcher has sent, then what a blocked scanner still owes, then the synced
      events of the pollers past their mark. */
  lemma {:induction false} PromisesCanBeKept(who: Identity, ls: seq<Label>, env: Env, now: int) returns (more: seq<Label>)
    requires Valid(who, INIT, ls) && now != 0
    ensures |more| == Debt(Exec(who, INIT, ls)) && Valid(who, INIT, ls + more)
    ensures var s, t := Exec(who, INIT, ls), Exec(who, INIT, ls + more);
      && t.eaten == t.w.log == Promised(s.w, now) && |t.eaten| == |t.envs|
      && Lifecycles(t.published) == AllMade(who, t.eaten, t.envs)
  {
    more := PayRun(who, Exec(who, INIT, ls), env, now);
    ExecConcat(who, INIT, ls, more);
    Conservation(who, ls + more);
    NoDebt(Exec(who, INIT, ls + more), now);
  }
}
