/** The daemon's event path as one system: watcher, consumer, snapshot batches, the
    shared output channel and the publisher (runDaemon and runWatcher,
    cmd/proxmox-eventbus/main.go). */
module Pipeline {
  import opened Text
  import opened Events
  import opened Lists
  import opened Watch
  import opened Enrich
  import Interleave
  import Ordering
  import Snapshots

  const CAPACITY: nat := 1024

  /** An event the consumer has made and is blocked on handing over. */
  datatype Held = Held(ev: Event, ce: CloudEvent)

  /** A batch under way: which of its attempts so far found room. Its id is its
      index, standing for the fresh id of the source. */
  datatype Batch = Batch(vms: seq<Snapshots.Vm>, kept: seq<bool>)

  /** `eaten` and `envs` (the events the consumer took and what the system answered
      for each), `accepted` (all the output channel ever took) and `published` are
      history. */
  datatype Daemon = Daemon(
    w: Interleave.World, eaten: seq<Event>, envs: seq<Env>, cache: Cache, held: Option<Held>,
    out: seq<CloudEvent>, accepted: seq<CloudEvent>, published: seq<CloudEvent>, batches: seq<Batch>)

  const INIT := Daemon(Interleave.INIT, [], [], EMPTY, None, [], [], [], [])

  datatype Label =
    | Watch(l: Interleave.Label)
    | Take(env: Env)                      // the consumer takes and enriches an event
    | Hand                                // its blocking send succeeds
    | SnapBegin(vms: seq<Snapshots.Vm>)
    | SnapSend(b: nat)                    // a batch's next send, accepted or dropped
    | Publish

  /** The watcher's clock is never the zero time. */
  predicate ClockOk(l: Interleave.Label) {
    (l.Begin? ==> l.obs != 0) && (l.SendSynced? ==> l.now != 0)
  }

  predicate Enabled(s: Daemon, l: Label) {
    match l
    case Watch(wl) => !wl.Recv? && ClockOk(wl) && Interleave.Enabled(s.w, wl)
    case Take(_) => s.held.None? && s.w.chan != []
    case Hand => s.held.Some? && |s.out| < CAPACITY
    case SnapBegin(_) => true
    case SnapSend(b) => b < |s.batches| && |s.batches[b].kept| <= |s.batches[b].vms|
    case Publish => s.out != []
  }

  function DoTake(who: Identity, s: Daemon, env: Env): Daemon
    requires s.held.None? && s.w.chan != []
  {
    var e := s.w.chan[0];
    s.(w := Interleave.Do(s.w, Interleave.Recv),
       eaten := s.eaten + [e], envs := s.envs + [env],
       held := Some(Held(e, MakerOf(who)(s.cache, e, env))),
       cache := Cache(StartsDuring(s.cache.starts, e), TargetsAfter(s.cache.targets, e, env)))
  }

  /** The deletion of the start time comes after the send. */
  function DoHand(s: Daemon): Daemon
    requires s.held.Some?
  {
    var Held(e, ce) := s.held.value;
    s.(held := None, out := s.out + [ce], accepted := s.accepted + [ce],
       cache := s.cache.(starts := if Terminal(e.phase) then s.cache.starts - {e.upid.raw} else s.cache.starts))
  }

  function DoSnapSend(who: Identity, s: Daemon, b: nat): Daemon
    requires Enabled(s, SnapSend(b))
  {
    var Batch(vms, kept) := s.batches[b];
    var ev := Snapshots.Attempts(who.cluster, who.node, b, vms)[|kept|];
    var room := |s.out| < CAPACITY;
    var s1 := s.(batches := s.batches[b := Batch(vms, kept + [room])]);
    if room then s1.(out := s.out + [ev], accepted := s.accepted + [ev]) else s1
  }

  function Do(who: Identity, s: Daemon, l: Label): Daemon {
    if !Enabled(s, l) then s else
      match l
      case Watch(wl) => s.(w := Interleave.Do(s.w, wl))
      case Take(env) => DoTake(who, s, env)
      case Hand => DoHand(s)
      case SnapBegin(vms) => s.(batches := s.batches + [Batch(vms, [])])
      case SnapSend(b) => DoSnapSend(who, s, b)
      case Publish => s.(published := s.published + [s.out[0]], out := s.out[1..])
  }

  function Exec(who: Identity, s: Daemon, ls: seq<Label>): Daemon {
    if ls == [] then s else Do(who, Exec(who, s, ls[..|ls| - 1]), ls[|ls| - 1])
  }

  predicate Valid(who: Identity, s: Daemon, ls: seq<Label>) {
    ls == [] || (Valid(who, s, ls[..|ls| - 1]) && Enabled(Exec(who, s, ls[..|ls| - 1]), ls[|ls| - 1]))
  }

  // ---- two readings of a channel's contents ----

  predicate LifecyclePhase(p: Phase) { p != NoPhase && p != Snapshot }

  function LifecycleOnly(): CloudEvent -> seq<CloudEvent> {
    (e: CloudEvent) => if LifecyclePhase(e.data.phase) then [e] else []
  }

  function BatchOnly(id: nat): CloudEvent -> seq<CloudEvent> {
    (e: CloudEvent) => if !LifecyclePhase(e.data.phase) && e.data.snapshotID == id then [e] else []
  }

  function Lifecycles(es: seq<CloudEvent>): seq<CloudEvent> { Pick(LifecycleOnly(), es) }

  function OfBatch(es: seq<CloudEvent>, id: nat): seq<CloudEvent> { Pick(BatchOnly(id), es) }

  lemma Snoc(es: seq<CloudEvent>, e: CloudEvent, id: nat)
    ensures Lifecycles(es + [e]) == Lifecycles(es) + (if LifecyclePhase(e.data.phase) then [e] else [])
    ensures OfBatch(es + [e], id)
         == OfBatch(es, id) + (if !LifecyclePhase(e.data.phase) && e.data.snapshotID == id then [e] else [])
  {
    assert (es + [e])[..|es|] == es;
  }

  // ---- the invariant ----

  predicate Feed(s: Daemon) {
    && s.w.log == s.eaten + s.w.chan && |s.eaten| == |s.envs|
    && s.accepted == s.published + s.out
    && |s.out| <= CAPACITY
    && (forall e <- s.w.log :: e.obs != 0)
    && (s.w.scan.Idle? || s.w.scan.obs != 0)
  }

  /** The start times while the last event taken is not handed on yet. */
  function DuringLast(eaten: seq<Event>, envs: seq<Env>): map<string, int>
    requires |eaten| == |envs| && eaten != []
  {
    var n := |eaten| - 1;
    StartsDuring(Consumed(eaten[..n], envs[..n]).starts, eaten[n])
  }

  /** Everything made is with the publisher, in the channel or held, in order; the
      live maps are those of the events taken so far, up to the pending deletion. */
  predicate Flow(who: Identity, s: Daemon)
    requires |s.eaten| == |s.envs|
  {
    var made, c := AllMade(who, s.eaten, s.envs), Consumed(s.eaten, s.envs);
    && made == Lifecycles(s.accepted) + (if s.held.Some? then [s.held.value.ce] else [])
    && s.cache.targets == c.targets
    && (s.held.None? ==> s.cache.starts == c.starts)
    && (s.held.Some? ==>
          var e := s.held.value.ev;
          && s.eaten != [] && e == s.eaten[|s.eaten| - 1] && s.held.value.ce.data.phase == e.phase
          && s.cache.starts == DuringLast(s.eaten, s.envs)
          && c.starts == if Terminal(e.phase) then s.cache.starts - {e.upid.raw} else s.cache.starts)
  }

  ghost predicate Inv(who: Identity, s: Daemon) {
    Ordering.Inv(s.w) && Feed(s) && Flow(who, s) && BatchedAll(who, s)
  }

  ghost predicate BatchedAll(who: Identity, s: Daemon) {
    && (forall b :: 0 <= b < |s.batches| ==> BatchOk(who, s, b))
    && (forall b: nat :: |s.batches| <= b ==> OfBatch(s.accepted, b) == [])
  }

  predicate BatchOk(who: Identity, s: Daemon, b: nat)
    requires b < |s.batches|
  {
    var Batch(vms, kept) := s.batches[b];
    && |kept| <= |vms| + 1
    && OfBatch(s.accepted, b) == Snapshots.Select(Snapshots.Attempts(who.cluster, who.node, b, vms), kept)
  }

  lemma MakerPhase(who: Identity, c: Cache, e: Event, env: Env)
    ensures MakerOf(who)(c, e, env).data.phase == e.phase
  {
  }

  lemma FeedTake(who: Identity, s: Daemon, env: Env)
    requires Feed(s) && Enabled(s, Take(env))
    ensures Feed(DoTake(who, s, env))
  {
    assert s.w.chan == [s.w.chan[0]] + s.w.chan[1..];
    assert s.eaten + [s.w.chan[0]] + s.w.chan[1..] == s.eaten + s.w.chan;
  }

  lemma {:induction false} FlowTake(who: Identity, s: Daemon, env: Env)
    requires Feed(s) && Flow(who, s) && Enabled(s, Take(env))
    ensures var t := DoTake(who, s, env); |t.eaten| == |t.envs| && Flow(who, t)
  {
    var e := s.w.chan[0];
    MakerPhase(who, s.cache, e, env);
    TakeMade(MakerOf(who), s.eaten, s.envs, e, env, s.accepted);
    assert s.cache == Consumed(s.eaten, s.envs);
    DuringSnoc(s.eaten, s.envs, e, env);
  }

  lemma DuringSnoc(log: seq<Event>, envs: seq<Env>, e: Event, env: Env)
    requires |log| == |envs|
    ensures (log + [e])[|log|] == e
    ensures DuringLast(log + [e], envs + [env]) == StartsDuring(Consumed(log, envs).starts, e)
  {
  }

  lemma TakeMade(f: Maker, log: seq<Event>, envs: seq<Env>, e: Event, env: Env, accepted: seq<CloudEvent>)
    requires |log| == |envs| && Outputs(f, log, envs) == Lifecycles(accepted) + []
    ensures var c, c' := Consumed(log, envs), Consumed(log + [e], envs + [env]);
      && Outputs(f, log + [e], envs + [env]) == Lifecycles(accepted) + [f(c, e, env)]
      && c'.targets == TargetsAfter(c.targets, e, env)
      && c'.starts == if Terminal(e.phase) then StartsDuring(c.starts, e) - {e.upid.raw} else StartsDuring(c.starts, e)
  {
  }

  lemma FlowHand(who: Identity, s: Daemon)
    requires Feed(s) && Flow(who, s) && Enabled(s, Hand) && LifecyclePhase(s.held.value.ev.phase)
    ensures Feed(DoHand(s)) && Flow(who, DoHand(s))
  {
    FeedAccepts(s, DoHand(s), s.held.value.ce);
    Snoc(s.accepted, s.held.value.ce, 0);
    Handed(who, s, DoHand(s));
  }

  lemma Handed(who: Identity, s: Daemon, t: Daemon)
    requires |s.eaten| == |s.envs| && Flow(who, s) && s.held.Some?
    requires t.eaten == s.eaten && t.envs == s.envs && t.held.None?
    requires Lifecycles(t.accepted) == Lifecycles(s.accepted) + [s.held.value.ce]
    requires t.cache.targets == s.cache.targets
    requires var e := s.held.value.ev;
      t.cache.starts == if Terminal(e.phase) then s.cache.starts - {e.upid.raw} else s.cache.starts
    ensures Flow(who, t)
  {
  }

  lemma {:induction false} FlowPublish(who: Identity, s: Daemon)
    requires Feed(s) && Flow(who, s) && Enabled(s, Publish)
    ensures Feed(Do(who, s, Publish)) && Flow(who, Do(who, s, Publish))
  {
    assert s.published + [s.out[0]] + s.out[1..] == s.published + s.out;
  }

  lemma FeedWatch(s: Daemon, l: Interleave.Label)
    requires Feed(s) && Enabled(s, Watch(l))
    ensures Feed(s.(w := Interleave.Do(s.w, l)))
  {
  }

  // ---- batches ----

  lemma BatchSame(who: Identity, s: Daemon, t: Daemon, e: CloudEvent)
    requires BatchedAll(who, s) && t.batches == s.batches
    requires t.accepted == s.accepted || (t.accepted == s.accepted + [e] && LifecyclePhase(e.data.phase))
    ensures BatchedAll(who, t)
  {
    forall id: nat ensures OfBatch(t.accepted, id) == OfBatch(s.accepted, id) {
      Snoc(s.accepted, e, id);
    }
    forall b | 0 <= b < |t.batches| ensures BatchOk(who, t, b) { assert BatchOk(who, s, b); }
  }

  lemma BatchBegin(who: Identity, s: Daemon, vms: seq<Snapshots.Vm>)
    requires BatchedAll(who, s)
    ensures BatchedAll(who, s.(batches := s.batches + [Batch(vms, [])]))
  {
    var t := s.(batches := s.batches + [Batch(vms, [])]);
    forall b | 0 <= b < |t.batches| ensures BatchOk(who, t, b) {
      if b < |s.batches| { assert BatchOk(who, s, b); }
    }
  }

  /** The attempt belongs to its batch, and it is not a lifecycle event. */
  lemma AttemptShape(who: Identity, b: nat, vms: seq<Snapshots.Vm>, i: nat)
    requires i <= |vms|
    ensures var e := Snapshots.Attempts(who.cluster, who.node, b, vms)[i];
      !LifecyclePhase(e.data.phase) && e.data.snapshotID == b
  {
  }

  lemma SelectSnoc<T>(xs: seq<T>, kept: seq<bool>, room: bool)
    requires |kept| < |xs|
    ensures Snapshots.Select(xs, kept + [room]) == Snapshots.Select(xs, kept) + (if room then [xs[|kept|]] else [])
  {
  }

  lemma {:induction false} BatchSend(who: Identity, s: Daemon, b: nat)
    requires BatchedAll(who, s) && Enabled(s, SnapSend(b))
    ensures BatchedAll(who, DoSnapSend(who, s, b))
    ensures Lifecycles(DoSnapSend(who, s, b).accepted) == Lifecycles(s.accepted)
  {
    var t := DoSnapSend(who, s, b);
    var Batch(vms, kept) := s.batches[b];
    var all := Snapshots.Attempts(who.cluster, who.node, b, vms);
    var e := all[|kept|];
    AttemptShape(who, b, vms, |kept|);
    SelectSnoc(all, kept, |s.out| < CAPACITY);
    Snoc(s.accepted, e, b);
    assert BatchOk(who, s, b);
    forall id: nat | id != b ensures OfBatch(t.accepted, id) == OfBatch(s.accepted, id) {
      Snoc(s.accepted, e, id);
    }
    forall c | 0 <= c < |t.batches| ensures BatchOk(who, t, c) {
      if c != b { assert BatchOk(who, s, c); }
    }
  }

  // ---- every reachable state ----

  lemma {:induction false} InvStep(who: Identity, s: Daemon, l: Label)
    requires Inv(who, s) && Enabled(s, l)
    ensures Inv(who, Do(who, s, l))
  {
    match l
    case Watch(wl) =>
      InvWatch(who, s, wl);
    case Take(env) =>
      InvTake(who, s, env);
    case Hand =>
      InvHand(who, s);
    case SnapBegin(vms) =>
      InvSnapBegin(who, s, vms);
    case SnapSend(b) =>
      InvSnapSend(who, s, b);
    case Publish =>
      InvPublish(who, s);
  }

  lemma {:induction false} InvHand(who: Identity, s: Daemon)
    requires Inv(who, s) && Enabled(s, Hand)
    ensures Inv(who, Do(who, s, Hand))
  {
    HeldPhase(who, s);
    FlowHand(who, s);
    BatchSame(who, s, DoHand(s), s.held.value.ce);
  }

  lemma InvSnapBegin(who: Identity, s: Daemon, vms: seq<Snapshots.Vm>)
    requires Inv(who, s)
    ensures Inv(who, Do(who, s, SnapBegin(vms)))
  {
    BatchBegin(who, s, vms);
    FeedAccepts(s, Do(who, s, SnapBegin(vms)), AnyEvent());
    FlowSame(who, s, Do(who, s, SnapBegin(vms)));
  }

  lemma {:induction false} InvSnapSend(who: Identity, s: Daemon, b: nat)
    requires Inv(who, s) && Enabled(s, SnapSend(b))
    ensures Inv(who, Do(who, s, SnapSend(b)))
  {
    BatchSend(who, s, b);
    FlowSnap(who, s, b);
  }

  lemma {:induction false} InvPublish(who: Identity, s: Daemon)
    requires Inv(who, s) && Enabled(s, Publish)
    ensures Inv(who, Do(who, s, Publish))
  {
    FlowPublish(who, s);
    BatchSame(who, s, Do(who, s, Publish), AnyEvent());
  }

  lemma {:induction false} InvWatch(who: Identity, s: Daemon, wl: Interleave.Label)
    requires Inv(who, s) && Enabled(s, Watch(wl))
    ensures Inv(who, Do(who, s, Watch(wl)))
  {
    Ordering.InvStep(s.w, wl);
    FeedWatch(s, wl);
    BatchSame(who, s, s.(w := Interleave.Do(s.w, wl)), AnyEvent());
  }

  lemma {:induction false} InvTake(who: Identity, s: Daemon, env: Env)
    requires Inv(who, s) && Enabled(s, Take(env))
    ensures Inv(who, Do(who, s, Take(env)))
  {
    Ordering.InvStep(s.w, Interleave.Recv);
    FeedTake(who, s, env);
    FlowTake(who, s, env);
    BatchSame(who, s, DoTake(who, s, env), AnyEvent());
  }

  function AnyEvent(): CloudEvent { CloudEvent("", "", "", BlankData("", "").(phase := Started)) }

  lemma {:induction false} FlowSnap(who: Identity, s: Daemon, b: nat)
    requires Feed(s) && Flow(who, s) && Enabled(s, SnapSend(b))
    requires Lifecycles(DoSnapSend(who, s, b).accepted) == Lifecycles(s.accepted)
    ensures Feed(DoSnapSend(who, s, b)) && Flow(who, DoSnapSend(who, s, b))
  {
    var Batch(vms, kept) := s.batches[b];
    Accepts(who, s, DoSnapSend(who, s, b), Snapshots.Attempts(who.cluster, who.node, b, vms)[|kept|]);
  }

  lemma Accepts(who: Identity, s: Daemon, t: Daemon, e: CloudEvent)
    requires Feed(s) && Flow(who, s) && Lifecycles(t.accepted) == Lifecycles(s.accepted)
    requires t == s.(batches := t.batches)
          || (|s.out| < CAPACITY && t == s.(batches := t.batches, out := s.out + [e], accepted := s.accepted + [e]))
    ensures Feed(t) && Flow(who, t)
  {
    FeedAccepts(s, t, e);
    FlowSame(who, s, t);
  }

  lemma FeedAccepts(s: Daemon, t: Daemon, e: CloudEvent)
    requires Feed(s) && t.w == s.w && t.eaten == s.eaten && t.envs == s.envs && t.published == s.published
    requires (t.out == s.out && t.accepted == s.accepted)
          || (|s.out| < CAPACITY && t.out == s.out + [e] && t.accepted == s.accepted + [e])
    ensures Feed(t)
  {
  }

  /** Only what the consumer has handed on and holds matters to the flow. */
  lemma FlowSame(who: Identity, s: Daemon, t: Daemon)
    requires |s.eaten| == |s.envs| && Flow(who, s)
    requires t.eaten == s.eaten && t.envs == s.envs && t.cache == s.cache && t.held == s.held
    requires Lifecycles(t.accepted) == Lifecycles(s.accepted)
    ensures Flow(who, t)
  {
  }

  lemma HeldPhase(who: Identity, s: Daemon)
    requires Inv(who, s) && s.held.Some?
    ensures LifecyclePhase(s.held.value.ev.phase) && s.held.value.ev in s.w.log
    ensures s.held.value.ce.data.phase == s.held.value.ev.phase
  {
    var e := s.held.value.ev;
    assert e == s.w.log[|s.eaten| - 1];
    assert Ordering.GoodEvent(e);
  }

  lemma {:induction false} Reachable(who: Identity, ls: seq<Label>)
    requires Valid(who, INIT, ls)
    ensures Inv(who, Exec(who, INIT, ls))
  {
    if ls != [] {
      Reachable(who, ls[..|ls| - 1]);
      InvStep(who, Exec(who, INIT, ls[..|ls| - 1]), ls[|ls| - 1]);
    } else {
      InitInv(who);
    }
  }

  lemma InitInv(who: Identity)
    ensures Inv(who, INIT)
  {
  }

  function HeldEvent(s: Daemon): seq<CloudEvent> { if s.held.Some? then [s.held.value.ce] else [] }

  /** Conservation and order across both channels: the lifecycle events handed to
      the publisher, those in the output channel and the held one are, in this
      order, what the consumer made of the events it took; those followed by the
      watcher's channel are everything the watcher ever sent. No number of
      dropped snapshot events changes this. */
  lemma {:induction false} Conservation(who: Identity, ls: seq<Label>)
    requires Valid(who, INIT, ls)
    ensures var s := Exec(who, INIT, ls);
      && |s.eaten| == |s.envs|
      && s.w.log == s.eaten + s.w.chan
      && Lifecycles(s.published) + Lifecycles(s.out) + HeldEvent(s) == AllMade(who, s.eaten, s.envs)
  {
    Reachable(who, ls);
    var s := Exec(who, INIT, ls);
    PickAppend(LifecycleOnly(), s.published, s.out);
  }
}
