/** What the publisher hands to the bus, told without the functions that make it. */
module Published {
  import opened Text
  import opened Events
  import opened Lists
  import opened Upid
  import opened Watch
  import opened Enrich
  import opened Snapshots
  import opened Pipeline
  import Ordering

  // ---- where each published event comes from ----

  /** All that an event says of a task's event `e`, apart from its guest's configuration,
      its target and its duration. */
  predicate ReportsTask(who: Identity, ce: CloudEvent, e: Event) {
    var d := ce.data;
    && d.cluster == who.cluster && d.node == who.node && d.sourceNode == who.node
    && ParseUPID(d.upid) == Ok(e.upid) && d.user == e.upid.user && d.vmid == VMID(e.upid)
    && WorkerType(e.upid.typ) == Some((d.kind, d.action)) && d.phase == e.phase
    && (if Terminal(d.phase) then d.exitStatus == e.status && Verdict(d.phase, d.exitStatus) else d.exitStatus == "")
    && Split(ce.typ, '.') == ["dev", "proxmox", "eventbus", KindName(d.kind), ActionName(d.action), PhaseName(d.phase)]
    && Split(ce.source, '/') == ["", "pve", Safe(who.cluster), Safe(who.node)]
    && Split(ce.subject, '/') == [KindName(d.kind), Itoa(d.vmid)]
  }

  lemma {:induction false} PickOf<S, T>(f: S -> seq<T>, xs: seq<S>, x: S, y: T)
    requires x in xs && y in f(x)
    ensures y in Pick(f, xs)
  {
    if x in xs[..|xs| - 1] { PickOf(f, xs[..|xs| - 1], x, y); }
  }

  lemma MadeReports(who: Identity, s: Daemon, i: nat)
    requires Inv(who, s) && i < |s.eaten|
    ensures ReportsTask(who, AllMade(who, s.eaten, s.envs)[i], s.eaten[i])
  {
    var e := s.eaten[i];
    assert e == s.w.log[i] && Ordering.GoodEvent(e);
    MadeAt(who, s.eaten, s.envs, i);
    TypeTokens(e.kind, e.action, e.phase);
    SourceTokens(who.cluster, who.node, e.kind, VMID(e.upid));
  }

  /** A lifecycle event among those accepted was made of an event taken. */
  lemma {:induction false} AcceptedWasMade(who: Identity, s: Daemon, ce: CloudEvent) returns (i: nat)
    requires Inv(who, s) && ce in s.accepted && LifecyclePhase(ce.data.phase)
    ensures i < |s.eaten| && ce == AllMade(who, s.eaten, s.envs)[i]
  {
    PickOf(LifecycleOnly(), s.accepted, ce, ce);
    i :| 0 <= i < |Lifecycles(s.accepted)| && Lifecycles(s.accepted)[i] == ce;
  }

  /** Any other is an attempt of its batch. */
  lemma {:induction false} AcceptedWasAttempt(who: Identity, s: Daemon, ce: CloudEvent) returns (i: nat)
    requires Inv(who, s) && ce in s.accepted && !LifecyclePhase(ce.data.phase)
    ensures var b := ce.data.snapshotID;
      b < |s.batches| && i <= |s.batches[b].vms| && ce == Attempts(who.cluster, who.node, b, s.batches[b].vms)[i]
  {
    var b := ce.data.snapshotID;
    PickOf(BatchOnly(b), s.accepted, ce, ce);
    assert ce in OfBatch(s.accepted, b);
    assert BatchOk(who, s, b);
    var all := Attempts(who.cluster, who.node, b, s.batches[b].vms);
    SelectSize(all, s.batches[b].kept);
    i :| 0 <= i < |all| && all[i] == ce;
  }

  /** What stands behind a published event: an event taken from the watcher and what was
      made of it, a guest of a batch, or a whole batch. */
  ghost predicate Explained(who: Identity, s: Daemon, ce: CloudEvent) {
    var d := ce.data;
    if LifecyclePhase(d.phase) then
      && |s.eaten| == |s.envs|
      && exists i: nat ::
           i < |s.eaten| && ce == AllMade(who, s.eaten, s.envs)[i] && ReportsTask(who, ce, s.eaten[i])
    else
      var b := d.snapshotID;
      && b < |s.batches|
      && (if d.phase == Snapshot then exists vm <- s.batches[b].vms :: ReportsGuest(ce, who.cluster, who.node, b, vm)
          else ReportsBatch(ce, who.cluster, who.node, b, |s.batches[b].vms|))
  }

  /** Every event ever published is explained, whatever ran beside it. */
  lemma {:induction false} PublishedAre(who: Identity, ls: seq<Label>, ce: CloudEvent)
    requires Valid(who, INIT, ls) && ce in Exec(who, INIT, ls).published
    ensures Explained(who, Exec(who, INIT, ls), ce)
  {
    var s := Exec(who, INIT, ls);
    Pipeline.Reachable(who, ls);
    assert ce in s.accepted;
    if LifecyclePhase(ce.data.phase) {
      var i := AcceptedWasMade(who, s, ce);
      MadeReports(who, s, i);
    } else {
      var i := AcceptedWasAttempt(who, s, ce);
      var vms := s.batches[ce.data.snapshotID].vms;
      AttemptsReport(who.cluster, who.node, ce.data.snapshotID, vms, i);
      if i < |vms| { assert vms[i] in vms; }
    }
  }

  // ---- what is dropped, and why ----

  /** How many sends of a batch in the run met a channel that was full or one that
      was not. */
  function Sends(who: Identity, ls: seq<Label>, b: nat, full: bool): nat {
    if ls == [] then 0
    else
      var n := |ls| - 1;
      Sends(who, ls[..n], b, full)
        + (if ls[n] == SnapSend(b) && (|Exec(who, INIT, ls[..n]).out| >= 1024) == full then 1 else 0)
  }

  lemma SendDrops(who: Identity, s: Daemon, l: Label, b: nat)
    requires Enabled(s, l) && b < |s.batches|
    ensures var t := Do(who, s, l);
      && b < |t.batches|
      && Drops(t.batches[b].kept) == Drops(s.batches[b].kept) + (if l == SnapSend(b) && |s.out| >= 1024 then 1 else 0)
      && |t.batches[b].kept| == |s.batches[b].kept| + (if l == SnapSend(b) then 1 else 0)
  {
  }

  lemma BatchesGrow(who: Identity, s: Daemon, l: Label, b: nat)
    requires Enabled(s, l) && |s.batches| <= b < |Do(who, s, l).batches|
    ensures Do(who, s, l).batches[b].kept == [] && l != SnapSend(b)
  {
  }

  /** A batch drops exactly the sends that met a channel with 1024 events in it, and
      delivers exactly the others. */
  lemma {:induction false} DropsExact(who: Identity, ls: seq<Label>, b: nat)
    requires Valid(who, INIT, ls)
    ensures var s := Exec(who, INIT, ls);
      if b < |s.batches| then
        && Drops(s.batches[b].kept) == Sends(who, ls, b, true)
        && |s.batches[b].kept| == Sends(who, ls, b, true) + Sends(who, ls, b, false)
      else Sends(who, ls, b, true) == Sends(who, ls, b, false) == 0
  {
    if ls != [] {
      var n := |ls| - 1;
      var s := Exec(who, INIT, ls[..n]);
      DropsExact(who, ls[..n], b);
      if b < |s.batches| {
        SendDrops(who, s, ls[n], b);
      } else if b < |Do(who, s, ls[n]).batches| {
        BatchesGrow(who, s, ls[n], b);
      }
    }
  }

  /** So of a batch that has attempted everything, the accepted events number one more
      than its guests, less those sends. */
  lemma {:induction false} DeliveredExact(who: Identity, ls: seq<Label>, b: nat)
    requires Valid(who, INIT, ls) && b < |Exec(who, INIT, ls).batches|
    ensures var s := Exec(who, INIT, ls);
      && |OfBatch(s.accepted, b)| == Sends(who, ls, b, false)
      && (|s.batches[b].kept| == |s.batches[b].vms| + 1 ==>
            |OfBatch(s.accepted, b)| + Sends(who, ls, b, true) == |s.batches[b].vms| + 1)
  {
    Pipeline.Reachable(who, ls);
    var s := Exec(who, INIT, ls);
    assert BatchOk(who, s, b);
    DropsExact(who, ls, b);
    SelectSize(Attempts(who.cluster, who.node, b, s.batches[b].vms), s.batches[b].kept);
  }
}
