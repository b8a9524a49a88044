/** Snapshot batches on a lossy channel (internal/snapshot/snapshot.go). */
module Snapshots {
  import opened Text
  import opened Events
  import opened Lists

  /** One guest with the state probed for it; `name` and `tags` come from its config. */
  datatype Vm = Vm(kind: Kind, vmid: int, state: string, detail: string, name: string, tags: seq<string>)

  function StateEvent(cluster: string, node: string, vm: Vm, id: nat): CloudEvent {
    CloudEvent(TypeFor(vm.kind, State, Snapshot), SourceFor(cluster, node), SubjectFor(vm.kind, vm.vmid),
      BlankData(cluster, node).(kind := vm.kind, vmid := vm.vmid, action := State, phase := Snapshot,
                                state := vm.state, stateDetail := vm.detail, snapshotID := id,
                                name := vm.name, tags := vm.tags))
  }

  function MarkerEvent(cluster: string, node: string, id: nat, count: nat): CloudEvent {
    CloudEvent(TypeSnapshotComplete(), SourceFor(cluster, node), "node/" + node,
      BlankData(cluster, node).(snapshotID := id, snapshotCount := count))
  }

  function StateEvents(cluster: string, node: string, id: nat, vms: seq<Vm>): (r: seq<CloudEvent>)
    ensures |r| == |vms|
    ensures forall i :: 0 <= i < |vms| ==> r[i] == StateEvent(cluster, node, vms[i], id)
  {
    seq(|vms|, i requires 0 <= i < |vms| => StateEvent(cluster, node, vms[i], id))
  }

  /** Everything a batch tries to send, in order. */
  function Attempts(cluster: string, node: string, id: nat, vms: seq<Vm>): seq<CloudEvent> {
    StateEvents(cluster, node, id, vms) + [MarkerEvent(cluster, node, id, |vms|)]
  }

  /** All that an event says of a guest and its batch. */
  predicate ReportsGuest(ce: CloudEvent, cluster: string, node: string, id: nat, vm: Vm) {
    && ce.data == EventData(cluster, node, vm.kind, vm.vmid, vm.name, vm.tags, "", "", State, Snapshot,
                            "", "", "", "", None, "", vm.state, vm.detail, id, 0)
    && Split(ce.typ, '.') == ["dev", "proxmox", "eventbus", KindName(vm.kind), "state", "snapshot"]
    && Split(ce.source, '/') == ["", "pve", Safe(cluster), Safe(node)]
    && Split(ce.subject, '/') == [KindName(vm.kind), Itoa(vm.vmid)]
  }

  /** All that a completion marker says of its batch. */
  predicate ReportsBatch(ce: CloudEvent, cluster: string, node: string, id: nat, count: nat) {
    && ce.data == EventData(cluster, node, NoKind, 0, "", [], "", "", NoAction, NoPhase,
                            "", "", "", "", None, "", "", "", id, count)
    && Split(ce.typ, '.') == ["dev", "proxmox", "eventbus", "snapshot", "complete"]
    && Split(ce.source, '/') == ["", "pve", Safe(cluster), Safe(node)]
    && ce.subject == "node/" + node
  }

  lemma TypeNames(kind: Kind, action: Action, phase: Phase, a: string, p: string)
    requires ActionName(action) == a && PhaseName(phase) == p
    ensures Split(TypeFor(kind, action, phase), '.') == ["dev", "proxmox", "eventbus", KindName(kind), a, p]
  {
    TypeTokens(kind, action, phase);
  }

  lemma StateType(kind: Kind)
    ensures Split(TypeFor(kind, State, Snapshot), '.')
         == ["dev", "proxmox", "eventbus", KindName(kind), "state", "snapshot"]
  {
    TypeNames(kind, State, Snapshot, "state", "snapshot");
  }

  lemma StateReports(cluster: string, node: string, id: nat, vm: Vm)
    ensures ReportsGuest(StateEvent(cluster, node, vm, id), cluster, node, id, vm)
  {
    StateType(vm.kind);
    SourceTokens(cluster, node, vm.kind, vm.vmid);
  }

  lemma MarkerReports(cluster: string, node: string, id: nat, count: nat)
    ensures ReportsBatch(MarkerEvent(cluster, node, id, count), cluster, node, id, count)
  {
    TypeTokens(NoKind, State, Snapshot);
    SourceTokens(cluster, node, NoKind, 0);
  }

  /** A batch reports its guests in their order, and then how many they are. */
  lemma AttemptsReport(cluster: string, node: string, id: nat, vms: seq<Vm>, i: nat)
    requires i <= |vms|
    ensures var all := Attempts(cluster, node, id, vms);
      && |all| == |vms| + 1
      && (i < |vms| ==> all[i] == StateEvents(cluster, node, id, vms)[i] && ReportsGuest(all[i], cluster, node, id, vms[i]))
      && (i == |vms| ==> ReportsBatch(all[i], cluster, node, id, |vms|))
  {
    MarkerReports(cluster, node, id, |vms|);
    if i < |vms| { StateReports(cluster, node, id, vms[i]); }
  }

  /** The attempts that found room in the channel. */
  function Select<T>(xs: seq<T>, kept: seq<bool>): seq<T>
    requires |kept| <= |xs|
  {
    if kept == [] then []
    else
      var n := |kept| - 1;
      Select(xs, kept[..n]) + (if kept[n] then [xs[n]] else [])
  }

  function Drops(kept: seq<bool>): nat {
    if kept == [] then 0
    else Drops(kept[..|kept| - 1]) + (if kept[|kept| - 1] then 0 else 1)
  }

  /** `a` arises from `b` by leaving elements out. */
  predicate Subsequence<T(==)>(a: seq<T>, b: seq<T>) {
    a == [] ||
    (b != [] &&
      ((a[|a| - 1] == b[|b| - 1] && Subsequence(a[..|a| - 1], b[..|b| - 1])) || Subsequence(a, b[..|b| - 1])))
  }

  predicate IsMarker(e: CloudEvent) { e.data.phase == NoPhase }

  lemma {:induction false} SelectPrefix<T>(xs: seq<T>, ys: seq<T>, kept: seq<bool>)
    requires |kept| <= |xs|
    ensures Select(xs + ys, kept) == Select(xs, kept)
    decreases |kept|
  {
    if kept != [] { SelectPrefix(xs, ys, kept[..|kept| - 1]); }
  }

  lemma {:induction false} SelectSize<T>(xs: seq<T>, kept: seq<bool>)
    requires |kept| <= |xs|
    ensures |Select(xs, kept)| + Drops(kept) == |kept|
    ensures forall e <- Select(xs, kept) :: e in xs
    decreases |kept|
  {
    if kept != [] { SelectSize(xs, kept[..|kept| - 1]); }
  }

  lemma {:induction false} SelectSubsequence<T>(xs: seq<T>, kept: seq<bool>)
    requires |kept| <= |xs|
    ensures Subsequence(Select(xs, kept), xs[..|kept|])
    decreases |kept|
  {
    if kept != [] {
      var n := |kept| - 1;
      SelectSubsequence(xs, kept[..n]);
      SubsequenceNext(Select(xs, kept[..n]), xs[..n], xs[n], kept[n]);
      assert xs[..n + 1] == xs[..n] + [xs[n]];
    }
  }

  lemma SubsequenceNext<T>(a: seq<T>, b: seq<T>, x: T, keep: bool)
    requires Subsequence(a, b)
    ensures Subsequence(a + (if keep then [x] else []), b + [x])
  {
    assert (b + [x])[..|b|] == b;
    if keep {
      assert (a + [x])[..|a|] == a;
    } else {
      assert a + [] == a;
    }
  }

  lemma {:induction false} SelectAll<T>(xs: seq<T>, kept: seq<bool>)
    requires |kept| <= |xs| && Drops(kept) == 0
    ensures Select(xs, kept) == xs[..|kept|]
    decreases |kept|
  {
    if kept != [] {
      var n := |kept| - 1;
      SelectAll(xs, kept[..n]);
      assert xs[..n] + [xs[n]] == xs[..n + 1];
    }
  }

  lemma {:induction false} SubsequenceWider<T>(a: seq<T>, b: seq<T>, c: seq<T>)
    requires Subsequence(a, b)
    ensures Subsequence(a, b + c)
  {
    if c == [] {
      assert b + c == b;
    } else {
      SubsequenceWider(a, b, c[..|c| - 1]);
      assert (b + c)[..|b + c| - 1] == b + c[..|c| - 1];
    }
  }

  lemma {:induction false} SubsequenceShorter<T>(a: seq<T>, b: seq<T>)
    requires a != [] && Subsequence(a, b)
    ensures Subsequence(a[..|a| - 1], b)
  {
    if a[|a| - 1] == b[|b| - 1] && Subsequence(a[..|a| - 1], b[..|b| - 1]) {
      SubsequenceWider(a[..|a| - 1], b[..|b| - 1], [b[|b| - 1]]);
      assert b[..|b| - 1] + [b[|b| - 1]] == b;
    } else {
      SubsequenceShorter(a, b[..|b| - 1]);
    }
  }

  /** The state events among those received. */
  function StatesOf(es: seq<CloudEvent>): seq<CloudEvent> {
    Pick((e: CloudEvent) => if IsMarker(e) then [] else [e], es)
  }

  predicate NoMarkerIn(es: seq<CloudEvent>) { forall e <- es :: !IsMarker(e) }

  lemma {:induction false} NoMarkerStates(es: seq<CloudEvent>)
    requires NoMarkerIn(es)
    ensures StatesOf(es) == es
  {
    if es != [] {
      NoMarkerStates(es[..|es| - 1]);
      assert es == es[..|es| - 1] + [es[|es| - 1]];
    }
  }

  predicate MarkerCounts(r: seq<CloudEvent>, states: seq<CloudEvent>, drops: nat, i: nat)
    requires i < |r|
  {
    IsMarker(r[i]) ==>
      && i == |r| - 1 && r[i].data.snapshotCount == |states|
      && i + drops == |states| && (i == |states| ==> r[..i] == states)
  }

  /** What a consumer may conclude from the events `r` of one batch id, when `states`
      are those of the batch's guests: with or without a marker, the states received
      are a subsequence of them. A marker comes last and its count is the number of
      guests; with k states before it exactly count - k were dropped, and k = count
      means that the whole list arrived. */
  predicate Sound(r: seq<CloudEvent>, states: seq<CloudEvent>, drops: nat) {
    && Subsequence(StatesOf(r), states)
    && forall i: nat :: i < |r| ==> MarkerCounts(r, states, drops, i)
  }

  lemma StatesSnoc(es: seq<CloudEvent>, e: CloudEvent)
    ensures StatesOf(es + [e]) == StatesOf(es) + (if IsMarker(e) then [] else [e])
  {
    assert (es + [e])[..|es|] == es;
  }

  lemma SubsequenceInit(a: seq<CloudEvent>, e: CloudEvent, states: seq<CloudEvent>)
    requires Subsequence(StatesOf(a + [e]), states)
    ensures Subsequence(StatesOf(a), states)
  {
    StatesSnoc(a, e);
    if IsMarker(e) {
      assert StatesOf(a) + [] == StatesOf(a);
    } else {
      SubsequenceShorter(StatesOf(a + [e]), states);
      assert (StatesOf(a) + [e])[..|StatesOf(a)|] == StatesOf(a);
    }
  }

  lemma CountsInit(a: seq<CloudEvent>, e: CloudEvent, states: seq<CloudEvent>, drops: nat, i: nat)
    requires i < |a| && MarkerCounts(a + [e], states, drops, i)
    ensures MarkerCounts(a, states, drops, i)
  {
  }

  lemma SoundInit(a: seq<CloudEvent>, e: CloudEvent, states: seq<CloudEvent>, drops: nat)
    requires Sound(a + [e], states, drops)
    ensures Sound(a, states, drops)
  {
    SubsequenceInit(a, e, states);
    forall i: nat | i < |a| ensures MarkerCounts(a, states, drops, i) {
      assert MarkerCounts(a + [e], states, drops, i);
      CountsInit(a, e, states, drops, i);
    }
  }

  /** What has arrived of a sound batch so far is sound. */
  lemma {:induction false} SoundPrefix(r: seq<CloudEvent>, rest: seq<CloudEvent>, states: seq<CloudEvent>, drops: nat)
    requires Sound(r + rest, states, drops)
    ensures Sound(r, states, drops)
  {
    if rest == [] {
      assert r + rest == r;
    } else {
      var n := |rest| - 1;
      assert r + rest == r + rest[..n] + [rest[n]];
      SoundInit(r + rest[..n], rest[n], states, drops);
      SoundPrefix(r, rest[..n], states, drops);
    }
  }

  /** A batch under way: states only. */
  lemma StatesKept(states: seq<CloudEvent>, kept: seq<bool>)
    requires |kept| <= |states| && NoMarkerIn(states)
    ensures var r := Select(states, kept);
      && StatesOf(r) == r && Subsequence(r, states)
      && |r| + Drops(kept) == |kept| && (|r| == |states| ==> r == states)
      && NoMarkerIn(r)
  {
    var r := Select(states, kept);
    SelectSize(states, kept);
    SelectSubsequence(states, kept);
    SubsequenceWider(r, states[..|kept|], states[|kept|..]);
    assert states[..|kept|] + states[|kept|..] == states;
    NoMarkerStates(r);
    if |r| == |states| {
      SelectAll(states, kept);
      assert states[..|kept|] == states;
    }
  }

  /** The marker after them. */
  lemma MarkerLast(states: seq<CloudEvent>, marker: CloudEvent, r: seq<CloudEvent>, drops: nat)
    requires IsMarker(marker) && marker.data.snapshotCount == |states|
    requires StatesOf(r) == r && Subsequence(r, states) && |r| + drops == |states| && (|r| == |states| ==> r == states)
    requires NoMarkerIn(r)
    ensures Sound(r + [marker], states, drops)
  {
    var t := r + [marker];
    assert t[..|r|] == r && StatesOf(r) + [] == r;
    forall i: nat | i < |t| ensures MarkerCounts(t, states, drops, i) {
      assert i < |r| ==> t[i] == r[i] && r[i] in r;
    }
  }

  lemma StatesSound(states: seq<CloudEvent>, r: seq<CloudEvent>, drops: nat)
    requires StatesOf(r) == r && Subsequence(r, states) && NoMarkerIn(r)
    ensures Sound(r, states, drops)
  {
    forall i: nat | i < |r| ensures MarkerCounts(r, states, drops, i) { assert r[i] in r; }
  }

  lemma SelectLast<T>(xs: seq<T>, x: T, body: seq<bool>, room: bool)
    requires |body| == |xs|
    ensures Select(xs + [x], body + [room]) == Select(xs, body) + (if room then [x] else [])
    ensures Drops(body + [room]) == Drops(body) + if room then 0 else 1
  {
    SelectPrefix(xs, [x], body);
    assert (body + [room])[..|body|] == body;
  }

  /** All guests were attempted, and then the marker. */
  lemma WholeSound(states: seq<CloudEvent>, marker: CloudEvent, body: seq<bool>, room: bool)
    requires |body| == |states| && NoMarkerIn(states)
    requires IsMarker(marker) && marker.data.snapshotCount == |states|
    ensures Sound(Select(states + [marker], body + [room]), states, Drops(body + [room]))
  {
    var r := Select(states, body);
    SelectLast(states, marker, body, room);
    StatesKept(states, body);
    if room {
      MarkerLast(states, marker, r, Drops(body));
    } else {
      StatesSound(states, r, Drops(body) + 1);
      assert r + [] == r;
    }
  }

  lemma BodySound(states: seq<CloudEvent>, marker: CloudEvent, kept: seq<bool>)
    requires |kept| <= |states| && NoMarkerIn(states)
    ensures Sound(Select(states + [marker], kept), states, Drops(kept))
  {
    SelectPrefix(states, [marker], kept);
    StatesKept(states, kept);
    StatesSound(states, Select(states, kept), Drops(kept));
  }

  lemma SplitLast(kept: seq<bool>) returns (body: seq<bool>, room: bool)
    requires kept != []
    ensures kept == body + [room]
  {
    body, room := kept[..|kept| - 1], kept[|kept| - 1];
  }

  lemma SelectSound(states: seq<CloudEvent>, marker: CloudEvent, kept: seq<bool>)
    requires |kept| <= |states| + 1 && NoMarkerIn(states)
    requires IsMarker(marker) && marker.data.snapshotCount == |states|
    ensures Sound(Select(states + [marker], kept), states, Drops(kept))
  {
    if |kept| <= |states| {
      BodySound(states, marker, kept);
    } else {
      var body, room := SplitLast(kept);
      WholeSound(states, marker, body, room);
    }
  }

  /** Whatever the channel answers, what it accepts of a batch is sound. */
  lemma {:induction false} BatchSound(cluster: string, node: string, id: nat, vms: seq<Vm>, kept: seq<bool>)
    requires |kept| <= |vms| + 1
    ensures Sound(Select(Attempts(cluster, node, id, vms), kept), StateEvents(cluster, node, id, vms), Drops(kept))
  {
    var states := StateEvents(cluster, node, id, vms);
    forall e | e in states ensures !IsMarker(e) { NoMarkers(cluster, node, id, vms, e); }
    SelectSound(states, MarkerEvent(cluster, node, id, |vms|), kept);
  }

  lemma NoMarkers(cluster: string, node: string, id: nat, vms: seq<Vm>, e: CloudEvent)
    requires e in StateEvents(cluster, node, id, vms)
    ensures !IsMarker(e) && e.data.snapshotID == id
  {
  }

  /** The first n answers of the channel. */
  function Rooms(room: nat -> bool, n: nat): (r: seq<bool>)
    ensures |r| == n
  {
    if n == 0 then [] else Rooms(room, n - 1) + [room(n - 1)]
  }

  /** The emitter; `out` is what the channel has accepted from it. */
  class Emitter {
    const cluster: string
    const node: string
    var out: seq<CloudEvent>

    constructor (cluster: string, node: string)
      ensures this.cluster == cluster && this.node == node && out == []
    {
      this.cluster, this.node := cluster, node;
      out := [];
    }

    method Send(ev: CloudEvent, room: bool)
      modifies this
      ensures out == if room then old(out) + [ev] else old(out)
    {
      if room {
        out := out + [ev];
      }
    }

    /** `listed` says whether the guest list could be read, `room(i)` whether the
        i-th send finds room. */
    method EmitBatch(id: nat, listed: bool, qemu: seq<Vm>, lxc: seq<Vm>, room: nat -> bool)
      modifies this
      ensures out == old(out) + if listed
        then Select(Attempts(cluster, node, id, qemu + lxc), Rooms(room, |qemu + lxc| + 1)) else []
    {
      if !listed {
        return;
      }
      ghost var all := Attempts(cluster, node, id, qemu + lxc);
      AttemptsAre(cluster, node, id, qemu + lxc);
      EmitAll(qemu, lxc, vm => StateEvent(cluster, node, vm, id), (n: nat) => MarkerEvent(cluster, node, id, n), room, all);
    }

    /** The two loops and the completion marker that carries their count. */
    method EmitAll(qemu: seq<Vm>, lxc: seq<Vm>, event: Vm -> CloudEvent, complete: nat -> CloudEvent, room: nat -> bool,
                   ghost all: seq<CloudEvent>)
      requires |all| == |qemu + lxc| + 1 && all[|qemu + lxc|] == complete(|qemu + lxc|)
      requires forall i :: 0 <= i < |qemu + lxc| ==> all[i] == event((qemu + lxc)[i])
      modifies this
      ensures out == old(out) + Select(all, Rooms(room, |all|))
    {
      ghost var was := out;
      var count := SendStates(qemu, event, 0, room, was, all);
      count := SendStates(lxc, event, count, room, was, all);
      Send(complete(count), room(count));
      DeliveredIs(was, all, room, |all|);
    }

    /** The loop over the guests of one kind; the count goes on from `first`. */
    method SendStates(vms: seq<Vm>, event: Vm -> CloudEvent, first: nat, room: nat -> bool,
                      ghost was: seq<CloudEvent>, ghost all: seq<CloudEvent>)
      returns (count: nat)
      requires first + |vms| <= |all|
      requires forall i :: first <= i < first + |vms| ==> all[i] == event(vms[i - first])
      requires out == Delivered(was, all, room, first)
      modifies this
      ensures count == first + |vms| && out == Delivered(was, all, room, count)
    {
      count := first;
      for i := 0 to |vms|
        invariant count == first + i && out == Delivered(was, all, room, count)
      {
        assert all[count] == event(vms[i]);
        Send(event(vms[i]), room(count));
        count := count + 1;
      }
    }
  }

  lemma AttemptsAre(cluster: string, node: string, id: nat, vms: seq<Vm>)
    ensures var all := Attempts(cluster, node, id, vms);
      && |all| == |vms| + 1 && all[|vms|] == MarkerEvent(cluster, node, id, |vms|)
      && forall i :: 0 <= i < |vms| ==> all[i] == StateEvent(cluster, node, vms[i], id)
  {
  }

  /** The channel after the first n attempts. */
  function Delivered<T>(was: seq<T>, xs: seq<T>, room: nat -> bool, n: nat): seq<T>
    requires n <= |xs|
  {
    if n == 0 then was
    else if room(n - 1) then Delivered(was, xs, room, n - 1) + [xs[n - 1]]
    else Delivered(was, xs, room, n - 1)
  }

  lemma {:induction false} DeliveredIs<T>(was: seq<T>, xs: seq<T>, room: nat -> bool, n: nat)
    requires n <= |xs|
    ensures Delivered(was, xs, room, n) == was + Select(xs, Rooms(room, n))
  {
    if n > 0 {
      DeliveredIs(was, xs, room, n - 1);
      assert Rooms(room, n)[..n - 1] == Rooms(room, n - 1);
    }
  }
}
