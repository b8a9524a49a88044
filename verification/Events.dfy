/** The published event and the NATS subjects it travels on
    (internal/events/events.go, and subjectFor of cmd/proxmox-eventbus/main.go). */
module Events {
  import opened Text

  // The zero value of each string type is its `No...` constructor.
  datatype Kind = NoKind | QEMU | LXC
  datatype Action =
    | NoAction | Start | Stop | Shutdown | Reboot | Reset | Suspend | Resume
    | Migrate | Clone | Create | Destroy | Template | State
  datatype Phase = NoPhase | Started | Finished | Failed | Synced | Snapshot

  function KindName(k: Kind): string {
    match k
    case NoKind => ""
    case QEMU => "qemu"
    case LXC => "lxc"
  }

  function ActionName(a: Action): string {
    match a
    case NoAction => ""
    case Start => "start"
    case Stop => "stop"
    case Shutdown => "shutdown"
    case Reboot => "reboot"
    case Reset => "reset"
    case Suspend => "suspend"
    case Resume => "resume"
    case Migrate => "migrate"
    case Clone => "clone"
    case Create => "create"
    case Destroy => "destroy"
    case Template => "template"
    case State => "state"
  }

  function PhaseName(p: Phase): string {
    match p
    case NoPhase => ""
    case Started => "started"
    case Finished => "finished"
    case Failed => "failed"
    case Synced => "synced"
    case Snapshot => "snapshot"
  }

  predicate Terminal(p: Phase) { p == Finished || p == Failed }

  datatype EventData = EventData(
    cluster: string, node: string, kind: Kind, vmid: int,
    name: string, tags: seq<string>, description: string, hookScript: string,
    action: Action, phase: Phase,
    upid: string, user: string, sourceNode: string, targetNode: string,
    durationMS: Option<int>, exitStatus: string,
    state: string, stateDetail: string, snapshotID: nat, snapshotCount: nat)

  /** The envelope without its random id and its wall-clock time. */
  datatype CloudEvent = CloudEvent(typ: string, source: string, subject: string, data: EventData)

  function BlankData(cluster: string, node: string): EventData {
    EventData(cluster, node, NoKind, 0, "", [], "", "", NoAction, NoPhase,
              "", "", "", "", None, "", "", "", 0, 0)
  }

  // ---- safe: subject tokens ----

  predicate SafeChar(c: char) {
    'a' <= c <= 'z' || 'A' <= c <= 'Z' || '0' <= c <= '9' || c == '-' || c == '_'
  }

  predicate IsSafe(s: string) { s != "" && forall c <- s :: SafeChar(c) }

  function Mask(s: string): (r: string)
    ensures |r| == |s|
    ensures forall i :: 0 <= i < |s| ==> r[i] == if SafeChar(s[i]) then s[i] else '_'
  {
    seq(|s|, i requires 0 <= i < |s| => if SafeChar(s[i]) then s[i] else '_')
  }

  function Safe(s: string): string {
    if s == "" then "default" else Mask(s)
  }

  method SafeBytes(s: string) returns (b: string)
    ensures b == Safe(s)
  {
    if s == "" {
      return "default";
    }
    b := "";
    for i := 0 to |s|
      invariant b == Mask(s)[..i]
    {
      var c := s[i];
      if SafeChar(c) {
        b := b + [c];
      } else {
        b := b + ['_'];
      }
    }
  }

  /** `safe` yields a legal token, changes nothing that is one already, and so
      is idempotent. Only the empty name becomes another one; in any other, each
      illegal character becomes an underscore and the legal ones stay in place. */
  lemma SafeToken(s: string)
    ensures IsSafe(Safe(s)) && Free(Safe(s), '.')
    ensures s == "" ==> Safe(s) == "default"
    ensures |s| <= |Safe(s)| && (s != "" ==> |Safe(s)| == |s|)
    ensures forall i :: 0 <= i < |s| ==> Safe(s)[i] == if IsSafe([s[i]]) then s[i] else '_'
    ensures Safe(s) == s <==> IsSafe(s)
    ensures Safe(Safe(s)) == Safe(s)
  {
  }

  // ---- subjects and types: the format strings are tokens joined by dots ----

  function SubjectLifecycle(cluster: string, node: string, kind: Kind, vmid: int, action: Action, phase: Phase): string {
    Join(["pve", Safe(cluster), Safe(node), KindName(kind), Itoa(vmid), ActionName(action), PhaseName(phase)], ".")
  }

  function SubjectSnapshotComplete(cluster: string, node: string): string {
    Join(["pve", Safe(cluster), Safe(node), "snapshot", "complete"], ".")
  }

  function SubjectSnapshotRequestCluster(cluster: string): string {
    Join(["pve", Safe(cluster), "snapshot", "request"], ".")
  }

  function SubjectSnapshotRequestNode(cluster: string, node: string): string {
    Join(["pve", Safe(cluster), Safe(node), "snapshot", "request"], ".")
  }

  const TYPE_NAMESPACE := ["dev", "proxmox", "eventbus"]

  function TypeFor(kind: Kind, action: Action, phase: Phase): string {
    Join(TYPE_NAMESPACE + [KindName(kind), ActionName(action), PhaseName(phase)], ".")
  }

  function TypeSnapshotComplete(): string { Join(TYPE_NAMESPACE + ["snapshot", "complete"], ".") }

  function SourceFor(cluster: string, node: string): string {
    "/pve/" + Safe(cluster) + "/" + Safe(node)
  }

  function SubjectFor(kind: Kind, vmid: int): string { KindName(kind) + "/" + Itoa(vmid) }

  /** subjectFor of main.go: the subject an event is published on. */
  function PublishSubject(ev: CloudEvent): string {
    if ev.typ == TypeSnapshotComplete() then
      SubjectSnapshotComplete(ev.data.cluster, ev.data.node)
    else
      SubjectLifecycle(ev.data.cluster, ev.data.node, ev.data.kind, ev.data.vmid, ev.data.action, ev.data.phase)
  }

  lemma NamesFree(k: Kind, a: Action, p: Phase)
    ensures Free(KindName(k), '.') && Free(ActionName(a), '.') && Free(PhaseName(p), '.')
  {
  }

  lemma {:induction false} DigitsFree(n: nat)
    ensures Free(Digits(n, 10), '.')
  {
    DigitsValue(n, 10);
    assert DigitOf('.') == 16;
  }

  lemma ItoaFree(n: int)
    ensures Free(Itoa(n), '.')
  {
    DigitsFree(if n < 0 then -n else n);
  }

  /** A lifecycle subject splits back into exactly its seven tokens. */
  lemma LifecycleTokens(c: string, n: string, k: Kind, v: int, a: Action, p: Phase)
    ensures Split(SubjectLifecycle(c, n, k, v, a, p), '.')
         == ["pve", Safe(c), Safe(n), KindName(k), Itoa(v), ActionName(a), PhaseName(p)]
  {
    SafeToken(c);
    SafeToken(n);
    NamesFree(k, a, p);
    ItoaFree(v);
    SplitJoin(["pve", Safe(c), Safe(n), KindName(k), Itoa(v), ActionName(a), PhaseName(p)], '.');
  }

  lemma {:induction false} SnapshotTokens(c: string, n: string)
    ensures Split(SubjectSnapshotComplete(c, n), '.') == ["pve", Safe(c), Safe(n), "snapshot", "complete"]
    ensures Split(SubjectSnapshotRequestNode(c, n), '.') == ["pve", Safe(c), Safe(n), "snapshot", "request"]
    ensures Split(SubjectSnapshotRequestCluster(c), '.') == ["pve", Safe(c), "snapshot", "request"]
  {
    SafeToken(c);
    SafeToken(n);
    SplitJoin(["pve", Safe(c), Safe(n), "snapshot", "complete"], '.');
    SplitJoin(["pve", Safe(c), Safe(n), "snapshot", "request"], '.');
    SplitJoin(["pve", Safe(c), "snapshot", "request"], '.');
  }

  lemma NamesInjective(k: Kind, k': Kind, a: Action, a': Action, p: Phase, p': Phase)
    ensures KindName(k) == KindName(k') <==> k == k'
    ensures ActionName(a) == ActionName(a') <==> a == a'
    ensures PhaseName(p) == PhaseName(p') <==> p == p'
  {
  }

  /** Two lifecycle subjects are the same exactly when all six parts agree after
      sanitising, so the subject identifies the event on already-safe names. */
  lemma LifecycleInjective(c: string, n: string, k: Kind, v: int, a: Action, p: Phase,
                           c': string, n': string, k': Kind, v': int, a': Action, p': Phase)
    ensures SubjectLifecycle(c, n, k, v, a, p) == SubjectLifecycle(c', n', k', v', a', p')
       <==> Safe(c) == Safe(c') && Safe(n) == Safe(n') && k == k' && v == v' && a == a' && p == p'
    ensures IsSafe(c) && IsSafe(c') && IsSafe(n) && IsSafe(n')
            && SubjectLifecycle(c, n, k, v, a, p) == SubjectLifecycle(c', n', k', v', a', p')
        ==> (c, n, k, v, a, p) == (c', n', k', v', a', p')
  {
    LifecycleTokens(c, n, k, v, a, p);
    LifecycleTokens(c', n', k', v', a', p');
    var t := Split(SubjectLifecycle(c, n, k, v, a, p), '.');
    var t' := Split(SubjectLifecycle(c', n', k', v', a', p'), '.');
    if t == t' {
      assert t[1] == t'[1] && t[2] == t'[2] && t[3] == t'[3] && t[4] == t'[4] && t[5] == t'[5] && t[6] == t'[6];
      NamesInjective(k, k', a, a', p, p');
      ItoaInjective(v, v');
    }
    SafeToken(c);
    SafeToken(c');
    SafeToken(n);
    SafeToken(n');
  }

  /** The four families of subjects never meet, whatever the names in them. */
  lemma SubjectsDisjoint(c: string, n: string, k: Kind, v: int, a: Action, p: Phase, c': string, n': string)
    ensures SubjectLifecycle(c, n, k, v, a, p) != SubjectSnapshotComplete(c', n')
    ensures SubjectLifecycle(c, n, k, v, a, p) != SubjectSnapshotRequestCluster(c')
    ensures SubjectLifecycle(c, n, k, v, a, p) != SubjectSnapshotRequestNode(c', n')
    ensures SubjectSnapshotComplete(c, n) != SubjectSnapshotRequestCluster(c')
    ensures SubjectSnapshotComplete(c, n) != SubjectSnapshotRequestNode(c', n')
    ensures SubjectSnapshotRequestNode(c, n) != SubjectSnapshotRequestCluster(c')
  {
    LifecycleTokens(c, n, k, v, a, p);
    SnapshotTokens(c, n);
    SnapshotTokens(c', n');
  }

  lemma TypeTokens(k: Kind, a: Action, p: Phase)
    ensures Split(TypeFor(k, a, p), '.') == ["dev", "proxmox", "eventbus", KindName(k), ActionName(a), PhaseName(p)]
    ensures Split(TypeSnapshotComplete(), '.') == ["dev", "proxmox", "eventbus", "snapshot", "complete"]
  {
    NamesFree(k, a, p);
    var t, m := ["dev", "proxmox", "eventbus", KindName(k), ActionName(a), PhaseName(p)],
                ["dev", "proxmox", "eventbus", "snapshot", "complete"];
    SplitJoin(t, '.');
    SplitJoin(m, '.');
    assert TYPE_NAMESPACE + [KindName(k), ActionName(a), PhaseName(p)] == t;
    assert TYPE_NAMESPACE + ["snapshot", "complete"] == m;
  }

  lemma TypesDiffer(k: Kind, a: Action, p: Phase)
    ensures TypeFor(k, a, p) != TypeSnapshotComplete()
  {
    TypeTokens(k, a, p);
    assert |Split(TypeFor(k, a, p), '.')| == 6;
  }

  /** An event whose type was built from its own kind, action and phase. */
  predicate VmScoped(ev: CloudEvent) {
    ev.typ == TypeFor(ev.data.kind, ev.data.action, ev.data.phase)
  }

  predicate Marker(ev: CloudEvent) { ev.typ == TypeSnapshotComplete() }

  /** A guest's event goes to the subject of its own cluster, node, kind, guest,
      action and phase, and the last three are those of its type; only a completion
      marker goes to the completion subject, of its own cluster and node. */
  lemma SubjectAgreesWithType(ev: CloudEvent)
    requires VmScoped(ev) || Marker(ev)
    ensures VmScoped(ev) != Marker(ev)
    ensures var d := ev.data; VmScoped(ev) ==>
      && Split(PublishSubject(ev), '.')
         == ["pve", Safe(d.cluster), Safe(d.node), KindName(d.kind), Itoa(d.vmid), ActionName(d.action), PhaseName(d.phase)]
      && Split(ev.typ, '.') == ["dev", "proxmox", "eventbus", KindName(d.kind), ActionName(d.action), PhaseName(d.phase)]
    ensures var d := ev.data; Marker(ev) <==>
      Split(PublishSubject(ev), '.') == ["pve", Safe(d.cluster), Safe(d.node), "snapshot", "complete"]
  {
    var d := ev.data;
    TypesDiffer(d.kind, d.action, d.phase);
    if VmScoped(ev) {
      TypeTokens(d.kind, d.action, d.phase);
      LifecycleTokens(d.cluster, d.node, d.kind, d.vmid, d.action, d.phase);
      assert |Split(PublishSubject(ev), '.')| == 7;
    } else {
      SnapshotTokens(d.cluster, d.node);
    }
  }

  lemma SafeFree(s: string)
    ensures Free(Safe(s), '/')
  {
    SafeToken(s);
  }

  lemma NoSlash(k: Kind, v: int)
    ensures Free(KindName(k), '/') && Free(Itoa(v), '/')
  {
    DigitsValue(if v < 0 then -v else v, 10);
    assert DigitOf('/') == 16;
  }

  /** The source names the cluster and the node, and the subject the kind and the
      guest, each recoverable from the text. */
  lemma SourceTokens(c: string, n: string, k: Kind, v: int)
    ensures Split(SourceFor(c, n), '/') == ["", "pve", Safe(c), Safe(n)]
    ensures Split(SubjectFor(k, v), '/') == [KindName(k), Itoa(v)]
  {
    SafeFree(c);
    SafeFree(n);
    NoSlash(k, v);
    SplitFree(Safe(n), '/');
    SplitCons(Safe(c), '/', Safe(n));
    SplitCons("pve", '/', Safe(c) + "/" + Safe(n));
    SplitCons("", '/', "pve" + "/" + (Safe(c) + "/" + Safe(n)));
    assert SourceFor(c, n) == "" + "/" + ("pve" + "/" + (Safe(c) + "/" + Safe(n)));
    SplitFree(Itoa(v), '/');
    SplitCons(KindName(k), '/', Itoa(v));
  }
}
