/** From watcher events to published events: the enricher with its target cache
    (Lifecycle, internal/enrich/enrich.go) and the consumer with its start times
    (runWatcher, cmd/proxmox-eventbus/main.go). */
module Enrich {
  import opened Text
  import opened Events
  import opened Upid
  import opened Watch
  import opened Target

  datatype VmConfig = VmConfig(name: string, tags: seq<string>, description: string, hookScript: string)

  /** What the system answers while one event is enriched: the VM's config, the
      process's command line, the target the task log shows at once and the ones
      it shows at the later polls, and the clock at the end. */
  datatype Env = Env(config: Option<VmConfig>, cmdline: Option<string>, firstLog: string, laterLogs: seq<string>, now: int)

  datatype Identity = Identity(cluster: string, node: string)

  /** raw UPID -> cached target, and raw UPID -> observation time of its start */
  datatype Cache = Cache(starts: map<string, int>, targets: map<string, string>)

  const EMPTY := Cache(map[], map[])

  // ---- one event ----

  function FirstNonEmpty(xs: seq<string>): string {
    if xs == [] then "" else if xs[0] != "" then xs[0] else FirstNonEmpty(xs[1..])
  }

  function ArgvTarget(cmdline: Option<string>): string {
    match cmdline
    case None => ""
    case Some(b) => MigrateTarget(SplitCmdline(b))
  }

  function Resolve(phase: Phase, env: Env): string {
    if ArgvTarget(env.cmdline) != "" then ArgvTarget(env.cmdline)
    else if env.firstLog != "" then env.firstLog
    else if phase == Started then FirstNonEmpty(env.laterLogs)
    else ""
  }

  /** The target an event carries, given the cache before it. */
  function TargetOf(targets: map<string, string>, in_: Event, env: Env): string {
    if in_.action != Migrate then ""
    else if Resolve(in_.phase, env) != "" then Resolve(in_.phase, env)
    else if in_.upid.raw in targets then targets[in_.upid.raw]
    else ""
  }

  function TargetsAfter(targets: map<string, string>, in_: Event, env: Env): map<string, string> {
    var u, t := in_.upid.raw, TargetOf(targets, in_, env);
    if in_.action == Migrate && Terminal(in_.phase) then targets - {u}
    else if in_.phase == Started && u != "" && t != "" then targets[u := t]
    else targets
  }

  function Millis(ns: int): int { if ns >= 0 then ns / 1_000_000 else -((-ns) / 1_000_000) }

  /** The published event, given the target found for it. */
  function Describe(who: Identity, in_: Event, taskStart: int, config: Option<VmConfig>, now: int, target: string): CloudEvent {
    var vmid := VMID(in_.upid);
    var cfg := if config.Some? then config.value else VmConfig("", [], "", "");
    var ended := Terminal(in_.phase);
    CloudEvent(
      TypeFor(in_.kind, in_.action, in_.phase),
      SourceFor(who.cluster, who.node),
      SubjectFor(in_.kind, vmid),
      EventData(who.cluster, who.node, in_.kind, vmid,
                cfg.name, cfg.tags, cfg.description, cfg.hookScript,
                in_.action, in_.phase, in_.upid.raw, in_.upid.user, who.node, target,
                if ended && taskStart != 0 then Some(Millis(now - taskStart)) else None,
                if ended then in_.status else "",
                "", "", 0, 0))
  }

  function Lifecycle(who: Identity, targets: map<string, string>, in_: Event, taskStart: int, env: Env): CloudEvent {
    Describe(who, in_, taskStart, env.config, env.now, TargetOf(targets, in_, env))
  }

  function StartsDuring(starts: map<string, int>, in_: Event): map<string, int> {
    if in_.phase == Started then starts[in_.upid.raw := in_.obs] else starts
  }

  function StartOf(starts: map<string, int>, u: string): int { if u in starts then starts[u] else 0 }

  function StartsAfter(starts: map<string, int>, in_: Event): map<string, int> {
    if Terminal(in_.phase) then StartsDuring(starts, in_) - {in_.upid.raw} else StartsDuring(starts, in_)
  }

  /** runWatcher on one event: what it hands on, and its state afterwards. */
  function Made(who: Identity, c: Cache, in_: Event, env: Env): CloudEvent {
    Lifecycle(who, c.targets, in_, StartOf(StartsDuring(c.starts, in_), in_.upid.raw), env)
  }

  function CacheAfter(c: Cache, in_: Event, env: Env): Cache {
    Cache(StartsAfter(c.starts, in_), TargetsAfter(c.targets, in_, env))
  }

  // ---- a whole log ----

  function Consumed(log: seq<Event>, envs: seq<Env>): Cache
    requires |log| == |envs|
  {
    if log == [] then EMPTY
    else
      var n := |log| - 1;
      CacheAfter(Consumed(log[..n], envs[..n]), log[n], envs[n])
  }

  type Maker = (Cache, Event, Env) -> CloudEvent

  function MakerOf(who: Identity): Maker { (c, e, env) => Made(who, c, e, env) }

  /** What a consumer that makes `f` of each event has handed on. */
  function Outputs(f: Maker, log: seq<Event>, envs: seq<Env>): (r: seq<CloudEvent>)
    requires |log| == |envs|
    ensures |r| == |log|
  {
    if log == [] then []
    else
      var n := |log| - 1;
      Outputs(f, log[..n], envs[..n]) + [f(Consumed(log[..n], envs[..n]), log[n], envs[n])]
  }

  function AllMade(who: Identity, log: seq<Event>, envs: seq<Env>): (r: seq<CloudEvent>)
    requires |log| == |envs|
    ensures |r| == |log|
  {
    Outputs(MakerOf(who), log, envs)
  }

  lemma {:induction false} OutputAt(f: Maker, log: seq<Event>, envs: seq<Env>, i: nat)
    requires |log| == |envs| && i < |log|
    ensures Outputs(f, log, envs)[i] == f(Consumed(log[..i], envs[..i]), log[i], envs[i])
  {
    var n := |log| - 1;
    if i < n {
      OutputAt(f, log[..n], envs[..n], i);
      assert log[..n][..i] == log[..i] && envs[..n][..i] == envs[..i];
    }
  }

  /** The parts of a published event that depend on the consumer's state. */
  predicate DataOf(d: EventData, c: Cache, e: Event, env: Env) {
    && d.upid == e.upid.raw && d.kind == e.kind && d.action == e.action && d.phase == e.phase
    && d.targetNode == TargetOf(c.targets, e, env)
    && d.exitStatus == (if Terminal(e.phase) then e.status else "")
    && var start := StartOf(StartsDuring(c.starts, e), e.upid.raw);
       d.durationMS == if Terminal(e.phase) && start != 0 then Some(Millis(env.now - start)) else None
  }

  /** The parts that do not: the task's own, the guest's configuration if it could be
      read, and this node. */
  predicate Described(ce: CloudEvent, who: Identity, e: Event, env: Env) {
    var d := ce.data;
    && d.cluster == who.cluster && d.node == who.node && d.sourceNode == who.node
    && d.user == e.upid.user && d.vmid == VMID(e.upid)
    && (env.config.Some? ==> VmConfig(d.name, d.tags, d.description, d.hookScript) == env.config.value)
    && (env.config.None? ==> d.name == "" && d.tags == [] && d.description == "" && d.hookScript == "")
    && VmScoped(ce) && ce.source == SourceFor(who.cluster, who.node) && ce.subject == SubjectFor(d.kind, d.vmid)
  }

  lemma MadeData(who: Identity, c: Cache, e: Event, env: Env)
    ensures DataOf(MakerOf(who)(c, e, env).data, c, e, env)
    ensures Described(MakerOf(who)(c, e, env), who, e, env)
  {
  }

  lemma {:induction false} MadeAt(who: Identity, log: seq<Event>, envs: seq<Env>, i: nat)
    requires |log| == |envs| && i < |log|
    ensures DataOf(AllMade(who, log, envs)[i].data, Consumed(log[..i], envs[..i]), log[i], envs[i])
    ensures Described(AllMade(who, log, envs)[i], who, log[i], envs[i])
  {
    OutputAt(MakerOf(who), log, envs, i);
    MadeData(who, Consumed(log[..i], envs[..i]), log[i], envs[i]);
  }

  lemma ConsumedSnoc(log: seq<Event>, envs: seq<Env>, i: nat)
    requires |log| == |envs| && i < |log|
    ensures Consumed(log[..i + 1], envs[..i + 1]) == CacheAfter(Consumed(log[..i], envs[..i]), log[i], envs[i])
  {
    assert log[..i + 1][..i] == log[..i] && envs[..i + 1][..i] == envs[..i];
  }

  // ---- start times ----

  /** Where the task's open start is in the log: its last started or terminal
      event, when that is a started one. */
  function OpenStart(log: seq<Event>, u: string): (r: Option<nat>)
    ensures r.Some? ==> r.value < |log| && log[r.value].upid.raw == u && log[r.value].phase == Started
  {
    if log == [] then None
    else
      var e := log[|log| - 1];
      if e.upid.raw == u && e.phase == Started then Some(|log| - 1)
      else if e.upid.raw == u && Terminal(e.phase) then None
      else OpenStart(log[..|log| - 1], u)
  }

  /** Between an open start and the end of the log the task neither starts nor ends. */
  lemma {:induction false} OpenStartIsLast(log: seq<Event>, u: string)
    ensures var r := OpenStart(log, u);
      r.Some? ==> forall k :: r.value < k < |log| && log[k].upid.raw == u ==>
        log[k].phase != Started && !Terminal(log[k].phase)
  {
    if log != [] { OpenStartIsLast(log[..|log| - 1], u); }
  }

  /** `starts` holds exactly the tasks that started and did not end, each with the
      observation time of that start. A synced event never adds a key. */
  lemma {:induction false} StartsAreOpen(log: seq<Event>, envs: seq<Env>, u: string)
    requires |log| == |envs|
    ensures var starts := Consumed(log, envs).starts;
      && (u in starts <==> OpenStart(log, u).Some?)
      && (u in starts ==> starts[u] == log[OpenStart(log, u).value].obs)
  {
    if log != [] {
      var n := |log| - 1;
      StartsAreOpen(log[..n], envs[..n], u);
    }
  }

  /** The j-th event is the start since which the task of the i-th neither started
      nor ended. */
  predicate OwnStart(log: seq<Event>, j: nat, i: nat)
    requires j < i < |log|
  {
    && log[j].upid.raw == log[i].upid.raw && log[j].phase == Started
    && forall k :: j < k < i && log[k].upid.raw == log[i].upid.raw ==>
         log[k].phase != Started && !Terminal(log[k].phase)
  }

  lemma OpenStartIsOwn(log: seq<Event>, i: nat)
    requires i < |log| && OpenStart(log[..i], log[i].upid.raw).Some?
    ensures OwnStart(log, OpenStart(log[..i], log[i].upid.raw).value, i)
  {
    OpenStartIsLast(log[..i], log[i].upid.raw);
  }

  /** `ms` is that many whole milliseconds, the rest dropped on either side of zero. */
  predicate WholeMillis(ms: int, ns: int) {
    if ns >= 0 then ms * 1_000_000 <= ns < (ms + 1) * 1_000_000 else (ms - 1) * 1_000_000 < ns <= ms * 1_000_000
  }

  /** The i-th published event carries its exit status and the time since the
      observation of its own start. */
  ghost predicate Timed(log: seq<Event>, envs: seq<Env>, made: seq<CloudEvent>, i: nat)
    requires i < |log| == |envs| == |made|
  {
    && made[i].data.exitStatus == log[i].status
    && made[i].data.durationMS.Some?
    && exists j: nat :: j < i && OwnStart(log, j, i)
         && WholeMillis(made[i].data.durationMS.value, envs[i].now - log[j].obs)
  }

  ghost predicate AllTimed(log: seq<Event>, envs: seq<Env>, made: seq<CloudEvent>)
    requires |log| == |envs| == |made|
  {
    forall i: nat :: i < |log| && Terminal(log[i].phase) ==> Timed(log, envs, made, i)
  }

  lemma StartKnown(log: seq<Event>, envs: seq<Env>, i: nat)
    requires i < |log| == |envs| && log[i].phase != Started
    requires OpenStart(log[..i], log[i].upid.raw).Some?
    ensures var j := OpenStart(log[..i], log[i].upid.raw).value;
      StartOf(StartsDuring(Consumed(log[..i], envs[..i]).starts, log[i]), log[i].upid.raw) == log[j].obs
  {
    StartsAreOpen(log[..i], envs[..i], log[i].upid.raw);
  }

  lemma TimedBy(log: seq<Event>, envs: seq<Env>, made: seq<CloudEvent>, c: Cache, j: nat, i: nat)
    requires j < i < |log| == |envs| == |made| && Terminal(log[i].phase) && OwnStart(log, j, i)
    requires DataOf(made[i].data, c, log[i], envs[i])
    requires StartOf(StartsDuring(c.starts, log[i]), log[i].upid.raw) == log[j].obs != 0
    ensures Timed(log, envs, made, i)
  {
  }

  /** A terminal event of a started task carries the time since the observation
      of its own, matching start. */
  lemma DurationFromOwnStart(who: Identity, log: seq<Event>, envs: seq<Env>, i: nat)
    requires |log| == |envs| && i < |log| && Terminal(log[i].phase)
    requires forall e <- log :: e.obs != 0
    requires OpenStart(log[..i], log[i].upid.raw).Some?
    ensures Timed(log, envs, AllMade(who, log, envs), i)
  {
    var j := OpenStart(log[..i], log[i].upid.raw).value;
    StartKnown(log, envs, i);
    MadeAt(who, log, envs, i);
    assert log[j] in log;
    OpenStartIsOwn(log, i);
    TimedBy(log, envs, AllMade(who, log, envs), Consumed(log[..i], envs[..i]), j, i);
  }

  // ---- targets ----

  /** Events of one task agree on its action. */
  predicate SameTask(log: seq<Event>) {
    forall i, j :: 0 <= i < |log| && 0 <= j < |log| && log[i].upid.raw == log[j].upid.raw ==> log[i].action == log[j].action
  }

  /** Cached targets belong to open migrations only, and are never empty. */
  lemma {:induction false} TargetsAreOpen(log: seq<Event>, envs: seq<Env>, u: string)
    requires |log| == |envs| && SameTask(log)
    ensures var c := Consumed(log, envs);
      u in c.targets ==>
        (c.targets[u] != "" && u in c.starts && OpenStart(log, u).Some? && log[OpenStart(log, u).value].action == Migrate)
  {
    StartsAreOpen(log, envs, u);
    if log != [] {
      var n := |log| - 1;
      TargetsAreOpen(log[..n], envs[..n], u);
      StartsAreOpen(log[..n], envs[..n], u);
    }
  }

  /** The task does not end in the stretch. */
  predicate NoEnd(log: seq<Event>, u: string, lo: nat, hi: nat)
    requires hi <= |log|
  {
    forall k :: lo <= k < hi && log[k].upid.raw == u ==> !Terminal(log[k].phase)
  }

  /** The i-th event is a migration's start, and its target is known by then. */
  predicate StartsWithTarget(log: seq<Event>, envs: seq<Env>, i: nat)
    requires i < |log| == |envs|
  {
    && log[i].phase == Started && log[i].action == Migrate && log[i].upid.raw != ""
    && TargetOf(Consumed(log[..i], envs[..i]).targets, log[i], envs[i]) != ""
  }

  lemma TargetFirst(log: seq<Event>, envs: seq<Env>, i: nat)
    requires i < |log| == |envs| && StartsWithTarget(log, envs, i)
    ensures log[i].upid.raw in Consumed(log[..i + 1], envs[..i + 1]).targets
  {
    ConsumedSnoc(log, envs, i);
    TargetStored(Consumed(log[..i], envs[..i]), log[i], envs[i]);
  }

  lemma TargetNext(log: seq<Event>, envs: seq<Env>, i: nat, u: string)
    requires i < |log| == |envs| && u in Consumed(log[..i], envs[..i]).targets
    requires log[i].upid.raw == u ==> !Terminal(log[i].phase)
    ensures u in Consumed(log[..i + 1], envs[..i + 1]).targets
  {
    ConsumedSnoc(log, envs, i);
    TargetKept(Consumed(log[..i], envs[..i]), log[i], envs[i], u);
  }

  lemma {:induction false} TargetStays(log: seq<Event>, envs: seq<Env>, i: nat, j: nat, u: string)
    requires i < j <= |log| == |envs| && NoEnd(log, u, i + 1, j)
    requires u in Consumed(log[..i + 1], envs[..i + 1]).targets
    ensures u in Consumed(log[..j], envs[..j]).targets
  {
    if i + 1 < j {
      TargetStays(log, envs, i, j - 1, u);
      TargetNext(log, envs, j - 1, u);
    }
  }

  lemma {:induction false} TargetStored(c: Cache, e: Event, env: Env)
    requires e.phase == Started && e.action == Migrate && e.upid.raw != "" && TargetOf(c.targets, e, env) != ""
    ensures e.upid.raw in CacheAfter(c, e, env).targets
  {
  }

  lemma TargetKept(c: Cache, e: Event, env: Env, u: string)
    requires u in c.targets && (e.upid.raw == u ==> !Terminal(e.phase))
    ensures u in CacheAfter(c, e, env).targets
  {
  }

  /** Once a migration's started event carries a target, every later event of the
      task carries one, its terminal event included, whatever the command line
      and the task log show by then. */
  lemma {:induction false} TargetNeverMissing(who: Identity, log: seq<Event>, envs: seq<Env>, i: nat, j: nat)
    requires |log| == |envs| && i < j < |log|
    requires log[i].phase == Started && log[i].action == Migrate && log[i].upid.raw != ""
    requires AllMade(who, log, envs)[i].data.targetNode != ""
    requires SameTask(log) && log[j].upid.raw == log[i].upid.raw && NoEnd(log, log[i].upid.raw, i, j)
    ensures AllMade(who, log, envs)[j].data.targetNode != ""
  {
    MadeAt(who, log, envs, i);
    TargetFirst(log, envs, i);
    TargetStays(log, envs, i, j, log[i].upid.raw);
    PrefixSameTask(log, j);
    TargetsAreOpen(log[..j], envs[..j], log[i].upid.raw);
    MadeAt(who, log, envs, j);
  }

  /** The j-th event follows the i-th in one life of a migration that was published
      with a target when it started. */
  predicate Follows(log: seq<Event>, made: seq<CloudEvent>, i: nat, j: nat)
    requires |log| == |made|
  {
    && i < j < |log| && log[i].phase == Started && log[i].action == Migrate
    && made[i].data.targetNode != ""
    && log[j].upid.raw == log[i].upid.raw && NoEnd(log, log[i].upid.raw, i, j)
  }

  predicate TargetsKept(log: seq<Event>, made: seq<CloudEvent>)
    requires |log| == |made|
  {
    forall i: nat, j: nat :: i < |log| && j < |log| && Follows(log, made, i, j) ==> made[j].data.targetNode != ""
  }

  lemma PrefixSameTask(log: seq<Event>, j: nat)
    requires j <= |log| && SameTask(log)
    ensures SameTask(log[..j])
  {
  }

  // ---- which target ----

  /** `t` is what an event's own process and log show: the target of its command line,
      else the one its log shows at once, else, for a started event, the first that the
      log shows later. */
  predicate Found(phase: Phase, env: Env, t: string) {
    var argv := if env.cmdline.Some? then MigrateTarget(SplitCmdline(env.cmdline.value)) else "";
    if argv != "" then t == argv
    else if env.firstLog != "" then t == env.firstLog
    else if phase != Started then t == ""
    else
      || (t == "" && forall k :: 0 <= k < |env.laterLogs| ==> env.laterLogs[k] == "")
      || exists k :: 0 <= k < |env.laterLogs| && env.laterLogs[k] == t != ""
           && forall i :: 0 <= i < k ==> env.laterLogs[i] == ""
  }

  lemma {:induction false} FirstOne(xs: seq<string>) returns (k: nat)
    ensures if FirstNonEmpty(xs) == "" then k == |xs| else k < |xs| && xs[k] == FirstNonEmpty(xs)
    ensures forall i :: 0 <= i < k ==> xs[i] == ""
  {
    if xs == [] || xs[0] != "" {
      k := 0;
    } else {
      k := FirstOne(xs[1..]);
      assert forall i :: 0 < i < k + 1 ==> xs[i] == xs[1..][i - 1];
      k := k + 1;
    }
  }

  lemma ResolveFinds(phase: Phase, env: Env)
    ensures Found(phase, env, Resolve(phase, env))
  {
    var k := FirstOne(env.laterLogs);
  }

  function Lookup(targets: map<string, string>, u: string): string { if u in targets then targets[u] else "" }

  /** The target that the i-th event carries. */
  function TargetAt(log: seq<Event>, envs: seq<Env>, i: nat): string
    requires i < |log| == |envs|
  {
    TargetOf(Consumed(log[..i], envs[..i]).targets, log[i], envs[i])
  }

  lemma LookupAfter(targets: map<string, string>, e: Event, env: Env, u: string)
    requires e.upid.raw != ""
    ensures var after := Lookup(TargetsAfter(targets, e, env), u);
      if e.upid.raw != u then after == Lookup(targets, u)
      else if e.action != Migrate then after == Lookup(targets, u)
      else if Terminal(e.phase) then after == ""
      else if e.phase == Started then after == TargetOf(targets, e, env)
      else after == Lookup(targets, u)
  {
  }

  lemma TargetAtPrefix(log: seq<Event>, envs: seq<Env>, i: nat, n: nat)
    requires i < n <= |log| == |envs|
    ensures TargetAt(log[..n], envs[..n], i) == TargetAt(log, envs, i)
  {
    assert log[..n][..i] == log[..i] && envs[..n][..i] == envs[..i];
  }

  /** The cached target of a task is the one its open start carries. */
  lemma {:induction false} CachedIsStarts(log: seq<Event>, envs: seq<Env>, u: string)
    requires |log| == |envs| && SameTask(log) && forall e <- log :: e.upid.raw != ""
    ensures var r := OpenStart(log, u);
      Lookup(Consumed(log, envs).targets, u) == if r.Some? then TargetAt(log, envs, r.value) else ""
  {
    if log != [] {
      var n := |log| - 1;
      var init, e := log[..n], log[n];
      PrefixSameTask(log, n);
      CachedIsStarts(init, envs[..n], u);
      LookupAfter(Consumed(init, envs[..n]).targets, e, envs[n], u);
      var r := OpenStart(init, u);
      if r.Some? {
        TargetAtPrefix(log, envs, r.value, n);
        assert init[r.value] == log[r.value];
      }
    }
  }

  /** A task's own start is its open one. */
  lemma {:induction false} OwnStartIsOpen(log: seq<Event>, i: nat, u: string)
    requires i < |log| && log[i].upid.raw == u && log[i].phase == Started
    requires forall k :: i < k < |log| && log[k].upid.raw == u ==> log[k].phase != Started && !Terminal(log[k].phase)
    ensures OpenStart(log, u) == Some(i)
    decreases |log|
  {
    if i < |log| - 1 { OwnStartIsOpen(log[..|log| - 1], i, u); }
  }

  /** What the j-th event's target is: what its own process and log show, and if they
      show nothing, the target that was published on its own start. */
  ghost predicate TargetLaw(log: seq<Event>, envs: seq<Env>, made: seq<CloudEvent>, j: nat)
    requires j < |log| == |envs| == |made|
  {
    if log[j].action != Migrate then made[j].data.targetNode == ""
    else
      exists t :: Found(log[j].phase, envs[j], t)
        && (t != "" ==> made[j].data.targetNode == t)
        && (t == "" ==> forall i: nat :: i < j && OwnStart(log, i, j) ==> made[j].data.targetNode == made[i].data.targetNode)
        && (t == "" && (forall i: nat :: i < j ==> !OwnStart(log, i, j)) ==> made[j].data.targetNode == "")
  }

  lemma TargetMade(who: Identity, log: seq<Event>, envs: seq<Env>, i: nat)
    requires i < |log| == |envs|
    ensures AllMade(who, log, envs)[i].data.targetNode == TargetAt(log, envs, i)
  {
    MadeAt(who, log, envs, i);
  }

  lemma TargetIs(log: seq<Event>, envs: seq<Env>, j: nat)
    requires j < |log| == |envs|
    ensures TargetAt(log, envs, j) ==
      if log[j].action != Migrate then ""
      else if Resolve(log[j].phase, envs[j]) != "" then Resolve(log[j].phase, envs[j])
      else Lookup(Consumed(log[..j], envs[..j]).targets, log[j].upid.raw)
  {
  }

  lemma TargetExact(who: Identity, log: seq<Event>, envs: seq<Env>, j: nat)
    requires j < |log| == |envs| && SameTask(log) && forall e <- log :: e.upid.raw != ""
    ensures TargetLaw(log, envs, AllMade(who, log, envs), j)
  {
    var u, t := log[j].upid.raw, Resolve(log[j].phase, envs[j]);
    TargetMade(who, log, envs, j);
    TargetIs(log, envs, j);
    ResolveFinds(log[j].phase, envs[j]);
    PrefixSameTask(log, j);
    CachedIsStarts(log[..j], envs[..j], u);
    forall i: nat | i < j && OwnStart(log, i, j)
      ensures OpenStart(log[..j], u) == Some(i)
      ensures AllMade(who, log, envs)[i].data.targetNode == TargetAt(log[..j], envs[..j], i)
    {
      OwnStartIsOpen(log[..j], i, u);
      TargetAtPrefix(log, envs, i, j);
      TargetMade(who, log, envs, i);
    }
    if OpenStart(log[..j], u).Some? { OpenStartIsOwn(log, j); }
  }

  // ---- the classes ----

  lemma {:induction false} FirstNonEmptySnoc(xs: seq<string>, x: string)
    ensures FirstNonEmpty(xs + [x]) == if FirstNonEmpty(xs) != "" then FirstNonEmpty(xs) else x
  {
    if xs == [] {
      assert xs + [x] == [x];
    } else {
      assert (xs + [x])[1..] == xs[1..] + [x];
      FirstNonEmptySnoc(xs[1..], x);
    }
  }

  /** The first n answers. */
  function Shown(f: nat -> string, n: nat): seq<string> {
    if n == 0 then [] else Shown(f, n - 1) + [f(n - 1)]
  }

  function Ceil(n: nat, p: nat): nat
    requires p > 0
  {
    (n + p - 1) / p
  }

  lemma MulMono(a: nat, b: nat, p: nat)
    requires a >= b
    ensures a * p >= b * p
  {
    assert a * p == (a - b) * p + b * p;
  }

  lemma DivBound(q: nat, p: nat, n: nat)
    requires p > 0 && q * p <= n
    ensures q <= n / p
  {
    var d := n / p;
    assert n < d * p + p == (d + 1) * p;
    if q > d { MulMono(q, d + 1, p); }
  }

  lemma OneMorePoll(k: nat, p: nat, waited: nat, wait: nat)
    requires p > 0 && k * p <= waited < wait
    ensures (k + 1) * p <= waited + p && k + 1 <= Ceil(wait, p)
  {
    assert (k + 1) * p == k * p + p;
    DivBound(k + 1, p, wait + p - 1);
  }

  lemma DefaultPolls()
    ensures Ceil(2_000_000_000, 100_000_000) == 20
  {
  }

  class Enricher {
    const who: Identity
    const wait: int
    const poll: int
    var targets: map<string, string>

    constructor (who: Identity, wait: int, poll: int)
      ensures this.who == who && this.wait == wait && this.poll == poll && targets == map[]
    {
      this.who, this.wait, this.poll := who, wait, poll;
      targets := map[];
    }

    /** Nanoseconds; the zero and negative settings mean the defaults. */
    function TargetWait(): nat { if wait > 0 then wait else 2_000_000_000 }

    function TargetPoll(): (p: nat)
      ensures p > 0
    {
      if poll > 0 then poll else 100_000_000
    }

    /** `shown(k)` is what the task log shows at the k-th poll and `late(k)` how
        much longer than asked the k-th sleep takes. The wait ends after at most
        wait/poll polls, rounded up, and gives up only when the wait is over. */
    method ResolveMigrateTarget(in_: Event, cmdline: Option<string>, firstLog: string, shown: nat -> string, late: nat -> nat)
      returns (target: string, polls: nat, waited: nat)
      ensures target == Resolve(in_.phase, Env(None, cmdline, firstLog, Shown(shown, polls), 0))
      ensures polls <= Ceil(TargetWait(), TargetPoll())
      ensures in_.phase == Started && target == "" ==> waited >= TargetWait()
      ensures wait <= 0 && poll <= 0 ==> polls <= 20
      ensures wait <= 0 && in_.phase == Started && target == "" ==> waited >= 2_000_000_000
    {
      DefaultPolls();
      polls, waited := 0, 0;
      if cmdline.Some? {
        target := ParseMigrateTarget(SplitCmdline(cmdline.value));
        if target != "" {
          return;
        }
      }
      if firstLog != "" {
        target := firstLog;
        return;
      }
      if in_.phase != Started {
        target := "";
        return;
      }
      while waited < TargetWait()
        invariant FirstNonEmpty(Shown(shown, polls)) == ""
        invariant polls * TargetPoll() <= waited
        invariant polls <= Ceil(TargetWait(), TargetPoll())
        decreases TargetWait() - waited
      {
        FirstNonEmptySnoc(Shown(shown, polls), shown(polls));
        OneMorePoll(polls, TargetPoll(), waited, TargetWait());
        waited := waited + TargetPoll() + late(polls);
        target := shown(polls);
        polls := polls + 1;
        if target != "" {
          return;
        }
      }
      target := "";
    }

    method RememberMigrateTarget(upidRaw: string, target: string)
      modifies this
      ensures targets == if upidRaw == "" || target == "" then old(targets) else old(targets)[upidRaw := target]
    {
      if upidRaw == "" || target == "" {
        return;
      }
      targets := targets[upidRaw := target];
    }

    method RecallMigrateTarget(upidRaw: string) returns (target: string)
      ensures target == if upidRaw in targets then targets[upidRaw] else ""
    {
      target := if upidRaw in targets then targets[upidRaw] else "";
    }

    method ForgetMigrateTarget(upidRaw: string)
      modifies this
      ensures targets == old(targets) - {upidRaw}
    {
      targets := targets - {upidRaw};
    }

    /** The target of a migration event, and what it does to the cache. */
    method MigrationTarget(in_: Event, cmdline: Option<string>, firstLog: string, shown: nat -> string, late: nat -> nat)
      returns (target: string, polls: nat)
      requires in_.action == Migrate
      modifies this
      ensures var env := Env(None, cmdline, firstLog, Shown(shown, polls), 0);
        target == TargetOf(old(targets), in_, env) && targets == TargetsAfter(old(targets), in_, env)
    {
      var waited;
      target, polls, waited := ResolveMigrateTarget(in_, cmdline, firstLog, shown, late);
      if target == "" {
        target := RecallMigrateTarget(in_.upid.raw);
      }
      if target != "" {
        if in_.phase == Started {
          RememberMigrateTarget(in_.upid.raw, target);
        }
      }
      if in_.phase == Finished || in_.phase == Failed {
        ForgetMigrateTarget(in_.upid.raw);
      }
    }

    method Enrich(in_: Event, taskStart: int, config: Option<VmConfig>, cmdline: Option<string>, firstLog: string,
                  shown: nat -> string, late: nat -> nat, now: int)
      returns (ce: CloudEvent, polls: nat)
      modifies this
      ensures var env := Env(config, cmdline, firstLog, Shown(shown, polls), now);
        && ce == Lifecycle(who, old(targets), in_, taskStart, env)
        && targets == TargetsAfter(old(targets), in_, env)
    {
      var target := "";
      polls := 0;
      if in_.action == Migrate {
        target, polls := MigrationTarget(in_, cmdline, firstLog, shown, late);
      }
      ce := Fill(in_, taskStart, config, now, target);
    }

    /** The event's data, filled in step by step. */
    method Fill(in_: Event, taskStart: int, config: Option<VmConfig>, now: int, target: string) returns (ce: CloudEvent)
      ensures ce == Describe(who, in_, taskStart, config, now, target)
    {
      var vmid := VMID(in_.upid);
      var data := BlankData(who.cluster, who.node)
        .(kind := in_.kind, vmid := vmid, action := in_.action, phase := in_.phase,
          upid := in_.upid.raw, user := in_.upid.user, sourceNode := who.node);
      if config.Some? {
        var cfg := config.value;
        data := data.(name := cfg.name, tags := cfg.tags, description := cfg.description, hookScript := cfg.hookScript);
      }
      if target != "" {
        data := data.(targetNode := target);
      }
      if in_.phase == Finished || in_.phase == Failed {
        if taskStart != 0 {
          data := data.(durationMS := Some(Millis(now - taskStart)));
        }
        data := data.(exitStatus := in_.status);
      }
      ce := CloudEvent(TypeFor(in_.kind, in_.action, in_.phase), SourceFor(who.cluster, who.node),
                       SubjectFor(in_.kind, vmid), data);
    }
  }

  /** The consumer goroutine; `out` is everything it has put on the shared channel. */
  class Consumer {
    const enricher: Enricher
    var starts: map<string, int>
    var out: seq<CloudEvent>

    constructor (enricher: Enricher)
      ensures this.enricher == enricher && starts == map[] && out == []
    {
      this.enricher := enricher;
      starts, out := map[], [];
    }

    method Handle(ev: Event, config: Option<VmConfig>, cmdline: Option<string>, firstLog: string,
                  shown: nat -> string, late: nat -> nat, now: int)
      returns (polls: nat)
      modifies this, enricher
      ensures var env := Env(config, cmdline, firstLog, Shown(shown, polls), now);
        var was := Cache(old(starts), old(enricher.targets));
        && Cache(starts, enricher.targets) == CacheAfter(was, ev, env)
        && out == old(out) + [Made(enricher.who, was, ev, env)]
    {
      if ev.phase == Started {
        starts := starts[ev.upid.raw := ev.obs];
      }
      var start := if ev.upid.raw in starts then starts[ev.upid.raw] else 0;
      var ce;
      ce, polls := enricher.Enrich(ev, start, config, cmdline, firstLog, shown, late, now);
      out := out + [ce];
      if ev.phase == Finished || ev.phase == Failed {
        starts := starts - {ev.upid.raw};
      }
    }
  }
}
