/** The watcher's loop: file notifications, the debounce timer and the scans it
    sets off (Run, internal/tasks/watcher.go). Times are nanoseconds. */
module Debounce {
  import opened Text

  const DEBOUNCE: nat := 25_000_000

  datatype ScanResult = Scanned | NoFile | ScanError
  datatype Exit = Cancelled | Closed | NotifyFailed | ScanFailed

  /** What the loop's select finds ready, or the runtime expiring the timer. */
  datatype Stimulus =
    | Cancel
    | ErrorsClosed
    | ErrorSeen(isNil: bool)
    | EventsClosed
    | Notify(name: string, create: bool)
    | Expire
    | Tick(result: ScanResult)

  datatype At = At(t: int, what: Stimulus)

  /** A relevant notification, with the number of scans begun before it. */
  datatype Note = Note(at: int, before: nat)
  datatype Scan = Scan(at: int, due: int)

  /** The timer is armed with a deadline, or stopped; its channel keeps the deadline
      that expired, and has room for one. `notes` and `scans` are history. */
  datatype Loop = Loop(pending: bool, timer: Option<int>, chan: seq<int>, watched: nat, now: int,
                       over: Option<Exit>, notes: seq<Note>, scans: seq<Scan>)

  predicate RelevantPath(p: string, active: string) { p == active || HasSuffix(p, "/active") }

  function ExitOf(r: ScanResult): Option<Exit> { if r == ScanError then Some(ScanFailed) else None }

  /** The scan that Run makes before its loop. */
  function Begin(t: int, r: ScanResult): Loop {
    Loop(false, None, [], 0, t, ExitOf(r), [], [Scan(t, t)])
  }

  predicate Enabled(s: Loop, x: At) {
    && s.over.None? && s.now <= x.t
    && (x.what.Expire? ==> s.timer.Some? && s.timer.value <= x.t)
    && (x.what.Tick? ==> s.chan != [])
  }

  function DoNotify(active: string, d: nat, s: Loop, name: string, create: bool): Loop {
    if !RelevantPath(name, active) then s
    else
      s.(notes := s.notes + [Note(s.now, |s.scans|)],
         watched := s.watched + (if create && name == active then 1 else 0),
         timer := if s.pending then s.timer else Some(s.now + d),
         pending := true)
  }

  /** A send on a full channel is dropped. */
  function DoExpire(s: Loop): Loop
    requires s.timer.Some?
  {
    s.(timer := None, chan := if s.chan == [] then [s.timer.value] else s.chan)
  }

  function DoTick(s: Loop, r: ScanResult): Loop
    requires s.chan != []
  {
    s.(pending := false, chan := s.chan[1..], scans := s.scans + [Scan(s.now, s.chan[0])], over := ExitOf(r))
  }

  function Do(active: string, d: nat, was: Loop, x: At): Loop
    requires Enabled(was, x)
  {
    var s := was.(now := x.t);
    match x.what
    case Cancel => s.(over := Some(Cancelled))
    case ErrorsClosed => s.(over := Some(Closed))
    case ErrorSeen(isNil) => if isNil then s else s.(over := Some(NotifyFailed))
    case EventsClosed => s.(over := Some(Closed))
    case Notify(name, create) => DoNotify(active, d, s, name, create)
    case Expire => DoExpire(s)
    case Tick(r) => DoTick(s, r)
  }

  /** The states the loop can be in: after a first scan at any time, any stimuli. */
  predicate Runs(active: string, d: nat, s: Loop, xs: seq<At>)
    decreases |xs|
  {
    xs == [] || (Enabled(s, xs[0]) && Runs(active, d, Do(active, d, s, xs[0]), xs[1..]))
  }

  function Exec(active: string, d: nat, s: Loop, xs: seq<At>): Loop
    requires Runs(active, d, s, xs)
    decreases |xs|
  {
    if xs == [] then s else Exec(active, d, Do(active, d, s, xs[0]), xs[1..])
  }

  // ---- the invariant ----

  /** The deadline of the tick under way. */
  function Outstanding(s: Loop): Option<int> {
    if s.timer.Some? then s.timer else if s.chan != [] then Some(s.chan[0]) else None
  }

  /** `pending` says exactly that one tick is under way, armed or expired. */
  predicate PendingIsTick(s: Loop) {
    && (s.pending <==> s.timer.Some? || s.chan != [])
    && |s.chan| <= 1 && (s.timer.Some? ==> s.chan == [])
    && (s.chan != [] ==> s.chan[0] <= s.now)
  }

  /** The next scan after the notification, made or still to come, is due at most
      one debounce after it, and it begins after it. */
  predicate Served(d: nat, s: Loop, n: Note) {
    && n.at <= s.now
    && if n.before < |s.scans| then n.at <= s.scans[n.before].at && s.scans[n.before].due <= n.at + d
       else n.before == |s.scans| && s.pending && Outstanding(s).Some? && Outstanding(s).value <= n.at + d
  }

  predicate NotLost(d: nat, s: Loop) {
    forall n <- s.notes :: Served(d, s, n)
  }

  /** The tick under way, or the scan, was armed by the first notification after
      the scan before it. */
  predicate ArmedBy(d: nat, s: Loop, k: nat, due: int) {
    exists i :: 0 <= i < |s.notes| && s.notes[i].before == k && due == s.notes[i].at + d
  }

  predicate NoteAfter(s: Loop, n: Note) {
    0 < n.before <= |s.scans| && s.scans[n.before - 1].at <= n.at <= s.now
  }

  predicate Caused(d: nat, s: Loop) {
    && (forall k: nat :: 0 < k < |s.scans| ==> ArmedBy(d, s, k, s.scans[k].due))
    && (Outstanding(s).Some? ==> ArmedBy(d, s, |s.scans|, Outstanding(s).value))
    && (forall k: nat :: k < |s.scans| ==> s.scans[k].due <= s.scans[k].at <= s.now)
    && (forall n <- s.notes :: NoteAfter(s, n))
  }

  predicate Inv(d: nat, s: Loop) {
    s.scans != [] && PendingIsTick(s) && NotLost(d, s) && Caused(d, s)
  }

  lemma NotifyServes(active: string, d: nat, s: Loop, name: string, create: bool)
    requires Inv(d, s)
    ensures Inv(d, DoNotify(active, d, s, name, create))
  {
    if RelevantPath(name, active) {
      var t := DoNotify(active, d, s, name, create);
      var n := Note(s.now, |s.scans|);
      NoteKeepsCause(d, s, t, n);
      assert Outstanding(t) == if s.pending then Outstanding(s) else Some(s.now + d);
      if s.pending {
        OldDue(d, s);
      } else {
        assert t.notes[|s.notes|] == n;
        assert ArmedBy(d, t, |s.scans|, s.now + d);
      }
      forall m | m in t.notes ensures Served(d, t, m) {
        if m in s.notes { assert Served(d, s, m); }
      }
    }
  }

  /** A tick under way is due at most one debounce from now. */
  lemma OldDue(d: nat, s: Loop)
    requires Inv(d, s) && Outstanding(s).Some?
    ensures Outstanding(s).value <= s.now + d
  {
    var i :| 0 <= i < |s.notes| && s.notes[i].before == |s.scans| && Outstanding(s).value == s.notes[i].at + d;
    assert s.notes[i] in s.notes;
    assert NoteAfter(s, s.notes[i]);
  }

  lemma NoteKeepsCause(d: nat, s: Loop, t: Loop, n: Note)
    requires Inv(d, s) && t.notes == s.notes + [n] && t.scans == s.scans && t.now == s.now
    requires n == Note(s.now, |s.scans|)
    ensures forall k: nat, due: int :: ArmedBy(d, s, k, due) ==> ArmedBy(d, t, k, due)
    ensures forall m <- t.notes :: NoteAfter(t, m)
  {
    forall k: nat, due: int | ArmedBy(d, s, k, due) ensures ArmedBy(d, t, k, due) {
      var i :| 0 <= i < |s.notes| && s.notes[i].before == k && due == s.notes[i].at + d;
      assert t.notes[i] == s.notes[i];
    }
    forall m | m in t.notes ensures NoteAfter(t, m) {
      if m in s.notes { assert NoteAfter(s, m); }
    }
  }

  lemma TickServes(d: nat, s: Loop, r: ScanResult)
    requires Inv(d, s) && s.chan != []
    ensures Inv(d, DoTick(s, r))
  {
  }

  /** Time passing, and the timer expiring, change nothing that matters. */
  lemma QuietServes(d: nat, s: Loop, t: Loop)
    requires Inv(d, s) && t.notes == s.notes && t.scans == s.scans && t.pending == s.pending && s.now <= t.now
    requires Outstanding(t) == Outstanding(s) && PendingIsTick(t)
    ensures Inv(d, t)
  {
  }

  lemma InvStep(active: string, d: nat, s: Loop, x: At)
    requires Inv(d, s) && Enabled(s, x)
    ensures Inv(d, Do(active, d, s, x))
  {
    var later := s.(now := x.t);
    QuietServes(d, s, later);
    if x.what.Notify? {
      NotifyServes(active, d, later, x.what.name, x.what.create);
    } else if x.what.Tick? {
      TickServes(d, later, x.what.result);
    } else {
      QuietServes(d, later, Do(active, d, s, x));
    }
  }

  lemma BeginInv(d: nat, t: int, r: ScanResult)
    ensures Inv(d, Begin(t, r))
  {
  }

  lemma {:induction false} InvRun(active: string, d: nat, s: Loop, xs: seq<At>)
    requires Inv(d, s) && Runs(active, d, s, xs)
    ensures Inv(d, Exec(active, d, s, xs))
    decreases |xs|
  {
    if xs != [] {
      InvStep(active, d, s, xs[0]);
      InvRun(active, d, Do(active, d, s, xs[0]), xs[1..]);
    }
  }

  // ---- the history, told from the stimuli alone ----

  /** A notification of the active file, or of a file called active elsewhere. */
  predicate Concerns(x: At, active: string) {
    x.what.Notify? &&
      (x.what.name == active
       || (|x.what.name| >= 7 && x.what.name[|x.what.name| - 7..] == ['/', 'a', 'c', 't', 'i', 'v', 'e']))
  }

  /** The notes of these stimuli, `n` scans having begun before them. */
  function Noted(active: string, n: nat, xs: seq<At>): seq<Note>
    decreases |xs|
  {
    if xs == [] then []
    else if Concerns(xs[0], active) then [Note(xs[0].t, n)] + Noted(active, n, xs[1..])
    else Noted(active, if xs[0].what.Tick? then n + 1 else n, xs[1..])
  }

  /** The times of these ticks. */
  function TickTimes(xs: seq<At>): seq<int>
    decreases |xs|
  {
    if xs == [] then [] else (if xs[0].what.Tick? then [xs[0].t] else []) + TickTimes(xs[1..])
  }

  /** How often the active file was made anew. */
  function Renewals(active: string, xs: seq<At>): nat
    decreases |xs|
  {
    if xs == [] then 0
    else (if xs[0].what == Notify(active, true) then 1 else 0) + Renewals(active, xs[1..])
  }

  function ScanTimes(scans: seq<Scan>): seq<int> { seq(|scans|, i requires 0 <= i < |scans| => scans[i].at) }

  /** How a stimulus ends the loop, if it does. */
  function EndBy(w: Stimulus): Option<Exit> {
    match w
    case Cancel => Some(Cancelled)
    case ErrorsClosed => Some(Closed)
    case EventsClosed => Some(Closed)
    case ErrorSeen(isNil) => if isNil then None else Some(NotifyFailed)
    case Tick(r) => if r.ScanError? then Some(ScanFailed) else None
    case _ => None
  }

  lemma Relevant(x: At, active: string)
    ensures Concerns(x, active) <==> x.what.Notify? && RelevantPath(x.what.name, active)
  {
  }

  lemma HistoryStep(active: string, d: nat, s: Loop, x: At)
    requires Enabled(s, x)
    ensures var t := Do(active, d, s, x);
      && t.notes == s.notes + (if Concerns(x, active) then [Note(x.t, |s.scans|)] else [])
      && ScanTimes(t.scans) == ScanTimes(s.scans) + (if x.what.Tick? then [x.t] else [])
      && |t.scans| == |s.scans| + (if x.what.Tick? then 1 else 0)
      && t.watched == s.watched + (if x.what == Notify(active, true) then 1 else 0)
      && t.over == EndBy(x.what)
  {
    Relevant(x, active);
  }

  lemma {:induction false} NotesRun(active: string, d: nat, s: Loop, xs: seq<At>)
    requires Runs(active, d, s, xs)
    ensures Exec(active, d, s, xs).notes == s.notes + Noted(active, |s.scans|, xs)
    decreases |xs|
  {
    if xs != [] {
      HistoryStep(active, d, s, xs[0]);
      NotesRun(active, d, Do(active, d, s, xs[0]), xs[1..]);
    }
  }

  lemma {:induction false} ScansRun(active: string, d: nat, s: Loop, xs: seq<At>)
    requires Runs(active, d, s, xs)
    ensures var t := Exec(active, d, s, xs);
      ScanTimes(t.scans) == ScanTimes(s.scans) + TickTimes(xs) && t.watched == s.watched + Renewals(active, xs)
    decreases |xs|
  {
    if xs != [] {
      HistoryStep(active, d, s, xs[0]);
      ScansRun(active, d, Do(active, d, s, xs[0]), xs[1..]);
    }
  }

  lemma {:induction false} EndRun(active: string, d: nat, s: Loop, xs: seq<At>)
    requires Runs(active, d, s, xs)
    ensures Exec(active, d, s, xs).over == if xs == [] then s.over else EndBy(xs[|xs| - 1].what)
    ensures xs != [] ==> s.over == None
    ensures forall i :: 0 <= i < |xs| - 1 ==> EndBy(xs[i].what) == None
    decreases |xs|
  {
    if xs != [] {
      HistoryStep(active, d, s, xs[0]);
      EndRun(active, d, Do(active, d, s, xs[0]), xs[1..]);
      forall i | 0 <= i < |xs| - 1 ensures EndBy(xs[i].what) == None {
        if i > 0 { assert xs[i] == xs[1..][i - 1]; }
      }
    }
  }

  /** What a run does is told by its stimuli: the notifications of an active file, each
      with the scans begun before it; a scan at the beginning and at every tick; a new
      watch whenever the active file was made anew. It is over exactly when the first
      scan failed or the last stimulus ends it, and no earlier one does. */
  lemma {:induction false} HistoryExact(active: string, d: nat, t0: int, r: ScanResult, xs: seq<At>)
    requires Runs(active, d, Begin(t0, r), xs)
    ensures var s := Exec(active, d, Begin(t0, r), xs);
      && s.notes == Noted(active, 1, xs) && ScanTimes(s.scans) == [t0] + TickTimes(xs)
      && s.watched == Renewals(active, xs)
      && s.over == (if xs != [] then EndBy(xs[|xs| - 1].what) else if r.ScanError? then Some(ScanFailed) else None)
    ensures forall i :: 0 <= i < |xs| - 1 ==> EndBy(xs[i].what) == None
  {
    NotesRun(active, d, Begin(t0, r), xs);
    ScansRun(active, d, Begin(t0, r), xs);
    EndRun(active, d, Begin(t0, r), xs);
    assert ScanTimes([Scan(t0, t0)]) == [t0];
  }

  // ---- what follows for every run ----

  /** Neither lost nor starved: `pending` holds exactly while one tick is under
      way, and the next scan after any relevant notification was due, or the tick
      under way is due, at most one debounce after it. Later notifications never
      push it back. */
  lemma NeitherLostNorStarved(active: string, d: nat, t0: int, r: ScanResult, xs: seq<At>)
    requires Runs(active, d, Begin(t0, r), xs)
    ensures var s := Exec(active, d, Begin(t0, r), xs); PendingIsTick(s) && NotLost(d, s)
  {
    BeginInv(d, t0, r);
    InvRun(active, d, Begin(t0, r), xs);
  }

  lemma NextScan(d: nat, s: Loop, k: nat)
    requires Inv(d, s) && k + 1 < |s.scans|
    ensures s.scans[k].at + d <= s.scans[k + 1].at
  {
    assert ArmedBy(d, s, k + 1, s.scans[k + 1].due);
    var i :| 0 <= i < |s.notes| && s.notes[i].before == k + 1 && s.scans[k + 1].due == s.notes[i].at + d;
    assert s.notes[i] in s.notes;
    assert NoteAfter(s, s.notes[i]);
  }

  /** Consecutive scans, the first one included, are at least one debounce apart. */
  lemma ScansApart(active: string, d: nat, t0: int, r: ScanResult, xs: seq<At>, k: nat)
    requires Runs(active, d, Begin(t0, r), xs) && k + 1 < |Exec(active, d, Begin(t0, r), xs).scans|
    ensures var s := Exec(active, d, Begin(t0, r), xs); s.scans[k].at + d <= s.scans[k + 1].at
  {
    BeginInv(d, t0, r);
    InvRun(active, d, Begin(t0, r), xs);
    NextScan(d, Exec(active, d, Begin(t0, r), xs), k);
  }

  /** With every scan after the first goes a notification of its own, so the ones
      numbered below n are no more than the notifications. */
  lemma {:induction false} OwnNotes(d: nat, s: Loop, n: nat) returns (own: set<nat>)
    requires Inv(d, s) && 0 < n <= |s.scans|
    ensures |own| == n - 1
    ensures forall i <- own :: i < |s.notes| && 0 < s.notes[i].before < n
  {
    if n == 1 {
      own := {};
    } else {
      own := OwnNotes(d, s, n - 1);
      assert ArmedBy(d, s, n - 1, s.scans[n - 1].due);
      var i: nat :| i < |s.notes| && s.notes[i].before == n - 1;
      assert i !in own;
      own := own + {i};
    }
  }

  lemma {:induction false} Below(own: set<nat>, n: nat)
    requires forall i <- own :: i < n
    ensures |own| <= n
  {
    if n == 0 {
      assert own == {};
    } else {
      Below(own - {n - 1}, n - 1);
      assert |own| <= |own - {n - 1}| + 1;
    }
  }

  /** Bursts are merged: at most one scan more than there were notifications. */
  lemma NoMoreScansThanNotes(active: string, d: nat, t0: int, r: ScanResult, xs: seq<At>)
    requires Runs(active, d, Begin(t0, r), xs)
    ensures var s := Exec(active, d, Begin(t0, r), xs); |s.scans| <= |s.notes| + 1
  {
    BeginInv(d, t0, r);
    InvRun(active, d, Begin(t0, r), xs);
    var s := Exec(active, d, Begin(t0, r), xs);
    var own := OwnNotes(d, s, |s.scans|);
    Below(own, |s.notes|);
  }

  // ---- with a punctual runtime ----

  /** The runtime delivers a due tick within `late`: no other stimulus is handled
      once the tick under way is that overdue, and the tick itself is in time. */
  predicate Punctual(active: string, d: nat, late: nat, s: Loop, xs: seq<At>)
    requires Runs(active, d, s, xs)
    decreases |xs|
  {
    xs == []
    || ((Outstanding(s).Some? ==> xs[0].t <= Outstanding(s).value + late)
        && Punctual(active, d, late, Do(active, d, s, xs[0]), xs[1..]))
  }

  predicate InTime(late: nat, s: Loop) {
    && (forall k: nat :: k < |s.scans| ==> s.scans[k].at <= s.scans[k].due + late)
    && (Outstanding(s).Some? ==> s.now <= Outstanding(s).value + late)
  }

  lemma {:induction false} PunctualRun(active: string, d: nat, late: nat, s: Loop, xs: seq<At>)
    requires Inv(d, s) && InTime(late, s) && Runs(active, d, s, xs) && Punctual(active, d, late, s, xs)
    ensures InTime(late, Exec(active, d, s, xs))
    decreases |xs|
  {
    if xs != [] {
      InvStep(active, d, s, xs[0]);
      assert InTime(late, Do(active, d, s, xs[0]));
      PunctualRun(active, d, late, Do(active, d, s, xs[0]), xs[1..]);
    }
  }

  /** Then the file is scanned within one debounce and the runtime's lateness after
      every relevant notification, however many more keep arriving. */
  lemma ScannedInTime(active: string, d: nat, late: nat, t0: int, r: ScanResult, xs: seq<At>, n: Note)
    requires Runs(active, d, Begin(t0, r), xs) && Punctual(active, d, late, Begin(t0, r), xs)
    requires n in Exec(active, d, Begin(t0, r), xs).notes
    requires n.at + d + late < Exec(active, d, Begin(t0, r), xs).now
    ensures var s := Exec(active, d, Begin(t0, r), xs);
      exists k: nat :: k < |s.scans| && n.at <= s.scans[k].at <= n.at + d + late
  {
    BeginInv(d, t0, r);
    InvRun(active, d, Begin(t0, r), xs);
    PunctualRun(active, d, late, Begin(t0, r), xs);
    var s := Exec(active, d, Begin(t0, r), xs);
    assert Served(d, s, n);
  }

  // ---- the loop itself ----

  class Runner {
    const active: string
    const debounce: nat
    var pending: bool
    var timer: Option<int>
    var chan: seq<int>
    var watched: nat
    var now: int
    var notes: seq<Note>
    var scans: seq<Scan>

    constructor (active: string)
      ensures this.active == active && debounce == 25_000_000
      ensures State(None) == Begin(0, Scanned).(scans := [])
    {
      this.active, debounce := active, DEBOUNCE;
      pending, timer, chan, watched, now, notes, scans := false, None, [], 0, 0, [], [];
    }

    function State(over: Option<Exit>): Loop
      reads this
    {
      Loop(pending, timer, chan, watched, now, over, notes, scans)
    }

    method Notified(name: string, create: bool)
      modifies this
      ensures State(None) == DoNotify(active, debounce, old(State(None)), name, create)
    {
      if !RelevantPath(name, active) {
        return;
      }
      notes := notes + [Note(now, |scans|)];
      if create && name == active {
        watched := watched + 1;
      }
      if !pending {
        pending := true;
        timer := Some(now + debounce);
      }
    }

    /** One round: the timer expires, or the select takes a case. */
    method Round(x: At) returns (over: Option<Exit>)
      requires Enabled(State(None), x)
      modifies this
      ensures State(over) == Do(active, debounce, old(State(None)), x)
    {
      now := x.t;
      over := None;
      match x.what
      case Cancel => over := Some(Cancelled);
      case ErrorsClosed => over := Some(Closed);
      case ErrorSeen(isNil) => if !isNil { over := Some(NotifyFailed); }
      case EventsClosed => over := Some(Closed);
      case Notify(name, create) => Notified(name, create);
      case Expire =>
        if chan == [] { chan := [timer.value]; }
        timer := None;
      case Tick(result) =>
        pending := false;
        scans := scans + [Scan(now, chan[0])];
        chan := chan[1..];
        if result == ScanError { over := Some(ScanFailed); }
    }

    /** Run on everything that happens to it until it returns. */
    method Run(t0: int, first: ScanResult, xs: seq<At>) returns (over: Option<Exit>)
      requires Runs(active, debounce, Begin(t0, first), xs)
      requires !pending && timer.None? && chan == [] && watched == 0 && notes == [] && scans == []
      modifies this
      ensures State(over) == Exec(active, debounce, Begin(t0, first), xs)
    {
      now := t0;
      scans := [Scan(t0, t0)];
      over := if first == ScanError then Some(ScanFailed) else None;
      var i := 0;
      while i < |xs|
        invariant i <= |xs| && Runs(active, debounce, State(over), xs[i..])
        invariant Exec(active, debounce, State(over), xs[i..]) == Exec(active, debounce, Begin(t0, first), xs)
      {
        assert xs[i..][0] == xs[i] && xs[i..][1..] == xs[i + 1..];
        over := Round(xs[i]);
        i := i + 1;
      }
    }
  }
}
