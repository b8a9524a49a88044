/** UPIDs, the line grammar of the task list and the worker table
    (internal/tasks/upid.go, internal/tasks/workers.go). */
module Upid {
  import opened Text
  import opened Events

  datatype UPID = UPID(
    node: string, pid: int, pstart: nat, startTime: int,
    typ: string, id: string, user: string, raw: string)

  datatype ParseError = EmptyLine | MissingPrefix | TooFewFields | BadPid | BadPStart | BadStartTime
  datatype Result<+T> = Ok(value: T) | Err(error: ParseError)

  function ParseUPID(s: string): Result<UPID> {
    if !HasPrefix(s, "UPID:") then Err(MissingPrefix)
    else
      var parts := Split(TrimSuffix(s[5..], ':'), ':');
      if |parts| < 7 then Err(TooFewFields)
      else
        var pid := ParseInt(parts[1], 16, HALF32);
        var pstart := ParseUint(parts[2], 16, FULL64);
        var start := ParseInt(parts[3], 16, HALF64);
        if pid.None? then Err(BadPid)
        else if pstart.None? then Err(BadPStart)
        else if start.None? then Err(BadStartTime)
        else Ok(UPID(parts[0], pid.value, pstart.value, start.value, parts[4], parts[5], parts[6], s))
  }

  lemma RawIsInput(s: string)
    requires ParseUPID(s).Ok?
    ensures ParseUPID(s).value.raw == s && s != ""
  {
  }

  function VMID(u: UPID): int {
    if u.id == "" then -1 else
      match Atoi(u.id)
      case Some(n) => n
      case None => -1
  }

  /** A guest number in decimal is read as it is written, if it fits 64 bits. */
  lemma VmidDecimal(u: UPID, n: nat)
    requires u.id == Digits(n, 10)
    ensures VMID(u) == if n < 0x8000_0000_0000_0000 then n else -1
  {
    DigitsValue(n, 10);
    assert DigitOf('+') == 16 && DigitOf('-') == 16;
    assert u.id[0] in u.id;
  }

  /** Anything but a signed decimal number gives -1. */
  lemma VmidOther(u: UPID)
    requires u.id == "" || exists c <- u.id :: !('0' <= c <= '9') && c != '+' && c != '-'
    ensures VMID(u) == -1
  {
    if u.id != "" {
      var c :| c in u.id && !('0' <= c <= '9') && c != '+' && c != '-';
      var i :| 0 <= i < |u.id| && u.id[i] == c;
      assert DigitOf(c) >= 10;
      assert i > 0 ==> u.id[1..][i - 1] == c;
    }
  }

  // ---- the UPID grammar ----

  /** The texts between the colons of a UPID: the prefix before them, at least seven
      of them, and one colon after them that may be missing. */
  predicate Colons(s: string, parts: seq<string>) {
    && |parts| >= 7 && (forall p <- parts :: Free(p, ':'))
    && (s == "UPID:" + Join(parts, ":") + ":" || (s == "UPID:" + Join(parts, ":") && parts[|parts| - 1] != ""))
  }

  predicate NumbersOk(parts: seq<string>)
    requires |parts| >= 7
  {
    ParseInt(parts[1], 16, HALF32).Some? && ParseUint(parts[2], 16, FULL64).Some? && ParseInt(parts[3], 16, HALF64).Some?
  }

  lemma {:induction false} JoinLast(parts: seq<string>, sep: char)
    requires parts != [] && parts[|parts| - 1] != "" && forall p <- parts :: Free(p, sep)
    ensures var j := Join(parts, [sep]); j != "" && j[|j| - 1] != sep
  {
    if |parts| == 1 {
      assert parts[0] in parts;
    } else {
      forall p | p in parts[1..] ensures Free(p, sep) { assert p in parts; }
      JoinLast(parts[1..], sep);
    }
  }

  /** The body of such a text is what the parser splits. */
  lemma ColonsSplit(s: string, parts: seq<string>)
    requires Colons(s, parts)
    ensures HasPrefix(s, "UPID:") && Split(TrimSuffix(s[5..], ':'), ':') == parts
  {
    var body := Join(parts, ":");
    SplitJoin(parts, ':');
    if s == "UPID:" + body + ":" {
      assert s[5..] == body + ":";
      assert TrimSuffix(body + ":", ':') == body;
    } else {
      assert s[5..] == body;
      JoinLast(parts, ':');
    }
  }

  lemma SplitColons(s: string)
    requires HasPrefix(s, "UPID:") && |Split(TrimSuffix(s[5..], ':'), ':')| >= 7
    ensures Colons(s, Split(TrimSuffix(s[5..], ':'), ':'))
  {
    var body := TrimSuffix(s[5..], ':');
    SplitParts(body, ':');
    JoinSplit(body, ':');
    Rejoined(s, body);
    ColonsOf(s, body, Split(body, ':'));
  }

  lemma ColonsOf(s: string, body: string, parts: seq<string>)
    requires |parts| >= 7 && Join(parts, ":") == body && forall p <- parts :: Free(p, ':')
    requires s == "UPID:" + body + ":" || (s == "UPID:" + body && (body == "" || body[|body| - 1] != ':'))
    ensures Colons(s, parts)
  {
    if parts[|parts| - 1] == "" { JoinEnds(parts, ':'); }
  }

  lemma Rejoined(s: string, body: string)
    requires HasPrefix(s, "UPID:") && body == TrimSuffix(s[5..], ':')
    ensures s == "UPID:" + body + ":" || (s == "UPID:" + body && (body == "" || body[|body| - 1] != ':'))
  {
    assert s == "UPID:" + s[5..];
    if body != s[5..] { assert s[5..] == body + ":"; }
  }

  lemma {:induction false} JoinEnds(parts: seq<string>, sep: char)
    requires |parts| >= 2 && parts[|parts| - 1] == ""
    ensures var j := Join(parts, [sep]); j != "" && j[|j| - 1] == sep
  {
    if |parts| > 2 { JoinEnds(parts[1..], sep); }
  }

  /** Exactly which texts are UPIDs, and what is read from them: at least seven fields
      of which further ones are ignored, and three hexadecimal numbers in range. */
  lemma ParseExact(s: string, parts: seq<string>)
    ensures ParseUPID(s).Ok? ==> exists ps :: Colons(s, ps)
    ensures Colons(s, parts) ==> (ParseUPID(s).Ok? <==> NumbersOk(parts))
    ensures Colons(s, parts) && NumbersOk(parts) ==>
      ParseUPID(s) == Ok(UPID(parts[0], ParseInt(parts[1], 16, HALF32).value, ParseUint(parts[2], 16, FULL64).value,
                              ParseInt(parts[3], 16, HALF64).value, parts[4], parts[5], parts[6], s))
  {
    if ParseUPID(s).Ok? { SplitColons(s); }
    if Colons(s, parts) { ColonsSplit(s, parts); }
  }

  function ParseActiveLine(line: string): Result<(UPID, string)> {
    var line := TrimRight(line, {'\r', '\n'});
    if line == "" then Err(EmptyLine)
    else
      var (head, rest, _) := Cut(line, ' ');
      match ParseUPID(head)
      case Err(e) => Err(e)
      case Ok(u) => Ok((u, StatusTail(rest)))
  }

  function StatusTail(rest: string): string {
    var rest := TrimSpace(rest);
    if rest == "" || rest == "0" then ""
    else
      var fields := Fields(rest);
      if |fields| >= 3 && fields[0] == "1" && IsHex(fields[1]) then Join(fields[2..], " ")
      else if |fields| >= 2 && IsHex(fields[0]) then Join(fields[1..], " ")
      else rest
  }

  predicate IsHex(s: string) { s != "" && AllDigits(s, 16) }

  // ---- the worker table ----

  function WorkerType(t: string): Option<(Kind, Action)> {
    match t
    case "qmstart" => Some((QEMU, Start))
    case "qmstop" => Some((QEMU, Stop))
    case "qmshutdown" => Some((QEMU, Shutdown))
    case "qmreboot" => Some((QEMU, Reboot))
    case "qmreset" => Some((QEMU, Reset))
    case "qmsuspend" => Some((QEMU, Suspend))
    case "qmresume" => Some((QEMU, Resume))
    case "qmigrate" => Some((QEMU, Migrate))
    case "qmclone" => Some((QEMU, Clone))
    case "qmcreate" => Some((QEMU, Create))
    case "qmdestroy" => Some((QEMU, Destroy))
    case "qmtemplate" => Some((QEMU, Template))
    case "vzstart" => Some((LXC, Start))
    case "vzstop" => Some((LXC, Stop))
    case "vzshutdown" => Some((LXC, Shutdown))
    case "vzreboot" => Some((LXC, Reboot))
    case "vzsuspend" => Some((LXC, Suspend))
    case "vzresume" => Some((LXC, Resume))
    case "vzmigrate" => Some((LXC, Migrate))
    case "vzclone" => Some((LXC, Clone))
    case "vzcreate" => Some((LXC, Create))
    case "vzdestroy" => Some((LXC, Destroy))
    case _ => None
  }

  predicate HasWorker(k: Kind, a: Action) {
    && k != NoKind && a != NoAction && a != State
    && (k == LXC ==> a != Reset && a != Template)
  }

  /** A worker is named after its kind and action; only the QEMU migration drops a letter. */
  function WorkerName(k: Kind, a: Action): string {
    if k == QEMU && a == Migrate then "qmigrate" else (if k == QEMU then "qm" else "vz") + ActionName(a)
  }

  lemma QemuWorkers(a: Action)
    requires HasWorker(QEMU, a)
    ensures WorkerType(WorkerName(QEMU, a)) == Some((QEMU, a))
    ensures forall t: string :: WorkerType(t) == Some((QEMU, a)) ==> t == WorkerName(QEMU, a)
  {
    match a
    case Start => assert "qm" + "start" == "qmstart";
    case Stop => assert "qm" + "stop" == "qmstop";
    case Shutdown => assert "qm" + "shutdown" == "qmshutdown";
    case Reboot => assert "qm" + "reboot" == "qmreboot";
    case Reset => assert "qm" + "reset" == "qmreset";
    case Suspend => assert "qm" + "suspend" == "qmsuspend";
    case Resume => assert "qm" + "resume" == "qmresume";
    case Clone => assert "qm" + "clone" == "qmclone";
    case Create => assert "qm" + "create" == "qmcreate";
    case Destroy => assert "qm" + "destroy" == "qmdestroy";
    case Template => assert "qm" + "template" == "qmtemplate";
    case Migrate =>
  }

  lemma LxcWorkers(a: Action)
    requires HasWorker(LXC, a)
    ensures WorkerType(WorkerName(LXC, a)) == Some((LXC, a))
    ensures forall t: string :: WorkerType(t) == Some((LXC, a)) ==> t == WorkerName(LXC, a)
  {
    match a
    case Start => assert "vz" + "start" == "vzstart";
    case Stop => assert "vz" + "stop" == "vzstop";
    case Shutdown => assert "vz" + "shutdown" == "vzshutdown";
    case Reboot => assert "vz" + "reboot" == "vzreboot";
    case Suspend => assert "vz" + "suspend" == "vzsuspend";
    case Resume => assert "vz" + "resume" == "vzresume";
    case Migrate => assert "vz" + "migrate" == "vzmigrate";
    case Clone => assert "vz" + "clone" == "vzclone";
    case Create => assert "vz" + "create" == "vzcreate";
    case Destroy => assert "vz" + "destroy" == "vzdestroy";
  }

  lemma WorkersOnly(t: string)
    ensures WorkerType(t).Some? ==> HasWorker(WorkerType(t).value.0, WorkerType(t).value.1)
  {
  }

  /** The worker table holds exactly these names. */
  lemma WorkerTable(t: string, k: Kind, a: Action)
    ensures WorkerType(t) == Some((k, a)) <==> HasWorker(k, a) && t == WorkerName(k, a)
  {
    WorkersOnly(t);
    if HasWorker(k, a) {
      if k == QEMU { QemuWorkers(a); } else { LxcWorkers(a); }
    }
  }

  // ---- printing, and reading back ----

  function Hex8(n: nat): string { Padded(Digits(n, 16), 8) }

  function Print(node: string, pid: nat, pstart: nat, start: nat, typ: string, id: string, user: string): string {
    "UPID:" + Join([node, Hex8(pid), Hex8(pstart), Hex8(start), typ, id, user], ":") + ":"
  }

  predicate Plain(s: string) { Free(s, ':') && Free(s, ' ') }

  /** A UPID as PVE writes it: numbers in range and printed in hexadecimal, text
      fields without colon or space. */
  predicate WellFormed(u: UPID) {
    && Plain(u.node) && Plain(u.typ) && Plain(u.id) && Plain(u.user)
    && 0 <= u.pid < HALF32 && u.pstart < FULL64 && 0 <= u.startTime < HALF64
    && u.raw == Print(u.node, u.pid, u.pstart, u.startTime, u.typ, u.id, u.user)
  }

  lemma Hex8Value(n: nat)
    ensures AllDigits(Hex8(n), 16) && Value(Hex8(n), 16) == n && Hex8(n) != "" && Plain(Hex8(n))
  {
    DigitsValue(n, 16);
    PaddedValue(Digits(n, 16), 8, 16);
    assert DigitOf(':') == 16 && DigitOf(' ') == 16;
  }

  lemma Hex8Parses(n: nat, half: nat)
    requires n < half
    ensures ParseInt(Hex8(n), 16, half) == Some(n) && ParseUint(Hex8(n), 16, half) == Some(n)
  {
    Hex8Value(n);
    assert DigitOf('+') == 16 && DigitOf('-') == 16;
    assert Hex8(n)[0] in Hex8(n);
  }

  lemma {:induction false} JoinFree(parts: seq<string>, sep: string, c: char)
    requires Free(sep, c) && forall p <- parts :: Free(p, c)
    ensures Free(Join(parts, sep), c)
  {
    if parts != [] {
      assert Free(parts[0], c);
      JoinFree(parts[1..], sep, c);
    }
  }

  function Parts(u: UPID): (r: seq<string>)
    requires u.pid >= 0 && u.startTime >= 0
    ensures |r| == 7
  {
    [u.node, Hex8(u.pid), Hex8(u.pstart), Hex8(u.startTime), u.typ, u.id, u.user]
  }

  lemma PartsSplit(u: UPID)
    requires WellFormed(u)
    ensures Split(Join(Parts(u), ":"), ':') == Parts(u)
    ensures Free(Join(Parts(u), ":"), ' ')
  {
    Hex8Value(u.pid);
    Hex8Value(u.pstart);
    Hex8Value(u.startTime);
    SplitJoin(Parts(u), ':');
    JoinFree(Parts(u), ":", ' ');
  }

  /** Printing a well-formed UPID and parsing it gives the UPID back. */
  lemma {:induction false} UpidRoundTrip(u: UPID)
    requires WellFormed(u)
    ensures ParseUPID(u.raw) == Ok(u)
    ensures Free(u.raw, ' ') && u.raw != "" && u.raw[|u.raw| - 1] == ':'
  {
    var parts := Parts(u);
    var body := Join(parts, ":");
    assert u.raw[5..] == body + ":";
    assert TrimSuffix(body + ":", ':') == body;
    PartsSplit(u);
    Hex8Parses(u.pid, HALF32);
    Hex8Parses(u.pstart, FULL64);
    Hex8Parses(u.startTime, HALF64);
  }

  lemma {:induction false} TrimRightKeeps(a: string, t: string, cs: set<char>)
    requires a != "" && a[|a| - 1] !in cs
    ensures TrimRight(a + t, cs) == a + TrimRight(t, cs)
  {
    if t == "" {
      assert a + t == a;
    } else if t[|t| - 1] in cs {
      assert (a + t)[..|a + t| - 1] == a + t[..|t| - 1];
      TrimRightKeeps(a, t[..|t| - 1], cs);
    }
  }

  function Spaced(a: string, b: string): string { a + " " + b }

  lemma BareLine(u: UPID)
    requires WellFormed(u)
    ensures ParseActiveLine(u.raw) == Ok((u, ""))
  {
    UpidRoundTrip(u);
    CutAt(u.raw, ' ', "");
    assert TrimRight(u.raw, {'\r', '\n'}) == u.raw;
    assert StatusTail("") == "";
  }

  lemma {:induction false} LineWithTail(u: UPID, tail: string)
    requires WellFormed(u)
    ensures ParseActiveLine(Spaced(u.raw, tail)) == Ok((u, StatusTail(TrimRight(tail, {'\r', '\n'}))))
  {
    UpidRoundTrip(u);
    var t := TrimRight(tail, {'\r', '\n'});
    TrimRightKeeps(u.raw + " ", tail, {'\r', '\n'});
    HeadAndTail(u, t);
  }

  lemma ZeroTail()
    ensures StatusTail(TrimRight("0", {'\r', '\n'})) == ""
  {
  }

  lemma HeadAndTail(u: UPID, t: string)
    requires ParseUPID(u.raw) == Ok(u) && Free(u.raw, ' ')
    ensures Cut(u.raw + " " + t, ' ') == (u.raw, t, true)
  {
    CutAt(u.raw, ' ', t);
  }

  function Normal(status: string): string { Join(Fields(status), " ") }

  /** What the parser makes of a tail with at least two fields. */
  lemma TailFields(tail: string)
    requires |Fields(tail)| >= 2
    ensures var fields := Fields(tail);
      StatusTail(TrimRight(tail, {'\r', '\n'})) ==
        if |fields| >= 3 && fields[0] == "1" && IsHex(fields[1]) then Join(fields[2..], " ")
        else if IsHex(fields[0]) then Join(fields[1..], " ")
        else TrimSpace(TrimRight(tail, {'\r', '\n'}))
  {
    var t := TrimRight(tail, {'\r', '\n'});
    FieldsTrimRight(tail, {'\r', '\n'});
    FieldsTrimSpace(t);
    assert Fields("0") == ["0"] by { FieldsWord("0", ""); assert "0" + "" == "0"; }
  }

  lemma HexIsWord(h: string)
    requires IsHex(h)
    ensures IsWord(h)
  {
  }

  lemma TwoFields(w: string, s: string)
    requires IsWord(w)
    ensures Fields(Spaced(w, s)) == [w] + Fields(s)
  {
    FieldsWord(w, " " + s);
    assert (" " + s)[1..] == s;
    assert w + " " + s == w + (" " + s);
  }

  lemma ThreeFields(v: string, w: string, s: string)
    requires IsWord(v) && IsWord(w)
    ensures Fields(Spaced(v, Spaced(w, s))) == [v, w] + Fields(s)
    ensures ([v, w] + Fields(s))[2..] == Fields(s) && ([v, w] + Fields(s))[1..] == [w] + Fields(s)
  {
    TwoFields(w, s);
    TwoFields(v, Spaced(w, s));
  }

  lemma {:induction false} WordsNonEmpty(s: string)
    ensures forall w <- Fields(s) :: w != ""
    decreases |s|
  {
    if s != "" {
      if IsSpace(s[0]) { WordsNonEmpty(s[1..]); } else { WordsNonEmpty(s[WordLen(s)..]); }
    }
  }

  lemma {:induction false} JoinGrows(w: string, rest: seq<string>)
    requires w != "" && rest != []
    ensures |Join([w] + rest, " ")| > |Join(rest, " ")|
  {
  }

  /** The running forms carry no status. */
  lemma {:induction false} RunningForms(u: UPID)
    requires WellFormed(u)
    ensures ParseActiveLine(u.raw) == Ok((u, ""))
    ensures ParseActiveLine(Spaced(u.raw, "0")) == Ok((u, ""))
  {
    BareLine(u);
    LineWithTail(u, "0");
    ZeroTail();
  }

  /** The saved form `1 <hex> <status>` reads back as the same UPID; the status
      comes back white-space normalised exactly when there is one. (Without
      one, the end time itself is taken for the status.) */
  lemma SavedForm(u: UPID, end: string, status: string)
    requires WellFormed(u) && IsHex(end)
    ensures var r := ParseActiveLine(Spaced(u.raw, Spaced("1", Spaced(end, status))));
      && r.Ok? && r.value.0 == u
      && (r.value.1 == Normal(status) <==> Fields(status) != [])
      && (Fields(status) == [] ==> r.value.1 == end)
  {
    var tail := Spaced("1", Spaced(end, status));
    LineWithTail(u, tail);
    HexIsWord(end);
    assert IsHex("1");
    HexIsWord("1");
    ThreeFields("1", end, status);
    TailFields(tail);
  }

  lemma {:induction false} NoFields(s: string)
    requires Fields(s) == []
    ensures s != "" ==> IsSpace(s[|s| - 1])
    decreases |s|
  {
    if |s| > 1 { NoFields(s[1..]); }
  }

  /** A trimmed text of one field is that field. */
  lemma OneField(s: string, w: string)
    requires Fields(s) == [w] && s != "" && !IsSpace(s[0]) && !IsSpace(s[|s| - 1])
    ensures s == w
  {
    var n := WordLen(s);
    if n < |s| {
      NoFields(s[n..]);
    }
    assert s[..n] == w;
  }

  lemma TrimEnds(s: string)
    ensures var t := TrimSpace(s); t != "" ==> !IsSpace(t[0]) && !IsSpace(t[|t| - 1])
  {
    TrimHead(TrimLeft(s, SPACES), SPACES);
  }

  lemma {:induction false} TrimHead(s: string, cs: set<char>)
    ensures TrimRight(s, cs) <= s
  {
    if s != "" && s[|s| - 1] in cs { TrimHead(s[..|s| - 1], cs); }
  }

  /** What the parser makes of a tail with a single field. */
  lemma OneFieldTail(tail: string, w: string)
    requires Fields(tail) == [w]
    ensures StatusTail(TrimRight(tail, {'\r', '\n'})) == if w == "0" then "" else w
  {
    var t := TrimRight(tail, {'\r', '\n'});
    FieldsTrimRight(tail, {'\r', '\n'});
    FieldsTrimSpace(t);
    TrimEnds(t);
    OneField(TrimSpace(t), w);
  }

  predicate LooksSaved(end: string, status: string) {
    end == "1" && |Fields(status)| >= 2 && IsHex(Fields(status)[0])
  }

  /** The index form `<hex> <status>` reads back as the same UPID. A status survives
      exactly when the line cannot be taken for the saved form; a blank one exactly
      when the end time is `0`, for else the end time is taken for the status. */
  lemma {:induction false} IndexForm(u: UPID, end: string, status: string)
    requires WellFormed(u) && IsHex(end)
    ensures var r := ParseActiveLine(Spaced(u.raw, Spaced(end, status)));
      && r.Ok? && r.value.0 == u
      && (r.value.1 == Normal(status) <==> if Fields(status) == [] then end == "0" else !LooksSaved(end, status))
      && (Fields(status) == [] && end != "0" ==> r.value.1 == end)
  {
    var tail := Spaced(end, status);
    LineWithTail(u, tail);
    HexIsWord(end);
    TwoFields(end, status);
    if Fields(status) == [] {
      OneFieldTail(tail, end);
    } else {
      IndexTail(end, status);
    }
  }

  lemma {:induction false} TrimTwice(s: string)
    ensures TrimSpace(TrimRight(s, {'\r', '\n'})) == TrimSpace(s)
  {
    if s != "" && s[|s| - 1] in {'\r', '\n'} {
      var n := |s| - 1;
      TrimTwice(s[..n]);
      TrimSpaceTrailing(s[..n], [s[n]]);
      assert s[..n] + [s[n]] == s;
    }
  }

  lemma {:induction false} WordAhead(s: string)
    ensures forall c <- s[..WordLen(s)] :: !IsSpace(c)
  {
    if s != "" && !IsSpace(s[0]) {
      WordAhead(s[1..]);
      assert s[..WordLen(s)] == [s[0]] + s[1..][..WordLen(s[1..])];
    }
  }

  lemma {:induction false} FieldsAreWords(s: string)
    ensures forall w <- Fields(s) :: IsWord(w)
    decreases |s|
  {
    if s != "" {
      WordAhead(s);
      if IsSpace(s[0]) { FieldsAreWords(s[1..]); } else { FieldsAreWords(s[WordLen(s)..]); }
    }
  }

  lemma WordFields(w: string)
    requires IsWord(w)
    ensures Fields(w) == [w]
  {
    FieldsWord(w, "");
    assert w + "" == w;
  }

  /** A trailer that does not begin with a hexadecimal word is the status itself, less the
      white space around it; one of a single word is that word, unless it is `0`; a blank
      one is none. */
  lemma {:induction false} OtherForms(u: UPID, tail: string)
    requires WellFormed(u)
    requires |Fields(tail)| >= 2 ==> !IsHex(Fields(tail)[0])
    ensures var r := ParseActiveLine(Spaced(u.raw, tail));
      && r.Ok? && r.value.0 == u
      && Fields(r.value.1) == (if Fields(tail) == ["0"] then [] else Fields(tail))
      && (r.value.1 != "" ==> !IsSpace(r.value.1[0]) && !IsSpace(r.value.1[|r.value.1| - 1]))
      && (|Fields(tail)| >= 2 ==> r.value.1 == TrimSpace(tail))
  {
    LineWithTail(u, tail);
    var t := TrimRight(tail, {'\r', '\n'});
    FieldsTrimRight(tail, {'\r', '\n'});
    FieldsTrimSpace(t);
    TrimEnds(t);
    if |Fields(tail)| >= 2 {
      TailFields(tail);
      TrimTwice(tail);
    } else if |Fields(tail)| == 1 {
      OneFieldTail(tail, Fields(tail)[0]);
      FieldsAreWords(tail);
      WordFields(Fields(tail)[0]);
    } else {
      NoFields(TrimSpace(t));
    }
  }

  lemma IndexTail(end: string, status: string)
    requires IsHex(end) && Fields(status) != [] && Fields(Spaced(end, status)) == [end] + Fields(status)
    ensures StatusTail(TrimRight(Spaced(end, status), {'\r', '\n'})) == Normal(status) <==> !LooksSaved(end, status)
  {
    var tail, words := Spaced(end, status), Fields(status);
    TailFields(tail);
    assert Fields(tail)[1..] == words;
    if LooksSaved(end, status) {
      assert Fields(tail)[2..] == words[1..];
      WordsNonEmpty(status);
      JoinGrows(words[0], words[1..]);
      assert [words[0]] + words[1..] == words;
    }
  }
}
