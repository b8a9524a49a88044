/** Finding a task's log file: direct paths, one glob level, then a bounded walk
    (FindLogFile, internal/tasks/logfile.go). */
module LogFile {
  import opened Text

  /** A file or a directory; a directory lists its entries in walking order. */
  datatype Node = File | Dir(entries: Listing)
  datatype Listing = Nil | Cons(name: string, node: Node, rest: Listing)

  type Path = seq<string>

  const MAX_DEPTH: nat := 3

  // ---- what is there ----

  /** The path leads, directory by directory, to a file. */
  predicate HasFile(l: Listing, p: Path) {
    l.Cons? && p != [] &&
    ((p[0] == l.name && if |p| == 1 then l.node.File? else l.node.Dir? && HasFile(l.node.entries, p[1..]))
     || HasFile(l.rest, p))
  }

  predicate Lists(l: Listing, n: string) { l.Cons? && (l.name == n || Lists(l.rest, n)) }

  predicate Distinct(l: Listing) { l.Cons? ==> !Lists(l.rest, l.name) && Distinct(l.rest) }

  function Entry(l: Listing, n: string): Option<Node> {
    if l.Nil? then None else if l.name == n then Some(l.node) else Entry(l.rest, n)
  }

  /** The log file of the task: it bears the UPID or the UPID without its final
      colon, and lies under at most three nested directories. */
  predicate IsLog(root: Option<Node>, p: Path, name: string, trimmed: string) {
    && root.Some? && root.value.Dir? && 1 <= |p| <= 4
    && (p[|p| - 1] == name || p[|p| - 1] == trimmed)
    && HasFile(root.value.entries, p)
  }

  // ---- the three stages ----

  datatype Hit = Hit(path: Path, node: Node)

  /** os.Stat of the root joined with the name: an empty name means the root. */
  function StatUnder(root: Option<Node>, n: string): Option<Hit> {
    if root.None? then None
    else if n == "" || n == "." then Some(Hit([], root.value))
    else if root.value.File? then None
    else
      var e := Entry(root.value.entries, n);
      if e.Some? then Some(Hit([n], e.value)) else None
  }

  function Candidate(root: Option<Node>, name: string, trimmed: string): Option<Hit> {
    if StatUnder(root, name).Some? then StatUnder(root, name) else StatUnder(root, trimmed)
  }

  /** The matches of root / * / n. */
  function Glob(l: Listing, n: string): seq<Hit> {
    if l.Nil? then []
    else
      var e := if l.node.Dir? then Entry(l.node.entries, n) else None;
      (if e.Some? then [Hit([l.name, n], e.value)] else []) + Glob(l.rest, n)
  }

  function FirstFile(hits: seq<Hit>): Option<Path> {
    if hits == [] then None else if hits[0].node.File? then Some(hits[0].path) else FirstFile(hits[1..])
  }

  function Under(name: string, p: Option<Path>): Option<Path> {
    if p.Some? then Some([name] + p.value) else None
  }

  /** The first match of the walk below a listing at this depth. */
  function Walk(l: Listing, depth: nat, name: string, trimmed: string): Option<Path> {
    if l.Nil? then None
    else
      var here := match l.node
        case File => if l.name == name || l.name == trimmed then Some([l.name]) else None
        case Dir(entries) => if depth >= MAX_DEPTH then None else Under(l.name, Walk(entries, depth + 1, name, trimmed));
      if here.Some? then here else Walk(l.rest, depth, name, trimmed)
  }

  function Entries(root: Option<Node>): Listing {
    if root.Some? && root.value.Dir? then root.value.entries else Nil
  }

  function Direct(root: Option<Node>, name: string, trimmed: string): Option<Path> {
    var c := Candidate(root, name, trimmed);
    if c.Some? then Some(c.value.path) else None
  }

  function OneDown(l: Listing, name: string, trimmed: string): Option<Path> {
    if FirstFile(Glob(l, name)).Some? then FirstFile(Glob(l, name)) else FirstFile(Glob(l, trimmed))
  }

  function Search(root: Option<Node>, name: string, trimmed: string): Option<Path> {
    if Direct(root, name, trimmed).Some? then Direct(root, name, trimmed)
    else if OneDown(Entries(root), name, trimmed).Some? then OneDown(Entries(root), name, trimmed)
    else Walk(Entries(root), 0, name, trimmed)
  }

  function Find(rootName: string, root: Option<Node>, upidRaw: string): Option<Path> {
    var name := TrimSpace(upidRaw);
    if rootName == "" || name == "" then None else Search(root, name, TrimSuffix(name, ':'))
  }

  // ---- against the exhaustive search ----

  lemma {:induction false} EntryIsListed(l: Listing, n: string)
    ensures Entry(l, n).Some? <==> Lists(l, n)
    ensures Entry(l, n) == Some(File) ==> HasFile(l, [n])
    ensures Distinct(l) && HasFile(l, [n]) ==> Entry(l, n) == Some(File)
    ensures HasFile(l, [n]) ==> Lists(l, n)
  {
    if l.Cons? { EntryIsListed(l.rest, n); }
  }

  lemma {:induction false} GlobSound(l: Listing, n: string, h: Hit)
    requires h in Glob(l, n) && h.node.File?
    ensures |h.path| == 2 && h.path[1] == n && HasFile(l, h.path)
  {
    var e := if l.node.Dir? then Entry(l.node.entries, n) else None;
    if e.Some? && h == Hit([l.name, n], e.value) {
      EntryIsListed(l.node.entries, n);
      assert h.path[1..] == [n];
    } else {
      GlobSound(l.rest, n, h);
    }
  }

  lemma {:induction false} FirstIsFile(hits: seq<Hit>)
    ensures FirstFile(hits).Some? ==> exists h <- hits :: h.node.File? && h.path == FirstFile(hits).value
  {
    if hits != [] && !hits[0].node.File? {
      FirstIsFile(hits[1..]);
    }
  }

  lemma GlobFinds(root: Option<Node>, n: string, name: string, trimmed: string)
    requires n == name || n == trimmed
    ensures var r := FirstFile(Glob(Entries(root), n)); r.Some? ==> IsLog(root, r.value, name, trimmed)
  {
    var hits := Glob(Entries(root), n);
    FirstIsFile(hits);
    if FirstFile(hits).Some? {
      var h :| h in hits && h.node.File? && h.path == FirstFile(hits).value;
      GlobSound(Entries(root), n, h);
    }
  }

  predicate Named(p: Path, name: string, trimmed: string) {
    p != [] && (p[|p| - 1] == name || p[|p| - 1] == trimmed)
  }

  lemma {:induction false} WalkSound(l: Listing, depth: nat, name: string, trimmed: string)
    ensures var r := Walk(l, depth, name, trimmed);
      r.Some? ==> HasFile(l, r.value) && Named(r.value, name, trimmed)
                  && (depth <= MAX_DEPTH ==> depth + |r.value| <= MAX_DEPTH + 1)
  {
    if l.Cons? {
      WalkSound(l.rest, depth, name, trimmed);
      if l.node.Dir? && depth < MAX_DEPTH {
        WalkSound(l.node.entries, depth + 1, name, trimmed);
        var below := Walk(l.node.entries, depth + 1, name, trimmed);
        if below.Some? { assert ([l.name] + below.value)[1..] == below.value; }
      }
    }
  }

  lemma {:induction false} WalkComplete(l: Listing, depth: nat, name: string, trimmed: string, p: Path)
    requires HasFile(l, p) && Named(p, name, trimmed) && depth + |p| <= MAX_DEPTH + 1
    ensures Walk(l, depth, name, trimmed).Some?
    decreases l
  {
    if HasFile(l.rest, p) {
      WalkComplete(l.rest, depth, name, trimmed, p);
    } else if |p| > 1 {
      assert p[1..][|p| - 2] == p[|p| - 1];
      WalkComplete(l.node.entries, depth + 1, name, trimmed, p[1..]);
    }
  }

  /** The first direct candidate that exists is no file of the root: it is a
      directory, or the root itself because the name is nothing but a colon or a dot. */
  predicate Misled(root: Option<Node>, name: string, trimmed: string) {
    var c := Candidate(root, name, trimmed);
    c.Some? && (c.value.path == [] || c.value.node.Dir?)
  }

  lemma CandidateIsFile(root: Option<Node>, name: string, trimmed: string)
    requires Distinct(Entries(root)) && Candidate(root, name, trimmed).Some?
    ensures IsLog(root, Candidate(root, name, trimmed).value.path, name, trimmed) <==> !Misled(root, name, trimmed)
  {
    EntryIsListed(Entries(root), name);
    EntryIsListed(Entries(root), trimmed);
  }

  /** The staged lookup against the exhaustive one. It gives nothing only when the
      log file is nowhere under three nested directories. What it gives is such a
      file exactly when no direct candidate misleads it: the first stage does not
      look whether the path it finds is a file. */
  lemma SearchExact(root: Option<Node>, name: string, trimmed: string)
    requires Distinct(Entries(root))
    ensures var r := Search(root, name, trimmed);
      && (r.None? ==> forall p: Path :: !IsLog(root, p, name, trimmed))
      && (r.Some? ==> (IsLog(root, r.value, name, trimmed) <==> !Misled(root, name, trimmed)))
  {
    var l := Entries(root);
    if Candidate(root, name, trimmed).Some? {
      CandidateIsFile(root, name, trimmed);
    } else {
      GlobFinds(root, name, name, trimmed);
      GlobFinds(root, trimmed, name, trimmed);
      WalkSound(l, 0, name, trimmed);
      forall p: Path | IsLog(root, p, name, trimmed) ensures Walk(l, 0, name, trimmed).Some? {
        WalkComplete(l, 0, name, trimmed, p);
      }
    }
  }

  /** A directory of the root that bears the name misleads every search for it, whatever
      else there is: the directory is what the search gives. */
  lemma DirectoryMisleads(l: Listing, below: Listing, name: string, trimmed: string)
    requires Distinct(l) && Entry(l, name) == Some(Dir(below)) && name != "" && name != "."
    ensures var root := Some(Dir(l));
      Misled(root, name, trimmed) && Search(root, name, trimmed) == Some([name]) && !IsLog(root, [name], name, trimmed)
  {
    EntryIsListed(l, name);
  }

  /** With no directory of the task's name in the root, the lookup succeeds exactly
      when the log file exists, and then gives one. */
  lemma FindAgrees(rootName: string, root: Option<Node>, upidRaw: string)
    requires rootName != "" && Distinct(Entries(root))
    requires var name := TrimSpace(upidRaw); name != "" && !Misled(root, name, TrimSuffix(name, ':'))
    ensures var name, r := TrimSpace(upidRaw), Find(rootName, root, upidRaw);
      var trimmed := TrimSuffix(name, ':');
      && (r.Some? <==> exists p: Path :: IsLog(root, p, name, trimmed))
      && (r.Some? ==> IsLog(root, r.value, name, trimmed))
  {
    var name := TrimSpace(upidRaw);
    SearchExact(root, name, TrimSuffix(name, ':'));
  }

  // ---- the search itself ----

  datatype Verdict = Continue | SkipDir | SkipAll

  class Finder {
    const name: string
    const trimmed: string
    var found: Option<Path>

    constructor (name: string, trimmed: string)
      ensures this.name == name && this.trimmed == trimmed && found == None
    {
      this.name, this.trimmed := name, trimmed;
      found := None;
    }

    /** The callback of the walk, on one entry. */
    method Visit(path: Path, base: string, isDir: bool, depth: nat) returns (v: Verdict)
      modifies this
      ensures isDir ==> v == if depth >= MAX_DEPTH then SkipDir else Continue
      ensures !isDir ==> v == if base == name || base == trimmed then SkipAll else Continue
      ensures found == if v == SkipAll then Some(path) else old(found)
    {
      if isDir {
        if depth >= MAX_DEPTH {
          return SkipDir;
        }
        return Continue;
      }
      if base == name || base == trimmed {
        found := Some(path);
        return SkipAll;
      }
      v := Continue;
    }

    /** The walk below one directory, at `prefix` under the root. */
    method WalkDir(l: Listing, prefix: Path) returns (stop: bool)
      requires found == None
      modifies this
      ensures found == match Walk(l, |prefix|, name, trimmed) case Some(p) => Some(prefix + p) case None => None
      ensures stop == found.Some?
      decreases l
    {
      stop := false;
      var todo := l;
      while todo.Cons? && !stop
        invariant stop == found.Some?
        invariant stop ==> Walk(l, |prefix|, name, trimmed).Some? && found.value == prefix + Walk(l, |prefix|, name, trimmed).value
        invariant !stop ==> Walk(todo, |prefix|, name, trimmed) == Walk(l, |prefix|, name, trimmed)
        invariant todo == l || todo < l
        decreases todo, !stop
      {
        var path := prefix + [todo.name];
        var v := Visit(path, todo.name, todo.node.Dir?, |prefix|);
        if v == SkipAll {
          stop := true;
        } else if todo.node.Dir? && v == Continue {
          stop := WalkDir(todo.node.entries, path);
          ghost var below := Walk(todo.node.entries, |path|, name, trimmed);
          if below.Some? { assert path + below.value == prefix + ([todo.name] + below.value); }
        }
        if !stop {
          todo := todo.rest;
        }
      }
    }
  }

  method GlobUnder(root: Option<Node>, n: string) returns (hits: seq<Hit>)
    ensures hits == Glob(Entries(root), n)
  {
    hits := [];
    var todo := if root.Some? && root.value.Dir? then root.value.entries else Nil;
    while todo.Cons?
      invariant hits + Glob(todo, n) == Glob(Entries(root), n)
      decreases todo
    {
      var e := if todo.node.Dir? then Entry(todo.node.entries, n) else None;
      if e.Some? {
        assert hits + ([Hit([todo.name, n], e.value)] + Glob(todo.rest, n))
            == hits + [Hit([todo.name, n], e.value)] + Glob(todo.rest, n);
        hits := hits + [Hit([todo.name, n], e.value)];
      }
      todo := todo.rest;
    }
  }

  method StatCandidates(root: Option<Node>, name: string, trimmed: string) returns (r: Option<Path>)
    ensures r == Direct(root, name, trimmed)
  {
    var candidates := [name, trimmed];
    for i := 0 to 2
      invariant i > 0 ==> StatUnder(root, name).None?
      invariant i > 1 ==> StatUnder(root, trimmed).None?
    {
      var c := StatUnder(root, candidates[i]);
      if c.Some? {
        return Some(c.value.path);
      }
    }
    r := None;
  }

  method FirstRegular(hits: seq<Hit>) returns (r: Option<Path>)
    ensures r == FirstFile(hits)
  {
    for k := 0 to |hits|
      invariant FirstFile(hits[k..]) == FirstFile(hits)
    {
      if !hits[k].node.Dir? {
        return Some(hits[k].path);
      }
    }
    r := None;
  }

  method GlobCandidates(root: Option<Node>, name: string, trimmed: string) returns (r: Option<Path>)
    ensures r == OneDown(Entries(root), name, trimmed)
  {
    var names := [name, trimmed];
    for i := 0 to 2
      invariant i > 0 ==> FirstFile(Glob(Entries(root), name)).None?
      invariant i > 1 ==> FirstFile(Glob(Entries(root), trimmed)).None?
    {
      var matches := GlobUnder(root, names[i]);
      r := FirstRegular(matches);
      if r.Some? {
        return;
      }
    }
    r := None;
  }

  method FindLogFile(rootName: string, root: Option<Node>, upidRaw: string) returns (r: Option<Path>)
    ensures r == Find(rootName, root, upidRaw)
  {
    if rootName == "" || upidRaw == "" {
      return None;
    }
    var name := TrimSpace(upidRaw);
    if name == "" {
      return None;
    }
    var trimmed := TrimSuffix(name, ':');
    r := StatCandidates(root, name, trimmed);
    if r.Some? {
      return;
    }
    r := GlobCandidates(root, name, trimmed);
    if r.Some? {
      return;
    }
    var finder := new Finder(name, trimmed);
    if root.Some? && root.value.Dir? {
      var _ := finder.WalkDir(root.value.entries, []);
    }
    r := finder.found;
    ghost var walked := Walk(Entries(root), 0, name, trimmed);
    assert walked.Some? ==> [] + walked.value == walked.value;
  }
}
