/** The route manager: it keeps the embedded server's cluster routes in step with
    the membership file (internal/bus/routes.go, internal/bus/server.go). */
module Routes {
  import opened Text
  import opened Lists
  import opened Members

  // ---- sorting by bytes ----

  predicate Leq(a: string, b: string) {
    a == "" || (b != "" && (a[0] < b[0] || (a[0] == b[0] && Leq(a[1..], b[1..]))))
  }

  lemma {:induction false} LeqTotal(a: string, b: string)
    ensures Leq(a, b) || Leq(b, a)
    ensures Leq(a, b) && Leq(b, a) ==> a == b
  {
    if a != "" && b != "" && a[0] == b[0] {
      LeqTotal(a[1..], b[1..]);
      assert a == [a[0]] + a[1..] && b == [b[0]] + b[1..];
    }
  }

  lemma {:induction false} LeqTransitive(a: string, b: string, c: string)
    requires Leq(a, b) && Leq(b, c)
    ensures Leq(a, c)
  {
    if a != "" && a[0] == b[0] && b[0] == c[0] {
      LeqTransitive(a[1..], b[1..], c[1..]);
    }
  }

  predicate Sorted(xs: seq<string>) {
    forall i, j :: 0 <= i < j < |xs| ==> Leq(xs[i], xs[j])
  }

  function Insert(x: string, xs: seq<string>): seq<string> {
    if xs == [] then [x]
    else if Leq(x, xs[0]) then [x] + xs
    else [xs[0]] + Insert(x, xs[1..])
  }

  /** What sort.Strings makes of the list. */
  function Sort(xs: seq<string>): seq<string> {
    if xs == [] then [] else Insert(xs[0], Sort(xs[1..]))
  }

  lemma {:induction false} InsertSorts(x: string, xs: seq<string>)
    requires Sorted(xs)
    ensures Sorted(Insert(x, xs)) && multiset(Insert(x, xs)) == multiset([x]) + multiset(xs)
  {
    if xs != [] {
      var rest := xs[1..];
      assert xs == [xs[0]] + rest;
      if Leq(x, xs[0]) {
        forall j | 0 <= j < |xs| ensures Leq(x, xs[j]) { if j > 0 { LeqTransitive(x, xs[0], xs[j]); } }
      } else {
        LeqTotal(x, xs[0]);
        InsertSorts(x, rest);
        forall y | y in Insert(x, rest) ensures Leq(xs[0], y) {
          assert y in multiset(Insert(x, rest));
          assert y == x || y in rest;
        }
      }
    }
  }

  lemma {:induction false} SortSorts(xs: seq<string>)
    ensures Sorted(Sort(xs)) && multiset(Sort(xs)) == multiset(xs)
  {
    if xs != [] {
      SortSorts(xs[1..]);
      InsertSorts(xs[0], Sort(xs[1..]));
      assert xs == [xs[0]] + xs[1..];
    }
  }

  lemma SameLength<T>(a: seq<T>, b: seq<T>)
    requires multiset(a) == multiset(b)
    ensures |a| == |b|
  {
    assert |multiset(a)| == |multiset(b)|;
  }

  lemma TailBag<T>(a: seq<T>)
    requires a != []
    ensures multiset(a[1..]) == multiset(a) - multiset([a[0]])
  {
    assert a == [a[0]] + a[1..];
  }

  lemma SameFirst(a: seq<string>, b: seq<string>)
    requires a != [] && b != [] && Sorted(a) && Sorted(b) && multiset(a) == multiset(b)
    ensures a[0] == b[0]
  {
    assert a[0] in multiset(b) && b[0] in multiset(a);
    SmallestFirst(a, b[0]);
    SmallestFirst(b, a[0]);
    LeqTotal(a[0], b[0]);
  }

  lemma {:induction false} SortedUnique(a: seq<string>, b: seq<string>)
    requires Sorted(a) && Sorted(b) && multiset(a) == multiset(b)
    ensures a == b
  {
    SameLength(a, b);
    if a != [] {
      SameFirst(a, b);
      TailBag(a);
      TailBag(b);
      SortedUnique(a[1..], b[1..]);
      assert a == [a[0]] + a[1..] && b == [b[0]] + b[1..];
    }
  }

  lemma SmallestFirst(xs: seq<string>, x: string)
    requires Sorted(xs) && x in xs
    ensures Leq(xs[0], x)
  {
    LeqTotal(x, x);
  }

  // ---- the wanted addresses ----

  function Ips(peers: seq<Node>): seq<string> {
    if peers == [] then []
    else Ips(peers[..|peers| - 1]) + (if peers[|peers| - 1].ip == "" then [] else [peers[|peers| - 1].ip])
  }

  function AddressOf(m: File): string -> seq<string> {
    x => if x in m.nodes && IsPeer(m, x) && m.nodes[x].ip != "" then [m.nodes[x].ip] else []
  }

  lemma {:induction false} IpsOfPeers(m: File, order: seq<string>)
    requires Within(order, m.nodes.Keys)
    ensures Ips(PeersIn(m, order)) == Pick(AddressOf(m), order)
  {
    if order != [] {
      var k := |order| - 1;
      assert order[k] in order;
      IpsOfPeers(m, order[..k]);
      var was, x := PeersIn(m, order[..k]), m.nodes[order[k]];
      assert (was + [x])[..|was|] == was;
      assert was + [] == was;
    }
  }

  /** The sorted addresses of the file's peers, whatever order the map yields. */
  ghost predicate Wanted(m: File, ips: seq<string>) {
    exists order :: Visits(order, m.nodes.Keys) && ips == Sort(Ips(PeersIn(m, order)))
  }

  /** The map's iteration order makes no difference to the routes. */
  lemma WantedUnique(m: File, a: seq<string>, b: seq<string>)
    requires Wanted(m, a) && Wanted(m, b)
    ensures a == b
  {
    var o :| Visits(o, m.nodes.Keys) && a == Sort(Ips(PeersIn(m, o)));
    var p :| Visits(p, m.nodes.Keys) && b == Sort(Ips(PeersIn(m, p)));
    SamePick(AddressOf(m), o, p, m.nodes.Keys);
    IpsOfPeers(m, o);
    IpsOfPeers(m, p);
    SortSorts(Ips(PeersIn(m, o)));
    SortSorts(Ips(PeersIn(m, p)));
    SortedUnique(a, b);
  }

  /** The online nodes other than this one among these that have the address. */
  function PeersAt(m: File, names: set<string>, ip: string): set<string>
    requires names <= m.nodes.Keys
  {
    set x <- names | x != m.nodeName && m.nodes[x].online != 0 && m.nodes[x].ip == ip
  }

  lemma PeersAtWithout(m: File, names: set<string>, x: string, ip: string)
    requires names <= m.nodes.Keys && x in names && ip != ""
    ensures |PeersAt(m, names, ip)| == |PeersAt(m, names - {x}, ip)| + multiset(AddressOf(m)(x))[ip]
  {
    var was, all := PeersAt(m, names - {x}, ip), PeersAt(m, names, ip);
    assert x !in was;
    if x in all {
      assert all == was + {x};
    } else {
      assert all == was;
    }
  }

  lemma {:induction false} AddressCount(m: File, order: seq<string>, names: set<string>, ip: string)
    requires Visits(order, names) && names <= m.nodes.Keys && ip != ""
    ensures multiset(Pick(AddressOf(m), order))[ip] == |PeersAt(m, names, ip)|
    decreases |order|
  {
    if order == [] {
      assert names == {};
    } else {
      var k := |order| - 1;
      var x := order[k];
      assert x in order && Without(order, k) == order[..k];
      VisitsWithout(order, names, k);
      AddressCount(m, order[..k], names - {x}, ip);
      PeersAtWithout(m, names, x, ip);
      BagAdd(Pick(AddressOf(m), order[..k]), AddressOf(m)(x), ip);
    }
  }

  lemma BagAdd<T>(a: seq<T>, b: seq<T>, x: T)
    ensures multiset(a + b)[x] == multiset(a)[x] + multiset(b)[x]
  {
  }

  lemma {:induction false} NoEmptyAddress(m: File, order: seq<string>)
    ensures "" !in Pick(AddressOf(m), order)
  {
    if order != [] { NoEmptyAddress(m, order[..|order| - 1]); }
  }

  /** The wanted addresses are in order, and hold each address but the empty one as
      often as there are online nodes with it other than this one. */
  lemma {:induction false} WantedAre(m: File, ips: seq<string>, ip: string)
    requires Wanted(m, ips)
    ensures Sorted(ips)
    ensures multiset(ips)[ip] == if ip == "" then 0 else |PeersAt(m, m.nodes.Keys, ip)|
    ensures ip in ips <==> ip != "" && exists x <- m.nodes.Keys :: x != m.nodeName && m.nodes[x].online != 0 && m.nodes[x].ip == ip
  {
    var o :| Visits(o, m.nodes.Keys) && ips == Sort(Ips(PeersIn(m, o)));
    SortSorts(Ips(PeersIn(m, o)));
    IpsOfPeers(m, o);
    if ip == "" {
      NoEmptyAddress(m, o);
      assert multiset(ips)[ip] == multiset(Pick(AddressOf(m), o))[ip] == 0;
    } else {
      AddressCount(m, o, m.nodes.Keys, ip);
    }
    assert ip in ips <==> multiset(ips)[ip] > 0;
    if x :| x in m.nodes.Keys && x != m.nodeName && m.nodes[x].online != 0 && m.nodes[x].ip == ip {
      assert x in PeersAt(m, m.nodes.Keys, ip);
    }
    if PeersAt(m, m.nodes.Keys, ip) != {} {
      var x :| x in PeersAt(m, m.nodes.Keys, ip);
    }
  }

  // ---- the key ----

  function Key(ips: seq<string>): string { Join(ips, ",") }

  function Decode(key: string): seq<string> { if key == "" then [] else Split(key, ',') }

  predicate PlainIps(ips: seq<string>) { forall ip <- ips :: ip != "" && Free(ip, ',') }

  /** The key determines the addresses exactly as long as none holds a comma. */
  lemma DecodeKey(ips: seq<string>)
    requires NonEmptyIps(ips)
    ensures Decode(Key(ips)) == ips <==> PlainIps(ips)
  {
    if ips != [] {
      assert ips[0] in ips;
      assert Key(ips) != "";
      if PlainIps(ips) {
        SplitJoin(ips, ',');
      }
      SplitParts(Key(ips), ',');
    }
  }

  predicate NonEmptyIps(ips: seq<string>) { forall ip <- ips :: ip != "" }

  /** Any two or more addresses share their key with a single one that is that key,
      commas included. */
  lemma CommaCollides(ips: seq<string>)
    requires |ips| >= 2 && NonEmptyIps(ips)
    ensures Key([Key(ips)]) == Key(ips) && [Key(ips)] != ips && NonEmptyIps([Key(ips)]) && !PlainIps([Key(ips)])
  {
    assert ips[0] in ips;
    assert Key(ips)[|ips[0]|] == ',';
    assert Key(ips) in [Key(ips)];
  }

  // ---- the routes ----

  /** What url.Parse makes of a string. */
  type Parser = string -> Option<string>

  function Urls(parse: Parser, raw: seq<string>): seq<string> {
    if raw == [] then []
    else
      var u := parse(raw[|raw| - 1]);
      Urls(parse, raw[..|raw| - 1]) + (if u.Some? then [u.value] else [])
  }

  datatype Options = Options(parse: Parser, port: int, static_: seq<string>)

  function PeerUrl(port: int, ip: string): string { "nats-route://" + ip + ":" + Itoa(port) }

  function PeerUrls(port: int, ips: seq<string>): (r: seq<string>)
    ensures |r| == |ips|
  {
    if ips == [] then [] else PeerUrls(port, ips[..|ips| - 1]) + [PeerUrl(port, ips[|ips| - 1])]
  }

  function RoutesFor(o: Options, ips: seq<string>): seq<string> {
    Urls(o.parse, PeerUrls(o.port, ips)) + Urls(o.parse, o.static_)
  }

  /** `routes` holds, text by text in order, what `f` makes of it, and nothing for those
      of which it makes nothing. */
  predicate Parsed(f: Parser, xs: seq<string>, routes: seq<string>)
    decreases |xs|
  {
    if xs == [] then routes == []
    else
      match f(xs[0])
      case None => Parsed(f, xs[1..], routes)
      case Some(u) => routes != [] && routes[0] == u && Parsed(f, xs[1..], routes[1..])
  }

  /** What `parse` makes of the route URL of an address. */
  function PeerParser(parse: Parser, port: int): Parser {
    ip => parse("nats-route://" + ip + ":" + Itoa(port))
  }

  /** The routes of these addresses, and behind them those the server started with. */
  predicate RoutesAre(o: Options, ips: seq<string>, routes: seq<string>) {
    exists k :: 0 <= k <= |routes| && Parsed(PeerParser(o.parse, o.port), ips, routes[..k]) && Parsed(o.parse, o.static_, routes[k..])
  }

  lemma {:induction false} ParsedSnoc(f: Parser, xs: seq<string>, routes: seq<string>, x: string, last: seq<string>)
    requires Parsed(f, xs, routes) && last == if f(x).Some? then [f(x).value] else []
    ensures Parsed(f, xs + [x], routes + last)
    decreases |xs|
  {
    if xs == [] {
      assert xs + [x] == [x] && routes + last == last;
    } else {
      assert (xs + [x])[1..] == xs[1..] + [x];
      if f(xs[0]).Some? {
        ParsedSnoc(f, xs[1..], routes[1..], x, last);
        assert (routes + last)[1..] == routes[1..] + last;
      } else {
        ParsedSnoc(f, xs[1..], routes, x, last);
      }
    }
  }

  lemma {:induction false} UrlsParsed(parse: Parser, raw: seq<string>)
    ensures Parsed(parse, raw, Urls(parse, raw))
  {
    if raw != [] {
      var n := |raw| - 1;
      UrlsParsed(parse, raw[..n]);
      ParsedSnoc(parse, raw[..n], Urls(parse, raw[..n]), raw[n], Urls(parse, raw)[|Urls(parse, raw[..n])|..]);
      assert raw[..n] + [raw[n]] == raw;
    }
  }

  lemma {:induction false} PeersParsed(parse: Parser, port: int, ips: seq<string>)
    ensures Parsed(PeerParser(parse, port), ips, Urls(parse, PeerUrls(port, ips)))
  {
    if ips != [] {
      var n := |ips| - 1;
      PeersParsed(parse, port, ips[..n]);
      assert PeerUrls(port, ips)[..n] == PeerUrls(port, ips[..n]);
      var init, all := Urls(parse, PeerUrls(port, ips[..n])), Urls(parse, PeerUrls(port, ips));
      ParsedSnoc(PeerParser(parse, port), ips[..n], init, ips[n], all[|init|..]);
      assert ips[..n] + [ips[n]] == ips;
    }
  }

  lemma RoutesForAre(o: Options, ips: seq<string>)
    ensures RoutesAre(o, ips, RoutesFor(o, ips))
  {
    PeersParsed(o.parse, o.port, ips);
    UrlsParsed(o.parse, o.static_);
    var peers, static_ := Urls(o.parse, PeerUrls(o.port, ips)), Urls(o.parse, o.static_);
    assert (peers + static_)[..|peers|] == peers && (peers + static_)[|peers|..] == static_;
  }

  /** `applied` is what the embedded server runs with; `reloads` (the attempts to
      change it) and `ips` (the addresses of the last one that succeeded) are
      history. */
  datatype Manager = Manager(last: string, applied: seq<string>, reloads: nat, ips: seq<string>, cache: Cache)

  function Start(o: Options): Manager { Manager("", Urls(o.parse, o.static_), 0, [], Cache(None, 0)) }

  function Apply(o: Options, s: Manager, ips: seq<string>, ok: bool): Manager {
    if Key(ips) == s.last then s
    else if ok then Manager(Key(ips), RoutesFor(o, ips), s.reloads + 1, ips, s.cache)
    else s.(reloads := s.reloads + 1)
  }

  /** One round: the clock, the membership file if readable, the sorted addresses
      of the reading and whether a reload would succeed. Other parts of the daemon
      read the same cache in between. */
  datatype Round =
    | Round(now: int, disk: Option<File>, ips: seq<string>, ok: bool)
    | Elsewhere(now: int, disk: Option<File>)

  /** The round reads a membership file. */
  predicate Reads(s: Manager, r: Round) { r.Round? && Reading(s.cache, r.now, r.disk).Some? }

  ghost predicate RoundFits(s: Manager, r: Round) {
    Reads(s, r) ==> Wanted(Reading(s.cache, r.now, r.disk).value, r.ips)
  }

  function Do(o: Options, s: Manager, r: Round): Manager {
    var s' := s.(cache := Refresh(s.cache, r.now, r.disk));
    if Reads(s, r) then Apply(o, s', r.ips, r.ok) else s'
  }

  ghost predicate Runs(o: Options, s: Manager, rs: seq<Round>)
    decreases |rs|
  {
    rs == [] || (RoundFits(s, rs[0]) && Runs(o, Do(o, s, rs[0]), rs[1..]))
  }

  function Exec(o: Options, s: Manager, rs: seq<Round>): Manager
    decreases |rs|
  {
    if rs == [] then s else Exec(o, Do(o, s, rs[0]), rs[1..])
  }

  /** No address in any membership file holds a comma. */
  predicate CommaFree(m: File) { forall x <- m.nodes.Keys :: Free(m.nodes[x].ip, ',') }

  predicate CommaFreeRounds(rs: seq<Round>) {
    forall r <- rs :: r.disk.Some? ==> CommaFree(r.disk.value)
  }

  /** The applied routes are those of the addresses that were loaded last, and
      `last` is their key. */
  predicate Agrees(o: Options, s: Manager) {
    && s.applied == RoutesFor(o, s.ips) && s.last == Key(s.ips) && NonEmptyIps(s.ips)
  }

  /** Nothing loaded or cached holds a comma. */
  predicate Plain(s: Manager) {
    && PlainIps(s.ips)
    && (s.cache.members.Some? ==> CommaFree(s.cache.members.value))
  }

  lemma WantedPlain(m: File, ips: seq<string>)
    requires Wanted(m, ips)
    ensures NonEmptyIps(ips)
    ensures CommaFree(m) ==> PlainIps(ips)
  {
    forall ip | ip in ips ensures ip != "" && (CommaFree(m) ==> Free(ip, ',')) { WantedAre(m, ips, ip); }
  }

  /** The early return compares keys. It is exact, that is, nothing is reloaded if
      and only if the wanted addresses are those the applied routes were made from,
      exactly when the keys differ or the addresses are the same. As soon as one of
      the two lists is plain, that is exactly when the keys differ or both are. */
  lemma EarlyReturnExact(o: Options, s: Manager, ips: seq<string>, ok: bool)
    requires Agrees(o, s) && NonEmptyIps(ips)
    ensures var same := Apply(o, s, ips, ok).reloads == s.reloads;
      && (same <==> Key(ips) == s.last)
      && ((same <==> ips == s.ips) <==> Key(ips) != s.last || ips == s.ips)
      && (PlainIps(s.ips) || PlainIps(ips) ==>
            ((same <==> ips == s.ips) <==> Key(ips) != s.last || (PlainIps(ips) && PlainIps(s.ips))))
  {
    DecodeKey(ips);
    DecodeKey(s.ips);
  }

  lemma AgreesStep(o: Options, s: Manager, r: Round)
    requires Agrees(o, s) && RoundFits(s, r)
    ensures Agrees(o, Do(o, s, r))
    ensures Plain(s) && (r.disk.Some? ==> CommaFree(r.disk.value)) ==> Plain(Do(o, s, r))
  {
    if Reads(s, r) {
      WantedPlain(Reading(s.cache, r.now, r.disk).value, r.ips);
    }
  }

  lemma {:induction false} AgreesRun(o: Options, s: Manager, rs: seq<Round>)
    requires Agrees(o, s) && Runs(o, s, rs)
    ensures Agrees(o, Exec(o, s, rs))
    ensures Plain(s) && CommaFreeRounds(rs) ==> Plain(Exec(o, s, rs))
    decreases |rs|
  {
    if rs != [] {
      AgreesStep(o, s, rs[0]);
      AgreesRun(o, Do(o, s, rs[0]), rs[1..]);
      if CommaFreeRounds(rs) {
        assert rs[0] in rs;
        forall r | r in rs[1..] ensures r.disk.Some? ==> CommaFree(r.disk.value) { assert r in rs; }
      }
    }
  }

  /** After any mix of read failures, reload failures and membership changes, the
      applied routes are the parsable route URLs of the sorted addresses loaded last,
      then the static routes, and `last` is the key of those addresses. It encodes
      them, in that they can be read back from it, exactly when none holds a comma;
      none does if no membership file has one. */
  lemma {:induction false} RouteAgreement(o: Options, rs: seq<Round>)
    requires Runs(o, Start(o), rs)
    ensures var s := Exec(o, Start(o), rs);
      && Agrees(o, s) && RoutesAre(o, s.ips, s.applied)
      && (Decode(s.last) == s.ips <==> PlainIps(s.ips))
      && (CommaFreeRounds(rs) ==> PlainIps(s.ips) && s.applied == RoutesFor(o, Decode(s.last)))
  {
    AgreesRun(o, Start(o), rs);
    DecodeKey(Exec(o, Start(o), rs).ips);
    RoutesForAre(o, Exec(o, Start(o), rs).ips);
  }

  /** Every reading round finds the peers with the addresses `ips`, and its reload fails. */
  predicate Failing(o: Options, ips: seq<string>, s: Manager, rs: seq<Round>)
    decreases |rs|
  {
    rs == []
    || ((Reads(s, rs[0]) ==> rs[0].ips == ips && !rs[0].ok)
        && Failing(o, ips, Do(o, s, rs[0]), rs[1..]))
  }

  function ReadingRounds(o: Options, s: Manager, rs: seq<Round>): nat
    decreases |rs|
  {
    if rs == [] then 0 else (if Reads(s, rs[0]) then 1 else 0) + ReadingRounds(o, Do(o, s, rs[0]), rs[1..])
  }

  /** Failed reloads change no route, and every reading round tries again, until one
      succeeds and applies the routes. */
  lemma {:induction false} FailedReloadIsRetried(o: Options, s: Manager, ips: seq<string>, rs: seq<Round>)
    requires Key(ips) != s.last && Failing(o, ips, s, rs)
    ensures var t := Exec(o, s, rs);
      && t.last == s.last && t.applied == s.applied
      && t.reloads == s.reloads + ReadingRounds(o, s, rs)
      && RoutesAre(o, ips, Apply(o, t, ips, true).applied)
    decreases |rs|
  {
    RoutesForAre(o, ips);
    if rs != [] { FailedReloadIsRetried(o, Do(o, s, rs[0]), ips, rs[1..]); }
  }

  /** Every reading round finds the peers with the addresses `ips`. */
  predicate Stable(o: Options, ips: seq<string>, s: Manager, rs: seq<Round>)
    decreases |rs|
  {
    rs == []
    || ((Reads(s, rs[0]) ==> rs[0].ips == ips)
        && Stable(o, ips, Do(o, s, rs[0]), rs[1..]))
  }

  /** Once a reload for these peers has succeeded, rounds with the same peers never
      reload again and never change the routes. */
  lemma {:induction false} Fixpoint(o: Options, s: Manager, ips: seq<string>, rs: seq<Round>)
    requires s.last == Key(ips) && Stable(o, ips, s, rs)
    ensures var t := Exec(o, s, rs); t.last == s.last && t.applied == s.applied && t.reloads == s.reloads
    decreases |rs|
  {
    if rs != [] {
      Fixpoint(o, Do(o, s, rs[0]), ips, rs[1..]);
    }
  }

  /** One reading round whose reload succeeds reaches it, whatever came before: the
      routes then have the key of the peers just read and they stay. They are the
      routes of those peers exactly when the key was another one before or the same
      peers were loaded; with one of the two lists plain, exactly when the key was
      another one or both are; and always if no membership file has a comma in an
      address. */
  lemma {:induction false} Converges(o: Options, before: seq<Round>, r: Round, after: seq<Round>)
    requires Runs(o, Start(o), before)
    requires RoundFits(Exec(o, Start(o), before), r) && Reads(Exec(o, Start(o), before), r) && r.ok
    requires Stable(o, r.ips, Do(o, Exec(o, Start(o), before), r), after)
    ensures var s0 := Exec(o, Start(o), before);
      var s := Do(o, s0, r);
      && Agrees(o, s) && RoutesAre(o, s.ips, s.applied) && Key(s.ips) == Key(r.ips)
      && (s.ips == r.ips <==> Key(r.ips) != s0.last || r.ips == s0.ips)
      && (PlainIps(s0.ips) || PlainIps(r.ips) ==>
            (s.ips == r.ips <==> Key(r.ips) != s0.last || (PlainIps(r.ips) && PlainIps(s0.ips))))
      && (CommaFreeRounds(before) && (r.disk.Some? ==> CommaFree(r.disk.value)) ==> s.ips == r.ips)
      && Exec(o, s, after).applied == s.applied && Exec(o, s, after).reloads == s.reloads
  {
    var s0 := Exec(o, Start(o), before);
    AgreesRun(o, Start(o), before);
    AgreesStep(o, s0, r);
    WantedPlain(Reading(s0.cache, r.now, r.disk).value, r.ips);
    DecodeKey(r.ips);
    DecodeKey(s0.ips);
    RoutesForAre(o, Do(o, s0, r).ips);
    Fixpoint(o, Do(o, s0, r), r.ips, after);
  }

  // ---- the server ----

  class Server {
    const opts: Options
    const reader: Reader
    var last: string
    var routes: seq<string>
    var reloads: nat
    ghost var loaded: seq<string>

    constructor (opts: Options, reader: Reader)
      requires reader.Cached() == Cache(None, 0)
      ensures this.opts == opts && this.reader == reader && State() == Start(opts)
    {
      this.opts, this.reader := opts, reader;
      last, reloads, loaded := "", 0, [];
      new;
      routes := RoutesToUrls(opts.static_);
    }

    ghost function State(): Manager
      reads this, reader
    {
      Manager(last, routes, reloads, loaded, reader.Cached())
    }

    method RoutesToUrls(raw: seq<string>) returns (urls: seq<string>)
      ensures urls == Urls(opts.parse, raw)
    {
      urls := [];
      for i := 0 to |raw|
        invariant urls == Urls(opts.parse, raw[..i])
      {
        assert raw[..i + 1][..i] == raw[..i];
        var u := opts.parse(raw[i]);
        if u.Some? {
          urls := urls + [u.value];
        }
      }
      assert raw[..|raw|] == raw;
    }

    method SortedIps(peers: seq<Node>) returns (ips: seq<string>)
      ensures ips == Sort(Ips(peers))
    {
      ips := [];
      for i := 0 to |peers|
        invariant ips == Ips(peers[..i])
      {
        assert peers[..i + 1][..i] == peers[..i];
        if peers[i].ip == "" {
          continue;
        }
        ips := ips + [peers[i].ip];
      }
      assert peers[..|peers|] == peers;
      ips := Sort(ips);
    }

    method PeerRoutes(ips: seq<string>) returns (urls: seq<string>)
      ensures urls == Urls(opts.parse, PeerUrls(opts.port, ips))
    {
      urls := [];
      for i := 0 to |ips|
        invariant urls == Urls(opts.parse, PeerUrls(opts.port, ips[..i]))
      {
        assert ips[..i + 1][..i] == ips[..i];
        var u := opts.parse(PeerUrl(opts.port, ips[i]));
        var raw := PeerUrls(opts.port, ips[..i]);
        assert (raw + [PeerUrl(opts.port, ips[i])])[..|raw|] == raw;
        if u.Some? {
          urls := urls + [u.value];
        }
      }
      assert ips[..|ips|] == ips;
    }

    /** The reload, unless the key says that the peers are the same. */
    method Reconcile(ips: seq<string>, ok: bool)
      modifies this
      ensures State() == Apply(opts, old(State()), ips, ok)
    {
      var key := Join(ips, ",");
      if key == last {
        return;
      }
      var urls := PeerRoutes(ips);
      var static_ := RoutesToUrls(opts.static_);
      urls := urls + static_;
      reloads := reloads + 1;
      if !ok {
        return;
      }
      routes := urls;
      last := key;
      loaded := ips;
    }

    /** One round, with whatever order the map yields and whatever the reload
        answers. */
    method ApplyRoutes(now: int, disk: Option<File>, ok: bool) returns (ghost r: Round)
      modifies this, reader
      ensures r.Round? && r.now == now && r.disk == disk && r.ok == ok && RoundFits(old(State()), r)
      ensures State() == Do(opts, old(State()), r)
    {
      r := Round(now, disk, [], ok);
      var peers, order := reader.Peers(now, disk);
      if peers.None? {
        return;
      }
      var ips := SortedIps(peers.value);
      assert Wanted(Reading(old(reader.Cached()), now, disk).value, ips);
      r := Round(now, disk, ips, ok);
      Reconcile(ips, ok);
    }
  }
}
