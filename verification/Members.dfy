/** Cluster membership as read from pmxcfs: the cached file and the peers it lists
    (internal/pmxcfs/members.go). */
module Members {
  import opened Lists
  import opened Text

  const MAX_AGE: int := 2_000_000_000

  datatype Node = Node(id: int, online: int, ip: string)
  datatype File = File(nodeName: string, nodes: map<string, Node>)

  predicate IsPeer(m: File, name: string)
    requires name in m.nodes
  {
    name != m.nodeName && m.nodes[name].online != 0
  }

  predicate Within(order: seq<string>, names: set<string>) { forall x <- order :: x in names }

  predicate Distinct(order: seq<string>) {
    forall i, j :: 0 <= i < j < |order| ==> order[i] != order[j]
  }

  /** An order in which a loop over the map may visit its keys. */
  predicate Visits(order: seq<string>, names: set<string>) {
    Within(order, names) && Distinct(order) && (forall x <- names :: x in order)
  }

  /** The peers met in this order. */
  function PeersIn(m: File, order: seq<string>): seq<Node>
    requires Within(order, m.nodes.Keys)
  {
    if order == [] then []
    else
      var x := order[|order| - 1];
      assert x in order;
      PeersIn(m, order[..|order| - 1]) + (if IsPeer(m, x) then [m.nodes[x]] else [])
  }

  /** Whatever the order, exactly the online nodes other than this one. */
  lemma {:induction false} PeersAre(m: File, order: seq<string>, n: Node)
    requires Within(order, m.nodes.Keys)
    ensures n in PeersIn(m, order) <==> exists x <- order :: x != m.nodeName && m.nodes[x].online != 0 && m.nodes[x] == n
  {
    if order != [] {
      var k := |order| - 1;
      PeersAre(m, order[..k], n);
      assert order[k] in order;
      assert forall x <- order[..k] :: x in order;
      assert forall x <- order :: x == order[k] || x in order[..k];
    }
  }

  // ---- what does not depend on the order ----

  function Without(order: seq<string>, i: nat): seq<string>
    requires i < |order|
  {
    order[..i] + order[i + 1..]
  }

  lemma PickMiddle<T>(f: string -> seq<T>, a: seq<string>, x: string, b: seq<string>)
    ensures Pick(f, a + ([x] + b)) == Pick(f, a) + (f(x) + Pick(f, b))
    ensures Pick(f, a + b) == Pick(f, a) + Pick(f, b)
  {
    PickAppend(f, [x], b);
    PickAppend(f, a, [x] + b);
    PickAppend(f, a, b);
    PickOne(f, x);
  }

  lemma Parts(order: seq<string>, i: nat)
    requires i < |order|
    ensures order == order[..i] + ([order[i]] + order[i + 1..])
  {
  }

  lemma PickWithout<T>(f: string -> seq<T>, order: seq<string>, i: nat)
    requires i < |order|
    ensures multiset(Pick(f, order)) == multiset(Pick(f, Without(order, i))) + multiset(f(order[i]))
  {
    Parts(order, i);
    PickMiddle(f, order[..i], order[i], order[i + 1..]);
    BagMiddle(Pick(f, order[..i]), f(order[i]), Pick(f, order[i + 1..]));
  }

  lemma BagMiddle<T>(p: seq<T>, q: seq<T>, r: seq<T>)
    ensures multiset(p + (q + r)) == multiset(p + r) + multiset(q)
  {
  }

  lemma {:induction false} VisitsLength(order: seq<string>, names: set<string>)
    requires Visits(order, names)
    ensures |order| == |names|
    decreases |order|
  {
    if order == [] {
      assert names == {};
    } else {
      var k := |order| - 1;
      VisitsWithout(order, names, k);
      VisitsLength(Without(order, k), names - {order[k]});
      assert order[k] in names;
    }
  }

  /** Two orders of the same keys build the same elements. */
  lemma {:induction false} SamePick<T>(f: string -> seq<T>, a: seq<string>, b: seq<string>, names: set<string>)
    requires Visits(a, names) && Visits(b, names)
    ensures multiset(Pick(f, a)) == multiset(Pick(f, b))
    decreases |a|
  {
    VisitsLength(a, names);
    VisitsLength(b, names);
    if a != [] {
      var k := |a| - 1;
      assert a[k] in names;
      var i :| 0 <= i < |b| && b[i] == a[k];
      PickWithout(f, b, i);
      PickWithout(f, a, k);
      VisitsWithout(a, names, k);
      VisitsWithout(b, names, i);
      SamePick(f, Without(a, k), Without(b, i), names - {a[k]});
    }
  }

  lemma VisitsWithout(order: seq<string>, names: set<string>, i: nat)
    requires Visits(order, names) && i < |order|
    ensures Visits(Without(order, i), names - {order[i]})
  {
  }

  // ---- the cache ----

  datatype Cache = Cache(members: Option<File>, loaded: int)

  predicate Fresh(c: Cache, now: int) { c.members.Some? && now - c.loaded < MAX_AGE }

  /** What the next read leaves in the cache. `disk` is the parsed file, if it can
      be read and parsed. */
  function Refresh(c: Cache, now: int, disk: Option<File>): Cache {
    if Fresh(c, now) || disk.None? then c else Cache(disk, now)
  }

  function Reading(c: Cache, now: int, disk: Option<File>): Option<File> {
    if Fresh(c, now) then c.members else disk
  }

  class Reader {
    var members: Option<File>
    var loaded: int

    constructor ()
      ensures Cached() == Cache(None, 0)
    {
      members, loaded := None, 0;
    }

    function Cached(): Cache
      reads this
    {
      Cache(members, loaded)
    }

    method ReloadMembers(now: int, disk: Option<File>) returns (m: Option<File>)
      modifies this
      ensures m == disk && Cached() == if disk.Some? then Cache(disk, now) else old(Cached())
    {
      m := disk;
      if disk.Some? {
        members, loaded := disk, now;
      }
    }

    /** A reading is never older than the limit, and the cache then holds it. */
    method Members(now: int, disk: Option<File>) returns (m: Option<File>)
      modifies this
      ensures m == Reading(old(Cached()), now, disk)
      ensures m.Some? ==> members == m && now - this.loaded < 2_000_000_000
      ensures if old(members).Some? && now - old(this.loaded) < 2_000_000_000 then m == old(members) else m == disk
      ensures disk.None? ==> members == old(members) && this.loaded == old(this.loaded)
      ensures Cached() == Refresh(old(Cached()), now, disk)
    {
      if members.Some? && now - loaded < MAX_AGE {
        return members;
      }
      m := ReloadMembers(now, disk);
    }

    /** All online nodes but this one, in whatever order the map yields them. */
    method Peers(now: int, disk: Option<File>) returns (peers: Option<seq<Node>>, ghost order: seq<string>)
      modifies this
      ensures Cached() == Refresh(old(Cached()), now, disk)
      ensures var m := Reading(old(Cached()), now, disk);
        if m.None? then peers == None
        else Visits(order, m.value.nodes.Keys) && peers == Some(PeersIn(m.value, order))
    {
      order := [];
      var file := Members(now, disk);
      if file.None? {
        return None, [];
      }
      var m := file.value;
      var out, todo := [], m.nodes.Keys;
      while todo != {}
        invariant todo <= m.nodes.Keys && Visits(order, m.nodes.Keys - todo)
        invariant Within(order, m.nodes.Keys) && out == PeersIn(m, order)
        decreases |todo|
      {
        var name :| name in todo;
        assert (order + [name])[..|order|] == order;
        order := order + [name];
        todo := todo - {name};
        if name == m.nodeName {
          continue;
        }
        if m.nodes[name].online == 0 {
          continue;
        }
        out := out + [m.nodes[name]];
      }
      peers := Some(out);
    }
  }
}
