/** Sequences built by a loop that appends what each element gives. */
module Lists {

  function Pick<S, T>(f: S -> seq<T>, xs: seq<S>): seq<T> {
    if xs == [] then [] else Pick(f, xs[..|xs| - 1]) + f(xs[|xs| - 1])
  }

  lemma {:induction false} PickAppend<S, T>(f: S -> seq<T>, a: seq<S>, b: seq<S>)
    ensures Pick(f, a + b) == Pick(f, a) + Pick(f, b)
  {
    if b == [] {
      assert a + b == a;
    } else {
      PickAppend(f, a, b[..|b| - 1]);
      assert (a + b)[..|a + b| - 1] == a + b[..|b| - 1];
    }
  }

  lemma PickOne<S, T>(f: S -> seq<T>, x: S)
    ensures Pick(f, [x]) == f(x)
  {
    assert [x][..0] == [];
  }
}
