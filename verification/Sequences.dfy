/** What the folds over lists have in common: each element contributes a list of its own. */
module Sequences {
  function FlatMap<A, B>(s: seq<A>, f: A -> seq<B>): seq<B> {
    if s == [] then [] else FlatMap(s[..|s| - 1], f) + f(s[|s| - 1])
  }

  lemma {:induction false} FlatMapOfBoth<A, B>(a: seq<A>, b: seq<A>, f: A -> seq<B>)
    ensures FlatMap(a + b, f) == FlatMap(a, f) + FlatMap(b, f)
  {
    if b == [] {
      assert a + b == a;
    } else {
      assert (a + b)[..|a + b| - 1] == a + b[..|b| - 1];
      FlatMapOfBoth(a, b[..|b| - 1], f);
    }
  }

  lemma FlatMapOfOne<A, B>(x: A, f: A -> seq<B>)
    ensures FlatMap([x], f) == f(x)
  {
    assert [x][..0] == [];
    assert FlatMap([x], f) == FlatMap([], f) + f(x);
  }

  lemma FlatMapOneMore<A, B>(s: seq<A>, f: A -> seq<B>, i: nat)
    requires i < |s|
    ensures FlatMap(s[..i + 1], f) == FlatMap(s[..i], f) + f(s[i])
  {
    assert s[..i + 1][..i] == s[..i];
  }
}
