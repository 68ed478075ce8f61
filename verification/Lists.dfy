/** The lists loops build: a few items for each element passed, or the elements not skipped. */
module Lists {

  function FlatMap<A, B>(f: A -> seq<B>, list: seq<A>): seq<B> {
    if list == [] then [] else FlatMap(f, list[..|list| - 1]) + f(list[|list| - 1])
  }

  /** What one more turn of the loop appends. */
  lemma FlatMapStep<A, B>(f: A -> seq<B>, list: seq<A>, i: nat)
    requires i < |list|
    ensures FlatMap(f, list[..i + 1]) == FlatMap(f, list[..i]) + f(list[i])
  {
    assert list[..i + 1][..i] == list[..i];
  }

  /** Where the loop starts and where it ends. */
  lemma FlatMapEnds<A, B>(f: A -> seq<B>, list: seq<A>)
    ensures FlatMap(f, list[..0]) == []
    ensures FlatMap(f, list[..|list|]) == FlatMap(f, list)
  {
    assert list[..|list|] == list;
  }

  lemma {:induction false} FlatMapMember<A, B>(f: A -> seq<B>, list: seq<A>, x: B)
    ensures x in FlatMap(f, list) <==> exists i | 0 <= i < |list| :: x in f(list[i])
  {
    if list != [] {
      var init := list[..|list| - 1];
      FlatMapMember(f, init, x);
      assert forall i | 0 <= i < |init| :: init[i] == list[i];
    }
  }

  lemma {:induction false} FlatMapEmpty<A, B>(f: A -> seq<B>, list: seq<A>)
    ensures FlatMap(f, list) == [] <==> forall i | 0 <= i < |list| :: f(list[i]) == []
  {
    if list != [] {
      var init := list[..|list| - 1];
      FlatMapEmpty(f, init);
      assert forall i | 0 <= i < |init| :: init[i] == list[i];
    }
  }

  /** 0, 1, ..., n - 1 */
  function Indices(n: nat): (r: seq<nat>)
    ensures |r| == n && forall i | 0 <= i < n :: r[i] == i
  {
    seq(n, i => i)
  }

  /** The elements a loop does not skip, in order. */
  function Filter<A>(keep: A -> bool, list: seq<A>): (r: seq<A>)
    ensures forall a | a in r :: keep(a)
  {
    if list == [] then []
    else Filter(keep, list[..|list| - 1]) + if keep(list[|list| - 1]) then [list[|list| - 1]] else []
  }
}
