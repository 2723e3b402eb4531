// Sequence helpers behind the simulation's pools: every `array.filter` pass
// of the game is a map followed by a filter, and `array.splice(k, 1)` removes
// one element in place.
module Seqs {

  /** Applies f to every element, keeping the order. */
  function Map<A, B>(s: seq<A>, f: A -> B): (r: seq<B>)
    ensures |r| == |s|
    ensures forall i :: 0 <= i < |s| ==> r[i] == f(s[i])
  {
    seq(|s|, i requires 0 <= i < |s| => f(s[i]))
  }

  /** Keeps, in their order, the elements that satisfy p. */
  function Filter<A>(s: seq<A>, p: A -> bool): seq<A>
  {
    if s == [] then []
    else
      var rest := Filter(s[..|s| - 1], p);
      if p(s[|s| - 1]) then rest + [s[|s| - 1]] else rest
  }

  lemma MapSnoc<A, B>(s: seq<A>, x: A, f: A -> B)
    ensures Map(s + [x], f) == Map(s, f) + [f(x)]
  {
  }

  lemma FilterSnoc<A>(s: seq<A>, x: A, p: A -> bool)
    ensures Filter(s + [x], p) == Filter(s, p) + (if p(x) then [x] else [])
  {
    assert (s + [x])[..|s|] == s;
  }

  /** One more input element adds at most its own image to a map-then-filter. */
  lemma FilterMapSnoc<A, B>(s: seq<A>, x: A, f: A -> B, p: B -> bool)
    ensures Filter(Map(s + [x], f), p) == Filter(Map(s, f), p) + (if p(f(x)) then [f(x)] else [])
  {
    MapSnoc(s, x, f);
    FilterSnoc(Map(s, f), f(x), p);
  }

  /** An element is kept exactly when it was present and passes the test. */
  lemma {:induction false} FilterMembers<A>(s: seq<A>, p: A -> bool)
    ensures forall x :: x in Filter(s, p) <==> x in s && p(x)
  {
    if s != [] {
      var init := s[..|s| - 1];
      FilterMembers(init, p);
      assert s == init + [s[|s| - 1]];
    }
  }

  /** Filtering never lengthens a sequence. */
  lemma {:induction false} FilterShrinks<A>(s: seq<A>, p: A -> bool)
    ensures |Filter(s, p)| <= |s|
  {
    if s != [] {
      FilterShrinks(s[..|s| - 1], p);
    }
  }

  /** `array.splice(k, 1)`: removes the element at k; an index past the end removes nothing. */
  function Splice<A>(s: seq<A>, k: nat): (r: seq<A>)
    ensures k < |s| ==> |r| == |s| - 1
    ensures k < |s| ==> forall i :: 0 <= i < |r| ==> r[i] == (if i < k then s[i] else s[i + 1])
    ensures k >= |s| ==> r == s
  {
    if k < |s| then s[..k] + s[k + 1..] else s
  }

  /** Splicing takes exactly the removed element out of the multiset of elements. */
  lemma SpliceMultiset<A>(s: seq<A>, k: nat)
    ensures multiset(Splice(s, k)) <= multiset(s)
    ensures k < |s| ==> multiset(Splice(s, k)) + multiset{s[k]} == multiset(s)
  {
    if k < |s| {
      assert s == s[..k] + [s[k]] + s[k + 1..];
    }
  }

  /** Everything left after a splice was there before. */
  lemma SpliceMembers<A>(s: seq<A>, k: nat)
    ensures forall x :: x in Splice(s, k) ==> x in s
  {
    SpliceMultiset(s, k);
    forall x | x in Splice(s, k) ensures x in s {
      assert x in multiset(Splice(s, k));
    }
  }

  /** Splicing the slot just written forgets the write. */
  lemma SpliceAfterUpdate<A>(s: seq<A>, k: nat, v: A)
    requires k < |s|
    ensures Splice(s[k := v], k) == Splice(s, k)
  {
  }

  /** Appending after the spliced index commutes with the splice. */
  lemma SpliceSnoc<A>(s: seq<A>, k: nat, x: A)
    requires k < |s|
    ensures Splice(s + [x], k) == Splice(s, k) + [x]
  {
  }

  /** Splicing out the last element gives back the rest. */
  lemma SpliceLast<A>(s: seq<A>, x: A)
    ensures Splice(s + [x], |s|) == s
  {
  }
}
