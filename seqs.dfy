/** Facts about sequences that several modules of the model use. */
module Seqs {

  /** A prefix one longer is the prefix and the next element. */
  lemma PrefixSnoc<T>(a: seq<T>, b: seq<T>, j: nat)
    requires j < |b|
    ensures a + b[..j + 1] == (a + b[..j]) + [b[j]]
  {
  }

  /** The first position of `x` in `b`. */
  function IndexOf<T(==)>(b: seq<T>, x: T): (j: nat)
    requires x in b
    ensures j < |b| && b[j] == x
  {
    if b[0] == x then 0 else 1 + IndexOf(b[1..], x)
  }

  /** Taking the first entry out of `a` and an equal entry out of its
      permutation `b` leaves two permutations of each other. */
  lemma PermutationTail<T>(a: seq<T>, b: seq<T>, j: nat)
    requires multiset(a) == multiset(b) && a != [] && j < |b| && b[j] == a[0]
    ensures multiset(a[1..]) == multiset(b[..j] + b[j + 1..])
  {
    var rest := b[..j] + b[j + 1..];
    assert a == [a[0]] + a[1..];
    assert b == b[..j] + [b[j]] + b[j + 1..];
    assert multiset(b) == multiset{a[0]} + multiset(rest);
    assert multiset(rest) == multiset(b) - multiset{a[0]};
    assert multiset(a[1..]) == multiset(a) - multiset{a[0]};
  }
}
