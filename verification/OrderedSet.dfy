/** JavaScript's `Set` of strings: insertion-ordered, without duplicates, held as a sequence. */
module OrderedSet {
  predicate Distinct<T(==)>(s: seq<T>) {
    forall i, j :: 0 <= i < j < |s| ==> s[i] != s[j]
  }

  function Elements<T(==)>(s: seq<T>): set<T> {
    set x | x in s
  }

  function Add<T(==)>(s: seq<T>, x: T): (r: seq<T>)
    ensures Elements(r) == Elements(s) + {x}
    ensures s <= r
    ensures Distinct(s) ==> Distinct(r)
  {
    if x in s then s else s + [x]
  }

  /** `for (const x of xs) s.add(x)` */
  function AddAll<T(==)>(s: seq<T>, xs: seq<T>): (r: seq<T>)
    ensures Elements(r) == Elements(s) + Elements(xs)
    ensures s <= r
    ensures Distinct(s) ==> Distinct(r)
  {
    if xs == [] then s
    else
      assert Elements(xs) == Elements(xs[..|xs| - 1]) + {xs[|xs| - 1]};
      Add(AddAll(s, xs[..|xs| - 1]), xs[|xs| - 1])
  }

  /** Adding distinct new elements appends them unchanged. */
  lemma {:induction false} AddAllDistinct<T>(xs: seq<T>)
    requires Distinct(xs)
    ensures AddAll([], xs) == xs
  {
    if xs != [] {
      var front, last := xs[..|xs| - 1], xs[|xs| - 1];
      AddAllDistinct(front);
      assert last !in front;
      assert xs == front + [last];
    }
  }

  lemma {:induction false} DistinctLength<T>(s: seq<T>, u: set<T>)
    requires Distinct(s) && Elements(s) <= u
    ensures |s| <= |u|
  {
    if s != [] {
      var x := s[|s| - 1];
      var front := s[..|s| - 1];
      assert x in u;
      assert x !in Elements(front);
      DistinctLength(front, u - {x});
    }
  }

  /** Adding what is already there changes nothing, not even the order. */
  lemma {:induction false} AddAllKnown<T>(s: seq<T>, xs: seq<T>)
    requires Elements(xs) <= Elements(s)
    ensures AddAll(s, xs) == s
  {
    if xs != [] {
      var front := xs[..|xs| - 1];
      forall x | x in Elements(front) ensures x in Elements(s) { assert x in Elements(xs); }
      AddAllKnown(s, front);
      assert xs[|xs| - 1] in Elements(xs);
    }
  }

  lemma {:induction false} DistinctCount<T>(s: seq<T>)
    requires Distinct(s)
    ensures |Elements(s)| == |s|
  {
    if s != [] {
      var front, x := s[..|s| - 1], s[|s| - 1];
      DistinctCount(front);
      assert x !in Elements(front);
      assert Elements(s) == Elements(front) + {x};
    }
  }
}
