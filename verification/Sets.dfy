/** Sizes of sets that grow or shrink by one element. */
module Sets {
  lemma AddOne<T>(xs: set<T>, x: T)
    ensures |xs + {x}| <= |xs| + 1
  {
    if x in xs { assert xs + {x} == xs; }
  }

  lemma DropOne<T>(xs: set<T>, x: T)
    ensures |xs - {x}| == |xs| - if x in xs then 1 else 0
  {
    if x in xs { assert xs == (xs - {x}) + {x}; } else { assert xs - {x} == xs; }
  }

  lemma SubsetSize<T>(a: set<T>, b: set<T>)
    requires a <= b
    ensures |a| <= |b|
  {
    assert b == a + (b - a);
  }
}
