/** Sequence facts shared by several views. */
module Seqs {

  /** `a` is `b` with some elements dropped, the rest in their order. */
  predicate IsSubsequence<T(==)>(a: seq<T>, b: seq<T>) {
    if a == [] then true
    else if b == [] then false
    else if a[0] == b[0] then IsSubsequence(a[1..], b[1..])
    else IsSubsequence(a, b[1..])
  }

  predicate NoDuplicates<T(==)>(s: seq<T>) {
    forall i, j :: 0 <= i < j < |s| ==> s[i] != s[j]
  }

  /** The insertion-ordered content of a `Set` built from `xs`: each value at
      its first occurrence. */
  function Dedup<T(==)>(xs: seq<T>): seq<T> {
    if xs == [] then []
    else
      var d := Dedup(xs[..|xs| - 1]);
      if xs[|xs| - 1] in d then d else d + [xs[|xs| - 1]]
  }

  lemma {:induction false} DedupMembers<T>(xs: seq<T>)
    ensures forall x :: x in Dedup(xs) <==> x in xs
    ensures NoDuplicates(Dedup(xs))
  {
    if xs != [] {
      var init := xs[..|xs| - 1];
      DedupMembers(init);
      assert xs == init + [xs[|xs| - 1]];
    }
  }

  lemma {:induction false} DedupLength<T>(xs: seq<T>)
    ensures |Dedup(xs)| <= |xs|
  {
    if xs != [] {
      DedupLength(xs[..|xs| - 1]);
    }
  }

  /** Only the empty list has no distinct values. */
  lemma DedupEmpty<T>(xs: seq<T>)
    ensures Dedup(xs) == [] <==> xs == []
  {
    if xs != [] {
      var d := Dedup(xs[..|xs| - 1]);
      if xs[|xs| - 1] in d {
        assert d != [];
      }
    }
  }

  /** `Set.size`: the deduplicated list has one entry per distinct value. */
  lemma {:induction false} DedupCount<T>(xs: seq<T>)
    ensures |Dedup(xs)| == |set x | x in xs|
  {
    if xs != [] {
      var init, last := xs[..|xs| - 1], xs[|xs| - 1];
      DedupCount(init);
      DedupMembers(init);
      assert xs == init + [last];
      assert (set x | x in xs) == (set x | x in init) + {last};
      if last in init {
        assert (set x | x in xs) == (set x | x in init);
      }
    }
  }

  /** One more value: kept at the end unless it is already there. */
  lemma DedupSnoc<T>(xs: seq<T>, x: T)
    ensures Dedup(xs + [x]) == if x in Dedup(xs) then Dedup(xs) else Dedup(xs) + [x]
  {
    assert (xs + [x])[..|xs|] == xs;
  }

  /** `extra.forEach((x) => set.add(x))` on a set holding `Dedup(base)`. */
  method AddEach<T(==)>(ids: seq<T>, ghost base: seq<T>, extra: seq<T>) returns (out: seq<T>)
    requires ids == Dedup(base)
    ensures out == Dedup(base + extra)
  {
    out := ids;
    var j := 0;
    assert base + extra[..0] == base;
    while j < |extra|
      invariant 0 <= j <= |extra|
      invariant out == Dedup(base + extra[..j])
    {
      DedupSnoc(base + extra[..j], extra[j]);
      assert base + extra[..j + 1] == (base + extra[..j]) + [extra[j]];
      if extra[j] !in out {
        out := out + [extra[j]];
      }
      j := j + 1;
    }
    assert extra[..j] == extra;
  }
}
