/** Order-preserving removal of duplicate blocks from a trust bundle. */
module Blocks {

  /** Keeps the first occurrence of every element, in order. */
  function Dedup<T(==)>(bs: seq<T>): (r: seq<T>)
  {
    if bs == [] then []
    else
      var last := |bs| - 1;
      if bs[last] in bs[..last] then Dedup(bs[..last]) else Dedup(bs[..last]) + [bs[last]]
  }

  ghost predicate Distinct<T>(bs: seq<T>)
  {
    forall i, j :: 0 <= i < j < |bs| ==> bs[i] != bs[j]
  }

  lemma {:induction false} DedupElements<T>(bs: seq<T>)
    ensures forall x :: x in Dedup(bs) <==> x in bs
  {
    if bs != [] {
      var last := |bs| - 1;
      DedupElements(bs[..last]);
      assert bs == bs[..last] + [bs[last]];
    }
  }

  lemma {:induction false} DedupDistinct<T>(bs: seq<T>)
    ensures Distinct(Dedup(bs))
  {
    if bs != [] {
      DedupDistinct(bs[..|bs| - 1]);
      DedupElements(bs[..|bs| - 1]);
    }
  }

  /** Later blocks never disturb what an earlier part of the bundle already produced. */
  lemma {:induction false} DedupPrefix<T>(a: seq<T>, b: seq<T>)
    ensures Dedup(a) <= Dedup(a + b)
  {
    if b == [] {
      assert a + b == a;
    } else {
      DedupPrefix(a, b[..|b| - 1]);
      assert (a + b)[..|a + b| - 1] == a + b[..|b| - 1];
    }
  }

  lemma DedupHead<T>(bs: seq<T>)
    requires bs != []
    ensures Dedup(bs) != [] && Dedup(bs)[0] == bs[0]
  {
    DedupPrefix(bs[..1], bs[1..]);
    assert bs[..1] + bs[1..] == bs;
    assert Dedup(bs[..1]) == [bs[0]];
  }

  lemma {:induction false} DedupOfDistinct<T>(bs: seq<T>)
    requires Distinct(bs)
    ensures Dedup(bs) == bs
  {
    if bs != [] {
      var last := |bs| - 1;
      DedupOfDistinct(bs[..last]);
      assert bs == bs[..last] + [bs[last]];
    }
  }

  /** The set-guarded filter of `dedup_blocks`, as the loop it runs. */
  method DedupBlocks<T(==)>(blocks: seq<T>) returns (out: seq<T>)
    ensures out == Dedup(blocks)
    ensures Distinct(out) && forall x :: x in out <==> x in blocks
  {
    var seen: set<T> := {};
    out := [];
    for i := 0 to |blocks|
      invariant out == Dedup(blocks[..i])
      invariant forall x :: x in seen <==> x in blocks[..i]
    {
      assert blocks[..i + 1][..i] == blocks[..i];
      if blocks[i] !in seen {
        seen := seen + {blocks[i]};
        out := out + [blocks[i]];
      }
    }
    assert blocks[..|blocks|] == blocks;
    DedupElements(blocks);
    DedupDistinct(blocks);
  }
}
