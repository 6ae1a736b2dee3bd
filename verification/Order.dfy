/** Strictly sorted sequences over a total order: the canonical form of a finite set. */
module Order {

  ghost predicate Total<T(!new)>(less: (T, T) -> bool)
  {
    && (forall a, b :: less(a, b) || less(b, a) || a == b)
    && (forall a, b :: less(a, b) ==> !less(b, a))
    && (forall a, b, c :: less(a, b) && less(b, c) ==> less(a, c))
  }

  ghost predicate Sorted<T>(s: seq<T>, less: (T, T) -> bool)
  {
    forall i, j :: 0 <= i < j < |s| ==> less(s[i], s[j])
  }

  /** Puts `x` at its place in a strictly sorted sequence, unless it is there already. */
  function Insert<T(==)>(s: seq<T>, x: T, less: (T, T) -> bool): (r: seq<T>)
  {
    if s == [] then [x]
    else if s[0] == x then s
    else if less(x, s[0]) then [x] + s
    else [s[0]] + Insert(s[1..], x, less)
  }

  /** `sort` followed by `dedup`. */
  function SortDedup<T(==)>(s: seq<T>, less: (T, T) -> bool): (r: seq<T>)
  {
    if s == [] then [] else Insert(SortDedup(s[1..], less), s[0], less)
  }

  lemma {:induction false} InsertSorted<T(!new)>(s: seq<T>, x: T, less: (T, T) -> bool)
    requires Total(less) && Sorted(s, less)
    ensures Sorted(Insert(s, x, less), less)
    ensures forall y :: y in Insert(s, x, less) <==> y == x || y in s
  {
    if s != [] {
      assert s == [s[0]] + s[1..];
      InsertSorted(s[1..], x, less);
      forall j | 0 <= j < |Insert(s[1..], x, less)| && s[0] != x && !less(x, s[0])
        ensures less(s[0], Insert(s[1..], x, less)[j])
      {
        var y := Insert(s[1..], x, less)[j];
        assert y in Insert(s[1..], x, less);
        assert y == x || y in s[1..];
      }
      if s[0] != x && less(x, s[0]) {
        forall j | 0 <= j < |s| ensures less(x, s[j]) {
          assert j > 0 ==> less(s[0], s[j]);
        }
      }
    }
  }

  lemma {:induction false} SortDedupCorrect<T(!new)>(s: seq<T>, less: (T, T) -> bool)
    requires Total(less)
    ensures Sorted(SortDedup(s, less), less)
    ensures forall y :: y in SortDedup(s, less) <==> y in s
  {
    if s != [] {
      assert s == [s[0]] + s[1..];
      SortDedupCorrect(s[1..], less);
      InsertSorted(SortDedup(s[1..], less), s[0], less);
    }
  }

  /** A set has only one strictly sorted listing. */
  lemma {:induction false} SortedUnique<T(!new)>(s: seq<T>, t: seq<T>, less: (T, T) -> bool)
    requires Total(less) && Sorted(s, less) && Sorted(t, less)
    requires forall y :: y in s <==> y in t
    ensures s == t
  {
    if s == [] {
      assert forall y :: y in multiset(t) ==> y in t;
      assert multiset(t) == multiset{};
      assert |t| == |multiset(t)|;
    } else {
      assert s[0] in t;
      assert t[0] in s;
      HeadIsLeast(s, t[0], less);
      HeadIsLeast(t, s[0], less);
      assert s[0] == t[0];
      TailElements(s, less);
      TailElements(t, less);
      SortedUnique(s[1..], t[1..], less);
      assert s == [s[0]] + s[1..] && t == [t[0]] + t[1..];
    }
  }

  lemma HeadIsLeast<T(!new)>(s: seq<T>, y: T, less: (T, T) -> bool)
    requires Sorted(s, less) && y in s
    ensures y == s[0] || less(s[0], y)
  {
  }

  lemma TailElements<T(!new)>(s: seq<T>, less: (T, T) -> bool)
    requires Total(less) && Sorted(s, less) && s != []
    ensures forall y :: y in s[1..] <==> y in s && y != s[0]
  {
    assert s == [s[0]] + s[1..];
  }

  /** The canonical form depends on the set of elements and on nothing else. */
  lemma SortDedupOfSet<T(!new)>(s: seq<T>, t: seq<T>, less: (T, T) -> bool)
    requires Total(less) && forall y :: y in s <==> y in t
    ensures SortDedup(s, less) == SortDedup(t, less)
  {
    SortDedupCorrect(s, less);
    SortDedupCorrect(t, less);
    SortedUnique(SortDedup(s, less), SortDedup(t, less), less);
  }

  // ------------------------------------------------------------------ strings

  /** Lexicographic order on code points, the order of a BTreeMap keyed by strings. */
  predicate Less(a: string, b: string)
  {
    if b == "" then false
    else if a == "" then true
    else a[0] < b[0] || (a[0] == b[0] && Less(a[1..], b[1..]))
  }

  lemma {:induction false} LessTrichotomy(a: string, b: string)
    ensures Less(a, b) || Less(b, a) || a == b
    ensures !(Less(a, b) && Less(b, a))
  {
    if a != "" && b != "" {
      LessTrichotomy(a[1..], b[1..]);
      assert a == [a[0]] + a[1..] && b == [b[0]] + b[1..];
    }
  }

  lemma {:induction false} LessTransitive(a: string, b: string, c: string)
    requires Less(a, b) && Less(b, c)
    ensures Less(a, c)
  {
    if a != "" && a[0] == b[0] == c[0] {
      LessTransitive(a[1..], b[1..], c[1..]);
    }
  }

  lemma LessIsTotal()
    ensures Total(Less)
  {
    forall a, b ensures (Less(a, b) || Less(b, a) || a == b) && (Less(a, b) ==> !Less(b, a)) {
      LessTrichotomy(a, b);
    }
    forall a, b, c | Less(a, b) && Less(b, c) ensures Less(a, c) {
      LessTransitive(a, b, c);
    }
  }
}
