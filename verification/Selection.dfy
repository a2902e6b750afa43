/**
 Choosing a least backend by scanning a list: the shape shared by every strategy.
 Backends are their IDs, compared in the byte order of strings.
 */
module Selection {

  predicate IdLess(a: string, b: string) {
    b != [] && (a == [] || if a[0] != b[0] then a[0] < b[0] else IdLess(a[1..], b[1..]))
  }

  /** On distinct elements `less` is a strict total order. (Nothing is said of less(a, a).) */
  ghost predicate Orders<T(!new)>(less: (T, T) -> bool) {
    && (forall a, b :: a != b ==> less(a, b) != less(b, a))
    && (forall a, b, c :: a != b && b != c && a != c && less(a, b) && less(b, c) ==> less(a, c))
  }

  ghost predicate IsLeast<T(!new)>(less: (T, T) -> bool, xs: seq<T>, best: T) {
    best in xs && forall x :: x in xs && x != best ==> less(best, x)
  }

  /** The scan of the strategies: keep the first, replace on strictly less. */
  method Least<T(==, !new)>(less: (T, T) -> bool, xs: seq<T>) returns (best: T)
    requires xs != [] && Orders(less)
    ensures IsLeast(less, xs, best)
  {
    best := xs[0];
    for i := 1 to |xs|
      invariant best in xs && forall k :: 0 <= k < i && xs[k] != best ==> less(best, xs[k])
    {
      if less(xs[i], best) {
        best := xs[i];
      }
    }
  }

  /** The same scan around a ring from any starting point. */
  method LeastAround<T(==, !new)>(less: (T, T) -> bool, xs: seq<T>, start: nat) returns (best: T)
    requires start < |xs| && Orders(less)
    ensures IsLeast(less, xs, best)
  {
    best := xs[start];
    for offset := 1 to |xs|
      invariant best in xs
      invariant forall j :: 0 <= j < |xs| && (start <= j < start + offset || j + |xs| < start + offset) && xs[j] != best
                  ==> less(best, xs[j])
    {
      WrapOnce(start + offset, |xs|);
      var candidate := xs[(start + offset) % |xs|];
      if less(candidate, best) {
        best := candidate;
      }
    }
  }

  lemma WrapOnce(i: nat, n: nat)
    requires n <= i < 2 * n || i < n
    ensures n > 0 && i % n == if i < n then i else i - n
  {
  }

  /** The choice depends on the candidates alone, not on their order or repetition. */
  lemma LeastIsUnique<T(!new)>(less: (T, T) -> bool, xs: seq<T>, ys: seq<T>, a: T, b: T)
    requires Orders(less) && (forall x :: x in xs <==> x in ys)
    requires IsLeast(less, xs, a) && IsLeast(less, ys, b)
    ensures a == b
  {
  }

  /** A newcomer takes over exactly when it beats the winner; otherwise the winner stays. */
  lemma NewcomerOrWinner<T(!new)>(less: (T, T) -> bool, xs: seq<T>, ys: seq<T>, newcomer: T, winner: T, choice: T)
    requires Orders(less) && IsLeast(less, xs, winner) && newcomer !in xs
    requires forall y :: y in ys <==> y in xs || y == newcomer
    requires IsLeast(less, ys, choice)
    ensures choice == if less(newcomer, winner) then newcomer else winner
  {
  }

  // ---------------------------------------------------------------- the order of IDs

  lemma {:induction false} IdTrichotomy(a: string, b: string)
    requires a != b
    ensures IdLess(a, b) != IdLess(b, a)
    decreases |a|
  {
    if a != [] && b != [] && a[0] == b[0] {
      assert a == [a[0]] + a[1..] && b == [b[0]] + b[1..];
      IdTrichotomy(a[1..], b[1..]);
    }
  }

  lemma {:induction false} IdTransitive(a: string, b: string, c: string)
    requires IdLess(a, b) && IdLess(b, c)
    ensures IdLess(a, c)
    decreases |a|
  {
    if a != [] && b != [] && c != [] && a[0] == b[0] == c[0] {
      IdTransitive(a[1..], b[1..], c[1..]);
    }
  }

  /** The order of IDs is the byte order: a proper prefix first, else the first difference decides. */
  lemma {:induction false} IdLessMeans(a: string, b: string)
    ensures IdLess(a, b) <==>
            (|a| < |b| && a == b[..|a|])
            || exists i :: 0 <= i < |a| && i < |b| && a[..i] == b[..i] && a[i] < b[i]
    decreases |a|
  {
    if a != [] && b != [] {
      assert a == [a[0]] + a[1..] && b == [b[0]] + b[1..];
      if a[0] == b[0] {
        IdLessMeans(a[1..], b[1..]);
        SameHead(a, b);
      } else if a[0] < b[0] {
        assert a[..0] == b[..0];
      } else {
        forall i | 0 < i < |a| && i < |b| ensures a[..i] != b[..i] { assert a[..i][0] != b[..i][0]; }
        assert |a| < |b| ==> a[0] != b[..|a|][0];
      }
    }
  }

  lemma SameHead(a: string, b: string)
    requires a != [] && b != [] && a[0] == b[0]
    ensures (|a| < |b| && a == b[..|a|]) <==> |a[1..]| < |b[1..]| && a[1..] == b[1..][..|a[1..]|]
    ensures (exists i :: 0 <= i < |a| && i < |b| && a[..i] == b[..i] && a[i] < b[i]) <==>
            exists i :: 0 <= i < |a[1..]| && i < |b[1..]| && a[1..][..i] == b[1..][..i] && a[1..][i] < b[1..][i]
  {
    if |a| < |b| {
      SamePrefix(a, b, |a|);
      assert a[..|a|] == a && a[1..][..|a| - 1] == a[1..];
    }
    if i :| 0 <= i < |a| && i < |b| && a[..i] == b[..i] && a[i] < b[i] {
      SamePrefix(a, b, i);
      assert a[1..][i - 1] < b[1..][i - 1];
    }
    if i :| 0 <= i < |a[1..]| && i < |b[1..]| && a[1..][..i] == b[1..][..i] && a[1..][i] < b[1..][i] {
      SamePrefix(a, b, i + 1);
      assert a[i + 1] < b[i + 1];
    }
  }

  lemma SamePrefix(a: string, b: string, i: nat)
    requires a != [] && b != [] && a[0] == b[0] && 0 < i <= |a| && i <= |b|
    ensures a[..i] == b[..i] <==> a[1..][..i - 1] == b[1..][..i - 1]
  {
    assert a[1..][..i - 1] == a[..i][1..] && b[1..][..i - 1] == b[..i][1..];
    assert a[..i] == [a[0]] + a[..i][1..] && b[..i] == [b[0]] + b[..i][1..];
  }

  lemma IdOrder()
    ensures Orders(IdLess)
  {
    forall a, b | a != b ensures IdLess(a, b) != IdLess(b, a) { IdTrichotomy(a, b); }
    forall a, b, c | IdLess(a, b) && IdLess(b, c) ensures IdLess(a, c) { IdTransitive(a, b, c); }
  }

  /** Ties on a first key broken by a second order give an order. */
  lemma LexOrder<T(!new)>(key: T -> real, rest: (T, T) -> bool, less: (T, T) -> bool)
    requires Orders(rest)
    requires forall a, b :: less(a, b) == if key(a) != key(b) then key(a) < key(b) else rest(a, b)
    ensures Orders(less)
  {
  }
}
