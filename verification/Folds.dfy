/** Folds over sequences with a commutative addition, and insertion sort by a total preorder. */
module Folds {
  import opened Options

  ghost predicate CommutativeMonoid<M(!new)>(plus: (M, M) -> M, zero: M) {
    && (forall a :: plus(zero, a) == a)
    && (forall a, b :: plus(a, b) == plus(b, a))
    && (forall a, b, c :: plus(plus(a, b), c) == plus(a, plus(b, c)))
  }

  lemma Laws<M(!new)>(plus: (M, M) -> M, zero: M, a: M, b: M, c: M)
    requires CommutativeMonoid(plus, zero)
    ensures plus(zero, a) == a && plus(a, zero) == a
    ensures plus(a, b) == plus(b, a)
    ensures plus(plus(a, b), c) == plus(a, plus(b, c))
    ensures plus(a, plus(b, c)) == plus(b, plus(a, c))
  {
    assert plus(plus(a, b), c) == plus(plus(b, a), c);
  }

  function Fold<B, M>(f: B -> M, plus: (M, M) -> M, zero: M, bs: seq<B>): M
    decreases |bs|
  {
    if bs == [] then zero else plus(f(bs[0]), Fold(f, plus, zero, bs[1..]))
  }

  lemma {:induction false} FoldConcat<B, M(!new)>(f: B -> M, plus: (M, M) -> M, zero: M, a: seq<B>, b: seq<B>)
    requires CommutativeMonoid(plus, zero)
    ensures Fold(f, plus, zero, a + b) == plus(Fold(f, plus, zero, a), Fold(f, plus, zero, b))
    decreases |a|
  {
    hide CommutativeMonoid;
    if a == [] {
      assert a + b == b;
      Laws(plus, zero, Fold(f, plus, zero, b), zero, zero);
    } else {
      FoldConcat(f, plus, zero, a[1..], b);
      Laws(plus, zero, f(a[0]), Fold(f, plus, zero, a[1..]), Fold(f, plus, zero, b));
      assert (a + b)[1..] == a[1..] + b;
    }
  }

  lemma FoldSnoc<B, M(!new)>(f: B -> M, plus: (M, M) -> M, zero: M, bs: seq<B>, i: nat)
    requires CommutativeMonoid(plus, zero) && i < |bs|
    ensures Fold(f, plus, zero, bs[..i + 1]) == plus(Fold(f, plus, zero, bs[..i]), f(bs[i]))
  {
    hide CommutativeMonoid;
    FoldConcat(f, plus, zero, bs[..i], [bs[i]]);
    Laws(plus, zero, f(bs[i]), zero, zero);
    assert bs[..i + 1] == bs[..i] + [bs[i]];
    assert Fold(f, plus, zero, [bs[i]]) == plus(f(bs[i]), Fold(f, plus, zero, []));
  }

  lemma FoldTakeOut<B, M(!new)>(f: B -> M, plus: (M, M) -> M, zero: M, bs: seq<B>, i: nat)
    requires CommutativeMonoid(plus, zero) && i < |bs|
    ensures Fold(f, plus, zero, bs) == plus(f(bs[i]), Fold(f, plus, zero, bs[..i] + bs[i + 1..]))
  {
    hide CommutativeMonoid;
    var x, y, z := Fold(f, plus, zero, bs[..i]), f(bs[i]), Fold(f, plus, zero, bs[i + 1..]);
    FoldConcat(f, plus, zero, bs[..i], bs[i..]);
    FoldConcat(f, plus, zero, bs[..i], bs[i + 1..]);
    assert bs == bs[..i] + bs[i..] && bs[i..][1..] == bs[i + 1..];
    Laws(plus, zero, x, y, z);
  }

  /** A fold does not depend on the order of its items. */
  lemma {:induction false} FoldPermutes<B, M(!new)>(f: B -> M, plus: (M, M) -> M, zero: M, a: seq<B>, b: seq<B>)
    requires CommutativeMonoid(plus, zero) && multiset(a) == multiset(b)
    ensures Fold(f, plus, zero, a) == Fold(f, plus, zero, b)
    decreases |a|
  {
    hide CommutativeMonoid;
    if a == [] {
      assert |multiset(b)| == 0;
    } else {
      var i := Position(a, b);
      FoldTakeOut(f, plus, zero, b, i);
      var rest := b[..i] + b[i + 1..];
      RestPermutes(a, b, i);
      FoldPermutes(f, plus, zero, a[1..], rest);
    }
  }

  lemma RestPermutes<B>(a: seq<B>, b: seq<B>, i: nat)
    requires a != [] && multiset(a) == multiset(b) && i < |b| && b[i] == a[0]
    ensures multiset(a[1..]) == multiset(b[..i] + b[i + 1..])
  {
    assert a == [a[0]] + a[1..] && b == b[..i] + [b[i]] + b[i + 1..];
    assert multiset(a[1..]) == multiset(a) - multiset{a[0]} == multiset(b) - multiset{b[i]};
  }

  lemma Position<B>(a: seq<B>, b: seq<B>) returns (i: nat)
    requires a != [] && multiset(a) == multiset(b)
    ensures i < |b| && b[i] == a[0]
  {
    assert a[0] in multiset(b);
    i :| 0 <= i < |b| && b[i] == a[0];
  }

  // ---------------------------------------------------------------- sorting

  ghost predicate TotalPreorder<T(!new)>(le: (T, T) -> bool) {
    && (forall a, b :: le(a, b) || le(b, a))
    && (forall a, b, c :: le(a, b) && le(b, c) ==> le(a, c))
  }

  /** Items that tie are the same item. */
  ghost predicate NoTies<T>(le: (T, T) -> bool, s: seq<T>) {
    forall x, y :: x in s && y in s && le(x, y) && le(y, x) ==> x == y
  }

  ghost predicate Sorted<T>(le: (T, T) -> bool, s: seq<T>) {
    forall i, j :: 0 <= i < j < |s| ==> le(s[i], s[j])
  }

  /** Stable: an item goes behind those that are not after it. */
  function Insert<T>(le: (T, T) -> bool, s: seq<T>, x: T): (r: seq<T>)
    ensures multiset(r) == multiset(s) + multiset{x}
    ensures |r| == |s| + 1
  {
    if s == [] then [x]
    else if le(s[0], x) then
      assert s == [s[0]] + s[1..];
      [s[0]] + Insert(le, s[1..], x)
    else [x] + s
  }

  function Sort<T>(le: (T, T) -> bool, s: seq<T>): (r: seq<T>)
    ensures multiset(r) == multiset(s)
    ensures |r| == |s|
  {
    if s == [] then []
    else
      assert s == s[..|s| - 1] + [s[|s| - 1]];
      Insert(le, Sort(le, s[..|s| - 1]), s[|s| - 1])
  }

  lemma LeastInFront<T(!new)>(le: (T, T) -> bool, x: T, s: seq<T>)
    requires Sorted(le, s) && forall j :: 0 <= j < |s| ==> le(x, s[j])
    ensures Sorted(le, [x] + s)
  {
  }

  lemma InsertedFrom<T>(le: (T, T) -> bool, s: seq<T>, x: T, y: T)
    requires y in Insert(le, s, x)
    ensures y == x || y in s
  {
    assert y in multiset(Insert(le, s, x));
    assert y in multiset(s) + multiset{x};
  }

  lemma {:induction false} InsertSorts<T(!new)>(le: (T, T) -> bool, s: seq<T>, x: T)
    requires TotalPreorder(le) && Sorted(le, s)
    ensures Sorted(le, Insert(le, s, x))
    decreases |s|
  {
    if s == [] {
    } else if le(s[0], x) {
      var r := Insert(le, s[1..], x);
      InsertSorts(le, s[1..], x);
      forall j | 0 <= j < |r| ensures le(s[0], r[j]) {
        InsertedFrom(le, s[1..], x, r[j]);
      }
      hide Sorted, TotalPreorder;
      LeastInFront(le, s[0], r);
    } else {
      assert le(x, s[0]);
      LeastInFront(le, x, s);
    }
  }

  lemma {:induction false} SortSorts<T(!new)>(le: (T, T) -> bool, s: seq<T>)
    requires TotalPreorder(le)
    ensures Sorted(le, Sort(le, s))
    decreases |s|
  {
    if s != [] {
      SortSorts(le, s[..|s| - 1]);
      InsertSorts(le, Sort(le, s[..|s| - 1]), s[|s| - 1]);
    }
  }

  lemma LeastFirst<T(!new)>(le: (T, T) -> bool, a: seq<T>, b: seq<T>)
    requires TotalPreorder(le) && NoTies(le, a) && Sorted(le, a) && Sorted(le, b) && multiset(a) == multiset(b) &&
      a != [] && b != []
    ensures a[0] == b[0]
  {
    assert a[0] in multiset(b) && b[0] in multiset(a);
    var i :| 0 <= i < |b| && b[i] == a[0];
    var j :| 0 <= j < |a| && a[j] == b[0];
    if i > 0 && j > 0 { assert le(b[0], b[i]) && le(a[0], a[j]); }
  }

  lemma {:induction false} SortedUnique<T(!new)>(le: (T, T) -> bool, a: seq<T>, b: seq<T>)
    requires TotalPreorder(le) && NoTies(le, a) && Sorted(le, a) && Sorted(le, b) && multiset(a) == multiset(b)
    ensures a == b
    decreases |a|
  {
    assert |a| == |multiset(a)| == |multiset(b)| == |b|;
    if a != [] {
      LeastFirst(le, a, b);
      assert a == [a[0]] + a[1..] && b == [b[0]] + b[1..];
      assert multiset(a[1..]) == multiset(a) - multiset{a[0]} == multiset(b[1..]);
      SortedUnique(le, a[1..], b[1..]);
    }
  }

  lemma SortPermutes<T(!new)>(le: (T, T) -> bool, a: seq<T>, b: seq<T>)
    requires TotalPreorder(le) && NoTies(le, a) && multiset(a) == multiset(b)
    ensures Sort(le, a) == Sort(le, b)
  {
    SortSorts(le, a);
    SortSorts(le, b);
    forall x | x in Sort(le, a) ensures x in a { assert x in multiset(Sort(le, a)); }
    SortedUnique(le, Sort(le, a), Sort(le, b));
  }
}
