/**
 Capped pools.

 The relay bounds every relation it stores by sorting it and keeping one end of the
 result. A relation is a set, so whenever two rows compare equal the row that is kept
 is not determined. `Keeps` is the relation "the cap may leave exactly these rows";
 `Best` is the closed form that is exact when no two rows tie.
 */
module Pools {

  /** `pref(a, b)` reads "a is kept in preference to b, or ties with it". */
  ghost predicate TotalPreorder<T>(items: set<T>, pref: (T, T) -> bool) {
    && (forall a, b :: a in items && b in items ==> pref(a, b) || pref(b, a))
    && (forall a, b, c :: a in items && b in items && c in items && pref(a, b) && pref(b, c) ==> pref(a, c))
  }

  /** No two rows tie. */
  ghost predicate Strict<T>(items: set<T>, pref: (T, T) -> bool) {
    forall a, b :: a in items && b in items && pref(a, b) && pref(b, a) ==> a == b
  }

  function Smaller(n: nat, m: nat): nat { if n <= m then n else m }

  /** The cap to `n` rows may leave exactly `kept`. */
  ghost predicate Keeps<T>(items: set<T>, n: nat, pref: (T, T) -> bool, kept: set<T>) {
    && kept <= items
    && |kept| == Smaller(n, |items|)
    && forall a, b :: a in kept && b in items && b !in kept ==> pref(a, b)
  }

  /** The rows strictly preferred to `x`. */
  function Ahead<T(==)>(items: set<T>, pref: (T, T) -> bool, x: T): set<T> {
    set y | y in items && !pref(x, y)
  }

  /** The rows that have fewer than `n` rows strictly ahead of them. */
  function Best<T(==)>(items: set<T>, n: nat, pref: (T, T) -> bool): set<T> {
    set x | x in items && |Ahead(items, pref, x)| < n
  }

  /** The rows other than `x` that a tie-break may put in front of `x`. */
  function Rivals<T(==)>(items: set<T>, pref: (T, T) -> bool, x: T): set<T> {
    set y | y in items && y != x && pref(y, x)
  }

  lemma SubsetCard<T>(a: set<T>, b: set<T>)
    requires a <= b
    ensures |a| <= |b|
    ensures |a| == |b| ==> a == b
  {
    assert b == a + (b - a);
    assert |b| == |a| + |b - a|;
    if |a| == |b| { assert b - a == {}; }
  }

  /** A non-empty pool has a row that every other row is preferred to or ties with. */
  lemma {:induction false} Worst<T>(items: set<T>, pref: (T, T) -> bool) returns (w: T)
    requires items != {}
    requires TotalPreorder(items, pref)
    ensures w in items
    ensures forall x :: x in items ==> pref(x, w)
    decreases |items|
  {
    var first :| first in items;
    w := first;
    var rest := items - {first};
    if rest == {} {
      assert items == {first};
    } else {
      var v := Worst(rest, pref);
      w := if pref(first, v) then v else first;
      forall x | x in items ensures pref(x, w) {
        assert pref(x, x);
        if x != first { assert pref(x, v); }
      }
    }
  }

  /** Some outcome of the cap always exists. */
  lemma {:induction false} SomeOutcome<T>(items: set<T>, n: nat, pref: (T, T) -> bool) returns (kept: set<T>)
    requires TotalPreorder(items, pref)
    ensures Keeps(items, n, pref, kept)
    decreases |items|
  {
    if |items| <= n {
      kept := items;
    } else {
      var w := Worst(items, pref);
      kept := SomeOutcome(items - {w}, n, pref);
    }
  }

  /** When no two rows tie, the cap has exactly one outcome, and it is `Best`. */
  lemma {:induction false} StrictOutcome<T>(items: set<T>, n: nat, pref: (T, T) -> bool, kept: set<T>)
    requires TotalPreorder(items, pref) && Strict(items, pref)
    ensures Keeps(items, n, pref, kept) <==> kept == Best(items, n, pref)
  {
    var k := SomeOutcome(items, n, pref);
    OutcomeIsBest(items, n, pref, k);
    if Keeps(items, n, pref, kept) { OutcomeIsBest(items, n, pref, kept); }
  }

  lemma OutcomeIsBest<T>(items: set<T>, n: nat, pref: (T, T) -> bool, kept: set<T>)
    requires TotalPreorder(items, pref) && Strict(items, pref)
    requires Keeps(items, n, pref, kept)
    ensures kept == Best(items, n, pref)
  {
    forall x | x in items ensures x in kept <==> x in Best(items, n, pref) {
      var ahead := Ahead(items, pref, x);
      if x in kept {
        assert ahead <= kept - {x};
        SubsetCard(ahead, kept - {x});
      } else {
        assert kept <= ahead;
        SubsetCard(kept, ahead);
        if |items| <= n { SubsetCard(kept, items); }
      }
    }
  }

  /** `x` survives the cap however ties are broken, if and only if fewer than `n` other
      rows are preferred to it or tie with it. */
  lemma SurvivesEveryTieBreak<T>(items: set<T>, n: nat, pref: (T, T) -> bool, x: T)
    requires TotalPreorder(items, pref)
    requires x in items
    ensures (forall kept :: Keeps(items, n, pref, kept) ==> x in kept)
       <==> |Rivals(items, pref, x)| < n
  {
    var rivals := Rivals(items, pref, x);
    if |rivals| < n {
      forall kept | Keeps(items, n, pref, kept) ensures x in kept {
        if x !in kept {
          assert kept <= rivals;
          SubsetCard(kept, rivals);
          SubsetCard(kept, items);
          assert false;
        }
      }
    } else {
      var kept := OutcomeWithout(items, n, pref, x);
      assert Keeps(items, n, pref, kept) && x !in kept;
    }
  }

  lemma OutcomeWithout<T>(items: set<T>, n: nat, pref: (T, T) -> bool, x: T) returns (kept: set<T>)
    requires TotalPreorder(items, pref)
    requires x in items
    requires |Rivals(items, pref, x)| >= n
    ensures Keeps(items, n, pref, kept) && x !in kept
  {
    var others := items - {x};
    var rivals := Rivals(items, pref, x);
    kept := SomeOutcome(others, n, pref);
    SubsetCard(rivals, others);
    assert |items| == |others| + 1;
    forall a | a in kept ensures pref(a, x) {
      if !pref(a, x) {
        forall y | y in rivals ensures y in kept {
          assert pref(a, y) ==> pref(a, x);
        }
        assert rivals <= kept - {a};
        SubsetCard(rivals, kept - {a});
        assert false;
      }
    }
  }

  lemma NeverKept<T>(items: set<T>, n: nat, pref: (T, T) -> bool, x: T, kept: set<T>)
    requires TotalPreorder(items, pref) && Keeps(items, n, pref, kept)
    requires x in items && |Ahead(items, pref, x)| >= n
    ensures x !in kept
  {
    if x in kept {
      var ahead := Ahead(items, pref, x);
      assert ahead <= kept - {x};
      SubsetCard(ahead, kept - {x});
    }
  }

  lemma OutcomeWith<T>(items: set<T>, n: nat, pref: (T, T) -> bool, x: T) returns (kept: set<T>)
    requires TotalPreorder(items, pref)
    requires x in items && |Ahead(items, pref, x)| < n
    ensures Keeps(items, n, pref, kept) && x in kept
  {
    var others := items - {x};
    var best := SomeOutcome(others, n - 1, pref);
    kept := best + {x};
    forall b | b in items && b !in kept ensures pref(x, b) {
      if !pref(x, b) {
        forall a | a in best ensures !pref(x, a) { assert pref(x, a) && pref(a, b) ==> pref(x, b); }
        SubsetCard(best + {b}, Ahead(items, pref, x));
        SubsetCard(best + {b}, others);
      }
    }
  }

  /** Which rows stay does not depend on how ties are broken. */
  ghost predicate OneOutcome<T(!new)>(items: set<T>, n: nat, pref: (T, T) -> bool) {
    forall a, b :: Keeps(items, n, pref, a) && Keeps(items, n, pref, b) ==> a == b
  }

  /** Each row is sure to stay, fewer than `n` others being as good, or sure to go, `n` of
      them being better. */
  ghost predicate Settled<T>(items: set<T>, n: nat, pref: (T, T) -> bool) {
    forall x :: x in items ==> |Rivals(items, pref, x)| < n || |Ahead(items, pref, x)| >= n
  }

  /** A cap is deterministic if and only if no row can go either way. */
  lemma OneOutcomeExactly<T(!new)>(items: set<T>, n: nat, pref: (T, T) -> bool)
    requires TotalPreorder(items, pref)
    ensures OneOutcome(items, n, pref) <==> Settled(items, n, pref)
  {
    if x :| x in items && |Rivals(items, pref, x)| >= n && |Ahead(items, pref, x)| < n {
      var a := OutcomeWith(items, n, pref, x);
      var b := OutcomeWithout(items, n, pref, x);
      assert a != b;
    } else {
      forall a, b | Keeps(items, n, pref, a) && Keeps(items, n, pref, b) ensures a == b {
        OutcomeIsSure(items, n, pref, a, b);
        OutcomeIsSure(items, n, pref, b, a);
      }
    }
  }

  lemma OutcomeIsSure<T>(items: set<T>, n: nat, pref: (T, T) -> bool, a: set<T>, b: set<T>)
    requires TotalPreorder(items, pref) && Keeps(items, n, pref, a) && Keeps(items, n, pref, b)
    requires Settled(items, n, pref)
    ensures a <= b
  {
    forall x | x in a ensures x in b {
      if |Rivals(items, pref, x)| < n {
        SurvivesEveryTieBreak(items, n, pref, x);
      } else {
        NeverKept(items, n, pref, x, a);
      }
    }
  }

  /** `s` lists every row of `items` once. */
  ghost predicate Lists<T>(s: seq<T>, items: set<T>) {
    && |s| == |items|
    && (forall i :: 0 <= i < |s| ==> s[i] in items)
    && (forall x :: x in items ==> x in s)
  }

  /** `s` is in descending preference. */
  ghost predicate Ranked<T>(s: seq<T>, pref: (T, T) -> bool) {
    forall i, j :: 0 <= i < j < |s| ==> pref(s[i], s[j])
  }

  function Elements<T(==)>(s: seq<T>): set<T> { set x | x in s }

  lemma {:induction false} ElementsCard<T>(s: seq<T>)
    ensures |Elements(s)| <= |s|
    ensures |Elements(s)| == |s| ==> forall i, j :: 0 <= i < j < |s| ==> s[i] != s[j]
  {
    if s != [] {
      var t := s[..|s| - 1];
      var x := s[|s| - 1];
      ElementsCard(t);
      assert s == t + [x];
      assert Elements(s) == Elements(t) + {x};
      if x in t {
        assert Elements(s) == Elements(t);
      }
    }
  }

  lemma {:induction false} DistinctCard<T>(s: seq<T>)
    requires forall i, j :: 0 <= i < j < |s| ==> s[i] != s[j]
    ensures |Elements(s)| == |s|
  {
    if s != [] {
      var t := s[..|s| - 1];
      DistinctCard(t);
      assert s == t + [s[|s| - 1]];
      assert Elements(s) == Elements(t) + {s[|s| - 1]};
    }
  }

  /** Taking the front of a ranked listing is a legal outcome of the cap. */
  lemma FrontIsOutcome<T>(s: seq<T>, items: set<T>, n: nat, pref: (T, T) -> bool)
    requires Lists(s, items) && Ranked(s, pref)
    ensures Keeps(items, n, pref, Elements(s[..Smaller(n, |s|)]))
  {
    var k := Smaller(n, |s|);
    var front := s[..k];
    assert Elements(s) == items;
    ElementsCard(s);
    DistinctCard(front);
    forall a, b | a in Elements(front) && b in items && b !in Elements(front) ensures pref(a, b) {
      var i :| 0 <= i < k && s[i] == a;
      var j :| 0 <= j < |s| && s[j] == b;
    }
  }

  /** The relation as a list in descending preference: a stored relation has no order of
      its own, so the caller's `pref` is the only order there is. */
  method SortBy<T(==)>(items: set<T>, pref: (T, T) -> bool) returns (s: seq<T>)
    requires TotalPreorder(items, pref)
    ensures Lists(s, items) && Ranked(s, pref)
  {
    s := [];
    var left := items;
    while left != {}
      invariant left <= items
      invariant |s| + |left| == |items|
      invariant forall i :: 0 <= i < |s| ==> s[i] in items
      invariant forall x :: x in items ==> x in left || x in s
      invariant Ranked(s, pref)
      invariant forall i, x :: 0 <= i < |s| && x in left ==> pref(s[i], x)
      decreases |left|
    {
      var m :| m in left;
      var scan := left - {m};
      while scan != {}
        invariant m in left && scan <= left
        invariant forall x :: x in left && x !in scan ==> pref(m, x)
        decreases |scan|
      {
        var x :| x in scan;
        scan := scan - {x};
        if !pref(m, x) { m := x; }
      }
      ghost var before := s;
      s := s + [m];
      left := left - {m};
      assert forall x :: x in before ==> x in s;
      assert m in s;
    }
  }

  /** Keep the `n` most preferred rows. */
  method Cap<T(==)>(items: set<T>, n: nat, pref: (T, T) -> bool) returns (kept: set<T>)
    requires TotalPreorder(items, pref)
    ensures Keeps(items, n, pref, kept)
  {
    var s := SortBy(items, pref);
    FrontIsOutcome(s, items, n, pref);
    kept := Elements(s[..Smaller(n, |s|)]);
  }
}
