/**
 Sorting and keyset pagination over any rows and any order that is strict and total on
 them. `ORDER BY` is the one sorted listing of a set of rows, so a query's result is a
 function of the rows and not of how they are stored.
 */
module Keyset {
  import opened Wrappers

  ghost predicate StrictTotalOn<T(!new)>(s: set<T>, lt: (T, T) -> bool) {
    && (forall x <- s :: !lt(x, x))
    && (forall x, y, z :: x in s && y in s && z in s && lt(x, y) && lt(y, z) ==> lt(x, z))
    && (forall x, y :: x in s && y in s && x != y ==> lt(x, y) || lt(y, x))
  }

  ghost predicate IsLeast<T(!new)>(x: T, s: set<T>, lt: (T, T) -> bool) {
    x in s && forall y <- s :: y != x ==> lt(x, y)
  }

  lemma {:induction false} LeastExists<T(!new)>(s: set<T>, lt: (T, T) -> bool)
    requires s != {} && StrictTotalOn(s, lt)
    ensures exists x :: IsLeast(x, s, lt)
  {
    var y :| y in s;
    if s - {y} == {} {
      assert forall x <- s :: x in s - {y} || x == y;
      assert IsLeast(y, s, lt);
    } else {
      LeastExists(s - {y}, lt);
      var x :| IsLeast(x, s - {y}, lt);
      if lt(x, y) {
        assert IsLeast(x, s, lt);
      } else {
        assert lt(y, x);
        assert IsLeast(y, s, lt);
      }
    }
  }

  ghost function Sorted<T(!new)>(s: set<T>, lt: (T, T) -> bool): (l: seq<T>)
    requires StrictTotalOn(s, lt)
    ensures |l| == |s|
    ensures forall x :: x in l <==> x in s
    ensures IsSorted(l, lt)
  {
    if s == {} then []
    else
      LeastExists(s, lt);
      var x :| IsLeast(x, s, lt);
      [x] + Sorted(s - {x}, lt)
  }

  ghost predicate IsSorted<T(!new)>(l: seq<T>, lt: (T, T) -> bool) {
    forall i, j :: 0 <= i < j < |l| ==> lt(l[i], l[j])
  }

  ghost predicate Lists<T(!new)>(l: seq<T>, s: set<T>) {
    forall x :: x in l <==> x in s
  }

  lemma SameHead<T(!new)>(l: seq<T>, m: seq<T>, s: set<T>, lt: (T, T) -> bool)
    requires StrictTotalOn(s, lt) && IsSorted(l, lt) && IsSorted(m, lt)
    requires Lists(l, s) && Lists(m, s) && l != [] && m != []
    ensures l[0] == m[0]
  {
    assert l[0] in l && m[0] in m && m[0] in l && l[0] in m;
    var i :| 0 <= i < |l| && l[i] == m[0];
    var j :| 0 <= j < |m| && m[j] == l[0];
  }

  lemma TailLists<T(!new)>(l: seq<T>, s: set<T>, lt: (T, T) -> bool)
    requires StrictTotalOn(s, lt) && IsSorted(l, lt) && Lists(l, s) && l != []
    ensures IsSorted(l[1..], lt) && Lists(l[1..], s - {l[0]})
  {
    forall x ensures x in l[1..] <==> x in s - {l[0]} {
      if x in l[1..] {
        var i :| 0 <= i < |l| - 1 && l[1..][i] == x;
        assert l[i + 1] == x && lt(l[0], l[i + 1]);
        assert x in l && l[0] in l;
      }
      if x in s - {l[0]} {
        assert x in l;
        var i :| 0 <= i < |l| && l[i] == x;
        assert l[1..][i - 1] == x;
      }
    }
  }

  /** There is only one sorted listing. */
  lemma {:induction false} SortedIsUnique<T(!new)>(l: seq<T>, m: seq<T>, s: set<T>, lt: (T, T) -> bool)
    requires StrictTotalOn(s, lt) && IsSorted(l, lt) && IsSorted(m, lt) && Lists(l, s) && Lists(m, s)
    ensures l == m
    decreases |l|
  {
    assert l != [] ==> l[0] in l;
    assert m != [] ==> m[0] in m;
    if l != [] && m != [] {
      SameHead(l, m, s, lt);
      TailLists(l, s, lt);
      TailLists(m, s, lt);
      SortedIsUnique(l[1..], m[1..], s - {l[0]}, lt);
      assert l == [l[0]] + l[1..] && m == [m[0]] + m[1..];
    }
  }

  ghost function After<T(!new)>(s: set<T>, lt: (T, T) -> bool, cursor: Option<T>): (r: set<T>)
    ensures r <= s
  {
    if cursor.None? then s else set x | x in s && lt(cursor.value, x)
  }

  lemma SubsetStaysTotal<T(!new)>(s: set<T>, big: set<T>, lt: (T, T) -> bool)
    requires StrictTotalOn(big, lt) && s <= big
    ensures StrictTotalOn(s, lt)
  {
  }

  function Min(a: nat, b: nat): nat { if a <= b then a else b }

  /** `WHERE after the cursor ORDER BY ... LIMIT limit + 1`, cut back to the page. */
  ghost function Page<T(!new)>(s: set<T>, lt: (T, T) -> bool, cursor: Option<T>, limit: nat): (r: (seq<T>, bool))
    requires StrictTotalOn(s, lt)
  {
    SubsetStaysTotal(After(s, lt, cursor), s, lt);
    var rows := Sorted(After(s, lt, cursor), lt);
    var fetched := rows[..Min(limit + 1, |rows|)];
    if |fetched| > limit then (fetched[..limit], true) else (fetched, false)
  }

  /** What a page holds, without mentioning how it was cut. */
  lemma PageProperties<T(!new)>(s: set<T>, lt: (T, T) -> bool, cursor: Option<T>, limit: nat)
    requires StrictTotalOn(s, lt) && 1 <= limit
    ensures var (page, more) := Page(s, lt, cursor, limit);
            && |page| <= limit && IsSorted(page, lt)
            && (forall x <- page :: x in After(s, lt, cursor))
            && (!more ==> forall x <- After(s, lt, cursor) :: x in page)
            && (more ==> |page| == limit)
            && (more ==> forall x <- After(s, lt, cursor) :: x in page || lt(page[|page| - 1], x))
  {
    SubsetStaysTotal(After(s, lt, cursor), s, lt);
    var rows := Sorted(After(s, lt, cursor), lt);
    var (page, more) := Page(s, lt, cursor, limit);
    assert page <= rows;
    forall x | x in page ensures x in After(s, lt, cursor) {
      assert x in rows;
    }
    if more {
      forall x | x in After(s, lt, cursor) ensures x in page || lt(page[|page| - 1], x) {
        assert x in rows;
        var i :| 0 <= i < |rows| && rows[i] == x;
        if i < limit {
          assert page[i] == x;
        } else {
          assert lt(rows[limit - 1], rows[i]);
        }
      }
    } else {
      assert page == rows;
    }
  }

  lemma NotBefore<T(!new)>(l: seq<T>, s: set<T>, lt: (T, T) -> bool, i: nat, j: nat)
    requires StrictTotalOn(s, lt) && IsSorted(l, lt) && Lists(l, s) && i < |l| && j < |l|
    ensures lt(l[i], l[j]) ==> i < j
  {
    assert l[i] in l && l[j] in l;
  }

  lemma RowsAfterPosition<T(!new)>(l: seq<T>, s: set<T>, lt: (T, T) -> bool, i: nat)
    requires StrictTotalOn(s, lt) && IsSorted(l, lt) && Lists(l, s) && i < |l|
    ensures Lists(l[i + 1..], After(s, lt, Some(l[i])))
  {
    var rest := l[i + 1..];
    forall x ensures x in rest <==> x in After(s, lt, Some(l[i])) {
      assert l[i] in l;
      if x in rest {
        var j :| 0 <= j < |rest| && rest[j] == x;
        assert x == l[i + 1 + j] && x in l;
      }
      if x in s && lt(l[i], x) {
        assert x in l;
        var j :| 0 <= j < |l| && l[j] == x;
        NotBefore(l, s, lt, i, j);
        assert rest[j - (i + 1)] == x;
      }
    }
  }

  /** What comes after a row of the sorted listing is the rest of the listing. */
  lemma SortedAfter<T(!new)>(l: seq<T>, s: set<T>, lt: (T, T) -> bool, i: nat)
    requires StrictTotalOn(s, lt) && IsSorted(l, lt) && Lists(l, s) && i < |l|
    ensures StrictTotalOn(After(s, lt, Some(l[i])), lt)
    ensures Sorted(After(s, lt, Some(l[i])), lt) == l[i + 1..]
  {
    var after := After(s, lt, Some(l[i]));
    SubsetStaysTotal(after, s, lt);
    RowsAfterPosition(l, s, lt, i);
    SortedIsUnique(Sorted(after, lt), l[i + 1..], after, lt);
  }

  // ---------- strings ----------

  /** Text order by code points, standing for the database's and the locale's collation. */
  predicate Less(a: string, b: string) {
    if b == "" then false
    else if a == "" then true
    else if a[0] != b[0] then a[0] < b[0]
    else Less(a[1..], b[1..])
  }

  lemma {:induction false} LessIsIrreflexive(a: string)
    ensures !Less(a, a)
  {
    if a != "" {
      LessIsIrreflexive(a[1..]);
    }
  }

  lemma {:induction false} LessIsTransitive(a: string, b: string, c: string)
    requires Less(a, b) && Less(b, c)
    ensures Less(a, c)
  {
    if a != "" && a[0] == b[0] == c[0] {
      LessIsTransitive(a[1..], b[1..], c[1..]);
    }
  }

  lemma {:induction false} LessIsTotal(a: string, b: string)
    ensures a == b || Less(a, b) || Less(b, a)
  {
    if a != "" && b != "" && a[0] == b[0] {
      LessIsTotal(a[1..], b[1..]);
      assert a == [a[0]] + a[1..] && b == [b[0]] + b[1..];
    }
  }

  lemma LessIsAsymmetric(a: string, b: string)
    requires Less(a, b)
    ensures !Less(b, a) && a != b
  {
    LessIsIrreflexive(a);
    if Less(b, a) {
      LessIsTransitive(a, b, a);
    }
  }

  lemma LessIsStrictTotal()
    ensures forall a: string :: !Less(a, a)
    ensures forall a, b, c :: Less(a, b) && Less(b, c) ==> Less(a, c)
    ensures forall a, b :: a == b || Less(a, b) || Less(b, a)
    ensures forall a, b :: Less(a, b) ==> !Less(b, a)
  {
    forall a: string ensures !Less(a, a) {
      LessIsIrreflexive(a);
    }
    forall a, b, c | Less(a, b) && Less(b, c) ensures Less(a, c) {
      LessIsTransitive(a, b, c);
    }
    forall a, b ensures a == b || Less(a, b) || Less(b, a) {
      LessIsTotal(a, b);
    }
    forall a, b | Less(a, b) ensures !Less(b, a) {
      LessIsAsymmetric(a, b);
    }
  }
}
