/** The parts of the SELECT statements over `orders` that the list handlers
    use: a WHERE filter, SQLite's LIKE operator and an ORDER BY on one of
    four keys.
    SQLite leaves the order of rows with equal keys open; this model keeps
    them in table (rowid) order. */
module Listing {
  import opened Text
  import opened Store

  /** The ORDER BY clauses the handlers write. */
  datatype SortKey = TotalAsc | TotalDesc | StatusAsc | CreatedDesc

  /** String comparison under SQLite's BINARY collation: code point by code
      point, a proper prefix first. */
  predicate TextLe(a: string, b: string)
    decreases |a|
  {
    a == [] || (b != [] && (a[0] < b[0] || (a[0] == b[0] && TextLe(a[1..], b[1..]))))
  }

  lemma {:induction false} TextLeTotal(a: string, b: string)
    ensures TextLe(a, b) || TextLe(b, a)
    decreases |a|
  {
    if a != [] && b != [] && a[0] == b[0] {
      TextLeTotal(a[1..], b[1..]);
    }
  }

  lemma {:induction false} TextLeTransitive(a: string, b: string, c: string)
    requires TextLe(a, b) && TextLe(b, c)
    ensures TextLe(a, c)
    decreases |a|
  {
    if a != [] && a[0] == b[0] && b[0] == c[0] {
      TextLeTransitive(a[1..], b[1..], c[1..]);
    }
  }

  /** Row `a` may come before row `b` under the key. */
  predicate InOrder(k: SortKey, a: Order, b: Order) {
    match k
    case TotalAsc => a.total <= b.total
    case TotalDesc => a.total >= b.total
    case StatusAsc => TextLe(a.status, b.status)
    case CreatedDesc => a.createdAt >= b.createdAt
  }

  lemma InOrderTotal(k: SortKey, a: Order, b: Order)
    ensures InOrder(k, a, b) || InOrder(k, b, a)
  {
    if k == StatusAsc {
      TextLeTotal(a.status, b.status);
    }
  }

  lemma InOrderTransitive(k: SortKey, a: Order, b: Order, c: Order)
    requires InOrder(k, a, b) && InOrder(k, b, c)
    ensures InOrder(k, a, c)
  {
    if k == StatusAsc {
      TextLeTransitive(a.status, b.status, c.status);
    }
  }

  /** `rows`, seen through `order`, are in key order. */
  predicate Sorted<T>(k: SortKey, rows: seq<T>, order: T -> Order) {
    forall i, j :: 0 <= i < j < |rows| ==> InOrder(k, order(rows[i]), order(rows[j]))
  }

  /** Puts `x` behind every row it does not strictly precede, so rows with
      equal keys keep the order in which they arrive. */
  function Insert<T>(k: SortKey, x: T, rows: seq<T>, order: T -> Order): (r: seq<T>)
    ensures multiset(r) == multiset(rows) + multiset{x}
    decreases |rows|
  {
    if rows == [] then [x]
    else if !InOrder(k, order(rows[0]), order(x)) then [x] + rows
    else
      assert rows == [rows[0]] + rows[1..];
      [rows[0]] + Insert(k, x, rows[1..], order)
  }

  /** A row placed in front of a sorted run that it may precede keeps it sorted. */
  lemma PrependSorted<T>(k: SortKey, x: T, rows: seq<T>, order: T -> Order)
    requires Sorted(k, rows, order)
    requires forall y :: y in rows ==> InOrder(k, order(x), order(y))
    ensures Sorted(k, [x] + rows, order)
  {
    var r := [x] + rows;
    forall i, j | 0 <= i < j < |r|
      ensures InOrder(k, order(r[i]), order(r[j]))
    {
      if i == 0 {
        assert r[j] == rows[j - 1];
      } else {
        assert r[i] == rows[i - 1] && r[j] == rows[j - 1];
      }
    }
  }

  lemma {:induction false} InsertSorted<T>(k: SortKey, x: T, rows: seq<T>, order: T -> Order)
    requires Sorted(k, rows, order)
    ensures Sorted(k, Insert(k, x, rows, order), order)
    decreases |rows|
  {
    if rows == [] {
    } else if !InOrder(k, order(rows[0]), order(x)) {
      InOrderTotal(k, order(rows[0]), order(x));
      forall y | y in rows
        ensures InOrder(k, order(x), order(y))
      {
        var m :| 0 <= m < |rows| && rows[m] == y;
        if m > 0 {
          InOrderTransitive(k, order(x), order(rows[0]), order(y));
        }
      }
      PrependSorted(k, x, rows, order);
    } else {
      var tail := Insert(k, x, rows[1..], order);
      InsertSorted(k, x, rows[1..], order);
      forall y | y in tail
        ensures InOrder(k, order(rows[0]), order(y))
      {
        assert y in multiset(tail);
        if y != x {
          assert y in multiset(rows[1..]);
          var m :| 0 <= m < |rows[1..]| && rows[1..][m] == y;
          assert rows[m + 1] == y;
        }
      }
      PrependSorted(k, rows[0], tail, order);
    }
  }

  /** The ORDER BY: an insertion sort of `rows` under the key, rows with
      equal keys staying in their original order. */
  function SortBy<T>(k: SortKey, rows: seq<T>, order: T -> Order): (r: seq<T>)
    ensures multiset(r) == multiset(rows)
    decreases |rows|
  {
    if rows == [] then []
    else
      var last := |rows| - 1;
      assert rows == rows[..last] + [rows[last]];
      Insert(k, rows[last], SortBy(k, rows[..last], order), order)
  }

  /** The sorted rows are exactly the input rows, in key order. */
  lemma {:induction false} SortBySorted<T>(k: SortKey, rows: seq<T>, order: T -> Order)
    ensures Sorted(k, SortBy(k, rows, order), order)
    ensures multiset(SortBy(k, rows, order)) == multiset(rows)
    decreases |rows|
  {
    if rows != [] {
      var last := |rows| - 1;
      SortBySorted(k, rows[..last], order);
      InsertSorted(k, rows[last], SortBy(k, rows[..last], order), order);
    }
  }

  /** The WHERE clause: the rows that satisfy `p`, in table order. */
  function Select<T>(rows: seq<T>, p: T -> bool): (r: seq<T>)
    ensures |r| <= |rows|
    decreases |rows|
  {
    if rows == [] then []
    else if p(rows[0]) then [rows[0]] + Select(rows[1..], p)
    else Select(rows[1..], p)
  }

  /** The rows selected are the rows that satisfy `p`, each as often as in the input. */
  lemma {:induction false} SelectKeepsMatches<T>(rows: seq<T>, p: T -> bool)
    ensures forall x :: x in Select(rows, p) ==> p(x)
    ensures forall x :: p(x) ==> multiset(Select(rows, p))[x] == multiset(rows)[x]
    ensures forall x :: !p(x) ==> multiset(Select(rows, p))[x] == 0
    decreases |rows|
  {
    if rows != [] {
      SelectKeepsMatches(rows[1..], p);
      assert rows == [rows[0]] + rows[1..];
    }
  }

  // ---------------------------------------------------------------------------
  // LIKE

  /** SQLite's `s LIKE p` without an ESCAPE clause: '%' matches any run of
      characters, '_' any one character, and other characters match ignoring
      the case of ASCII letters. */
  predicate Like(s: string, p: string)
    ensures HasNoWildcard(p) ==> (Like(s, p) <==> |s| == |p| && OccursAt(s, p, 0))
    decreases |p| + |s|
  {
    if p == [] then s == []
    else if p[0] == '%' then Like(s, p[1..]) || (s != [] && Like(s[1..], p))
    else
      LiteralStep(s, p);
      s != [] && (p[0] == '_' || LowerChar(s[0]) == LowerChar(p[0])) && Like(s[1..], p[1..])
  }

  /** A pattern without wildcards matches letter by letter. */
  lemma LiteralStep(s: string, p: string)
    requires p != []
    ensures HasNoWildcard(p) ==> HasNoWildcard(p[1..])
    ensures s != [] ==>
              (OccursAt(s, p, 0) <==> LowerChar(s[0]) == LowerChar(p[0]) && OccursAt(s[1..], p[1..], 0))
  {
  }

  predicate HasNoWildcard(q: string) {
    forall i :: 0 <= i < |q| ==> q[i] != '%' && q[i] != '_'
  }

  /** `q` occurs in `s` at position `i`, ignoring the case of ASCII letters. */
  predicate OccursAt(s: string, q: string, i: nat) {
    i + |q| <= |s| && forall j :: 0 <= j < |q| ==> LowerChar(s[i + j]) == LowerChar(q[j])
  }

  predicate ContainsIgnoringCase(s: string, q: string) {
    exists i: nat :: i <= |s| && OccursAt(s, q, i)
  }

  lemma {:induction false} LikeAnything(s: string)
    ensures Like(s, "%")
    decreases |s|
  {
    if s != [] {
      LikeAnything(s[1..]);
    }
  }

  lemma OccursAtSuffix(s: string, q: string, i: nat)
    requires i <= |s|
    ensures OccursAt(s[i..], q, 0) <==> OccursAt(s, q, i)
  {
    if OccursAt(s, q, i) {
      forall j | 0 <= j < |q|
        ensures LowerChar(s[i..][j]) == LowerChar(q[j])
      {
        assert s[i..][j] == s[i + j];
      }
    }
    if OccursAt(s[i..], q, 0) {
      forall j | 0 <= j < |q|
        ensures LowerChar(s[i + j]) == LowerChar(q[j])
      {
        assert s[i..][0 + j] == s[i + j];
      }
    }
  }

  /** A wildcard-free pattern followed by '%' matches the strings that start with it. */
  lemma {:induction false} LikePrefix(s: string, q: string)
    requires HasNoWildcard(q)
    ensures Like(s, q + "%") <==> OccursAt(s, q, 0)
    decreases |q|
  {
    if q == [] {
      assert q + "%" == "%";
      LikeAnything(s);
    } else {
      var p := q + "%";
      assert p[0] == q[0] && p[1..] == q[1..] + "%";
      if s != [] {
        LikePrefix(s[1..], q[1..]);
        OccursAtSuffix(s, q[1..], 1);
        if OccursAt(s, q, 0) {
          forall j | 0 <= j < |q[1..]|
            ensures LowerChar(s[1 + j]) == LowerChar(q[1..][j])
          {
            assert q[1..][j] == q[j + 1];
          }
        }
        if LowerChar(s[0]) == LowerChar(q[0]) && OccursAt(s, q[1..], 1) {
          forall j | 0 <= j < |q|
            ensures LowerChar(s[j]) == LowerChar(q[j])
          {
            if j > 0 {
              assert q[1..][j - 1] == q[j];
            }
          }
        }
      }
    }
  }

  /** A leading '%' lets the rest of the pattern match any suffix. */
  lemma {:induction false} LikeLeadingPercent(s: string, r: string)
    ensures Like(s, "%" + r) <==> exists i :: 0 <= i <= |s| && Like(s[i..], r)
    decreases |s|
  {
    var p := "%" + r;
    assert p[1..] == r;
    assert s[0..] == s;
    if s != [] {
      LikeLeadingPercent(s[1..], r);
      if exists i :: 0 <= i <= |s| && Like(s[i..], r) {
        var i :| 0 <= i <= |s| && Like(s[i..], r);
        if i > 0 {
          assert s[1..][i - 1..] == s[i..];
        }
      }
      if Like(s[1..], p) {
        var i :| 0 <= i <= |s[1..]| && Like(s[1..][i..], r);
        assert s[1..][i..] == s[i + 1..];
      }
    }
  }

  /** `s LIKE '%q%'` for a `q` without wildcards is a case-insensitive substring test. */
  lemma LikeContains(s: string, q: string)
    requires HasNoWildcard(q)
    ensures Like(s, "%" + q + "%") <==> ContainsIgnoringCase(s, q)
  {
    assert "%" + q + "%" == "%" + (q + "%");
    LikeLeadingPercent(s, q + "%");
    forall i | 0 <= i <= |s|
      ensures Like(s[i..], q + "%") <==> OccursAt(s, q, i)
    {
      LikePrefix(s[i..], q);
      OccursAtSuffix(s, q, i);
    }
    if ContainsIgnoringCase(s, q) {
      var i: nat :| i <= |s| && OccursAt(s, q, i);
      assert Like(s[i..], q + "%");
    }
  }
}
