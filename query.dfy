/**
 * The three things a `findAll` does with the rows of a table: keep the rows the
 * WHERE clause accepts, order them (ORDER BY), and cut the list (LIMIT).
 *
 * A list endpoint is given the rows of its table as `(key, row)` pairs in the order
 * the database scans them; the scan order itself is not modelled.
 */
module Query {
  import opened JsValues

  /** `WHERE p`: the rows that satisfy `p`, in scan order. */
  function Select<T(==,!new)>(rows: seq<T>, p: T -> bool): (r: seq<T>)
    ensures |r| <= |rows|
    ensures forall x :: x in r <==> x in rows && p(x)
    ensures forall x :: multiset(r)[x] == if p(x) then multiset(rows)[x] else 0
  {
    if rows == [] then []
    else
      var rest := Select(rows[1..], p);
      assert rows == [rows[0]] + rows[1..];
      if p(rows[0]) then [rows[0]] + rest else rest
  }

  /** `a` may come before `b` under `ORDER BY key ASC` (or `DESC` when `desc`). */
  predicate Before<T>(a: T, b: T, key: T -> int, desc: bool) {
    if desc then key(a) >= key(b) else key(a) <= key(b)
  }

  predicate Ordered<T>(s: seq<T>, key: T -> int, desc: bool) {
    forall i, j :: 0 <= i < j < |s| ==> Before(s[i], s[j], key, desc)
  }

  function Insert<T>(x: T, s: seq<T>, key: T -> int, desc: bool): (r: seq<T>)
    requires Ordered(s, key, desc)
    ensures Ordered(r, key, desc)
    ensures multiset(r) == multiset(s) + multiset{x}
  {
    if s == [] then [x]
    else if Before(x, s[0], key, desc) then
      [x] + s
    else
      var rest := Insert(x, s[1..], key, desc);
      assert s == [s[0]] + s[1..];
      assert forall k :: 0 <= k < |rest| ==> Before(s[0], rest[k], key, desc) by {
        forall k | 0 <= k < |rest| ensures Before(s[0], rest[k], key, desc) {
          assert rest[k] in multiset(rest);
          assert rest[k] == x || rest[k] in s[1..];
        }
      }
      [s[0]] + rest
  }

  /** `ORDER BY key ASC` (or `DESC`): the same rows, ordered by `key`. */
  function SortBy<T>(s: seq<T>, key: T -> int, desc: bool): (r: seq<T>)
    ensures Ordered(r, key, desc)
    ensures multiset(r) == multiset(s)
    ensures |r| == |s|
  {
    if s == [] then []
    else
      assert s == [s[0]] + s[1..];
      Insert(s[0], SortBy(s[1..], key, desc), key, desc)
  }

  /** `LIMIT n`: the first `n` rows. */
  function Take<T>(s: seq<T>, n: nat): (r: seq<T>)
    ensures |r| == if |s| < n then |s| else n
    ensures r <= s
  {
    if |s| <= n then s else s[..n]
  }

  /** An element of a sorted list missing from its first `n` rows ranks no higher than every row kept. */
  lemma {:induction false} TakeKeepsTop<T>(s: seq<T>, n: nat, key: T -> int, desc: bool, x: T)
    requires Ordered(s, key, desc)
    requires x in s && x !in Take(s, n)
    ensures forall y :: y in Take(s, n) ==> Before(y, x, key, desc)
  {
    var j :| 0 <= j < |s| && s[j] == x;
    var t := Take(s, n);
    assert t == s[..|t|];
    assert j >= |t|;
    forall y | y in t ensures Before(y, x, key, desc) {
      var i :| 0 <= i < |t| && t[i] == y;
      assert s[i] == y;
    }
  }

  /** `column LIKE '%q%'`: a NULL column matches nothing. */
  predicate Like(column: Option<string>, q: string) {
    column.Some? && Contains(column.value, q)
  }

  /** A NULL date sorts below every date. */
  function DateKey(d: Option<nat>): (k: int)
    ensures d.None? ==> k < 0
    ensures d.Some? ==> k == d.value
  {
    if d.Some? then d.value else -1
  }

  /** Shorthand for "keep the rows that satisfy `p`, then order them by `key`". */
  function SelectSorted<T(==,!new)>(rows: seq<T>, p: T -> bool, key: T -> int, desc: bool): (r: seq<T>)
    ensures Ordered(r, key, desc)
    ensures forall x :: x in r <==> x in rows && p(x)
    ensures forall x :: multiset(r)[x] == if p(x) then multiset(rows)[x] else 0
  {
    var sel := Select(rows, p);
    var r := SortBy(sel, key, desc);
    assert forall x :: x in r <==> x in multiset(sel);
    r
  }

  /** Selecting with a filter every row satisfies keeps every row. */
  lemma {:induction false} SelectAll<T(!new)>(rows: seq<T>, p: T -> bool)
    ensures (forall x :: x in rows ==> p(x)) ==> Select(rows, p) == rows
  {
    if rows != [] && forall x :: x in rows ==> p(x) {
      SelectAll(rows[1..], p);
      assert rows == [rows[0]] + rows[1..];
      assert forall x :: x in rows[1..] ==> p(x);
    }
  }

  /** Two filters that agree on every row select the same rows. */
  lemma {:induction false} SameSelect<T(!new)>(rows: seq<T>, p: T -> bool, q: T -> bool)
    requires forall x :: p(x) == q(x)
    ensures Select(rows, p) == Select(rows, q)
  {
    if rows != [] {
      SameSelect(rows[1..], p, q);
    }
  }
}
