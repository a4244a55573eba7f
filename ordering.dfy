/**
 * Sorted, duplicate-free sequences: the order in which pandas' `groupby` (with
 * its default `sort=True`) and `unstack` list the distinct keys they found.
 */
module Ordering {

  predicate Distinct<T(==)>(s: seq<T>)
  {
    forall i, j :: 0 <= i < j < |s| ==> s[i] != s[j]
  }

  /** Every earlier element is strictly below every later one. */
  predicate Ascending<T>(lt: (T, T) -> bool, s: seq<T>)
  {
    forall i, j :: 0 <= i < j < |s| ==> lt(s[i], s[j])
  }

  ghost predicate StrictTotalOrder<T(!new)>(lt: (T, T) -> bool)
  {
    && (forall x :: !lt(x, x))
    && (forall x, y, z :: lt(x, y) && lt(y, z) ==> lt(x, z))
    && (forall x, y :: x != y ==> lt(x, y) || lt(y, x))
  }

  /** Under a strict order an ascending sequence has no duplicates. */
  lemma AscendingIsDistinct<T(!new)>(lt: (T, T) -> bool, s: seq<T>)
    requires StrictTotalOrder(lt) && Ascending(lt, s)
    ensures Distinct(s)
  {
  }

  /** Adds `x` to an ascending sequence unless it is already there. */
  function Insert<T(==,!new)>(lt: (T, T) -> bool, x: T, s: seq<T>): (r: seq<T>)
    requires StrictTotalOrder(lt) && Ascending(lt, s)
    ensures Ascending(lt, r)
    ensures forall y :: y in r <==> y == x || y in s
  {
    if s == [] then [x]
    else if x == s[0] then s
    else if lt(x, s[0]) then [x] + s
    else
      var tail := Insert(lt, x, s[1..]);
      assert forall y :: y in tail ==> lt(s[0], y);
      [s[0]] + tail
  }

  /** The distinct elements of `xs`, ascending. */
  function SortUnique<T(==,!new)>(lt: (T, T) -> bool, xs: seq<T>): (r: seq<T>)
    requires StrictTotalOrder(lt)
    ensures Ascending(lt, r)
    ensures forall y :: y in r <==> y in xs
  {
    if xs == [] then []
    else
      var r := Insert(lt, xs[|xs| - 1], SortUnique(lt, xs[..|xs| - 1]));
      assert xs == xs[..|xs| - 1] + [xs[|xs| - 1]];
      r
  }

  function IntLt(a: int, b: int): bool { a < b }

  lemma IntLtIsStrictTotal()
    ensures StrictTotalOrder(IntLt)
  {
  }

  /** Python's `<` on `str`: lexicographic by code point, a proper prefix first. */
  predicate StrLt(a: string, b: string)
  {
    if |a| == 0 then |b| > 0
    else if |b| == 0 then false
    else a[0] < b[0] || (a[0] == b[0] && StrLt(a[1..], b[1..]))
  }

  lemma {:induction false} StrLtIrreflexive(a: string)
    ensures !StrLt(a, a)
  {
    if |a| > 0 { StrLtIrreflexive(a[1..]); }
  }

  lemma {:induction false} StrLtTransitive(a: string, b: string, c: string)
    requires StrLt(a, b) && StrLt(b, c)
    ensures StrLt(a, c)
  {
    if |a| > 0 && |b| > 0 && |c| > 0 && a[0] == b[0] && b[0] == c[0] {
      StrLtTransitive(a[1..], b[1..], c[1..]);
    }
  }

  lemma {:induction false} StrLtConnected(a: string, b: string)
    requires a != b
    ensures StrLt(a, b) || StrLt(b, a)
  {
    if |a| > 0 && |b| > 0 && a[0] == b[0] {
      assert a == [a[0]] + a[1..] && b == [b[0]] + b[1..];
      StrLtConnected(a[1..], b[1..]);
    }
  }

  lemma StrLtIsStrictTotal()
    ensures StrictTotalOrder(StrLt)
  {
    forall x: string ensures !StrLt(x, x) { StrLtIrreflexive(x); }
    forall x: string, y: string, z: string | StrLt(x, y) && StrLt(y, z) ensures StrLt(x, z) {
      StrLtTransitive(x, y, z);
    }
    forall x: string, y: string | x != y ensures StrLt(x, y) || StrLt(y, x) {
      StrLtConnected(x, y);
    }
  }
}
