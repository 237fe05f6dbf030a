/**
 * Orders and sorted, duplicate-free sequences.
 *
 * Rust collects ports in a HashSet and sorts them, keeps discovered paths in a
 * BTreeSet, and sorts then dedups the admin hostnames. All three end in the same
 * value: the strictly ascending sequence of a set of elements. This module gives
 * that value one definition, for any strict total order, together with the
 * lexicographic orders Rust uses for `String` (by character) and `PathBuf`
 * (component by component).
 */
module Ordering {

  ghost predicate StrictTotalOrder<T(!new)>(lt: (T, T) -> bool) {
    && (forall a :: !lt(a, a))
    && (forall a, b, c :: lt(a, b) && lt(b, c) ==> lt(a, c))
    && (forall a, b :: a != b ==> lt(a, b) || lt(b, a))
  }

  predicate StrictlySorted<T>(s: seq<T>, lt: (T, T) -> bool) {
    forall i, j :: 0 <= i < j < |s| ==> lt(s[i], s[j])
  }

  /** `Ord` for slices: the first differing element decides, a proper prefix is smaller. */
  function LexLess<T(==)>(a: seq<T>, b: seq<T>, lt: (T, T) -> bool): bool
    decreases |a|
  {
    if |a| == 0 then |b| > 0
    else if |b| == 0 then false
    else if a[0] == b[0] then LexLess(a[1..], b[1..], lt)
    else lt(a[0], b[0])
  }

  lemma {:induction false} LexIrreflexive<T(!new)>(a: seq<T>, lt: (T, T) -> bool)
    requires StrictTotalOrder(lt)
    ensures !LexLess(a, a, lt)
    decreases |a|
  {
    if |a| > 0 {
      LexIrreflexive(a[1..], lt);
    }
  }

  lemma {:induction false} LexTransitive<T(!new)>(a: seq<T>, b: seq<T>, c: seq<T>, lt: (T, T) -> bool)
    requires StrictTotalOrder(lt)
    requires LexLess(a, b, lt) && LexLess(b, c, lt)
    ensures LexLess(a, c, lt)
    decreases |a|
  {
    if |a| > 0 && |b| > 0 && |c| > 0 && a[0] == b[0] && b[0] == c[0] {
      LexTransitive(a[1..], b[1..], c[1..], lt);
    }
  }

  lemma {:induction false} LexTotal<T(!new)>(a: seq<T>, b: seq<T>, lt: (T, T) -> bool)
    requires StrictTotalOrder(lt)
    requires a != b
    ensures LexLess(a, b, lt) || LexLess(b, a, lt)
    decreases |a|
  {
    if |a| > 0 && |b| > 0 && a[0] == b[0] {
      assert a == [a[0]] + a[1..] && b == [b[0]] + b[1..];
      LexTotal(a[1..], b[1..], lt);
    }
  }

  function CharLess(a: char, b: char): bool { a < b }

  /** `Ord for String`: by code point, which is also the order of the UTF-8 bytes. */
  function StrLess(a: string, b: string): bool { LexLess(a, b, CharLess) }

  /** `Ord for Path` on paths made only of normal components. */
  function PathLess(a: seq<string>, b: seq<string>): bool { LexLess(a, b, StrLess) }

  lemma CharLessIsOrder()
    ensures StrictTotalOrder(CharLess)
  {
  }

  /** The order of strings is a strict total order (it extends the one on characters). */
  lemma StrLessIsOrder()
    ensures StrictTotalOrder(StrLess)
  {
    CharLessIsOrder();
    forall a: string ensures !StrLess(a, a) {
      LexIrreflexive(a, CharLess);
    }
    forall a: string, b: string, c: string | StrLess(a, b) && StrLess(b, c) ensures StrLess(a, c) {
      LexTransitive(a, b, c, CharLess);
    }
    forall a: string, b: string | a != b ensures StrLess(a, b) || StrLess(b, a) {
      LexTotal(a, b, CharLess);
    }
  }

  /** The order of paths is a strict total order (it extends the one on strings). */
  lemma PathLessIsOrder()
    ensures StrictTotalOrder(PathLess)
  {
    StrLessIsOrder();
    forall a: seq<string> ensures !PathLess(a, a) {
      LexIrreflexive(a, StrLess);
    }
    forall a: seq<string>, b: seq<string>, c: seq<string> | PathLess(a, b) && PathLess(b, c)
      ensures PathLess(a, c)
    {
      LexTransitive(a, b, c, StrLess);
    }
    forall a: seq<string>, b: seq<string> | a != b ensures PathLess(a, b) || PathLess(b, a) {
      LexTotal(a, b, StrLess);
    }
  }

  /** Inserting into a sorted set: the element is added once, at its place. */
  method InsertSorted<T(==,!new)>(s: seq<T>, x: T, lt: (T, T) -> bool) returns (r: seq<T>)
    requires StrictTotalOrder(lt)
    requires StrictlySorted(s, lt)
    ensures StrictlySorted(r, lt)
    ensures forall y :: y in r <==> y in s || y == x
  {
    var i := 0;
    while i < |s| && lt(s[i], x)
      invariant 0 <= i <= |s|
      invariant forall j :: 0 <= j < i ==> lt(s[j], x)
    {
      i := i + 1;
    }
    if i < |s| && s[i] == x {
      r := s;
    } else {
      assert forall j :: i <= j < |s| ==> lt(x, s[j]) by {
        if i < |s| {
          assert lt(x, s[i]);
        }
      }
      r := s[..i] + [x] + s[i..];
      assert forall j :: 0 <= j < |r| ==> r[j] == (if j < i then s[j] else if j == i then x else s[j - 1]);
    }
  }

  /**
   * The strictly ascending sequence of the elements of `s`: what `sort` + `dedup`,
   * a HashSet collected and sorted, or a BTreeSet collected, all produce.
   */
  method SortDedup<T(==,!new)>(s: seq<T>, lt: (T, T) -> bool) returns (r: seq<T>)
    requires StrictTotalOrder(lt)
    ensures StrictlySorted(r, lt)
    ensures forall y :: y in r <==> y in s
  {
    r := [];
    var i := 0;
    while i < |s|
      invariant 0 <= i <= |s|
      invariant StrictlySorted(r, lt)
      invariant forall y :: y in r <==> y in s[..i]
    {
      r := InsertSorted(r, s[i], lt);
      assert s[..i + 1] == s[..i] + [s[i]];
      i := i + 1;
    }
    assert s[..i] == s;
  }

  lemma HeadIsLeast<T(!new)>(s: seq<T>, y: T, lt: (T, T) -> bool)
    requires StrictlySorted(s, lt)
    requires y in s && y != s[0]
    ensures lt(s[0], y)
  {
    var i :| 0 <= i < |s| && s[i] == y;
  }

  lemma SameElementsSameEmptiness<T>(a: seq<T>, b: seq<T>)
    requires forall y :: y in a <==> y in b
    ensures |a| == 0 <==> |b| == 0
  {
    if |a| > 0 {
      assert a[0] in b;
    }
    if |b| > 0 {
      assert b[0] in a;
    }
  }

  /** A strictly sorted sequence is determined by its elements. */
  lemma {:induction false} SortedUnique<T(!new)>(a: seq<T>, b: seq<T>, lt: (T, T) -> bool)
    requires StrictTotalOrder(lt)
    requires StrictlySorted(a, lt) && StrictlySorted(b, lt)
    requires forall y :: y in a <==> y in b
    ensures a == b
    decreases |a|
  {
    SameElementsSameEmptiness(a, b);
    if |a| > 0 {
      // both heads are the least element of the common set
      assert a[0] == b[0] by {
        if a[0] != b[0] {
          HeadIsLeast(a, b[0], lt);
          HeadIsLeast(b, a[0], lt);
        }
      }
      forall y ensures y in a[1..] <==> y in b[1..] {
        if y in a[1..] {
          var i :| 1 <= i < |a| && a[i] == y;
          assert y in b;
          var j :| 0 <= j < |b| && b[j] == y;
          assert j != 0;
          assert b[1..][j - 1] == y;
        }
        if y in b[1..] {
          var j :| 1 <= j < |b| && b[j] == y;
          assert y in a;
          var i :| 0 <= i < |a| && a[i] == y;
          assert i != 0;
          assert a[1..][i - 1] == y;
        }
      }
      SortedUnique(a[1..], b[1..], lt);
      assert a == [a[0]] + a[1..] && b == [b[0]] + b[1..];
    }
  }

  predicate Distinct<T(==)>(s: seq<T>) {
    forall i, j :: 0 <= i < j < |s| ==> s[i] != s[j]
  }

  /** Collecting a hash set into a vector: every element once, in no promised order. */
  method SetToSeq<T>(s: set<T>) returns (r: seq<T>)
    ensures Distinct(r)
    ensures forall x :: x in r <==> x in s
  {
    r := [];
    var rest := s;
    while rest != {}
      invariant rest <= s
      invariant Distinct(r)
      invariant forall x :: x in r <==> x in s - rest
      decreases rest
    {
      var x :| x in rest;
      assert x !in r;
      ghost var before := r;
      r := r + [x];
      assert forall i :: 0 <= i < |before| ==> r[i] == before[i] && r[i] != x;
      rest := rest - {x};
    }
  }
}
