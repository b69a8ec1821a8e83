/** Python's `sorted(xs, key=..., reverse=True)` and `list.sort(reverse=True)`:
    a stable sort into descending key order. The backend uses it to order
    data-source rankings by score, candidate datasets by relevance score and
    NHANES cycle names (strings) newest first. */
module Sorting {

  /** `gt` is a strict total order on keys (Python's `>` on floats that are
      not NaN, and on strings). */
  ghost predicate StrictTotal<K(!new)>(gt: (K, K) -> bool) {
    && (forall a :: !gt(a, a))
    && (forall a, b, c :: gt(a, b) && gt(b, c) ==> gt(a, c))
    && (forall a, b :: a != b ==> gt(a, b) || gt(b, a))
  }

  /** No later element has a greater key than an earlier one. */
  ghost predicate SortedDesc<T, K>(s: seq<T>, key: T -> K, gt: (K, K) -> bool) {
    forall i, j :: 0 <= i < j < |s| ==> !gt(key(s[j]), key(s[i]))
  }

  /** The elements of `s` whose key is `k`, in their order in `s`. */
  function WithKey<T, K(==)>(s: seq<T>, key: T -> K, k: K): (r: seq<T>)
    ensures |r| <= |s|
    ensures forall i :: 0 <= i < |r| ==> key(r[i]) == k
  {
    if s == [] then []
    else if key(s[0]) == k then [s[0]] + WithKey(s[1..], key, k)
    else WithKey(s[1..], key, k)
  }

  /** Places `x` after every element whose key is not smaller than its own. */
  function Insert<T, K>(x: T, r: seq<T>, key: T -> K, gt: (K, K) -> bool): (out: seq<T>)
    ensures multiset(out) == multiset(r) + multiset{x}
  {
    if r == [] then [x]
    else if gt(key(x), key(r[0])) then [x] + r
    else
      assert r == [r[0]] + r[1..];
      [r[0]] + Insert(x, r[1..], key, gt)
  }

  /** The stable descending sort: every element inserted after the ones
      before it that have an equal or greater key. */
  function SortDesc<T, K>(s: seq<T>, key: T -> K, gt: (K, K) -> bool): (r: seq<T>)
    ensures multiset(r) == multiset(s)
  {
    if s == [] then []
    else
      assert s == s[..|s| - 1] + [s[|s| - 1]];
      Insert(s[|s| - 1], SortDesc(s[..|s| - 1], key, gt), key, gt)
  }

  // ---------------------------------------------------------------------
  // Sortedness

  lemma {:induction false} InsertSorted<T, K(!new)>(x: T, r: seq<T>, key: T -> K, gt: (K, K) -> bool)
    requires StrictTotal(gt)
    requires SortedDesc(r, key, gt)
    ensures SortedDesc(Insert(x, r, key, gt), key, gt)
    decreases |r|
  {
    if r != [] {
      if gt(key(x), key(r[0])) {
        var out := [x] + r;
        forall i, j | 0 <= i < j < |out| ensures !gt(key(out[j]), key(out[i])) {
          if i == 0 {
            assert out[j] == r[j - 1];
            if j - 1 > 0 {
              assert !gt(key(r[j - 1]), key(r[0]));
            }
          } else {
            assert out[i] == r[i - 1] && out[j] == r[j - 1];
          }
        }
      } else {
        InsertSorted(x, r[1..], key, gt);
        var tail := Insert(x, r[1..], key, gt);
        var out := [r[0]] + tail;
        assert multiset(tail) == multiset(r[1..]) + multiset{x};
        forall j | 0 <= j < |tail| ensures !gt(key(tail[j]), key(r[0])) {
          assert tail[j] in multiset(tail);
          if tail[j] != x {
            assert tail[j] in multiset(r[1..]);
            var k :| 0 <= k < |r[1..]| && r[1..][k] == tail[j];
            assert r[k + 1] == tail[j];
          }
        }
        forall i, j | 0 <= i < j < |out| ensures !gt(key(out[j]), key(out[i])) {
          if i > 0 {
            assert out[i] == tail[i - 1] && out[j] == tail[j - 1];
          } else {
            assert out[j] == tail[j - 1];
          }
        }
      }
    }
  }

  /** The result is in descending key order. */
  lemma {:induction false} SortDescSorted<T, K(!new)>(s: seq<T>, key: T -> K, gt: (K, K) -> bool)
    requires StrictTotal(gt)
    ensures SortedDesc(SortDesc(s, key, gt), key, gt)
    decreases |s|
  {
    if s != [] {
      SortDescSorted(s[..|s| - 1], key, gt);
      InsertSorted(s[|s| - 1], SortDesc(s[..|s| - 1], key, gt), key, gt);
    }
  }

  // ---------------------------------------------------------------------
  // Stability

  lemma {:induction false} WithKeyAppend<T, K>(a: seq<T>, b: seq<T>, key: T -> K, k: K)
    ensures WithKey(a + b, key, k) == WithKey(a, key, k) + WithKey(b, key, k)
    decreases |a|
  {
    if a != [] {
      WithKeyAppend(a[1..], b, key, k);
      assert (a + b)[1..] == a[1..] + b;
    } else {
      assert a + b == b;
    }
  }

  lemma {:induction false} WithKeyNone<T, K>(r: seq<T>, key: T -> K, k: K)
    requires forall i :: 0 <= i < |r| ==> key(r[i]) != k
    ensures WithKey(r, key, k) == []
    decreases |r|
  {
    if r != [] {
      WithKeyNone(r[1..], key, k);
    }
  }

  lemma {:induction false} InsertStable<T, K(!new)>(x: T, r: seq<T>, key: T -> K, gt: (K, K) -> bool, k: K)
    requires StrictTotal(gt)
    requires SortedDesc(r, key, gt)
    ensures WithKey(Insert(x, r, key, gt), key, k)
         == WithKey(r, key, k) + (if key(x) == k then [x] else [])
    decreases |r|
  {
    if r == [] {
    } else if gt(key(x), key(r[0])) {
      var out := [x] + r;
      assert out[1..] == r;
      if key(x) == k {
        forall i | 0 <= i < |r| ensures key(r[i]) != k {
          if i > 0 {
            assert !gt(key(r[i]), key(r[0]));
          }
        }
        WithKeyNone(r, key, k);
      }
    } else {
      InsertStable(x, r[1..], key, gt, k);
      assert SortedDesc(r[1..], key, gt) by {
        forall i, j | 0 <= i < j < |r[1..]| ensures !gt(key(r[1..][j]), key(r[1..][i])) {
          assert r[1..][i] == r[i + 1] && r[1..][j] == r[j + 1];
        }
      }
      var out := [r[0]] + Insert(x, r[1..], key, gt);
      assert out[1..] == Insert(x, r[1..], key, gt);
    }
  }

  /** Stability: the elements sharing a key keep their original order. */
  lemma {:induction false} SortDescStable<T, K(!new)>(s: seq<T>, key: T -> K, gt: (K, K) -> bool, k: K)
    requires StrictTotal(gt)
    ensures WithKey(SortDesc(s, key, gt), key, k) == WithKey(s, key, k)
    decreases |s|
  {
    if s != [] {
      var init := s[..|s| - 1];
      var x := s[|s| - 1];
      var last := if key(x) == k then [x] else [];
      assert WithKey(SortDesc(s, key, gt), key, k) == WithKey(SortDesc(init, key, gt), key, k) + last by {
        SortDescSorted(init, key, gt);
        InsertStable(x, SortDesc(init, key, gt), key, gt, k);
      }
      assert WithKey(s, key, k) == WithKey(init, key, k) + last by {
        assert s == init + [x];
        WithKeyAppend(init, [x], key, k);
        assert [x][1..] == [];
      }
      SortDescStable(init, key, gt, k);
    }
  }

  // ---------------------------------------------------------------------
  // Orders used by the backend

  /** Python's `>` on floats (scores are never NaN here). */
  function RealGreater(a: real, b: real): bool {
    a > b
  }

  lemma RealGreaterStrictTotal()
    ensures StrictTotal(RealGreater)
  {
  }

  /** Python's `<` on strings: code-point lexicographic order. */
  function LexLess(a: string, b: string): bool {
    if a == [] then b != []
    else if b == [] then false
    else if a[0] != b[0] then a[0] < b[0]
    else LexLess(a[1..], b[1..])
  }

  function LexGreater(a: string, b: string): bool {
    LexLess(b, a)
  }

  lemma {:induction false} LexIrreflexive(a: string)
    ensures !LexLess(a, a)
    decreases |a|
  {
    if a != [] {
      LexIrreflexive(a[1..]);
    }
  }

  lemma {:induction false} LexTransitive(a: string, b: string, c: string)
    requires LexLess(a, b) && LexLess(b, c)
    ensures LexLess(a, c)
    decreases |a|
  {
    if a != [] && b != [] && c != [] && a[0] == b[0] && b[0] == c[0] {
      LexTransitive(a[1..], b[1..], c[1..]);
    }
  }

  lemma {:induction false} LexTotal(a: string, b: string)
    requires a != b
    ensures LexLess(a, b) || LexLess(b, a)
    decreases |a|
  {
    if a != [] && b != [] && a[0] == b[0] {
      assert a == [a[0]] + a[1..] && b == [b[0]] + b[1..];
      LexTotal(a[1..], b[1..]);
    }
  }

  lemma {:induction false} LexGreaterStrictTotal()
    ensures StrictTotal(LexGreater)
  {
    forall a: string ensures !LexGreater(a, a) {
      LexIrreflexive(a);
    }
    forall a: string, b: string, c: string | LexGreater(a, b) && LexGreater(b, c)
      ensures LexGreater(a, c)
    {
      LexTransitive(c, b, a);
    }
    forall a: string, b: string | a != b ensures LexGreater(a, b) || LexGreater(b, a) {
      LexTotal(a, b);
    }
  }

  function Identity<T>(x: T): T { x }

  /** `list.sort(reverse=True)` on strings. */
  function SortStringsDesc(s: seq<string>): (r: seq<string>)
    ensures multiset(r) == multiset(s)
    ensures forall i, j :: 0 <= i < j < |r| ==> !LexLess(r[i], r[j])
  {
    LexGreaterStrictTotal();
    SortDescSorted(s, Identity, LexGreater);
    SortDesc(s, Identity, LexGreater)
  }
}
