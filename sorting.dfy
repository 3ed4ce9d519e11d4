/**
 * `list.sort(key=...)` on string keys: Python's sort is stable, so the model is an insertion
 * sort that places each element after every element whose key is not greater than its own.
 */
module Sorting {
  import opened Strings

  /** No element's key is smaller than the key of an element before it. */
  ghost predicate SortedBy<T>(s: seq<T>, key: T -> string) {
    forall i, j :: 0 <= i < j < |s| ==> !StrLt(key(s[j]), key(s[i]))
  }

  /** The elements whose key equals `k`, in their order in `s`. */
  function WithKey<T>(s: seq<T>, key: T -> string, k: string): (r: seq<T>)
    ensures |r| <= |s|
  {
    if s == [] then []
    else (if key(s[0]) == k then [s[0]] else []) + WithKey(s[1..], key, k)
  }

  /** Inserts `x` before the first element whose key is strictly greater. */
  function Insert<T>(x: T, t: seq<T>, key: T -> string): seq<T>
  {
    if t == [] then [x]
    else if StrLt(key(x), key(t[0])) then [x] + t
    else [t[0]] + Insert(x, t[1..], key)
  }

  function SortBy<T>(s: seq<T>, key: T -> string): seq<T>
  {
    if s == [] then [] else Insert(s[|s| - 1], SortBy(s[..|s| - 1], key), key)
  }

  lemma {:induction false} InsertPermutes<T>(x: T, t: seq<T>, key: T -> string)
    ensures multiset(Insert(x, t, key)) == multiset(t) + multiset{x}
  {
    if t != [] && !StrLt(key(x), key(t[0])) {
      InsertPermutes(x, t[1..], key);
      assert t == [t[0]] + t[1..];
    }
  }

  lemma {:induction false} InsertSorted<T>(x: T, t: seq<T>, key: T -> string)
    requires SortedBy(t, key)
    ensures SortedBy(Insert(x, t, key), key)
    ensures |Insert(x, t, key)| == |t| + 1
    ensures Insert(x, t, key) != [] && (Insert(x, t, key)[0] == x || Insert(x, t, key)[0] == t[0])
  {
    if t == [] {
    } else if StrLt(key(x), key(t[0])) {
      var r := [x] + t;
      forall i, j | 0 <= i < j < |r| ensures !StrLt(key(r[j]), key(r[i])) {
        if i == 0 {
          if j > 1 {
            StrLtTotal(key(t[0]), key(t[j - 1]));
            if StrLt(key(t[0]), key(t[j - 1])) { StrLtTransitive(key(x), key(t[0]), key(t[j - 1])); }
            StrLtAsymmetric(key(x), key(t[j - 1]));
          } else {
            StrLtAsymmetric(key(x), key(t[0]));
          }
        } else {
          assert r[i] == t[i - 1] && r[j] == t[j - 1];
        }
      }
    } else {
      var tail := t[1..];
      assert SortedBy(tail, key);
      InsertSorted(x, tail, key);
      var ins := Insert(x, tail, key);
      var r := [t[0]] + ins;
      forall i, j | 0 <= i < j < |r| ensures !StrLt(key(r[j]), key(r[i])) {
        if i == 0 {
          if r[j] != x {
            InsertMembers(x, tail, key, j - 1);
            var m :| 0 <= m < |tail| && tail[m] == r[j];
            assert t[m + 1] == r[j];
          }
        } else {
          assert r[i] == ins[i - 1] && r[j] == ins[j - 1];
        }
      }
    }
  }

  /** Every element of an insertion other than `x` is an element of `t`. */
  lemma InsertMembers<T>(x: T, t: seq<T>, key: T -> string, j: int)
    requires 0 <= j < |Insert(x, t, key)| && Insert(x, t, key)[j] != x
    ensures Insert(x, t, key)[j] in t
  {
    InsertPermutes(x, t, key);
    assert Insert(x, t, key)[j] in multiset(Insert(x, t, key));
  }

  /** The sort returns a permutation of its input. */
  lemma {:induction false} SortByPermutes<T>(s: seq<T>, key: T -> string)
    ensures multiset(SortBy(s, key)) == multiset(s)
  {
    if s != [] {
      SortByPermutes(s[..|s| - 1], key);
      InsertPermutes(s[|s| - 1], SortBy(s[..|s| - 1], key), key);
      assert s == s[..|s| - 1] + [s[|s| - 1]];
    }
  }

  /** The sort's output is ordered by key. */
  lemma {:induction false} SortBySorted<T>(s: seq<T>, key: T -> string)
    ensures SortedBy(SortBy(s, key), key)
    ensures |SortBy(s, key)| == |s|
  {
    if s != [] {
      SortBySorted(s[..|s| - 1], key);
      InsertSorted(s[|s| - 1], SortBy(s[..|s| - 1], key), key);
    }
  }

  lemma {:induction false} WithKeyAppend<T>(a: seq<T>, b: seq<T>, key: T -> string, k: string)
    ensures WithKey(a + b, key, k) == WithKey(a, key, k) + WithKey(b, key, k)
  {
    if a == [] {
      assert a + b == b;
    } else {
      var head := if key(a[0]) == k then [a[0]] else [];
      WithKeyAppend(a[1..], b, key, k);
      assert (a + b)[0] == a[0];
      assert (a + b)[1..] == a[1..] + b;
      calc {
        WithKey(a + b, key, k);
        head + WithKey(a[1..] + b, key, k);
        head + (WithKey(a[1..], key, k) + WithKey(b, key, k));
        (head + WithKey(a[1..], key, k)) + WithKey(b, key, k);
      }
    }
  }

  lemma {:induction false} WithKeyAbove<T>(t: seq<T>, key: T -> string, k: string)
    requires SortedBy(t, key) && t != [] && StrLt(k, key(t[0]))
    ensures WithKey(t, key, k) == []
  {
    StrLtAsymmetric(k, key(t[0]));
    if |t| > 1 {
      assert !StrLt(key(t[1]), key(t[0]));
      StrLtTotal(key(t[0]), key(t[1]));
      if StrLt(key(t[0]), key(t[1])) { StrLtTransitive(k, key(t[0]), key(t[1])); }
      assert SortedBy(t[1..], key);
      WithKeyAbove(t[1..], key, k);
    }
  }

  lemma {:induction false} InsertWithKey<T>(x: T, t: seq<T>, key: T -> string, k: string)
    requires SortedBy(t, key)
    ensures WithKey(Insert(x, t, key), key, k)
         == WithKey(t, key, k) + (if key(x) == k then [x] else [])
  {
    if t == [] {
    } else if StrLt(key(x), key(t[0])) {
      assert ([x] + t)[1..] == t;
      if key(x) == k {
        WithKeyAbove(t, key, k);
      } else {
        assert WithKey([x] + t, key, k) == WithKey(t, key, k);
      }
    } else {
      assert SortedBy(t[1..], key);
      InsertWithKey(x, t[1..], key, k);
      assert ([t[0]] + Insert(x, t[1..], key))[1..] == Insert(x, t[1..], key);
    }
  }

  /** Stability: elements with equal keys keep their relative order. */
  lemma {:induction false} SortByStable<T>(s: seq<T>, key: T -> string, k: string)
    ensures WithKey(SortBy(s, key), key, k) == WithKey(s, key, k)
  {
    if s != [] {
      var init := s[..|s| - 1];
      SortByStable(init, key, k);
      SortBySorted(init, key);
      InsertWithKey(s[|s| - 1], SortBy(init, key), key, k);
      assert s == init + [s[|s| - 1]];
      WithKeyAppend(init, [s[|s| - 1]], key, k);
      assert [s[|s| - 1]][1..] == [];
    }
  }
}
