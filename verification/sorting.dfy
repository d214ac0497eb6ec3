/** `Array.prototype.sort` with a comparator, as the application uses it,
    stood for by an insertion sort. A comparator `(a, b) => …` is described
    here by a key function and a "comes no later than" relation `le` on keys;
    insertion moves `x` in front of `y` only when `x`'s key is strictly before
    `y`'s. What is proved is that the result is ordered and a permutation. */
module Sorting {
  import opened Common

  /** `le` is total and transitive: a consistent comparator. */
  ghost predicate TotalPreorder<K(!new)>(le: (K, K) -> bool)
  {
    && (forall a, b :: le(a, b) || le(b, a))
    && (forall a, b, c :: le(a, b) && le(b, c) ==> le(a, c))
  }

  ghost predicate SortedBy<T, K>(s: seq<T>, key: T -> K, le: (K, K) -> bool)
  {
    forall i, j :: 0 <= i < j < |s| ==> le(key(s[i]), key(s[j]))
  }

  /** Puts `x` into `s` just before the first element whose key is strictly after `x`'s. */
  function Insert<T(==), K>(x: T, s: seq<T>, key: T -> K, le: (K, K) -> bool): (r: seq<T>)
    ensures multiset(r) == multiset(s) + multiset{x}
  {
    if s == [] then [x]
    else if le(key(x), key(s[0])) && !le(key(s[0]), key(x)) then [x] + s
    else
      assert s == [s[0]] + s[1..];
      [s[0]] + Insert(x, s[1..], key, le)
  }

  /** Insertion sort of `s` by `key` under `le`. */
  function Sort<T(==), K>(s: seq<T>, key: T -> K, le: (K, K) -> bool): (r: seq<T>)
    ensures multiset(r) == multiset(s)
  {
    if s == [] then []
    else
      assert s == s[..|s| - 1] + [s[|s| - 1]];
      Insert(s[|s| - 1], Sort(s[..|s| - 1], key, le), key, le)
  }

  lemma {:induction false} InsertSorted<T, K(!new)>(x: T, s: seq<T>, key: T -> K, le: (K, K) -> bool)
    requires TotalPreorder(le)
    requires SortedBy(s, key, le)
    ensures SortedBy(Insert(x, s, key, le), key, le)
  {
    if s == [] {
    } else if le(key(x), key(s[0])) && !le(key(s[0]), key(x)) {
      var r := [x] + s;
      forall i, j | 0 <= i < j < |r| ensures le(key(r[i]), key(r[j])) {
        if i == 0 && j > 1 {
          assert le(key(s[0]), key(s[j - 1]));
        }
      }
    } else {
      assert le(key(s[0]), key(x));
      var t := Insert(x, s[1..], key, le);
      InsertSorted(x, s[1..], key, le);
      var r := [s[0]] + t;
      forall i, j | 0 <= i < j < |r| ensures le(key(r[i]), key(r[j])) {
        if i == 0 {
          var y := t[j - 1];
          assert y in multiset(t);
          assert y in multiset(s[1..]) || y == x;
          if y != x {
            var k :| 0 <= k < |s[1..]| && s[1..][k] == y;
            assert le(key(s[0]), key(s[k + 1]));
          }
        }
      }
    }
  }

  /** The sorted list is ordered by `le` on keys and is a permutation of the input. */
  lemma {:induction false} SortSorted<T, K(!new)>(s: seq<T>, key: T -> K, le: (K, K) -> bool)
    requires TotalPreorder(le)
    ensures SortedBy(Sort(s, key, le), key, le)
    ensures multiset(Sort(s, key, le)) == multiset(s)
  {
    if s != [] {
      SortSorted(s[..|s| - 1], key, le);
      InsertSorted(s[|s| - 1], Sort(s[..|s| - 1], key, le), key, le);
    }
  }

  /** Sorting depends on the keys and the order only through how the order
      compares the keys of the elements actually present. */
  lemma {:induction false} InsertAgrees<T, K1, K2>(x: T, s: seq<T>, k1: T -> K1, le1: (K1, K1) -> bool, k2: T -> K2, le2: (K2, K2) -> bool)
    requires forall a, b :: a in [x] + s && b in [x] + s ==> le1(k1(a), k1(b)) == le2(k2(a), k2(b))
    ensures Insert(x, s, k1, le1) == Insert(x, s, k2, le2)
  {
    if s != [] {
      assert s[0] in [x] + s;
      forall a, b | a in [x] + s[1..] && b in [x] + s[1..]
        ensures le1(k1(a), k1(b)) == le2(k2(a), k2(b))
      {
        assert a in [x] + s && b in [x] + s;
      }
      InsertAgrees(x, s[1..], k1, le1, k2, le2);
    }
  }

  lemma {:induction false} SortAgrees<T, K1, K2>(s: seq<T>, k1: T -> K1, le1: (K1, K1) -> bool, k2: T -> K2, le2: (K2, K2) -> bool)
    requires forall a, b :: a in s && b in s ==> le1(k1(a), k1(b)) == le2(k2(a), k2(b))
    ensures Sort(s, k1, le1) == Sort(s, k2, le2)
  {
    if s != [] {
      var init := s[..|s| - 1];
      var last := s[|s| - 1];
      assert s == init + [last];
      SortAgrees(init, k1, le1, k2, le2);
      var t := Sort(init, k1, le1);
      forall a | a in [last] + t ensures a in s {
        if a != last {
          assert a in multiset(t);
        }
      }
      InsertAgrees(last, t, k1, le1, k2, le2);
    }
  }

  // ------------------------------------------------------------------
  // The orders the application sorts by
  // ------------------------------------------------------------------

  /** Numbers, smallest first (`(a, b) => a - b`). */
  predicate Ascending(a: int, b: int) { a <= b }

  /** Numbers, largest first (`(a, b) => b - a`). */
  predicate Descending(a: int, b: int) { a >= b }

  /** Strings in code-point order, standing in for `localeCompare`. */
  predicate LexLe(a: string, b: string)
    decreases |a|
  {
    a == [] || (b != [] && (a[0] < b[0] || (a[0] == b[0] && LexLe(a[1..], b[1..]))))
  }

  lemma {:induction false} LexTotal(a: string, b: string)
    ensures LexLe(a, b) || LexLe(b, a)
    decreases |a|
  {
    if a != [] && b != [] && a[0] == b[0] {
      LexTotal(a[1..], b[1..]);
    }
  }

  lemma {:induction false} LexTransitive(a: string, b: string, c: string)
    requires LexLe(a, b) && LexLe(b, c)
    ensures LexLe(a, c)
    decreases |a|
  {
    if a != [] && a[0] == b[0] && b[0] == c[0] {
      LexTransitive(a[1..], b[1..], c[1..]);
    }
  }

  lemma NumberOrders()
    ensures TotalPreorder(Ascending) && TotalPreorder(Descending)
  {
  }

  lemma LexIsTotalPreorder()
    ensures TotalPreorder(LexLe)
  {
    forall a, b ensures LexLe(a, b) || LexLe(b, a) { LexTotal(a, b); }
    forall a, b, c | LexLe(a, b) && LexLe(b, c) ensures LexLe(a, c) { LexTransitive(a, b, c); }
  }

  /** Dates, newest first (`(a, b) => new Date(b.date) - new Date(a.date)`),
      keyed by the parsed time: a comparison with an invalid date (`None`) is
      `NaN`, which the sort treats as equal. */
  predicate NewestFirst(a: Option<int>, b: Option<int>)
  {
    a.None? || b.None? || a.value >= b.value
  }

  function TimeOrZero<T>(key: T -> Option<int>): T -> int
  {
    x => if key(x).Some? then key(x).value else 0
  }

  /** Both dates are valid and the first is no older than the second. */
  predicate NotOlder(a: Option<int>, b: Option<int>)
  {
    a.Some? && b.Some? && a.value >= b.value
  }

  /** When every element's date parses, sorting newest first puts later
      dates before earlier ones. */
  lemma NewestFirstOrder<T>(s: seq<T>, key: T -> Option<int>, r: seq<T>)
    requires forall x :: x in s ==> key(x).Some?
    requires r == Sort(s, key, NewestFirst)
    ensures forall i, j :: 0 <= i < j < |r| ==> NotOlder(key(r[i]), key(r[j]))
  {
    SortAgrees(s, key, NewestFirst, TimeOrZero(key), Descending);
    NumberOrders();
    SortSorted(s, TimeOrZero(key), Descending);
    forall i | 0 <= i < |r| ensures key(r[i]).Some? {
      assert r[i] in multiset(s);
    }
  }
}
