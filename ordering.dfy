/**
 * Time ordering of beatmap sequences, as LINQ's `OrderBy(e => e.time)` does it:
 * a STABLE sort by a real-valued key. Elements with equal keys keep the order
 * they had in the input.
 */
module TimeOrder {

  /** `s` is in non-decreasing key order. */
  ghost predicate SortedBy<T>(s: seq<T>, key: T -> real)
  {
    forall p, q :: 0 <= p < q < |s| ==> key(s[p]) <= key(s[q])
  }

  /** The elements of `s` whose key is exactly `v`, in the order of `s`. */
  function WithKey<T>(s: seq<T>, key: T -> real, v: real): seq<T>
  {
    if s == [] then []
    else if key(s[0]) == v then [s[0]] + WithKey(s[1..], key, v)
    else WithKey(s[1..], key, v)
  }

  /** Places `x` in front of the first element of `t` whose key is not smaller. */
  function Insert<T>(x: T, t: seq<T>, key: T -> real): seq<T>
  {
    if t == [] || key(x) <= key(t[0]) then [x] + t
    else [t[0]] + Insert(x, t[1..], key)
  }

  /** Stable insertion sort by `key`: the reference definition of `OrderBy`. */
  function SortByKey<T>(s: seq<T>, key: T -> real): seq<T>
  {
    if s == [] then [] else Insert(s[0], SortByKey(s[1..], key), key)
  }

  /** Insertion adds exactly `x`. */
  lemma {:induction false} InsertMultiset<T>(x: T, t: seq<T>, key: T -> real)
    ensures multiset(Insert(x, t, key)) == multiset{x} + multiset(t)
  {
    if t != [] && key(x) > key(t[0]) {
      InsertMultiset(x, t[1..], key);
      assert t == [t[0]] + t[1..];
    }
  }

  /** Insertion into a sorted sequence keeps it sorted. */
  lemma {:induction false} InsertSorted<T>(x: T, t: seq<T>, key: T -> real)
    requires SortedBy(t, key)
    ensures SortedBy(Insert(x, t, key), key)
  {
    var r := Insert(x, t, key);
    if t == [] || key(x) <= key(t[0]) {
      assert r[1..] == t;
      forall p, q | 0 <= p < q < |r| ensures key(r[p]) <= key(r[q]) {
        if p > 0 { assert r[p] == t[p - 1] && r[q] == t[q - 1]; }
        else { assert r[q] == t[q - 1]; assert key(t[0]) <= key(t[q - 1]) || q == 1; }
      }
    } else {
      var rest := Insert(x, t[1..], key);
      assert SortedBy(t[1..], key) by {
        forall p, q | 0 <= p < q < |t[1..]| ensures key(t[1..][p]) <= key(t[1..][q]) {
          assert t[1..][p] == t[p + 1] && t[1..][q] == t[q + 1];
        }
      }
      InsertSorted(x, t[1..], key);
      InsertMultiset(x, t[1..], key);
      assert r[1..] == rest;
      forall p, q | 0 <= p < q < |r| ensures key(r[p]) <= key(r[q]) {
        if p > 0 {
          assert r[p] == rest[p - 1] && r[q] == rest[q - 1];
        } else {
          // every element of rest is x or an element of t[1..], all >= key(t[0])
          var e := rest[q - 1];
          assert e in multiset(rest);
          if e != x {
            assert e in t[1..];
            var m :| 0 <= m < |t[1..]| && t[1..][m] == e;
            assert t[m + 1] == e;
          }
        }
      }
    }
  }

  /** Insertion puts `x` in front of the elements of `t` with the same key. */
  lemma {:induction false} InsertWithKey<T>(x: T, t: seq<T>, key: T -> real)
    ensures forall v ::
      WithKey(Insert(x, t, key), key, v) ==
      (if key(x) == v then [x] + WithKey(t, key, v) else WithKey(t, key, v))
  {
    var r := Insert(x, t, key);
    if t == [] || key(x) <= key(t[0]) {
      assert r[0] == x && r[1..] == t;
    } else {
      var rest := Insert(x, t[1..], key);
      InsertWithKey(x, t[1..], key);
      assert r[0] == t[0] && r[1..] == rest;
      forall v ensures WithKey(r, key, v) ==
        (if key(x) == v then [x] + WithKey(t, key, v) else WithKey(t, key, v))
      {
        assert WithKey(t, key, v) ==
          (if key(t[0]) == v then [t[0]] + WithKey(t[1..], key, v) else WithKey(t[1..], key, v));
      }
    }
  }

  /**
   * The stable sort yields a sorted permutation in which every group of equal
   * keys appears in its input order.
   */
  lemma {:induction false} SortByKeyFacts<T>(s: seq<T>, key: T -> real)
    ensures SortedBy(SortByKey(s, key), key)
    ensures multiset(SortByKey(s, key)) == multiset(s)
    ensures forall v :: WithKey(SortByKey(s, key), key, v) == WithKey(s, key, v)
  {
    if s != [] {
      SortByKeyFacts(s[1..], key);
      InsertSorted(s[0], SortByKey(s[1..], key), key);
      InsertMultiset(s[0], SortByKey(s[1..], key), key);
      InsertWithKey(s[0], SortByKey(s[1..], key), key);
      assert s == [s[0]] + s[1..];
    }
  }
}
