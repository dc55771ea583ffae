/** The Kotlin collection operations the media library uses, over `seq`. */
module Lists {

  /** No two elements share a key. */
  predicate DistinctKeys<T, K(==)>(s: seq<T>, key: T -> K) {
    forall j, k :: 0 <= j < k < |s| ==> key(s[j]) != key(s[k])
  }

  /** `s[i]` is the first element of `s` with its key. */
  predicate FirstWithKey<T, K(==)>(s: seq<T>, key: T -> K, i: int)
    requires 0 <= i < |s|
  {
    forall j :: 0 <= j < i ==> key(s[j]) != key(s[i])
  }

  /** `distinctBy(key)` over what is left once the keys in `seen` are taken. */
  function DistinctBy<T(==), K(==)>(s: seq<T>, key: T -> K, seen: set<K>): (r: seq<T>)
    ensures DistinctKeys(r, key)
    ensures forall j :: 0 <= j < |r| ==> key(r[j]) !in seen
    ensures forall j :: 0 <= j < |r| ==> r[j] in s
    ensures |r| <= |s|
    decreases |s|
  {
    if s == [] then []
    else if key(s[0]) in seen then DistinctBy(s[1..], key, seen)
    else [s[0]] + DistinctBy(s[1..], key, seen + {key(s[0])})
  }

  /** The keys of the first `i` elements. */
  function KeysBefore<T, K>(s: seq<T>, key: T -> K, i: int): set<K>
    requires 0 <= i <= |s|
  {
    set j | 0 <= j < i :: key(s[j])
  }

  /** The first occurrence of every key of `s` from index `i` on, in the order they appear in `s`. */
  function FirstsFrom<T, K(==)>(s: seq<T>, key: T -> K, i: nat): seq<T>
    requires i <= |s|
    decreases |s| - i
  {
    if i == |s| then []
    else (if FirstWithKey(s, key, i) then [s[i]] else []) + FirstsFrom(s, key, i + 1)
  }

  lemma KeysBeforeStep<T, K>(s: seq<T>, key: T -> K, i: int)
    requires 0 <= i < |s|
    ensures KeysBefore(s, key, i + 1) == KeysBefore(s, key, i) + {key(s[i])}
  {
  }

  /** A key was seen before `i` exactly when `s[i]` is not its first occurrence. */
  lemma KeysBeforeFirst<T, K>(s: seq<T>, key: T -> K, i: int)
    requires 0 <= i < |s|
    ensures key(s[i]) in KeysBefore(s, key, i) <==> !FirstWithKey(s, key, i)
  {
    if key(s[i]) in KeysBefore(s, key, i) {
      var j :| 0 <= j < i && key(s[j]) == key(s[i]);
    }
  }

  /**
   * `distinctBy` over the suffix from `i`, with the keys before `i` already
   * seen, keeps exactly the first occurrences from `i` on, in order.
   */
  lemma {:induction false} DistinctBySuffix<T, K>(s: seq<T>, key: T -> K, i: nat)
    requires i <= |s|
    ensures DistinctBy(s[i..], key, KeysBefore(s, key, i)) == FirstsFrom(s, key, i)
    decreases |s| - i
  {
    if i == |s| {
      assert s[i..] == [];
    } else {
      var seen := KeysBefore(s, key, i);
      var t := s[i..];
      assert t[0] == s[i] && t[1..] == s[i + 1..];
      KeysBeforeStep(s, key, i);
      KeysBeforeFirst(s, key, i);
      DistinctBySuffix(s, key, i + 1);
      var rest := FirstsFrom(s, key, i + 1);
      if key(s[i]) in seen {
        assert seen + {key(s[i])} == seen;
        assert DistinctBy(t, key, seen) == DistinctBy(t[1..], key, seen);
        assert FirstsFrom(s, key, i) == [] + rest;
      } else {
        assert DistinctBy(t, key, seen) == [s[i]] + DistinctBy(t[1..], key, seen + {key(s[i])});
        assert FirstsFrom(s, key, i) == [s[i]] + rest;
      }
    }
  }

  /** `distinctBy(key)` keeps the first element of every key, in the order of the input. */
  lemma DistinctByInOrder<T, K>(s: seq<T>, key: T -> K)
    ensures DistinctBy(s, key, {}) == FirstsFrom(s, key, 0)
  {
    DistinctBySuffix(s, key, 0);
    assert s[0..] == s;
    assert KeysBefore(s, key, 0) == {};
  }

  /** `distinctBy` keeps the first element of every key it has not seen. */
  lemma {:induction false} DistinctByKeepsFirst<T, K>(s: seq<T>, key: T -> K, seen: set<K>, i: int)
    requires 0 <= i < |s| && FirstWithKey(s, key, i) && key(s[i]) !in seen
    ensures s[i] in DistinctBy(s, key, seen)
    decreases |s|
  {
    if i > 0 {
      assert key(s[0]) != key(s[i]);
      assert FirstWithKey(s[1..], key, i - 1) by {
        forall j | 0 <= j < i - 1 ensures key(s[1..][j]) != key(s[1..][i - 1]) {
          assert key(s[j + 1]) != key(s[i]);
        }
      }
      var seen' := if key(s[0]) in seen then seen else seen + {key(s[0])};
      DistinctByKeepsFirst(s[1..], key, seen', i - 1);
    }
  }

  /** Every key of the input is kept or was already seen. */
  lemma {:induction false} DistinctByCoversKeys<T, K>(s: seq<T>, key: T -> K, seen: set<K>, i: int)
    requires 0 <= i < |s|
    ensures key(s[i]) in seen || exists j :: 0 <= j < |DistinctBy(s, key, seen)| && key(DistinctBy(s, key, seen)[j]) == key(s[i])
    decreases i
  {
    if key(s[i]) !in seen {
      if FirstWithKey(s, key, i) {
        DistinctByKeepsFirst(s, key, seen, i);
      } else {
        var j :| 0 <= j < i && key(s[j]) == key(s[i]);
        DistinctByCoversKeys(s, key, seen, j);
      }
    }
  }

  /** Elements of a sequence with distinct keys occur once. */
  lemma {:induction false} DistinctKeysOnce<T, K>(s: seq<T>, key: T -> K)
    requires DistinctKeys(s, key)
    ensures forall x :: x in s ==> multiset(s)[x] == 1
  {
    if s != [] {
      assert DistinctKeys(s[1..], key) by {
        forall j, k | 0 <= j < k < |s| - 1 ensures key(s[1..][j]) != key(s[1..][k]) {
          assert key(s[j + 1]) != key(s[k + 1]);
        }
      }
      DistinctKeysOnce(s[1..], key);
      assert s == [s[0]] + s[1..];
      assert s[0] !in s[1..] by {
        forall k | 0 <= k < |s| - 1 ensures s[1..][k] != s[0] {
          assert key(s[0]) != key(s[k + 1]);
        }
      }
    }
  }

  /** `filter(p)`. */
  function Filter<T>(s: seq<T>, p: T -> bool): (r: seq<T>)
    ensures forall j :: 0 <= j < |r| ==> r[j] in s && p(r[j])
    ensures forall i :: 0 <= i < |s| && p(s[i]) ==> s[i] in r
    ensures |r| <= |s|
  {
    if s == [] then []
    else if p(s[0]) then [s[0]] + Filter(s[1..], p)
    else Filter(s[1..], p)
  }

  /** `reversed()`. */
  function Reverse<T>(s: seq<T>): (r: seq<T>)
    ensures |r| == |s|
    ensures forall i :: 0 <= i < |s| ==> r[i] == s[|s| - 1 - i]
  {
    seq(|s|, i requires 0 <= i < |s| => s[|s| - 1 - i])
  }

  predicate SortedDesc<T>(s: seq<T>, key: T -> int) {
    forall i, j :: 0 <= i < j < |s| ==> key(s[i]) >= key(s[j])
  }

  lemma PrependSorted<T>(h: T, rest: seq<T>, key: T -> int)
    requires SortedDesc(rest, key)
    requires forall j :: 0 <= j < |rest| ==> key(h) >= key(rest[j])
    ensures SortedDesc([h] + rest, key)
  {
    var r := [h] + rest;
    forall i, j | 0 <= i < j < |r| ensures key(r[i]) >= key(r[j]) {
      if i > 0 { assert r[i] == rest[i - 1] && r[j] == rest[j - 1]; }
      else { assert r[j] == rest[j - 1]; }
    }
  }

  /** Puts `x` in front of the first element whose key is not above its own. */
  function InsertDesc<T>(x: T, s: seq<T>, key: T -> int): (r: seq<T>)
    ensures |r| == |s| + 1
  {
    if s == [] || key(s[0]) <= key(x) then [x] + s
    else [s[0]] + InsertDesc(x, s[1..], key)
  }

  /** Inserting into a sorted sequence keeps it sorted; the head is `x` or the old head. */
  lemma {:induction false} InsertDescSorted<T>(x: T, s: seq<T>, key: T -> int)
    requires SortedDesc(s, key)
    ensures SortedDesc(InsertDesc(x, s, key), key)
    ensures var r := InsertDesc(x, s, key); r[0] == x || (s != [] && r[0] == s[0])
  {
    if s == [] || key(s[0]) <= key(x) {
      PrependSorted(x, s, key);
    } else {
      var tail := s[1..];
      assert SortedDesc(tail, key);
      InsertDescSorted(x, tail, key);
      var rest := InsertDesc(x, tail, key);
      assert key(s[0]) >= key(rest[0]);
      forall j | 0 <= j < |rest| ensures key(s[0]) >= key(rest[j]) {
        assert j == 0 || key(rest[0]) >= key(rest[j]);
      }
      PrependSorted(s[0], rest, key);
    }
  }

  /** Inserting adds exactly `x`. */
  lemma {:induction false} InsertDescMultiset<T>(x: T, s: seq<T>, key: T -> int)
    ensures multiset(InsertDesc(x, s, key)) == multiset(s) + multiset{x}
  {
    if s != [] && key(s[0]) > key(x) {
      InsertDescMultiset(x, s[1..], key);
      assert s == [s[0]] + s[1..];
    }
  }

  /** The elements of `s` whose key is `k`, in order. */
  function WithKey<T>(s: seq<T>, key: T -> int, k: int): seq<T> {
    if s == [] then []
    else (if key(s[0]) == k then [s[0]] else []) + WithKey(s[1..], key, k)
  }

  lemma WithKeyCons<T>(a: T, b: seq<T>, key: T -> int, k: int)
    ensures WithKey([a] + b, key, k) == (if key(a) == k then [a] else []) + WithKey(b, key, k)
  {
    assert ([a] + b)[0] == a && ([a] + b)[1..] == b;
  }

  /** Inserting `x` puts it in front of every element whose key equals its own. */
  lemma {:induction false} InsertDescWithKey<T>(x: T, s: seq<T>, key: T -> int, k: int)
    ensures WithKey(InsertDesc(x, s, key), key, k) == (if key(x) == k then [x] else []) + WithKey(s, key, k)
  {
    if s == [] || key(s[0]) <= key(x) {
      WithKeyCons(x, s, key, k);
    } else {
      var tail := s[1..];
      var rest := InsertDesc(x, tail, key);
      assert s == [s[0]] + tail;
      WithKeyCons(s[0], rest, key, k);
      WithKeyCons(s[0], tail, key, k);
      InsertDescWithKey(x, tail, key, k);
      if key(s[0]) == k {
        assert key(x) != k;
      } else {
        var front := if key(x) == k then [x] else [];
        assert WithKey(s, key, k) == WithKey(tail, key, k);
        assert WithKey(InsertDesc(x, s, key), key, k) == front + WithKey(tail, key, k);
      }
    }
  }

  /** `sortedByDescending(key)`, stable: earlier elements go before later ones with an equal key. */
  function SortDescBy<T>(s: seq<T>, key: T -> int): (r: seq<T>)
    ensures SortedDesc(r, key)
    ensures multiset(r) == multiset(s)
    ensures |r| == |s|
  {
    if s == [] then []
    else
      var sorted := SortDescBy(s[1..], key);
      InsertDescSorted(s[0], sorted, key);
      InsertDescMultiset(s[0], sorted, key);
      assert s == [s[0]] + s[1..];
      InsertDesc(s[0], sorted, key)
  }

  /** The sort is stable: for every key, its elements come out in their input order. */
  lemma {:induction false} SortDescByStable<T>(s: seq<T>, key: T -> int, k: int)
    ensures WithKey(SortDescBy(s, key), key, k) == WithKey(s, key, k)
  {
    if s != [] {
      SortDescByStable(s[1..], key, k);
      InsertDescWithKey(s[0], SortDescBy(s[1..], key), key, k);
    }
  }

  /** Sorting keeps exactly the elements it is given, and each key group in order. */
  lemma SortDescByKeeps<T>(s: seq<T>, key: T -> int)
    ensures var r := SortDescBy(s, key);
      (forall j :: 0 <= j < |r| ==> r[j] in s) && (forall x :: x in s ==> x in r) &&
      (forall k :: WithKey(r, key, k) == WithKey(s, key, k))
  {
    var r := SortDescBy(s, key);
    forall k ensures WithKey(r, key, k) == WithKey(s, key, k) {
      SortDescByStable(s, key, k);
    }
    forall j | 0 <= j < |r| ensures r[j] in s { assert r[j] in multiset(r); }
    forall x | x in s ensures x in r { assert x in multiset(s); }
  }

  /**
   * `shuffled()`, with the random source as `picks`: each step takes the
   * element at the next pick, modulo what is left.
   */
  function Shuffled<T>(s: seq<T>, picks: seq<nat>): (r: seq<T>)
    ensures |r| == |s|
    ensures multiset(r) == multiset(s)
    decreases |s|
  {
    if s == [] then []
    else
      var k := (if picks == [] then 0 else picks[0]) % |s|;
      var rest := s[..k] + s[k + 1..];
      TakeOut(s, k);
      [s[k]] + Shuffled(rest, if picks == [] then [] else picks[1..])
  }

  /** A shuffle of `distinctBy(key)` holds each element once, and an element for every key of the input. */
  lemma ShuffledDistinctCovers<T, K>(s: seq<T>, key: T -> K, picks: seq<nat>)
    ensures var q := Shuffled(DistinctBy(s, key, {}), picks);
      (forall x :: x in q ==> multiset(q)[x] == 1) &&
      (forall i :: 0 <= i < |s| ==> exists j :: 0 <= j < |q| && key(q[j]) == key(s[i]))
  {
    var d := DistinctBy(s, key, {});
    var q := Shuffled(d, picks);
    DistinctKeysOnce(d, key);
    forall x | x in q ensures multiset(q)[x] == 1 {
      assert x in multiset(q);
      assert x in d;
    }
    forall i | 0 <= i < |s| ensures exists j :: 0 <= j < |q| && key(q[j]) == key(s[i]) {
      DistinctByCoversKeys(s, key, {}, i);
      var j :| 0 <= j < |d| && key(d[j]) == key(s[i]);
      assert d[j] in multiset(q);
      var k :| 0 <= k < |q| && q[k] == d[j];
    }
  }

  /** Taking out the element at `k` leaves the others. */
  lemma TakeOut<T>(s: seq<T>, k: nat)
    requires k < |s|
    ensures |s[..k] + s[k + 1..]| == |s| - 1
    ensures multiset(s) == multiset{s[k]} + multiset(s[..k] + s[k + 1..])
  {
    assert s == s[..k] + [s[k]] + s[k + 1..];
  }
}
