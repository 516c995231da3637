/** Python's order on strings and on tuples of strings, and `sorted` over unique keys. */
module Ordering {

  type Key = seq<string>

  predicate StringLess(a: string, b: string) {
    if a == [] || b == [] then a == [] && b != []
    else if a[0] == b[0] then StringLess(a[1..], b[1..])
    else a[0] < b[0]
  }

  predicate KeyLess(a: Key, b: Key) {
    if a == [] || b == [] then a == [] && b != []
    else if a[0] == b[0] then KeyLess(a[1..], b[1..])
    else StringLess(a[0], b[0])
  }

  lemma {:induction false} StringOrder(a: string, b: string, c: string)
    ensures !(StringLess(a, b) && StringLess(b, a))
    ensures StringLess(a, b) || StringLess(b, a) || a == b
    ensures StringLess(a, b) && StringLess(b, c) ==> StringLess(a, c)
  {
    if a != [] && b != [] {
      StringOrder(a[1..], b[1..], if c == [] then [] else c[1..]);
      assert a == [a[0]] + a[1..] && b == [b[0]] + b[1..];
    }
  }

  lemma {:induction false} KeyOrder(a: Key, b: Key, c: Key)
    ensures !(KeyLess(a, b) && KeyLess(b, a))
    ensures KeyLess(a, b) || KeyLess(b, a) || a == b
    ensures KeyLess(a, b) && KeyLess(b, c) ==> KeyLess(a, c)
  {
    if a != [] && b != [] {
      StringOrder(a[0], b[0], if c == [] then [] else c[0]);
      KeyOrder(a[1..], b[1..], if c == [] then [] else c[1..]);
      assert a == [a[0]] + a[1..] && b == [b[0]] + b[1..];
    }
  }

  ghost predicate Ascending<T>(key: T -> Key, s: seq<T>) {
    forall i, j :: 0 <= i < j < |s| ==> KeyLess(key(s[i]), key(s[j]))
  }

  /** No two elements of `s` share a key. */
  ghost predicate Keyed<T>(key: T -> Key, s: seq<T>) {
    forall x, y :: x in s && y in s && key(x) == key(y) ==> x == y
  }

  function Insert<T>(key: T -> Key, x: T, s: seq<T>): seq<T> {
    if s == [] || KeyLess(key(x), key(s[0])) then [x] + s
    else if key(x) == key(s[0]) then s
    else [s[0]] + Insert(key, x, s[1..])
  }

  /** `sorted(set(s))` under `key`. */
  function Sorted<T>(key: T -> Key, s: seq<T>): seq<T> {
    if s == [] then [] else Insert(key, s[0], Sorted(key, s[1..]))
  }

  lemma {:induction false} InsertKeeps<T>(key: T -> Key, x: T, s: seq<T>)
    requires Ascending(key, s)
    ensures var r := Insert(key, x, s);
            && Ascending(key, r)
            && (forall y :: y in s ==> y in r)
            && (forall y :: y in r ==> y == x || y in s)
            && (exists y :: y in r && key(y) == key(x))
            && |r| == |s| + (if exists y :: y in s && key(y) == key(x) then 0 else 1)
  {
    var r := Insert(key, x, s);
    if s == [] {
      assert r == [x];
    } else if KeyLess(key(x), key(s[0])) {
      forall j | 0 < j < |r| ensures KeyLess(key(x), key(r[j])) {
        KeyOrder(key(x), key(s[0]), key(s[j - 1]));
      }
      forall y | y in s && key(y) == key(x) ensures false {
        var j :| 0 <= j < |s| && s[j] == y;
        KeyOrder(key(x), key(r[j + 1]), key(x));
      }
      assert x in r;
    } else if key(x) == key(s[0]) {
      assert s[0] in s;
    } else {
      KeyOrder(key(x), key(s[0]), key(x));
      InsertKeeps(key, x, s[1..]);
      var t := Insert(key, x, s[1..]);
      assert r == [s[0]] + t && s == [s[0]] + s[1..];
      forall j | 0 < j < |r| ensures KeyLess(key(s[0]), key(r[j])) {
        assert r[j] in t;
        if r[j] in s[1..] {
          var k :| 0 <= k < |s[1..]| && s[1..][k] == r[j];
          assert KeyLess(key(s[0]), key(s[k + 1]));
        }
      }
      assert forall i, j :: 0 < i < j < |r| ==> r[i] == t[i - 1] && r[j] == t[j - 1];
      assert forall y :: y in s <==> y == s[0] || y in s[1..];
    }
  }

  lemma {:induction false} SortedIs<T>(key: T -> Key, s: seq<T>)
    ensures Ascending(key, Sorted(key, s))
    ensures forall y :: y in Sorted(key, s) ==> y in s
    ensures Keyed(key, s) ==> forall y :: y in s ==> y in Sorted(key, s)
  {
    if s != [] {
      var t := s[1..];
      SortedIs(key, t);
      InsertKeeps(key, s[0], Sorted(key, t));
      assert forall y :: y in s <==> y == s[0] || y in t;
    }
  }

  ghost predicate DistinctKeys<T>(key: T -> Key, s: seq<T>) {
    forall i, j :: 0 <= i < j < |s| ==> key(s[i]) != key(s[j])
  }

  lemma {:induction false} SortedLength<T>(key: T -> Key, s: seq<T>)
    requires DistinctKeys(key, s)
    ensures |Sorted(key, s)| == |s|
  {
    if s != [] {
      var t := s[1..];
      forall i, j | 0 <= i < j < |t| ensures key(t[i]) != key(t[j]) {
        assert t[i] == s[i + 1] && t[j] == s[j + 1];
      }
      SortedLength(key, t);
      SortedIs(key, t);
      InsertKeeps(key, s[0], Sorted(key, t));
      forall y | y in Sorted(key, t) ensures key(y) != key(s[0]) {
        var j :| 0 <= j < |t| && t[j] == y;
        assert s[j + 1] == y;
      }
    }
  }

  lemma {:induction false} SortedNotLonger<T>(key: T -> Key, s: seq<T>)
    ensures |Sorted(key, s)| <= |s|
  {
    if s != [] {
      SortedNotLonger(key, s[1..]);
      SortedIs(key, s[1..]);
      InsertKeeps(key, s[0], Sorted(key, s[1..]));
    }
  }

  /** Sorting drops nothing exactly when no two elements share a key. */
  lemma {:induction false} SortedLengthIff<T>(key: T -> Key, s: seq<T>)
    ensures |Sorted(key, s)| == |s| <==> DistinctKeys(key, s)
  {
    if DistinctKeys(key, s) {
      SortedLength(key, s);
    } else {
      RepeatedIsShorter(key, s);
    }
  }

  lemma {:induction false} RepeatedIsShorter<T>(key: T -> Key, s: seq<T>)
    requires !DistinctKeys(key, s)
    ensures |Sorted(key, s)| < |s|
  {
    var i, j :| 0 <= i < j < |s| && key(s[i]) == key(s[j]);
    var t := s[1..];
    SortedIs(key, t);
    InsertKeeps(key, s[0], Sorted(key, t));
    SortedNotLonger(key, t);
    if i > 0 {
      assert t[i - 1] == s[i] && t[j - 1] == s[j];
      RepeatedIsShorter(key, t);
    } else {
      assert t[j - 1] == s[j];
      SortedHasKeys(key, t, s[j]);
    }
  }

  lemma {:induction false} SortedHasKeys<T>(key: T -> Key, s: seq<T>, x: T)
    requires x in s
    ensures exists y :: y in Sorted(key, s) && key(y) == key(x)
  {
    var t := s[1..];
    SortedIs(key, t);
    InsertKeeps(key, s[0], Sorted(key, t));
    if x != s[0] {
      assert x in t by { var k :| 0 <= k < |s| && s[k] == x; assert t[k - 1] == x; }
      SortedHasKeys(key, t, x);
    }
  }

  /** An ascending sequence is determined by its elements. */
  lemma {:induction false} AscendingUnique<T>(key: T -> Key, s: seq<T>, t: seq<T>)
    requires Ascending(key, s) && Ascending(key, t)
    requires forall x :: x in s <==> x in t
    ensures s == t
  {
    if s != [] { assert s[0] in t; }
    if t != [] { assert t[0] in s; }
    if s != [] {
      var i :| 0 <= i < |t| && t[i] == s[0];
      var j :| 0 <= j < |s| && s[j] == t[0];
      KeyOrder(key(s[0]), key(t[0]), key(s[0]));
      assert s[0] == t[0];
      forall x ensures x in s[1..] <==> x in t[1..] {
        if x in s[1..] { TailAbove(key, s, x); assert x in t; }
        if x in t[1..] { TailAbove(key, t, x); assert x in s; }
      }
      AscendingUnique(key, s[1..], t[1..]);
      assert s == [s[0]] + s[1..] && t == [t[0]] + t[1..];
    }
  }

  lemma TailAbove<T>(key: T -> Key, s: seq<T>, x: T)
    requires s != [] && Ascending(key, s) && x in s[1..]
    ensures x != s[0] && x in s
  {
    var k :| 0 <= k < |s[1..]| && s[1..][k] == x;
    KeyOrder(key(s[0]), key(s[k + 1]), key(s[0]));
  }

  /** Neither the order of the input nor its repetitions matter. */
  lemma SortedCanonical<T>(key: T -> Key, s: seq<T>, t: seq<T>)
    requires Keyed(key, s) && forall x :: x in s <==> x in t
    ensures Sorted(key, s) == Sorted(key, t)
  {
    SortedIs(key, s);
    SortedIs(key, t);
    AscendingUnique(key, Sorted(key, s), Sorted(key, t));
  }

  /** An ascending sequence sorts to itself. */
  lemma SortedStable<T>(key: T -> Key, s: seq<T>)
    requires Ascending(key, s)
    ensures Keyed(key, s) && Sorted(key, s) == s
  {
    forall x, y | x in s && y in s && key(x) == key(y) ensures x == y {
      var i :| 0 <= i < |s| && s[i] == x;
      var j :| 0 <= j < |s| && s[j] == y;
      KeyOrder(key(x), key(y), key(x));
    }
    SortedIs(key, s);
    AscendingUnique(key, Sorted(key, s), s);
  }

  function PathKey(p: string): Key {
    [p]
  }
}
