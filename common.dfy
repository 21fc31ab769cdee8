/** Value types shared by every service of the order saga: optional and
    failure-carrying results, identifiers, time, money, and an ordering
    helper used by the queries that say ORDER BY created_at. */
module Common {

  datatype Option<+T> = None | Some(value: T) {
    function GetOr(default: T): T {
      match this
      case Some(v) => v
      case None => default
    }
  }

  datatype Result<+R, +E> = Success(value: R) | Failure(error: E)

  /** The outcome of an action that may raise: `Fail` carries `str(e)`. */
  datatype Outcome = Pass | Fail(error: string)

  /** A UUID, kept in its canonical text form `str(uuid)`. */
  type Uuid = string

  /** A point in time (`datetime.utcnow()`), in whole seconds. */
  type Timestamp = int

  /** Money in integer cents; the services only add, multiply by a
      quantity and copy amounts. */
  type Cents = int

  /** A JSON object of strings, such as a shipping address. */
  type Address = map<string, string>

  const SecondsPerDay: int := 86400

  function Min(a: int, b: int): int {
    if a <= b then a else b
  }

  /** Python's `s or default` on an optional string: both `None` and the
      empty string are falsy. */
  function OrElse(s: Option<string>, default: string): (r: string)
    ensures r == default || (s.Some? && r == s.value)
    ensures r == default <== (s.None? || s.value == "")
  {
    if s.Some? && s.value != "" then s.value else default
  }

  // ---------------------------------------------------------------------
  // Distinct sequences

  ghost predicate Distinct<T>(s: seq<T>) {
    forall a, b :: 0 <= a < b < |s| ==> s[a] != s[b]
  }

  lemma {:induction false} DistinctCountsOne<T>(s: seq<T>, x: T)
    requires Distinct(s)
    ensures multiset(s)[x] <= 1
  {
    if s != [] {
      assert s == [s[0]] + s[1..];
      assert Distinct(s[1..]) by {
        forall a, b | 0 <= a < b < |s[1..]| ensures s[1..][a] != s[1..][b] {
          assert s[1..][a] == s[a + 1] && s[1..][b] == s[b + 1];
        }
      }
      DistinctCountsOne(s[1..], x);
      if s[0] == x {
        assert x !in s[1..] by {
          forall k | 0 <= k < |s[1..]| ensures s[1..][k] != x {
            assert s[1..][k] == s[k + 1];
          }
        }
      }
    }
  }

  lemma {:induction false} RepeatCountsTwo<T>(s: seq<T>, a: nat, b: nat)
    requires a < b < |s| && s[a] == s[b]
    ensures multiset(s)[s[a]] >= 2
  {
    if a == 0 {
      assert s == [s[0]] + s[1..];
      assert s[1..][b - 1] == s[b];
      assert s[b] in multiset(s[1..]);
    } else {
      assert s == [s[0]] + s[1..];
      assert s[1..][a - 1] == s[a] && s[1..][b - 1] == s[b];
      RepeatCountsTwo(s[1..], a - 1, b - 1);
    }
  }

  /** Distinctness is a property of the multiset of elements. */
  lemma PermutationKeepsDistinct<T>(s: seq<T>, t: seq<T>)
    requires Distinct(s) && multiset(s) == multiset(t)
    ensures Distinct(t)
  {
    forall a, b | 0 <= a < b < |t| ensures t[a] != t[b] {
      if t[a] == t[b] {
        RepeatCountsTwo(t, a, b);
        DistinctCountsOne(s, t[a]);
        assert false;
      }
    }
  }

  // ---------------------------------------------------------------------
  // ORDER BY: a stable insertion sort on an integer key

  ghost predicate SortedBy<T>(s: seq<T>, key: T -> int) {
    forall i, j :: 0 <= i < j < |s| ==> key(s[i]) <= key(s[j])
  }

  function InsertBy<T>(x: T, s: seq<T>, key: T -> int): (r: seq<T>)
    requires SortedBy(s, key)
    ensures SortedBy(r, key)
    ensures multiset(r) == multiset(s) + multiset{x}
    ensures |r| == |s| + 1
    ensures r[0] == x || (|s| > 0 && r[0] == s[0])
  {
    if s == [] then [x]
    else if key(x) <= key(s[0]) then
      SortedCons(x, s, key);
      [x] + s
    else
      SortedTail(s, key);
      var rest := InsertBy(x, s[1..], key);
      assert |s| > 1 ==> s[1..][0] == s[1];
      SortedCons(s[0], rest, key);
      assert s == [s[0]] + s[1..];
      [s[0]] + rest
  }

  /** An element no larger than the head of a sorted sequence extends it. */
  lemma SortedCons<T>(a: T, t: seq<T>, key: T -> int)
    requires SortedBy(t, key) && (t == [] || key(a) <= key(t[0]))
    ensures SortedBy([a] + t, key)
  {
    var r := [a] + t;
    forall i, j | 0 <= i < j < |r| ensures key(r[i]) <= key(r[j]) {
      assert r[j] == t[j - 1];
      if i == 0 {
        assert key(t[0]) <= key(t[j - 1]);
      } else {
        assert r[i] == t[i - 1];
      }
    }
  }

  /** Sorts by `key`, keeping the original order of rows with equal keys
      (`SortByStable`). */
  function SortBy<T>(s: seq<T>, key: T -> int): (r: seq<T>)
    ensures SortedBy(r, key)
    ensures multiset(r) == multiset(s)
    ensures |r| == |s|
  {
    if s == [] then []
    else
      assert s == [s[0]] + s[1..];
      InsertBy(s[0], SortBy(s[1..], key), key)
  }

  /** The elements of `s` whose key is `v`, in order. */
  function WithKey<T>(s: seq<T>, key: T -> int, v: int): seq<T> {
    if s == [] then []
    else (if key(s[0]) == v then [s[0]] else []) + WithKey(s[1..], key, v)
  }

  lemma WithKeyCons<T>(a: T, rest: seq<T>, key: T -> int, v: int)
    ensures WithKey([a] + rest, key, v) == (if key(a) == v then [a] else []) + WithKey(rest, key, v)
  {
    assert ([a] + rest)[1..] == rest;
  }

  lemma SortedTail<T>(s: seq<T>, key: T -> int)
    requires s != [] && SortedBy(s, key)
    ensures SortedBy(s[1..], key)
  {
    assert forall k :: 0 <= k < |s| - 1 ==> s[1..][k] == s[k + 1];
  }

  /** An `x` that goes to the front keeps the keyed elements' order. */
  lemma InsertFrontStable<T>(x: T, s: seq<T>, key: T -> int, v: int)
    requires SortedBy(s, key) && (s == [] || key(x) <= key(s[0]))
    ensures WithKey(InsertBy(x, s, key), key, v) == (if key(x) == v then [x] else []) + WithKey(s, key, v)
  {
    assert InsertBy(x, s, key) == [x] + s;
    WithKeyCons(x, s, key, v);
  }

  /** An `x` that goes past the head: the head has a smaller key, so it and
      `x` never both have key `v`. */
  lemma InsertPastHeadStable<T>(x: T, s: seq<T>, key: T -> int, v: int)
    requires SortedBy(s, key) && s != [] && key(x) > key(s[0])
    requires SortedBy(s[1..], key)
    requires WithKey(InsertBy(x, s[1..], key), key, v) ==
             (if key(x) == v then [x] else []) + WithKey(s[1..], key, v)
    ensures WithKey(InsertBy(x, s, key), key, v) == (if key(x) == v then [x] else []) + WithKey(s, key, v)
  {
    var rest := InsertBy(x, s[1..], key);
    var here: seq<T> := if key(x) == v then [x] else [];
    var first: seq<T> := if key(s[0]) == v then [s[0]] else [];
    var tail := WithKey(s[1..], key, v);
    calc {
      WithKey(InsertBy(x, s, key), key, v);
      { assert InsertBy(x, s, key) == [s[0]] + rest; }
      WithKey([s[0]] + rest, key, v);
      { WithKeyCons(s[0], rest, key, v); }
      first + (here + tail);
      { SwapEmpty(first, here, tail); }
      here + (first + tail);
      { WithKeyCons(s[0], s[1..], key, v); assert [s[0]] + s[1..] == s; }
      here + WithKey(s, key, v);
    }
  }

  lemma SwapEmpty<T>(a: seq<T>, b: seq<T>, c: seq<T>)
    requires a == [] || b == []
    ensures a + (b + c) == b + (a + c)
  {
    if a == [] {
      assert a + (b + c) == b + c && a + c == c;
    } else {
      assert b + c == c && b + (a + c) == a + c;
    }
  }

  /** Inserting `x` places it before every element with its key. */
  lemma {:induction false} InsertByStable<T>(x: T, s: seq<T>, key: T -> int, v: int)
    requires SortedBy(s, key)
    ensures WithKey(InsertBy(x, s, key), key, v) == (if key(x) == v then [x] else []) + WithKey(s, key, v)
  {
    if s == [] || key(x) <= key(s[0]) {
      InsertFrontStable(x, s, key, v);
    } else {
      SortedTail(s, key);
      InsertByStable(x, s[1..], key, v);
      InsertPastHeadStable(x, s, key, v);
    }
  }

  /** The sort is stable: the elements with any one key keep their order. */
  lemma {:induction false} SortByStable<T>(s: seq<T>, key: T -> int, v: int)
    ensures WithKey(SortBy(s, key), key, v) == WithKey(s, key, v)
  {
    if s != [] {
      SortByStable(s[1..], key, v);
      InsertByStable(s[0], SortBy(s[1..], key), key, v);
    }
  }

  // ---------------------------------------------------------------------
  // A row lookup `WHERE ...` on a table held in insertion order

  /** The index of the first element satisfying `p`, if any. */
  function FindFirst<T>(s: seq<T>, p: T -> bool): (r: Option<nat>)
    ensures r.Some? ==> r.value < |s| && p(s[r.value]) && forall k :: 0 <= k < r.value ==> !p(s[k])
    ensures r.None? <==> forall k :: 0 <= k < |s| ==> !p(s[k])
  {
    if s == [] then None
    else if p(s[0]) then Some(0)
    else
      assert forall k :: 1 <= k < |s| ==> s[1..][k - 1] == s[k];
      match FindFirst(s[1..], p)
      case Some(i) => Some(i + 1)
      case None => None
  }

  /** An element that is the only one satisfying `p` is the one found. */
  lemma FindFirstUnique<T>(s: seq<T>, p: T -> bool, i: nat)
    requires i < |s| && p(s[i])
    requires forall k :: 0 <= k < |s| && k != i ==> !p(s[k])
    ensures FindFirst(s, p) == Some(i)
  {
  }

  function Take<T>(s: seq<T>, n: nat): (r: seq<T>)
    ensures |r| == Min(n, |s|)
    ensures r == s[..|r|]
  {
    if n >= |s| then s else s[..n]
  }
}
