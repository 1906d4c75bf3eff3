/** The list operations the services borrow from Python, numpy and pandas:
    a descending sort by key (`argsort()[::-1]`, `sort_values(ascending=False)`,
    `value_counts()`), filtering (boolean-mask selection), first-match search
    and Python's slicing (`s[a:b]`, `s[:n]`, `DataFrame.head(n)`). */
module Lists {
  import opened Common


  /** A sort key. `Missing` ranks below every number, as NaT does in a
      descending `sort_values`, which puts missing values last. */
  datatype Key = Missing | Val(x: real)

  predicate KeyLe(a: Key, b: Key) {
    match a
    case Missing => true
    case Val(x) => b.Val? && x <= b.x
  }

  ghost predicate SortedDesc<T>(s: seq<T>, key: T -> Key) {
    forall i, j :: 0 <= i < j < |s| ==> KeyLe(key(s[j]), key(s[i]))
  }

  /** Inserts `x` into a descending list after every element whose key is at
      least `x`'s, so that an element sorted in later ends up after its equals. */
  function InsertDesc<T>(x: T, s: seq<T>, key: T -> Key): (r: seq<T>)
    ensures multiset(r) == multiset(s) + multiset{x}
  {
    if s == [] then [x]
    else if KeyLe(key(x), key(s[0])) then
      assert s == [s[0]] + s[1..];
      [s[0]] + InsertDesc(x, s[1..], key)
    else
      [x] + s
  }

  /** No element of `s` ranks above `b`. */
  ghost predicate AllAtMost<T>(s: seq<T>, key: T -> Key, b: Key) {
    forall i :: 0 <= i < |s| ==> KeyLe(key(s[i]), b)
  }

  lemma KeyLeTrans(a: Key, b: Key, c: Key)
    requires KeyLe(a, b) && KeyLe(b, c)
    ensures KeyLe(a, c)
  {
  }

  lemma {:induction false} InsertDescBounded<T>(x: T, s: seq<T>, key: T -> Key, b: Key)
    requires AllAtMost(s, key, b) && KeyLe(key(x), b)
    ensures AllAtMost(InsertDesc(x, s, key), key, b)
  {
    if s != [] && KeyLe(key(x), key(s[0])) {
      var rest := InsertDesc(x, s[1..], key);
      InsertDescBounded(x, s[1..], key, b);
      var r := [s[0]] + rest;
      forall i | 0 <= i < |r| ensures KeyLe(key(r[i]), b) {
        if i > 0 { assert r[i] == rest[i - 1]; }
      }
    } else if s != [] {
      var r := [x] + s;
      forall i | 0 <= i < |r| ensures KeyLe(key(r[i]), b) {
        if i > 0 { assert r[i] == s[i - 1]; }
      }
    }
  }

  /** Keys are totally ordered. */
  lemma KeyLeTotal(a: Key, b: Key)
    ensures KeyLe(a, b) || KeyLe(b, a)
  {
  }

  /** Putting in front a key above the head of a descending list keeps it
      descending. */
  lemma PrependSorted<T>(x: T, s: seq<T>, key: T -> Key)
    requires SortedDesc(s, key) && s != [] && KeyLe(key(s[0]), key(x))
    ensures SortedDesc([x] + s, key)
  {
    var r := [x] + s;
    forall i, j | 0 <= i < j < |r| ensures KeyLe(key(r[j]), key(r[i])) {
      assert r[j] == s[j - 1];
      if i == 0 {
        KeyLeTrans(key(s[j - 1]), key(s[0]), key(x));
      } else {
        assert r[i] == s[i - 1];
      }
    }
  }

  /** Putting in front a key that bounds a descending list keeps it
      descending. */
  lemma ConsSorted<T>(y: T, rest: seq<T>, key: T -> Key)
    requires SortedDesc(rest, key) && AllAtMost(rest, key, key(y))
    ensures SortedDesc([y] + rest, key)
  {
    var r := [y] + rest;
    forall i, j | 0 <= i < j < |r| ensures KeyLe(key(r[j]), key(r[i])) {
      assert r[j] == rest[j - 1];
      if i > 0 { assert r[i] == rest[i - 1]; }
    }
  }

  /** Inserting into a descending list keeps it descending. */
  lemma {:induction false} InsertDescSorted<T>(x: T, s: seq<T>, key: T -> Key)
    requires SortedDesc(s, key)
    ensures SortedDesc(InsertDesc(x, s, key), key)
  {
    if s == [] {
    } else if KeyLe(key(x), key(s[0])) {
      assert SortedDesc(s[1..], key) && AllAtMost(s[1..], key, key(s[0])) by {
        forall i, j | 0 <= i < j < |s[1..]| ensures KeyLe(key(s[1..][j]), key(s[1..][i])) {
          assert s[1..][j] == s[j + 1] && s[1..][i] == s[i + 1];
        }
        forall i | 0 <= i < |s[1..]| ensures KeyLe(key(s[1..][i]), key(s[0])) {
          assert s[1..][i] == s[i + 1];
        }
      }
      InsertDescSorted(x, s[1..], key);
      InsertDescBounded(x, s[1..], key, key(s[0]));
      ConsSorted(s[0], InsertDesc(x, s[1..], key), key);
    } else {
      KeyLeTotal(key(x), key(s[0]));
      PrependSorted(x, s, key);
    }
  }

  /** A descending sort: a permutation of `s`, ordered by non-increasing key.
      Elements with equal keys come out in the reverse of their input order,
      as `argsort()[::-1]` gives them for the short arrays numpy sorts by
      insertion; for pandas the order of ties is unspecified and no property
      below depends on it. */
  function SortDesc<T>(s: seq<T>, key: T -> Key): (r: seq<T>)
    ensures multiset(r) == multiset(s)
    ensures |r| == |s|
    ensures SortedDesc(r, key)
  {
    if s == [] then []
    else
      assert s == [s[0]] + s[1..];
      var rest := SortDesc(s[1..], key);
      InsertDescSorted(s[0], rest, key);
      InsertDesc(s[0], rest, key)
  }

  /** Keeps the elements that satisfy `p`, in order (a boolean mask). */
  function Filter<T>(s: seq<T>, p: T -> bool): (r: seq<T>)
    ensures |r| <= |s|
    ensures forall x :: x in r ==> x in s && p(x)
  {
    if s == [] then [] else (if p(s[0]) then [s[0]] else []) + Filter(s[1..], p)
  }

  /** An element occurs in the filtered list as often as in the input when it
      passes, and not at all otherwise. */
  lemma {:induction false} FilterCount<T>(s: seq<T>, p: T -> bool, x: T)
    ensures multiset(Filter(s, p))[x] == if p(x) then multiset(s)[x] else 0
  {
    if s != [] {
      assert s == [s[0]] + s[1..];
      FilterCount(s[1..], p, x);
    }
  }

  lemma {:induction false} FilterAppend<T>(s: seq<T>, t: seq<T>, p: T -> bool)
    ensures Filter(s + t, p) == Filter(s, p) + Filter(t, p)
  {
    if s == [] {
      assert s + t == t;
    } else {
      assert (s + t)[1..] == s[1..] + t;
      FilterAppend(s[1..], t, p);
    }
  }

  /** Filtering a descending list leaves it descending. */
  lemma {:induction false} FilterSorted<T>(s: seq<T>, p: T -> bool, key: T -> Key)
    requires SortedDesc(s, key)
    ensures SortedDesc(Filter(s, p), key)
  {
    if s != [] {
      FilterSorted(s[1..], p, key);
      var rest := Filter(s[1..], p);
      if p(s[0]) {
        forall j | 0 <= j < |rest| ensures KeyLe(key(rest[j]), key(s[0])) {
          assert rest[j] in rest;
          var k :| 0 <= k < |s[1..]| && s[1..][k] == rest[j];
          assert s[k + 1] == rest[j];
        }
        assert Filter(s, p) == [s[0]] + rest;
      }
    }
  }

  /** No element occurs twice. */
  ghost predicate NoDups<T>(s: seq<T>) {
    forall i, j :: 0 <= i < j < |s| ==> s[i] != s[j]
  }

  lemma {:induction false} NoDupsCount<T>(s: seq<T>, x: T)
    requires NoDups(s)
    ensures multiset(s)[x] <= 1
  {
    if s != [] {
      assert s == [s[0]] + s[1..];
      NoDupsCount(s[1..], x);
      assert forall k :: 0 <= k < |s[1..]| ==> s[1..][k] == s[k + 1];
      assert s[0] !in s[1..];
    }
  }

  lemma RepeatCount<T>(s: seq<T>, i: nat, j: nat)
    requires i < j < |s|
    ensures s[i] == s[j] ==> multiset(s)[s[i]] >= 2
  {
    assert s == s[..i] + [s[i]] + s[i + 1..j] + [s[j]] + s[j + 1..];
  }

  /** A permutation of a list without repetitions has none either. */
  lemma PermutationNoDups<T>(s: seq<T>, t: seq<T>)
    requires multiset(s) == multiset(t) && NoDups(s)
    ensures NoDups(t)
  {
    forall i, j | 0 <= i < j < |t| ensures t[i] != t[j] {
      NoDupsCount(s, t[i]);
      RepeatCount(t, i, j);
    }
  }

  /** The elements of `s` in order of first appearance, each once
      (`value_counts` and `unique` enumerate keys this way). */
  function Distinct<T(==)>(s: seq<T>): (d: seq<T>)
    ensures NoDups(d)
    ensures forall i :: 0 <= i < |d| ==> d[i] in s
    ensures forall i :: 0 <= i < |s| ==> s[i] in d
  {
    if s == [] then []
    else
      var init, x := s[..|s| - 1], s[|s| - 1];
      assert s == init + [x];
      var rest := Distinct(init);
      if x in rest then rest else rest + [x]
  }

  /** `range(n)`: the positions of a list of length `n`. */
  function Range(n: nat): (r: seq<nat>)
    ensures |r| == n && forall i :: 0 <= i < n ==> r[i] == i
  {
    if n == 0 then [] else Range(n - 1) + [n - 1]
  }

  /** Filtering a list without repetitions leaves none. */
  lemma FilterNoDups<T>(s: seq<T>, p: T -> bool)
    requires NoDups(s)
    ensures NoDups(Filter(s, p))
  {
    var f := Filter(s, p);
    forall i, j | 0 <= i < j < |f| ensures f[i] != f[j] {
      FilterCount(s, p, f[i]);
      NoDupsCount(s, f[i]);
      RepeatCount(f, i, j);
    }
  }

  /** Filtering keeps a list whose every element passes as it is. */
  lemma {:induction false} FilterAllPass<T>(s: seq<T>, p: T -> bool)
    requires forall i :: 0 <= i < |s| ==> p(s[i])
    ensures Filter(s, p) == s
  {
    if s != [] {
      var tail := s[1..];
      forall i | 0 <= i < |tail| ensures p(tail[i]) {
        assert tail[i] == s[i + 1];
      }
      FilterAllPass(tail, p);
      assert Filter(s, p) == [s[0]] + Filter(tail, p);
      assert s == [s[0]] + tail;
    }
  }

  function Other<T(==)>(x: T): T -> bool {
    y => y != x
  }

  /** Removing an element that occurs once shortens the list by one. */
  lemma {:induction false} FilterOtherLength<T>(s: seq<T>, x: T)
    requires multiset(s)[x] == 1
    ensures |Filter(s, Other(x))| == |s| - 1
  {
    assert s == [s[0]] + s[1..];
    if s[0] == x {
      assert x !in s[1..];
      forall i | 0 <= i < |s[1..]| ensures Other(x)(s[1..][i]) {
        assert s[1..][i] in s[1..];
      }
      FilterAllPass(s[1..], Other(x));
    } else {
      FilterOtherLength(s[1..], x);
    }
  }

  /** The position of the first element at or after `from` that satisfies `p`. */
  function FirstWhereFrom<T>(s: seq<T>, p: T -> bool, from: nat): (r: Option<nat>)
    requires from <= |s|
    ensures r.Some? ==> from <= r.value < |s| && p(s[r.value])
    ensures r.Some? ==> forall i :: from <= i < r.value ==> !p(s[i])
    ensures r.None? ==> forall i :: from <= i < |s| ==> !p(s[i])
    decreases |s| - from
  {
    if from == |s| then None
    else if p(s[from]) then Some(from)
    else FirstWhereFrom(s, p, from + 1)
  }

  /** The position of the first element that satisfies `p`, if any. */
  function FirstWhere<T>(s: seq<T>, p: T -> bool): (r: Option<nat>)
    ensures r.Some? ==> r.value < |s| && p(s[r.value])
    ensures r.Some? ==> forall i :: 0 <= i < r.value ==> !p(s[i])
    ensures r.None? <==> forall i :: 0 <= i < |s| ==> !p(s[i])
  {
    FirstWhereFrom(s, p, 0)
  }

  // ---------------------------------------------------------------------
  // Python slicing

  /** Where a slice bound lands in a list of length `n`: negative bounds count
      from the end, and both ends clamp to the list. */
  function Clamp(i: int, n: nat): (c: nat)
    ensures c <= n
  {
    if i < 0 then (if i + n < 0 then 0 else i + n) else if i > n then n else i
  }

  /** Python's `s[start:stop]`. */
  function PySlice<T>(s: seq<T>, start: int, stop: int): (r: seq<T>)
    ensures |r| == if Clamp(start, |s|) < Clamp(stop, |s|) then Clamp(stop, |s|) - Clamp(start, |s|) else 0
    ensures forall k :: 0 <= k < |r| ==> r[k] == s[Clamp(start, |s|) + k]
  {
    var a, b := Clamp(start, |s|), Clamp(stop, |s|);
    if a < b then s[a..b] else []
  }

  /** A slice of a descending list is descending, and a slice of a list
      without repetitions has none. */
  lemma SliceSorted<T>(s: seq<T>, start: int, stop: int, key: T -> Key)
    ensures SortedDesc(s, key) ==> SortedDesc(PySlice(s, start, stop), key)
    ensures NoDups(s) ==> NoDups(PySlice(s, start, stop))
  {
    var a, r := Clamp(start, |s|), PySlice(s, start, stop);
    forall i, j | 0 <= i < j < |r| ensures r[i] == s[a + i] && r[j] == s[a + j] {
    }
  }

  /** Python's `s[:n]` and pandas' `head(n)`: the first `n` elements, or,
      for a negative `n`, all but the last `-n`. */
  function Take<T>(s: seq<T>, n: int): (r: seq<T>)
    ensures n >= 0 ==> r == s[..if n < |s| then n else |s|]
    ensures n < 0 ==> r == s[..if |s| + n < 0 then 0 else |s| + n]
  {
    PySlice(s, 0, n)
  }

  /** The length of `Take(s, n)` for a list of length `len`. */
  function TakeLength(len: nat, n: int): nat {
    if n >= 0 then (if n < len then n else len) else if len + n < 0 then 0 else len + n
  }

  /** `Take(s, n)` element by element: the first `TakeLength(|s|, n)`
      elements of `s`, in order. */
  lemma TakeElements<T>(s: seq<T>, n: int)
    ensures |Take(s, n)| == TakeLength(|s|, n)
    ensures forall k :: 0 <= k < |Take(s, n)| ==> Take(s, n)[k] == s[k]
  {
  }

  /** The first `n` of a descending sort: descending, of the length `head(n)`
      gives, drawn from `s` without repetition, and all of `s` once `n`
      leaves room for every element. */
  lemma TopOfSort<T>(s: seq<T>, key: T -> Key, n: int)
    ensures var t := Take(SortDesc(s, key), n);
      && SortedDesc(t, key)
      && |t| == TakeLength(|s|, n)
      && multiset(t) <= multiset(s)
      && (n >= |s| ==> multiset(t) == multiset(s))
  {
    var sorted := SortDesc(s, key);
    var t := Take(sorted, n);
    TakeElements(sorted, n);
    assert sorted == t + sorted[|t|..];
    forall i, j | 0 <= i < j < |t| ensures KeyLe(key(t[j]), key(t[i])) {
      assert t[i] == sorted[i] && t[j] == sorted[j];
    }
    if n >= |s| {
      assert t == sorted;
    }
  }

  /** Every element that `Take` leaves out ranks no higher than every element
      it keeps, when the list is descending. */
  lemma TakeIsTop<T>(s: seq<T>, n: int, key: T -> Key, i: nat, j: nat)
    requires SortedDesc(s, key)
    requires i < |Take(s, n)| <= j < |s|
    ensures KeyLe(key(s[j]), key(Take(s, n)[i]))
  {
  }

  lemma InPrefix<T>(s: seq<T>, n: nat, j: nat)
    requires n <= |s| && j < |s|
    ensures j < n ==> s[j] in s[..n]
  {
    if j < n {
      assert s[..n][j] == s[j];
    }
  }

  /** An element that occurs more often in `s` than in its prefix `Take(s, n)`
      has an occurrence beyond the prefix. */
  lemma {:induction false} DroppedOccurrence<T>(s: seq<T>, n: int, x: T) returns (j: nat)
    requires multiset(Take(s, n))[x] < multiset(s)[x]
    ensures |Take(s, n)| <= j < |s| && s[j] == x
  {
    var t := Take(s, n);
    var rest := s[|t|..];
    assert s == t + rest;
    assert multiset(rest)[x] > 0;
    assert x in rest;
    var k :| 0 <= k < |rest| && rest[k] == x;
    j := |t| + k;
  }
}
