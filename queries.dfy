/** The query operations of the object-relational layer, as functions on
    sequences of rows in store order: `filter`, `get`, `order_by('-field')`
    and slicing `[:n]`. Rows with equal keys keep their store order under
    `order_by`, which is one of the orders a database may return. */
module Queries {
  import opened Outcome

  /** `filter(...)`: the rows satisfying `p`, in store order. */
  function Filter<T>(s: seq<T>, p: T -> bool): (r: seq<T>)
    ensures |r| <= |s|
    ensures forall i :: 0 <= i < |r| ==> p(r[i]) && r[i] in s
    ensures forall i :: 0 <= i < |s| && p(s[i]) ==> s[i] in r
  {
    if s == [] then []
    else if p(s[0]) then [s[0]] + Filter(s[1..], p)
    else Filter(s[1..], p)
  }

  lemma {:induction false} FilterAppend<T>(s: seq<T>, x: T, p: T -> bool)
    ensures Filter(s + [x], p) == Filter(s, p) + (if p(x) then [x] else [])
  {
    if s != [] {
      assert (s + [x])[1..] == s[1..] + [x];
      FilterAppend(s[1..], x, p);
    } else {
      assert s + [x] == [x];
    }
  }

  /** When no row satisfies `p` the filter is empty. */
  lemma {:induction false} FilterNone<T>(s: seq<T>, p: T -> bool)
    requires forall i :: 0 <= i < |s| ==> !p(s[i])
    ensures Filter(s, p) == []
  {
    if s != [] {
      FilterNone(s[1..], p);
    }
  }

  /** When exactly the row at `k` satisfies `p` the filter is that row. */
  lemma {:induction false} FilterSingle<T>(s: seq<T>, p: T -> bool, k: nat)
    requires k < |s| && p(s[k])
    requires forall i :: 0 <= i < |s| && i != k ==> !p(s[i])
    ensures Filter(s, p) == [s[k]]
  {
    if k == 0 {
      FilterNone(s[1..], p);
    } else {
      FilterSingle(s[1..], p, k - 1);
    }
  }

  /** `objects.get(...)`: the one row satisfying `p`; DoesNotExist when there
      is none and MultipleObjectsReturned when there are several. */
  function GetWhere<T>(s: seq<T>, p: T -> bool): (r: Result<T>)
    ensures r.Ok? <==> |Filter(s, p)| == 1
    ensures r.Ok? ==> p(r.value) && r.value in s
    ensures r.Err? ==> r.failure == (if Filter(s, p) == [] then DoesNotExist else MultipleObjectsReturned)
  {
    var found := Filter(s, p);
    if |found| == 0 then Err(DoesNotExist)
    else if |found| == 1 then Ok(found[0])
    else Err(MultipleObjectsReturned)
  }

  /** `s` is in non-increasing order of `key`. */
  predicate SortedDesc<T>(s: seq<T>, key: T -> int) {
    forall i, j :: 0 <= i < j < |s| ==> key(s[i]) >= key(s[j])
  }

  function Min(a: int, b: int): int { if a <= b then a else b }

  /** Puts `x` in front of the first element whose key it is not above. */
  function InsertDesc<T>(x: T, s: seq<T>, key: T -> int): (r: seq<T>)
    requires SortedDesc(s, key)
    ensures SortedDesc(r, key)
    ensures multiset(r) == multiset(s) + multiset{x}
    ensures |r| == |s| + 1 && r[0] == (if s == [] || key(x) >= key(s[0]) then x else s[0])
  {
    if s == [] || key(x) >= key(s[0]) then [x] + s
    else
      var rest := InsertDesc(x, s[1..], key);
      assert s == [s[0]] + s[1..];
      assert forall i :: 0 <= i < |rest| ==> key(s[0]) >= key(rest[0]) >= key(rest[i]);
      [s[0]] + rest
  }

  /** `order_by('-key')`: the rows sorted by `key`, largest first. */
  function SortByDesc<T>(s: seq<T>, key: T -> int): (r: seq<T>)
    ensures SortedDesc(r, key)
    ensures multiset(r) == multiset(s)
  {
    if s == [] then []
    else
      assert s == [s[0]] + s[1..];
      InsertDesc(s[0], SortByDesc(s[1..], key), key)
  }

  lemma SortedDescPrefix<T>(s: seq<T>, key: T -> int, n: nat)
    requires SortedDesc(s, key) && n <= |s|
    ensures SortedDesc(s[..n], key)
  {
    assert forall i :: 0 <= i < n ==> s[..n][i] == s[i];
  }

  /** Every element of `s` from position `k` on has a key no larger than
      any element before `k`. */
  lemma SortedDescSplit<T>(s: seq<T>, key: T -> int, k: nat, x: T)
    requires SortedDesc(s, key) && k <= |s|
    requires x in multiset(s[k..])
    ensures forall i :: 0 <= i < k ==> key(x) <= key(s[i])
  {
    var j :| 0 <= j < |s[k..]| && s[k..][j] == x;
    assert s[k + j] == x;
  }

  /** The first `k` rows of a sorted arrangement of `s` are sorted, are
      taken from `s`, and have keys no smaller than any row left out. */
  lemma SortedPrefix<T>(s: seq<T>, sorted: seq<T>, key: T -> int, k: nat)
    requires SortedDesc(sorted, key) && multiset(sorted) == multiset(s) && k <= |sorted|
    ensures SortedDesc(sorted[..k], key)
    ensures multiset(sorted[..k]) <= multiset(s)
    ensures forall x :: x in multiset(s) - multiset(sorted[..k]) ==>
              forall i :: 0 <= i < k ==> key(x) <= key(sorted[..k][i])
  {
    var r := sorted[..k];
    SortedDescPrefix(sorted, key, k);
    assert sorted == r + sorted[k..];
    assert multiset(sorted) == multiset(r) + multiset(sorted[k..]);
    forall x | x in multiset(s) - multiset(r)
      ensures forall i :: 0 <= i < k ==> key(x) <= key(r[i])
    {
      SortedDescSplit(sorted, key, k, x);
    }
  }

  /** `order_by('-key')[:n]`: the `n` rows with the largest keys (all rows
      when there are fewer), largest first; every row left out has a key no
      larger than any row taken. */
  function TopN<T>(s: seq<T>, key: T -> int, n: nat): (r: seq<T>)
    ensures |r| == Min(n, |s|)
    ensures SortedDesc(r, key)
    ensures multiset(r) <= multiset(s)
    ensures forall x :: x in multiset(s) - multiset(r) ==>
              forall i :: 0 <= i < |r| ==> key(x) <= key(r[i])
  {
    var sorted := SortByDesc(s, key);
    assert |sorted| == |multiset(sorted)| == |s|;
    var k := Min(n, |s|);
    SortedPrefix(s, sorted, key, k);
    sorted[..k]
  }
}
