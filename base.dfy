/** Small helpers shared by every module of the model. */
module Base {

  /** A value that may be absent (JavaScript `undefined`/`null`, an SQL NULL, a missing row). */
  datatype Option<+T> = None | Some(value: T) {
    function GetOr(default: T): T {
      match this
      case Some(v) => v
      case None => default
    }
  }

  /** `a` is `b` with some elements deleted, the rest kept in their order. */
  predicate Subsequence<T(==)>(a: seq<T>, b: seq<T>)
    decreases |b|
  {
    if a == [] then true
    else if b == [] then false
    else if a[0] == b[0] then Subsequence(a[1..], b[1..])
    else Subsequence(a, b[1..])
  }

  /** JavaScript `Array.prototype.filter`: the elements satisfying `p`, in their order. */
  function Where<T(==,!new)>(s: seq<T>, p: T -> bool): (r: seq<T>)
    ensures forall x :: x in r <==> x in s && p(x)
    ensures |r| <= |s|
    ensures Subsequence(r, s)
  {
    if s == [] then []
    else if p(s[0]) then [s[0]] + Where(s[1..], p)
    else Where(s[1..], p)
  }

  /** The first element satisfying `p`, if any (a `SELECT` that keeps the first row). */
  function Find<T>(s: seq<T>, p: T -> bool): (r: Option<T>)
    ensures r.None? <==> forall i :: 0 <= i < |s| ==> !p(s[i])
    ensures r.Some? ==> r.value in s && p(r.value)
  {
    if s == [] then None
    else if p(s[0]) then Some(s[0])
    else Find(s[1..], p)
  }

  /** Appending a row changes the first match only when there was none before. */
  lemma {:induction false} FindAppend<T>(s: seq<T>, x: T, p: T -> bool)
    ensures Find(s + [x], p) == if Find(s, p).Some? then Find(s, p) else if p(x) then Some(x) else None
  {
    if s != [] {
      assert (s + [x])[1..] == s[1..] + [x];
      FindAppend(s[1..], x, p);
    }
  }

  /** Rows are sorted by `key`, largest first (`ORDER BY key DESC`). */
  predicate SortedDesc<T>(s: seq<T>, key: T -> int) {
    forall i, j :: 0 <= i < j < |s| ==> key(s[i]) >= key(s[j])
  }

  function InsertDesc<T>(x: T, s: seq<T>, key: T -> int): (r: seq<T>)
    requires SortedDesc(s, key)
    ensures SortedDesc(r, key)
    ensures multiset(r) == multiset(s) + multiset{x}
  {
    if s == [] || key(x) >= key(s[0]) then
      ConsSorted(x, s, key);
      [x] + s
    else
      var r' := InsertDesc(x, s[1..], key);
      InsertBound(x, s, r', key);
      ConsSorted(s[0], r', key);
      assert s == [s[0]] + s[1..];
      [s[0]] + r'
  }

  /** Putting an element no smaller than the rest in front keeps the order. */
  lemma ConsSorted<T>(x: T, s: seq<T>, key: T -> int)
    requires SortedDesc(s, key) && forall i :: 0 <= i < |s| ==> key(x) >= key(s[i])
    ensures SortedDesc([x] + s, key)
  {
    var t := [x] + s;
    forall i, j | 0 <= i < j < |t| ensures key(t[i]) >= key(t[j]) {
      assert t[j] == s[j - 1];
      if i > 0 {
        assert t[i] == s[i - 1];
      }
    }
  }

  /** The head of a sorted sequence bounds any rearrangement of its tail plus a smaller element. */
  lemma InsertBound<T>(x: T, s: seq<T>, r: seq<T>, key: T -> int)
    requires SortedDesc(s, key) && |s| > 0 && key(x) < key(s[0])
    requires multiset(r) == multiset(s[1..]) + multiset{x}
    ensures forall i :: 0 <= i < |r| ==> key(s[0]) >= key(r[i])
  {
    forall i | 0 <= i < |r| ensures key(s[0]) >= key(r[i]) {
      assert r[i] in multiset(r);
      if r[i] != x {
        assert r[i] in multiset(s[1..]);
        assert r[i] in s[1..];
        var k :| 0 <= k < |s[1..]| && s[1..][k] == r[i];
        assert s[k + 1] == r[i];
      }
    }
  }

  /** A sort, largest `key` first; the order among equal keys is left unspecified. */
  function SortDesc<T>(s: seq<T>, key: T -> int): (r: seq<T>)
    ensures SortedDesc(r, key)
    ensures multiset(r) == multiset(s)
    ensures |r| == |s|
  {
    if s == [] then []
    else
      assert s == [s[0]] + s[1..];
      InsertDesc(s[0], SortDesc(s[1..], key), key)
  }

  /** SQL `LIMIT limit`; SQLite reads a negative limit as "no limit". */
  function Take<T>(s: seq<T>, limit: int): (r: seq<T>)
    ensures limit < 0 || |s| <= limit ==> r == s
    ensures 0 <= limit <= |s| ==> |r| == limit
    ensures r == s[..|r|]
  {
    if limit < 0 || |s| <= limit then s else s[..limit]
  }
}
