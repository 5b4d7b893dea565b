/** The dashboard's search filter over the runner list and its count of active runners. */
module Dashboard {
  import opened Base
  import opened Text
  import opened Schema
  import opened RunnerCard

  /** `toLowerCase`, character by character under a given case map. */
  function Lower(s: string, lower: char -> char): (r: string)
    ensures |r| == |s| && forall i :: 0 <= i < |s| ==> r[i] == lower(s[i])
  {
    seq(|s|, i requires 0 <= i < |s| => lower(s[i]))
  }

  /** The search matches a runner's lowercased name or id. */
  predicate Matches(r: Runner, search: string, lower: char -> char) {
    Contains(Lower(r.name, lower), Lower(search, lower)) || Contains(Lower(r.id, lower), Lower(search, lower))
  }

  /** `runners?.filter(...)`: the runners the search matches, in their order; nothing
      while the list is not loaded. */
  function FilterRunners(runners: Option<seq<Runner>>, search: string, lower: char -> char): (r: Option<seq<Runner>>)
    ensures r.Some? <==> runners.Some?
    ensures r.Some? ==> forall x :: x in r.value <==> x in runners.value && Matches(x, search, lower)
    ensures r.Some? ==> Subsequence(r.value, runners.value)
  {
    match runners
    case None => None
    case Some(rs) => Some(Where(rs, (x: Runner) => Matches(x, search, lower)))
  }

  /** Filtering by a predicate every element satisfies keeps the whole sequence. */
  lemma {:induction false} WhereAll<T(!new)>(s: seq<T>, p: T -> bool)
    requires forall x :: x in s ==> p(x)
    ensures Where(s, p) == s
  {
    if s != [] {
      assert s[0] in s;
      forall x | x in s[1..] ensures p(x) {
        assert x in s;
      }
      WhereAll(s[1..], p);
    }
  }

  /** The empty search matches every runner, so it keeps the list as it is. */
  lemma EmptySearchKeepsAll(rs: seq<Runner>, lower: char -> char)
    ensures FilterRunners(Some(rs), "", lower) == Some(rs)
  {
    forall x | x in rs ensures Matches(x, "", lower) {
      assert OccursAt(Lower(x.name, lower), "", 0);
    }
    WhereAll(rs, (x: Runner) => Matches(x, "", lower));
  }

  /** `runners?.filter(online).length || 0`: the number of online runners, 0 while
      the list is not loaded. */
  function ActiveCount(runners: Option<seq<Runner>>, now: int): (n: nat)
    ensures runners.None? ==> n == 0
    ensures runners.Some? ==> n <= |runners.value|
    ensures runners.Some? ==> n == |Where(runners.value, (r: Runner) => RunnerOnline(r, now))|
  {
    match runners
    case None => 0
    case Some(rs) => |Where(rs, (r: Runner) => RunnerOnline(r, now))|
  }

  /** Counting by recursion: one for each online runner. */
  function CountOnline(rs: seq<Runner>, now: int): nat {
    if rs == [] then 0 else (if RunnerOnline(rs[0], now) then 1 else 0) + CountOnline(rs[1..], now)
  }

  /** The active count is the number of online runners, one by one. */
  lemma {:induction false} ActiveCountCounts(rs: seq<Runner>, now: int)
    ensures ActiveCount(Some(rs), now) == CountOnline(rs, now)
  {
    if rs != [] {
      ActiveCountCounts(rs[1..], now);
    }
  }

  /** Filtering keeps no more elements of a subsequence than of the whole. */
  lemma {:induction false} WhereSubsequence<T(!new)>(a: seq<T>, b: seq<T>, p: T -> bool)
    requires Subsequence(a, b)
    ensures |Where(a, p)| <= |Where(b, p)|
    decreases |b|
  {
    if a == [] {
    } else if a[0] == b[0] {
      WhereSubsequence(a[1..], b[1..], p);
    } else {
      WhereSubsequence(a, b[1..], p);
    }
  }

  /** The active count ignores the search: no search shows more online runners than it counts. */
  lemma ActiveIgnoresSearch(rs: seq<Runner>, search: string, lower: char -> char, now: int)
    ensures ActiveCount(FilterRunners(Some(rs), search, lower), now) <= ActiveCount(Some(rs), now)
  {
    var f := FilterRunners(Some(rs), search, lower).value;
    WhereSubsequence(f, rs, (r: Runner) => RunnerOnline(r, now));
  }
}
