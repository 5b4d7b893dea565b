/** The store: queries over the four tables (filter, sort newest first, limit)
    and a `Storage` object whose methods insert, update and delete rows in place. */
module Storage {
  import opened Base
  import opened Json
  import opened Schema

  // ----- Queries -----

  function RunnerById(rs: seq<Runner>, id: string): (r: Option<Runner>)
    ensures r.Some? ==> r.value in rs && r.value.id == id
    ensures r.None? <==> !HasKey(rs, RunnerKey, id)
  {
    Find(rs, (x: Runner) => x.id == id)
  }

  function OrderById(os: seq<Order>, id: string): (r: Option<Order>)
    ensures r.Some? ==> r.value in os && r.value.id == id
    ensures r.None? <==> !HasKey(os, OrderKey, id)
  {
    Find(os, (x: Order) => x.id == id)
  }

  function LastSeen(r: Runner): int { r.lastSeenAt }
  function OrderCreated(o: Order): int { o.createdAt }
  function EvidenceCreated(e: Evidence): int { e.createdAt }
  function FactsChecked(f: Facts): int { f.checkedAt }

  /** All runners, most recently seen first. */
  function RunnersByLastSeen(rs: seq<Runner>): (r: seq<Runner>)
    ensures SortedDesc(r, LastSeen)
    ensures multiset(r) == multiset(rs)
  {
    SortDesc(rs, LastSeen)
  }

  /** An order matches an idempotency key when runner, type and client request id
      all agree; an order stored without a client request id matches no key. */
  predicate SameRequest(o: Order, runnerId: string, t: OrderType, key: string) {
    o.runnerId == runnerId && o.orderType == t && o.clientRequestId == Some(key)
  }

  /** The first order stored under an idempotency key, if any. */
  function OrderByRequest(os: seq<Order>, runnerId: string, t: OrderType, key: string): (r: Option<Order>)
    ensures r.Some? ==> r.value in os && SameRequest(r.value, runnerId, t, key)
    ensures r.None? <==> forall i :: 0 <= i < |os| ==> !SameRequest(os[i], runnerId, t, key)
  {
    Find(os, (o: Order) => SameRequest(o, runnerId, t, key))
  }

  const DefaultOrderLimit := 50

  /** A runner's orders, in table order. */
  function OrdersFor(os: seq<Order>, runnerId: string): (r: seq<Order>)
    ensures forall o :: o in r <==> o in os && o.runnerId == runnerId
  {
    Where(os, (o: Order) => o.runnerId == runnerId)
  }

  /** A runner's orders, newest first, at most `limit` of them (a negative limit is no
      limit): the `min(limit, count)` newest when the limit is not negative. */
  function OrdersOf(os: seq<Order>, runnerId: string, limit: int): (r: seq<Order>)
    ensures forall o :: o in r ==> o in os && o.runnerId == runnerId
    ensures SortedDesc(r, OrderCreated)
    ensures multiset(r) <= multiset(OrdersFor(os, runnerId))
    ensures limit < 0 || |OrdersFor(os, runnerId)| <= limit ==> multiset(r) == multiset(OrdersFor(os, runnerId))
    ensures 0 <= limit ==> |r| == if limit < |OrdersFor(os, runnerId)| then limit else |OrdersFor(os, runnerId)|
    ensures forall o, p :: o in r && p in os && p.runnerId == runnerId && p !in r ==> p.createdAt <= o.createdAt
  {
    var m := OrdersFor(os, runnerId);
    var all := SortDesc(m, OrderCreated);
    TakeSorted(m, all, limit, OrderCreated);
    KeptNewest(os, runnerId, Take(all, limit));
    Take(all, limit)
  }

  lemma KeptNewest(os: seq<Order>, runnerId: string, r: seq<Order>)
    requires forall x, y :: x in r && y in OrdersFor(os, runnerId) && y !in r ==> OrderCreated(y) <= OrderCreated(x)
    ensures forall o, p :: o in r && p in os && p.runnerId == runnerId && p !in r ==> p.createdAt <= o.createdAt
  {
    forall o, p | o in r && p in os && p.runnerId == runnerId && p !in r ensures p.createdAt <= o.createdAt {
      assert p in OrdersFor(os, runnerId);
      assert OrderCreated(p) <= OrderCreated(o);
    }
  }

  /** The first `limit` of a sorted rearrangement of `m` are its `min(limit, |m|)`
      largest elements. */
  lemma TakeSorted<T>(m: seq<T>, all: seq<T>, limit: int, key: T -> int)
    requires SortedDesc(all, key) && multiset(all) == multiset(m)
    ensures var r := Take(all, limit);
      SortedDesc(r, key) && multiset(r) <= multiset(m) && (forall x :: x in r ==> x in m)
      && (limit < 0 || |m| <= limit ==> multiset(r) == multiset(m))
      && (0 <= limit ==> |r| == if limit < |m| then limit else |m|)
      && (forall x, y :: x in r && y in m && y !in r ==> key(y) <= key(x))
  {
    var r := Take(all, limit);
    assert |all| == |m| by {
      assert |multiset(all)| == |multiset(m)|;
    }
    PrefixMultiset(all, |r|);
    forall x | x in r ensures x in m {
      assert x in multiset(r);
    }
    forall x, y | x in r && y in m && y !in r ensures key(y) <= key(x) {
      assert y in multiset(all);
      PrefixBound(all, |r|, x, y, key);
    }
    forall i, j | 0 <= i < j < |r| ensures key(r[i]) >= key(r[j]) {
      assert r[i] == all[i] && r[j] == all[j];
    }
  }

  /** A prefix holds no element more often than the whole list. */
  lemma PrefixMultiset<T>(s: seq<T>, k: int)
    requires 0 <= k <= |s|
    ensures multiset(s[..k]) <= multiset(s)
  {
    assert s == s[..k] + s[k..];
  }

  /** In a list sorted newest first, an element outside a prefix is no newer than one inside it. */
  lemma PrefixBound<T>(s: seq<T>, k: int, x: T, y: T, key: T -> int)
    requires SortedDesc(s, key) && 0 <= k <= |s|
    requires x in s[..k] && y in s && y !in s[..k]
    ensures key(y) <= key(x)
  {
    var i :| 0 <= i < k && s[..k][i] == x;
    var j :| 0 <= j < |s| && s[j] == y;
  }

  /** The evidence filter: by order when an order id is given and non-empty, otherwise
      by runner when a runner id is, otherwise every row. */
  predicate EvidenceMatches(e: Evidence, runnerId: Option<string>, orderId: Option<string>) {
    if orderId.Some? && orderId.value != "" then e.orderId == orderId.value
    else if runnerId.Some? && runnerId.value != "" then e.runnerId == runnerId.value
    else true
  }

  function EvidencesMatching(es: seq<Evidence>, runnerId: Option<string>, orderId: Option<string>): (r: seq<Evidence>)
    ensures SortedDesc(r, EvidenceCreated)
    ensures multiset(r) == multiset(Where(es, (e: Evidence) => EvidenceMatches(e, runnerId, orderId)))
    ensures forall e :: e in r <==> e in es && EvidenceMatches(e, runnerId, orderId)
  {
    var m := Where(es, (e: Evidence) => EvidenceMatches(e, runnerId, orderId));
    var r := SortDesc(m, EvidenceCreated);
    forall e ensures e in r <==> e in es && EvidenceMatches(e, runnerId, orderId) {
      assert e in r <==> e in multiset(r);
      assert e in m <==> e in multiset(m);
    }
    r
  }

  /** The runner's facts row with the latest check time, if it has any. */
  function LatestFacts(fs: seq<Facts>, runnerId: string): (r: Option<Facts>)
    ensures r.None? <==> forall f :: f in fs ==> f.runnerId != runnerId
    ensures r.Some? ==> r.value in fs && r.value.runnerId == runnerId
    ensures r.Some? ==> forall f :: f in fs && f.runnerId == runnerId ==> f.checkedAt <= r.value.checkedAt
  {
    var m := Where(fs, (f: Facts) => f.runnerId == runnerId);
    var s := SortDesc(m, FactsChecked);
    if s == [] then
      assert multiset(m) == multiset{};
      None
    else
      assert s[0] in multiset(m);
      assert s[0] in m;
      assert s[0] in fs && s[0].runnerId == runnerId;
      forall f | f in fs && f.runnerId == runnerId ensures f.checkedAt <= s[0].checkedAt {
        assert f in multiset(s);
        var j :| 0 <= j < |s| && s[j] == f;
        assert j == 0 || FactsChecked(s[0]) >= FactsChecked(s[j]);
      }
      Some(s[0])
  }

  // ----- Partial updates -----

  /** The order fields an update may supply; `None` leaves a field as it is. */
  datatype OrderPatch = OrderPatch(
    status: Option<Status>,
    startedAt: Option<int>,
    finishedAt: Option<int>,
    exitCode: Option<int>,
    summary: Option<string>,
    evidenceId: Option<string>)

  /** The runner fields an update may supply. */
  datatype RunnerPatch = RunnerPatch(lastSeenAt: Option<int>, factsRef: Option<FactsRef>)

  /** A value in a runner update object: a timestamp or a facts reference. */
  datatype RunnerCell = Stamp(at: int) | Linked(ref: FactsRef)

  /** The SET clause built from a runner update object. Of the keys the worker can
      send, only those naming a column property of the runners table reach it:
      `lastSeenAt` with a timestamp and `factsRef` with a facts reference; any other
      key, such as `facts_ref`, is ignored. */
  function RunnerSetClause(updates: map<string, RunnerCell>): (p: RunnerPatch)
    ensures p.lastSeenAt.Some? <==> "lastSeenAt" in updates && updates["lastSeenAt"].Stamp?
    ensures p.lastSeenAt.Some? ==> p.lastSeenAt.value == updates["lastSeenAt"].at
    ensures p.factsRef.Some? <==> "factsRef" in updates && updates["factsRef"].Linked?
    ensures p.factsRef.Some? ==> p.factsRef.value == updates["factsRef"].ref
  {
    RunnerPatch(
      if "lastSeenAt" in updates && updates["lastSeenAt"].Stamp? then Some(updates["lastSeenAt"].at) else None,
      if "factsRef" in updates && updates["factsRef"].Linked? then Some(updates["factsRef"].ref) else None)
  }

  function SetOrder(o: Order, p: OrderPatch): (r: Order)
    ensures r.id == o.id && r.runnerId == o.runnerId && r.orderType == o.orderType
    ensures r.createdAt == o.createdAt && r.clientRequestId == o.clientRequestId
    ensures r.status == p.status.GetOr(o.status) && r.startedAt == (if p.startedAt.Some? then p.startedAt else o.startedAt)
    ensures r.finishedAt == (if p.finishedAt.Some? then p.finishedAt else o.finishedAt)
    ensures r.exitCode == (if p.exitCode.Some? then p.exitCode else o.exitCode)
    ensures r.summary == (if p.summary.Some? then p.summary else o.summary)
    ensures r.evidenceId == (if p.evidenceId.Some? then p.evidenceId else o.evidenceId)
  {
    o.(status := p.status.GetOr(o.status),
       startedAt := if p.startedAt.Some? then p.startedAt else o.startedAt,
       finishedAt := if p.finishedAt.Some? then p.finishedAt else o.finishedAt,
       exitCode := if p.exitCode.Some? then p.exitCode else o.exitCode,
       summary := if p.summary.Some? then p.summary else o.summary,
       evidenceId := if p.evidenceId.Some? then p.evidenceId else o.evidenceId)
  }

  function SetRunner(r0: Runner, p: RunnerPatch): (r: Runner)
    ensures r.id == r0.id && r.name == r0.name && r.createdAt == r0.createdAt
    ensures r.ttlSeconds == r0.ttlSeconds && r.labels == r0.labels
    ensures r.lastSeenAt == p.lastSeenAt.GetOr(r0.lastSeenAt)
    ensures r.factsRef == (if p.factsRef.Some? then p.factsRef else r0.factsRef)
  {
    r0.(lastSeenAt := p.lastSeenAt.GetOr(r0.lastSeenAt),
        factsRef := if p.factsRef.Some? then p.factsRef else r0.factsRef)
  }

  /** `UPDATE orders SET … WHERE id = …`: the row with that id gets the patch, every other row stays. */
  function PatchOrders(os: seq<Order>, id: string, p: OrderPatch): (r: seq<Order>)
    ensures |r| == |os|
    ensures forall i :: 0 <= i < |os| ==> r[i] == if os[i].id == id then SetOrder(os[i], p) else os[i]
  {
    if os == [] then []
    else [if os[0].id == id then SetOrder(os[0], p) else os[0]] + PatchOrders(os[1..], id, p)
  }

  function PatchRunners(rs: seq<Runner>, id: string, p: RunnerPatch): (r: seq<Runner>)
    ensures |r| == |rs|
    ensures forall i :: 0 <= i < |rs| ==> r[i] == if rs[i].id == id then SetRunner(rs[i], p) else rs[i]
  {
    if rs == [] then []
    else [if rs[0].id == id then SetRunner(rs[0], p) else rs[0]] + PatchRunners(rs[1..], id, p)
  }

  /** An update keeps every row's id, so it keeps the key unique. */
  lemma PatchOrdersKeys(os: seq<Order>, id: string, p: OrderPatch)
    requires UniqueKeys(os, OrderKey)
    ensures UniqueKeys(PatchOrders(os, id, p), OrderKey)
    ensures forall k :: HasKey(PatchOrders(os, id, p), OrderKey, k) <==> HasKey(os, OrderKey, k)
  {
    var r := PatchOrders(os, id, p);
    forall k ensures HasKey(r, OrderKey, k) <==> HasKey(os, OrderKey, k) {
      if HasKey(os, OrderKey, k) {
        var i :| 0 <= i < |os| && OrderKey(os[i]) == k;
        assert OrderKey(r[i]) == k;
      }
    }
  }

  lemma PatchRunnersKeys(rs: seq<Runner>, id: string, p: RunnerPatch)
    requires UniqueKeys(rs, RunnerKey)
    ensures UniqueKeys(PatchRunners(rs, id, p), RunnerKey)
  {
  }

  /** After an update, looking the row up by its id finds the patched row. */
  lemma PatchedOrderFound(os: seq<Order>, id: string, p: OrderPatch)
    requires OrderById(os, id).Some?
    ensures OrderById(PatchOrders(os, id, p), id) == Some(SetOrder(OrderById(os, id).value, p))
  {
    var r := PatchOrders(os, id, p);
    var o := OrderById(os, id).value;
    var i :| 0 <= i < |os| && os[i] == o && (forall j :: 0 <= j < i ==> os[j].id != id) by {
      FirstIndex(os, id);
    }
    FindAt(r, (x: Order) => x.id == id, i);
  }

  lemma FirstIndex(os: seq<Order>, id: string)
    requires OrderById(os, id).Some?
    ensures exists i :: 0 <= i < |os| && os[i] == OrderById(os, id).value && (forall j :: 0 <= j < i ==> os[j].id != id)
  {
    if os[0].id != id {
      assert os[1..] != [];
      FirstIndex(os[1..], id);
      var i :| 0 <= i < |os[1..]| && os[1..][i] == OrderById(os[1..], id).value && (forall j :: 0 <= j < i ==> os[1..][j].id != id);
      assert os[i + 1] == OrderById(os, id).value;
    } else {
      assert os[0] == OrderById(os, id).value;
    }
  }

  /** `Find` returns the element at the first index that satisfies the predicate. */
  lemma FindAt<T>(s: seq<T>, p: T -> bool, i: int)
    requires 0 <= i < |s| && p(s[i]) && forall j :: 0 <= j < i ==> !p(s[j])
    ensures Find(s, p) == Some(s[i])
  {
    if i > 0 {
      FindAt(s[1..], p, i - 1);
    }
  }

  /** `DELETE FROM runners WHERE id = …`. */
  function DeleteRunnerRows(rs: seq<Runner>, id: string): (r: seq<Runner>)
    ensures forall x :: x in r <==> x in rs && x.id != id
    ensures Subsequence(r, rs)
  {
    Where(rs, (x: Runner) => x.id != id)
  }

  /** The in-memory store. Inserts that repeat a primary key fail and change nothing. */
  class Storage {
    var runners: seq<Runner>
    var orders: seq<Order>
    var evidences: seq<Evidence>
    var facts: seq<Facts>

    function Tables(): Db
      reads this
    {
      Db(runners, orders, evidences, facts)
    }

    predicate Valid()
      reads this
    {
      DbValid(Tables())
    }

    constructor ()
      ensures Valid() && Tables() == Db([], [], [], [])
    {
      runners, orders, evidences, facts := [], [], [], [];
    }

    method CreateRunner(ins: RunnerInsert) returns (created: Option<Runner>)
      requires Valid()
      modifies this
      ensures Valid()
      ensures old(HasKey(runners, RunnerKey, ins.id)) ==> created.None? && Tables() == old(Tables())
      ensures !old(HasKey(runners, RunnerKey, ins.id)) ==>
        created == Some(RunnerRow(ins)) && Tables() == old(Tables()).(runners := old(runners) + [RunnerRow(ins)])
    {
      if HasKey(runners, RunnerKey, ins.id) {
        return None;
      }
      AppendUnique(runners, RunnerKey, RunnerRow(ins));
      runners := runners + [RunnerRow(ins)];
      return Some(RunnerRow(ins));
    }

    method CreateOrder(o: Order) returns (created: Option<Order>)
      requires Valid()
      modifies this
      ensures Valid()
      ensures old(HasKey(orders, OrderKey, o.id)) ==> created.None? && Tables() == old(Tables())
      ensures !old(HasKey(orders, OrderKey, o.id)) ==>
        created == Some(o) && Tables() == old(Tables()).(orders := old(orders) + [o])
    {
      if HasKey(orders, OrderKey, o.id) {
        return None;
      }
      AppendUnique(orders, OrderKey, o);
      orders := orders + [o];
      return Some(o);
    }

    method CreateEvidence(e: Evidence) returns (created: Option<Evidence>)
      requires Valid()
      modifies this
      ensures Valid()
      ensures old(HasKey(evidences, EvidenceKey, e.id)) ==> created.None? && Tables() == old(Tables())
      ensures !old(HasKey(evidences, EvidenceKey, e.id)) ==>
        created == Some(e) && Tables() == old(Tables()).(evidences := old(evidences) + [e])
    {
      if HasKey(evidences, EvidenceKey, e.id) {
        return None;
      }
      AppendUnique(evidences, EvidenceKey, e);
      evidences := evidences + [e];
      return Some(e);
    }

    method CreateFacts(ins: FactsInsert) returns (created: Option<Facts>)
      requires Valid()
      modifies this
      ensures Valid()
      ensures old(HasKey(facts, FactsKey, ins.id)) ==> created.None? && Tables() == old(Tables())
      ensures !old(HasKey(facts, FactsKey, ins.id)) ==>
        created == Some(FactsRow(ins)) && Tables() == old(Tables()).(facts := old(facts) + [FactsRow(ins)])
    {
      if HasKey(facts, FactsKey, ins.id) {
        return None;
      }
      AppendUnique(facts, FactsKey, FactsRow(ins));
      facts := facts + [FactsRow(ins)];
      return Some(FactsRow(ins));
    }

    /** Overwrites the supplied fields of the order with that id; no such order is no change. */
    method UpdateOrder(id: string, p: OrderPatch)
      requires Valid()
      modifies this
      ensures Valid()
      ensures Tables() == old(Tables()).(orders := PatchOrders(old(orders), id, p))
    {
      PatchOrdersKeys(orders, id, p);
      orders := PatchOrders(orders, id, p);
    }

    /** Applies the SET clause of `updates` to the runner with that id. */
    method UpdateRunner(id: string, updates: map<string, RunnerCell>)
      requires Valid()
      modifies this
      ensures Valid()
      ensures Tables() == old(Tables()).(runners := PatchRunners(old(runners), id, RunnerSetClause(updates)))
    {
      PatchRunnersKeys(runners, id, RunnerSetClause(updates));
      runners := PatchRunners(runners, id, RunnerSetClause(updates));
    }

    /** Removes the runner row only; its orders, evidences and facts stay. */
    method DeleteRunner(id: string)
      requires Valid()
      modifies this
      ensures Valid()
      ensures Tables() == old(Tables()).(runners := DeleteRunnerRows(old(runners), id))
    {
      SubsequenceUnique(DeleteRunnerRows(runners, id), runners);
      runners := DeleteRunnerRows(runners, id);
    }
  }

  /** A subsequence of a table with a unique key keeps the key unique. */
  lemma {:induction false} SubsequenceUnique(a: seq<Runner>, b: seq<Runner>)
    requires Subsequence(a, b) && UniqueKeys(b, RunnerKey)
    ensures UniqueKeys(a, RunnerKey)
    ensures forall x :: x in a ==> x in b
    decreases |b|
  {
    if a != [] && b != [] {
      if a[0] == b[0] {
        SubsequenceUnique(a[1..], b[1..]);
        forall j | 0 < j < |a| ensures a[0].id != a[j].id {
          assert a[j] in a[1..];
          var k :| 0 <= k < |b[1..]| && b[1..][k] == a[j];
          assert b[k + 1] == a[j];
        }
        forall x | x in a ensures x in b {
          if x != a[0] {
            assert x in a[1..];
            assert x in b[1..];
          }
        }
      } else {
        SubsequenceUnique(a, b[1..]);
      }
    }
  }
}
