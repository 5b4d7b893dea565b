/** The four tables of the control plane, their row types, their defaults and
    the closed sets of order types and statuses. Timestamps are milliseconds
    since the epoch; the ISO strings the tables hold sort in the same order. */
module Schema {
  import opened Base
  import opened Json

  /** The closed set of order types. */
  datatype OrderType = Selftest | Reconcile

  /** The name an order type is written under. */
  function TypeName(t: OrderType): (r: string)
    ensures TypeOf(r) == Some(t)
  {
    match t
    case Selftest => "runner.selftest"
    case Reconcile => "runner.reconcile"
  }

  /** The order type a name denotes, if it denotes one. */
  function TypeOf(s: string): (r: Option<OrderType>)
    ensures r.Some? <==> s == "runner.selftest" || s == "runner.reconcile"
  {
    if s == "runner.selftest" then Some(Selftest)
    else if s == "runner.reconcile" then Some(Reconcile)
    else None
  }

  /** The closed set of order statuses. */
  datatype Status = Queued | Running | Succeeded | Failed {
    predicate Terminal() { this == Succeeded || this == Failed }
  }

  function StatusName(s: Status): (r: string)
    ensures StatusOf(r) == Some(s)
  {
    match s
    case Queued => "queued"
    case Running => "running"
    case Succeeded => "succeeded"
    case Failed => "failed"
  }

  function StatusOf(s: string): (r: Option<Status>)
    ensures r.Some? <==> s in {"queued", "running", "succeeded", "failed"}
  {
    if s == "queued" then Some(Queued)
    else if s == "running" then Some(Running)
    else if s == "succeeded" then Some(Succeeded)
    else if s == "failed" then Some(Failed)
    else None
  }

  /** A runner's reference to the facts row of its latest check. */
  datatype FactsRef = FactsRef(factsId: string, orderId: string, evidenceId: string, checkedAt: int)

  datatype Runner = Runner(
    id: string,
    name: string,
    createdAt: int,
    lastSeenAt: int,
    ttlSeconds: Option<int>,
    labels: Option<Json>,
    factsRef: Option<FactsRef>)

  datatype Order = Order(
    id: string,
    runnerId: string,
    orderType: OrderType,
    status: Status,
    createdAt: int,
    startedAt: Option<int>,
    finishedAt: Option<int>,
    exitCode: Option<int>,
    summary: Option<string>,
    evidenceId: Option<string>,
    clientRequestId: Option<string>)

  datatype Evidence = Evidence(
    id: string,
    runnerId: string,
    orderId: string,
    createdAt: int,
    stdout: Option<string>,
    stderr: Option<string>,
    exitCode: Option<int>)

  /** A facts row; `checks` and `raw` hold the JSON texts the executor wrote. */
  datatype Facts = Facts(
    id: string,
    component: Option<string>,
    runnerId: string,
    orderId: Option<string>,
    evidenceId: Option<string>,
    checkedAt: int,
    checks: Option<string>,
    raw: Option<string>)

  /** The values given when a runner is inserted; `None` is a field left out. */
  datatype RunnerInsert = RunnerInsert(
    id: string,
    name: string,
    createdAt: int,
    lastSeenAt: int,
    ttlSeconds: Option<int>,
    labels: Option<Json>,
    factsRef: Option<FactsRef>)

  const DefaultTtl := 60
  const DefaultLabels := JStr("{}")

  /** The row stored for an insert: a left-out ttl becomes 60 and left-out labels the text "{}". */
  function RunnerRow(ins: RunnerInsert): (r: Runner)
    ensures r.id == ins.id && r.name == ins.name
    ensures r.createdAt == ins.createdAt && r.lastSeenAt == ins.lastSeenAt
    ensures r.ttlSeconds == Some(ins.ttlSeconds.GetOr(DefaultTtl))
    ensures r.labels == Some(ins.labels.GetOr(DefaultLabels))
    ensures r.factsRef == ins.factsRef
  {
    Runner(ins.id, ins.name, ins.createdAt, ins.lastSeenAt,
      Some(ins.ttlSeconds.GetOr(DefaultTtl)), Some(ins.labels.GetOr(DefaultLabels)), ins.factsRef)
  }

  /** The values given when a facts row is inserted; `runnerId` and `checkedAt` are required. */
  datatype FactsInsert = FactsInsert(
    id: string,
    component: Option<string>,
    runnerId: string,
    orderId: Option<string>,
    evidenceId: Option<string>,
    checkedAt: int,
    checks: Option<string>,
    raw: Option<string>)

  const DefaultComponent := "runner"

  /** The row stored for a facts insert: a left-out component becomes "runner". */
  function FactsRow(ins: FactsInsert): (r: Facts)
    ensures r.component == Some(ins.component.GetOr(DefaultComponent))
    ensures r.id == ins.id && r.runnerId == ins.runnerId && r.checkedAt == ins.checkedAt
    ensures r.orderId == ins.orderId && r.evidenceId == ins.evidenceId
    ensures r.checks == ins.checks && r.raw == ins.raw
  {
    Facts(ins.id, Some(ins.component.GetOr(DefaultComponent)), ins.runnerId, ins.orderId,
      ins.evidenceId, ins.checkedAt, ins.checks, ins.raw)
  }

  /** The whole database: each table in insertion order. */
  datatype Db = Db(runners: seq<Runner>, orders: seq<Order>, evidences: seq<Evidence>, facts: seq<Facts>)

  function RunnerKey(r: Runner): string { r.id }
  function OrderKey(o: Order): string { o.id }
  function EvidenceKey(e: Evidence): string { e.id }
  function FactsKey(f: Facts): string { f.id }

  /** `id` is the primary key of a table: no two rows share it. */
  predicate UniqueKeys<T>(s: seq<T>, key: T -> string) {
    forall i, j :: 0 <= i < j < |s| ==> key(s[i]) != key(s[j])
  }

  predicate HasKey<T>(s: seq<T>, key: T -> string, k: string) {
    exists i :: 0 <= i < |s| && key(s[i]) == k
  }

  /** Every table keeps its primary key. */
  predicate DbValid(db: Db) {
    UniqueKeys(db.runners, RunnerKey) && UniqueKeys(db.orders, OrderKey)
    && UniqueKeys(db.evidences, EvidenceKey) && UniqueKeys(db.facts, FactsKey)
  }

  /** Appending a row whose key is new keeps the key unique. */
  lemma AppendUnique<T>(s: seq<T>, key: T -> string, x: T)
    requires UniqueKeys(s, key) && !HasKey(s, key, key(x))
    ensures UniqueKeys(s + [x], key)
  {
    forall i, j | 0 <= i < j < |s + [x]| ensures key((s + [x])[i]) != key((s + [x])[j]) {
      if j == |s| {
        assert (s + [x])[i] == s[i];
      }
    }
  }

  /** The order table has no key on (runner, type, client request id): two orders
      that agree on all three are a valid table. */
  lemma NoIdempotencyKey()
    ensures exists os: seq<Order> ::
              (UniqueKeys(os, OrderKey) && |os| == 2
               && os[0].runnerId == os[1].runnerId && os[0].orderType == os[1].orderType
               && os[0].clientRequestId == os[1].clientRequestId && os[0].clientRequestId.Some?)
  {
    var o := Order("a", "r_local", Selftest, Queued, 0, None, None, None, None, None, Some("k"));
    var os := [o, o.(id := "b")];
    assert UniqueKeys(os, OrderKey);
  }
}
