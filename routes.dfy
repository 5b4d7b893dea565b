/** The dispatcher: the startup seed, the list-orders, evidence-list, create-order and
    delete-runner handlers, and the queue of scheduled executions that stands in for
    `setImmediate`. */
module Routes {
  import opened Base
  import opened Json
  import opened Schema
  import opened Storage
  import opened Worker
  import opened Api
  import opened Execution

  /** What a handler answers with in `data`. */
  datatype Payload =
    | OrderData(order: Order)
    | OrderList(orders: seq<Order>)
    | EvidenceList(evidences: seq<Evidence>)
    | Deleted(id: string)

  const RunnerNotFound := Raised(Some("NOT_FOUND"), Some("Runner not found"))
  const MissingFilter := Raised(Some("BAD_REQUEST"), Some("Either runner_id or order_id is required"))
  const InvalidInput := Raised(Some("VALIDATION_ERROR"), Some("Invalid input"))
  /** What the catch-all reports when the insert of a new order fails on its primary key. */
  const DuplicateOrderId := Raised(Some("INTERNAL"), Some("SqliteError: UNIQUE constraint failed: orders.id"))

  const QueuedSummary := "Queued for execution"

  // ----- Startup seed -----

  const SeedId := "r_local"

  /** The default runner registered at startup. */
  function SeedRunner(created: int, seen: int): RunnerInsert {
    RunnerInsert(SeedId, "local-runner", created, seen, Some(60), Some(JStr("{}")), None)
  }

  /** The store after the startup seed: the default runner is added only to an empty
      runner table. `created` and `seen` are the seed's two clock readings. */
  function Seeded(db: Db, created: int, seen: int): (r: Db)
    ensures r.orders == db.orders && r.evidences == db.evidences && r.facts == db.facts
    ensures |r.runners| > 0
    ensures |db.runners| > 0 ==> r == db
    ensures |db.runners| == 0 ==>
      r.runners == [RunnerRow(SeedRunner(created, seen))] && r.runners[0].ttlSeconds == Some(DefaultTtl)
  {
    if |db.runners| == 0 then db.(runners := [RunnerRow(SeedRunner(created, seen))]) else db
  }

  /** Seeding twice, at any two times, is seeding once. */
  lemma SeededIdempotent(db: Db, c1: int, s1: int, c2: int, s2: int)
    ensures Seeded(Seeded(db, c1, s1), c2, s2) == Seeded(db, c1, s1)
  {
  }

  // ----- Create order -----

  /** The row inserted for a new order. */
  function QueuedOrder(id: string, runnerId: string, input: CreateOrderInput, now: int): (o: Order)
    ensures o.id == id && o.runnerId == runnerId && o.orderType == input.orderType
    ensures o.status == Queued && o.createdAt == now && o.summary == Some(QueuedSummary)
    ensures o.clientRequestId == input.clientRequestId
    ensures o.startedAt.None? && o.finishedAt.None? && o.exitCode.None? && o.evidenceId.None?
  {
    Order(id, runnerId, input.orderType, Queued, now, None, None, None, Some(QueuedSummary), None, input.clientRequestId)
  }

  /** What a create-order request leaves: the store, the executions it schedules, the answer. */
  datatype Outcome = Outcome(db: Db, scheduled: seq<string>, response: Response<Payload>)

  /** The create-order handler as a function of the store before it. */
  function CreateOrderSpec(db: Db, runnerId: string, body: Json, newId: string, now: int): (out: Outcome)
    ensures out.db.runners == db.runners && out.db.evidences == db.evidences && out.db.facts == db.facts
    ensures out.response.body.ok <==> out.response.status == 200 || out.response.status == 201
    ensures out.response.status != 201 ==> out.db == db && out.scheduled == []
    ensures out.response.status == 201 ==>
      ValidateCreateOrder(body).Some? && !HasKey(db.orders, OrderKey, newId)
      && var input := ValidateCreateOrder(body).value;
      out.db.orders == db.orders + [QueuedOrder(newId, runnerId, input, now)]
      && out.scheduled == [newId]
      && out.response.body.data == Some(OrderData(QueuedOrder(newId, runnerId, input, now)))
    ensures ValidateCreateOrder(body).None? ==> out.response.status == 400
    ensures ValidateCreateOrder(body).Some? && !HasKey(db.runners, RunnerKey, runnerId) ==> out.response.status == 404
    ensures out.response.status == 200 ==>
      ValidateCreateOrder(body).Some? && Given(ValidateCreateOrder(body).value.clientRequestId)
      && var input := ValidateCreateOrder(body).value;
      var existing := OrderByRequest(db.orders, runnerId, input.orderType, input.clientRequestId.value);
      existing.Some? && out.response.body.data == Some(OrderData(existing.value))
    ensures ValidateCreateOrder(body).Some? && HasKey(db.runners, RunnerKey, runnerId)
            && Given(ValidateCreateOrder(body).value.clientRequestId) ==>
      var input := ValidateCreateOrder(body).value;
      var existing := OrderByRequest(db.orders, runnerId, input.orderType, input.clientRequestId.value);
      existing.Some? ==>
        out.response.status == 200 && out.response.body.data == Some(OrderData(existing.value))
        && out.db == db && out.scheduled == []
    ensures ValidateCreateOrder(body).Some? && HasKey(db.runners, RunnerKey, runnerId)
            && (var input := ValidateCreateOrder(body).value;
                !Given(input.clientRequestId)
                || OrderByRequest(db.orders, runnerId, input.orderType, input.clientRequestId.value).None?) ==>
      out.response.status == (if HasKey(db.orders, OrderKey, newId) then 500 else 201)
  {
    match ValidateCreateOrder(body)
    case None => Outcome(db, [], Respond(None, Some(InvalidInput), 400))
    case Some(input) =>
      if RunnerById(db.runners, runnerId).None? then Outcome(db, [], Respond(None, Some(RunnerNotFound), 404))
      else if Given(input.clientRequestId)
           && OrderByRequest(db.orders, runnerId, input.orderType, input.clientRequestId.value).Some? then
        var existing := OrderByRequest(db.orders, runnerId, input.orderType, input.clientRequestId.value).value;
        Outcome(db, [], Respond(Some(OrderData(existing)), None, 200))
      else if HasKey(db.orders, OrderKey, newId) then Outcome(db, [], Respond(None, Some(DuplicateOrderId), 500))
      else
        var o := QueuedOrder(newId, runnerId, input, now);
        Outcome(db.(orders := db.orders + [o]), [newId], Respond(Some(OrderData(o)), None, 201))
  }

  /** Two orders that answer the same non-empty idempotency key. */
  predicate SameKey(a: Order, b: Order) {
    a.runnerId == b.runnerId && a.orderType == b.orderType
    && a.clientRequestId.Some? && a.clientRequestId.value != "" && a.clientRequestId == b.clientRequestId
  }

  /** No two orders share a non-empty idempotency key. */
  predicate KeysUnique(os: seq<Order>) {
    forall i, j :: 0 <= i < j < |os| ==> !SameKey(os[i], os[j])
  }

  /** The handler keeps idempotency keys unique: it inserts a keyed order only after
      its lookup found none. */
  lemma CreateKeepsKeysUnique(db: Db, runnerId: string, body: Json, newId: string, now: int)
    requires KeysUnique(db.orders)
    ensures KeysUnique(CreateOrderSpec(db, runnerId, body, newId, now).db.orders)
  {
    var out := CreateOrderSpec(db, runnerId, body, newId, now);
    if out.response.status == 201 {
      var input := ValidateCreateOrder(body).value;
      var o := QueuedOrder(newId, runnerId, input, now);
      var os := out.db.orders;
      assert os == db.orders + [o];
      forall i, j | 0 <= i < j < |os| ensures !SameKey(os[i], os[j]) {
        if j == |db.orders| {
          assert os[i] == db.orders[i];
        }
      }
    }
  }

  /** Submitting the same keyed request twice creates at most one order: the second
      submission answers 200 with whatever the first answered, and changes nothing. */
  lemma SubmitTwice(db: Db, runnerId: string, body: Json, id1: string, t1: int, id2: string, t2: int)
    requires ValidateCreateOrder(body).Some? && Given(ValidateCreateOrder(body).value.clientRequestId)
    requires HasKey(db.runners, RunnerKey, runnerId) && !HasKey(db.orders, OrderKey, id1)
    ensures var first := CreateOrderSpec(db, runnerId, body, id1, t1);
            var second := CreateOrderSpec(first.db, runnerId, body, id2, t2);
            second.response.status == 200 && second.response.body.data == first.response.body.data
            && second.db == first.db && second.scheduled == []
  {
    var input := ValidateCreateOrder(body).value;
    var key := input.clientRequestId.value;
    var first := CreateOrderSpec(db, runnerId, body, id1, t1);
    if OrderByRequest(db.orders, runnerId, input.orderType, key).None? {
      var o := QueuedOrder(id1, runnerId, input, t1);
      assert first.db.orders == db.orders + [o];
      FindAppend(db.orders, o, (x: Order) => SameRequest(x, runnerId, input.orderType, key));
      assert OrderByRequest(first.db.orders, runnerId, input.orderType, key) == Some(o);
    }
  }

  /** A request without a non-empty key is never replayed: every such submission to a
      known runner with a fresh id creates an order. */
  lemma UnkeyedAlwaysCreates(db: Db, runnerId: string, body: Json, newId: string, now: int)
    requires ValidateCreateOrder(body).Some? && !Given(ValidateCreateOrder(body).value.clientRequestId)
    requires HasKey(db.runners, RunnerKey, runnerId) && !HasKey(db.orders, OrderKey, newId)
    ensures CreateOrderSpec(db, runnerId, body, newId, now).response.status == 201
  {
  }

  /** Two unkeyed submissions of the same request give two orders for it. */
  lemma UnkeyedTwiceCreatesTwo(db: Db, runnerId: string, body: Json, id1: string, t1: int, id2: string, t2: int)
    requires ValidateCreateOrder(body).Some? && !Given(ValidateCreateOrder(body).value.clientRequestId)
    requires HasKey(db.runners, RunnerKey, runnerId)
    requires !HasKey(db.orders, OrderKey, id1) && !HasKey(db.orders, OrderKey, id2) && id1 != id2
    ensures var first := CreateOrderSpec(db, runnerId, body, id1, t1);
            var second := CreateOrderSpec(first.db, runnerId, body, id2, t2);
            |second.db.orders| == |db.orders| + 2 && first.scheduled == [id1] && second.scheduled == [id2]
  {
    var first := CreateOrderSpec(db, runnerId, body, id1, t1);
    UnkeyedAlwaysCreates(db, runnerId, body, id1, t1);
    assert !HasKey(first.db.orders, OrderKey, id2) by {
      var o := QueuedOrder(id1, runnerId, ValidateCreateOrder(body).value, t1);
      assert first.db.orders == db.orders + [o];
      forall i | 0 <= i < |first.db.orders| ensures OrderKey(first.db.orders[i]) != id2 {
        if i < |db.orders| {
          assert OrderKey(db.orders[i]) != id2;
        }
      }
    }
    UnkeyedAlwaysCreates(first.db, runnerId, body, id2, t2);
  }

  // ----- The server -----

  /** Every scheduled id names a stored order, and none is scheduled twice. */
  predicate PendingOk(os: seq<Order>, pending: seq<string>) {
    (forall i :: 0 <= i < |pending| ==> HasKey(os, OrderKey, pending[i]))
    && (forall i, j :: 0 <= i < j < |pending| ==> pending[i] != pending[j])
  }

  class Server {
    const store: Storage
    /** Order ids whose execution is scheduled and not yet run, oldest first. */
    var pending: seq<string>

    predicate Valid()
      reads this, store
    {
      store.Valid() && PendingOk(store.orders, pending)
    }

    constructor (st: Storage)
      requires st.Valid()
      ensures Valid() && store == st && pending == []
    {
      store := st;
      pending := [];
    }

    /** The startup seed; `created` and `seen` are its two clock readings. */
    method Seed(created: int, seen: int)
      requires Valid()
      modifies store
      ensures Valid()
      ensures store.Tables() == Seeded(old(store.Tables()), created, seen)
    {
      var existing := RunnersByLastSeen(store.runners);
      assert |existing| == |multiset(existing)| == |store.runners|;
      if |existing| == 0 {
        var inserted := store.CreateRunner(SeedRunner(created, seen));
      }
    }

    /** GET the orders of a runner: 404 for an unknown runner, otherwise its newest
        orders, as many as the `limit` query asks (50 by default). */
    method ListOrders(runnerId: string, limit: Option<string>) returns (resp: Response<Payload>)
      requires Valid()
      ensures !HasKey(store.runners, RunnerKey, runnerId) ==> resp == Respond(None, Some(RunnerNotFound), 404)
      ensures HasKey(store.runners, RunnerKey, runnerId) ==>
        resp == Respond(Some(OrderList(OrdersOf(store.orders, runnerId, ListLimit(limit)))), None, 200)
      ensures resp.body.ok && limit.None? ==>
        |resp.body.data.value.orders| <= DefaultLimit
        && forall o :: o in resp.body.data.value.orders ==> o in store.orders && o.runnerId == runnerId
    {
      var runner := RunnerById(store.runners, runnerId);
      if runner.None? {
        return Respond(None, Some(RunnerNotFound), 404);
      }
      var n := ListLimit(limit);
      var orders := OrdersOf(store.orders, runnerId, n);
      return Respond(Some(OrderList(orders)), None, 200);
    }

    /** GET the evidence list: 400 unless a runner id or an order id is given; a given
        order id selects by order, otherwise the runner id selects by runner. */
    method ListEvidences(runnerId: Option<string>, orderId: Option<string>) returns (resp: Response<Payload>)
      requires Valid()
      ensures !EvidenceQueryAccepted(runnerId, orderId) ==> resp == Respond(None, Some(MissingFilter), 400)
      ensures EvidenceQueryAccepted(runnerId, orderId) ==>
        resp == Respond(Some(EvidenceList(EvidencesMatching(store.evidences, runnerId, orderId))), None, 200)
      ensures resp.body.ok ==> forall e :: e in resp.body.data.value.evidences ==>
        e in store.evidences
        && (if Given(orderId) then e.orderId == orderId.value else e.runnerId == runnerId.value)
    {
      if !Given(runnerId) && !Given(orderId) {
        return Respond(None, Some(MissingFilter), 400);
      }
      var list := EvidencesMatching(store.evidences, runnerId, orderId);
      return Respond(Some(EvidenceList(list)), None, 200);
    }

    /** POST a new order for a runner. */
    method CreateOrder(runnerId: string, body: Json, newId: string, now: int) returns (resp: Response<Payload>)
      requires Valid()
      modifies this, store
      ensures Valid()
      ensures var out := CreateOrderSpec(old(store.Tables()), runnerId, body, newId, now);
        store.Tables() == out.db && pending == old(pending) + out.scheduled && resp == out.response
    {
      var input := ValidateCreateOrder(body);
      if input.None? {
        return Respond(None, Some(InvalidInput), 400);
      }
      var runner := RunnerById(store.runners, runnerId);
      if runner.None? {
        return Respond(None, Some(RunnerNotFound), 404);
      }
      var orderType := input.value.orderType;
      var key := input.value.clientRequestId;
      if Given(key) {
        var existing := OrderByRequest(store.orders, runnerId, orderType, key.value);
        if existing.Some? {
          return Respond(Some(OrderData(existing.value)), None, 200);
        }
      }
      var created := Enqueue(QueuedOrder(newId, runnerId, input.value, now));
      if created.None? {
        return Respond(None, Some(DuplicateOrderId), 500);
      }
      resp := Respond(Some(OrderData(created.value)), None, 201);
    }

    /** Insert a new order and schedule its execution; an id already stored fails
        and changes nothing. */
    method Enqueue(o: Order) returns (created: Option<Order>)
      requires Valid()
      modifies this, store
      ensures Valid()
      ensures old(HasKey(store.orders, OrderKey, o.id)) ==>
        created.None? && store.Tables() == old(store.Tables()) && pending == old(pending)
      ensures !old(HasKey(store.orders, OrderKey, o.id)) ==>
        created == Some(o) && store.Tables() == old(store.Tables()).(orders := old(store.orders) + [o])
        && pending == old(pending) + [o.id]
    {
      ghost var os0 := store.orders;
      ghost var pending0 := pending;
      assert PendingOk(os0, pending0);
      created := store.CreateOrder(o);
      if created.None? {
        return;
      }
      assert store.orders == os0 + [o];
      forall i | 0 <= i < |pending| ensures HasKey(store.orders, OrderKey, pending[i]) {
        assert pending[i] == pending0[i];
        assert HasKey(os0, OrderKey, pending0[i]);
        var k :| 0 <= k < |os0| && OrderKey(os0[k]) == pending[i];
        assert store.orders[k] == os0[k];
      }
      assert HasKey(store.orders, OrderKey, o.id) by {
        assert store.orders[|os0|].id == o.id;
      }
      pending := pending + [o.id];
    }

    /** DELETE a runner: 404 for an unknown one; otherwise only its runner row goes. */
    method DeleteRunner(runnerId: string) returns (resp: Response<Payload>)
      requires Valid()
      modifies store
      ensures Valid()
      ensures !old(HasKey(store.runners, RunnerKey, runnerId)) ==>
        resp == Respond(None, Some(RunnerNotFound), 404) && store.Tables() == old(store.Tables())
      ensures old(HasKey(store.runners, RunnerKey, runnerId)) ==>
        resp == Respond(Some(Deleted(runnerId)), None, 200)
        && store.Tables() == old(store.Tables()).(runners := DeleteRunnerRows(old(store.runners), runnerId))
    {
      var runner := RunnerById(store.runners, runnerId);
      if runner.None? {
        return Respond(None, Some(RunnerNotFound), 404);
      }
      store.DeleteRunner(runnerId);
      return Respond(Some(Deleted(runnerId)), None, 200);
    }

    /** Run the oldest scheduled execution. */
    method RunNext(env: Env)
      requires Valid() && pending != []
      modifies this, store
      ensures Valid()
      ensures pending == old(pending)[1..]
      ensures store.Tables() == Execute(old(store.Tables()), old(pending)[0], env)
    {
      var id := pending[0];
      pending := pending[1..];
      ghost var db0 := store.Tables();
      ProcessOrder(store, id, env);
      ExecuteOrderKeys(db0, id, env);
      forall i | 0 <= i < |pending| ensures HasKey(store.orders, OrderKey, pending[i]) {
        assert pending[i] == old(pending)[i + 1];
      }
    }
  }

  /** After a delete, no runner row carries the id, and every other runner row remains. */
  lemma DeleteRemovesOnly(rs: seq<Runner>, id: string)
    ensures !HasKey(DeleteRunnerRows(rs, id), RunnerKey, id)
    ensures forall r :: r in rs && r.id != id ==> r in DeleteRunnerRows(rs, id)
  {
    var d := DeleteRunnerRows(rs, id);
    forall i | 0 <= i < |d| ensures RunnerKey(d[i]) != id {
      assert d[i] in d;
    }
  }
}
