/** What one run of the executor does to the database, proved about the
    step-by-step specification `Worker.Execute` that `Worker.ProcessOrder` meets. */
module Execution {
  import opened Base
  import opened Text
  import opened Json
  import opened Schema
  import opened Storage
  import opened Worker

  // ----- Keys -----

  lemma RecoverValid(db: Db, id: string, env: Env)
    requires DbValid(db)
    ensures DbValid(Recover(db, id, env))
  {
    PatchOrdersKeys(db.orders, id, FailPatch(env));
  }

  lemma FromFactsValid(db: Db, o: Order, env: Env, ref: Option<FactsRef>)
    requires DbValid(db)
    ensures DbValid(FromFacts(db, o, env, ref))
  {
    RecoverValid(db, o.id, env);
    PatchRunnersKeys(db.runners, o.runnerId, RunnerSetClause(RunnerUpdate(env.clock.seen, ref)));
  }

  lemma FromFinishedValid(db: Db, o: Order, env: Env)
    requires DbValid(db)
    ensures DbValid(FromFinished(db, o, env))
  {
    RecoverValid(db, o.id, env);
    FromFactsValid(db, o, env, None);
    var parsed := ExtractBlock(Stdout(o, env), FactsMarker);
    if parsed.Some? && Truthy(parsed.value) {
      var row := FactsRow(FactsOf(o, env, parsed.value));
      if !HasKey(db.facts, FactsKey, row.id) {
        AppendUnique(db.facts, FactsKey, row);
        FromFactsValid(db.(facts := db.facts + [row]), o, env, Some(FactsRef(row.id, o.id, env.evidenceId, row.checkedAt)));
      }
    }
  }

  lemma FromEvidenceValid(db: Db, o: Order, env: Env)
    requires DbValid(db)
    ensures DbValid(FromEvidence(db, o, env))
  {
    RecoverValid(db, o.id, env);
    PatchOrdersKeys(db.orders, o.id, FinishPatch(env));
    FromFinishedValid(db.(orders := PatchOrders(db.orders, o.id, FinishPatch(env))), o, env);
  }

  lemma FromRunningValid(db: Db, o: Order, env: Env)
    requires DbValid(db)
    ensures DbValid(FromRunning(db, o, env))
  {
    RecoverValid(db, o.id, env);
    if !HasKey(db.evidences, EvidenceKey, env.evidenceId) {
      AppendUnique(db.evidences, EvidenceKey, EvidenceOf(o, env));
      FromEvidenceValid(db.(evidences := db.evidences + [EvidenceOf(o, env)]), o, env);
    }
  }

  /** A run keeps every table's primary key, whichever step throws. */
  lemma ExecuteValid(db: Db, id: string, env: Env)
    requires DbValid(db)
    ensures DbValid(Execute(db, id, env))
  {
    RecoverValid(db, id, env);
    var found := OrderById(db.orders, id);
    if found.Some? {
      PatchOrdersKeys(db.orders, found.value.id, RunningPatch(env));
      FromRunningValid(db.(orders := PatchOrders(db.orders, found.value.id, RunningPatch(env))), found.value, env);
    }
  }

  // ----- The order row a run leaves -----

  /** The row the catch-all leaves: failed with the internal error code. */
  predicate EndsInternal(r: Order, env: Env) {
    r.status == Failed && r.exitCode == Some(InternalErrorCode)
    && r.summary == Some("Internal Worker Error") && r.finishedAt == Some(env.clock.failed)
  }

  /** The row a run that got past the terminal update leaves: the outcome of the checks. */
  predicate EndsChecked(r: Order, env: Env) {
    r.status == (if Success(env) then Succeeded else Failed) && r.exitCode == Some(ExitCode(env))
    && r.summary == Some(if Success(env) then "Checks passed" else "Checks failed")
    && r.startedAt == Some(env.clock.started) && r.finishedAt == Some(env.clock.finished)
    && r.evidenceId == Some(env.evidenceId)
  }

  lemma FromFactsRow(db: Db, o: Order, env: Env, ref: Option<FactsRef>)
    requires OrderById(db.orders, o.id).Some?
    ensures var x := OrderById(db.orders, o.id).value;
            var r := OrderById(FromFacts(db, o, env, ref).orders, o.id);
            r == Some(x) || r == Some(SetOrder(x, FailPatch(env)))
  {
    PatchedOrderFound(db.orders, o.id, FailPatch(env));
  }

  lemma FromFinishedRow(db: Db, o: Order, env: Env)
    requires OrderById(db.orders, o.id).Some?
    ensures var x := OrderById(db.orders, o.id).value;
            var r := OrderById(FromFinished(db, o, env).orders, o.id);
            r == Some(x) || r == Some(SetOrder(x, FailPatch(env)))
  {
    PatchedOrderFound(db.orders, o.id, FailPatch(env));
    FromFactsRow(db, o, env, None);
    var parsed := ExtractBlock(Stdout(o, env), FactsMarker);
    if parsed.Some? && Truthy(parsed.value) {
      var row := FactsRow(FactsOf(o, env, parsed.value));
      FromFactsRow(db.(facts := db.facts + [row]), o, env, Some(FactsRef(row.id, o.id, env.evidenceId, row.checkedAt)));
    }
  }

  lemma FromEvidenceRow(db: Db, o: Order, env: Env)
    requires OrderById(db.orders, o.id).Some?
    ensures var x := OrderById(db.orders, o.id).value;
            var r := OrderById(FromEvidence(db, o, env).orders, o.id);
            r == Some(SetOrder(x, FailPatch(env))) || r == Some(SetOrder(x, FinishPatch(env)))
            || r == Some(SetOrder(SetOrder(x, FinishPatch(env)), FailPatch(env)))
  {
    PatchedOrderFound(db.orders, o.id, FailPatch(env));
    PatchedOrderFound(db.orders, o.id, FinishPatch(env));
    FromFinishedRow(db.(orders := PatchOrders(db.orders, o.id, FinishPatch(env))), o, env);
  }

  lemma FromRunningRow(db: Db, o: Order, env: Env)
    requires OrderById(db.orders, o.id).Some?
    ensures var x := OrderById(db.orders, o.id).value;
            var r := OrderById(FromRunning(db, o, env).orders, o.id);
            r == Some(SetOrder(x, FailPatch(env))) || r == Some(SetOrder(x, FinishPatch(env)))
            || r == Some(SetOrder(SetOrder(x, FinishPatch(env)), FailPatch(env)))
  {
    PatchedOrderFound(db.orders, o.id, FailPatch(env));
    FromEvidenceRow(db.(evidences := db.evidences + [EvidenceOf(o, env)]), o, env);
  }

  /** Every run of an existing order leaves it terminal, with its identity intact, in
      one of two shapes: the catch-all's internal error or the outcome of the checks. */
  lemma ExecuteOrderRow(db: Db, id: string, env: Env)
    requires OrderById(db.orders, id).Some?
    ensures var o := OrderById(db.orders, id).value;
            var r := OrderById(Execute(db, id, env).orders, id);
            r.Some? && r.value.id == id && r.value.runnerId == o.runnerId && r.value.orderType == o.orderType
            && r.value.createdAt == o.createdAt && r.value.clientRequestId == o.clientRequestId
            && (EndsInternal(r.value, env) || EndsChecked(r.value, env))
  {
    var o := OrderById(db.orders, id).value;
    RowShapes(o, env);
    if env.fault == Some(AtMarkRunning) {
      PatchedOrderFound(db.orders, id, FailPatch(env));
    } else {
      var db1 := db.(orders := PatchOrders(db.orders, id, RunningPatch(env)));
      assert Execute(db, id, env) == FromRunning(db1, o, env);
      PatchedOrderFound(db.orders, id, RunningPatch(env));
      FromRunningRow(db1, o, env);
    }
  }

  lemma RowShapes(o: Order, env: Env)
    ensures EndsInternal(SetOrder(o, FailPatch(env)), env)
    ensures var x := SetOrder(o, RunningPatch(env));
            EndsInternal(SetOrder(x, FailPatch(env)), env) && EndsChecked(SetOrder(x, FinishPatch(env)), env)
            && EndsInternal(SetOrder(SetOrder(x, FinishPatch(env)), FailPatch(env)), env)
  {
  }

  /** Hence the status is terminal, and it is `succeeded` exactly when the exit code is 0. */
  lemma ExecuteTerminal(db: Db, id: string, env: Env)
    requires OrderById(db.orders, id).Some?
    ensures var r := OrderById(Execute(db, id, env).orders, id);
            r.Some? && r.value.status.Terminal() && r.value.finishedAt.Some?
            && (r.value.status == Succeeded <==> r.value.exitCode == Some(0))
  {
    ExecuteOrderRow(db, id, env);
  }

  // ----- A run that nothing interrupts -----

  /** The conditions under which no step of a run throws and the facts are read back:
      no injected fault, fresh evidence and facts ids, and tool outputs that do not
      themselves print the facts marker. */
  predicate Smooth(db: Db, env: Env) {
    env.fault.None? && !HasKey(db.evidences, EvidenceKey, env.evidenceId) && !HasKey(db.facts, FactsKey, env.factsId)
    && !Contains(env.docker.stdout, FactsMarker + ":") && !Contains(env.compose.stdout, FactsMarker + ":")
  }

  /** The reference a smooth run gives the runner. */
  function NewRef(o: Order, env: Env): FactsRef {
    FactsRef(env.factsId, o.id, env.evidenceId, env.clock.checked)
  }

  lemma SmoothSteps(db: Db, id: string, env: Env)
    requires OrderById(db.orders, id).Some? && Smooth(db, env)
    ensures var o := OrderById(db.orders, id).value;
            Execute(db, id, env) == Db(
              PatchRunners(db.runners, o.runnerId, RunnerSetClause(RunnerUpdate(env.clock.seen, Some(NewRef(o, env))))),
              PatchOrders(PatchOrders(db.orders, id, RunningPatch(env)), id, FinishPatch(env)),
              db.evidences + [EvidenceOf(o, env)],
              db.facts + [FactsRow(FactsOf(o, env, PlatformFacts(env)))])
  {
    var o := OrderById(db.orders, id).value;
    var db1 := db.(orders := PatchOrders(db.orders, id, RunningPatch(env)));
    assert Execute(db, id, env) == FromRunning(db1, o, env);
    var db2 := db1.(evidences := db1.evidences + [EvidenceOf(o, env)]);
    assert FromRunning(db1, o, env) == FromEvidence(db2, o, env);
    var db3 := db2.(orders := PatchOrders(db2.orders, o.id, FinishPatch(env)));
    assert FromEvidence(db2, o, env) == FromFinished(db3, o, env);
    FactsTrailerRead(o, env);
    var row := FactsRow(FactsOf(o, env, PlatformFacts(env)));
    assert row.id == env.factsId;
    var db4 := db3.(facts := db3.facts + [row]);
    assert FromFinished(db3, o, env) == FromFacts(db4, o, env, Some(NewRef(o, env)));
  }

  /** A run that nothing interrupts ends the order with the outcome of the checks
      and changes no other order. */
  lemma SmoothOrder(db: Db, id: string, env: Env)
    requires OrderById(db.orders, id).Some? && Smooth(db, env)
    ensures var after := Execute(db, id, env);
            var r := OrderById(after.orders, id);
            r.Some? && EndsChecked(r.value, env)
            && |after.orders| == |db.orders|
            && (forall i :: 0 <= i < |db.orders| && db.orders[i].id != id ==> after.orders[i] == db.orders[i])
  {
    var o := OrderById(db.orders, id).value;
    SmoothSteps(db, id, env);
    RowShapes(o, env);
    PatchedOrderFound(db.orders, id, RunningPatch(env));
    PatchedOrderFound(PatchOrders(db.orders, id, RunningPatch(env)), id, FinishPatch(env));
  }

  /** It adds exactly one evidence row, for this order and runner, with the run's exit
      code and a stdout from which the facts read back. */
  lemma SmoothEvidence(db: Db, id: string, env: Env)
    requires OrderById(db.orders, id).Some? && Smooth(db, env)
    ensures var o := OrderById(db.orders, id).value;
            var after := Execute(db, id, env);
            |after.evidences| == |db.evidences| + 1 && after.evidences[..|db.evidences|] == db.evidences
            && var e := after.evidences[|db.evidences|];
               e.id == env.evidenceId && e.orderId == id && e.runnerId == o.runnerId
               && e.exitCode == Some(ExitCode(env)) && e.stdout.Some?
               && ExtractBlock(e.stdout.value, FactsMarker) == Some(PlatformFacts(env))
  {
    var o := OrderById(db.orders, id).value;
    SmoothSteps(db, id, env);
    FactsTrailerRead(o, env);
  }

  /** It adds exactly one facts row, linked to the order, its runner and the new
      evidence, whose raw and checks texts parse back to the facts and the checks. */
  lemma SmoothFacts(db: Db, id: string, env: Env)
    requires OrderById(db.orders, id).Some? && Smooth(db, env)
    ensures var o := OrderById(db.orders, id).value;
            var after := Execute(db, id, env);
            |after.facts| == |db.facts| + 1 && after.facts[..|db.facts|] == db.facts
            && var f := after.facts[|db.facts|];
               f.id == env.factsId && f.runnerId == o.runnerId && f.orderId == Some(id)
               && f.evidenceId == Some(env.evidenceId) && f.component == Some(DefaultComponent)
               && f.raw.Some? && Parse(f.raw.value) == Some(PlatformFacts(env))
               && f.checks.Some? && Parse(f.checks.value) == Some(Checks(env))
  {
    SmoothSteps(db, id, env);
    TrailersWellFormed(OrderById(db.orders, id).value, env);
    ChecksWellFormed(env);
    ParseStringify(PlatformFacts(env));
    ParseStringify(Checks(env));
  }

  /** It marks the order's runner seen and points it at the new facts; every other
      runner stays as it was. */
  lemma SmoothRunner(db: Db, id: string, env: Env)
    requires OrderById(db.orders, id).Some? && Smooth(db, env)
    ensures var o := OrderById(db.orders, id).value;
            var after := Execute(db, id, env);
            |after.runners| == |db.runners|
            && (forall i :: 0 <= i < |db.runners| ==>
                  if db.runners[i].id == o.runnerId
                  then after.runners[i] == db.runners[i].(lastSeenAt := env.clock.seen, factsRef := Some(NewRef(o, env)))
                  else after.runners[i] == db.runners[i])
  {
    var o := OrderById(db.orders, id).value;
    SmoothSteps(db, id, env);
    forall i | 0 <= i < |db.runners| && db.runners[i].id == o.runnerId
      ensures SetRunner(db.runners[i], RunnerSetClause(RunnerUpdate(env.clock.seen, Some(NewRef(o, env)))))
              == db.runners[i].(lastSeenAt := env.clock.seen, factsRef := Some(NewRef(o, env)))
    {
      FactsRefRecorded(db.runners[i], env.clock.seen, Some(NewRef(o, env)));
    }
  }

  /** The same run with the runner update as the worker writes it (the reference under
      `facts_ref`): the order's runner is only marked seen and keeps its old facts
      reference, so it differs from the corrected run in `factsRef` alone. */
  lemma SmoothRunnerAsWritten(db: Db, id: string, env: Env)
    requires OrderById(db.orders, id).Some? && Smooth(db, env)
    ensures var o := OrderById(db.orders, id).value;
            var after := Execute(db, id, env);
            var asWritten := PatchRunners(db.runners, o.runnerId,
              RunnerSetClause(RunnerUpdateAsWritten(env.clock.seen, Some(NewRef(o, env)))));
            |asWritten| == |db.runners| && |after.runners| == |db.runners|
            && (forall i :: 0 <= i < |db.runners| ==>
                  if db.runners[i].id == o.runnerId
                  then asWritten[i] == db.runners[i].(lastSeenAt := env.clock.seen)
                       && asWritten[i] == after.runners[i].(factsRef := db.runners[i].factsRef)
                  else asWritten[i] == db.runners[i] && after.runners[i] == db.runners[i])
  {
    var o := OrderById(db.orders, id).value;
    var after := Execute(db, id, env).runners;
    assert Refreshed(db.runners, after, o.runnerId, env.clock.seen, NewRef(o, env)) by {
      SmoothRunner(db, id, env);
    }
    AsWrittenRunners(db.runners, after, o.runnerId, env.clock.seen, NewRef(o, env));
  }

  /** `after` is `rs` with the runner `runnerId` marked seen and pointed at `ref`. */
  predicate Refreshed(rs: seq<Runner>, after: seq<Runner>, runnerId: string, seen: int, ref: FactsRef) {
    |after| == |rs|
    && forall i :: 0 <= i < |rs| ==>
         if rs[i].id == runnerId then after[i] == rs[i].(lastSeenAt := seen, factsRef := Some(ref)) else after[i] == rs[i]
  }

  lemma AsWrittenRunners(rs: seq<Runner>, after: seq<Runner>, runnerId: string, seen: int, ref: FactsRef)
    requires Refreshed(rs, after, runnerId, seen, ref)
    ensures var asWritten := PatchRunners(rs, runnerId, RunnerSetClause(RunnerUpdateAsWritten(seen, Some(ref))));
            |asWritten| == |rs| && |after| == |rs|
            && (forall i :: 0 <= i < |rs| ==>
                  if rs[i].id == runnerId
                  then asWritten[i] == rs[i].(lastSeenAt := seen) && asWritten[i] == after[i].(factsRef := rs[i].factsRef)
                  else asWritten[i] == rs[i] && after[i] == rs[i])
  {
    forall i | 0 <= i < |rs| && rs[i].id == runnerId
      ensures SetRunner(rs[i], RunnerSetClause(RunnerUpdateAsWritten(seen, Some(ref)))) == rs[i].(lastSeenAt := seen)
    {
      FactsRefDropped(rs[i], seen, ref);
    }
  }

  // ----- A run that throws -----

  /** A step that throws once the terminal status is written: the catch-all
      overwrites that status, and the runner is left alone. */
  lemma LateFault(db: Db, o: Order, env: Env)
    requires env.fault == Some(AtUpdateRunner)
             || (env.fault == Some(AtSaveFacts)
                 && !Contains(env.docker.stdout, FactsMarker + ":") && !Contains(env.compose.stdout, FactsMarker + ":"))
    ensures FromFinished(db, o, env).orders == PatchOrders(db.orders, o.id, FailPatch(env))
    ensures FromFinished(db, o, env).runners == db.runners
    ensures FromFinished(db, o, env).evidences == db.evidences
  {
    if env.fault == Some(AtSaveFacts) {
      FactsTrailerRead(o, env);
    }
  }

  /** Every injected fault that the run reaches ends the order in the catch-all's
      internal error and leaves every runner as it was. */
  lemma ExecuteFault(db: Db, id: string, env: Env)
    requires OrderById(db.orders, id).Some?
    requires env.fault.Some?
    requires env.fault == Some(AtSaveFacts) ==>
               !Contains(env.docker.stdout, FactsMarker + ":") && !Contains(env.compose.stdout, FactsMarker + ":")
    ensures var r := OrderById(Execute(db, id, env).orders, id);
            r.Some? && EndsInternal(r.value, env)
    ensures Execute(db, id, env).runners == db.runners
  {
    var o := OrderById(db.orders, id).value;
    RowShapes(o, env);
    if env.fault == Some(AtMarkRunning) {
      PatchedOrderFound(db.orders, id, FailPatch(env));
    } else {
      var db1 := db.(orders := PatchOrders(db.orders, id, RunningPatch(env)));
      assert Execute(db, id, env) == FromRunning(db1, o, env);
      PatchedOrderFound(db.orders, id, RunningPatch(env));
      RunningFault(db1, o, env);
    }
  }

  lemma RunningFault(db: Db, o: Order, env: Env)
    requires OrderById(db.orders, o.id).Some?
    requires env.fault.Some? && env.fault != Some(AtMarkRunning)
    requires env.fault == Some(AtSaveFacts) ==>
               !Contains(env.docker.stdout, FactsMarker + ":") && !Contains(env.compose.stdout, FactsMarker + ":")
    ensures var x := OrderById(db.orders, o.id).value;
            var r := OrderById(FromRunning(db, o, env).orders, o.id);
            r == Some(SetOrder(x, FailPatch(env))) || r == Some(SetOrder(SetOrder(x, FinishPatch(env)), FailPatch(env)))
    ensures FromRunning(db, o, env).runners == db.runners
  {
    PatchedOrderFound(db.orders, o.id, FailPatch(env));
    if env.fault != Some(AtSaveEvidence) && !HasKey(db.evidences, EvidenceKey, env.evidenceId) {
      var db2 := db.(evidences := db.evidences + [EvidenceOf(o, env)]);
      assert FromRunning(db, o, env) == FromEvidence(db2, o, env);
      EvidenceFault(db2, o, env);
    }
  }

  lemma EvidenceFault(db: Db, o: Order, env: Env)
    requires OrderById(db.orders, o.id).Some?
    requires env.fault.Some? && env.fault != Some(AtMarkRunning) && env.fault != Some(AtSaveEvidence)
    requires env.fault == Some(AtSaveFacts) ==>
               !Contains(env.docker.stdout, FactsMarker + ":") && !Contains(env.compose.stdout, FactsMarker + ":")
    ensures var x := OrderById(db.orders, o.id).value;
            var r := OrderById(FromEvidence(db, o, env).orders, o.id);
            r == Some(SetOrder(x, FailPatch(env))) || r == Some(SetOrder(SetOrder(x, FinishPatch(env)), FailPatch(env)))
    ensures FromEvidence(db, o, env).runners == db.runners
  {
    PatchedOrderFound(db.orders, o.id, FailPatch(env));
    if env.fault != Some(AtMarkFinished) {
      var db3 := db.(orders := PatchOrders(db.orders, o.id, FinishPatch(env)));
      assert FromEvidence(db, o, env) == FromFinished(db3, o, env);
      assert env.fault.value.AtSaveFacts? || env.fault.value.AtUpdateRunner?;
      LateFault(db3, o, env);
      PatchedOrderFound(db.orders, o.id, FinishPatch(env));
      PatchedOrderFound(db3.orders, o.id, FailPatch(env));
    }
  }

  /** A fault after the terminal update still turns the order into an internal error,
      yet the order keeps pointing at the evidence just saved, which records the
      checks' own exit code: 0 when the filesystem probe passed, against 999 on the order. */
  lemma LateFaultKeepsEvidence(db: Db, id: string, env: Env)
    requires OrderById(db.orders, id).Some?
    requires env.fault == Some(AtUpdateRunner) || env.fault == Some(AtSaveFacts)
    requires !HasKey(db.evidences, EvidenceKey, env.evidenceId)
    requires !Contains(env.docker.stdout, FactsMarker + ":") && !Contains(env.compose.stdout, FactsMarker + ":")
    ensures var o := OrderById(db.orders, id).value;
            var after := Execute(db, id, env);
            var r := OrderById(after.orders, id);
            r.Some? && EndsInternal(r.value, env) && r.value.evidenceId == Some(env.evidenceId)
            && r.value.startedAt == Some(env.clock.started)
            && after.evidences == db.evidences + [EvidenceOf(o, env)]
            && EvidenceOf(o, env).exitCode == Some(if env.filesystemOk then 0 else 1)
  {
    var o := OrderById(db.orders, id).value;
    RowShapes(o, env);
    var db1 := db.(orders := PatchOrders(db.orders, id, RunningPatch(env)));
    assert Execute(db, id, env) == FromRunning(db1, o, env);
    var db2 := db1.(evidences := db1.evidences + [EvidenceOf(o, env)]);
    assert FromRunning(db1, o, env) == FromEvidence(db2, o, env);
    var db3 := db2.(orders := PatchOrders(db2.orders, o.id, FinishPatch(env)));
    assert FromEvidence(db2, o, env) == FromFinished(db3, o, env);
    LateFault(db3, o, env);
    PatchedOrderFound(db.orders, id, RunningPatch(env));
    PatchedOrderFound(db1.orders, id, FinishPatch(env));
    PatchedOrderFound(db3.orders, id, FailPatch(env));
  }

  // ----- What a run leaves alone -----

  /** `after` differs from `db` only in the order `id`, the runner `runnerId`, and at
      most `de` evidence rows and `df` facts rows appended for that order. */
  predicate Confined(db: Db, after: Db, id: string, runnerId: string, de: nat, df: nat) {
    |after.orders| == |db.orders|
    && (forall i :: 0 <= i < |db.orders| ==> after.orders[i].id == db.orders[i].id)
    && (forall i :: 0 <= i < |db.orders| && db.orders[i].id != id ==> after.orders[i] == db.orders[i])
    && |after.runners| == |db.runners|
    && (forall i :: 0 <= i < |db.runners| && db.runners[i].id != runnerId ==> after.runners[i] == db.runners[i])
    && |db.evidences| <= |after.evidences| <= |db.evidences| + de && after.evidences[..|db.evidences|] == db.evidences
    && (forall k :: |db.evidences| <= k < |after.evidences| ==> after.evidences[k].orderId == id)
    && |db.facts| <= |after.facts| <= |db.facts| + df && after.facts[..|db.facts|] == db.facts
    && (forall k :: |db.facts| <= k < |after.facts| ==> after.facts[k].orderId == Some(id))
  }

  lemma ConfinedTrans(a: Db, b: Db, c: Db, id: string, runnerId: string, de1: nat, df1: nat, de2: nat, df2: nat)
    requires Confined(a, b, id, runnerId, de1, df1) && Confined(b, c, id, runnerId, de2, df2)
    ensures Confined(a, c, id, runnerId, de1 + de2, df1 + df2)
  {
    assert c.evidences[..|a.evidences|] == c.evidences[..|b.evidences|][..|a.evidences|];
    assert c.facts[..|a.facts|] == c.facts[..|b.facts|][..|a.facts|];
  }

  lemma RecoverConfined(db: Db, id: string, runnerId: string, env: Env, de: nat, df: nat)
    ensures Confined(db, Recover(db, id, env), id, runnerId, de, df)
  {
    assert db.evidences[..|db.evidences|] == db.evidences;
    assert db.facts[..|db.facts|] == db.facts;
  }

  /** Each table left as it is, or patched only at `id` / `runnerId`. */
  lemma PatchConfined(db: Db, id: string, runnerId: string, p: OrderPatch, q: RunnerPatch)
    ensures Confined(db, db.(orders := PatchOrders(db.orders, id, p)), id, runnerId, 0, 0)
    ensures Confined(db, db.(runners := PatchRunners(db.runners, runnerId, q)), id, runnerId, 0, 0)
    ensures Confined(db, db, id, runnerId, 0, 0)
  {
    assert db.evidences[..|db.evidences|] == db.evidences;
    assert db.facts[..|db.facts|] == db.facts;
  }

  lemma FactsConfined(db: Db, o: Order, env: Env, ref: Option<FactsRef>)
    ensures Confined(db, FromFacts(db, o, env, ref), o.id, o.runnerId, 0, 0)
  {
    PatchConfined(db, o.id, o.runnerId, FailPatch(env), RunnerSetClause(RunnerUpdate(env.clock.seen, ref)));
  }

  lemma FinishedConfined(db: Db, o: Order, env: Env)
    ensures Confined(db, FromFinished(db, o, env), o.id, o.runnerId, 0, 1)
  {
    PatchConfined(db, o.id, o.runnerId, FailPatch(env), RunnerPatch(None, None));
    FactsConfined(db, o, env, None);
    var parsed := ExtractBlock(Stdout(o, env), FactsMarker);
    if parsed.Some? && Truthy(parsed.value) {
      var row := FactsRow(FactsOf(o, env, parsed.value));
      if env.fault != Some(AtSaveFacts) && !HasKey(db.facts, FactsKey, row.id) {
        var db4 := db.(facts := db.facts + [row]);
        var ref := Some(FactsRef(row.id, o.id, env.evidenceId, row.checkedAt));
        assert (db.facts + [row])[..|db.facts|] == db.facts;
        assert db.evidences[..|db.evidences|] == db.evidences;
        assert Confined(db, db4, o.id, o.runnerId, 0, 1);
        FactsConfined(db4, o, env, ref);
        ConfinedTrans(db, db4, FromFacts(db4, o, env, ref), o.id, o.runnerId, 0, 1, 0, 0);
      }
    }
  }

  lemma RunningConfined(db: Db, o: Order, env: Env)
    ensures Confined(db, FromRunning(db, o, env), o.id, o.runnerId, 1, 1)
  {
    RecoverConfined(db, o.id, o.runnerId, env, 1, 1);
    if env.fault != Some(AtSaveEvidence) && !HasKey(db.evidences, EvidenceKey, env.evidenceId) {
      var db2 := db.(evidences := db.evidences + [EvidenceOf(o, env)]);
      assert (db.evidences + [EvidenceOf(o, env)])[..|db.evidences|] == db.evidences;
      assert db.facts[..|db.facts|] == db.facts;
      assert Confined(db, db2, o.id, o.runnerId, 1, 0);
      RecoverConfined(db2, o.id, o.runnerId, env, 0, 1);
      if env.fault != Some(AtMarkFinished) {
        var db3 := db2.(orders := PatchOrders(db2.orders, o.id, FinishPatch(env)));
        PatchConfined(db2, o.id, o.runnerId, FinishPatch(env), RunnerPatch(None, None));
        FinishedConfined(db3, o, env);
        ConfinedTrans(db2, db3, FromFinished(db3, o, env), o.id, o.runnerId, 0, 0, 0, 1);
        assert FromEvidence(db2, o, env) == FromFinished(db3, o, env);
      }
      ConfinedTrans(db, db2, FromEvidence(db2, o, env), o.id, o.runnerId, 1, 0, 0, 1);
    }
  }

  /** A run touches only its own order and that order's runner, and appends at most
      one evidence row and one facts row, both for that order; a missing order
      changes nothing. */
  lemma ExecuteConfined(db: Db, id: string, env: Env)
    ensures OrderById(db.orders, id).None? ==> Execute(db, id, env) == db
    ensures OrderById(db.orders, id).Some? ==>
              Confined(db, Execute(db, id, env), id, OrderById(db.orders, id).value.runnerId, 1, 1)
  {
    var found := OrderById(db.orders, id);
    if found.Some? {
      var o := found.value;
      if env.fault == Some(AtMarkRunning) {
        RecoverConfined(db, id, o.runnerId, env, 1, 1);
      } else {
        var db1 := db.(orders := PatchOrders(db.orders, id, RunningPatch(env)));
        assert Execute(db, id, env) == FromRunning(db1, o, env);
        PatchConfined(db, id, o.runnerId, RunningPatch(env), RunnerPatch(None, None));
        RunningConfined(db1, o, env);
        ConfinedTrans(db, db1, FromRunning(db1, o, env), id, o.runnerId, 0, 0, 1, 1);
      }
    }
  }

  /** A run keeps the set of order ids: the dispatcher's queue never points at a
      vanished order. */
  lemma ExecuteOrderKeys(db: Db, id: string, env: Env)
    ensures forall k :: HasKey(Execute(db, id, env).orders, OrderKey, k) <==> HasKey(db.orders, OrderKey, k)
  {
    ExecuteConfined(db, id, env);
    var after := Execute(db, id, env);
    forall k ensures HasKey(after.orders, OrderKey, k) <==> HasKey(db.orders, OrderKey, k) {
      if HasKey(db.orders, OrderKey, k) {
        var i :| 0 <= i < |db.orders| && OrderKey(db.orders[i]) == k;
        assert OrderKey(after.orders[i]) == k;
      }
      if HasKey(after.orders, OrderKey, k) {
        var i :| 0 <= i < |after.orders| && OrderKey(after.orders[i]) == k;
        assert OrderKey(db.orders[i]) == k;
      }
    }
  }
}
