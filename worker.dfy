/** The executor: the trailer extractor that reads a JSON value back out of
    captured output, and the run of one order (checks, evidence, terminal status,
    facts, runner refresh) with its catch-all. Subprocesses, the filesystem probe,
    the clock and the id generator are inputs (`Env`). */
module Worker {
  import opened Base
  import opened Text
  import opened Json
  import opened Schema
  import opened Storage

  // ----- Trailer extraction -----

  /** The text after the first `marker:` of a line, trimmed, as `JSON.parse` reads it. */
  function MarkedText(line: string, marker: string): (t: string)
    requires Contains(line, marker + ":")
  {
    Trim(TextAfter(line, marker))
  }

  /** What follows the first `marker:` of a line. */
  function TextAfter(line: string, marker: string): (t: string)
    requires Contains(line, marker + ":")
  {
    var idx := IndexOf(line, marker + ":");
    line[idx + |marker| + 1..]
  }

  function LineValue(line: string, marker: string): (r: Option<Json>)
    requires Contains(line, marker + ":")
  {
    Parse(MarkedText(line, marker))
  }

  /** Tries the first line that contains `marker:` and no other; `None` is null. */
  function ExtractFromLines(ls: seq<string>, marker: string): (r: Option<Json>)
    ensures r.Some? ==> exists k :: 0 <= k < |ls| && Contains(ls[k], marker + ":")
  {
    if ls == [] then None
    else if Contains(ls[0], marker + ":") then LineValue(ls[0], marker)
    else
      var r := ExtractFromLines(ls[1..], marker);
      assert r.Some? ==> exists k :: 0 <= k < |ls| && Contains(ls[k], marker + ":") by {
        if r.Some? {
          var k :| 0 <= k < |ls[1..]| && Contains(ls[1..][k], marker + ":");
          assert ls[k + 1] == ls[1..][k];
        }
      }
      r
  }

  /** `parseJSONBlock`: the value after `marker:` on the first line holding it; null when
      no line holds the marker or when that line's value does not parse. */
  function ExtractBlock(text: string, marker: string): (r: Option<Json>)
    ensures r.Some? ==> Contains(text, marker + ":")
  {
    var ls := Lines(text);
    var r := ExtractFromLines(ls, marker);
    assert r.Some? ==> Contains(text, marker + ":") by {
      if r.Some? {
        var k :| 0 <= k < |ls| && Contains(ls[k], marker + ":");
        LineInText(text, k, marker + ":");
      }
    }
    r
  }

  /** The extractor as the worker runs it: a loop over the lines that returns on the first match. */
  method ParseJsonBlock(text: string, marker: string) returns (r: Option<Json>)
    ensures r == ExtractBlock(text, marker)
  {
    var lines := Lines(text);
    ghost var target := ExtractBlock(text, marker);
    assert target == ExtractFromLines(lines, marker);
    var i := 0;
    while i < |lines|
      invariant 0 <= i <= |lines|
      invariant ExtractFromLines(lines[i..], marker) == target
    {
      var rest := lines[i..];
      assert rest[0] == lines[i] && rest[1..] == lines[i + 1..];
      var idx := IndexOf(lines[i], marker + ":");
      if idx != -1 {
        assert Contains(rest[0], marker + ":");
        assert ExtractFromLines(rest, marker) == LineValue(lines[i], marker);
        var jsonStr := Trim(lines[i][idx + |marker| + 1..]);
        LineValueAt(lines[i], marker, idx, jsonStr);
        r := Parse(jsonStr);
        return;
      }
      assert !Contains(rest[0], marker + ":");
      assert ExtractFromLines(rest, marker) == ExtractFromLines(lines[i + 1..], marker);
      i := i + 1;
    }
    assert lines[i..] == [];
    r := None;
  }

  /** The value of a marked line is the parse of the trimmed text after the first `marker:`. */
  lemma LineValueAt(line: string, marker: string, idx: int, jsonStr: string)
    requires idx == IndexOf(line, marker + ":") && idx != -1
    requires jsonStr == Trim(line[idx + |marker| + 1..])
    ensures MarkedText(line, marker) == jsonStr
  {
    assert TextAfter(line, marker) == line[idx + |marker| + 1..];
  }

  /** Lines that lack the marker are skipped. */
  lemma {:induction false} SkipLines(pre: seq<string>, post: seq<string>, marker: string)
    requires forall k :: 0 <= k < |pre| ==> !Contains(pre[k], marker + ":")
    ensures ExtractFromLines(pre + post, marker) == ExtractFromLines(post, marker)
  {
    if pre != [] {
      assert (pre + post)[0] == pre[0];
      assert (pre + post)[1..] == pre[1..] + post;
      SkipLines(pre[1..], post, marker);
    } else {
      assert pre + post == post;
    }
  }

  /** Only the first line holding the marker is tried: its value decides, even when it
      does not parse and a later line would. */
  lemma FirstMatchDecides(text: string, marker: string, k: int)
    requires 0 <= k < |Lines(text)| && Contains(Lines(text)[k], marker + ":")
    requires forall j :: 0 <= j < k ==> !Contains(Lines(text)[j], marker + ":")
    ensures ExtractBlock(text, marker) == LineValue(Lines(text)[k], marker)
  {
    var ls := Lines(text);
    var pre, post := ls[..k], ls[k..];
    forall j | 0 <= j < |pre| ensures !Contains(pre[j], marker + ":") {
      assert pre[j] == ls[j];
    }
    SkipLines(pre, post, marker);
    assert pre + post == ls;
    assert post[0] == ls[k];
    assert ExtractFromLines(post, marker) == LineValue(ls[k], marker);
  }

  /** On the matching line the value is what follows the first `marker:`, trimmed;
      whatever precedes it on that line is ignored, as long as it holds no earlier
      `marker:`. */
  lemma AfterMarker(pre: string, marker: string, ws: string, j: Json)
    requires '\n' !in pre && '\n' !in marker
    requires forall i :: 0 <= i < |pre| ==> !OccursAt(pre + marker + ":" + ws + Stringify(j), marker + ":", i)
    requires forall i :: 0 <= i < |ws| ==> IsSpace(ws[i]) && ws[i] != '\n'
    requires WellFormed(j)
    ensures ExtractBlock(pre + marker + ":" + ws + Stringify(j), marker) == Some(j)
  {
    var rest := ws + Stringify(j);
    assert pre + marker + ":" + ws + Stringify(j) == pre + (marker + ":") + rest;
    WellFormedAvoids(j, '\n');
    StringifyAvoids(j, '\n');
    assert '\n' !in rest;
    MarkedLine(pre, marker, rest);
    PaddedValue(ws, j);
  }

  /** A one-line text `pre + marker: + rest`, where `pre` holds no earlier `marker:`,
      reads as the trimmed `rest`. */
  lemma MarkedLine(pre: string, marker: string, rest: string)
    requires '\n' !in pre && '\n' !in marker && '\n' !in rest
    requires forall i :: 0 <= i < |pre| ==> !OccursAt(pre + (marker + ":") + rest, marker + ":", i)
    ensures ExtractBlock(pre + (marker + ":") + rest, marker) == Parse(Trim(rest))
  {
    var pat := marker + ":";
    var line := pre + pat + rest;
    assert '\n' !in pat;
    MarkerFirst(pre, pat, rest);
    SingleLineBlock(line, marker);
    assert TextAfter(line, marker) == rest;
  }

  /** On a line `pre + pat + rest` where `pre` holds no earlier `pat`, the first
      occurrence of `pat` ends where `rest` begins. */
  lemma MarkerFirst(pre: string, pat: string, rest: string)
    requires '\n' !in pre && '\n' !in pat && '\n' !in rest
    requires forall i :: 0 <= i < |pre| ==> !OccursAt(pre + pat + rest, pat, i)
    ensures '\n' !in pre + pat + rest
    ensures IndexOf(pre + pat + rest, pat) == |pre|
    ensures (pre + pat + rest)[|pre| + |pat|..] == rest
  {
    var line := pre + pat + rest;
    assert line[|pre|..|pre| + |pat|] == pat;
    assert OccursAt(line, pat, |pre|);
  }

  /** A text of one line holding the marker is that line's value. */
  lemma SingleLineBlock(line: string, marker: string)
    requires '\n' !in line && Contains(line, marker + ":")
    ensures ExtractBlock(line, marker) == LineValue(line, marker)
  {
    LinesSingle(line);
  }

  /** White space before a serialised value does not stop it being read back. */
  lemma PaddedValue(ws: string, j: Json)
    requires forall i :: 0 <= i < |ws| ==> IsSpace(ws[i])
    requires WellFormed(j)
    ensures Parse(Trim(ws + Stringify(j))) == Some(j)
  {
    StringifyEnds(j);
    TrimPadded(ws, Stringify(j));
    ParseStringify(j);
  }

  /** When neither the text before the marker nor the marker holds a colon, the
      first occurrence of `marker:` is the one right after that text. */
  lemma FirstColon(pre: string, marker: string, rest: string)
    requires ':' !in pre && ':' !in marker
    ensures IndexOf(pre + (marker + ":") + rest, marker + ":") == |pre|
  {
    var pat := marker + ":";
    var line := pre + pat + rest;
    assert line[|pre|..|pre| + |pat|] == pat;
    assert OccursAt(line, pat, |pre|);
    forall i | 0 <= i < |pre| ensures !OccursAt(line, pat, i) {
      ColonAt(line, pat, i);
    }
  }

  /** An occurrence of `marker:` puts a colon `|marker|` characters after its start. */
  lemma ColonAt(line: string, pat: string, i: int)
    requires |pat| >= 1 && pat[|pat| - 1] == ':'
    ensures OccursAt(line, pat, i) ==> line[i + |pat| - 1] == ':'
  {
    if OccursAt(line, pat, i) {
      assert line[i..i + |pat|][|pat| - 1] == line[i + |pat| - 1];
    }
  }

  // ----- Executor inputs -----

  /** What a subprocess reported. */
  datatype Probe = Probe(stdout: string, stderr: string, exitCode: int)

  /** The successive readings of the clock during one run. */
  datatype Clock = Clock(started: int, stamped: int, evidenceAt: int, finished: int, checked: int, seen: int, failed: int)

  /** The store writes of a run, in order; any of them may throw. */
  datatype Step = AtMarkRunning | AtSaveEvidence | AtMarkFinished | AtSaveFacts | AtUpdateRunner

  /** Everything a run depends on besides the store: the filesystem probe, the two
      tool probes, the ids the generator hands out, the clock, and the write
      (if any) at which the store throws. */
  datatype Env = Env(
    filesystemOk: bool,
    docker: Probe,
    compose: Probe,
    evidenceId: string,
    factsId: string,
    clock: Clock,
    fault: Option<Step>)

  // ----- What a run computes -----

  const FactsMarker := "PLATFORM_FACTS_JSON"
  const ResultMarker := "ORDER_RESULT_JSON"
  const InternalErrorCode := 999

  function DockerOk(env: Env): bool { env.docker.exitCode == 0 }
  function ComposeOk(env: Env): bool { env.compose.exitCode == 0 }

  /** A run succeeds exactly when the filesystem probe does. */
  function Success(env: Env): bool { env.filesystemOk }

  /** The exit code of a run: 0 on success, 1 otherwise. */
  function ExitCode(env: Env): (r: int)
    ensures r == 0 <==> Success(env)
    ensures r == 0 || r == 1
  {
    if Success(env) then 0 else 1
  }

  function Checks(env: Env): Json {
    JObj([Member("filesystem_ok", JBool(env.filesystemOk)),
          Member("docker_ok", JBool(DockerOk(env))),
          Member("compose_ok", JBool(ComposeOk(env)))])
  }

  function PlatformFacts(env: Env): Json {
    JObj([Member("component", JStr("runner")), Member("checks", Checks(env))])
  }

  function OrderResult(o: Order, env: Env): Json {
    JObj([Member("success", JBool(Success(env))),
          Member("type", JStr(TypeName(o.orderType))),
          Member("checks", Checks(env)),
          Member("timestamp", JNum(env.clock.stamped))])
  }

  function OkFail(b: bool): string { if b then "OK" else "FAIL" }

  function ResultLine(o: Order, env: Env): string {
    ResultMarker + ": " + Stringify(OrderResult(o, env))
  }

  function FactsLine(env: Env): string {
    FactsMarker + ": " + Stringify(PlatformFacts(env))
  }

  function DockerHead(env: Env): string { "Checking docker... " + OkFail(DockerOk(env)) + " (" }
  function ComposeHead(env: Env): string { "Checking compose... " + OkFail(ComposeOk(env)) + " (" }

  /** The stdout a run records, chunk by chunk: a line per check (each tool's
      trimmed output in parentheses), a blank line, then the two trailer lines. */
  function Stdout(o: Order, env: Env): string {
    ""
    + ("Checking filesystem... " + OkFail(env.filesystemOk) + "\n")
    + (DockerHead(env) + Trim(env.docker.stdout) + ")\n")
    + (ComposeHead(env) + Trim(env.compose.stdout) + ")\n")
    + ("\n" + ResultMarker + ": " + Stringify(OrderResult(o, env)) + "\n")
    + (FactsMarker + ": " + Stringify(PlatformFacts(env)) + "\n")
  }

  /** The three check lines, up to the closing parenthesis of the last. */
  function CheckLines(env: Env): string {
    ("Checking filesystem... " + OkFail(env.filesystemOk) + "\n" + DockerHead(env))
    + Trim(env.docker.stdout)
    + (")\n" + ComposeHead(env))
    + Trim(env.compose.stdout)
    + ")"
  }

  function Stderr(env: Env): string {
    env.docker.stderr + env.compose.stderr
  }

  function RunningPatch(env: Env): OrderPatch {
    OrderPatch(Some(Running), Some(env.clock.started), None, None, None, None)
  }

  function FinishPatch(env: Env): OrderPatch {
    OrderPatch(Some(if Success(env) then Succeeded else Failed), None, Some(env.clock.finished),
      Some(ExitCode(env)), Some(if Success(env) then "Checks passed" else "Checks failed"), Some(env.evidenceId))
  }

  /** What the catch-all writes. */
  function FailPatch(env: Env): OrderPatch {
    OrderPatch(Some(Failed), None, Some(env.clock.failed), Some(InternalErrorCode), Some("Internal Worker Error"), None)
  }

  function EvidenceOf(o: Order, env: Env): Evidence {
    Evidence(env.evidenceId, o.runnerId, o.id, env.clock.evidenceAt, Some(Stdout(o, env)), Some(Stderr(env)), Some(ExitCode(env)))
  }

  function FactsOf(o: Order, env: Env, parsed: Json): FactsInsert {
    FactsInsert(env.factsId, Some("runner"), o.runnerId, Some(o.id), Some(env.evidenceId),
      env.clock.checked, Some(Stringify(Checks(env))), Some(Stringify(parsed)))
  }

  /** The runner update object as the worker builds it: the reference goes under the
      key `facts_ref`, which names no column property of the runners table. */
  function RunnerUpdateAsWritten(seen: int, ref: Option<FactsRef>): map<string, RunnerCell> {
    map["lastSeenAt" := Stamp(seen)] + (if ref.Some? then map["facts_ref" := Linked(ref.value)] else map[])
  }

  /** The runner update object with the reference under the column property `factsRef`. */
  function RunnerUpdate(seen: int, ref: Option<FactsRef>): map<string, RunnerCell> {
    map["lastSeenAt" := Stamp(seen)] + (if ref.Some? then map["factsRef" := Linked(ref.value)] else map[])
  }

  /** As written, the facts reference never reaches the runner row: only `lastSeenAt` changes. */
  lemma FactsRefDropped(r: Runner, seen: int, ref: FactsRef)
    ensures SetRunner(r, RunnerSetClause(RunnerUpdateAsWritten(seen, Some(ref)))) == r.(lastSeenAt := seen)
  {
    var m := RunnerUpdateAsWritten(seen, Some(ref));
    assert "factsRef" !in m;
    assert "lastSeenAt" in m && m["lastSeenAt"] == Stamp(seen);
  }

  /** With the key `factsRef` the runner row points at the new facts and is marked seen. */
  lemma FactsRefRecorded(r: Runner, seen: int, ref: Option<FactsRef>)
    ensures SetRunner(r, RunnerSetClause(RunnerUpdate(seen, ref))).lastSeenAt == seen
    ensures SetRunner(r, RunnerSetClause(RunnerUpdate(seen, ref))).factsRef == if ref.Some? then ref else r.factsRef
  {
    var m := RunnerUpdate(seen, ref);
    assert "lastSeenAt" in m && m["lastSeenAt"] == Stamp(seen);
    if ref.Some? {
      assert "factsRef" in m && m["factsRef"] == Linked(ref.value);
    } else {
      assert "factsRef" !in m;
    }
  }

  // ----- One run, step by step -----

  /** The catch-all: the order is marked failed with the internal error code. */
  function Recover(db: Db, orderId: string, env: Env): Db {
    db.(orders := PatchOrders(db.orders, orderId, FailPatch(env)))
  }

  /** `processOrder`: the database after one run of the order with that id. */
  function Execute(db: Db, orderId: string, env: Env): Db {
    match OrderById(db.orders, orderId)
    case None => db
    case Some(o) =>
      if env.fault == Some(AtMarkRunning) then Recover(db, orderId, env)
      else FromRunning(db.(orders := PatchOrders(db.orders, o.id, RunningPatch(env))), o, env)
  }

  /** From the order marked running: the evidence is saved. */
  function FromRunning(db: Db, o: Order, env: Env): Db {
    if env.fault == Some(AtSaveEvidence) || HasKey(db.evidences, EvidenceKey, env.evidenceId) then Recover(db, o.id, env)
    else FromEvidence(db.(evidences := db.evidences + [EvidenceOf(o, env)]), o, env)
  }

  /** From the evidence saved: the order gets its terminal status. */
  function FromEvidence(db: Db, o: Order, env: Env): Db {
    if env.fault == Some(AtMarkFinished) then Recover(db, o.id, env)
    else FromFinished(db.(orders := PatchOrders(db.orders, o.id, FinishPatch(env))), o, env)
  }

  /** From the terminal status: facts are saved when the facts trailer reads back as a truthy value. */
  function FromFinished(db: Db, o: Order, env: Env): Db {
    var parsed := ExtractBlock(Stdout(o, env), FactsMarker);
    if parsed.Some? && Truthy(parsed.value) then
      var row := FactsRow(FactsOf(o, env, parsed.value));
      if env.fault == Some(AtSaveFacts) || HasKey(db.facts, FactsKey, row.id) then Recover(db, o.id, env)
      else FromFacts(db.(facts := db.facts + [row]), o, env, Some(FactsRef(row.id, o.id, env.evidenceId, row.checkedAt)))
    else FromFacts(db, o, env, None)
  }

  /** Last, the runner is marked seen and pointed at the new facts. */
  function FromFacts(db: Db, o: Order, env: Env, ref: Option<FactsRef>): Db {
    if env.fault == Some(AtUpdateRunner) then Recover(db, o.id, env)
    else db.(runners := PatchRunners(db.runners, o.runnerId, RunnerSetClause(RunnerUpdate(env.clock.seen, ref))))
  }

  /** `processOrder`: loads the order, marks it running, runs the checks, saves the
      evidence, sets the terminal status, saves the facts read back from the
      stdout and refreshes the runner; any step that throws lands in the catch-all. */
  method ProcessOrder(st: Storage, orderId: string, env: Env)
    requires st.Valid()
    modifies st
    ensures st.Valid()
    ensures st.Tables() == Execute(old(st.Tables()), orderId, env)
  {
    var found := OrderById(st.orders, orderId);
    if found.None? {
      return;
    }
    var order := found.value;
    var threw := false;
    if env.fault == Some(AtMarkRunning) {
      threw := true;
    } else {
      st.UpdateOrder(order.id, OrderPatch(Some(Running), Some(env.clock.started), None, None, None, None));
      threw := RunChecks(st, order, env);
    }
    if threw {
      st.UpdateOrder(orderId, OrderPatch(Some(Failed), None, Some(env.clock.failed), Some(InternalErrorCode),
        Some("Internal Worker Error"), None));
    }
  }

  /** The body of the run once the order is marked running: the checks, the
      evidence and the terminal status. On a throw the state is the one the
      catch-all starts from. */
  method RunChecks(st: Storage, order: Order, env: Env) returns (threw: bool)
    requires st.Valid()
    modifies st
    ensures st.Valid()
    ensures !threw ==> st.Tables() == FromRunning(old(st.Tables()), order, env)
    ensures threw ==> Recover(st.Tables(), order.id, env) == FromRunning(old(st.Tables()), order, env)
  {
    var filesystemOk := env.filesystemOk;
    var dockerOk := env.docker.exitCode == 0;
    var composeOk := env.compose.exitCode == 0;
    var checks := JObj([Member("filesystem_ok", JBool(filesystemOk)),
                        Member("docker_ok", JBool(dockerOk)),
                        Member("compose_ok", JBool(composeOk))]);
    var success := filesystemOk;
    var exitCode := if success then 0 else 1;
    var platformFacts := JObj([Member("component", JStr("runner")), Member("checks", checks)]);
    var orderResult := JObj([Member("success", JBool(success)),
                             Member("type", JStr(TypeName(order.orderType))),
                             Member("checks", checks),
                             Member("timestamp", JNum(env.clock.stamped))]);
    var stdout := "";
    stdout := stdout + ("Checking filesystem... " + OkFail(filesystemOk) + "\n");
    stdout := stdout + ("Checking docker... " + OkFail(dockerOk) + " (" + Trim(env.docker.stdout) + ")\n");
    stdout := stdout + ("Checking compose... " + OkFail(composeOk) + " (" + Trim(env.compose.stdout) + ")\n");
    stdout := stdout + ("\n" + ResultMarker + ": " + Stringify(orderResult) + "\n");
    stdout := stdout + (FactsMarker + ": " + Stringify(platformFacts) + "\n");
    var stderr := env.docker.stderr + env.compose.stderr;
    assert stdout == Stdout(order, env);

    var evidence: Option<Evidence> := None;
    if env.fault != Some(AtSaveEvidence) {
      evidence := st.CreateEvidence(Evidence(env.evidenceId, order.runnerId, order.id, env.clock.evidenceAt,
        Some(stdout), Some(stderr), Some(exitCode)));
    }
    if evidence.None? {
      return true;
    }
    if env.fault == Some(AtMarkFinished) {
      return true;
    }
    st.UpdateOrder(order.id, OrderPatch(Some(if success then Succeeded else Failed), None, Some(env.clock.finished),
      Some(exitCode), Some(if success then "Checks passed" else "Checks failed"), Some(evidence.value.id)));
    threw := RecordFacts(st, order, env, stdout, checks, evidence.value.id);
  }

  /** The tail of the run: the facts read back from the stdout are saved and the
      runner is refreshed. */
  method RecordFacts(st: Storage, order: Order, env: Env, stdout: string, checks: Json, evidenceId: string)
    returns (threw: bool)
    requires st.Valid()
    requires stdout == Stdout(order, env) && checks == Checks(env) && evidenceId == env.evidenceId
    modifies st
    ensures st.Valid()
    ensures !threw ==> st.Tables() == FromFinished(old(st.Tables()), order, env)
    ensures threw ==> Recover(st.Tables(), order.id, env) == FromFinished(old(st.Tables()), order, env)
  {
    var parsedFacts := ParseJsonBlock(stdout, FactsMarker);
    var factsRef: Option<FactsRef> := None;
    if parsedFacts.Some? && Truthy(parsedFacts.value) {
      var record: Option<Facts> := None;
      if env.fault != Some(AtSaveFacts) {
        record := st.CreateFacts(FactsInsert(env.factsId, Some("runner"), order.runnerId, Some(order.id),
          Some(evidenceId), env.clock.checked, Some(Stringify(checks)), Some(Stringify(parsedFacts.value))));
      }
      if record.None? {
        return true;
      }
      factsRef := Some(FactsRef(record.value.id, order.id, evidenceId, record.value.checkedAt));
    }
    if env.fault == Some(AtUpdateRunner) {
      return true;
    }
    st.UpdateRunner(order.runnerId, RunnerUpdate(env.clock.seen, factsRef));
    return false;
  }

  // ----- The stdout trailers read back -----

  /** The stdout is the check lines followed by the trailer block. */
  lemma StdoutShape(o: Order, env: Env)
    ensures Stdout(o, env) == CheckLines(env) + "\n" + ("" + "\n" + (ResultLine(o, env) + "\n" + (FactsLine(env) + "\n" + "")))
  {
    var f := "Checking filesystem... " + OkFail(env.filesystemOk) + "\n";
    var d := DockerHead(env);
    var c := ComposeHead(env);
    var t1 := Trim(env.docker.stdout);
    var t2 := Trim(env.compose.stdout);
    var rv := Stringify(OrderResult(o, env));
    var fl := FactsLine(env);
    assert Stdout(o, env) == "" + f + (d + t1 + ")\n") + (c + t2 + ")\n") + ("\n" + ResultMarker + ": " + rv + "\n") + (fl + "\n");
    assert CheckLines(env) == (f + d) + t1 + (")\n" + c) + t2 + ")";
    Joined(f, d, t1, c, t2, ResultMarker, rv, fl);
  }

  lemma Joined(f: string, d: string, t1: string, c: string, t2: string, rm: string, rv: string, fl: string)
    ensures "" + f + (d + t1 + ")\n") + (c + t2 + ")\n") + ("\n" + rm + ": " + rv + "\n") + (fl + "\n")
      == (f + d) + t1 + (")\n" + c) + t2 + ")" + "\n" + ("" + "\n" + (rm + ": " + rv + "\n" + (fl + "\n" + "")))
  {
    var nl := "\n";
    var cp := ")";
    var cs := ": ";
    assert ")\n" == cp + nl;
    assert "" + f == f;
    assert fl + nl + "" == fl + nl;
    assert "" + nl == nl;
    assert nl + rm + cs + rv + nl == nl + (rm + cs + rv) + nl;
  }

  /** The stdout splits into the lines of the check block, a blank line, the two
      trailer lines and the empty piece after the final line feed. */
  lemma StdoutLines(o: Order, env: Env)
    ensures Lines(Stdout(o, env)) == Lines(CheckLines(env)) + ["", ResultLine(o, env), FactsLine(env), ""]
  {
    StdoutShape(o, env);
    TrailerValuesSingleLine(o, env);
    MarkersSingleLine();
    TrailerLines(CheckLines(env), ResultMarker + ": ", Stringify(OrderResult(o, env)), FactsMarker + ": ", Stringify(PlatformFacts(env)));
  }

  /** Neither trailer value spans more than one line. */
  lemma TrailerValuesSingleLine(o: Order, env: Env)
    ensures '\n' !in Stringify(OrderResult(o, env)) && '\n' !in Stringify(PlatformFacts(env))
  {
    TrailersWellFormed(o, env);
    WellFormedAvoids(OrderResult(o, env), '\n');
    WellFormedAvoids(PlatformFacts(env), '\n');
    StringifyAvoids(OrderResult(o, env), '\n');
    StringifyAvoids(PlatformFacts(env), '\n');
  }

  lemma MarkersSingleLine()
    ensures '\n' !in ResultMarker + ": " && '\n' !in FactsMarker + ": "
  {
  }

  lemma TrailerLines(cl: string, rm: string, rv: string, fm: string, fv: string)
    requires '\n' !in rm && '\n' !in rv && '\n' !in fm && '\n' !in fv
    ensures Lines(cl + "\n" + ("" + "\n" + (rm + rv + "\n" + (fm + fv + "\n" + ""))))
         == Lines(cl) + ["", rm + rv, fm + fv, ""]
  {
    var rl := rm + rv;
    var fl := fm + fv;
    LinesSingle(rl);
    LinesSingle(fl);
    LinesAppend(fl, "");
    LinesAppend(rl, fl + "\n" + "");
    LinesAppend("", rl + "\n" + (fl + "\n" + ""));
    LinesAppend(cl, "" + "\n" + (rl + "\n" + (fl + "\n" + "")));
  }

  /** Both trailer values use only plain strings. */
  lemma TrailersWellFormed(o: Order, env: Env)
    ensures WellFormed(OrderResult(o, env)) && WellFormed(PlatformFacts(env))
  {
    ChecksWellFormed(env);
    var pf := PlatformFacts(env).members;
    ConsWellFormed(pf[1], []);
    ConsWellFormed(pf[0], [pf[1]]);
    assert [pf[0]] + [pf[1]] == pf;
    ResultWellFormed(o, env);
  }

  lemma ChecksWellFormed(env: Env)
    ensures WellFormed(Checks(env))
  {
    assert Plain("filesystem_ok") && Plain("docker_ok") && Plain("compose_ok");
    ThreeWellFormed(Member("filesystem_ok", JBool(env.filesystemOk)), Member("docker_ok", JBool(DockerOk(env))),
      Member("compose_ok", JBool(ComposeOk(env))));
  }

  lemma ThreeWellFormed(a: Member, b: Member, c: Member)
    requires Plain(a.key) && Plain(b.key) && Plain(c.key)
    requires WellFormed(a.value) && WellFormed(b.value) && WellFormed(c.value)
    ensures MembersWellFormed([a, b, c])
  {
    ConsWellFormed(c, []);
    ConsWellFormed(b, [c]);
    ConsWellFormed(a, [b, c]);
    assert [a] + [b, c] == [a, b, c];
  }

  lemma ResultWellFormed(o: Order, env: Env)
    ensures WellFormed(OrderResult(o, env))
  {
    ChecksWellFormed(env);
    TypeNamePlain(o.orderType);
    ResultKeysPlain();
    FourWellFormed(Member("success", JBool(Success(env))), Member("type", JStr(TypeName(o.orderType))),
      Member("checks", Checks(env)), Member("timestamp", JNum(env.clock.stamped)));
  }

  lemma TypeNamePlain(t: OrderType)
    ensures Plain(TypeName(t))
  {
  }

  lemma ResultKeysPlain()
    ensures Plain("success") && Plain("type") && Plain("checks") && Plain("timestamp")
  {
  }

  lemma FourWellFormed(a: Member, b: Member, c: Member, d: Member)
    requires Plain(a.key) && Plain(b.key) && Plain(c.key) && Plain(d.key)
    requires WellFormed(a.value) && WellFormed(b.value) && WellFormed(c.value) && WellFormed(d.value)
    ensures MembersWellFormed([a, b, c, d])
  {
    ConsWellFormed(d, []);
    ConsWellFormed(c, [d]);
    ConsWellFormed(b, [c, d]);
    ConsWellFormed(a, [b, c, d]);
    assert [a] + [b, c, d] == [a, b, c, d];
  }

  /** No key or string of the checks object holds a capital letter. */
  lemma ChecksAvoid(env: Env, c: char)
    requires 'A' <= c <= 'Z'
    ensures Avoids(Checks(env), c)
  {
    ThreeAvoid(Member("filesystem_ok", JBool(env.filesystemOk)), Member("docker_ok", JBool(DockerOk(env))),
      Member("compose_ok", JBool(ComposeOk(env))), c);
  }

  lemma ThreeAvoid(a: Member, b: Member, d: Member, c: char)
    requires c !in a.key && c !in b.key && c !in d.key
    requires Avoids(a.value, c) && Avoids(b.value, c) && Avoids(d.value, c)
    ensures MembersAvoid([a, b, d], c)
  {
    ConsAvoids(d, [], c);
    ConsAvoids(b, [d], c);
    ConsAvoids(a, [b, d], c);
    assert [a] + [b, d] == [a, b, d];
  }

  /** No key or string of the order result holds a capital letter. */
  lemma ResultAvoids(o: Order, env: Env, c: char)
    requires 'A' <= c <= 'Z'
    ensures Avoids(OrderResult(o, env), c)
  {
    ChecksAvoid(env, c);
    assert c !in TypeName(o.orderType);
    FourAvoid(Member("success", JBool(Success(env))), Member("type", JStr(TypeName(o.orderType))),
      Member("checks", Checks(env)), Member("timestamp", JNum(env.clock.stamped)), c);
  }

  lemma FourAvoid(a: Member, b: Member, d: Member, e: Member, c: char)
    requires c !in a.key && c !in b.key && c !in d.key && c !in e.key
    requires Avoids(a.value, c) && Avoids(b.value, c) && Avoids(d.value, c) && Avoids(e.value, c)
    ensures MembersAvoid([a, b, d, e], c)
  {
    ConsAvoids(e, [], c);
    ConsAvoids(d, [e], c);
    ConsAvoids(b, [d, e], c);
    ConsAvoids(a, [b, d, e], c);
    assert [a] + [b, d, e] == [a, b, d, e];
  }

  /** The check lines lack a marker pattern when the tools' outputs do: the
      literal text around them has no capital P or R, and the parentheses at
      each seam are no part of a pattern. */
  lemma CheckLinesLack(env: Env, pat: string, c: char)
    requires (c == 'P' || c == 'R') && c in pat && '(' !in pat && ')' !in pat
    requires !Contains(env.docker.stdout, pat) && !Contains(env.compose.stdout, pat)
    ensures !Contains(CheckLines(env), pat)
  {
    var a := "Checking filesystem... " + OkFail(env.filesystemOk) + "\n" + DockerHead(env);
    var b := ")\n" + ComposeHead(env);
    HeadLacks(env, c);
    MissingChar(a, pat, c);
    MissingChar(b, pat, c);
    MissingChar(")", pat, c);
    TrimContains(env.docker.stdout, pat);
    TrimContains(env.compose.stdout, pat);
    Sandwich(a, Trim(env.docker.stdout), b, Trim(env.compose.stdout), pat);
  }

  lemma HeadLacks(env: Env, c: char)
    requires c == 'P' || c == 'R'
    ensures var a := "Checking filesystem... " + OkFail(env.filesystemOk) + "\n" + DockerHead(env);
            c !in a && |a| > 0 && a[|a| - 1] == '('
    ensures var b := ")\n" + ComposeHead(env);
            c !in b && |b| > 0 && b[0] == ')' && b[|b| - 1] == '('
  {
    LiteralLacks("Checking filesystem... ", c);
    LiteralLacks("Checking docker... ", c);
    LiteralLacks("Checking compose... ", c);
    LiteralLacks(OkFail(env.filesystemOk), c);
    LiteralLacks(OkFail(DockerOk(env)), c);
    LiteralLacks(OkFail(ComposeOk(env)), c);
    var a1 := "Checking filesystem... " + OkFail(env.filesystemOk) + "\n";
    var a2 := DockerHead(env);
    assert c !in a1 && c !in a2;
    assert (a1 + a2)[|a1 + a2| - 1] == a2[|a2| - 1];
  }

  /** The literal pieces of the check lines are free of capital P and R. */
  lemma LiteralLacks(s: string, c: char)
    requires s in {"Checking filesystem... ", "Checking docker... ", "Checking compose... ", "OK", "FAIL"}
    requires c == 'P' || c == 'R'
    ensures c !in s
  {
  }

  /** Two outputs between three literal pieces, joined at parentheses. */
  lemma Sandwich(a: string, t1: string, b: string, t2: string, pat: string)
    requires !Contains(a, pat) && !Contains(t1, pat) && !Contains(b, pat) && !Contains(t2, pat) && !Contains(")", pat)
    requires '(' !in pat && ')' !in pat
    requires |a| > 0 && a[|a| - 1] == '(' && |b| > 0 && b[0] == ')' && b[|b| - 1] == '('
    ensures !Contains(a + t1 + b + t2 + ")", pat)
  {
    JoinLeft(a, t1, pat);
    JoinRight(a + t1, b, pat);
    assert (a + t1 + b)[|a + t1 + b| - 1] == '(';
    JoinLeft(a + t1 + b, t2, pat);
    JoinRight(a + t1 + b + t2, ")", pat);
  }

  /** A trailer line reads back as the value it was written from. */
  lemma TrailerValue(marker: string, j: Json)
    requires '\n' !in marker && ':' !in marker && WellFormed(j)
    ensures Contains(marker + ": " + Stringify(j), marker + ":")
    ensures LineValue(marker + ": " + Stringify(j), marker) == Some(j)
  {
    var line := marker + ": " + Stringify(j);
    assert line == "" + marker + ":" + " " + Stringify(j);
    assert line[..|marker + ":"|] == marker + ":";
    assert OccursAt(line, marker + ":", 0);
    WellFormedAvoids(j, '\n');
    StringifyAvoids(j, '\n');
    AfterMarker("", marker, " ", j);
    SingleLineBlock(line, marker);
  }

  /** Unless a tool's output itself holds `PLATFORM_FACTS_JSON:`, the facts the
      run printed are read back from its stdout unchanged. */
  lemma FactsTrailerRead(o: Order, env: Env)
    requires !Contains(env.docker.stdout, FactsMarker + ":") && !Contains(env.compose.stdout, FactsMarker + ":")
    ensures ExtractBlock(Stdout(o, env), FactsMarker) == Some(PlatformFacts(env))
  {
    CheckBlockLacks(o, env, FactsMarker + ":", 'P');
    ResultLineLacks(o, env);
    FactsLineValue(env);
    ReadThird(Stdout(o, env), Lines(CheckLines(env)), "", ResultLine(o, env), FactsLine(env), "", FactsMarker, PlatformFacts(env));
  }

  /** Likewise the order result is read back unless a tool printed `ORDER_RESULT_JSON:`. */
  lemma ResultTrailerRead(o: Order, env: Env)
    requires !Contains(env.docker.stdout, ResultMarker + ":") && !Contains(env.compose.stdout, ResultMarker + ":")
    ensures ExtractBlock(Stdout(o, env), ResultMarker) == Some(OrderResult(o, env))
  {
    CheckBlockLacks(o, env, ResultMarker + ":", 'R');
    ResultLineValue(o, env);
    ReadSecond(Stdout(o, env), Lines(CheckLines(env)), "", ResultLine(o, env), FactsLine(env), "", ResultMarker, OrderResult(o, env));
  }

  /** No line of the check block holds a pattern the tools' outputs lack. */
  lemma CheckBlockLacks(o: Order, env: Env, pat: string, c: char)
    requires (c == 'P' || c == 'R') && c in pat && '(' !in pat && ')' !in pat
    requires !Contains(env.docker.stdout, pat) && !Contains(env.compose.stdout, pat)
    ensures Lines(Stdout(o, env)) == Lines(CheckLines(env)) + ["", ResultLine(o, env), FactsLine(env), ""]
    ensures forall k :: 0 <= k < |Lines(CheckLines(env))| ==> !Contains(Lines(CheckLines(env))[k], pat)
  {
    CheckLinesLack(env, pat, c);
    LinesLack(CheckLines(env), pat);
    StdoutLines(o, env);
  }

  lemma ResultLineLacks(o: Order, env: Env)
    ensures !Contains(ResultLine(o, env), FactsMarker + ":")
  {
    var text := Stringify(OrderResult(o, env));
    assert 'P' !in text by {
      ResultAvoids(o, env, 'P');
      StringifyAvoids(OrderResult(o, env), 'P');
    }
    assert 'P' !in ResultMarker + ": " && 'P' in FactsMarker + ":";
    MissingChar(ResultMarker + ": " + text, FactsMarker + ":", 'P');
  }

  lemma FactsLineValue(env: Env)
    ensures Contains(FactsLine(env), FactsMarker + ":")
    ensures LineValue(FactsLine(env), FactsMarker) == Some(PlatformFacts(env))
  {
    TrailersWellFormed(Order("", "", Selftest, Queued, 0, None, None, None, None, None, None), env);
    TrailerValue(FactsMarker, PlatformFacts(env));
  }

  lemma ResultLineValue(o: Order, env: Env)
    ensures Contains(ResultLine(o, env), ResultMarker + ":")
    ensures LineValue(ResultLine(o, env), ResultMarker) == Some(OrderResult(o, env))
  {
    ResultWellFormed(o, env);
    TrailerValue(ResultMarker, OrderResult(o, env));
  }

  /** A text whose first line holding the marker reads as `j` yields `j`. */
  lemma ReadTrailer(text: string, pre: seq<string>, mid: seq<string>, line: string, post: seq<string>, marker: string, j: Json)
    requires Lines(text) == pre + mid + [line] + post
    requires forall k :: 0 <= k < |pre| ==> !Contains(pre[k], marker + ":")
    requires forall k :: 0 <= k < |mid| ==> !Contains(mid[k], marker + ":")
    requires Contains(line, marker + ":") && LineValue(line, marker) == Some(j)
    ensures ExtractBlock(text, marker) == Some(j)
  {
    forall k | 0 <= k < |pre + mid| ensures !Contains((pre + mid)[k], marker + ":") {
      if k >= |pre| {
        assert (pre + mid)[k] == mid[k - |pre|];
      }
    }
    SkipLines(pre + mid, [line] + post, marker);
    assert pre + mid + [line] + post == (pre + mid) + ([line] + post);
  }

  lemma Regroup<T>(p: seq<T>, a: T, b: T, c: T, d: T)
    ensures p + [a, b, c, d] == p + [a] + [b] + [c, d]
    ensures p + [a, b, c, d] == p + [a, b] + [c] + [d]
  {
  }

  lemma ReadSecond(text: string, pre: seq<string>, a: string, b: string, c: string, d: string, marker: string, j: Json)
    requires Lines(text) == pre + [a, b, c, d]
    requires forall k :: 0 <= k < |pre| ==> !Contains(pre[k], marker + ":")
    requires !Contains(a, marker + ":")
    requires Contains(b, marker + ":") && LineValue(b, marker) == Some(j)
    ensures ExtractBlock(text, marker) == Some(j)
  {
    Regroup(pre, a, b, c, d);
    ReadTrailer(text, pre, [a], b, [c, d], marker, j);
  }

  lemma ReadThird(text: string, pre: seq<string>, a: string, b: string, c: string, d: string, marker: string, j: Json)
    requires Lines(text) == pre + [a, b, c, d]
    requires forall k :: 0 <= k < |pre| ==> !Contains(pre[k], marker + ":")
    requires !Contains(a, marker + ":") && !Contains(b, marker + ":")
    requires Contains(c, marker + ":") && LineValue(c, marker) == Some(j)
    ensures ExtractBlock(text, marker) == Some(j)
  {
    Regroup(pre, a, b, c, d);
    ReadTrailer(text, pre, [a, b], c, [d], marker, j);
  }
}
