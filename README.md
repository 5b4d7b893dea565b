# ikoma-backend order pipeline, modelled in Dafny

ikoma-backend is a small control plane for "runners", the machines that execute
maintenance orders. A client posts an order for a runner. The dispatcher
validates the request and checks the runner exists. It deduplicates the request
by its client request id, stores the order as `queued`, and schedules one
execution.

The executor then does the following:
- marks the order `running`;
- runs three checks (filesystem, docker, compose) and synthesises a stdout that
  ends in two JSON trailer lines (`ORDER_RESULT_JSON:` and `PLATFORM_FACTS_JSON:`);
- saves that output as an evidence row and writes the terminal status;
- reads the platform facts back out of its own stdout and saves them as a facts
  row;
- refreshes the runner.

Any failing store write lands in a catch-all that marks the order `failed` with
exit code 999. The web client shows a runner as online while it was seen within
two ttls. The dashboard filters runners by a search string and counts the
online ones.

The model has one module per concern:

- `base.dfy`: `Option`, `Subsequence`, and the list operations the code uses. These are `filter` (`Where`), first match (`Find`), `ORDER BY … DESC` (`SortDesc`) and `LIMIT` (`Take`).
- `text.dfy`: the JavaScript string operations the code relies on: `indexOf`, `includes`, `split('\n')` and `trim`.
- `json.dfy`: a small JSON value type with `JSON.stringify` and `JSON.parse` over it. It proves `Parse(Stringify(j)) == Some(j)` for well-formed values, plus truthiness and member lookup.
- `schema.dfy`: the four tables (runners, orders, evidences, facts), the two closed enums, the column defaults and the primary-key invariant.
- `storage.dfy`: the storage layer. The queries are pure functions over the tables. `Storage` is a class whose methods insert, patch and delete rows in place. An insert with a duplicate primary key fails and changes nothing, which is how a store write can throw.
- `worker.dfy`: `parseJSONBlock` (a pure function plus the loop method that implements it), the stdout the executor synthesises, and `processOrder`. The latter is `Worker.ProcessOrder`, a method on the store proved equal to the step function `Worker.Execute`. `Env` supplies the check outcomes, the tool output, the ids, the clock, and the write at which the store throws (if any).
- `execution.dfy`: what a run does to the store. It covers the final order row, a run without faults, the catch-all, and the fact that a run touches only its own order and runner.
- `api.dfy`: the request validators and the response envelope.
- `routes.dfy`: the startup seed and the list-orders, evidence-list, create-order and delete-runner handlers. They are methods of `Server`, which owns the store and a `pending` queue standing for `setImmediate`. Creation is specified by the pure `Routes.CreateOrderSpec`, with the idempotency lemmas stated over it.
- `runnercard.dfy`: the liveness rule and the label chips.
- `dashboard.dfy`: the dashboard's search filter and active count.

Timestamps are integers (milliseconds). Each `new Date()` reading in `processOrder` is a separate field of `Worker.Clock`, and the seed's two readings are the separate `created` and `seen` parameters of `Routes.Seeded`. The executor's write order can diverge from the order of these readings only through the clock values themselves.

## Model

| member | source | states |
|---|---|---|
| Worker.ExtractBlock | server/worker.ts:11-39 | a value is returned only if the text contains `marker:` somewhere |
| Worker.ParseJsonBlock | server/worker.ts:18-38 | the loop over the split lines with its early return computes exactly `ExtractBlock` |
| Worker.SkipLines | server/worker.ts:20-34 | lines that lack `marker:` do not affect the result |
| Worker.FirstMatchDecides | server/worker.ts:29-35 | only the first line holding `marker:` is tried; its value decides, even when it fails to parse and a later line would parse |
| Worker.AfterMarker | server/worker.ts:29-32 | on a one-line text, the value after `marker:`, past any white space, is read back whatever text precedes the marker, provided that text holds no earlier `marker:` |
| Worker.PaddedValue | server/worker.ts:31-32 | trimming and parsing recovers a serialised value preceded by white space |
| Worker.FirstColon | server/worker.ts:29 | when neither the prefix nor the marker holds a colon, `indexOf(marker + ":")` is the prefix length |
| Worker.SingleLineBlock | server/worker.ts:19-33 | a one-line text yields that line's value |
| Worker.ExitCode | server/worker.ts:99-100 | exit code 0 iff the run succeeds, otherwise 1; success is the filesystem check alone, whatever docker and compose report |
| Worker.FactsRefDropped | server/worker.ts:160-174 | as written, the update only moves `lastSeenAt`; the facts reference never reaches the runner row |
| Worker.FactsRefRecorded | server/worker.ts:160-174 | with the corrected key, the runner is marked seen and points at the new facts when there are any, otherwise keeps its old reference |
| Worker.ProcessOrder | server/worker.ts:61-185 | the run of one order leaves the store valid and equal to `Execute(old store, id, env)`; the final runner update uses the corrected key `factsRef` (see Findings) |
| Worker.RunChecks | server/worker.ts:66-174 | from the order marked running, the checks, the stdout, the evidence, the terminal status, the facts row and the runner update (under the corrected key `factsRef`, see Findings) leave the store equal to `FromRunning` of the old store; when a write throws, the catch-all's update of the state left behind gives that same store |
| Worker.RecordFacts | server/worker.ts:144-174 | the facts read back from the stdout are saved when they are truthy, and the runner is refreshed, giving `FromFinished` of the old store; on a throw the catch-all's update gives that same store; the runner update uses the corrected key `factsRef` (see Findings) |
| Worker.StdoutShape | server/worker.ts:115-120 | the synthesised stdout is the check lines, a blank line, the result trailer line and the facts trailer line |
| Worker.StdoutLines | server/worker.ts:115-120 | split on newlines, stdout is the check lines followed by `""`, the result line, the facts line and `""` |
| Worker.TrailersWellFormed | server/worker.ts:93-112 | the checks object, the platform facts and the order result are serialisable JSON values |
| Worker.CheckLinesLack | server/worker.ts:116-118 | the check lines contain a marker pattern only if a tool's own output does |
| Worker.TrailerValue | server/worker.ts:119-120 | a trailer line `marker: stringify(j)` holds the marker and reads back as `j` |
| Worker.FactsTrailerRead | server/worker.ts:115-145 | provided the tool output lacks `PLATFORM_FACTS_JSON:`, extraction from stdout recovers the platform facts |
| Worker.ResultTrailerRead | server/worker.ts:115-120 | provided the tool output lacks `ORDER_RESULT_JSON:`, extraction recovers the order result |
| Execution.ExecuteValid | server/worker.ts:61-185 | a run keeps every primary key unique |
| Execution.ExecuteOrderRow | server/worker.ts:61-185 | a run leaves the order row present and keeps id, runner, type, creation time and request id; the row ends either as the internal error or as the checks' outcome |
| Execution.ExecuteTerminal | server/worker.ts:136-183 | after a run the order is terminal and has a finish time; it succeeded iff its exit code is 0 |
| Execution.SmoothSteps | server/worker.ts:65-174 | with no fault, fresh ids and tool output free of the facts marker, a run performs exactly the five writes in order, the fifth being the runner update under the corrected key `factsRef` (see Findings) |
| Execution.SmoothOrder | server/worker.ts:66-142 | without faults the order ends succeeded iff the filesystem check passed, with that exit code, start and finish times, the evidence id and "Checks passed"/"Checks failed"; other orders are unchanged |
| Execution.SmoothEvidence | server/worker.ts:125-133 | without faults one evidence row is appended, with the order's id and runner, the run's exit code, and a stdout whose facts trailer reads back |
| Execution.SmoothFacts | server/worker.ts:145-158 | without faults one facts row is appended, linked to the order and evidence, with component "runner" and `checks`/`raw` texts that parse back to the checks and the facts |
| Execution.SmoothRunner | server/worker.ts:160-174 | with the corrected key `factsRef` (see Findings), without faults the order's runner gets `lastSeenAt` and a reference to the new facts; other runners are unchanged |
| Execution.SmoothRunnerAsWritten | server/worker.ts:160-174 | with the update as written (`facts_ref`), the same run only marks the order's runner seen and leaves its facts reference as it was, differing from the corrected run in `factsRef` alone; other runners are unchanged |
| Execution.ExecuteFault | server/worker.ts:176-183 | any injected fault ends the order failed with 999, "Internal Worker Error" and the catch-all's finish time, and leaves the runners untouched |
| Execution.LateFault | server/worker.ts:149-183 | a throw in `createFacts` or `updateRunner` overwrites the already-written terminal row with the internal error |
| Execution.LateFaultKeepsEvidence | server/worker.ts:125-183 | after such a late throw the row keeps its evidence id and start time, while the saved evidence still carries the checks' own exit code (0 or 1) |
| Execution.ExecuteConfined | server/worker.ts:61-63 | an unknown order id changes nothing; otherwise a run changes only that order's row and its runner's row, and appends at most one evidence and one facts row for that order |
| Execution.ExecuteOrderKeys | server/worker.ts:61-185 | a run neither adds nor removes order ids |
| Storage.RunnerById | server/storage.ts:40-43 | the row with that id, or none exactly when no row has it |
| Storage.OrderById | server/storage.ts:70-73 | the row with that id, or none exactly when no row has it |
| Storage.RunnersByLastSeen | server/storage.ts:36-38 | all runners, a permutation of the table, sorted by `lastSeenAt` descending |
| Storage.OrderByRequest | server/storage.ts:75-84 | an order matching runner, type and client request id, or none exactly when no order matches |
| Storage.OrdersOf | server/storage.ts:62-68 | only that runner's orders, newest first, none repeated beyond the table: exactly the `min(limit, count)` newest when the limit is not negative, all of them when it is negative; any order left out is no newer than one listed |
| Storage.EvidencesMatching | server/storage.ts:99-109 | exactly the rows the filter admits, newest first: by order id when it is given, else by runner id, else all |
| Storage.LatestFacts | server/storage.ts:121-128 | the runner's facts row with the greatest `checkedAt`, or none exactly when the runner has none |
| Storage.RunnerSetClause | server/storage.ts:50-56 | of the keys the worker sends, only those naming a column property reach the SET clause: `lastSeenAt` holding a timestamp, and `factsRef` holding a facts reference when the key is spelled that way; `facts_ref` is dropped |
| Storage.SetOrder | server/storage.ts:91-97 | a patch overwrites exactly the supplied fields; identity fields are never changed |
| Storage.SetRunner | server/storage.ts:50-56 | a patch overwrites only `lastSeenAt`/`factsRef` when supplied |
| Storage.PatchOrders | server/storage.ts:91-97 | the row with that id is patched and every other row is unchanged |
| Storage.PatchRunners | server/storage.ts:50-56 | the row with that id is patched and every other row is unchanged |
| Storage.PatchOrdersKeys | server/storage.ts:91-97 | patching keeps order ids unique and the same set of ids |
| Storage.DeleteRunnerRows | server/storage.ts:58-60 | exactly the runners with another id remain, in order |
| Storage.Storage.CreateRunner | server/storage.ts:45-48 | a new id appends the row with defaults applied; a duplicate id changes nothing and fails |
| Storage.Storage.CreateOrder | server/storage.ts:86-89 | a new id appends the row; a duplicate id changes nothing and fails |
| Storage.Storage.CreateEvidence | server/storage.ts:111-114 | a new id appends the row; a duplicate id changes nothing and fails |
| Storage.Storage.CreateFacts | server/storage.ts:116-119 | a new id appends the row with the component default; a duplicate id changes nothing and fails |
| Storage.Storage.UpdateOrder | server/storage.ts:91-97 | only the orders table changes, by `PatchOrders` |
| Storage.Storage.UpdateRunner | server/storage.ts:50-56 | only the runners table changes, by the patch the SET clause keeps |
| Storage.Storage.DeleteRunner | server/storage.ts:58-60 | only the runners table changes; orders, evidences and facts that reference the runner remain |
| Schema.TypeOf | shared/schema.ts:74-77 | a text names an order type iff it is `runner.selftest` or `runner.reconcile` |
| Schema.TypeName | shared/schema.ts:74-77 | every type's name reads back as that type |
| Schema.StatusOf | shared/schema.ts:79-84 | a text names a status iff it is one of queued, running, succeeded, failed |
| Schema.StatusName | shared/schema.ts:79-84 | every status's name reads back as that status |
| Schema.RunnerRow | shared/schema.ts:10-18 | a left-out ttl is stored as 60 and left-out labels as "{}"; other fields as given |
| Schema.FactsRow | shared/schema.ts:44-53 | a left-out component is stored as "runner"; other fields as given |
| Schema.AppendUnique | shared/schema.ts:21 | appending a row with a new id keeps ids unique |
| Schema.NoIdempotencyKey | shared/schema.ts:20-32 | the orders table admits two orders with the same runner, type and client request id |
| Json.ParseStringify | server/worker.ts:119-157 | parsing a serialised well-formed value gives the value back |
| Json.StringifyAvoids | server/worker.ts:119-120 | a serialised value holds a non-syntax character only if the value does |
| Json.Get | shared/routes.ts:76-79 | the value of the last member with that key (no later member repeats it), none exactly when the value is not an object or lacks the key |
| Text.IndexOf | server/worker.ts:29 | `indexOf`: the first occurrence, or -1 exactly when there is none |
| Text.LinesAppend | server/worker.ts:19 | `split('\n')` of two texts joined by a line feed is the concatenation of their splits |
| Text.LinesSingle | server/worker.ts:19 | a text without a line feed splits into itself alone |
| Text.LineInText | server/worker.ts:19-30 | whatever a line of the split contains, the text contains |
| Text.Trim | server/worker.ts:117-118 | `trim`: the middle slice that neither starts nor ends with white space, with only white space cut off |
| Api.ValidateCreateOrder | shared/routes.ts:76-79 | accepted iff the body is an object whose `type` names an order type and whose `client_request_id` is missing or a string; the result carries those values |
| Api.ValidateBody | shared/routes.ts:76-79 | what a client sends for an input validates to that input |
| Api.ValidateIgnoresExtra | shared/routes.ts:76-79 | a member with another key, wherever it stands in the object, does not change the outcome |
| Api.EvidenceQueryAccepted | shared/routes.ts:90-95 | rejected iff neither id is given, an empty string counting as not given |
| Api.NumberOf | server/routes.ts:134 | `Number(q)`: NaN for a missing parameter |
| Api.NumberOfBlank | server/routes.ts:134 | `Number` of an all-white-space parameter is 0 |
| Api.NumberOfNumeral | server/routes.ts:134 | `Number` of a decimal numeral, after any white space, is its value |
| Api.NumberOfNegative | server/routes.ts:134 | `Number` of a minus sign and a decimal numeral is the negated value |
| Api.ListLimit | server/routes.ts:134 | `Number(q) \|\| 50`: never 0; a non-zero number is kept; NaN and 0 give 50 |
| Api.ListLimitOfText | server/routes.ts:134 | a positive decimal limit is taken as written |
| Api.ListLimitDefault | server/routes.ts:134 | a missing, blank or zero limit gives 50 |
| Api.Respond | server/routes.ts:13-33 | `ok` is true iff there is no error; an error's code and message are never empty: a given non-empty code or message passes through unchanged, a missing or empty one becomes "UNKNOWN_ERROR" / "An error occurred"; status and data pass through |
| Routes.Seeded | server/routes.ts:42-53 | the default runner (`r_local`, ttl 60, its `createdAt` and `lastSeenAt` from two clock readings) is added only to an empty runner table; afterwards there is a runner and the other tables are unchanged |
| Routes.SeededIdempotent | server/routes.ts:42-53 | seeding twice is seeding once |
| Routes.QueuedOrder | server/routes.ts:178-186 | a new order is `queued` with summary "Queued for execution", the given type, runner and request id, and no run fields |
| Routes.CreateOrderSpec | server/routes.ts:160-201 | only the orders table can change; ok iff 200 or 201; 201 iff exactly one order with a fresh id was appended and exactly that id scheduled; an invalid body gives 400 before the runner is looked up; an unknown runner gives 404; 200 happens exactly when a valid body for a known runner carries a non-empty key with a stored match, and then replays that order with nothing stored or scheduled; with no such match the answer is 201, or 500 when the new id is taken |
| Routes.CreateKeepsKeysUnique | server/routes.ts:170-186 | the handler never stores a second order with the same non-empty (runner, type, request id) |
| Routes.SubmitTwice | server/routes.ts:170-176 | a keyed request submitted twice is answered 200 the second time with the first answer's order; nothing is stored or scheduled |
| Routes.UnkeyedAlwaysCreates | server/routes.ts:171 | without a non-empty key, a valid request to a known runner always creates |
| Routes.UnkeyedTwiceCreatesTwo | server/routes.ts:171 | two such submissions store two orders and schedule each once |
| Routes.Server.Seed | server/routes.ts:42-53 | the store becomes `Seeded(old store, created, seen)` |
| Routes.Server.ListOrders | server/routes.ts:125-140 | 404 for an unknown runner; otherwise 200 with `OrdersOf(orders, runner, Number(limit) \|\| 50)`, at most 50 when no limit is given |
| Routes.Server.ListEvidences | server/routes.ts:143-157 | 400 unless an id is given; otherwise 200 with the matching evidences, each with the given order id, or else the given runner id |
| Routes.Server.CreateOrder | server/routes.ts:160-201 | store, queue and response are those of `CreateOrderSpec`; every queued id names a stored order, at most once |
| Routes.Server.Enqueue | server/routes.ts:178-191 | a fresh id appends exactly that order and schedules its id last; an id already stored fails with the store and the queue unchanged; every queued id still names a stored order |
| Routes.Server.DeleteRunner | server/routes.ts:204-217 | 404 and no change for an unknown runner; otherwise only that runner's row is removed and the answer is `{deleted, id}` |
| Routes.Server.RunNext | server/routes.ts:191 | the oldest scheduled id leaves the queue and the store becomes `Execute` of it |
| Routes.DeleteRemovesOnly | server/routes.ts:212 | after a delete no runner has the id, and every other runner remains |
| RunnerCard.EffectiveTtl | client/src/components/RunnerCard.tsx:8 | `ttlSeconds \|\| 60`: a missing or zero ttl reads as 60 |
| RunnerCard.OnlineWindow | client/src/components/RunnerCard.tsx:8 | online iff strictly less than 2·ttl seconds have passed since last seen |
| RunnerCard.OnlineExamples | client/src/components/RunnerCard.tsx:8 | with ttl 60: seen 90 s ago is online, seen 120 s or 130 s ago is offline |
| RunnerCard.TtlDefaulted | client/src/components/RunnerCard.tsx:8 | a missing or zero ttl behaves as ttl 60 |
| RunnerCard.OnlineLaterSeen | client/src/components/RunnerCard.tsx:8 | a later `lastSeenAt` never turns online into offline |
| RunnerCard.OfflineLaterNow | client/src/components/RunnerCard.tsx:8 | a later `now` never turns offline into online |
| RunnerCard.OnlineLargerTtl | client/src/components/RunnerCard.tsx:8 | among positive ttls, a larger one never turns online into offline |
| RunnerCard.ZeroTtlNotMonotone | client/src/components/RunnerCard.tsx:8 | raising a ttl from 0 to 1 can turn a runner offline |
| RunnerCard.LabelEntries | client/src/components/RunnerCard.tsx:51 | `Object.entries`: one entry per object member, one per character of a string, none otherwise |
| RunnerCard.LabelChips | client/src/components/RunnerCard.tsx:51-60 | at most two chips, the first entries; an overflow count appears iff there are more than two; chips and overflow together count every entry |
| RunnerCard.TextLabelsChips | client/src/components/RunnerCard.tsx:51-60 | labels stored as the text "{}" show the chips `0={` and `1=}` |
| RunnerCard.EmptyObjectChips | client/src/components/RunnerCard.tsx:51-60 | an empty labels object shows no chip |
| Dashboard.FilterRunners | client/src/pages/Dashboard.tsx:12-15 | exactly the runners whose lowercased name or id contains the lowercased search, as an order-preserving subsequence; nothing while the list is not loaded |
| Dashboard.EmptySearchKeepsAll | client/src/pages/Dashboard.tsx:12-15 | an empty search keeps every runner, in order |
| Dashboard.ActiveCount | client/src/pages/Dashboard.tsx:17-20 | the number of online runners, at most the total, 0 while the list is not loaded |
| Dashboard.ActiveCountCounts | client/src/pages/Dashboard.tsx:17-20 | the count is one per online runner |
| Dashboard.ActiveIgnoresSearch | client/src/pages/Dashboard.tsx:17-20 | the count takes no search; the online runners among the search results never outnumber it |

## Left out

- Subprocesses and the filesystem. `runShellCommand` (server/worker.ts:41-59) and the temp-file probe (server/worker.ts:73-81) are not modelled. Their outcomes and the tool output are fields of `Worker.Env`.
- `/api/platform/detect` and `/api/health`. They only probe the operating system.
- The list-runners and get-runner handlers (server/routes.ts:101-122). They only return `Storage.RunnersByLastSeen` and `Storage.RunnerById`. `server/db.ts` is not part of this model, nor is logging.
- Concurrency. `setImmediate` becomes `Routes.Server.pending`, and `Routes.Server.RunNext` runs one queued execution to completion. Interleaved runs and the check-then-insert race between two create requests are not modelled. `Routes.CreateKeepsKeysUnique` holds only for requests handled one at a time.
- Clock and ids. Timestamps are integers, not ISO strings. Rows are ordered by the integer where SQLite compares ISO text. `randomUUID` becomes an id parameter. A clashing id is handled as the store's duplicate-key failure.
- The order result's `timestamp` is a JSON number, not an ISO string.
- JSON. Only null, booleans, integers, escape-free strings and objects are modelled, with no arrays and no white space between tokens. A parse failure is `None`. An object with repeated keys keeps every member, and `Get` reads the last one.
- `Object.entries` puts integer-like keys first. `RunnerCard.LabelEntries` keeps members in written order.
- `RunnerCard.LabelEntries` gives a string label one entry per Unicode scalar value, while `Object.entries` gives one per UTF-16 code unit, so a character outside the Basic Multilingual Plane (an emoji) is one entry here and two in the dashboard; `RunnerCard.LabelChips` inherits that count for its chips and overflow number. Strings are `seq<char>` throughout the model.
- The response envelope's `meta` and `details` are not modelled.
- Exception messages: for a failed order insert, `Routes.DuplicateOrderId` carries the driver's unique-constraint text as a fixed string.
- `Api.NumberOf` covers only optionally signed decimal integers. Fractions, exponents, hexadecimal, `Infinity` and repeated query parameters (arrays) are read as NaN.
- The `cursor` input of list-orders is accepted by the schema and never used.
- Case mapping. `Dashboard.Lower` applies a per-character map passed in as a parameter, not full Unicode `toLowerCase`.
- Row order. Queries without `ORDER BY` (`Storage.OrderByRequest`) return rows in insertion order.
- `Worker.ProcessOrder` assumes the catch-all's own `updateOrder` cannot fail. In the source it would reject the unawaited promise.
- `Worker.ProcessOrder` follows the corrected runner update (key `factsRef`), not the source's `facts_ref`, which leaves the facts reference unchanged (`Execution.SmoothRunnerAsWritten`).
- `Storage.RunnerSetClause` covers only the keys a worker update holds. The other column properties (`name`, `ttlSeconds`, `labels`, `id`, `createdAt`) are never sent and are not modelled, and a value of the wrong kind under `lastSeenAt` or `factsRef` is dropped rather than written.
- `Worker.RecordFacts` writes the corrected runner update (key `factsRef`); the source as written only moves `lastSeenAt`.
- `Worker.RunChecks` reaches `FromRunning` through `Worker.RecordFacts`, so it too follows the corrected runner update (key `factsRef`); as written, the run leaves the facts reference unchanged (`Execution.SmoothRunnerAsWritten`).
- `Execution.SmoothSteps` states the corrected fifth write (key `factsRef`); the as-written runner table is given by `Execution.SmoothRunnerAsWritten`.
- `Execution.SmoothRunner` states the corrected outcome, a runner pointed at the new facts; as written the runner keeps its old reference (`Execution.SmoothRunnerAsWritten`).
- The client hooks (client/src/hooks/use-runners.ts) are not modelled. They send a fresh random `client_request_id` on every click, so the interface itself never replays a request.
- `RunnerCard.OnlineLargerTtl`: holds only for positive ttls, because a ttl of 0 reads as 60 (`RunnerCard.ZeroTtlNotMonotone`).
- `Worker.FactsTrailerRead` and `Worker.ResultTrailerRead`: hold only when the tool output lacks the marker. A tool that prints the marker would be read first.

## Findings

| source | as written | input that shows it | evidently intended | confidence | as-written member | corrected member |
|---|---|---|---|---|---|---|
| server/worker.ts:160-174 | the facts reference is put under the key `facts_ref`, which is not a property of the runners table (shared/schema.ts:17 names it `factsRef`). This assumes a Drizzle ORM whose update builder walks the table's columns and skips keys that name none; there the update keeps only `lastSeenAt`. A builder that walks the patch's own keys would throw on `facts_ref` instead, and every run with facts would end failed with exit code 999 through the catch-all. | any run whose facts trailer reads back, e.g. a run with no fault and tool output free of the marker | the runner's `factsRef` points at the facts row just saved | medium (not executed) | Worker.FactsRefDropped | Worker.FactsRefRecorded |
