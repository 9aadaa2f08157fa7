# Lottery results sync job: a Dafny model

`server.js` is a one-shot job. It mirrors a lottery-results API into a
Firestore database. Each run does the following:

1. If the `history` collection is empty, it backfills it. It requests up to five
   pages of 20 records, at offsets 0, 20, … 80, and commits each as one batch of
   upserts keyed by `draw_code`. It stops early at the first page whose request,
   batch or commit fails, or that is missing or empty.
2. It fetches the latest result and rejects it when the body or its
   `draw_code` is missing or falsy.
3. If the `draw_code` differs from the one stored in `lottery/latest`, it
   overwrites `latest`, upserts `history/<draw_code>` and appends a `NEW_DRAW`
   entry to `logs`. Otherwise it does nothing.

The model keeps the three collections and drops the I/O around them.

- `records.dfy`, module `Records`: draw records with an optional draw code, the
  log entry, the timestamp sentinel, and the invariant that every `history`
  document is keyed by its own draw code.
- `backfill.dfy`, module `Bootstrap`: the backfill loop as functions.
  - `ApplyPage` is one iteration.
  - `Backfill` is the loop from a given offset. It returns the final history
    and the number of pages requested.
  - The lemmas cover the request sequence, stopping, and what gets written.
- `worker.dfy`, module `Worker`: one run as a function, `Run`, over a `State`
  of the three collections.
  - Its inputs are the page responses, the latest response, and the store
    operation that throws, if any.
  - The lemmas cover single runs, the invariants, and two runs in a row.
- `store.dfy`, module `Server`: the job in its imperative form.
  - Class `Store` holds `history`, `latest` and `logs` as fields.
  - `BootstrapHistory` is the `while` loop with its `break`s.
  - `RunWorker` updates the fields in place.
  - Each method is proved equal to its specification function.

Upstream responses are inputs:
- Backfill pages are a function from offset to `Page`:
  - `RequestFailed`: the request failed or the response had no body.
  - `Received(items, commitOk)`: `items` is None when the field is missing, and
    `commitOk` is the store's verdict on that page's batch commit.
- The latest fetch is a `LatestResponse`: `LatestFailed`, or a body that is
  None when empty.

Failures of the store operations in `runWorker` are a `StoreFault` input. It
names the one operation that throws. That operation and everything after it
are skipped, as the try/catch at server.js:62-100 does.

Two behaviours of the code are easy to misread as something else. The model
follows the code:
- `history` is not append-only. A document is overwritten when its draw code
  is written again: by a later item in the same batch, by a later page of the
  same backfill, or by the new-draw upsert at server.js:88.
- The latest check rejects any falsy `draw_code`, including the empty string,
  not only a missing one. The same holds for backfill items, because a
  Firestore document reference cannot be built from an empty or missing id.

## Model

| member | source | states |
|---|---|---|
| Bootstrap.BatchOf | server.js:44-48 | the defining function of a page's batch: one upsert per item in order, keyed by draw code; its properties are stated by `BatchOfKeys`, `BatchOfLastWins` and `BatchKeysMatch` |
| Bootstrap.Proceeds | server.js:39-55 | the defining predicate of a page that goes through (request ok, `items` present and non-empty, every item keyed, commit ok); `ApplyPage`, `PageAllOrNothing` and `CommitPage` are stated against it |
| Bootstrap.Backfill | server.js:35-57 | the defining function of the backfill loop, giving the final history and the number of requests; its properties are stated by `HaltsAfter`, `ReachesPast`, `RequestsBelowCap`, `RequestedUntilHalt`, `BackfillUsesOnlyRequested`, `BackfillStopsAtFirstHalt`, `BackfillKeys` and `BackfillKeysMatch`, and `BootstrapHistory` is proved equal to it |
| Bootstrap.ApplyPage | server.js:38-56 | one loop iteration goes on exactly when the request succeeded, `items` is present and non-empty, every item has a draw code, and the commit succeeded; otherwise the history is unchanged |
| Bootstrap.BatchOfKeys | server.js:44-48 | a page's batch has exactly one document per distinct draw code of its items |
| Bootstrap.BatchOfLastWins | server.js:45-48 | when draw codes repeat within a page, the document holds the last item with that code |
| Bootstrap.PageAllOrNothing | server.js:40-56 | a page is written whole or not at all: the history is unchanged and the loop ends, or every item is stored under its draw code (last wins), other documents keep their values, and the loop goes on |
| Bootstrap.BatchKeysMatch | server.js:45-47 | every document of a page's batch is keyed by its own draw code |
| Bootstrap.RequestsBelowCap | server.js:35-37 | a backfill started below the cap makes at least one request, and the last request is below offset 100 |
| Bootstrap.OffsetsAt | server.js:35-52 | the k-th requested offset is 20·k |
| Bootstrap.BackfillRequestBound | server.js:35-52 | a backfill makes between 1 and 5 requests, and the k-th requested offset (`Offsets`, as `BootstrapHistory` returns them) is 20·k, below 100 |
| Bootstrap.RequestedUntilHalt | server.js:37-56 | every requested page but the last went through; the last one failed or stopped the loop, or was the last below the cap |
| Bootstrap.BackfillUsesOnlyRequested | server.js:37-56 | the backfill's result depends only on the responses at the offsets it requests |
| Bootstrap.HaltsAfter | server.js:40-42 | when k pages go through and the next does not, exactly k + 1 pages are requested |
| Bootstrap.ReachesPast | server.js:37 | while pages go through and the cap is not reached, the next offset is requested |
| Bootstrap.BackfillStopsAtFirstHalt | server.js:40-56 | the first page that fails, is missing or empty, or cannot be built or committed is the last request, and responses at later offsets change nothing |
| Bootstrap.ShortPageDoesNotEndBackfill | server.js:37-52 | a page with fewer than 20 items that goes through does not end the backfill; the next offset is requested |
| Bootstrap.BackfillKeysMatch | server.js:44-48 | the backfill keeps every history document keyed by its own draw code |
| Bootstrap.BackfillKeys | server.js:44-52 | after the backfill, the history's keys are the old keys plus the distinct draw codes of the requested pages that went through |
| Server.BuildBatch | server.js:44-48 | builds the batch of a page: fails exactly when some item has no draw code; otherwise one document per distinct draw code, the last item winning |
| Server.CommitPage | server.js:39-56 | yields the page's batch exactly when the request succeeded, `items` is present, non-empty and fully keyed, and the commit succeeded |
| Server.Store.BootstrapHistory | server.js:33-59 | the loop leaves `history` as `Backfill` specifies; it returns the requested offsets, `Offsets` of the number of pages `Backfill` requests; `latest` and `logs` are untouched |
| Server.Store.RunWorker | server.js:61-106 | the new collections are `Run` of the old ones; the backfill's requests are returned, with none when `history` was not empty |
| Records.HasCode | server.js:74 | the defining predicate of a usable draw code: present and non-empty, the truthiness test of the latest check, and also what a document id needs at server.js:46; `Code` returns that non-empty code |
| Worker.AcceptedLatest | server.js:71-77 | the defining predicate of the latest check: a response is accepted exactly when the request succeeded and its body has a non-empty draw code; `InvalidResponseWritesNothing` states the rejection |
| Worker.IsNewDraw | server.js:79-83 | the defining predicate of the compare: nothing is stored as latest, or the stored draw code differs; `NewDrawWrites`, `SameDrawWritesNothing` and `WritesArePrefix` are stated against it |
| Worker.Bootstrapped | server.js:64-67 | the defining function of the backfill step, run only on an empty history; stated by `BackfillOnlyWhenEmpty` and `BootstrappedAfterRun` |
| Worker.Publish | server.js:69-99 | the defining function of fetch, compare and publish with the faulting operation; stated by `InvalidResponseWritesNothing`, `NewDrawWrites`, `SameDrawWritesNothing` and `WritesArePrefix` |
| Worker.Run | server.js:61-106 | the defining function of one whole run; stated by `RunAppendsOnly`, `RunKeysMatch`, `RunKeepsConsistent` and `RunIdempotent`, and `RunWorker` is proved equal to it |
| Worker.BackfillOnlyWhenEmpty | server.js:64-67 | with a non-empty history the run does not depend on the backfill pages: the backfill is skipped |
| Worker.InvalidResponseWritesNothing | server.js:71-77 | a failed request, an empty body, or a missing or empty draw code causes no write after the backfill step |
| Worker.NewDrawWrites | server.js:83-95 | a new draw (nothing stored, or a different code) sets `latest` to the record and `history[code]` to the record, and appends exactly one NEW_DRAW entry with the code; nothing else changes |
| Worker.SameDrawWritesNothing | server.js:83-98 | a fetched code equal to the stored latest one writes nothing: the run leaves the state as the backfill step left it, whether `history` was empty or not |
| Worker.RunAppendsOnly | server.js:87-95 | `logs` only grows, by at most one entry, with the old entries kept; no history document is removed |
| Worker.WritesArePrefix | server.js:86-100 | whichever store operation throws, the writes made are a prefix of latest, history, log in that order; the log entry is written exactly for a new draw without faults |
| Worker.RunKeysMatch | server.js:64-95 | a run keeps every history document keyed by its own draw code |
| Worker.RunKeepsConsistent | server.js:83-95 | unless the history write fails after the latest write, the stored latest record stays equal to its history document |
| Worker.HistoryWriteFaultBreaksConsistency | server.js:87-100 | a failure of the history write after the latest write leaves `latest` without its history document (concrete D100/D101 case) |
| Worker.BootstrappedAfterRun | server.js:64-67 | after a run without faults, a second run's backfill step changes nothing |
| Worker.RunIdempotent | server.js:61-99 | running twice with the same upstream data and no faults: the second run changes nothing |

## Left out

- Credential loading, `process.exit(1)` without credentials, and Firebase initialisation (server.js:8-28): startup I/O and foreign library calls.
- The HTTP requests and URL building (server.js:29, 39, 71): the responses are inputs, and a backfill request is identified by its offset.
- Firestore client mechanics (`collection`, `doc`, `batch`, `commit`, `get`, `add`): replaced by map and sequence updates. The server timestamp is the constant sentinel `ServerTimestamp`, and the `logs` document id is not modelled.
- Console output and the unconditional `process.exit(0)` (server.js:101-104): they have no effect on the store.
- async/await: the steps run strictly in sequence, and concurrent runs against one store are not modelled.
- Draw codes that are not strings (numbers, objects): `draw_code` is an optional string. Codes containing `/`, which Firestore reads as a path, are treated as plain keys.
- `items` that is present but not an array: `items` is an optional sequence.
- Why a batch commit fails is not modelled. Its outcome is given with the page response (`commitOk`), because the backfill catches that failure itself.

