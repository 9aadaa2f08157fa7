// The job itself, over the document store: the three collections are fields
// of a Store object, and bootstrapHistory and runWorker are methods that
// update them in place, each proved against its specification function.

module Server {
  import opened Records
  import opened Bootstrap
  import opened Worker

  /** Builds the write batch of one page, one upsert per item in order, keyed
      by the item's draw code; None when an item has no draw code to build its
      document reference from. */
  method BuildBatch(items: seq<Draw>) returns (batch: Option<map<string, Draw>>)
    ensures batch.Some? <==> AllCoded(items)
    ensures batch.Some? ==> batch.value.Keys == Codes(items)
    ensures batch.Some? ==> forall i :: 0 <= i < |items| && LastOfCode(items, i) ==>
              batch.value[Code(items[i])] == items[i]
    ensures batch.Some? ==> batch.value == BatchOf(items)
  {
    var pending: map<string, Draw> := map[];
    var i := 0;
    while i < |items|
      invariant 0 <= i <= |items|
      invariant AllCoded(items[..i])
      invariant pending == BatchOf(items[..i])
    {
      var item := items[i];
      if !HasCode(item) {
        assert !AllCoded(items);
        return None;
      }
      assert items[..i + 1][..i] == items[..i];
      pending := pending[Code(item) := item];
      i := i + 1;
    }
    assert items[..i] == items;
    BatchOfKeys(items);
    forall i | 0 <= i < |items| && LastOfCode(items, i)
      ensures pending[Code(items[i])] == items[i]
    {
      BatchOfLastWins(items, i);
    }
    batch := Some(pending);
  }

  /** One loop iteration up to its commit: the response is checked for a
      missing or empty `items` list, its batch is built and committed. Yields
      the committed batch, or None when the loop is to end here with nothing
      of this page written. */
  method CommitPage(page: Page) returns (batch: Option<map<string, Draw>>)
    ensures batch.Some? <==> Proceeds(page)
    ensures batch.Some? ==> batch.value == BatchOf(page.items.value)
  {
    if page.RequestFailed? {
      return None;
    }
    var items := page.items;
    if items.None? || |items.value| == 0 {
      return None;
    }
    batch := BuildBatch(items.value);
    if !page.commitOk {
      return None;
    }
  }

  class Store {
    /** The `history` collection, by document id. */
    var history: map<string, Draw>
    /** The `latest` document of the `lottery` collection. */
    var latest: Option<Draw>
    /** The `logs` collection, in insertion order. */
    var logs: seq<LogEntry>

    function Snapshot(): State
      reads this
    {
      State(history, latest, logs)
    }

    constructor (initial: State)
      ensures Snapshot() == initial
    {
      history, latest, logs := initial.history, initial.latest, initial.logs;
    }

    /** Requests pages of twenty at offsets 0, 20, ... below 100, and commits
        each page as one batch of upserts keyed by draw code. A failed
        request, a missing or empty page, an item without a draw code or a
        failed commit ends the loop, with nothing of that page written.
        Returns the offsets requested, in order. */
    method BootstrapHistory(upstream: nat -> Page) returns (requested: seq<nat>)
      modifies this
      ensures history == Backfill(old(history), upstream, 0).history
      ensures requested == Offsets(Backfill(old(history), upstream, 0).pages)
      ensures latest == old(latest) && logs == old(logs)
    {
      ghost var final := Backfill(history, upstream, 0);
      var offset: nat := 0;
      requested := [];
      while offset < OffsetCap
        invariant latest == old(latest) && logs == old(logs)
        invariant offset == RequestAt(0, |requested|)
        invariant requested == Offsets(|requested|)
        invariant final.history == Backfill(history, upstream, offset).history
        invariant final.pages == |requested| + Backfill(history, upstream, offset).pages
        decreases OffsetCap - offset
      {
        var page := upstream(offset);
        requested := requested + [offset];
        var batch := CommitPage(page);
        if batch.None? {
          // the request, the batch or its commit failed, or the page was empty
          BackfillHalts(final, |requested| - 1, history, upstream, offset);
          break;
        }
        BackfillAdvances(final, |requested| - 1, history, upstream, offset, batch.value);
        history := history + batch.value;
        offset := offset + PageSize;
      }
    }

    /** One run of the job: backfill when `history` is empty, fetch the latest
        record, and publish it when its draw code is new. A failing store
        operation ends the run where it fails. Returns the offsets the
        backfill requested. */
    method RunWorker(upstream: nat -> Page, resp: LatestResponse, fault: StoreFault) returns (requested: seq<nat>)
      modifies this
      ensures Snapshot() == Run(old(Snapshot()), upstream, resp, fault)
      ensures requested == if fault != HistoryCheckFails && old(history) == map[]
                           then Offsets(Backfill(old(history), upstream, 0).pages) else []
    {
      requested := [];
      if fault == HistoryCheckFails {
        return;
      }
      if history == map[] {
        requested := BootstrapHistory(upstream);
      }
      if resp.LatestFailed? {
        return;
      }
      var apiData := resp.body;
      if apiData.None? || !HasCode(apiData.value) {
        return;
      }
      if fault == LatestReadFails {
        return;
      }
      var currentStored := latest;
      if currentStored.None? || apiData.value.drawCode != currentStored.value.drawCode {
        if fault == LatestWriteFails {
          return;
        }
        latest := apiData;
        if fault == HistoryWriteFails {
          return;
        }
        history := history[Code(apiData.value) := apiData.value];
        if fault == LogAppendFails {
          return;
        }
        logs := logs + [LogEntry(NewDrawEvent, Code(apiData.value), ServerTimestamp)];
      }
    }
  }
}
