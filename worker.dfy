// One run of the sync job (runWorker) as a function of the store's three
// collections, the upstream responses and the store operation that fails,
// if any, with the properties of a run and of two runs in a row.

module Worker {
  import opened Records
  import opened Bootstrap

  /** The three collections: `history` (documents keyed by draw code), the
      `latest` document of `lottery` (None when it does not exist), and
      `logs`. */
  datatype State = State(history: map<string, Draw>, latest: Option<Draw>, logs: seq<LogEntry>)

  /** The response to the request for the latest draw: a failed request, or a
      body (None when it is empty). */
  datatype LatestResponse = LatestFailed | LatestBody(body: Option<Draw>)

  /** The store operation of the run that throws, if any. An operation that
      is never reached has no effect. A failing backfill commit is part of the
      page responses instead, since the backfill catches it itself. */
  datatype StoreFault =
    | NoFault
    | HistoryCheckFails
    | LatestReadFails
    | LatestWriteFails
    | HistoryWriteFails
    | LogAppendFails

  /** The response carries a record with a truthy draw code. */
  predicate AcceptedLatest(resp: LatestResponse)
  {
    resp.LatestBody? && resp.body.Some? && HasCode(resp.body.value)
  }

  /** The backfill step: run only when `history` is empty. */
  function Bootstrapped(s: State, upstream: nat -> Page): State
  {
    if s.history == map[] then s.(history := Backfill(s.history, upstream, 0).history) else s
  }

  /** The record is a new draw: nothing is stored as latest, or the stored
      record's draw code differs. */
  predicate IsNewDraw(s: State, d: Draw)
  {
    s.latest.None? || d.drawCode != s.latest.value.drawCode
  }

  /** Fetch, compare and publish: the three writes of a new draw, in order,
      each skipped with everything after it once one throws. */
  function Publish(s: State, resp: LatestResponse, fault: StoreFault): State
  {
    if !AcceptedLatest(resp) || fault == LatestReadFails then s
    else
      var d := resp.body.value;
      if !IsNewDraw(s, d) || fault == LatestWriteFails then s
      else
        var s1 := s.(latest := Some(d));
        if fault == HistoryWriteFails then s1
        else
          var s2 := s1.(history := s1.history[Code(d) := d]);
          if fault == LogAppendFails then s2
          else s2.(logs := s2.logs + [LogEntry(NewDrawEvent, Code(d), ServerTimestamp)])
  }

  /** A whole run. */
  function Run(s: State, upstream: nat -> Page, resp: LatestResponse, fault: StoreFault): State
  {
    if fault == HistoryCheckFails then s
    else Publish(Bootstrapped(s, upstream), resp, fault)
  }

  /** The store's state invariant: documents are keyed by their
      draw code, and the latest record, when there is one, is the history
      document of its draw code. */
  predicate Consistent(s: State)
  {
    && KeysMatch(s.history)
    && (s.latest.Some? ==>
          HasCode(s.latest.value)
          && Code(s.latest.value) in s.history
          && s.history[Code(s.latest.value)] == s.latest.value)
  }

  // ---------------------------------------------------------------------
  // One run

  /** With a non-empty history the backfill is skipped: the run is the same
      whatever the history pages would have been. */
  lemma BackfillOnlyWhenEmpty(s: State, upstream: nat -> Page, other: nat -> Page,
                              resp: LatestResponse, fault: StoreFault)
    requires s.history != map[]
    ensures Run(s, upstream, resp, fault) == Run(s, other, resp, fault)
    ensures fault != HistoryCheckFails ==> Run(s, upstream, resp, fault) == Publish(s, resp, fault)
  {
  }

  /** A failed request, an empty body or a body without a truthy draw code
      writes nothing to `latest`, `history` or `logs` after the backfill. */
  lemma InvalidResponseWritesNothing(s: State, upstream: nat -> Page, resp: LatestResponse, fault: StoreFault)
    requires !AcceptedLatest(resp)
    ensures Run(s, upstream, resp, fault) == (if fault == HistoryCheckFails then s else Bootstrapped(s, upstream))
  {
  }

  /** A new draw without faults makes exactly three changes: `latest` becomes
      the record, `history[code]` becomes the record, and one NEW_DRAW entry
      with its code is appended to `logs`. */
  lemma NewDrawWrites(s: State, upstream: nat -> Page, d: Draw)
    requires HasCode(d) && IsNewDraw(Bootstrapped(s, upstream), d)
    ensures var b := Bootstrapped(s, upstream);
      Run(s, upstream, LatestBody(Some(d)), NoFault) ==
        State(b.history[Code(d) := d], Some(d), b.logs + [LogEntry(NewDrawEvent, Code(d), ServerTimestamp)])
  {
  }

  /** The same draw code as the stored latest record: nothing changes after
      the backfill step, whether or not `history` is empty (it can be, after
      a run whose `history` write failed). */
  lemma SameDrawWritesNothing(s: State, upstream: nat -> Page, d: Draw, fault: StoreFault)
    requires s.latest.Some? && HasCode(d) && d.drawCode == s.latest.value.drawCode
    ensures Run(s, upstream, LatestBody(Some(d)), fault) ==
              (if fault == HistoryCheckFails then s else Bootstrapped(s, upstream))
  {
  }

  /** `logs` is only appended to, by at most one entry, and `history` never
      loses a document, whatever operation fails. */
  lemma RunAppendsOnly(s: State, upstream: nat -> Page, resp: LatestResponse, fault: StoreFault)
    ensures var r := Run(s, upstream, resp, fault);
      && |s.logs| <= |r.logs| <= |s.logs| + 1
      && r.logs[..|s.logs|] == s.logs
      && s.history.Keys <= r.history.Keys
  {
  }

  /** Whatever operation fails, the writes made are a prefix of the three
      writes of a new draw, in source order: `latest`, then `history`, then
      `logs`. */
  lemma WritesArePrefix(s: State, upstream: nat -> Page, d: Draw, fault: StoreFault)
    requires HasCode(d) && fault != HistoryCheckFails
    ensures var b := Bootstrapped(s, upstream);
      var r := Run(s, upstream, LatestBody(Some(d)), fault);
      var entry := LogEntry(NewDrawEvent, Code(d), ServerTimestamp);
      && (|| r == b
          || r == b.(latest := Some(d))
          || r == b.(latest := Some(d), history := b.history[Code(d) := d])
          || r == State(b.history[Code(d) := d], Some(d), b.logs + [entry]))
      && (r.logs != b.logs <==> fault == NoFault && IsNewDraw(b, d))
  {
  }

  // ---------------------------------------------------------------------
  // Invariants

  /** A run keeps every history document keyed by its own draw code, whatever
      operation fails. */
  lemma RunKeysMatch(s: State, upstream: nat -> Page, resp: LatestResponse, fault: StoreFault)
    requires KeysMatch(s.history)
    ensures KeysMatch(Run(s, upstream, resp, fault).history)
  {
    BackfillKeysMatch(s.history, upstream, 0);
  }

  /** A run that does not fail between the `latest` write and the `history`
      write keeps the latest record equal to its history document. */
  lemma RunKeepsConsistent(s: State, upstream: nat -> Page, resp: LatestResponse, fault: StoreFault)
    requires Consistent(s) && fault != HistoryWriteFails
    ensures Consistent(Run(s, upstream, resp, fault))
  {
    var b := Bootstrapped(s, upstream);
    if s.history == map[] {
      BackfillKeysMatch(s.history, upstream, 0);
      assert s.latest.None?;
    }
    assert Consistent(b);
    if fault != HistoryCheckFails && AcceptedLatest(resp) {
      var d := resp.body.value;
      var r := Publish(b, resp, fault);
      assert r == b || (r.history == b.history[Code(d) := d] && r.latest == Some(d));
    }
  }

  /** A failure of the `history` write after the `latest` write leaves the
      latest record without its history document. */
  lemma HistoryWriteFaultBreaksConsistency()
    ensures var d100 := Draw(Some("D100"), map[]);
      var d101 := Draw(Some("D101"), map["numbers" := "1,2,3"]);
      var s := State(map["D100" := d100], Some(d100), []);
      && Consistent(s)
      && !Consistent(Run(s, _ => RequestFailed, LatestBody(Some(d101)), HistoryWriteFails))
  {
  }

  // ---------------------------------------------------------------------
  // Two runs

  /** After a run without faults, the backfill step of a second run with the
      same pages changes nothing: either the history is non-empty, or it is
      empty because the backfill wrote nothing, and would again write
      nothing. */
  lemma BootstrappedAfterRun(s: State, upstream: nat -> Page, resp: LatestResponse)
    ensures var r := Run(s, upstream, resp, NoFault);
      Bootstrapped(r, upstream) == r
  {
  }

  /** Running the job twice in a row with the same upstream data and no
      faults: the second run changes nothing. */
  lemma RunIdempotent(s: State, upstream: nat -> Page, resp: LatestResponse)
    ensures var r := Run(s, upstream, resp, NoFault);
      Run(r, upstream, resp, NoFault) == r
  {
  }
}
