// The paged backfill of the `history` collection (bootstrapHistory), as
// functions over the history map, with the properties of its request
// sequence and of what it writes.

module Bootstrap {
  import opened Records

  /** Records asked for per request (`limit=20`) and the step of the offset. */
  const PageSize: nat := 20
  /** The loop runs while the offset is below this cap. */
  const OffsetCap: nat := 100

  /** What the job gets for one page request. `RequestFailed` covers a failed
      request and a response without a body; `items` is None when the body has
      no `items` field; `commitOk` is the store's verdict on committing the
      page's batch, should the job get that far. */
  datatype Page = RequestFailed | Received(items: Option<seq<Draw>>, commitOk: bool)

  predicate AllCoded(items: seq<Draw>)
  {
    forall i :: 0 <= i < |items| ==> HasCode(items[i])
  }

  function Codes(items: seq<Draw>): set<string>
    requires AllCoded(items)
  {
    set i | 0 <= i < |items| :: Code(items[i])
  }

  /** No later item of `items` carries the draw code of item `i`. */
  predicate LastOfCode(items: seq<Draw>, i: nat)
    requires AllCoded(items) && i < |items|
  {
    forall j :: i < j < |items| ==> Code(items[j]) != Code(items[i])
  }

  /** The write batch of one page: one `set` per item, in order, keyed by the
      item's draw code. */
  function BatchOf(items: seq<Draw>): map<string, Draw>
    requires AllCoded(items)
  {
    if items == [] then map[]
    else
      var last := items[|items| - 1];
      BatchOf(items[..|items| - 1])[Code(last) := last]
  }

  /** A page is written and the loop goes on exactly when the request
      succeeds, `items` is present and non-empty, every item has a draw code
      to key it by, and the commit succeeds. */
  predicate Proceeds(p: Page)
  {
    && p.Received?
    && p.items.Some?
    && |p.items.value| > 0
    && AllCoded(p.items.value)
    && p.commitOk
  }

  datatype PageResult = PageResult(history: map<string, Draw>, proceed: bool)

  /** One iteration of the loop body: the request, the emptiness test, the
      batch and its commit. */
  function ApplyPage(history: map<string, Draw>, p: Page): (r: PageResult)
    ensures r.proceed <==> Proceeds(p)
    ensures !r.proceed ==> r.history == history
  {
    if Proceeds(p) then PageResult(history + BatchOf(p.items.value), true)
    else PageResult(history, false)
  }

  /** What the loop leaves behind: the history, and how many pages it
      requested. The requests are at `offset`, `offset + 20`, ... in order,
      one per page counted. */
  datatype BackfillResult = BackfillResult(history: map<string, Draw>, pages: nat)

  /** The loop from `offset` on. */
  function Backfill(history: map<string, Draw>, upstream: nat -> Page, offset: nat): BackfillResult
    decreases OffsetCap - offset
  {
    if offset >= OffsetCap then BackfillResult(history, 0)
    else
      var step := ApplyPage(history, upstream(offset));
      if !step.proceed then BackfillResult(step.history, 1)
      else
        var rest := Backfill(step.history, upstream, offset + PageSize);
        BackfillResult(rest.history, 1 + rest.pages)
  }

  /** The offset of the k-th request of a loop started at `offset`. */
  function RequestAt(offset: nat, k: nat): nat
  {
    offset + PageSize * k
  }

  /** The first n offsets a backfill from offset 0 requests, in order. */
  function Offsets(n: nat): (r: seq<nat>)
    ensures |r| == n
  {
    if n == 0 then [] else Offsets(n - 1) + [RequestAt(0, n - 1)]
  }

  /** The k-th requested offset is 20·k. */
  lemma {:induction false} OffsetsAt(n: nat)
    ensures forall k :: 0 <= k < n ==> Offsets(n)[k] == RequestAt(0, k)
  {
    if n > 0 {
      OffsetsAt(n - 1);
    }
  }

  /** A page that does not go through is the last one requested: a loop that
      owes `Backfill(history, upstream, offset)` after `before` pages is
      done. */
  lemma BackfillHalts(final: BackfillResult, before: nat, history: map<string, Draw>,
                      upstream: nat -> Page, offset: nat)
    requires final.history == Backfill(history, upstream, offset).history
    requires final.pages == before + Backfill(history, upstream, offset).pages
    requires offset < OffsetCap && !Proceeds(upstream(offset))
    ensures final == BackfillResult(history, before + 1)
  {
  }

  /** A page that goes through is written before the loop moves on to the
      next offset. */
  lemma BackfillAdvances(final: BackfillResult, before: nat, history: map<string, Draw>,
                         upstream: nat -> Page, offset: nat, batch: map<string, Draw>)
    requires final.history == Backfill(history, upstream, offset).history
    requires final.pages == before + Backfill(history, upstream, offset).pages
    requires offset < OffsetCap && Proceeds(upstream(offset))
    requires batch == BatchOf(upstream(offset).items.value)
    ensures final.history == Backfill(history + batch, upstream, offset + PageSize).history
    ensures final.pages == before + 1 + Backfill(history + batch, upstream, offset + PageSize).pages
  {
  }

  // ---------------------------------------------------------------------
  // One page

  /** The batch holds one document per distinct draw code of the page. */
  lemma {:induction false} BatchOfKeys(items: seq<Draw>)
    requires AllCoded(items)
    ensures BatchOf(items).Keys == Codes(items)
  {
    if items != [] {
      var n := |items| - 1;
      var init, last := items[..n], items[n];
      assert AllCoded(init);
      BatchOfKeys(init);
      forall c | c in Codes(items) ensures c in Codes(init) + {Code(last)} {
        var i :| 0 <= i < |items| && Code(items[i]) == c;
        if i < n { assert init[i] == items[i]; }
      }
      forall c | c in Codes(init) ensures c in Codes(items) {
        var i :| 0 <= i < |init| && Code(init[i]) == c;
        assert items[i] == init[i];
      }
      assert Codes(items) == Codes(init) + {Code(last)};
    }
  }

  /** Where draw codes repeat within a page, the last item wins. */
  lemma {:induction false} BatchOfLastWins(items: seq<Draw>, i: nat)
    requires AllCoded(items) && i < |items| && LastOfCode(items, i)
    ensures Code(items[i]) in BatchOf(items) && BatchOf(items)[Code(items[i])] == items[i]
  {
    var n := |items| - 1;
    if i < n {
      var init, last := items[..n], items[n];
      assert AllCoded(init);
      assert init[i] == items[i];
      assert Code(last) != Code(items[i]);
      assert LastOfCode(init, i) by {
        forall j | i < j < |init| ensures Code(init[j]) != Code(init[i]) {
          assert init[j] == items[j];
        }
      }
      BatchOfLastWins(init, i);
    }
  }

  /** A page is all or nothing: either the history is left as it was and the
      loop ends, or every item is stored under its own draw code (the last one
      winning within the page), documents the page does not name keep their
      value, and the loop goes on. */
  lemma PageAllOrNothing(history: map<string, Draw>, p: Page)
    ensures var r := ApplyPage(history, p);
      || (!r.proceed && r.history == history)
      || (&& r.proceed
          && r.history.Keys == history.Keys + Codes(p.items.value)
          && (forall i :: 0 <= i < |p.items.value| && LastOfCode(p.items.value, i) ==>
                r.history[Code(p.items.value[i])] == p.items.value[i])
          && (forall k :: k in history && k !in Codes(p.items.value) ==> r.history[k] == history[k]))
  {
    if Proceeds(p) {
      var items := p.items.value;
      BatchOfKeys(items);
      forall i | 0 <= i < |items| && LastOfCode(items, i)
        ensures ApplyPage(history, p).history[Code(items[i])] == items[i]
      {
        BatchOfLastWins(items, i);
      }
    }
  }

  /** Writing a page keeps every document keyed by its own draw code. */
  lemma {:induction false} BatchKeysMatch(items: seq<Draw>)
    requires AllCoded(items)
    ensures KeysMatch(BatchOf(items))
  {
    if items != [] {
      assert AllCoded(items[..|items| - 1]);
      BatchKeysMatch(items[..|items| - 1]);
    }
  }

  // ---------------------------------------------------------------------
  // The loop

  /** From `offset`, at least one page is requested when `offset` is below
      the cap, and every page requested is below the cap. */
  lemma {:induction false} RequestsBelowCap(history: map<string, Draw>, upstream: nat -> Page, offset: nat)
    ensures var n := Backfill(history, upstream, offset).pages;
      && (offset < OffsetCap ==> n >= 1)
      && (n > 0 ==> RequestAt(offset, n - 1) < OffsetCap)
    decreases OffsetCap - offset
  {
    if offset < OffsetCap {
      var step := ApplyPage(history, upstream(offset));
      if step.proceed {
        RequestsBelowCap(step.history, upstream, offset + PageSize);
      }
    }
  }

  /** A backfill makes between one and five requests, at offsets 0, 20, 40,
      60 and 80, in that order, all below the cap of 100. */
  lemma BackfillRequestBound(history: map<string, Draw>, upstream: nat -> Page)
    ensures var n := Backfill(history, upstream, 0).pages;
      && 1 <= n <= 5
      && forall k :: 0 <= k < n ==> Offsets(n)[k] == PageSize * k < OffsetCap
  {
    RequestsBelowCap(history, upstream, 0);
    OffsetsAt(Backfill(history, upstream, 0).pages);
  }

  /** Every page requested but the last one went through, and the last one
      either did not or was the one below the cap. */
  lemma {:induction false} RequestedUntilHalt(history: map<string, Draw>, upstream: nat -> Page, offset: nat)
    ensures var n := Backfill(history, upstream, offset).pages;
      && (forall k :: 0 <= k < n - 1 ==> Proceeds(upstream(RequestAt(offset, k))))
      && (n > 0 ==> !Proceeds(upstream(RequestAt(offset, n - 1))) || RequestAt(offset, n) >= OffsetCap)
    decreases OffsetCap - offset
  {
    if offset < OffsetCap {
      var step := ApplyPage(history, upstream(offset));
      if step.proceed {
        var n := Backfill(history, upstream, offset).pages;
        RequestedUntilHalt(step.history, upstream, offset + PageSize);
        forall k | 0 <= k < n - 1 ensures Proceeds(upstream(RequestAt(offset, k))) {
          if k > 0 { assert RequestAt(offset, k) == RequestAt(offset + PageSize, k - 1); }
        }
        if n >= 2 {
          assert RequestAt(offset, n - 1) == RequestAt(offset + PageSize, n - 2);
        }
      }
    }
  }

  /** What the backfill does depends only on the responses to the pages it
      requests: after the page that stops it nothing is requested or
      written. */
  lemma {:induction false} BackfillUsesOnlyRequested(history: map<string, Draw>, upstream: nat -> Page,
                                                     other: nat -> Page, offset: nat)
    requires forall k :: 0 <= k < Backfill(history, upstream, offset).pages ==>
               upstream(RequestAt(offset, k)) == other(RequestAt(offset, k))
    ensures Backfill(history, upstream, offset) == Backfill(history, other, offset)
    decreases OffsetCap - offset
  {
    if offset < OffsetCap {
      assert upstream(RequestAt(offset, 0)) == other(RequestAt(offset, 0));
      var step := ApplyPage(history, upstream(offset));
      if step.proceed {
        var following := offset + PageSize;
        var n := Backfill(step.history, upstream, following).pages;
        forall k | 0 <= k < n
          ensures upstream(RequestAt(following, k)) == other(RequestAt(following, k))
        {
          assert RequestAt(following, k) == RequestAt(offset, k + 1);
        }
        BackfillUsesOnlyRequested(step.history, upstream, other, following);
      }
    }
  }

  /** From `offset`, when the next k pages go through and the one after them
      does not, exactly k + 1 pages are requested. */
  lemma {:induction false} HaltsAfter(history: map<string, Draw>, upstream: nat -> Page, offset: nat, k: nat)
    requires RequestAt(offset, k) < OffsetCap
    requires forall j :: 0 <= j < k ==> Proceeds(upstream(RequestAt(offset, j)))
    requires !Proceeds(upstream(RequestAt(offset, k)))
    ensures Backfill(history, upstream, offset).pages == k + 1
    decreases k
  {
    if k > 0 {
      assert Proceeds(upstream(RequestAt(offset, 0)));
      var next := ApplyPage(history, upstream(offset)).history;
      var following := offset + PageSize;
      forall j | 0 <= j < k - 1
        ensures Proceeds(upstream(RequestAt(following, j)))
      {
        assert RequestAt(following, j) == RequestAt(offset, j + 1);
      }
      assert RequestAt(following, k - 1) == RequestAt(offset, k);
      HaltsAfter(next, upstream, following, k - 1);
    }
  }

  /** From `offset`, when the next k + 1 pages go through and the cap is not
      reached, the page after them is requested too. */
  lemma {:induction false} ReachesPast(history: map<string, Draw>, upstream: nat -> Page, offset: nat, k: nat)
    requires RequestAt(offset, k + 1) < OffsetCap
    requires forall j :: 0 <= j <= k ==> Proceeds(upstream(RequestAt(offset, j)))
    ensures Backfill(history, upstream, offset).pages > k + 1
    decreases k
  {
    assert Proceeds(upstream(RequestAt(offset, 0)));
    var next := ApplyPage(history, upstream(offset)).history;
    var following := offset + PageSize;
    RequestsBelowCap(next, upstream, following);
    if k > 0 {
      forall j | 0 <= j <= k - 1
        ensures Proceeds(upstream(RequestAt(following, j)))
      {
        assert RequestAt(following, j) == RequestAt(offset, j + 1);
      }
      ReachesPast(next, upstream, following, k - 1);
    }
  }

  /** The first page that does not go through ends the backfill: with pages
      0..k-1 written and page k stopping it, exactly k + 1 requests are made,
      and the responses to later offsets do not matter. */
  lemma BackfillStopsAtFirstHalt(history: map<string, Draw>, upstream: nat -> Page, other: nat -> Page, k: nat)
    requires k < 5
    requires forall j :: 0 <= j < k ==> Proceeds(upstream(RequestAt(0, j)))
    requires !Proceeds(upstream(RequestAt(0, k)))
    requires forall j :: 0 <= j <= k ==> other(RequestAt(0, j)) == upstream(RequestAt(0, j))
    ensures Backfill(history, upstream, 0).pages == k + 1
    ensures Backfill(history, other, 0) == Backfill(history, upstream, 0)
  {
    HaltsAfter(history, upstream, 0, k);
    BackfillUsesOnlyRequested(history, upstream, other, 0);
  }

  /** A page with fewer than twenty records does not end the backfill: as long
      as every page so far went through, the next offset is requested. */
  lemma ShortPageDoesNotEndBackfill(history: map<string, Draw>, upstream: nat -> Page, k: nat)
    requires k < 4
    requires forall j :: 0 <= j < k ==> Proceeds(upstream(RequestAt(0, j)))
    requires Proceeds(upstream(RequestAt(0, k))) && |upstream(RequestAt(0, k)).items.value| < PageSize
    ensures Backfill(history, upstream, 0).pages > k + 1
  {
    ReachesPast(history, upstream, 0, k);
  }

  /** Backfilling keeps every document keyed by its own draw code. */
  lemma {:induction false} BackfillKeysMatch(history: map<string, Draw>, upstream: nat -> Page, offset: nat)
    requires KeysMatch(history)
    ensures KeysMatch(Backfill(history, upstream, offset).history)
    decreases OffsetCap - offset
  {
    if offset < OffsetCap {
      var p := upstream(offset);
      if Proceeds(p) {
        BatchKeysMatch(p.items.value);
        var next := ApplyPage(history, p).history;
        assert KeysMatch(next) by {
          forall c | c in next ensures HasCode(next[c]) && Code(next[c]) == c {
            if c !in BatchOf(p.items.value) { assert next[c] == history[c]; }
          }
        }
        BackfillKeysMatch(next, upstream, offset + PageSize);
      }
    }
  }

  /** The draw codes of the pages that went through among `n` requested
      from `offset`. */
  function WrittenCodes(upstream: nat -> Page, offset: nat, n: nat): set<string>
    decreases n
  {
    if n == 0 then {}
    else
      var p := upstream(offset);
      (if Proceeds(p) then Codes(p.items.value) else {}) + WrittenCodes(upstream, offset + PageSize, n - 1)
  }

  /** The documents after the backfill are those before it plus exactly one
      per distinct draw code of the pages that went through. */
  lemma {:induction false} BackfillKeys(history: map<string, Draw>, upstream: nat -> Page, offset: nat)
    ensures var r := Backfill(history, upstream, offset);
      r.history.Keys == history.Keys + WrittenCodes(upstream, offset, r.pages)
    decreases OffsetCap - offset
  {
    if offset < OffsetCap {
      var p := upstream(offset);
      if Proceeds(p) {
        var next := ApplyPage(history, p).history;
        BatchOfKeys(p.items.value);
        BackfillKeys(next, upstream, offset + PageSize);
      }
    }
  }
}
