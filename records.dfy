// The values the sync job moves between the lottery-results API and the
// document store: draw records, log events, and the store's history map.

module Records {

  datatype Option<+T> = None | Some(value: T)

  /** Every field of a draw record except its draw code. The job copies them
      verbatim and never looks inside. */
  type Fields = map<string, string>

  /** A draw record as the API returns it. `drawCode` is None when the
      `draw_code` field is missing. */
  datatype Draw = Draw(drawCode: Option<string>, fields: Fields)

  /** The record's draw code is present and truthy (a non-empty string). This is
      both what the latest check accepts and what a document id accepts. */
  predicate HasCode(d: Draw)
  {
    d.drawCode.Some? && d.drawCode.value != ""
  }

  function Code(d: Draw): (c: string)
    requires HasCode(d)
    ensures c != "" && d.drawCode == Some(c)
  {
    d.drawCode.value
  }

  /** The value the store substitutes with its own clock when the log entry is
      written; the job only ever writes this sentinel. */
  datatype TimeToken = ServerTimestamp

  /** One entry of the append-only `logs` collection. */
  datatype LogEntry = LogEntry(event: string, code: string, time: TimeToken)

  const NewDrawEvent: string := "NEW_DRAW"

  /** The `history` collection: every document is keyed by its own draw code. */
  predicate KeysMatch(history: map<string, Draw>)
  {
    forall k :: k in history ==> HasCode(history[k]) && Code(history[k]) == k
  }
}
