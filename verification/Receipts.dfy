/** Completed receipts: how one is built, how a retry checks it, and why it stays valid while the log grows. */
module Receipts {
  import opened Events
  import opened Projection
  import opened StoreContracts
  import opened Replay

  function Known(log: seq<Event>, aggregate: int): seq<Event> {
    Select(log, OfAggregate(aggregate))
  }

  /** The first event with this sequence number. */
  function FindSequence(known: seq<Event>, sequence: int): Option<Event> {
    if known == [] then None
    else if known[0].sequence == sequence then Some(known[0])
    else FindSequence(known[1..], sequence)
  }

  lemma {:induction false} FindSequenceDense(known: seq<Event>, from: int, sequence: int)
    requires forall k :: 0 <= k < |known| ==> known[k].sequence == from + k
    ensures FindSequence(known, sequence) ==
            if from <= sequence < from + |known| then Some(known[sequence - from]) else None
  {
    if known != [] {
      FindSequenceDense(known[1..], from + 1, sequence);
    }
  }

  /** What validating a result answers: the anchor to store with it, or a throw. */
  datatype Validation = Refused | Anchored(anchor: Option<Anchor>)

  /** The result's state must be the authoritative one; the anchor names the history it was read from. */
  function ValidateResult(result: Result, log: seq<Event>): Validation {
    var known := Known(log, result.aggregate);
    var replayed := Project(known);
    if replayed.Throws? || replayed.state != result.state then Refused
    else if result.state.None? then Anchored(None)
    else
      var sequence := result.state.value.version;
      var lastEvent := FindSequence(known, sequence);
      if sequence < 0 || (sequence > 0 && lastEvent.None?) then Refused
      else Anchored(Some(Anchor(result.state.value.aggregate, sequence,
                                if sequence == 0 then None else Some(lastEvent.value.id))))
  }

  function MakeReceipt(committed: seq<Event>, anchor: Option<Anchor>): Receipt {
    Receipt(1, if committed != [] then EffectEvents else EffectNone, anchor)
  }

  /** The envelope check of a completed row: no projection runs, only the anchor's identity is looked up. */
  predicate EnvelopeHolds(row: Row, log: seq<Event>) {
    && row.receipt.Some? && ValidReceipt(row.receipt.value) && row.result.Some?
    && var anchor := row.receipt.value.anchor;
       var result := row.result.value;
       && (match row.receipt.value.effect
           case EffectEvents =>
             && row.range.Some? && anchor.Some?
             && anchor.value.aggregate == row.range.value.aggregate
             && anchor.value.sequence >= row.range.value.last
           case EffectNone => row.range.None?)
       && (match anchor
           case None => result.state.None?
           case Some(a) =>
             && result.aggregate == a.aggregate
             && result.state.Some?
             && result.state.value.aggregate == a.aggregate
             && result.state.value.version == a.sequence
             && (a.sequence == 0 ||
                 var event := FindSequence(Known(log, a.aggregate), a.sequence);
                 event.Some? && Some(event.value.id) == a.lastEventId))
  }

  /** The state check of a completed row: historical replay at the anchor, bypassing views and snapshots. */
  predicate HistoryHolds(result: Result, anchor: Option<Anchor>, log: seq<Event>) {
    match anchor
    case None => result.state.None? && result.snapshot.None?
    case Some(a) =>
      && a.sequence >= 0
      && AtSequence(a.aggregate, Known(log, a.aggregate), a.sequence) == Returns(result.state)
      && (result.snapshot.Some? ==>
            && result.snapshot.value.aggregate == a.aggregate
            && result.snapshot.value.version == a.sequence
            && result.snapshot.value.lastEventId == a.lastEventId
            && result.snapshot.value.state == result.state)
  }

  predicate ReceiptHolds(row: Row, log: seq<Event>) {
    EnvelopeHolds(row, log) && HistoryHolds(row.result.value, row.receipt.value.anchor, log)
  }

  /** The snapshot an engine takes of an accepted, non-empty history. */
  function SnapshotOf(known: seq<Event>): Snapshot
    requires known != [] && Project(known).Returns?
  {
    var s := Project(known).state;
    Snapshot(known[0].aggregate, |known|, Some(known[|known| - 1].id), s)
  }

  /** The command answered with the state of its aggregate's first `stateAt` events, optionally with a snapshot
      taken later, of the first `snapshotAt` events. */
  ghost predicate ReadFrom(result: Result, known: seq<Event>, stateAt: nat, snapshotAt: nat) {
    && 0 < stateAt <= snapshotAt <= |known|
    && Project(known[..stateAt]).Returns? && Project(known[..snapshotAt]).Returns?
    && Project(known[..stateAt]) == Returns(result.state)
    && (result.snapshot.Some? ==> result.snapshot.value == SnapshotOf(known[..snapshotAt]))
  }
}
