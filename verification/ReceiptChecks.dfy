/** What the checks of results and receipts accept, and that they refuse everything else. */
module ReceiptChecks {
  import opened Events
  import opened Projection
  import opened Histories
  import opened StoreContracts
  import opened Replay
  import opened Receipts

  /** A non-empty known history that projects: numbered from one, with the version and the aggregate to match. */
  lemma KnownProjects(log: seq<Event>, aggregate: int, length: nat)
    requires 0 < length <= |Known(log, aggregate)| && Project(Known(log, aggregate)[..length]).Returns?
    ensures var state := Project(Known(log, aggregate)[..length]).state;
            state.Some? && state.value.version == length && state.value.aggregate == aggregate
  {
    var known := Known(log, aggregate);
    SelectMembers(log, OfAggregate(aggregate), known[0]);
    AcceptedIffLawful(known[..length]);
  }

  /** A result is accepted exactly if its state is the replay of its aggregate's whole history; the anchor then names
      that history's last event. */
  lemma ResultsAreValidatedExactly(result: Result, log: seq<Event>)
    requires WellFormedLog(log)
    ensures var known := Known(log, result.aggregate);
            ValidateResult(result, log)
            == if Project(known) != Returns(result.state) then Refused
               else if known == [] then Anchored(None)
               else Anchored(Some(Anchor(result.aggregate, |known|, Some(known[|known| - 1].id))))
  {
    var known := Known(log, result.aggregate);
    if known != [] && Project(known) == Returns(result.state) {
      assert known[..|known|] == known && Dense(known);
      KnownProjects(log, result.aggregate, |known|);
      FindSequenceDense(known, 1, |known|);
    }
  }

  /** The receipt says whether the command had events, and they lie within the history it is anchored in. */
  predicate EffectFits(receipt: Receipt, range: Option<Range>) {
    match receipt.effect
    case EffectEvents =>
      range.Some? && receipt.anchor.Some? && receipt.anchor.value.aggregate == range.value.aggregate
      && range.value.last <= receipt.anchor.value.sequence
    case EffectNone => range.None?
  }

  /** The result is what the first `a.sequence` events of its aggregate make of it, and the anchor names the last of
      them; before the first event that is the initial state. */
  predicate ReadAt(result: Result, a: Anchor, known: seq<Event>) {
    && a.aggregate == result.aggregate && 0 <= a.sequence <= |known| && known != []
    && (if a.sequence == 0 then result.state == Some(InitialState(a.aggregate))
        else Project(known[..a.sequence]) == Returns(result.state)
             && a.lastEventId == Some(known[a.sequence - 1].id))
    && (result.snapshot.Some? ==>
          result.snapshot.value == Snapshot(a.aggregate, a.sequence, a.lastEventId, result.state))
  }

  predicate Substantiated(row: Row, log: seq<Event>) {
    && row.receipt.Some? && ValidReceipt(row.receipt.value) && row.result.Some?
    && EffectFits(row.receipt.value, row.range)
    && match row.receipt.value.anchor
       case None => row.result.value.state.None? && row.result.value.snapshot.None?
       case Some(a) => ReadAt(row.result.value, a, Known(log, row.result.value.aggregate))
  }

  /** The two checks of a retry accept exactly the substantiated receipts: one with another state, another anchor,
      another snapshot, or events it does not own up to, is refused. */
  lemma ReceiptsAreCheckedExactly(row: Row, log: seq<Event>)
    requires WellFormedLog(log)
    ensures ReceiptHolds(row, log) <==> Substantiated(row, log)
  {
    if row.receipt.Some? && ValidReceipt(row.receipt.value) && row.result.Some?
       && row.receipt.value.anchor.Some? && row.receipt.value.anchor.value.aggregate == row.result.value.aggregate
    {
      AnchorsAreCheckedExactly(row.result.value, row.receipt.value.anchor.value, log);
    }
  }

  predicate AnchorChecked(result: Result, a: Anchor, log: seq<Event>) {
    && result.state.Some? && result.state.value.aggregate == a.aggregate && result.state.value.version == a.sequence
    && (a.sequence == 0 ||
        var event := FindSequence(Known(log, a.aggregate), a.sequence);
        event.Some? && Some(event.value.id) == a.lastEventId)
    && HistoryHolds(result, Some(a), log)
  }

  lemma AnchorsAreCheckedExactly(result: Result, a: Anchor, log: seq<Event>)
    requires WellFormedLog(log) && ValidAnchor(a) && a.aggregate == result.aggregate
    ensures AnchorChecked(result, a, log) <==> ReadAt(result, a, Known(log, a.aggregate))
  {
    var known := Known(log, a.aggregate);
    assert Dense(known) && known[..|known|] == known;
    FindSequenceDense(known, 1, a.sequence);
    UpToIsPrefix(known, a.sequence);
    if 0 < a.sequence <= |known| && Project(known[..a.sequence]).Returns? {
      KnownProjects(log, a.aggregate, a.sequence);
    }
  }
}
