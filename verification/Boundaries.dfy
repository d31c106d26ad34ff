/** Where a plausible stronger statement fails, and exactly when: answers and refusals that mean less than they seem. */
module Boundaries {
  import opened Events
  import opened StoreContracts
  import opened CommandRows
  import opened Receipts
  import opened Coordinator

  /** A retry that challenges an unchanged row with events is told that the command is in progress, and that nothing was
      committed, exactly while the lease runs: `No` is said of the call, although the command has events. */
  lemma InProgressIsSaidOfTheCall(c: CommandId, call: Call, s: Shared, ch: Choice)
    requires call.pc.Revoking? && s.row == Some(call.pc.record) && ch.fault == Faultless
    requires s.row.value.status == Processing && s.row.value.token > 0 && BuildRange(c, EventsOf(s, c)).Some?
    ensures EventsOf(s, c) != []
    ensures StepRevoking(c, call, s, ch).0.pc == Ended(Thrown(Plain(CommandInProgress, No))) <==>
            !Expired(s.row.value, ch.now)
  {
  }

  /** With exact bookkeeping a resolving retry is answered the inconsistency error exactly if the row was read as
      released, or had that error on record: row and log agree, and the answer says they do not. */
  lemma ReleasedReadsEndInconsistent(c: CommandId, call: Call, record: Row, events: seq<Event>)
    requires Covers(c, record.range, events) && !call.pc.Ended?
    requires record.status == Finished && events == [] ==> EventlessCompensation(record, events)
    requires record.status == Failed ==> record.error.Some?
    ensures SaysInconsistent(Resolve(c, call, record, events)) <==>
            || record.status == Released
            || (record.status == Failed && record.error.value.code == HistoryInconsistent)
    ensures SaysInconsistent(Resolve(c, call, record, events)) ==>
              Resolve(c, call, record, events).pc.outcome
              == Thrown(if record.status == Released then Inconsistent(HistoryInconsistent, events)
                        else record.error.value)
  {
  }

  predicate SaysInconsistent(call: Call) {
    call.pc.Ended? && call.pc.outcome.Thrown? && call.pc.outcome.error.code == HistoryInconsistent
  }

  /** An eventless processing row is challenged exactly if it has a deadline, while the store would also hand over one
      that has none, at any clock. */
  lemma UndatedRowsAreNotChallenged(c: CommandId, call: Call, record: Row, challenger: string, ttl: int, now: int)
    requires record.status == Processing && record.range.None? && !call.pc.TakingOver?
    ensures Resolve(c, call, record, []).pc.TakingOver? <==> record.deadline.Some?
    ensures record.deadline.None? ==>
              Resolve(c, call, record, []).pc == Ended(Thrown(Plain(CommandInProgress, No)))
    ensures record.deadline.None? && challenger != "" && LeaseDeadline(now, ttl).Some? ==>
              var answer := TakeOver(Some(record), [], challenger, ttl, Some(record.token), now).1;
              answer.Done? && answer.value.Granted?
  {
  }

  /** Bookkeeping of one more committed event is accepted exactly if it keeps the command's events contiguous; the
      append has been committed by then. */
  lemma BookkeepingRefusesExactlyBreaks(row: Row, c: CommandId, prior: seq<Event>, event: Event)
    requires row.status == Processing && Covers(c, row.range, prior)
    requires event.command == c && PositiveSafe(event.sequence)
    ensures Record(Some(row), c, event, Some(row.token)).1.Done? <==> Contiguous(c, prior + [event])
  {
    var events := prior + [event];
    assert events[|prior|] == event && forall i :: 0 <= i < |prior| ==> events[i] == prior[i];
    if prior != [] {
      assert events[0] == prior[0] && row.range.value.last == prior[0].sequence + |prior| - 1;
    }
  }

  /** The row, as it was read, agrees with the command's events in the log. */
  predicate Agrees(c: CommandId, record: Row, events: seq<Event>) {
    match record.status
    case Finished => EventlessCompensation(record, events) || (events != [] && Covers(c, record.range, events))
    case Processing => events != [] || record.range.None?
    case Failed =>
      if record.error.Some? && ReconcilableUnknown(record.error.value.code) then events == [] || Contiguous(c, events)
      else Covers(c, record.range, events)
    case Released => false
  }

  /** A retry whose reads disagree is told so, with the events that are in the log and whether there are any; one whose
      reads agree is not, unless that is the error on record. */
  lemma DisagreementIsTold(c: CommandId, call: Call, record: Row, events: seq<Event>)
    requires !call.pc.Ended? && (record.status == Failed ==> record.error.Some?)
    ensures !Agrees(c, record, events) ==>
              Resolve(c, call, record, events).pc
              == Ended(Thrown(CommandError(HistoryInconsistent, if events == [] then No else Yes, Ids(events))))
    ensures Agrees(c, record, events) && SaysInconsistent(Resolve(c, call, record, events)) ==>
              record.status == Failed && Resolve(c, call, record, events).pc.outcome == Thrown(record.error.value)
  {
  }

  /** A completed row whose receipt does not hold is told as such, and not answered. */
  lemma RefusedReceiptsAreTold(call: Call, s: Shared, ch: Choice)
    requires call.pc.Verifying? && (ch.readFails || !ReceiptHolds(call.pc.record, s.log))
    ensures StepVerifying(call, s, ch).pc
            == Ended(Thrown(CommandError(ReceiptInconsistent, if call.pc.events == [] then No else Yes,
                                         Ids(call.pc.events))))
  {
  }
}
