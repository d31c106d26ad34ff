/** What every step of a call keeps, and what the steps of other calls cannot take away from it. */
module Ownership {
  import opened Events
  import opened StoreContracts
  import opened EventLog
  import opened Coordinator

  /** The execution of this call holds the row's current generation; a call without a key answers to no row. */
  ghost predicate Current(call: Call, row: Option<Row>) {
    call.key.None? || (call.token.Some? && row.Some? && row.value.token == call.token.value)
  }

  ghost predicate AtMostOneMore(committed: seq<Event>, events: seq<Event>) {
    committed <= events && |events| <= |committed| + 1
  }

  /** What the current execution knows about its command's events in the log. */
  ghost predicate Knows(call: Call, events: seq<Event>) {
    match call.pc
    case LookingUp(event, _) => events == call.committed || events == call.committed + [event]
    case Reconciling(_, _) => AtMostOneMore(call.committed, events)
    case Failing(_, _, _) => AtMostOneMore(call.committed, events)
    case Rereading(_, _, _) => AtMostOneMore(call.committed, events)
    case Ended(_) => AtMostOneMore(call.committed, events)
    case Crashed => AtMostOneMore(call.committed, events)
    case _ => events == call.committed
  }

  /** An error may say that the command has events only if it has, and that this call left none only if it left none. */
  ghost predicate Truthful(error: CommandError, call: Call, row: Option<Row>, events: seq<Event>) {
    && (error.committed == Yes ==> events != [])
    && (error.committed == No && Current(call, row) ==> events == [])
  }

  ghost predicate Pending(c: CommandId, call: Call, event: Event) {
    event.command == c && event.id.issuer == call.id && !HasId(call.committed, event.id)
  }

  /** None of these events was written by the call `id`. */
  ghost predicate NoneBy(events: seq<Event>, id: nat) {
    forall e :: e in events ==> e.id.issuer != id
  }

  /** The locals of a call on its way through the execution of its command. */
  ghost predicate ExecutionInv(c: CommandId, call: Call, row: Option<Row>, events: seq<Event>) {
    match call.pc
    case CheckingNew => call.committed == []
    case ReadingBack => call.committed == []
    case Renewing(event, _) => Pending(c, call, event)
    case Appending(event, _) => Pending(c, call, event)
    case LookingUp(event, failure) =>
      Pending(c, call, event) && failure.committed == Unsaid
      && (failure.code == Uncoded || failure.code == OptimisticConcurrencyConflict)
    case Recording(event) => call.committed != [] && call.committed[|call.committed| - 1] == event
    case Releasing(error) => call.committed == [] && error.committed == No
    case Reconciling(error, known) =>
      known != [] && error.committed == Yes && events != []
      && (Current(call, row) ==> known == call.committed && error.code != InterruptedAfterCommit)
    case _ => true
  }

  /** The command of the call is completed with this result. */
  ghost predicate OnRecord(call: Call, row: Option<Row>, result: Result) {
    row.Some? && row.value.status == Finished && row.value.result == Some(result) && row.value.request == call.request
  }

  /** An error on its way to the row, or already answered; a result that was answered is the one on record. */
  ghost predicate OutcomeInv(call: Call, row: Option<Row>, events: seq<Event>) {
    match call.pc
    case Failing(generation, error, _) =>
      && row.Some? && generation <= row.value.token
      && Truthful(error, call, row, events)
      && (call.token.Some? ==>
            generation == call.token.value && (Current(call, row) ==> error.code != InterruptedAfterCommit))
      && (call.token.None? ==> error.committed == Yes && error.code == HistoryInconsistent)
    case Rereading(generation, error, _) =>
      && row.Some? && Truthful(error, call, row, events)
      && (call.token.Some? ==> generation == call.token.value)
    case Ended(Thrown(error)) => Truthful(error, call, row, events)
    case Ended(Answer(result)) =>
      call.key.Some? ==> OnRecord(call, row, result)
    case _ => true
  }

  /** Within one generation a row only moves forward: processing, then finished or failed, then released. */
  function Rank(status: Status): nat {
    match status case Processing => 0 case Finished => 1 case Failed => 1 case Released => 2
  }

  /** A row read earlier, against the row as it is now. */
  ghost predicate Observed(record: Row, call: Call, row: Option<Row>, events: seq<Event>) {
    && row.Some?
    && record.request == row.value.request == call.request
    && record.token <= row.value.token
    && (record.token == row.value.token ==> Rank(record.status) <= Rank(row.value.status))
    && (record.error.Some? && record.error.value.committed == Yes ==> events != [])
    && (record.status == Failed ==> record.error.Some?)
    && (record.status == Finished ==> row.value == record)
  }

  /** The locals of a call that resolves an existing row. */
  ghost predicate ResolutionInv(call: Call, row: Option<Row>, events: seq<Event>) {
    match call.pc
    case Resolving(record) => Observed(record, call, row, events)
    case Verifying(record, known) =>
      Observed(record, call, row, events) && record.status == Finished && (known != [] ==> events != [])
      && record.result.Some?
    case TakingOver(record) => Observed(record, call, row, events) && record.status == Processing
    case Revoking(record, known) =>
      Observed(record, call, row, events) && record.status == Processing && known != [] && events != []
    case Refetching => row.Some? && row.value.request == call.request
    case ReleasingFailed(record) =>
      Observed(record, call, row, events) && record.status == Failed
      && ReconcilableUnknown(record.error.value.code)
      && (row.value.token == record.token ==> events == [])
    case ReconcilingFailure(record, known) =>
      Observed(record, call, row, events) && record.status == Failed && known != [] && events != []
      && (row.value.token == record.token ==> known == events)
    case _ => true
  }

  predicate Resolves(pc: Pc) {
    pc.Reserving? || pc.Resolving? || pc.Verifying? || pc.TakingOver? || pc.Revoking? || pc.Refetching?
    || pc.ReleasingFailed? || pc.ReconcilingFailure?
  }

  predicate Executes(pc: Pc) {
    pc.CheckingNew? || pc.ReadingBack? || pc.Running? || pc.Renewing? || pc.Appending? || pc.LookingUp? || pc.Recording?
    || pc.Completing? || pc.Releasing? || pc.Reconciling?
  }

  /** The recorded range of the current, processing generation follows the execution. */
  ghost predicate Bookkept(c: CommandId, call: Call, row: Option<Row>) {
    call.key.Some? && Current(call, row) && row.value.status == Processing ==>
      match call.pc
      case Recording(_) =>
        call.committed != [] && Covers(c, row.value.range, call.committed[..|call.committed| - 1])
      case Releasing(_) => true
      case Reconciling(_, _) => true
      case pc => Executes(pc) ==> Covers(c, row.value.range, call.committed)
  }

  ghost predicate HolderInv(c: CommandId, call: Call, row: Option<Row>, events: seq<Event>) {
    && (call.key.None? ==>
          row.None? && c.Operation? && call.token.None? && !Resolves(call.pc) && !call.pc.Failing?
          && !call.pc.Rereading? && !call.pc.Reconciling? && !call.pc.CheckingNew? && !call.pc.ReadingBack?
          && !call.pc.Renewing? && !call.pc.Recording? && !call.pc.Completing?
          && !call.pc.Releasing?)
    && (call.key.Some? && call.token.None? ==> call.committed == [] && !Executes(call.pc))
    && (call.token.Some? ==>
          && !Resolves(call.pc)
          && row.Some? && row.value.request == call.request && 1 <= call.token.value <= row.value.token
          && (!Current(call, row) ==> call.committed == []))
    && (if Current(call, row) then Knows(call, events) else NoneBy(events, call.id))
    && (call.key.Some? ==> c.Key?)
  }

  ghost predicate CallInv(c: CommandId, call: Call, row: Option<Row>, events: seq<Event>) {
    && HolderInv(c, call, row, events)
    && Bookkept(c, call, row)
    && ExecutionInv(c, call, row, events)
    && OutcomeInv(call, row, events)
    && ResolutionInv(call, row, events)
  }

  /** The recorded range is the full list of the command's events, or all but the last. */
  ghost predicate Lags(c: CommandId, range: Option<Range>, events: seq<Event>) {
    Covers(c, range, events) || (events != [] && Covers(c, range, events[..|events| - 1]))
  }

  ghost predicate RowInv(c: CommandId, row: Row, events: seq<Event>) {
    && row.token >= 1
    && Lags(c, row.range, events)
    && (row.status != Processing ==> row.owner.None? && row.deadline.None?)
    && (row.error.Some? && row.error.value.committed == Yes ==> events != [])
    && match row.status
       case Processing => row.error.None?
       case Finished => row.error.None? && Covers(c, row.range, events) && row.result.Some?
       case Released => events == []
       case Failed =>
         && row.error.Some?
         && (row.error.value.committed == No ==> events == [])
         && (row.error.value.code == InterruptedAfterCommit ==> Covers(c, row.range, events))
  }

  /** A keyed command without a row has no events. */
  ghost predicate CommandInv(c: CommandId, row: Option<Row>, events: seq<Event>) {
    match row
    case None => c.Key? ==> events == []
    case Some(r) => c.Key? && RowInv(c, r, events)
  }

  /** What any step may do to a command's row and events, given the stepping call and the generation it holds. */
  ghost predicate Rely(row: Option<Row>, events: seq<Event>, row': Option<Row>, events': seq<Event>,
                       mover: Option<nat>, id: nat)
  {
    && (row.None? ==> events' == events && (row'.Some? ==> row'.value.token == 1))
    && (row.Some? ==>
          && row'.Some?
          && row'.value.request == row.value.request
          && row.value.token <= row'.value.token
          && (row.value.token < row'.value.token ==> events == events' == [])
          && (row.value.token == row'.value.token ==> SameGeneration(row.value, events, row'.value, events', mover, id))
          && (row.value.status == Finished ==> row' == row))
  }

  ghost predicate SameGeneration(row: Row, events: seq<Event>, row': Row, events': seq<Event>,
                                 mover: Option<nat>, id: nat)
  {
    && Rank(row.status) <= Rank(row'.status)
    && events <= events' && (forall k :: |events| <= k < |events'| ==> events'[k].id.issuer == id)
    && (events' != events ==> row.status == Processing == row'.status && mover == Some(row.token))
    && (row'.status == Processing && mover != Some(row.token) ==> row'.range == row.range)
  }

  /** The steps of another call cannot invalidate what a call relies on. */
  lemma OthersKeepCall(c: CommandId, call: Call, row: Option<Row>, events: seq<Event>,
                       row': Option<Row>, events': seq<Event>, mover: Option<nat>, id: nat)
    requires call.key.Some? && CallInv(c, call, row, events)
    requires Rely(row, events, row', events', mover, id) && id != call.id
    requires call.token.Some? ==> mover != call.token
    ensures CallInv(c, call, row', events')
  {
  }
}
