/** Rows, ranges, receipts, errors and lease deadlines: the vocabulary the coordinator shares with its stores. */
module StoreContracts {
  import opened Events
  import opened Projection

  datatype Status = Processing | Finished | Failed | Released

  /** The events a command is known to have written: a contiguous run of one aggregate. */
  datatype Range = Range(aggregate: int, first: int, last: int, ids: seq<EventId>)

  datatype Anchor = Anchor(aggregate: int, sequence: int, lastEventId: Option<EventId>)
  datatype DomainEffect = EffectEvents | EffectNone
  datatype Receipt = Receipt(contractVersion: int, effect: DomainEffect, anchor: Option<Anchor>)

  datatype Snapshot = Snapshot(aggregate: int, version: int, lastEventId: Option<EventId>, state: Option<State>)

  /** What a command answers: `events` is present only for the command types that return a list of them. */
  datatype Result = Result(aggregate: int, state: Option<State>, events: Option<seq<Event>>, snapshot: Option<Snapshot>)

  datatype Code =
    | IdempotencyKeyConflict | CommandInProgress | PartiallyCommitted | HistoryInconsistent | ReceiptInconsistent
    | InterruptedAfterCommit | StatePersistenceFailed | AppendCommitUnknown | ReconciliationFailed
    | FencingTokenStale | FencingTokenRequired | FencingContextInvalid | LeaseExpired
    | OptimisticConcurrencyConflict | AggregateNotFound | CompensationRequired | ViewRepairFailed
    | Uncoded

  /** What an error says about commitment. `Unsaid` stands for null and for an absent field. */
  datatype Committed = Yes | No | Unsaid

  datatype CommandError = CommandError(code: Code, committed: Committed, eventIds: seq<EventId>)

  datatype CommandType = Checkout | CreateOrder | DeleteOrder | CompensateOrder

  /** The request a key stands for: its type and a fingerprint of its payload. */
  datatype Request = Request(commandType: CommandType, payload: string)

  datatype Row = Row(
    request: Request,
    status: Status,
    aggregate: Option<int>,
    range: Option<Range>,
    result: Option<Result>,
    receipt: Option<Receipt>,
    error: Option<CommandError>,
    owner: Option<string>,
    token: nat,
    deadline: Option<int>)

  predicate ValidTtl(ttl: int) {
    PositiveSafe(ttl)
  }

  /** The deadline a store may persist, or None where the source throws. */
  function LeaseDeadline(now: int, ttl: int): Option<int> {
    if ValidTtl(ttl) && -MAX_SAFE <= now + ttl <= MAX_SAFE then Some(now + ttl) else None
  }

  predicate ValidAnchor(a: Anchor) {
    PositiveSafe(a.aggregate) && 0 <= a.sequence <= MAX_SAFE && (a.sequence == 0 <==> a.lastEventId.None?)
  }

  predicate ValidReceipt(r: Receipt) {
    r.contractVersion == 1 && (r.anchor.Some? ==> ValidAnchor(r.anchor.value))
  }

  function Ids(events: seq<Event>): seq<EventId> {
    seq(|events|, i requires 0 <= i < |events| => events[i].id)
  }

  /** All events are of command `c`, on one aggregate, with consecutive sequence numbers. */
  predicate Contiguous(c: CommandId, events: seq<Event>) {
    events != [] &&
    forall i :: 0 <= i < |events| ==>
      events[i].command == c && events[i].aggregate == events[0].aggregate
      && events[i].sequence == events[0].sequence + i
  }

  /** The range of a non-empty list of events. */
  function RangeOf(events: seq<Event>): Range
    requires events != []
  {
    Range(events[0].aggregate, events[0].sequence, events[|events| - 1].sequence, Ids(events))
  }

  /** `buildEventRange`: the range of a contiguous list with positive sequence numbers, or None where it throws. */
  function BuildRange(c: CommandId, events: seq<Event>): Option<Range> {
    if Contiguous(c, events) && (forall i :: 0 <= i < |events| ==> PositiveSafe(events[i].sequence))
    then Some(RangeOf(events)) else None
  }

  /** The recorded range names exactly these events. */
  predicate RangeMatches(c: CommandId, range: Option<Range>, events: seq<Event>) {
    range.Some? && Contiguous(c, events) && range.value == RangeOf(events)
  }

  /** The bookkeeping of a command that has written `events`: no range for none, their range otherwise. */
  predicate Covers(c: CommandId, range: Option<Range>, events: seq<Event>) {
    if events == [] then range.None? else RangeMatches(c, range, events)
  }

  function Failure(code: Code, committed: Committed, events: seq<Event>): CommandError {
    CommandError(code, committed, Ids(events))
  }

  function Plain(code: Code, committed: Committed): CommandError {
    CommandError(code, committed, [])
  }

  /** The inconsistency error says committed exactly when it was given events. */
  function Inconsistent(code: Code, events: seq<Event>): CommandError {
    Failure(code, if events == [] then No else Yes, events)
  }

  function Interrupted(events: seq<Event>): CommandError {
    Failure(InterruptedAfterCommit, Yes, events)
  }

  function Stale(): CommandError {
    Plain(FencingTokenStale, No)
  }
}
