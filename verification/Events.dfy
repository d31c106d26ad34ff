/** Domain events, their identifiers, and order-preserving selections of an event log. */
module Events {

  datatype Option<+T> = None | Some(value: T)

  /** The largest integer the source's number type represents safely (2^53 - 1). */
  const MAX_SAFE: int := 9007199254740991

  predicate PositiveSafe(n: int) {
    0 < n <= MAX_SAFE
  }

  /** A client's idempotency key; the stores reject an empty one before anything else. */
  type CommandKey = key: string | key != "" witness "key"

  /** The command an event belongs to: an idempotency key chosen by a client, or the
      operation id generated for one call that carries no key. */
  datatype CommandId = Key(key: CommandKey) | Operation(call: nat)

  /** What happened: the seven event types with their payloads. */
  datatype Fact =
    | OrderCreated(item: string, quantity: int)
    | InventoryReserved(reservationId: int, item: string, quantity: int)
    | PaymentCharged(paymentId: int, amount: real)
    | PaymentRefunded(paymentId: int, reason: Option<string>)
    | InventoryReleased(reservationId: int, reason: Option<string>)
    | OrderRolledBack(reason: Option<string>)
    | OrderDeleted(reason: Option<string>)

  /** A generated id: generators are fresh, so an id can name the call that drew it. */
  datatype EventId = EventId(issuer: nat, number: nat)

  datatype Event = Event(
    id: EventId,
    aggregate: int,
    sequence: int,
    timestamp: int,
    fact: Fact,
    command: CommandId)

  predicate ValidReason(reason: Option<string>) {
    reason.Some? ==> reason.value != ""
  }

  /** The payload shape each event type requires. */
  predicate ValidFact(fact: Fact) {
    match fact
    case OrderCreated(item, quantity) => item != "" && PositiveSafe(quantity)
    case InventoryReserved(id, item, quantity) => PositiveSafe(id) && item != "" && PositiveSafe(quantity)
    case PaymentCharged(id, amount) => PositiveSafe(id) && amount > 0.0
    case PaymentRefunded(id, reason) => PositiveSafe(id) && ValidReason(reason)
    case InventoryReleased(id, reason) => PositiveSafe(id) && ValidReason(reason)
    case OrderRolledBack(reason) => ValidReason(reason)
    case OrderDeleted(reason) => ValidReason(reason)
  }

  predicate ValidEvent(e: Event) {
    PositiveSafe(e.aggregate) && PositiveSafe(e.sequence) && ValidFact(e.fact)
  }

  /** Which events a secondary index of the log holds. */
  datatype Index = OfAggregate(aggregate: int) | OfCommand(command: CommandId)

  predicate Matches(e: Event, index: Index) {
    match index
    case OfAggregate(a) => e.aggregate == a
    case OfCommand(c) => e.command == c
  }

  /** The events of `log` that `index` holds, in log order. */
  function Select(log: seq<Event>, index: Index): (r: seq<Event>)
    ensures |r| <= |log|
  {
    if log == [] then [] else
      var rest := Select(log[..|log| - 1], index);
      if Matches(log[|log| - 1], index) then rest + [log[|log| - 1]] else rest
  }

  lemma SelectAppend(log: seq<Event>, e: Event, index: Index)
    ensures Select(log + [e], index) ==
            if Matches(e, index) then Select(log, index) + [e] else Select(log, index)
  {
    assert (log + [e])[..|log|] == log;
  }

  /** Growing the log only ever appends to what an index holds. */
  lemma {:induction false} SelectPrefix(log: seq<Event>, longer: seq<Event>, index: Index)
    requires log <= longer
    ensures Select(log, index) <= Select(longer, index)
  {
    if log == longer {
    } else {
      var shorter := longer[..|longer| - 1];
      SelectPrefix(log, shorter, index);
      SelectAppend(shorter, longer[|longer| - 1], index);
      assert longer == shorter + [longer[|longer| - 1]];
    }
  }

  /** An index holds exactly the log's matching events. */
  lemma {:induction false} SelectMembers(log: seq<Event>, index: Index, e: Event)
    ensures e in Select(log, index) <==> e in log && Matches(e, index)
  {
    if log == [] {
    } else {
      var shorter := log[..|log| - 1];
      SelectMembers(shorter, index, e);
      assert log == shorter + [log[|log| - 1]];
      SelectAppend(shorter, log[|log| - 1], index);
    }
  }

  /** Sequence numbers 1, 2, 3, ... without a gap. */
  ghost predicate Dense(events: seq<Event>) {
    forall k :: 0 <= k < |events| ==> events[k].sequence == k + 1
  }

  /** Timestamps never move backwards. */
  ghost predicate Chronological(events: seq<Event>) {
    forall j, k :: 0 <= j < k < |events| ==> events[j].timestamp <= events[k].timestamp
  }

  ghost predicate DistinctIds(events: seq<Event>) {
    forall j, k :: 0 <= j < k < |events| ==> events[j].id != events[k].id
  }

  /** What every log built by accepted appends satisfies. */
  ghost predicate WellFormedLog(log: seq<Event>) {
    && (forall a :: Dense(Select(log, OfAggregate(a))) && Chronological(Select(log, OfAggregate(a))))
    && DistinctIds(log)
  }
}
