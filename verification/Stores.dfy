/** The in-memory command store and event store, wired to each other. */
module Stores {
  import opened Events
  import opened StoreContracts
  import opened CommandRows
  import opened EventLog

  function Lookup(commands: map<CommandKey, Row>, key: CommandKey): Option<Row> {
    if key in commands then Some(commands[key]) else None
  }

  /** A mutation of `key` stored `row` and left every other command alone. */
  ghost predicate Stored(before: map<CommandKey, Row>, after: map<CommandKey, Row>, key: CommandKey, row: Option<Row>) {
    after == if row.Some? then before[key := row.value] else before
  }

  function ListOf<K>(lists: map<K, seq<Event>>, key: K): seq<Event> {
    if key in lists then lists[key] else []
  }

  ghost predicate ListsAggregates(lists: map<int, seq<Event>>, events: seq<Event>) {
    forall a :: ListOf(lists, a) == Select(events, OfAggregate(a))
  }

  ghost predicate ListsCommands(lists: map<CommandId, seq<Event>>, events: seq<Event>) {
    forall c :: ListOf(lists, c) == Select(events, OfCommand(c))
  }

  ghost predicate ListsIds(ids: set<EventId>, events: seq<Event>) {
    forall n :: n in ids <==> HasId(events, n)
  }

  lemma ListsAggregatesAppend(lists: map<int, seq<Event>>, events: seq<Event>, e: Event)
    requires ListsAggregates(lists, events)
    ensures ListsAggregates(lists[e.aggregate := ListOf(lists, e.aggregate) + [e]], events + [e])
  {
    forall a ensures ListOf(lists[e.aggregate := ListOf(lists, e.aggregate) + [e]], a)
                     == Select(events + [e], OfAggregate(a))
    {
      SelectAppend(events, e, OfAggregate(a));
    }
  }

  lemma ListsCommandsAppend(lists: map<CommandId, seq<Event>>, events: seq<Event>, e: Event)
    requires ListsCommands(lists, events)
    ensures ListsCommands(lists[e.command := ListOf(lists, e.command) + [e]], events + [e])
  {
    forall c ensures ListOf(lists[e.command := ListOf(lists, e.command) + [e]], c)
                     == Select(events + [e], OfCommand(c))
    {
      SelectAppend(events, e, OfCommand(c));
    }
  }

  lemma ListsIdsAppend(ids: set<EventId>, events: seq<Event>, e: Event)
    requires ListsIds(ids, events)
    ensures ListsIds(ids + {e.id}, events + [e])
  {
    assert (events + [e])[|events|] == e;
    assert forall i :: 0 <= i < |events| ==> (events + [e])[i] == events[i];
  }

  class InMemoryEventStore {
    var events: seq<Event>
    var byAggregate: map<int, seq<Event>>
    var ids: set<EventId>
    var byCommand: map<CommandId, seq<Event>>
    var commandStore: InMemoryCommandStore?

    /** The four indexes agree: each list is the order-preserving selection of the global one. */
    ghost predicate Valid()
      reads this
    {
      && WellFormedLog(events)
      && ListsAggregates(byAggregate, events)
      && ListsCommands(byCommand, events)
      && ListsIds(ids, events)
    }

    constructor ()
      ensures Valid() && events == [] && commandStore == null
    {
      events, byAggregate, ids, byCommand, commandStore := [], map[], {}, map[], null;
    }

    method SetCommandStore(store: InMemoryCommandStore)
      modifies this`commandStore
      ensures commandStore == store
    {
      commandStore := store;
    }

    /** What the command row says about an append of `event` under `token`. */
    function Fencing(event: Event, token: Option<nat>): Option<CommandError>
      reads this, commandStore
    {
      if commandStore == null then None
      else match event.command
        case Key(key) => FencingError(Lookup(commandStore.commands, key), token)
        case Operation(_) => FencingError(None, token)
    }

    /** Everything an append verifies before it touches the log. */
    method CheckAppend(event: Event, expectedVersion: int, token: Option<nat>) returns (r: Option<CommandError>)
      requires Valid()
      ensures r == AppendError(events, Fencing(event, token), event, expectedVersion)
    {
      if !ValidEvent(event) || expectedVersion < 0 {
        return Some(UNCODED);
      }
      r := CheckFencing(event, token);
      if r.Some? {
        return;
      }
      var aggregateEvents := ListOf(byAggregate, event.aggregate);
      if |aggregateEvents| != expectedVersion {
        return Some(Plain(OptimisticConcurrencyConflict, Unsaid));
      }
      if event.sequence != expectedVersion + 1 {
        return Some(UNCODED);
      }
      if aggregateEvents != [] && event.timestamp < aggregateEvents[|aggregateEvents| - 1].timestamp {
        return Some(UNCODED);
      }
      if event.id in ids {
        return Some(UNCODED);
      }
      return None;
    }

    method CheckFencing(event: Event, token: Option<nat>) returns (r: Option<CommandError>)
      ensures r == Fencing(event, token)
    {
      if commandStore == null {
        return None;
      }
      var row: Option<Row> := None;
      if event.command.Key? {
        row := commandStore.Get(event.command.key);
      }
      if row.Some? {
        if row.value.status != Processing {
          return Some(Stale());
        }
        if token.None? {
          return Some(Plain(FencingTokenRequired, No));
        }
        if token.value != row.value.token {
          return Some(Stale());
        }
      } else if token.Some? {
        return Some(Plain(FencingContextInvalid, No));
      }
      return None;
    }

    method Append(event: Event, expectedVersion: int, token: Option<nat>) returns (r: Reply<Event>)
      requires Valid()
      modifies this`events, this`byAggregate, this`ids, this`byCommand
      ensures Valid()
      ensures match AppendError(old(events), old(Fencing(event, token)), event, expectedVersion)
              case Some(error) => r == Throws(error) && events == old(events)
              case None => r == Done(event) && events == old(events) + [event]
      ensures r.Done? <==>
                && old(Fencing(event, token)).None? && ValidEvent(event)
                && expectedVersion == |Select(old(events), OfAggregate(event.aggregate))|
                && WellFormedLog(old(events) + [event])
    {
      AppendAcceptsExactly(events, Fencing(event, token), event, expectedVersion);
      var error := CheckAppend(event, expectedVersion, token);
      if error.Some? {
        return Throws(error.value);
      }
      AppendKeepsWellFormed(events, event, expectedVersion);
      ListsAggregatesAppend(byAggregate, events, event);
      ListsCommandsAppend(byCommand, events, event);
      ListsIdsAppend(ids, events, event);
      byAggregate := byAggregate[event.aggregate := ListOf(byAggregate, event.aggregate) + [event]];
      events := events + [event];
      ids := ids + {event.id};
      byCommand := byCommand[event.command := ListOf(byCommand, event.command) + [event]];
      return Done(event);
    }

    method GetByAggregateId(aggregate: int) returns (r: seq<Event>)
      requires Valid()
      ensures r == Select(events, OfAggregate(aggregate))
    {
      r := ListOf(byAggregate, aggregate);
    }

    method GetByCommandId(c: CommandId) returns (r: seq<Event>)
      requires Valid()
      ensures r == Select(events, OfCommand(c))
    {
      r := ListOf(byCommand, c);
    }

    /** The slice taken by position equals the plain filter on sequence numbers. */
    method GetByAggregateIdAfter(aggregate: int, sequence: nat) returns (r: seq<Event>)
      requires Valid()
      ensures r == After(Select(events, OfAggregate(aggregate)), sequence)
    {
      var known := ListOf(byAggregate, aggregate);
      assert known == Select(events, OfAggregate(aggregate)) && Dense(Select(events, OfAggregate(aggregate)));
      if sequence < |known| {
        AfterIsSlice(known, sequence);
        r := known[sequence..];
      } else {
        r := FilterAfter(known, sequence);
      }
    }

    /** The last sequence number equals the number of events. */
    method GetLastSequence(aggregate: int) returns (r: int)
      requires Valid()
      ensures r == |Select(events, OfAggregate(aggregate))|
    {
      var known := ListOf(byAggregate, aggregate);
      assert known == Select(events, OfAggregate(aggregate)) && Dense(Select(events, OfAggregate(aggregate)));
      if known == [] {
        return 0;
      }
      return known[|known| - 1].sequence;
    }
  }

  method FilterAfter(events: seq<Event>, sequence: int) returns (r: seq<Event>)
    ensures r == After(events, sequence)
  {
    r := [];
    for i := 0 to |events|
      invariant r == After(events[..i], sequence)
    {
      AfterAppend(events[..i], events[i], sequence);
      assert events[..i + 1] == events[..i] + [events[i]];
      if events[i].sequence > sequence {
        r := r + [events[i]];
      }
    }
    assert events[..|events|] == events;
  }

  class InMemoryCommandStore {
    var commands: map<CommandKey, Row>
    var eventStore: InMemoryEventStore?

    constructor ()
      ensures commands == map[] && eventStore == null
    {
      commands, eventStore := map[], null;
    }

    method SetEventStore(store: InMemoryEventStore)
      modifies this`eventStore
      ensures eventStore == store
    {
      eventStore := store;
    }

    method Get(key: CommandKey) returns (r: Option<Row>)
      ensures r == Lookup(commands, key)
    {
      r := if key in commands then Some(commands[key]) else None;
    }

    method Reserve(key: CommandKey, request: Request, worker: Option<string>, ttl: int, now: int)
      returns (r: Reply<Reservation>)
      modifies this`commands
      ensures var spec := CommandRows.Reserve(Lookup(old(commands), key), request, worker, ttl, now);
              r == spec.1 && Stored(old(commands), commands, key, spec.0)
    {
      if !ValidTtl(ttl) {
        return Throws(UNCODED);
      }
      var deadline := None;
      if Named(worker) {
        deadline := LeaseDeadline(now, ttl);
        if deadline.None? {
          return Throws(UNCODED);
        }
      }
      if key in commands {
        var existing := commands[key];
        if existing.status == Released {
          if existing.request != request {
            return Done(Reservation(false, true, existing));
          }
          var again := existing.(request := request, status := Processing, aggregate := None, range := None,
                                 result := None, receipt := None, error := None, owner := worker,
                                 token := existing.token + 1, deadline := deadline);
          commands := commands[key := again];
          return Done(Reservation(true, false, again));
        }
        return Done(Reservation(false, existing.request != request, existing));
      }
      var row := FreshRow(request, worker, 1, deadline);
      commands := commands[key := row];
      return Done(Reservation(true, false, row));
    }

    method TakeOverExpired(key: CommandKey, worker: string, ttl: int, expected: Option<nat>, now: int)
      returns (r: Reply<Challenge>)
      requires eventStore != null && eventStore.Valid()
      modifies this`commands
      ensures var spec := TakeOver(Lookup(old(commands), key), Select(eventStore.events, OfCommand(Key(key))),
                                   worker, ttl, expected, now);
              r == spec.1 && Stored(old(commands), commands, key, spec.0)
    {
      if worker == "" {
        return Throws(UNCODED);
      }
      var deadline := LeaseDeadline(now, ttl);
      if deadline.None? {
        return Throws(UNCODED);
      }
      if key !in commands {
        return Done(Declined(NotFound));
      }
      var row := commands[key];
      if row.status != Processing {
        return Done(Declined(NotProcessing));
      }
      var events := eventStore.GetByCommandId(Key(key));
      if |events| > 0 {
        return Done(Declined(HasEvents));
      }
      if row.range.Some? && |row.range.value.ids| > 0 {
        return Done(Declined(HasEvents));
      }
      if row.deadline.Some? && row.deadline.value > now {
        return Done(Declined(NotExpired));
      }
      if expected.Some? && row.token != expected.value {
        return Done(Declined(TokenMismatch));
      }
      row := row.(owner := Some(worker), token := row.token + 1, deadline := deadline);
      commands := commands[key := row];
      return Done(Granted(row));
    }

    method RevokeExpired(key: CommandKey, expected: nat, error: CommandError, now: int) returns (r: Reply<Challenge>)
      requires eventStore != null && eventStore.Valid()
      modifies this`commands
      ensures var spec := Revoke(Lookup(old(commands), key), Key(key), Select(eventStore.events, OfCommand(Key(key))),
                                 expected, error, now);
              r == spec.1 && Stored(old(commands), commands, key, spec.0)
    {
      if expected == 0 {
        return Throws(UNCODED);
      }
      if key !in commands {
        return Done(Declined(NotFound));
      }
      var row := commands[key];
      if row.status != Processing {
        return Done(Declined(NotProcessing));
      }
      if row.token != expected {
        return Done(Declined(TokenMismatch));
      }
      if row.deadline.Some? && row.deadline.value > now {
        return Done(Declined(NotExpired));
      }
      var events := eventStore.GetByCommandId(Key(key));
      if |events| == 0 {
        return Done(Declined(NoEvents));
      }
      var range := BuildEventRange(events, Key(key));
      if range.None? {
        return Throws(UNCODED);
      }
      row := row.(status := Failed, aggregate := Some(range.value.aggregate), range := range,
                  error := Some(error.(eventIds := range.value.ids)), owner := None, deadline := None);
      commands := commands[key := row];
      return Done(Granted(row));
    }

    method RenewLease(key: CommandKey, worker: string, token: Option<nat>, ttl: int, now: int) returns (r: Reply<int>)
      modifies this`commands
      ensures var spec := Renew(Lookup(old(commands), key), worker, token, ttl, now);
              r == spec.1 && Stored(old(commands), commands, key, spec.0)
    {
      if worker == "" {
        return Throws(UNCODED);
      }
      var deadline := LeaseDeadline(now, ttl);
      if deadline.None? {
        return Throws(UNCODED);
      }
      if key !in commands || commands[key].status != Processing {
        return Throws(UNCODED);
      }
      var refusal := GenerationError(commands[key], token);
      if refusal.Some? {
        return Throws(refusal.value);
      }
      if commands[key].owner != Some(worker) {
        return Throws(Stale());
      }
      commands := commands[key := commands[key].(deadline := deadline)];
      return Done(deadline.value);
    }

    method RecordEvent(key: CommandKey, event: Event, token: Option<nat>) returns (r: Reply<()>)
      modifies this`commands
      ensures var spec := Record(Lookup(old(commands), key), Key(key), event, token);
              r == spec.1 && Stored(old(commands), commands, key, spec.0)
    {
      var refusal := RequireOwner(key, token);
      if refusal.Some? {
        return Throws(refusal.value);
      }
      if !PositiveSafe(event.sequence) || event.command != Key(key) {
        return Throws(UNCODED);
      }
      var row := commands[key];
      if row.range.None? {
        var range := Range(event.aggregate, event.sequence, event.sequence, [event.id]);
        assert Ids([event]) == [event.id];
        commands := commands[key := row.(aggregate := Some(event.aggregate), range := Some(range))];
        return Done(());
      }
      var range := row.range.value;
      if range.aggregate != event.aggregate || event.sequence != range.last + 1 {
        return Throws(UNCODED);
      }
      range := range.(last := event.sequence, ids := range.ids + [event.id]);
      commands := commands[key := row.(range := Some(range))];
      return Done(());
    }

    method Complete(key: CommandKey, result: Result, receipt: Receipt, token: Option<nat>) returns (r: Reply<()>)
      modifies this`commands
      ensures var spec := CommandRows.Complete(Lookup(old(commands), key), result, receipt, token);
              r == spec.1 && Stored(old(commands), commands, key, spec.0)
    {
      var refusal := RequireOwner(key, token);
      if refusal.Some? {
        return Throws(refusal.value);
      }
      if !ValidReceipt(receipt) {
        return Throws(UNCODED);
      }
      commands := commands[key := commands[key].(status := Finished, result := Some(result), receipt := Some(receipt),
                                                 owner := None, deadline := None)];
      return Done(());
    }

    method Fail(key: CommandKey, error: CommandError, token: Option<nat>) returns (r: Reply<()>)
      modifies this`commands
      ensures var spec := CommandRows.Fail(Lookup(old(commands), key), error, token);
              r == spec.1 && Stored(old(commands), commands, key, spec.0)
    {
      var refusal := RequireOwner(key, token);
      if refusal.Some? {
        return Throws(refusal.value);
      }
      commands := commands[key := commands[key].(status := Failed, error := Some(error),
                                                 owner := None, deadline := None)];
      return Done(());
    }

    method Release(key: CommandKey, token: Option<nat>) returns (r: Reply<bool>)
      modifies this`commands
      ensures var spec := CommandRows.Release(Lookup(old(commands), key), token);
              r == spec.1 && Stored(old(commands), commands, key, spec.0)
    {
      if key !in commands {
        return Done(false);
      }
      var row := commands[key];
      if row.status != Processing || row.range.Some? {
        return Throws(UNCODED);
      }
      var refusal := GenerationError(row, token);
      if refusal.Some? {
        return Throws(refusal.value);
      }
      commands := commands[key := row.(status := Released, owner := None, deadline := None)];
      return Done(true);
    }

    method ReleaseFailed(key: CommandKey, code: Code, token: Option<nat>) returns (r: Reply<bool>)
      modifies this`commands
      ensures var spec := CommandRows.ReleaseFailed(Lookup(old(commands), key), code, token);
              r == spec.1 && Stored(old(commands), commands, key, spec.0)
    {
      if key !in commands {
        return Done(false);
      }
      var row := commands[key];
      if row.status != Failed || row.range.Some? || row.error.None? || row.error.value.code != code {
        return Throws(UNCODED);
      }
      var refusal := GenerationError(row, token);
      if refusal.Some? {
        return Throws(refusal.value);
      }
      commands := commands[key := row.(status := Released, owner := None, deadline := None)];
      return Done(true);
    }

    method ReconcileEvents(key: CommandKey, events: seq<Event>, token: Option<nat>) returns (r: Reply<()>)
      modifies this`commands
      ensures var spec := CommandRows.ReconcileEvents(Lookup(old(commands), key), Key(key), events, token);
              r == spec.1 && Stored(old(commands), commands, key, spec.0)
    {
      var refusal := RequireOwner(key, token);
      if refusal.Some? {
        return Throws(refusal.value);
      }
      var range := BuildEventRange(events, Key(key));
      if range.None? {
        return Throws(UNCODED);
      }
      commands := commands[key := commands[key].(aggregate := Some(range.value.aggregate), range := range)];
      return Done(());
    }

    method ReconcileFailure(key: CommandKey, events: seq<Event>, error: CommandError, token: Option<nat>)
      returns (r: Reply<()>)
      modifies this`commands
      ensures var spec := CommandRows.ReconcileFailure(Lookup(old(commands), key), Key(key), events, error, token);
              r == spec.1 && Stored(old(commands), commands, key, spec.0)
    {
      if key !in commands || commands[key].status != Failed {
        return Throws(UNCODED);
      }
      var refusal := GenerationError(commands[key], token);
      if refusal.Some? {
        return Throws(refusal.value);
      }
      var range := BuildEventRange(events, Key(key));
      if range.None? {
        return Throws(UNCODED);
      }
      commands := commands[key := commands[key].(aggregate := Some(range.value.aggregate), range := range,
                                                 error := Some(error))];
      return Done(());
    }

    /** `requireProcessing` followed by `assertGeneration`. */
    method RequireOwner(key: CommandKey, token: Option<nat>) returns (r: Option<CommandError>)
      ensures r == OwnerError(Lookup(commands, key), token)
    {
      if key !in commands || commands[key].status != Processing {
        return Some(UNCODED);
      }
      return GenerationError(commands[key], token);
    }
  }

  /** The validating loop over a command's events: it stops at the first event of another command or aggregate, or
      out of sequence. */
  method BuildEventRange(events: seq<Event>, c: CommandId) returns (r: Option<Range>)
    ensures r == BuildRange(c, events)
  {
    if events == [] {
      return None;
    }
    var ids: seq<EventId> := [];
    for i := 0 to |events|
      invariant ids == Ids(events[..i])
      invariant forall j :: 0 <= j < i ==>
                  PositiveSafe(events[j].sequence) && events[j].command == c
                  && events[j].aggregate == events[0].aggregate && events[j].sequence == events[0].sequence + j
    {
      if !PositiveSafe(events[i].sequence) || events[i].command != c || events[i].aggregate != events[0].aggregate
         || events[i].sequence != events[0].sequence + i {
        return None;
      }
      ids := ids + [events[i].id];
    }
    assert events[..|events|] == events;
    return Some(Range(events[0].aggregate, events[0].sequence, events[|events| - 1].sequence, ids));
  }
}
