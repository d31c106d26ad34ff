/** The append rule of the event store, and why it keeps the log well formed. */
module EventLog {
  import opened Events
  import opened StoreContracts
  import opened CommandRows

  /** The error an append throws, if any: shape, fencing, expected version, sequence, clock and identity, in order. */
  function AppendError(log: seq<Event>, fencing: Option<CommandError>, event: Event, expected: int)
    : Option<CommandError>
  {
    var known := Select(log, OfAggregate(event.aggregate));
    if !ValidEvent(event) || expected < 0 then Some(UNCODED)
    else if fencing.Some? then fencing
    else if |known| != expected then Some(Plain(OptimisticConcurrencyConflict, Unsaid))
    else if event.sequence != expected + 1 then Some(UNCODED)
    else if known != [] && event.timestamp < known[|known| - 1].timestamp then Some(UNCODED)
    else if HasId(log, event.id) then Some(UNCODED)
    else None
  }

  predicate HasId(log: seq<Event>, id: EventId) {
    exists i :: 0 <= i < |log| && log[i].id == id
  }

  /** Every accepted append keeps sequences dense, timestamps monotone and ids distinct. */
  lemma AppendKeepsWellFormed(log: seq<Event>, event: Event, expected: int)
    requires WellFormedLog(log) && AppendError(log, None, event, expected).None?
    ensures WellFormedLog(log + [event])
  {
    forall a
      ensures Dense(Select(log + [event], OfAggregate(a))) && Chronological(Select(log + [event], OfAggregate(a)))
    {
      SelectAppend(log, event, OfAggregate(a));
      assert Dense(Select(log, OfAggregate(a))) && Chronological(Select(log, OfAggregate(a)));
    }
  }

  /** And nothing else is refused: an append that the command row allows is accepted exactly if the event is well
      shaped, the expected version is the number of events there are, and the log stays well formed with it. */
  lemma AppendAcceptsExactly(log: seq<Event>, fencing: Option<CommandError>, event: Event, expected: int)
    requires WellFormedLog(log)
    ensures AppendError(log, fencing, event, expected).None? <==>
            && fencing.None? && ValidEvent(event)
            && expected == |Select(log, OfAggregate(event.aggregate))|
            && WellFormedLog(log + [event])
  {
    var known := Select(log, OfAggregate(event.aggregate));
    SelectAppend(log, event, OfAggregate(event.aggregate));
    if AppendError(log, fencing, event, expected).None? {
      AppendKeepsWellFormed(log, event, expected);
    } else if fencing.None? && ValidEvent(event) && expected == |known| && WellFormedLog(log + [event]) {
      RefusedAppendsBreak(log, event, expected);
    }
  }

  lemma RefusedAppendsBreak(log: seq<Event>, event: Event, expected: int)
    requires ValidEvent(event) && expected == |Select(log, OfAggregate(event.aggregate))|
    requires AppendError(log, None, event, expected).Some?
    ensures !WellFormedLog(log + [event])
  {
    var known := Select(log, OfAggregate(event.aggregate));
    var longer := log + [event];
    SelectAppend(log, event, OfAggregate(event.aggregate));
    assert (known + [event])[|known|] == event;
    if event.sequence != |known| + 1 {
      assert !Dense(known + [event]);
    } else if known != [] && event.timestamp < known[|known| - 1].timestamp {
      assert (known + [event])[|known| - 1] == known[|known| - 1];
      assert !Chronological(known + [event]);
    } else {
      var i :| 0 <= i < |log| && log[i].id == event.id;
      assert longer[i] == log[i] && longer[|log|] == event;
    }
  }

  /** The concurrency conflict says that the expected version is not the present one, and nothing else does. */
  lemma ConflictsAreStaleVersions(log: seq<Event>, row: Option<Row>, token: Option<nat>, event: Event, expected: int)
    requires ValidEvent(event) && expected >= 0
    ensures AppendError(log, FencingError(row, token), event, expected)
            == Some(Plain(OptimisticConcurrencyConflict, Unsaid)) <==>
            FencingError(row, token).None? && expected != |Select(log, OfAggregate(event.aggregate))|
  {
  }

  /** An append is let through by the command row exactly if it is of the processing row's generation, or there is
      neither a row nor a generation. */
  lemma FencesExactly(row: Option<Row>, token: Option<nat>)
    ensures FencingError(row, token).None? <==>
            if row.Some? then row.value.status == Processing && token == Some(row.value.token) else token.None?
  {
  }

  /** The events with a sequence number above `sequence`: what a plain filter returns. */
  function After(events: seq<Event>, sequence: int): seq<Event> {
    if events == [] then []
    else (if events[0].sequence > sequence then [events[0]] else []) + After(events[1..], sequence)
  }

  lemma {:induction false} AfterAppend(events: seq<Event>, e: Event, sequence: int)
    ensures After(events + [e], sequence) == After(events, sequence) + if e.sequence > sequence then [e] else []
  {
    if events == [] {
      assert [e][1..] == [];
    } else {
      assert (events + [e])[1..] == events[1..] + [e];
      AfterAppend(events[1..], e, sequence);
    }
  }

  /** On a dense list the filter is a slice. */
  lemma {:induction false} AfterIsSlice(events: seq<Event>, sequence: nat)
    requires Dense(events)
    ensures After(events, sequence) == if sequence < |events| then events[sequence..] else []
  {
    if events != [] {
      var shorter := events[..|events| - 1];
      AfterIsSlice(shorter, sequence);
      AfterAppend(shorter, events[|events| - 1], sequence);
      assert events == shorter + [events[|events| - 1]];
    }
  }
}
