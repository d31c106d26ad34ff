/** What an undisturbed call with a key comes to, for every row it may find: it executes under the next generation, or
    it is told why it does not. */
module Openings {
  import opened Events
  import opened StoreContracts
  import opened CommandRows
  import opened Stores
  import opened Coordinator
  import opened Ownership
  import opened Runs
  import opened Progress
  import opened Permanence
  import opened RecordedErrors
  import opened FailedRetries
  import opened Outcomes
  import opened Endings

  /** A call with a key, as it begins. */
  function Begun(begin: Move, row: Option<Row>, log: seq<Event>): Scene
    requires begin.Begin?
  {
    Scene(Call(begin.id, begin.key, begin.request, begin.worker, begin.ttl, None, [], Reserving, 0, 0, 0, 0), row, log)
  }

  ghost predicate Newcomer(w: World, begin: Move) {
    begin.Begin? && begin.id !in w.calls && begin.key.Some?
  }

  lemma BeginPlays(w: World, begin: Move)
    requires Newcomer(w, begin)
    ensures Plays(Next(w, begin), Begun(begin, RowOf(w, begin.key), w.log))
  {
  }

  /** What holds of every reachable world, as far as one command is concerned. */
  ghost predicate Sane(w: World, key: CommandKey) {
    && WellFormedLog(w.log) && (forall i :: 0 <= i < |w.log| ==> ValidEvent(w.log[i]))
    && CommandInv(Key(key), Lookup(w.rows, key), EventsIn(w, Key(key)))
    && RowSays(Lookup(w.rows, key), EventsIn(w, Key(key)))
  }

  lemma RunsAreSane(moves: seq<Move>, key: CommandKey)
    ensures Sane(Run(moves), key)
  {
    RunInv(moves);
    RunSays(moves);
    ReachableReceipts(moves);
    assert RowSays(Lookup(Run(moves).rows, key), EventsIn(Run(moves), Key(key)));
  }

  /** The key is free: it has no row, or the row was released by the same request. */
  predicate Free(row: Option<Row>, request: Request) {
    row.None? || (row.value.status == Status.Released && row.value.request == request)
  }

  function NextGeneration(row: Option<Row>): nat {
    if row.None? then 1 else row.value.token + 1
  }

  /** The execution under a generation of its own, with nothing committed yet. */
  function Opened(x: Scene, row: Row): Scene {
    Scene(x.call.(pc := Running, token := Some(row.token)), Some(row), x.log)
  }

  lemma FreeKeyIsReserved(w: World, x: Scene, now: int)
    requires Plays(w, x) && x.call.pc.Reserving? && Free(x.row, x.call.request)
    requires x.call.worker != "" && LeaseDeadline(now, x.call.ttl).Some?
    ensures var row := FreshRow(x.call.request, Some(x.call.worker), NextGeneration(x.row), Some(now + x.call.ttl));
            Plays(Next(w, Take(x.call.id, Quietly(now))),
                  Scene(x.call.(pc := CheckingNew, token := Some(row.token)), Some(row), x.log))
  {
    var call := w.calls[x.call.id];
    var row := FreshRow(x.call.request, Some(x.call.worker), NextGeneration(x.row), Some(now + x.call.ttl));
    PlaysOn(w, x, Quietly(now), call.(pc := CheckingNew, token := Some(row.token)),
            Write(View(w, x.call.key), Some(row)));
  }

  lemma NothingIsFound(w: World, x: Scene)
    requires Plays(w, x) && x.call.pc.CheckingNew? && x.call.token.Some?
    requires Select(x.log, OfCommand(CommandOf(x.call))) == []
    ensures Plays(Next(w, Take(x.call.id, Quietly(0))), x.(call := x.call.(pc := Running)))
  {
    PlaysOn(w, x, Quietly(0), w.calls[x.call.id].(pc := Running), View(w, x.call.key));
  }

  /** From reserving a free key to its callback. */
  lemma FreeKeyOpens(w: World, x: Scene, id: nat, now: int, x': Scene)
    requires Plays(w, x) && x.call.pc.Reserving? && Free(x.row, x.call.request) && id == x.call.id
    requires Select(x.log, OfCommand(CommandOf(x.call))) == []
    requires x.call.worker != "" && LeaseDeadline(now, x.call.ttl).Some?
    requires x' == Opened(x, FreshRow(x.call.request, Some(x.call.worker), NextGeneration(x.row),
                                      Some(now + x.call.ttl)))
    ensures Plays(Undisturbed(w, id, [Quietly(now), Quietly(0)]), x')
  {
    FreeKeyIsReserved(w, x, now);
    var row := FreshRow(x.call.request, Some(x.call.worker), NextGeneration(x.row), Some(now + x.call.ttl));
    NothingIsFound(Next(w, Take(x.call.id, Quietly(now))),
                   Scene(x.call.(pc := CheckingNew, token := Some(row.token)), Some(row), x.log));
    TwoSteps(w, x.call.id, Quietly(now), Quietly(0));
  }

  lemma FreeKeysHaveNoEvents(w: World, key: CommandKey, request: Request)
    requires Sane(w, key) && Free(RowOf(w, Some(key)), request)
    ensures EventsIn(w, Key(key)) == []
  {
  }

  /** Without events, and with a row of the call's own generation, the execution is in order. */
  lemma OpenedInOrder(w: World, x: Scene, row: Row)
    requires x.call.key.Some? && Sane(w, x.call.key.value) && x.log == w.log && x.call.committed == []
    requires EventsIn(w, Key(x.call.key.value)) == [] && row.status == Processing && row.range.None?
    requires row.owner == Some(x.call.worker) && x.call.worker != ""
    ensures InExecution(Opened(x, row))
  {
  }

  /** The execution that a free key opens. */
  function Fresh(begin: Move, row: Option<Row>, log: seq<Event>, now: int): Scene
    requires begin.Begin?
  {
    Opened(Begun(begin, row, log),
           FreshRow(begin.request, Some(begin.worker), NextGeneration(row), Some(now + begin.ttl)))
  }

  /** In every reachable world a call whose key is free executes, under the next generation. */
  lemma FreeKeysExecute(moves: seq<Move>, begin: Move, now: int)
    requires Newcomer(Run(moves), begin) && Free(RowOf(Run(moves), begin.key), begin.request)
    requires begin.worker != "" && LeaseDeadline(now, begin.ttl).Some?
    ensures var w := Run(moves);
            var x := Fresh(begin, RowOf(w, begin.key), w.log, now);
            && Plays(Undisturbed(Next(w, begin), begin.id, [Quietly(now), Quietly(0)]), x)
            && InExecution(x)
  {
    var w := Run(moves);
    RunsAreSane(moves, begin.key.value);
    FreeKeysHaveNoEvents(w, begin.key.value, begin.request);
    FreshInOrder(w, begin, now);
    FreshPlays(w, begin, now);
  }

  lemma FreshPlays(w: World, begin: Move, now: int)
    requires Newcomer(w, begin) && Free(RowOf(w, begin.key), begin.request)
    requires EventsIn(w, Key(begin.key.value)) == []
    requires begin.worker != "" && LeaseDeadline(now, begin.ttl).Some?
    ensures Plays(Undisturbed(Next(w, begin), begin.id, [Quietly(now), Quietly(0)]),
                  Fresh(begin, RowOf(w, begin.key), w.log, now))
  {
    BeginPlays(w, begin);
    FreeKeyOpens(Next(w, begin), Begun(begin, RowOf(w, begin.key), w.log), begin.id, now,
                 Fresh(begin, RowOf(w, begin.key), w.log, now));
  }

  lemma FreshInOrder(w: World, begin: Move, now: int)
    requires begin.Begin? && begin.key.Some? && Sane(w, begin.key.value) && EventsIn(w, Key(begin.key.value)) == []
    requires begin.worker != ""
    ensures InExecution(Fresh(begin, RowOf(w, begin.key), w.log, now))
  {
    OpenedInOrder(w, Begun(begin, RowOf(w, begin.key), w.log),
                  FreshRow(begin.request, Some(begin.worker), NextGeneration(RowOf(w, begin.key)),
                           Some(now + begin.ttl)));
  }

  /** A row that is there, and not to be had for the asking, is read. */
  lemma TakenKeyIsRead(w: World, x: Scene, now: int)
    requires Plays(w, x) && x.call.pc.Reserving? && x.row.Some? && x.row.value.request == x.call.request
    requires x.row.value.status != Status.Released && x.call.worker != "" && LeaseDeadline(now, x.call.ttl).Some?
    ensures Plays(Next(w, Take(x.call.id, Quietly(now))), x.(call := x.call.(pc := Resolving(x.row.value))))
  {
    PlaysOn(w, x, Quietly(now), w.calls[x.call.id].(pc := Resolving(x.row.value)), View(w, x.call.key));
  }

  lemma RowIsResolved(w: World, x: Scene, record: Row)
    requires Plays(w, x) && x.call.pc == Resolving(record)
    ensures var events := Select(x.log, OfCommand(CommandOf(x.call)));
            Plays(Next(w, Take(x.call.id, Quietly(0))),
                  x.(call := Bare(Resolve(CommandOf(x.call), x.call, record, events))))
  {
    var events := Select(x.log, OfCommand(CommandOf(x.call)));
    var call := w.calls[x.call.id];
    ResolveIsBare(CommandOf(x.call), call, record, events);
    PlaysOn(w, x, Quietly(0), Resolve(CommandOf(x.call), call, record, events), View(w, x.call.key));
  }

  lemma ResolveIsBare(c: CommandId, call: Call, record: Row, events: seq<Event>)
    ensures Bare(Resolve(c, call, record, events)) == Bare(Resolve(c, Bare(call), record, events))
    ensures Resolve(c, call, record, events).id == call.id && Resolve(c, call, record, events).key == call.key
  {
  }

  /** An abandoned command: being processed, without events, past its deadline. */
  predicate Abandoned(row: Row, now: int) {
    row.status == Processing && row.deadline.Some? && row.deadline.value <= now
  }

  function TakenOver(x: Scene, row: Row, now: int): Row {
    row.(owner := Some(x.call.worker), token := row.token + 1, deadline := Some(now + x.call.ttl))
  }

  lemma AbandonedIsTakenOver(w: World, x: Scene, row: Row, now: int)
    requires Plays(w, x) && x.call.pc == TakingOver(row) && x.row == Some(row) && x.call.token.None?
    requires Select(x.log, OfCommand(CommandOf(x.call))) == [] && row.range.None? && Abandoned(row, now)
    requires x.call.worker != "" && LeaseDeadline(now, x.call.ttl).Some?
    ensures var taken := TakenOver(x, row, now);
            Plays(Next(w, Take(x.call.id, Quietly(now))),
                  Scene(x.call.(pc := ReadingBack, token := Some(taken.token)), Some(taken), x.log))
  {
    var taken := TakenOver(x, row, now);
    PlaysOn(w, x, Quietly(now), w.calls[x.call.id].(pc := ReadingBack, token := Some(taken.token)),
            Write(View(w, x.call.key), Some(taken)));
  }

  lemma TakeoverIsReadBack(w: World, x: Scene)
    requires Plays(w, x) && x.call.pc.ReadingBack? && x.row.Some? && x.call.token == Some(x.row.value.token)
    ensures Plays(Next(w, Take(x.call.id, Quietly(0))), x.(call := x.call.(pc := Running)))
  {
    PlaysOn(w, x, Quietly(0), w.calls[x.call.id].(pc := Running), View(w, x.call.key));
  }

  /** A retry that has read the row it found, and resolved it. */
  lemma RetryResolvesRow(w: World, begin: Move, row: Row, now: int, y: Scene)
    requires Newcomer(w, begin) && RowOf(w, begin.key) == Some(row) && row.request == begin.request
    requires row.status != Status.Released && begin.worker != "" && LeaseDeadline(now, begin.ttl).Some?
    requires var x := Begun(begin, Some(row), w.log);
             var events := EventsIn(w, Key(begin.key.value));
             y == x.(call := Bare(Resolve(Key(begin.key.value), x.call.(pc := Resolving(row)), row, events)))
    ensures Plays(Undisturbed(Next(w, begin), begin.id, [Quietly(now), Quietly(0)]), y)
  {
    BeginPlays(w, begin);
    ReadsAndResolves(Next(w, begin), Begun(begin, Some(row), w.log), begin.id, row, now, y);
  }

  lemma ReadsAndResolves(w: World, x: Scene, id: nat, row: Row, now: int, y: Scene)
    requires Plays(w, x) && id == x.call.id && x.call.pc.Reserving? && x.row == Some(row)
    requires row.request == x.call.request && row.status != Status.Released
    requires x.call.worker != "" && LeaseDeadline(now, x.call.ttl).Some?
    requires y == x.(call := Bare(Resolve(CommandOf(x.call), x.call.(pc := Resolving(row)), row,
                                          Select(x.log, OfCommand(CommandOf(x.call))))))
    ensures Plays(Undisturbed(w, id, [Quietly(now), Quietly(0)]), y)
  {
    TakenKeyIsRead(w, x, now);
    RowIsResolved(Next(w, Take(id, Quietly(now))), x.(call := x.call.(pc := Resolving(row))), row);
    TwoSteps(w, id, Quietly(now), Quietly(0));
  }

  lemma TwoMore(w: World, id: nat, first: seq<Choice>, one: Choice, two: Choice)
    ensures Undisturbed(w, id, first + [one, two])
            == Next(Next(Undisturbed(w, id, first), Take(id, one)), Take(id, two))
  {
    UndisturbedOn(w, id, first, [one, two]);
    TwoSteps(Undisturbed(w, id, first), id, one, two);
  }

  /** In every reachable world a call that finds its command abandoned before its first event, and past its deadline,
      executes it under the next generation, as the owner until a deadline of its own. */
  lemma AbandonedCommandsAreTakenOver(moves: seq<Move>, begin: Move, row: Row, now: int, later: int)
    requires var w := Run(moves);
             Newcomer(w, begin) && RowOf(w, begin.key) == Some(row) && EventsIn(w, Key(begin.key.value)) == []
    requires row.request == begin.request && Abandoned(row, later)
    requires begin.worker != "" && LeaseDeadline(now, begin.ttl).Some? && LeaseDeadline(later, begin.ttl).Some?
    ensures var w := Run(moves);
            var begun := Begun(begin, Some(row), w.log);
            var x := Opened(begun, TakenOver(begun, row, later));
            && Plays(Undisturbed(Next(w, begin), begin.id,
                                 [Quietly(now), Quietly(0)] + [Quietly(later), Quietly(0)]), x)
            && InExecution(x)
  {
    var w := Run(moves);
    RunsAreSane(moves, begin.key.value);
    assert row.range.None?;
    AbandonedOpens(w, begin, row, now, later);
    var begun := Begun(begin, Some(row), w.log);
    OpenedInOrder(w, begun, TakenOver(begun, row, later));
  }

  lemma AbandonedOpens(w: World, begin: Move, row: Row, now: int, later: int)
    requires Newcomer(w, begin) && RowOf(w, begin.key) == Some(row) && EventsIn(w, Key(begin.key.value)) == []
    requires row.request == begin.request && row.range.None? && Abandoned(row, later)
    requires begin.worker != "" && LeaseDeadline(now, begin.ttl).Some? && LeaseDeadline(later, begin.ttl).Some?
    ensures var begun := Begun(begin, Some(row), w.log);
            Plays(Undisturbed(Next(w, begin), begin.id, [Quietly(now), Quietly(0)] + [Quietly(later), Quietly(0)]),
                  Opened(begun, TakenOver(begun, row, later)))
  {
    var begun, two := Begun(begin, Some(row), w.log), [Quietly(now), Quietly(0)];
    var y := begun.(call := begun.call.(pc := TakingOver(row)));
    RetryResolvesRow(w, begin, row, now, y);
    AbandonedOpensFrom(Undisturbed(Next(w, begin), begin.id, two), begin, row, w.log, later);
    TwoMore(Next(w, begin), begin.id, two, Quietly(later), Quietly(0));
  }

  lemma AbandonedOpensFrom(w: World, begin: Move, row: Row, log: seq<Event>, later: int)
    requires begin.Begin? && begin.key.Some? && Select(log, OfCommand(Key(begin.key.value))) == []
    requires var begun := Begun(begin, Some(row), log); Plays(w, begun.(call := begun.call.(pc := TakingOver(row))))
    requires row.range.None? && Abandoned(row, later) && begin.worker != "" && LeaseDeadline(later, begin.ttl).Some?
    ensures var begun := Begun(begin, Some(row), log);
            Plays(Next(Next(w, Take(begin.id, Quietly(later))), Take(begin.id, Quietly(0))),
                  Opened(begun, TakenOver(begun, row, later)))
  {
    var begun := Begun(begin, Some(row), log);
    TakeoverFollows(w, begin.id, begun.(call := begun.call.(pc := TakingOver(row))), row, later,
                    Opened(begun, TakenOver(begun, row, later)));
  }

  lemma TakeoverFollows(w: World, id: nat, y: Scene, row: Row, later: int, z: Scene)
    requires Plays(w, y) && id == y.call.id && y.call.pc == TakingOver(row) && y.row == Some(row) && y.call.token.None?
    requires Select(y.log, OfCommand(CommandOf(y.call))) == [] && row.range.None? && Abandoned(row, later)
    requires y.call.worker != "" && LeaseDeadline(later, y.call.ttl).Some?
    requires z == Opened(y, TakenOver(y, row, later))
    ensures Plays(Next(Next(w, Take(id, Quietly(later))), Take(id, Quietly(0))), z)
  {
    var taken := TakenOver(y, row, later);
    AbandonedIsTakenOver(w, y, row, later);
    TakeoverIsReadBack(Next(w, Take(id, Quietly(later))),
                       Scene(y.call.(pc := ReadingBack, token := Some(taken.token)), Some(taken), y.log));
  }

  /** A call that ended with this error, having changed nothing. */
  ghost predicate Dismissed(w: World, w': World, begin: Move, error: CommandError)
    requires begin.Begin?
  {
    Plays(w', Scene(Begun(begin, None, []).call.(pc := Ended(Thrown(error))), RowOf(w, begin.key), w.log))
  }

  /** A key that stands for another request: the call is told so, and nothing changes. */
  lemma ConflictsAreTold(w: World, begin: Move, now: int)
    requires Newcomer(w, begin) && RowOf(w, begin.key).Some? && RowOf(w, begin.key).value.request != begin.request
    requires begin.worker != "" && LeaseDeadline(now, begin.ttl).Some?
    ensures Dismissed(w, Next(Next(w, begin), Take(begin.id, Quietly(now))), begin,
                      CommandError(IdempotencyKeyConflict, No, []))
  {
    var x := Begun(begin, RowOf(w, begin.key), w.log);
    BeginPlays(w, begin);
    var w1 := Next(w, begin);
    PlaysOn(w1, x, Quietly(now), End(w1.calls[begin.id], CommandError(IdempotencyKeyConflict, No, [])),
            View(w1, begin.key));
  }

  /** Three quiet steps. */
  function Three(now: int, later: int): seq<Choice> {
    [Quietly(now), Quietly(0)] + [Quietly(later)]
  }

  lemma ThirdStep(w: World, id: nat, now: int, later: int)
    ensures Undisturbed(w, id, Three(now, later))
            == Next(Undisturbed(w, id, [Quietly(now), Quietly(0)]), Take(id, Quietly(later)))
  {
    UndisturbedOneMore(w, id, [Quietly(now), Quietly(0)], Quietly(later));
  }

  /** A command whose lease runs: the call is told that it is in progress, and nothing changes. */
  lemma LiveCommandsAreInProgress(moves: seq<Move>, begin: Move, row: Row, now: int, later: int)
    requires var w := Run(moves);
             && Newcomer(w, begin) && RowOf(w, begin.key) == Some(row)
             && var events := EventsIn(w, Key(begin.key.value));
                events == [] || Contiguous(Key(begin.key.value), events)
    requires row.request == begin.request && row.status == Processing
    requires row.deadline.Some? && later < row.deadline.value
    requires begin.worker != "" && LeaseDeadline(now, begin.ttl).Some? && LeaseDeadline(later, begin.ttl).Some?
    ensures Dismissed(Run(moves), Undisturbed(Next(Run(moves), begin), begin.id, Three(now, later)), begin,
                      CommandError(CommandInProgress, No, []))
  {
    var w := Run(moves);
    RunsAreSane(moves, begin.key.value);
    var x := Begun(begin, Some(row), w.log);
    var c, events := Key(begin.key.value), EventsIn(w, Key(begin.key.value));
    var y := x.(call := x.call.(pc := if events == [] then TakingOver(row) else Revoking(row, events)));
    RetryResolvesRow(w, begin, row, now, y);
    var w2 := Undisturbed(Next(w, begin), begin.id, [Quietly(now), Quietly(0)]);
    LiveIsRefused(w2, y, row, later);
    ThirdStep(Next(w, begin), begin.id, now, later);
  }

  lemma LiveIsRefused(w: World, y: Scene, row: Row, later: int)
    requires Plays(w, y) && y.row == Some(row) && y.call.key.Some? && row.status == Processing && row.token >= 1
    requires var events := Select(y.log, OfCommand(CommandOf(y.call)));
             if events == [] then y.call.pc == TakingOver(row) && row.range.None?
             else y.call.pc == Revoking(row, events)
    requires row.deadline.Some? && later < row.deadline.value
    requires y.call.worker != "" && LeaseDeadline(later, y.call.ttl).Some?
    ensures Plays(Next(w, Take(y.call.id, Quietly(later))),
                  y.(call := y.call.(pc := Ended(Thrown(CommandError(CommandInProgress, No, []))))))
  {
    PlaysOn(w, y, Quietly(later), End(w.calls[y.call.id], CommandError(CommandInProgress, No, [])),
            View(w, y.call.key));
  }

  /** A command abandoned with events, past its deadline: the call revokes it, and is told, as the row now says, that
      it was interrupted, with exactly its events. */
  lemma AbandonedEventsAreInterrupted(moves: seq<Move>, begin: Move, row: Row, now: int, later: int)
    requires var w := Run(moves);
             && Newcomer(w, begin) && RowOf(w, begin.key) == Some(row)
             && Contiguous(Key(begin.key.value), EventsIn(w, Key(begin.key.value)))
    requires row.request == begin.request && row.status == Processing && Expired(row, later)
    requires begin.worker != "" && LeaseDeadline(now, begin.ttl).Some?
    ensures var w := Run(moves);
            var events := EventsIn(w, Key(begin.key.value));
            Plays(Undisturbed(Next(w, begin), begin.id, Three(now, later)),
                  Scene(Begun(begin, None, []).call.(pc := Ended(Thrown(Interrupted(events)))),
                        Some(Reconciled(row, events).(status := Failed, owner := None, deadline := None)), w.log))
  {
    var w := Run(moves);
    RunsAreSane(moves, begin.key.value);
    RunSays(moves);
    var x := Begun(begin, Some(row), w.log);
    var c, events := Key(begin.key.value), EventsIn(w, Key(begin.key.value));
    ContiguousIsRange(w, c);
    var y := x.(call := x.call.(pc := Revoking(row, events)));
    RetryResolvesRow(w, begin, row, now, y);
    EventsAreRevoked(Undisturbed(Next(w, begin), begin.id, [Quietly(now), Quietly(0)]), y, row, events, later);
    ThirdStep(Next(w, begin), begin.id, now, later);
  }

  lemma EventsAreRevoked(w: World, y: Scene, row: Row, events: seq<Event>, later: int)
    requires Plays(w, y) && y.row == Some(row) && y.call.key.Some? && y.call.pc == Revoking(row, events)
    requires events == Select(y.log, OfCommand(CommandOf(y.call))) && events != [] && row.token >= 1
    requires BuildRange(CommandOf(y.call), events) == Some(RangeOf(events))
    requires row.status == Processing && Expired(row, later)
    ensures Plays(Next(w, Take(y.call.id, Quietly(later))),
                  y.(call := y.call.(pc := Ended(Thrown(Interrupted(events)))),
                     row := Some(Reconciled(row, events).(status := Failed, owner := None, deadline := None))))
  {
    var row' := Reconciled(row, events).(status := Failed, owner := None, deadline := None);
    RevocationsAnswer(CommandOf(y.call), w.calls[y.call.id], View(w, y.call.key), Quietly(later));
    PlaysOn(w, y, Quietly(later), End(w.calls[y.call.id], Interrupted(events)),
            Write(View(w, y.call.key), Some(row')));
  }

  /** A failure that was left open, and turns out to have no events: the call gives the key free and executes the
      command under the next generation. */
  lemma OpenFailuresAreRetried(moves: seq<Move>, begin: Move, row: Row, now: int, later: int)
    requires var w := Run(moves);
             && Newcomer(w, begin) && RowOf(w, begin.key) == Some(row) && LeavesOpen(row)
             && EventsIn(w, Key(begin.key.value)) == []
    requires row.request == begin.request
    requires begin.worker != "" && LeaseDeadline(now, begin.ttl).Some? && LeaseDeadline(later, begin.ttl).Some?
    ensures var w := Run(moves);
            var next := FreshRow(begin.request, Some(begin.worker), row.token + 1, Some(later + begin.ttl));
            var x := Opened(Begun(begin, Some(row), w.log), next);
            && Plays(Undisturbed(Next(w, begin), begin.id, Three(now, 0) + [Quietly(later), Quietly(0)]), x)
            && InExecution(x)
  {
    var w := Run(moves);
    RunsAreSane(moves, begin.key.value);
    assert row.range.None?;
    OpenFailureOpens(w, begin, row, now, later);
    OpenedInOrder(w, Begun(begin, Some(row), w.log),
                  FreshRow(begin.request, Some(begin.worker), row.token + 1, Some(later + begin.ttl)));
  }

  lemma OpenFailureOpens(w: World, begin: Move, row: Row, now: int, later: int)
    requires Newcomer(w, begin) && RowOf(w, begin.key) == Some(row) && LeavesOpen(row) && row.range.None?
    requires EventsIn(w, Key(begin.key.value)) == [] && row.request == begin.request
    requires begin.worker != "" && LeaseDeadline(now, begin.ttl).Some? && LeaseDeadline(later, begin.ttl).Some?
    ensures Plays(Undisturbed(Next(w, begin), begin.id, Three(now, 0) + [Quietly(later), Quietly(0)]),
                  Opened(Begun(begin, Some(row), w.log),
                         FreshRow(begin.request, Some(begin.worker), row.token + 1, Some(later + begin.ttl))))
  {
    var x := Begun(begin, Some(row), w.log);
    var y := x.(call := x.call.(pc := Pc.ReleasingFailed(row)));
    RetryResolvesRow(w, begin, row, now, y);
    var w2 := Undisturbed(Next(w, begin), begin.id, [Quietly(now), Quietly(0)]);
    OpenFailureOpensFrom(w2, begin, row, w.log, later);
    ThirdStep(Next(w, begin), begin.id, now, 0);
    UndisturbedOn(Next(w, begin), begin.id, Three(now, 0), [Quietly(later), Quietly(0)]);
  }

  lemma OpenFailureOpensFrom(w: World, begin: Move, row: Row, log: seq<Event>, later: int)
    requires begin.Begin? && begin.key.Some? && Select(log, OfCommand(Key(begin.key.value))) == []
    requires var x := Begun(begin, Some(row), log); Plays(w, x.(call := x.call.(pc := Pc.ReleasingFailed(row))))
    requires LeavesOpen(row) && row.range.None? && row.request == begin.request
    requires begin.worker != "" && LeaseDeadline(later, begin.ttl).Some?
    ensures Plays(Undisturbed(Next(w, Take(begin.id, Quietly(0))), begin.id, [Quietly(later), Quietly(0)]),
                  Opened(Begun(begin, Some(row), log),
                         FreshRow(begin.request, Some(begin.worker), row.token + 1, Some(later + begin.ttl))))
  {
    var x := Begun(begin, Some(row), log);
    OpenFailureIsReleased(w, x.(call := x.call.(pc := Pc.ReleasingFailed(row))), begin.id, row, Freed(x, row));
    FreedOpens(Next(w, Take(begin.id, Quietly(0))), begin, row, log, later);
  }

  lemma FreedOpens(w: World, begin: Move, row: Row, log: seq<Event>, later: int)
    requires begin.Begin? && begin.key.Some? && Select(log, OfCommand(Key(begin.key.value))) == []
    requires Plays(w, Freed(Begun(begin, Some(row), log), row)) && row.request == begin.request
    requires begin.worker != "" && LeaseDeadline(later, begin.ttl).Some?
    ensures Plays(Undisturbed(w, begin.id, [Quietly(later), Quietly(0)]),
                  Opened(Begun(begin, Some(row), log),
                         FreshRow(begin.request, Some(begin.worker), row.token + 1, Some(later + begin.ttl))))
  {
    var x := Begun(begin, Some(row), log);
    FreeKeyOpens(w, Freed(x, row), begin.id, later,
                 Opened(x, FreshRow(begin.request, Some(begin.worker), row.token + 1, Some(later + begin.ttl))));
  }

  function Freed(x: Scene, row: Row): Scene {
    x.(row := Some(row.(status := Status.Released, owner := None, deadline := None)))
  }

  lemma OpenFailureIsReleased(w: World, y: Scene, id: nat, row: Row, z: Scene)
    requires Plays(w, y) && id == y.call.id && y.row == Some(row) && y.call.pc == Pc.ReleasingFailed(row)
    requires LeavesOpen(row) && row.range.None? && z == Freed(y.(call := y.call.(pc := Reserving)), row)
    ensures Plays(Next(w, Take(id, Quietly(0))), z)
  {
    var call := w.calls[id];
    PlaysOn(w, y, Quietly(0), call.(pc := Reserving, rounds := call.rounds + 1), Write(View(w, y.call.key), z.row));
  }

  /** A new command from its first step to its last, in any reachable world: reserved, its events committed one by one,
      whether or not their appends are acknowledged, and completed with its answer. */
  lemma CommandsComplete(moves: seq<Move>, begin: Move, now: int, plans: seq<Plan>, result: Result)
    requires Newcomer(Run(moves), begin) && Free(RowOf(Run(moves), begin.key), begin.request)
    requires begin.worker != "" && LeaseDeadline(now, begin.ttl).Some?
    requires var x := Fresh(begin, RowOf(Run(moves), begin.key), Run(moves).log, now);
             MayCommitAll(x, plans) && MayAnswer(AfterCommits(x, plans), result)
    ensures var w := Run(moves);
            var y := AfterCommits(Fresh(begin, RowOf(w, begin.key), w.log, now), plans);
            Plays(Undisturbed(Next(w, begin), begin.id,
                              [Quietly(now), Quietly(0)] + (AllChoices(plans) + AnswerChoices(y, result))),
                  AfterAnswer(y, result))
  {
    FreeKeysExecute(moves, begin, now);
    var w := Run(moves);
    var x := Fresh(begin, RowOf(w, begin.key), w.log, now);
    CompletesFrom(Undisturbed(Next(w, begin), begin.id, [Quietly(now), Quietly(0)]), x, begin.id, plans, result);
    UndisturbedOn(Next(w, begin), begin.id, [Quietly(now), Quietly(0)],
                  AllChoices(plans) + AnswerChoices(AfterCommits(x, plans), result));
  }

  lemma CompletesFrom(w: World, x: Scene, id: nat, plans: seq<Plan>, result: Result)
    requires Plays(w, x) && InExecution(x) && MayCommitAll(x, plans) && MayAnswer(AfterCommits(x, plans), result)
    requires id == x.call.id
    ensures var y := AfterCommits(x, plans);
            Plays(Undisturbed(w, id, AllChoices(plans) + AnswerChoices(y, result)), AfterAnswer(y, result))
  {
    ExecutionsComplete(w, x, plans, result);
  }

  /** The row has moved on since it was read: to another status, or another generation whose lease has run out. */
  predicate MovedOn(record: Row, row: Row, events: seq<Event>, now: int) {
    row.status != Processing || (row.token != record.token && Expired(row, now) && events == [] && row.range.None?)
  }

  /** A takeover that others were faster than reads the row again, as it is now, and resolves that. */
  lemma LostTakeoversReadAgain(w: World, x: Scene, now: int)
    requires Plays(w, x) && x.call.pc.TakingOver? && x.row.Some? && x.call.worker != ""
    requires LeaseDeadline(now, x.call.ttl).Some?
    requires MovedOn(x.call.pc.record, x.row.value, Select(x.log, OfCommand(CommandOf(x.call))), now)
    ensures Plays(Undisturbed(w, x.call.id, [Quietly(now), Quietly(0)]),
                  x.(call := x.call.(pc := Resolving(x.row.value))))
  {
    var call, s := w.calls[x.call.id], View(w, x.call.key);
    PlaysOn(w, x, Quietly(now), call.(pc := Refetching, rounds := call.rounds + 1), s);
    RefetchedIsResolved(Next(w, Take(x.call.id, Quietly(now))), x.(call := x.call.(pc := Refetching)));
    TwoSteps(w, x.call.id, Quietly(now), Quietly(0));
  }

  /** So does a revocation. */
  lemma LostRevocationsReadAgain(w: World, x: Scene, now: int)
    requires Plays(w, x) && x.call.pc.Revoking? && x.row.Some? && x.call.pc.record.token > 0
    requires x.row.value.status != Processing || x.row.value.token != x.call.pc.record.token
    ensures Plays(Undisturbed(w, x.call.id, [Quietly(now), Quietly(0)]),
                  x.(call := x.call.(pc := Resolving(x.row.value))))
  {
    var call, s := w.calls[x.call.id], View(w, x.call.key);
    PlaysOn(w, x, Quietly(now), call.(pc := Refetching, rounds := call.rounds + 1), s);
    RefetchedIsResolved(Next(w, Take(x.call.id, Quietly(now))), x.(call := x.call.(pc := Refetching)));
    TwoSteps(w, x.call.id, Quietly(now), Quietly(0));
  }

  lemma RefetchedIsResolved(w: World, y: Scene)
    requires Plays(w, y) && y.call.pc.Refetching? && y.row.Some?
    ensures Plays(Next(w, Take(y.call.id, Quietly(0))), y.(call := y.call.(pc := Resolving(y.row.value))))
  {
    PlaysOn(w, y, Quietly(0), w.calls[y.call.id].(pc := Resolving(y.row.value)), View(w, y.call.key));
  }
}
