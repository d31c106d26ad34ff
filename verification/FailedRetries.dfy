/** Recorded errors are permanent: a failed command answers every retry with the error on record, and one that was left
    open is reconciled to what the log says. */
module FailedRetries {
  import opened Events
  import opened StoreContracts
  import opened CommandRows
  import opened Stores
  import opened Coordinator
  import opened Ownership
  import opened Runs
  import opened Permanence
  import opened RecordedErrors

  /** An open failure whose events form a range: a retry settles it. */
  predicate IsSettled(c: CommandId, row: Row, events: seq<Event>) {
    LeavesOpen(row) && Contiguous(c, events)
  }

  /** All a failed row can become. */
  predicate MayBecome(c: CommandId, row: Row, events: seq<Event>, row': Row) {
    row' == row || (IsSettled(c, row, events) && row' == Reconciled(row, events))
  }

  /** What every retry is answered. */
  function AnswerTo(c: CommandId, row: Row, events: seq<Event>): CommandError
    requires row.error.Some?
  {
    if LeavesOpen(row) then
      if Contiguous(c, events) then Interrupted(events) else Inconsistent(HistoryInconsistent, events)
    else if Covers(c, row.range, events) then row.error.value
    else Inconsistent(HistoryInconsistent, events)
  }

  /** And the row it finally leaves behind. */
  function RowAfter(c: CommandId, row: Row, events: seq<Event>): Row {
    if IsSettled(c, row, events) then Reconciled(row, events) else row
  }

  /** The key's command has failed, as `row` says or as it was reconciled since; an open failure has events. */
  ghost predicate HasFailed(w: World, key: CommandKey, row: Row, events: seq<Event>) {
    && row.status == Failed && row.error.Some? && (LeavesOpen(row) ==> events != [])
    && key in w.rows && MayBecome(Key(key), row, events, w.rows[key]) && EventsIn(w, Key(key)) == events
  }

  lemma ReconciledAgain(c: CommandId, row: Row, events: seq<Event>)
    requires SaysInterrupted(row) && RowSays(Some(row), events) && RowInv(c, row, events) && events != []
    ensures Reconciled(row, events) == row
  {
  }

  /** No step changes a failed row but the reconciliation of an open one. */
  lemma StepsKeepFailed(c: CommandId, call: Call, s: Shared, call': Call, s': Shared, row: Row)
    requires Stepped(c, call, s, call', s') && s.row.Some? && RowSays(s.row, EventsOf(s, c))
    requires CallSays(c, call, s.row)
    requires row.status == Failed && row.error.Some? && (LeavesOpen(row) ==> EventsOf(s, c) != [])
    requires MayBecome(c, row, EventsOf(s, c), s.row.value)
    ensures s'.row.Some? && MayBecome(c, row, EventsOf(s, c), s'.row.value)
    ensures s.row.value != row ==> s'.row == s.row
    ensures EventsOf(s', c) == EventsOf(s, c)
  {
    if call.pc.ReconcilingFailure? && s'.row != s.row {
      assert call.pc.events == EventsOf(s, c);
      if SaysInterrupted(s.row.value) { ReconciledAgain(c, s.row.value, EventsOf(s, c)); }
    }
  }

  lemma MovesKeepFailed(w: World, move: Move, key: CommandKey, row: Row, events: seq<Event>)
    requires Inv(w) && SaysAll(w) && HasFailed(w, key, row, events)
    ensures HasFailed(Next(w, move), key, row, events)
    ensures w.rows[key] != row ==> Next(w, move).rows[key] == w.rows[key]
  {
    if move.Take? && move.id in w.calls {
      var call := w.calls[move.id];
      var c, s := CommandOf(call), View(w, call.key);
      var r := Step(c, call, s, move.choice);
      StepSound(w, move.id, move.choice);
      if call.key == Some(key) {
        TakeIsStepped(w, move.id, move.choice);
        assert RowSays(Lookup(w.rows, key), EventsIn(w, Key(key)));
        StepsKeepFailed(c, call, s, r.0, r.1, row);
        OwnView(w, call, r.0, r.1);
      } else {
        OtherCommandsUntouched(w, call, r.0, r.1, Key(key));
      }
    }
  }

  lemma {:induction false} RunsKeepFailed(moves: seq<Move>, more: seq<Move>, key: CommandKey, row: Row,
                                          events: seq<Event>)
    requires HasFailed(Run(moves), key, row, events)
    ensures HasFailed(Run(moves + more), key, row, events)
    ensures Run(moves).rows[key] != row ==> Run(moves + more).rows[key] == Run(moves).rows[key]
  {
    if more == [] {
      assert moves + more == moves;
    } else {
      var shorter, last := more[..|more| - 1], more[|more| - 1];
      RunsOnAfter(moves, more, shorter, last);
      RunsKeepFailed(moves, shorter, key, row, events);
      RunMovesOn(moves + shorter, Run(moves + shorter), last, Run(moves + more), key, row, events);
    }
  }

  lemma RunMovesOn(moves: seq<Move>, w: World, move: Move, w': World, key: CommandKey, row: Row, events: seq<Event>)
    requires w == Run(moves) && w' == Next(w, move) && HasFailed(w, key, row, events)
    ensures HasFailed(w', key, row, events)
    ensures w.rows[key] != row ==> w'.rows[key] == w.rows[key]
  {
    RunInv(moves);
    RunSays(moves);
    MovesKeepFailed(w, move, key, row, events);
  }

  /** A retry where it stands. */
  ghost predicate Retrying(w: World, id: nat, key: CommandKey, row: Row, events: seq<Event>, pc: Pc) {
    && HasFailed(w, key, row, events)
    && id in w.calls && w.calls[id].id == id && w.calls[id].key == Some(key) && w.calls[id].request == row.request
    && w.calls[id].pc == pc
  }

  lemma OthersLeaveItRetrying(moves: seq<Move>, more: seq<Move>, id: nat, key: CommandKey, row: Row,
                              events: seq<Event>, pc: Pc)
    requires Retrying(Run(moves), id, key, row, events, pc) && NotOf(id, more)
    ensures Retrying(Run(moves + more), id, key, row, events, pc)
    ensures Run(moves + more).calls[id] == Run(moves).calls[id]
    ensures Run(moves).rows[key] != row ==> Run(moves + more).rows[key] == Run(moves).rows[key]
  {
    RunsKeepFailed(moves, more, key, row, events);
    OthersLeaveTheCall(moves, more, id);
  }

  lemma FailedRetryBegins(moves: seq<Move>, begin: Move, key: CommandKey, row: Row, events: seq<Event>)
    requires HasFailed(Run(moves), key, row, events)
    requires begin.Begin? && begin.id !in Run(moves).calls && begin.key == Some(key) && begin.request == row.request
    ensures Retrying(Run(moves + [begin]), begin.id, key, row, events, Reserving)
    ensures Run(moves + [begin]).calls[begin.id].worker == begin.worker
    ensures Run(moves + [begin]).calls[begin.id].ttl == begin.ttl
  {
    RunsOn(moves, begin);
  }

  lemma FailedRetryReserves(moves: seq<Move>, id: nat, key: CommandKey, row: Row, events: seq<Event>, ch: Choice)
    requires Retrying(Run(moves), id, key, row, events, Reserving) && ch.fault == Faultless
    requires LeaseGranted(Run(moves).calls[id].worker, Run(moves).calls[id].ttl, ch.now)
    ensures var read := Run(moves).rows[key];
            && Retrying(Run(moves + [Take(id, ch)]), id, key, row, events, Resolving(read))
            && Run(moves + [Take(id, ch)]).rows[key] == read
  {
    RunsOn(moves, Take(id, ch));
    var w := Run(moves);
    var call, s := w.calls[id], View(w, Some(key));
    TakePuts(w, id, ch, call, s, call.(pc := Resolving(w.rows[key])), s);
  }

  /** Where resolving leads, for a failed row as it was read. */
  function ResolvedTo(c: CommandId, row: Row, events: seq<Event>, read: Row): Pc
    requires row.error.Some?
  {
    if read == row && IsSettled(c, row, events) then ReconcilingFailure(row, events)
    else Ended(Thrown(AnswerTo(c, row, events)))
  }

  lemma ResolvingFailures(c: CommandId, call: Call, row: Row, events: seq<Event>, read: Row)
    requires row.status == Failed && row.error.Some? && (LeavesOpen(row) ==> events != [])
    requires MayBecome(c, row, events, read)
    ensures Resolve(c, call, read, events) == call.(pc := ResolvedTo(c, row, events, read))
  {
  }

  lemma FailedRetryResolves(moves: seq<Move>, id: nat, key: CommandKey, row: Row, events: seq<Event>, read: Row,
                            ch: Choice)
    requires Retrying(Run(moves), id, key, row, events, Resolving(read)) && MayBecome(Key(key), row, events, read)
    requires !ch.readFails
    ensures Retrying(Run(moves + [Take(id, ch)]), id, key, row, events, ResolvedTo(Key(key), row, events, read))
    ensures Run(moves + [Take(id, ch)]).rows[key] == Run(moves).rows[key]
  {
    RunsOn(moves, Take(id, ch));
    var w := Run(moves);
    var call, s := w.calls[id], View(w, Some(key));
    ResolvingFailures(Key(key), call, row, events, read);
    TakeShows(w, id, key, ch, call.(pc := ResolvedTo(Key(key), row, events, read)), s);
  }

  /** Log entries are well shaped, so a contiguous list of a command's events has a range. */
  lemma ContiguousIsRange(w: World, c: CommandId)
    requires SaysAll(w) && Contiguous(c, EventsIn(w, c))
    ensures BuildRange(c, EventsIn(w, c)) == Some(RangeOf(EventsIn(w, c)))
  {
    var events := EventsIn(w, c);
    forall i | 0 <= i < |events| ensures PositiveSafe(events[i].sequence) {
      SelectMembers(w.log, OfCommand(c), events[i]);
    }
  }

  lemma ReconcilesTo(c: CommandId, call: Call, s: Shared, ch: Choice, row: Row, events: seq<Event>)
    requires call.pc == ReconcilingFailure(row, events) && ch.fault == Faultless && IsSettled(c, row, events)
    requires s.row.Some? && MayBecome(c, row, events, s.row.value) && BuildRange(c, events) == Some(RangeOf(events))
    ensures StepReconcilingFailure(c, call, s, ch)
            == (End(call, Interrupted(events)), Write(s, Some(Reconciled(row, events))))
  {
  }

  lemma FailedRetryReconciles(moves: seq<Move>, id: nat, key: CommandKey, row: Row, events: seq<Event>, ch: Choice)
    requires Retrying(Run(moves), id, key, row, events, ReconcilingFailure(row, events)) && ch.fault == Faultless
    requires IsSettled(Key(key), row, events)
    ensures Retrying(Run(moves + [Take(id, ch)]), id, key, row, events, Ended(Thrown(Interrupted(events))))
    ensures Run(moves + [Take(id, ch)]).rows[key] == Reconciled(row, events)
  {
    RunsOn(moves, Take(id, ch));
    RunSays(moves);
    var w := Run(moves);
    var call, s := w.calls[id], View(w, Some(key));
    ContiguousIsRange(w, Key(key));
    ReconcilesTo(Key(key), call, s, ch, row, events);
    TakeShows(w, id, key, ch, End(call, Interrupted(events)), Write(s, Some(Reconciled(row, events))));
  }

  lemma EndedStaysEnded(moves: seq<Move>, id: nat, key: CommandKey, row: Row, events: seq<Event>, outcome: Outcome,
                        ch: Choice)
    requires Retrying(Run(moves), id, key, row, events, Ended(outcome))
    ensures Retrying(Run(moves + [Take(id, ch)]), id, key, row, events, Ended(outcome))
    ensures Run(moves + [Take(id, ch)]).rows[key] == Run(moves).rows[key]
  {
    RunsOn(moves, Take(id, ch));
    var w := Run(moves);
    TakeShows(w, id, key, ch, w.calls[id], View(w, Some(key)));
  }

  /** From resolving to the answer, with any moves of others in between. */
  lemma FailedRetryAnswers(moves: seq<Move>, third: seq<Move>, ch3: Choice, id: nat, key: CommandKey, row: Row,
                           events: seq<Event>, read: Row)
    requires row.error.Some?
    requires Retrying(Run(moves), id, key, row, events, ResolvedTo(Key(key), row, events, read))
    requires MayBecome(Key(key), row, events, read) && (read != row ==> Run(moves).rows[key] == read)
    requires NotOf(id, third) && ch3.fault == Faultless
    ensures var w := Run(moves + third + [Take(id, ch3)]);
            && Retrying(w, id, key, row, events, Ended(Thrown(AnswerTo(Key(key), row, events))))
            && w.rows[key] == RowAfter(Key(key), row, events)
  {
    var pc := ResolvedTo(Key(key), row, events, read);
    OthersLeaveItRetrying(moves, third, id, key, row, events, pc);
    if pc.ReconcilingFailure? {
      FailedRetryReconciles(moves + third, id, key, row, events, ch3);
    } else {
      EndedStaysEnded(moves + third, id, key, row, events, pc.outcome, ch3);
    }
  }

  /** Recorded errors are permanent: after any run that left a command failed, however far the log has grown, a retry
      with the same key and payload whose reads and write do not fail ends in the error on record, identical in code,
      in what it says of commitment and in its events; with any moves of others before and between its steps, and the
      row untouched. An open failure is answered, and recorded, as interrupted, with exactly the command's events,
      whoever reconciles it first; a row whose bookkeeping does not match its events is answered as inconsistent. */
  lemma ErrorsArePermanent(moves: seq<Move>, key: CommandKey, row: Row, events: seq<Event>, begin: Move,
                           first: seq<Move>, ch1: Choice, second: seq<Move>, ch2: Choice,
                           third: seq<Move>, ch3: Choice)
    requires key in Run(moves).rows && Run(moves).rows[key] == row && row.status == Failed
    requires EventsIn(Run(moves), Key(key)) == events && (LeavesOpen(row) ==> events != [])
    requires begin.Begin? && begin.id !in Run(moves).calls && begin.key == Some(key) && begin.request == row.request
    requires NotOf(begin.id, first) && NotOf(begin.id, second) && NotOf(begin.id, third)
    requires ch1.fault == Faultless && LeaseGranted(begin.worker, begin.ttl, ch1.now)
    requires !ch2.readFails && ch3.fault == Faultless
    ensures row.error.Some?
    ensures var w := Run(moves + Retry(begin, first, ch1, second, ch2, third, ch3));
            && Retrying(w, begin.id, key, row, events, Ended(Thrown(AnswerTo(Key(key), row, events))))
            && w.rows[key] == RowAfter(Key(key), row, events)
  {
    var id, begun := begin.id, moves + [begin];
    FailedRowsHaveErrors(moves, key);
    FailedRetryBegins(moves, begin, key, row, events);
    OthersLeaveItRetrying(begun, first, id, key, row, events, Reserving);
    var read := Run(begun + first).rows[key];
    FailedRetryReserves(begun + first, id, key, row, events, ch1);
    var reserved := begun + first + [Take(id, ch1)];
    OthersLeaveItRetrying(reserved, second, id, key, row, events, Resolving(read));
    FailedRetryResolves(reserved + second, id, key, row, events, read, ch2);
    FailedRetryAnswers(reserved + second + [Take(id, ch2)], third, ch3, id, key, row, events, read);
    RetryInOrder(moves, begin, first, ch1, second, ch2, third, ch3);
  }

  lemma FailedRowsHaveErrors(moves: seq<Move>, key: CommandKey)
    requires key in Run(moves).rows && Run(moves).rows[key].status == Failed
    ensures Run(moves).rows[key].error.Some?
  {
    RunInv(moves);
    assert CommandInv(Key(key), Lookup(Run(moves).rows, key), EventsIn(Run(moves), Key(key)));
  }

  /** A revocation that changed the row. */
  ghost predicate Revoked(c: CommandId, call: Call, s: Shared, ch: Choice) {
    call.pc.Revoking? && ch.fault == Faultless && StepRevoking(c, call, s, ch).1.row != s.row
  }

  lemma RevocationsAnswer(c: CommandId, call: Call, s: Shared, ch: Choice)
    requires call.pc.Revoking? && ch.fault == Faultless && s.row.Some? && s.row.value.token > 0
    requires EventsOf(s, c) != [] && BuildRange(c, EventsOf(s, c)) == Some(RangeOf(EventsOf(s, c)))
    ensures Revoked(c, call, s, ch) <==>
            && s.row.value.status == Processing && s.row.value.token == call.pc.record.token
            && Expired(s.row.value, ch.now)
    ensures Revoked(c, call, s, ch) ==>
              StepRevoking(c, call, s, ch)
              == (End(call, Interrupted(EventsOf(s, c))),
                  Write(s, Some(Reconciled(s.row.value, EventsOf(s, c))
                                .(status := Failed, owner := None, deadline := None))))
  {
  }

  /** In every reachable world a revocation of a command with contiguous events takes effect exactly if the generation
      that was read is still being processed and its deadline has passed; the row then says, and the call is answered,
      that the command was interrupted with exactly the events it has. */
  lemma RevocationsAreAnswered(moves: seq<Move>, id: nat, key: CommandKey, ch: Choice)
    requires var w := Run(moves);
             && id in w.calls && w.calls[id].key == Some(key) && w.calls[id].pc.Revoking? && key in w.rows
             && Contiguous(Key(key), EventsIn(w, Key(key))) && ch.fault == Faultless
    ensures var w, w' := Run(moves), Next(Run(moves), Take(id, ch));
            var row, events := w.rows[key], EventsIn(w, Key(key));
            && key in w'.rows && id in w'.calls
            && (w'.rows[key] != row <==>
                  row.status == Processing && row.token == w.calls[id].pc.record.token && Expired(row, ch.now))
            && (w'.rows[key] != row ==>
                  && w'.rows[key] == Reconciled(row, events).(status := Failed, owner := None, deadline := None)
                  && w'.calls[id].pc == Ended(Thrown(Interrupted(events))))
  {
    var w := Run(moves);
    RunInv(moves);
    RunSays(moves);
    assert CommandInv(Key(key), Lookup(w.rows, key), EventsIn(w, Key(key)));
    ContiguousIsRange(w, Key(key));
    RevokesTo(w, id, key, ch);
  }

  lemma RevokesTo(w: World, id: nat, key: CommandKey, ch: Choice)
    requires Inv(w) && id in w.calls && w.calls[id].key == Some(key) && w.calls[id].pc.Revoking? && key in w.rows
    requires w.rows[key].token > 0 && EventsIn(w, Key(key)) != [] && ch.fault == Faultless
    requires BuildRange(Key(key), EventsIn(w, Key(key))) == Some(RangeOf(EventsIn(w, Key(key))))
    ensures var w' := Next(w, Take(id, ch));
            && key in w'.rows && id in w'.calls
            && RevocationTold(w.rows[key], EventsIn(w, Key(key)), w.calls[id].pc.record.token, ch.now,
                              w'.rows[key], w'.calls[id].pc)
  {
    var call, s := w.calls[id], View(w, Some(key));
    RevocationsAnswer(Key(key), call, s, ch);
    var r := StepRevoking(Key(key), call, s, ch);
    assert RevocationTold(s.row.value, EventsOf(s, Key(key)), call.pc.record.token, ch.now, r.1.row.value, r.0.pc);
    assert w.calls[id].id == id;
    TakeShows(w, id, key, ch, r.0, r.1);
  }

  /** The row changes exactly if it may be revoked; then it says, and the call is answered, what happened. */
  ghost predicate RevocationTold(row: Row, events: seq<Event>, generation: nat, now: int, row': Row, pc: Pc)
    requires events != []
  {
    && (row' != row <==> row.status == Processing && row.token == generation && Expired(row, now))
    && (row' != row ==>
          && row' == Reconciled(row, events).(status := Failed, owner := None, deadline := None)
          && pc == Ended(Thrown(Interrupted(events))))
  }
}
