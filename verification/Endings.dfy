/** How an undisturbed execution ends: completed with its answer, failed with the error it answers, or given up so that
    the key can be used again. */
module Endings {
  import opened Events
  import opened Projection
  import opened StoreContracts
  import opened CommandRows
  import opened EventLog
  import opened Receipts
  import opened ReceiptChecks
  import opened Coordinator
  import opened Runs
  import opened Progress
  import opened RecordedErrors
  import opened Outcomes

  /** The state of the whole history, as the engine's commands answer it after their events, or after none where there
      was nothing to undo. */
  ghost predicate MayAnswer(x: Scene, result: Result) {
    var known := Known(x.log, result.aggregate);
    && known != [] && Project(known) == Returns(result.state)
    && (result.snapshot.Some? ==> result.snapshot.value == SnapshotOf(known))
    && (if x.call.committed != [] then x.call.committed[0].aggregate == result.aggregate
        else x.call.request.commandType == CompensateOrder && result.events == Some([]))
  }

  /** The receipt names the last event of the history the answer was read from. */
  function ReceiptFor(x: Scene, result: Result): Receipt
    requires Known(x.log, result.aggregate) != []
  {
    var known := Known(x.log, result.aggregate);
    Receipt(1, if x.call.committed == [] then EffectNone else EffectEvents,
            Some(Anchor(result.aggregate, |known|, Some(known[|known| - 1].id))))
  }

  function AfterAnswer(x: Scene, result: Result): Scene
    requires x.row.Some? && Known(x.log, result.aggregate) != []
  {
    x.(call := x.call.(pc := Ended(Answer(result))),
       row := Some(x.row.value.(status := Finished, result := Some(result), receipt := Some(ReceiptFor(x, result)),
                                owner := None, deadline := None)))
  }

  lemma AnswerIsAccepted(x: Scene, result: Result)
    requires InExecution(x) && MayAnswer(x, result)
    ensures var known := Known(x.log, result.aggregate);
            && Plausible(CommandOf(x.call), x.call, x.log, Answers(result, |known|, |known|))
            && ValidateResult(result, x.log) == Anchored(ReceiptFor(x, result).anchor)
            && ValidReceipt(ReceiptFor(x, result))
  {
    var known := Known(x.log, result.aggregate);
    assert known[..|known|] == known && Dense(known);
    ResultsAreValidatedExactly(result, x.log);
    SelectMembers(x.log, OfAggregate(result.aggregate), known[|known| - 1]);
  }

  lemma AnswerCompletes(w: World, x: Scene, result: Result)
    requires Plays(w, x) && InExecution(x) && MayAnswer(x, result)
    ensures var known := Known(x.log, result.aggregate);
            Plays(Next(w, Take(x.call.id, Deeds(Answers(result, |known|, |known|)))),
                  x.(call := x.call.(pc := Completing(result, ReceiptFor(x, result)))))
  {
    AnswerIsAccepted(x, result);
    var known := Known(x.log, result.aggregate);
    var call := w.calls[x.call.id];
    PlaysOn(w, x, Deeds(Answers(result, |known|, |known|)), call.(pc := Completing(result, ReceiptFor(x, result))),
            View(w, x.call.key));
  }

  lemma CompletionIsStored(w: World, x: Scene, result: Result)
    requires InExecution(x) && MayAnswer(x, result)
    requires Plays(w, x.(call := x.call.(pc := Completing(result, ReceiptFor(x, result)))))
    ensures Plays(Next(w, Take(x.call.id, Quietly(0))), AfterAnswer(x, result))
  {
    AnswerIsAccepted(x, result);
    var call := w.calls[x.call.id];
    PlaysOn(w, x.(call := x.call.(pc := Completing(result, ReceiptFor(x, result)))), Quietly(0),
            call.(pc := Ended(Answer(result))), Write(View(w, x.call.key), AfterAnswer(x, result).row));
  }

  /** A callback that answers with the state of the history completes its command: the row holds that result, and a
      receipt anchored at the history's last event. */
  lemma AnswersComplete(w: World, x: Scene, result: Result)
    requires Plays(w, x) && InExecution(x) && MayAnswer(x, result)
    ensures var known := Known(x.log, result.aggregate);
            Plays(Undisturbed(w, x.call.id, [Deeds(Answers(result, |known|, |known|)), Quietly(0)]),
                  AfterAnswer(x, result))
  {
    var known := Known(x.log, result.aggregate);
    AnswerCompletes(w, x, result);
    CompletionIsStored(Next(w, Take(x.call.id, Deeds(Answers(result, |known|, |known|)))), x, result);
    TwoSteps(w, x.call.id, Deeds(Answers(result, |known|, |known|)), Quietly(0));
  }

  lemma TwoSteps(w: World, id: nat, one: Choice, two: Choice)
    ensures Undisturbed(w, id, [one, two]) == Next(Next(w, Take(id, one)), Take(id, two))
  {
    assert Undisturbed(w, id, []) == w;
    UndisturbedOneMore(w, id, [], one);
    UndisturbedOneMore(w, id, [one], two);
    assert [] + [one] == [one] && [one] + [two] == [one, two];
  }

  /** What a callback may throw: a domain error that claims a commit only after one. */
  predicate MayThrow(x: Scene, error: CommandError) {
    && error.code in {Uncoded, AggregateNotFound, CompensationRequired, ViewRepairFailed}
    && (error.committed == Yes ==> x.call.committed != [])
  }

  /** What the call is answered: after events, that they are committed, in the error's own words if it says so itself;
      before the first, the error with the word that nothing is. */
  function Told(x: Scene, error: CommandError): CommandError {
    if x.call.committed == [] then CommandError(error.code, No, error.eventIds)
    else if error.committed == Yes then error
    else CommandError(PartiallyCommitted, Yes, Ids(x.call.committed))
  }

  /** What becomes of the row: a rejected command, or one with events, has failed with what the call is told; any other
      is given up. */
  function ThrownRow(x: Scene, error: CommandError): Row
    requires x.row.Some?
  {
    var row := x.row.value.(owner := None, deadline := None);
    if x.call.committed == [] && error.code != AggregateNotFound && error.code != CompensationRequired
    then row.(status := Status.Released)
    else row.(status := Status.Failed, error := Some(Told(x, error)))
  }

  function AfterThrow(x: Scene, error: CommandError): Scene
    requires x.row.Some?
  {
    x.(call := x.call.(pc := Ended(Thrown(Told(x, error)))), row := Some(ThrownRow(x, error)))
  }

  /** Where handling the error leads first. */
  function Handling(x: Scene, error: CommandError): Scene
    requires x.call.token.Some?
  {
    var told := Told(x, error);
    x.(call := x.call.(pc :=
      if x.call.committed != [] then Reconciling(told, x.call.committed)
      else if error.code == AggregateNotFound || error.code == CompensationRequired
      then Failing(x.call.token.value, told, [])
      else Pc.Releasing(told)))
  }

  lemma ErrorIsHandled(w: World, x: Scene, error: CommandError)
    requires Plays(w, x) && InExecution(x) && MayThrow(x, error)
    ensures Plays(Next(w, Take(x.call.id, Deeds(ThrowsError(error)))), Handling(x, error))
  {
    var call := w.calls[x.call.id];
    PlaysOn(w, x, Deeds(ThrowsError(error)), call.(pc := Handling(x, error).call.pc), View(w, x.call.key));
  }

  lemma ReservationIsGivenUp(w: World, x: Scene, error: CommandError)
    requires InExecution(x) && MayThrow(x, error)
    requires Plays(w, Handling(x, error)) && Handling(x, error).call.pc.Releasing?
    ensures Plays(Next(w, Take(x.call.id, Quietly(0))), AfterThrow(x, error))
  {
    var call := w.calls[x.call.id];
    PlaysOn(w, Handling(x, error), Quietly(0), End(call, Told(x, error)),
            Write(View(w, x.call.key), Some(ThrownRow(x, error))));
  }

  /** The failure write, with or without its acknowledgement. */
  function FailingWith(x: Scene, error: CommandError): Scene
    requires x.call.token.Some?
  {
    x.(call := x.call.(pc := Failing(x.call.token.value, Told(x, error), x.call.committed)))
  }

  lemma EventsAreBooked(w: World, x: Scene, error: CommandError)
    requires InExecution(x) && MayThrow(x, error) && Plays(w, Handling(x, error)) && x.call.committed != []
    ensures Plays(Next(w, Take(x.call.id, Quietly(0))), FailingWith(x, error))
  {
    var call := w.calls[x.call.id];
    var c, events := CommandOf(x.call), x.call.committed;
    forall i | 0 <= i < |events| ensures PositiveSafe(events[i].sequence) {
      SelectMembers(x.log, OfCommand(c), events[i]);
    }
    assert ReconcileEvents(x.row, c, events, x.call.token) == (x.row, Done(()));
    PlaysOn(w, Handling(x, error), Quietly(0), call.(pc := FailingWith(x, error).call.pc), View(w, x.call.key));
  }

  lemma FailureIsWritten(w: World, x: Scene, error: CommandError)
    requires InExecution(x) && MayThrow(x, error) && Plays(w, FailingWith(x, error))
    requires ThrownRow(x, error).status == Status.Failed
    ensures Plays(Next(w, Take(x.call.id, Quietly(0))), AfterThrow(x, error))
  {
    var call := w.calls[x.call.id];
    PlaysOn(w, FailingWith(x, error), Quietly(0), End(call, Told(x, error)),
            Write(View(w, x.call.key), Some(ThrownRow(x, error))));
  }

  function Lost(): Choice {
    Choice(0, LosesAck, false, ThrowsError(UNCODED))
  }

  /** A failure write whose acknowledgement is lost is read back: the answer is the same. */
  lemma LostFailureIsRead(w: World, x: Scene, error: CommandError)
    requires InExecution(x) && MayThrow(x, error) && Plays(w, FailingWith(x, error))
    requires ThrownRow(x, error).status == Status.Failed
    ensures Plays(Next(Next(w, Take(x.call.id, Lost())), Take(x.call.id, Quietly(0))), AfterThrow(x, error))
  {
    var call := w.calls[x.call.id];
    var pc := Rereading(x.call.token.value, Told(x, error), x.call.committed);
    var y := x.(call := x.call.(pc := pc), row := Some(ThrownRow(x, error)));
    PlaysOn(w, FailingWith(x, error), Lost(), call.(pc := pc),
            Write(View(w, x.call.key), Some(ThrownRow(x, error))));
    TruthIsRead(Next(w, Take(x.call.id, Lost())), x, y, error);
  }

  lemma TruthIsRead(w: World, x: Scene, y: Scene, error: CommandError)
    requires InExecution(x) && ThrownRow(x, error).status == Status.Failed && Plays(w, y)
    requires y == x.(call := x.call.(pc := Rereading(x.call.token.value, Told(x, error), x.call.committed)),
                     row := Some(ThrownRow(x, error)))
    ensures Plays(Next(w, Take(x.call.id, Quietly(0))), AfterThrow(x, error))
  {
    PlaysOn(w, y, Quietly(0), End(w.calls[x.call.id], Told(x, error)), View(w, x.call.key));
  }

  /** The steps of the error's handling. */
  function ThrowChoices(x: Scene, error: CommandError, acknowledged: bool): seq<Choice>
    requires x.row.Some?
  {
    [Deeds(ThrowsError(error))]
    + (if x.call.committed != [] then [Quietly(0)] else [])
    + (if ThrownRow(x, error).status == Status.Released || acknowledged then [Quietly(0)] else [Lost(), Quietly(0)])
  }

  /** A callback that throws leaves its command failed or given up, and is told what the row says: the same error, the
      same word about commitment, the same events; also when the failure write's acknowledgement is lost. */
  lemma ErrorsEnd(w: World, x: Scene, error: CommandError, acknowledged: bool)
    requires Plays(w, x) && InExecution(x) && MayThrow(x, error)
    ensures Plays(Undisturbed(w, x.call.id, ThrowChoices(x, error, acknowledged)), AfterThrow(x, error))
  {
    var id := x.call.id;
    var w1 := Next(w, Take(id, Deeds(ThrowsError(error))));
    ErrorIsHandled(w, x, error);
    var w2 := if x.call.committed != [] then Next(w1, Take(id, Quietly(0))) else w1;
    if x.call.committed != [] { EventsAreBooked(w1, x, error); }
    if ThrownRow(x, error).status == Status.Released {
      ReservationIsGivenUp(w2, x, error);
    } else if acknowledged {
      FailureIsWritten(w2, x, error);
    } else {
      LostFailureIsRead(w2, x, error);
    }
    ThrowSteps(w, x, error, acknowledged, w1, w2);
  }

  lemma ThrowSteps(w: World, x: Scene, error: CommandError, acknowledged: bool, w1: World, w2: World)
    requires x.row.Some?
    requires var id := x.call.id;
             && w1 == Next(w, Take(id, Deeds(ThrowsError(error))))
             && w2 == if x.call.committed != [] then Next(w1, Take(id, Quietly(0))) else w1
    ensures var id := x.call.id;
            Undisturbed(w, id, ThrowChoices(x, error, acknowledged))
            == if ThrownRow(x, error).status == Status.Released || acknowledged then Next(w2, Take(id, Quietly(0)))
               else Next(Next(w2, Take(id, Lost())), Take(id, Quietly(0)))
  {
    var id := x.call.id;
    var one := [Deeds(ThrowsError(error))];
    var two := one + (if x.call.committed != [] then [Quietly(0)] else []);
    assert Undisturbed(w, id, []) == w && [] + one == one;
    UndisturbedOneMore(w, id, [], one[0]);
    UndisturbedOneMore(w, id, one, Quietly(0));
    assert two == one || two == one + [Quietly(0)];
    UndisturbedOneMore(w, id, two, Quietly(0));
    UndisturbedOneMore(w, id, two, Lost());
    UndisturbedOneMore(w, id, two + [Lost()], Quietly(0));
    assert two + [Lost(), Quietly(0)] == two + [Lost()] + [Quietly(0)];
  }

  /** The steps that answer with the state of the history as it then is. */
  function AnswerChoices(x: Scene, result: Result): seq<Choice> {
    var length := |Known(x.log, result.aggregate)|;
    [Deeds(Answers(result, length, length)), Quietly(0)]
  }

  /** A whole execution that succeeds: its events are in the log, exactly booked, and its command is completed. */
  lemma ExecutionsComplete(w: World, x: Scene, plans: seq<Plan>, result: Result)
    requires Plays(w, x) && InExecution(x) && MayCommitAll(x, plans) && MayAnswer(AfterCommits(x, plans), result)
    ensures var y := AfterCommits(x, plans);
            Plays(Undisturbed(w, x.call.id, AllChoices(plans) + AnswerChoices(y, result)), AfterAnswer(y, result))
  {
    var id, y := x.call.id, AfterCommits(x, plans);
    CommitsAll(w, x, plans);
    AfterCommitsGrows(x, plans);
    UndisturbedOn(w, id, AllChoices(plans), AnswerChoices(y, result));
    AnswersCompleteAs(Undisturbed(w, id, AllChoices(plans)), y, id, result);
  }

  lemma AnswersCompleteAs(w: World, y: Scene, id: nat, result: Result)
    requires Plays(w, y) && InExecution(y) && MayAnswer(y, result) && id == y.call.id
    ensures Plays(Undisturbed(w, id, AnswerChoices(y, result)), AfterAnswer(y, result))
  {
    AnswersComplete(w, y, result);
  }

  /** A whole execution that throws, before its first event, between two, or after its last. */
  lemma ExecutionsThrow(w: World, x: Scene, plans: seq<Plan>, error: CommandError, acknowledged: bool)
    requires Plays(w, x) && InExecution(x) && MayCommitAll(x, plans) && MayThrow(AfterCommits(x, plans), error)
    ensures var y := AfterCommits(x, plans);
            Plays(Undisturbed(w, x.call.id, AllChoices(plans) + ThrowChoices(y, error, acknowledged)),
                  AfterThrow(y, error))
  {
    var id, y := x.call.id, AfterCommits(x, plans);
    CommitsAll(w, x, plans);
    AfterCommitsGrows(x, plans);
    UndisturbedOn(w, id, AllChoices(plans), ThrowChoices(y, error, acknowledged));
    ErrorsEndAs(Undisturbed(w, id, AllChoices(plans)), y, id, error, acknowledged);
  }

  lemma ErrorsEndAs(w: World, y: Scene, id: nat, error: CommandError, acknowledged: bool)
    requires Plays(w, y) && InExecution(y) && MayThrow(y, error) && id == y.call.id
    ensures Plays(Undisturbed(w, id, ThrowChoices(y, error, acknowledged)), AfterThrow(y, error))
  {
    ErrorsEnd(w, y, error, acknowledged);
  }

  /** A generation that was lost before the first commit: the call is told so, or that its row is no longer being
      processed, and changes nothing. */
  lemma LostGenerationsStop(w: World, x: Scene, now: int)
    requires Plays(w, x) && x.call.pc.Renewing? && x.call.token.Some? && x.call.committed == [] && x.row.Some?
    requires x.row.value.token != x.call.token.value && x.call.worker != "" && LeaseDeadline(now, x.call.ttl).Some?
    ensures var error := if x.row.value.status == Processing then CommandError(FencingTokenStale, No, [])
                         else CommandError(Uncoded, No, []);
            Plays(Undisturbed(w, x.call.id, [Quietly(now), Quietly(0)]),
                  x.(call := x.call.(pc := Ended(Thrown(error)))))
  {
    var call, s := w.calls[x.call.id], View(w, x.call.key);
    var error := if x.row.value.status == Processing then Stale() else Plain(Uncoded, No);
    var pc := if x.row.value.status == Processing then Ended(Thrown(error)) else Pc.Releasing(error);
    PlaysOn(w, x, Quietly(now), call.(pc := pc), s);
    StandsStill(Next(w, Take(x.call.id, Quietly(now))), x.(call := x.call.(pc := pc)), error);
    TwoSteps(w, x.call.id, Quietly(now), Quietly(0));
  }

  lemma StandsStill(w: World, y: Scene, error: CommandError)
    requires Plays(w, y) && y.row.Some? && y.call.token.Some?
    requires y.call.pc == Ended(Thrown(error))
             || (y.call.pc == Pc.Releasing(error) && y.row.value.status != Processing)
    ensures Plays(Next(w, Take(y.call.id, Quietly(0))), y.(call := y.call.(pc := Ended(Thrown(error)))))
  {
    PlaysOn(w, y, Quietly(0), w.calls[y.call.id].(pc := Ended(Thrown(error))), View(w, y.call.key));
  }

  /** A read that fails. */
  function Unread(): Choice {
    Choice(0, Faultless, true, ThrowsError(UNCODED))
  }

  /** The error that leaves it open whether the command has events. */
  function OpenError(pc: Pc): CommandError {
    if pc.LookingUp? then CommandError(AppendCommitUnknown, Unsaid, [pc.event.id])
    else CommandError(ReconciliationFailed, Unsaid, [])
  }

  /** Where it cannot be read whether a first event was written, or whether there are any, the row fails and says so,
      and the call is told the same: the next retry finds out. */
  lemma UnreadIsLeftOpen(w: World, x: Scene)
    requires Plays(w, x) && (x.call.pc.LookingUp? || x.call.pc.CheckingNew?) && x.call.committed == []
    requires x.call.token.Some? && x.row.Some? && x.row.value.status == Processing
    requires x.row.value.token == x.call.token.value
    ensures var error := OpenError(x.call.pc);
            var row := x.row.value.(status := Status.Failed, error := Some(error), owner := None, deadline := None);
            && Plays(Undisturbed(w, x.call.id, [Unread(), Quietly(0)]),
                     Scene(x.call.(pc := Ended(Thrown(error))), Some(row), x.log))
            && LeavesOpen(row)
  {
    var error, call := OpenError(x.call.pc), w.calls[x.call.id];
    var pc := Failing(x.call.token.value, error, []);
    PlaysOn(w, x, Unread(), call.(pc := pc), View(w, x.call.key));
    OpenErrorIsWritten(Next(w, Take(x.call.id, Unread())), x.(call := x.call.(pc := pc)), error);
    TwoSteps(w, x.call.id, Unread(), Quietly(0));
  }

  lemma OpenErrorIsWritten(w: World, y: Scene, error: CommandError)
    requires Plays(w, y) && y.call.token.Some? && y.row.Some? && y.row.value.status == Processing
    requires y.row.value.token == y.call.token.value && y.call.pc == Failing(y.call.token.value, error, [])
    ensures var row := y.row.value.(status := Status.Failed, error := Some(error), owner := None, deadline := None);
            Plays(Next(w, Take(y.call.id, Quietly(0))),
                  Scene(y.call.(pc := Ended(Thrown(error))), Some(row), y.log))
  {
    var row := y.row.value.(status := Status.Failed, error := Some(error), owner := None, deadline := None);
    PlaysOn(w, y, Quietly(0), End(w.calls[y.call.id], error), Write(View(w, y.call.key), Some(row)));
  }

  /** A call without a key has no row to renew or to book in: its event goes straight to the log. */
  lemma KeylessCallsCommit(call: Call, s: Shared, event: Event)
    requires call.key.None? && call.token.None? && call.pc.Running? && s.row.None?
    requires Plausible(CommandOf(call), call, s.log, Commits(event, event.sequence - 1))
    requires ValidEvent(event) && WellFormedLog(s.log + [event])
    ensures var c := CommandOf(call);
            var pending := StepPc(c, call, s, Deeds(Commits(event, event.sequence - 1)));
            StepPc(c, pending.0, pending.1, Quietly(0))
            == (call.(committed := call.committed + [event]),
                s.(log := s.log + [event], changes := s.changes + 1))
  {
    NextIsAccepted(s.log, FencingError(s.row, call.token), event);
  }

  lemma NextIsAccepted(log: seq<Event>, fencing: Option<CommandError>, event: Event)
    requires fencing.None? && ValidEvent(event) && WellFormedLog(log + [event])
    ensures AppendError(log, fencing, event, event.sequence - 1).None?
  {
    var known := Select(log, OfAggregate(event.aggregate));
    WellFormedPrefix(log, log + [event]);
    SelectAppend(log, event, OfAggregate(event.aggregate));
    assert Dense(Select(log + [event], OfAggregate(event.aggregate)));
    assert (known + [event])[|known|] == event;
    AppendAcceptsExactly(log, fencing, event, event.sequence - 1);
  }

  /** And it is told what it threw, with the word about its own events. */
  lemma KeylessCallsAreTold(call: Call, error: CommandError)
    requires call.key.None?
    ensures Handle(call, error).pc
            == Ended(Thrown(
                 if error.committed == Yes then error
                 else if call.committed != [] then CommandError(PartiallyCommitted, Yes, Ids(call.committed))
                 else if error.code == AppendCommitUnknown then error
                 else CommandError(error.code, No, error.eventIds)))
  {
  }

  /** And it answers what its callback answered, once that is validated. */
  lemma KeylessCallsAnswer(call: Call, s: Shared, result: Result)
    requires call.key.None? && call.pc.Running? && WellFormedLog(s.log)
    requires var known := Known(s.log, result.aggregate);
             known != [] && Plausible(CommandOf(call), call, s.log, Answers(result, |known|, |known|))
    ensures var known := Known(s.log, result.aggregate);
            StepPc(CommandOf(call), call, s, Deeds(Answers(result, |known|, |known|)))
            == (call.(pc := Ended(Answer(result))), s)
  {
    var known := Known(s.log, result.aggregate);
    assert known[..|known|] == known;
    ResultsAreValidatedExactly(result, s.log);
  }

  /** A store operation that throws without effect. */
  function Refused(): Choice {
    Choice(0, Refuses, false, ThrowsError(UNCODED))
  }

  /** The scene once a commit's booking was refused, and the row has failed instead. */
  function AfterRefusedBooking(x: Scene, p: Plan): Scene
    requires x.row.Some?
  {
    var committed := x.call.committed + [p.event];
    var told := CommandError(PartiallyCommitted, Yes, Ids(committed));
    Scene(x.call.(committed := committed, pc := Ended(Thrown(told))),
          Some(x.row.value.(status := Status.Failed, error := Some(told), owner := None, deadline := None,
                            aggregate := Some(RangeOf(committed).aggregate), range := Some(RangeOf(committed)))),
          x.log + [p.event])
  }

  /** Bookkeeping that was refused after the append is caught up before the row fails: the range names all the events,
      the one included that was not booked. */
  lemma RefusedBookingIsCaughtUp(w: World, x: Scene, p: Plan)
    requires Plays(w, Confirming(x, p)) && IsAppending(x, p)
    ensures Plays(Undisturbed(w, x.call.id, [Refused(), Quietly(0)] + [Quietly(0)]), AfterRefusedBooking(x, p))
  {
    var id := x.call.id;
    var call := w.calls[id];
    var committed := x.call.committed + [p.event];
    var told := Failure(PartiallyCommitted, Yes, committed);
    var y := Confirming(x, p).(call := Confirming(x, p).call.(pc := Reconciling(told, committed)));
    PlaysOn(w, Confirming(x, p), Refused(), call.(pc := Reconciling(told, committed)), View(w, x.call.key));
    BookingIsCaughtUp(Next(w, Take(id, Refused())), x, p, y);
    var w2 := Next(Next(w, Take(id, Refused())), Take(id, Quietly(0)));
    CaughtUpFails(w2, id, CaughtUp(x, p), told, AfterRefusedBooking(x, p));
    TwoSteps(w, id, Refused(), Quietly(0));
    UndisturbedOneMore(w, id, [Refused(), Quietly(0)], Quietly(0));
  }

  function CaughtUp(x: Scene, p: Plan): Scene
    requires x.row.Some? && x.call.token.Some?
  {
    var committed := x.call.committed + [p.event];
    var booked := Booked(x, p);
    booked.(call := booked.call.(
      pc := Failing(x.call.token.value, CommandError(PartiallyCommitted, Yes, Ids(committed)), committed)))
  }

  lemma BookingIsCaughtUp(w: World, x: Scene, p: Plan, y: Scene)
    requires IsAppending(x, p) && Plays(w, y)
    requires var committed := x.call.committed + [p.event];
             y == Confirming(x, p).(call := Confirming(x, p).call.(
               pc := Reconciling(Failure(PartiallyCommitted, Yes, committed), committed)))
    ensures Plays(Next(w, Take(x.call.id, Quietly(0))), CaughtUp(x, p))
  {
    var c, committed := CommandOf(x.call), x.call.committed + [p.event];
    forall i | 0 <= i < |committed| ensures PositiveSafe(committed[i].sequence) {
      if i < |x.call.committed| { SelectMembers(x.log, OfCommand(c), x.call.committed[i]); }
    }
    assert ReconcileEvents(x.row, c, committed, x.call.token) == (Booked(x, p).row, Done(()));
    PlaysOn(w, y, Quietly(0), w.calls[x.call.id].(pc := CaughtUp(x, p).call.pc),
            Write(View(w, x.call.key), Booked(x, p).row));
  }

  lemma CaughtUpFails(w: World, id: nat, y: Scene, error: CommandError, z: Scene)
    requires Plays(w, y) && id == y.call.id && y.row.Some? && y.row.value.status == Processing && y.call.pc.Failing?
    requires y.call.pc.generation == y.row.value.token && y.call.pc.error == error
    requires z == y.(call := y.call.(pc := Ended(Thrown(error))),
                     row := Some(y.row.value.(status := Status.Failed, error := Some(error), owner := None,
                                              deadline := None)))
    ensures Plays(Next(w, Take(id, Quietly(0))), z)
  {
    PlaysOn(w, y, Quietly(0), End(w.calls[id], error), Write(View(w, y.call.key), z.row));
  }

  /** A failure write that comes too late, because the row is no longer being processed in its generation, changes
      nothing: the call is told that its generation is lost, or the error that is on record by now. */
  lemma LateFailuresAreTold(w: World, x: Scene)
    requires Plays(w, x) && x.call.pc.Failing? && x.row.Some?
    requires x.row.value.token != x.call.pc.generation
             || (x.row.value.status != Processing && x.row.value.error.Some?)
    ensures var error := if x.row.value.token != x.call.pc.generation then CommandError(FencingTokenStale, No, [])
                         else x.row.value.error.value;
            Plays(Undisturbed(w, x.call.id, [Quietly(0), Quietly(0)]),
                  x.(call := x.call.(pc := Ended(Thrown(error)))))
  {
    var call, pc := w.calls[x.call.id], x.call.pc;
    var y := x.(call := x.call.(pc := Rereading(pc.generation, pc.error, pc.events)));
    PlaysOn(w, x, Quietly(0), call.(pc := y.call.pc), View(w, x.call.key));
    TruthIsTold(Next(w, Take(x.call.id, Quietly(0))), y);
    TwoSteps(w, x.call.id, Quietly(0), Quietly(0));
  }

  lemma TruthIsTold(w: World, y: Scene)
    requires Plays(w, y) && y.call.pc.Rereading? && y.row.Some?
    requires y.row.value.token != y.call.pc.generation
             || (y.row.value.status != Processing && y.row.value.error.Some?)
    ensures var error := if y.row.value.token != y.call.pc.generation then CommandError(FencingTokenStale, No, [])
                         else y.row.value.error.value;
            Plays(Next(w, Take(y.call.id, Quietly(0))), y.(call := y.call.(pc := Ended(Thrown(error)))))
  {
    var error := if y.row.value.token != y.call.pc.generation then Stale() else y.row.value.error.value;
    PlaysOn(w, y, Quietly(0), End(w.calls[y.call.id], error), View(w, y.call.key));
  }
}
