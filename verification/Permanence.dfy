/** Receipts are permanent: a completed command answers every retry with the identical result, for ever. */
module Permanence {
  import opened Events
  import opened Projection
  import opened Histories
  import opened StoreContracts
  import opened CommandRows
  import opened EventLog
  import opened Replay
  import opened Receipts
  import opened Stores
  import opened Coordinator
  import opened Ownership
  import opened OwnSteps
  import opened Runs
  import opened OwnershipTheorems

  /** The receipt of a command that wrote `events` and answered `result` names the history the answer was read from. */
  ghost predicate Vouched(request: Request, events: seq<Event>, result: Result, receipt: Receipt, log: seq<Event>) {
    var known := Known(log, result.aggregate);
    && receipt.anchor.Some?
    && receipt == MakeReceipt(events, receipt.anchor)
    && AnchoredIn(result, receipt.anchor.value, known)
    && (if events == [] then request.commandType == CompensateOrder && result.events == Some([])
        else events[0].aggregate == result.aggregate
             && events[|events| - 1].sequence <= receipt.anchor.value.sequence)
  }

  ghost predicate AnchoredIn(result: Result, a: Anchor, known: seq<Event>) {
    && 0 < a.sequence <= |known|
    && a == Anchor(result.aggregate, a.sequence, Some(known[a.sequence - 1].id))
    && Project(known[..a.sequence]) == Returns(result.state)
    && result.state.Some? && result.state.value.version == a.sequence && result.state.value.aggregate == a.aggregate
    && (result.snapshot.Some? ==>
          result.snapshot.value == Snapshot(a.aggregate, a.sequence, a.lastEventId, result.state))
  }

  /** What vouches for a receipt keeps vouching for it while the log grows. */
  lemma VouchedGrows(request: Request, events: seq<Event>, result: Result, receipt: Receipt,
                     log: seq<Event>, longer: seq<Event>)
    requires Vouched(request, events, result, receipt, log) && log <= longer
    ensures Vouched(request, events, result, receipt, longer)
  {
    SelectPrefix(log, longer, OfAggregate(result.aggregate));
    var a := receipt.anchor.value;
    assert Known(longer, result.aggregate)[..a.sequence] == Known(log, result.aggregate)[..a.sequence];
  }

  /** A vouched receipt of a completed row with exact bookkeeping passes both checks a retry makes. */
  lemma VouchedHolds(c: CommandId, row: Row, events: seq<Event>, log: seq<Event>)
    requires WellFormedLog(log) && row.result.Some? && row.receipt.Some? && ValidReceipt(row.receipt.value)
    requires Vouched(row.request, events, row.result.value, row.receipt.value, log) && Covers(c, row.range, events)
    ensures ReceiptHolds(row, log)
    ensures EventlessCompensation(row, events) || RangeMatches(c, row.range, events)
  {
    var a, result := row.receipt.value.anchor.value, row.result.value;
    var known := Known(log, result.aggregate);
    assert Dense(known);
    FindSequenceDense(known, 1, a.sequence);
    UpToIsPrefix(known, a.sequence);
    assert known[..|known|] == known;
  }

  /** Two accepted prefixes of one history with the same state are the same prefix. */
  lemma SameStateSamePrefix(known: seq<Event>, i: nat, j: nat)
    requires 0 < i <= |known| && 0 < j <= |known|
    requires Project(known[..i]).Returns? && Project(known[..i]) == Project(known[..j])
    ensures i == j
  {
    AcceptedIffLawful(known[..i]);
    AcceptedIffLawful(known[..j]);
  }

  lemma MembersOfKnown(log: seq<Event>, c: CommandId, e: Event)
    requires WellFormedLog(log) && e in Select(log, OfCommand(c))
    ensures e.sequence <= |Known(log, e.aggregate)|
  {
    SelectMembers(log, OfCommand(c), e);
    SelectMembers(log, OfAggregate(e.aggregate), e);
    assert Dense(Known(log, e.aggregate));
    var i :| 0 <= i < |Known(log, e.aggregate)| && Known(log, e.aggregate)[i] == e;
  }

  /** A result that passes validation against the log it was read from is vouched for. */
  lemma ValidatedAnchor(result: Result, log: seq<Event>, stateAt: nat, snapshotAt: nat)
    requires WellFormedLog(log) && ReadFrom(result, Known(log, result.aggregate), stateAt, snapshotAt)
    requires ValidateResult(result, log).Anchored?
    ensures ValidateResult(result, log).anchor.Some?
    ensures AnchoredIn(result, ValidateResult(result, log).anchor.value, Known(log, result.aggregate))
    ensures ValidateResult(result, log).anchor.value.sequence == |Known(log, result.aggregate)|
  {
    var known := Known(log, result.aggregate);
    assert known[..|known|] == known && Dense(known);
    AcceptedIffLawful(known);
    SelectMembers(log, OfAggregate(result.aggregate), known[0]);
    SameStateSamePrefix(known, stateAt, |known|);
    FindSequenceDense(known, 1, |known|);
  }

  lemma AnswerVouched(c: CommandId, call: Call, s: Shared, ch: Choice)
    requires WellFormedLog(s.log) && Plausible(c, call, s.log, ch.deed) && ch.deed.Answers?
    requires ValidateResult(ch.deed.result, s.log).Anchored?
    requires call.committed != [] ==> call.committed == EventsOf(s, c)
    ensures var result := ch.deed.result;
            Vouched(call.request, call.committed, result,
                    MakeReceipt(call.committed, ValidateResult(result, s.log).anchor), s.log)
  {
    var result := ch.deed.result;
    ValidatedAnchor(result, s.log, ch.deed.stateAt, ch.deed.snapshotAt);
    if call.committed != [] {
      MembersOfKnown(s.log, c, call.committed[|call.committed| - 1]);
    }
  }

  lemma HandleCompletesNothing(call: Call, error: CommandError)
    ensures !Handle(call, error).pc.Completing?
  {
  }

  lemma RunningCompletes(c: CommandId, call: Call, s: Shared, ch: Choice)
    requires call.pc.Running? && StepRunning(c, call, s, ch).pc.Completing?
    ensures Plausible(c, call, s.log, ch.deed) && ch.deed.Answers? && call.key.Some?
    ensures ValidateResult(ch.deed.result, s.log).Anchored?
    ensures StepRunning(c, call, s, ch)
            == call.(pc := Completing(ch.deed.result,
                                      MakeReceipt(call.committed, ValidateResult(ch.deed.result, s.log).anchor)))
  {
    HandleCompletesNothing(call, UNCODED);
    if ch.deed.ThrowsError? {
      HandleCompletesNothing(call, ch.deed.error);
    }
  }

  lemma AppendCompletesNothing(call: Call, s: Shared, fault: Fault, refusal: Option<CommandError>)
    requires call.pc.Appending?
    ensures !AppendWith(call, s, fault, refusal).0.pc.Completing?
  {
  }

  lemma LookupCompletesNothing(c: CommandId, call: Call, s: Shared, ch: Choice)
    requires call.pc.LookingUp?
    ensures !StepLookingUp(c, call, s, ch).pc.Completing?
  {
  }

  lemma ResolveCompletesNothing(c: CommandId, call: Call, s: Shared, ch: Choice)
    requires call.pc.Resolving?
    ensures !StepResolving(c, call, s, ch).pc.Completing?
  {
  }

  lemma OwnedCompletesNothing<T>(call: Call, s: Shared, r: (Option<Row>, Reply<T>), next: Call)
    requires !next.pc.Completing?
    ensures !Owned(call, s, r, next).0.pc.Completing?
  {
    if r.1.Throws? {
      HandleCompletesNothing(call, r.1.error);
    }
  }

  lemma ChallengesCompleteNothing(c: CommandId, call: Call, s: Shared, ch: Choice)
    requires call.pc.TakingOver? || call.pc.Revoking? || call.pc.ReleasingFailed? || call.pc.ReconcilingFailure?
             || call.pc.Reserving?
    ensures !StepPc(c, call, s, ch).0.pc.Completing?
  {
  }

  lemma EndingsCompleteNothing(c: CommandId, call: Call, s: Shared, ch: Choice)
    requires call.pc.Failing? || call.pc.Rereading? || call.pc.Releasing? || call.pc.Verifying? || call.pc.Refetching?
             || call.pc.CheckingNew? || call.pc.ReadingBack? || call.pc.Reconciling?
    ensures !StepPc(c, call, s, ch).0.pc.Completing?
  {
  }

  /** Only a callback's answer leads to completion. */
  lemma CompletingComesFromRunning(c: CommandId, call: Call, s: Shared, ch: Choice)
    requires StepPc(c, call, s, ch).0.pc.Completing?
    ensures call.pc.Running?
  {
    match call.pc
    case Running =>
    case Renewing(event, expected) =>
      OwnedCompletesNothing(call, s, Faulty(ch.fault, s.row, Renew(s.row, call.worker, call.token, call.ttl, ch.now)),
                            call.(pc := Appending(event, expected)));
    case Appending(event, expected) =>
      AppendCompletesNothing(call, s, ch.fault, AppendError(s.log, FencingError(s.row, call.token), event, expected));
    case LookingUp(_, _) => LookupCompletesNothing(c, call, s, ch);
    case Recording(event) =>
      OwnedCompletesNothing(call, s, Faulty(ch.fault, s.row, Record(s.row, c, event, call.token)),
                            call.(pc := Running));
    case Completing(result, receipt) =>
      OwnedCompletesNothing(call, s, Faulty(ch.fault, s.row, Complete(s.row, result, receipt, call.token)),
                            call.(pc := Ended(Answer(result))));
    case Resolving(_) => ResolveCompletesNothing(c, call, s, ch);
    case Ended(_) =>
    case Crashed =>
    case TakingOver(_) => ChallengesCompleteNothing(c, call, s, ch);
    case Revoking(_, _) => ChallengesCompleteNothing(c, call, s, ch);
    case ReleasingFailed(_) => ChallengesCompleteNothing(c, call, s, ch);
    case ReconcilingFailure(_, _) => ChallengesCompleteNothing(c, call, s, ch);
    case Reserving => ChallengesCompleteNothing(c, call, s, ch);
    case _ => EndingsCompleteNothing(c, call, s, ch);
  }

  lemma ResolversFinishNothing(c: CommandId, call: Call, s: Shared, ch: Choice)
    requires call.pc.TakingOver? || call.pc.Revoking? || call.pc.ReleasingFailed? || call.pc.ReconcilingFailure?
             || call.pc.Reserving?
    ensures var row' := StepPc(c, call, s, ch).1.row; row' == s.row || (row'.Some? && row'.value.status != Finished)
  {
  }

  lemma OwnersFinishNothingElse(c: CommandId, call: Call, s: Shared, ch: Choice)
    requires call.pc.Renewing? || call.pc.Recording? || call.pc.Reconciling? || call.pc.Failing? || call.pc.Releasing?
    ensures var row' := StepPc(c, call, s, ch).1.row;
            row' == s.row || (row'.Some? && row'.value.status != Finished)
  {
  }

  /** A row becomes completed only through the completion of the call that owns it. */
  lemma FinishesWhatWasCompleted(c: CommandId, call: Call, s: Shared, ch: Choice)
    requires var row' := StepPc(c, call, s, ch).1.row; row' != s.row && row'.Some? && row'.value.status == Finished
    ensures call.pc.Completing? && ValidReceipt(call.pc.receipt)
    ensures call.token.Some? && s.row.Some? && s.row.value.token == call.token.value
    ensures var row' := StepPc(c, call, s, ch).1.row.value;
            row'.result == Some(call.pc.result) && row'.receipt == Some(call.pc.receipt)
            && row'.request == s.row.value.request && row'.range == s.row.value.range
  {
    match call.pc
    case Completing(_, _) =>
    case TakingOver(_) => ResolversFinishNothing(c, call, s, ch);
    case Revoking(_, _) => ResolversFinishNothing(c, call, s, ch);
    case ReleasingFailed(_) => ResolversFinishNothing(c, call, s, ch);
    case ReconcilingFailure(_, _) => ResolversFinishNothing(c, call, s, ch);
    case Reserving => ResolversFinishNothing(c, call, s, ch);
    case Renewing(_, _) => OwnersFinishNothingElse(c, call, s, ch);
    case Recording(_) => OwnersFinishNothingElse(c, call, s, ch);
    case Reconciling(_, _) => OwnersFinishNothingElse(c, call, s, ch);
    case Failing(_, _, _) => OwnersFinishNothingElse(c, call, s, ch);
    case Releasing(_) => OwnersFinishNothingElse(c, call, s, ch);
    case Appending(_, _) => OnlyAppendingGrows(c, call, s, ch);
    case _ =>
  }

  lemma AppendsWellFormed(c: CommandId, call: Call, s: Shared, ch: Choice)
    requires WellFormedLog(s.log)
    ensures WellFormedLog(StepPc(c, call, s, ch).1.log)
  {
    OnlyAppendingGrows(c, call, s, ch);
    if call.pc.Appending? {
      var event, expected := call.pc.event, call.pc.expected;
      var refusal := AppendError(s.log, FencingError(s.row, call.token), event, expected);
      if refusal.None? {
        AppendKeepsWellFormed(s.log, event, expected);
      }
      assert AppendWith(call, s, ch.fault, refusal).1.log == s.log || refusal.None?;
    }
  }

  /** Only an append touches the log, and it touches nothing else. */
  lemma OnlyAppendingGrows(c: CommandId, call: Call, s: Shared, ch: Choice)
    ensures !call.pc.Appending? ==> StepPc(c, call, s, ch).1.log == s.log
    ensures call.pc.Appending? ==> StepPc(c, call, s, ch).1.row == s.row
  {
  }

  /** A call about to complete is vouched for. */
  ghost predicate CallVouched(call: Call, log: seq<Event>) {
    call.pc.Completing? ==> Vouched(call.request, call.committed, call.pc.result, call.pc.receipt, log)
  }

  /** A completed row is vouched for by its command's events. */
  ghost predicate RowVouched(row: Option<Row>, events: seq<Event>, log: seq<Event>) {
    row.Some? && row.value.status == Finished ==>
      && row.value.result.Some? && row.value.receipt.Some? && ValidReceipt(row.value.receipt.value)
      && Vouched(row.value.request, events, row.value.result.value, row.value.receipt.value, log)
  }

  ghost predicate ReceiptsInv(w: World) {
    && WellFormedLog(w.log)
    && (forall id :: id in w.calls ==> CallVouched(w.calls[id], w.log))
    && (forall key: CommandKey :: RowVouched(Lookup(w.rows, key), EventsIn(w, Key(key)), w.log))
  }

  lemma CallVouchedGrows(call: Call, log: seq<Event>, longer: seq<Event>)
    requires CallVouched(call, log) && log <= longer
    ensures CallVouched(call, longer)
  {
    if call.pc.Completing? {
      VouchedGrows(call.request, call.committed, call.pc.result, call.pc.receipt, log, longer);
    }
  }

  lemma RowVouchedGrows(row: Option<Row>, events: seq<Event>, log: seq<Event>, longer: seq<Event>)
    requires RowVouched(row, events, log) && log <= longer
    ensures RowVouched(row, events, longer)
  {
    if row.Some? && row.value.status == Finished {
      VouchedGrows(row.value.request, events, row.value.result.value, row.value.receipt.value, log, longer);
    }
  }

  lemma OwnCallVouched(c: CommandId, call: Call, s: Shared, ch: Choice)
    requires Before(c, call, s) && WellFormedLog(s.log)
    ensures CallVouched(Step(c, call, s, ch).0, s.log)
  {
    var call' := StepPc(c, call, s, ch).0;
    if call'.pc.Completing? {
      CompletingComesFromRunning(c, call, s, ch);
      RunningCompletes(c, call, s, ch);
      AnswerVouched(c, call, s, ch);
    }
  }

  lemma OwnRowVouched(c: CommandId, call: Call, s: Shared, ch: Choice)
    requires Before(c, call, s) && CallVouched(call, s.log) && RowVouched(s.row, EventsOf(s, c), s.log)
    requires s.row.None? || s.row.value.status != Finished
    ensures RowVouched(StepPc(c, call, s, ch).1.row, EventsOf(s, c), s.log)
  {
    var row' := StepPc(c, call, s, ch).1.row;
    if row' != s.row && row'.Some? && row'.value.status == Finished {
      FinishesWhatWasCompleted(c, call, s, ch);
    }
  }

  lemma TakeKeepsCallsVouched(w: World, id: nat, ch: Choice)
    requires Inv(w) && ReceiptsInv(w) && id in w.calls
    ensures var w' := Next(w, Take(id, ch)); forall j :: j in w'.calls ==> CallVouched(w'.calls[j], w'.log)
  {
    var call, w' := w.calls[id], Next(w, Take(id, ch));
    var c, s := CommandOf(call), View(w, call.key);
    StepSound(w, id, ch);
    InvBefore(w, call);
    OwnCallVouched(c, call, s, ch);
    forall j | j in w'.calls ensures CallVouched(w'.calls[j], w'.log) {
      if j == id {
        CallVouchedGrows(w'.calls[j], w.log, w'.log);
      } else {
        CallVouchedGrows(w.calls[j], w.log, w'.log);
      }
    }
  }

  lemma InvBefore(w: World, call: Call)
    requires Inv(w) && call.id in w.calls && w.calls[call.id] == call
    ensures Before(CommandOf(call), call, View(w, call.key))
  {
    if call.key.Some? {
      assert CommandInv(Key(call.key.value), Lookup(w.rows, call.key.value), EventsIn(w, CommandOf(call)));
    }
  }

  lemma TakeKeepsRowVouched(w: World, id: nat, ch: Choice, key: CommandKey)
    requires Inv(w) && ReceiptsInv(w) && id in w.calls
    ensures var w' := Next(w, Take(id, ch)); RowVouched(Lookup(w'.rows, key), EventsIn(w', Key(key)), w'.log)
  {
    var call, w' := w.calls[id], Next(w, Take(id, ch));
    var c, s := CommandOf(call), View(w, call.key);
    var r := Step(c, call, s, ch);
    StepSound(w, id, ch);
    InvBefore(w, call);
    MoveEvolves(w, Take(id, ch), key);
    assert RowVouched(Lookup(w.rows, key), EventsIn(w, Key(key)), w.log);
    if call.key == Some(key) && r.1.row != s.row {
      OwnView(w, call, r.0, r.1);
      OnlyAppendingGrows(c, call, s, ch);
      OwnRowVouched(c, call, s, ch);
    } else {
      UntouchedRow(w, call, r.0, r.1, key);
      RowVouchedGrows(Lookup(w.rows, key), EventsIn(w, Key(key)), w.log, w'.log);
    }
  }

  lemma UntouchedRow(w: World, call: Call, call': Call, s': Shared, key: CommandKey)
    requires Stepping(w, call, call', s')
    requires call.key != Some(key) || s'.row == RowOf(w, call.key)
    ensures Lookup(Put(w, call, call', s').rows, key) == Lookup(w.rows, key)
  {
  }

  lemma NextKeepsReceipts(w: World, move: Move)
    requires Inv(w) && ReceiptsInv(w)
    ensures ReceiptsInv(Next(w, move))
  {
    var w' := Next(w, move);
    if move.Take? && move.id in w.calls {
      var call := w.calls[move.id];
      AppendsWellFormed(CommandOf(call), call, View(w, call.key), move.choice);
      TakeKeepsCallsVouched(w, move.id, move.choice);
      forall key: CommandKey ensures RowVouched(Lookup(w'.rows, key), EventsIn(w', Key(key)), w'.log) {
        TakeKeepsRowVouched(w, move.id, move.choice, key);
      }
    } else {
      forall key: CommandKey ensures RowVouched(Lookup(w'.rows, key), EventsIn(w', Key(key)), w'.log) {
        assert RowVouched(Lookup(w.rows, key), EventsIn(w, Key(key)), w.log);
      }
    }
  }

  lemma {:induction false} ReachableReceipts(moves: seq<Move>)
    ensures ReceiptsInv(Run(moves))
  {
    if moves != [] {
      var shorter := moves[..|moves| - 1];
      ReachableReceipts(shorter);
      RunInv(shorter);
      NextKeepsReceipts(Run(shorter), moves[|moves| - 1]);
    } else {
      assert forall key: CommandKey :: Lookup(EMPTY.rows, key) == None;
    }
  }

  ghost predicate Completed(w: World, key: CommandKey, row: Row) {
    key in w.rows && w.rows[key] == row && row.status == Finished
  }

  /** No step of any call of a completed command, whatever fails, changes a row or the log. */
  lemma CompletedCommandsAreInert(w: World, key: CommandKey, row: Row, id: nat, choice: Choice)
    requires Reached(w) && Completed(w, key, row) && id in w.calls && w.calls[id].key == Some(key)
    ensures Unchanged(w, Next(w, Take(id, choice)))
  {
    ReachedInv(w);
    StepSound(w, id, choice);
    MoveEvolves(w, Take(id, choice), key);
  }

  /** Rows, log and authors are the same. */
  predicate Unchanged(w: World, w': World) {
    w'.rows == w.rows && w'.log == w.log && w'.authors == w.authors
  }

  /** A call where it stands, before a completed command. */
  ghost predicate Stands(w: World, id: nat, key: CommandKey, row: Row, pc: Pc) {
    && Completed(w, key, row)
    && id in w.calls && w.calls[id].id == id && w.calls[id].key == Some(key) && w.calls[id].request == row.request
    && w.calls[id].pc == pc
  }

  predicate NotOf(id: nat, moves: seq<Move>) {
    forall i :: 0 <= i < |moves| ==> moves[i].id != id
  }

  /** Whatever others do meanwhile, a call stays where it stands and the completed row stays as it is. */
  lemma {:induction false} OthersLeaveItStanding(moves: seq<Move>, more: seq<Move>, id: nat, key: CommandKey, row: Row,
                                                 pc: Pc)
    requires Stands(Run(moves), id, key, row, pc) && NotOf(id, more)
    ensures Stands(Run(moves + more), id, key, row, pc)
    ensures Run(moves + more).calls[id] == Run(moves).calls[id]
  {
    CommandsEvolve(moves, more, key);
    OthersLeaveTheCall(moves, more, id);
  }

  lemma {:induction false} OthersLeaveTheCall(moves: seq<Move>, more: seq<Move>, id: nat)
    requires id in Run(moves).calls && NotOf(id, more)
    ensures id in Run(moves + more).calls && Run(moves + more).calls[id] == Run(moves).calls[id]
  {
    if more == [] {
      assert moves + more == moves;
    } else {
      OthersLeaveTheCall(moves, more[..|more| - 1], id);
      RunsOnAfter(moves, more, more[..|more| - 1], more[|more| - 1]);
    }
  }

  predicate LeaseGranted(worker: string, ttl: int, now: int) {
    ValidTtl(ttl) && (worker != "" ==> LeaseDeadline(now, ttl).Some?)
  }

  lemma RetryReserves(moves: seq<Move>, id: nat, key: CommandKey, row: Row, ch: Choice)
    requires Stands(Run(moves), id, key, row, Reserving) && ch.fault == Faultless
    requires LeaseGranted(Run(moves).calls[id].worker, Run(moves).calls[id].ttl, ch.now)
    ensures Stands(Run(moves + [Take(id, ch)]), id, key, row, Resolving(row))
  {
    RunsOn(moves, Take(id, ch));
  }

  lemma RetryResolves(moves: seq<Move>, id: nat, key: CommandKey, row: Row, ch: Choice)
    requires Stands(Run(moves), id, key, row, Resolving(row)) && !ch.readFails
    ensures Stands(Run(moves + [Take(id, ch)]), id, key, row, Verifying(row, EventsIn(Run(moves), Key(key))))
  {
    RunsOn(moves, Take(id, ch));
    ReceiptAccepted(moves, key, row);
  }

  lemma RetryVerifies(moves: seq<Move>, id: nat, key: CommandKey, row: Row, events: seq<Event>, ch: Choice)
    requires Stands(Run(moves), id, key, row, Verifying(row, events)) && row.result.Some? && !ch.readFails
    ensures Stands(Run(moves + [Take(id, ch)]), id, key, row, Ended(Answer(row.result.value)))
  {
    RunsOn(moves, Take(id, ch));
    ReceiptAccepted(moves, key, row);
  }

  /** In every reachable world a completed row passes the checks a retry makes. */
  lemma ReceiptAccepted(moves: seq<Move>, key: CommandKey, row: Row)
    requires Completed(Run(moves), key, row)
    ensures row.result.Some? && ReceiptHolds(row, Run(moves).log)
    ensures EventlessCompensation(row, EventsIn(Run(moves), Key(key)))
            || RangeMatches(Key(key), row.range, EventsIn(Run(moves), Key(key)))
  {
    var w := Run(moves);
    RunInv(moves);
    ReachableReceipts(moves);
    assert CommandInv(Key(key), Lookup(w.rows, key), EventsIn(w, Key(key)));
    assert RowVouched(Lookup(w.rows, key), EventsIn(w, Key(key)), w.log);
    VouchedHolds(Key(key), row, EventsIn(w, Key(key)), w.log);
  }

  /** The retry of a completed command: it begins, and takes its three steps with any moves of others in between. */
  function Retry(begin: Move, first: seq<Move>, ch1: Choice, second: seq<Move>, ch2: Choice,
                 third: seq<Move>, ch3: Choice): seq<Move> {
    [begin] + first + [Take(begin.id, ch1)] + second + [Take(begin.id, ch2)] + third + [Take(begin.id, ch3)]
  }

  lemma RetryInOrder(moves: seq<Move>, begin: Move, first: seq<Move>, ch1: Choice, second: seq<Move>, ch2: Choice,
                     third: seq<Move>, ch3: Choice)
    ensures moves + Retry(begin, first, ch1, second, ch2, third, ch3)
            == moves + [begin] + first + [Take(begin.id, ch1)] + second + [Take(begin.id, ch2)] + third
               + [Take(begin.id, ch3)]
  {
  }

  lemma RetryBegins(moves: seq<Move>, begin: Move, key: CommandKey, row: Row)
    requires Completed(Run(moves), key, row)
    requires begin.Begin? && begin.id !in Run(moves).calls && begin.key == Some(key) && begin.request == row.request
    ensures Stands(Run(moves + [begin]), begin.id, key, row, Reserving)
    ensures Run(moves + [begin]).calls[begin.id].worker == begin.worker
    ensures Run(moves + [begin]).calls[begin.id].ttl == begin.ttl
  {
    RunsOn(moves, begin);
  }

  /** From reading the completed row to answering. */
  lemma RetryAnswers(moves: seq<Move>, second: seq<Move>, ch2: Choice, third: seq<Move>, ch3: Choice,
                     id: nat, key: CommandKey, row: Row)
    requires Stands(Run(moves), id, key, row, Resolving(row)) && row.result.Some?
    requires NotOf(id, second) && NotOf(id, third) && !ch2.readFails && !ch3.readFails
    ensures Stands(Run(moves + second + [Take(id, ch2)] + third + [Take(id, ch3)]), id, key, row,
                   Ended(Answer(row.result.value)))
  {
    OthersLeaveItStanding(moves, second, id, key, row, Resolving(row));
    var before := moves + second;
    RetryResolves(before, id, key, row, ch2);
    var events := EventsIn(Run(before), Key(key));
    OthersLeaveItStanding(before + [Take(id, ch2)], third, id, key, row, Verifying(row, events));
    RetryVerifies(before + [Take(id, ch2)] + third, id, key, row, events, ch3);
  }

  /** Receipts are permanent: after any run that completed a command, however far the log has grown, a retry with the
      same key and payload whose reads do not fail ends with the identical result, and the row is untouched. */
  lemma ReceiptsArePermanent(moves: seq<Move>, key: CommandKey, row: Row, begin: Move,
                             first: seq<Move>, ch1: Choice, second: seq<Move>, ch2: Choice,
                             third: seq<Move>, ch3: Choice)
    requires Completed(Run(moves), key, row)
    requires begin.Begin? && begin.id !in Run(moves).calls && begin.key == Some(key) && begin.request == row.request
    requires NotOf(begin.id, first) && NotOf(begin.id, second) && NotOf(begin.id, third)
    requires ch1.fault == Faultless && LeaseGranted(begin.worker, begin.ttl, ch1.now)
    requires !ch2.readFails && !ch3.readFails
    ensures row.result.Some?
    ensures Stands(Run(moves + Retry(begin, first, ch1, second, ch2, third, ch3)), begin.id, key, row,
                   Ended(Answer(row.result.value)))
  {
    var id, begun := begin.id, moves + [begin];
    ReceiptAccepted(moves, key, row);
    RetryBegins(moves, begin, key, row);
    OthersLeaveItStanding(begun, first, id, key, row, Reserving);
    RetryReserves(begun + first, id, key, row, ch1);
    RetryAnswers(begun + first + [Take(id, ch1)], second, ch2, third, ch3, id, key, row);
    RetryInOrder(moves, begin, first, ch1, second, ch2, third, ch3);
  }
}
