/** Calls whose callbacks are the engine's: every event they commit was validated as `recordEvent` validates it. However
    the calls interleave, crash, lose acknowledgements and challenge each other, every history projects. */
module ValidatedRuns {
  import opened Events
  import opened Projection
  import opened StoreContracts
  import opened CommandRows
  import opened EventLog
  import opened Receipts
  import opened Coordinator
  import opened Runs
  import opened Permanence
  import opened Engine
  import EngineRuns

  /** The event was validated against a replay taken since its sequence number was read from the log. */
  ghost predicate Vetted(event: Event, expected: int, log: seq<Event>) {
    expected == event.sequence - 1
    && exists v: Candidate, since: seq<Event> :: since <= log && v.event == event && Validated(v, since, log)
  }

  /** Every engine about to commit, in every run of engines, has vetted its event. */
  lemma EnginesVet(moves: seq<EngineRuns.Move>, engine: nat)
    requires EngineRuns.ProgressOf(EngineRuns.Run(moves), engine).Committing?
    ensures var s := EngineRuns.Run(moves);
            var event := EngineRuns.ProgressOf(s, engine).candidate.event;
            Vetted(event, event.sequence - 1, s.log)
  {
    var s := EngineRuns.Run(moves);
    var at := EngineRuns.ProgressOf(s, engine);
    EngineRuns.ReachableInv(moves);
    assert EngineRuns.ProgressInv(at, s.log);
    ReplayWithin(at.candidate.observed, at.candidate.event.aggregate, at.since, at.seen, at.since, s.log);
    assert Validated(at.candidate, at.since, s.log);
  }

  /** What was vetted for a log is vetted for every longer one. */
  lemma VettedLater(event: Event, expected: int, log: seq<Event>, longer: seq<Event>)
    requires Vetted(event, expected, log) && log <= longer
    ensures Vetted(event, expected, longer)
  {
    var v: Candidate, since: seq<Event> :| since <= log && v.event == event && Validated(v, since, log);
    ReplayWithin(v.observed, event.aggregate, since, log, since, longer);
    assert Validated(v, since, longer);
  }

  /** An accepted append of a vetted event keeps every history projecting. */
  lemma VettedAppendKeeps(log: seq<Event>, event: Event, expected: int)
    requires Vetted(event, expected, log) && EngineRuns.Replayable(log)
    requires |Known(log, event.aggregate)| == expected
    ensures EngineRuns.Replayable(log + [event])
  {
    var v: Candidate, since: seq<Event> :| since <= log && v.event == event && Validated(v, since, log);
    ValidatedAppendContinues(v, since, log, log);
    forall a ensures Project(Known(log + [event], a)).Returns? {
      SelectAppend(log, event, OfAggregate(a));
      assert Project(Known(log, a)).Returns?;
    }
  }

  /** The event a call is about to append. */
  predicate Holds(pc: Pc, event: Event, expected: int) {
    pc == Renewing(event, expected) || pc == Appending(event, expected)
  }

  predicate HoldsAny(pc: Pc) {
    pc.Renewing? || pc.Appending?
  }

  lemma HandleHoldsNothing(call: Call, error: CommandError)
    ensures !HoldsAny(Handle(call, error).pc)
  {
  }

  lemma RunningHolds(c: CommandId, call: Call, s: Shared, ch: Choice)
    requires call.pc.Running? && HoldsAny(StepRunning(c, call, s, ch).pc)
    ensures ch.deed.Commits? && Holds(StepRunning(c, call, s, ch).pc, ch.deed.event, ch.deed.expected)
  {
    HandleHoldsNothing(call, UNCODED);
    if ch.deed.ThrowsError? {
      HandleHoldsNothing(call, ch.deed.error);
    }
  }

  lemma OwnedHolds<T>(call: Call, s: Shared, r: (Option<Row>, Reply<T>), next: Call)
    requires HoldsAny(Owned(call, s, r, next).0.pc)
    ensures Owned(call, s, r, next).0 == next
  {
    if r.1.Throws? {
      HandleHoldsNothing(call, r.1.error);
    }
  }

  lemma AppendHoldsNothing(call: Call, s: Shared, fault: Fault, refusal: Option<CommandError>)
    requires call.pc.Appending?
    ensures !HoldsAny(AppendWith(call, s, fault, refusal).0.pc)
  {
    if refusal.Some? {
      HandleHoldsNothing(call, refusal.value);
    }
  }

  lemma LookupHoldsNothing(c: CommandId, call: Call, s: Shared, ch: Choice)
    requires call.pc.LookingUp?
    ensures !HoldsAny(StepLookingUp(c, call, s, ch).pc)
  {
    HandleHoldsNothing(call, CommandError(AppendCommitUnknown, Unsaid, [call.pc.event.id]));
    HandleHoldsNothing(call, call.pc.failure);
    HandleHoldsNothing(call, Inconsistent(HistoryInconsistent, EventsOf(s, c)));
  }

  lemma ChallengesHoldNothing(c: CommandId, call: Call, s: Shared, ch: Choice)
    requires call.pc.TakingOver? || call.pc.Revoking? || call.pc.ReleasingFailed? || call.pc.ReconcilingFailure?
             || call.pc.Reserving?
    ensures !HoldsAny(StepPc(c, call, s, ch).0.pc)
  {
  }

  lemma EndingsHoldNothing(c: CommandId, call: Call, s: Shared, ch: Choice)
    requires call.pc.Failing? || call.pc.Rereading? || call.pc.Releasing? || call.pc.Verifying? || call.pc.Refetching?
             || call.pc.CheckingNew? || call.pc.ReadingBack? || call.pc.Reconciling?
    ensures !HoldsAny(StepPc(c, call, s, ch).0.pc)
  {
  }

  lemma ResolvingHoldsNothing(c: CommandId, call: Call, s: Shared, ch: Choice)
    requires call.pc.Resolving?
    ensures !HoldsAny(StepResolving(c, call, s, ch).pc)
  {
  }

  /** A call comes to hold an event only by its callback's commit, and then keeps it until it appends or gives up. */
  lemma HeldEventsWereCommitted(c: CommandId, call: Call, s: Shared, ch: Choice)
    requires HoldsAny(StepPc(c, call, s, ch).0.pc)
    ensures var pc := StepPc(c, call, s, ch).0.pc;
            || (call.pc.Running? && ch.deed.Commits? && Holds(pc, ch.deed.event, ch.deed.expected))
            || (call.pc.Renewing? && Holds(pc, call.pc.event, call.pc.expected))
  {
    match call.pc
    case Running => RunningHolds(c, call, s, ch);
    case Renewing(event, expected) =>
      OwnedHolds(call, s, Faulty(ch.fault, s.row, Renew(s.row, call.worker, call.token, call.ttl, ch.now)),
                 call.(pc := Appending(event, expected)));
    case Appending(event, expected) =>
      AppendHoldsNothing(call, s, ch.fault, AppendError(s.log, FencingError(s.row, call.token), event, expected));
    case LookingUp(_, _) => LookupHoldsNothing(c, call, s, ch);
    case Recording(event) =>
      OwnedHolds(call, s, Faulty(ch.fault, s.row, Record(s.row, c, event, call.token)), call.(pc := Running));
    case Completing(result, receipt) =>
      OwnedHolds(call, s, Faulty(ch.fault, s.row, Complete(s.row, result, receipt, call.token)),
                 call.(pc := Ended(Answer(result))));
    case Resolving(_) => ResolvingHoldsNothing(c, call, s, ch);
    case Ended(_) =>
    case Crashed =>
    case TakingOver(_) => ChallengesHoldNothing(c, call, s, ch);
    case Revoking(_, _) => ChallengesHoldNothing(c, call, s, ch);
    case ReleasingFailed(_) => ChallengesHoldNothing(c, call, s, ch);
    case ReconcilingFailure(_, _) => ChallengesHoldNothing(c, call, s, ch);
    case Reserving => ChallengesHoldNothing(c, call, s, ch);
    case _ => EndingsHoldNothing(c, call, s, ch);
  }

  ghost predicate CallVetted(call: Call, log: seq<Event>) {
    HoldsAny(call.pc) ==> Vetted(call.pc.event, call.pc.expected, log)
  }

  /** The move commits, if anything, an event the engine has vetted. */
  ghost predicate EngineMove(w: World, move: Move) {
    move.Take? && move.id in w.calls && w.calls[move.id].pc.Running? && move.choice.deed.Commits? ==>
      Vetted(move.choice.deed.event, move.choice.deed.expected, w.log)
  }

  ghost predicate EngineRun(moves: seq<Move>) {
    forall k :: 0 <= k < |moves| ==> EngineMove(Run(moves[..k]), moves[k])
  }

  ghost predicate VettedInv(w: World) {
    EngineRuns.Replayable(w.log) && forall id :: id in w.calls ==> CallVetted(w.calls[id], w.log)
  }

  lemma AppendKeepsReplayable(c: CommandId, call: Call, s: Shared, ch: Choice)
    requires CallVetted(call, s.log) && EngineRuns.Replayable(s.log)
    ensures EngineRuns.Replayable(StepPc(c, call, s, ch).1.log)
  {
    OnlyAppendingGrows(c, call, s, ch);
    if call.pc.Appending? {
      var event, expected := call.pc.event, call.pc.expected;
      var refusal := AppendError(s.log, FencingError(s.row, call.token), event, expected);
      if refusal.None? {
        VettedAppendKeeps(s.log, event, expected);
      }
      assert AppendWith(call, s, ch.fault, refusal).1.log == s.log || refusal.None?;
    }
  }

  lemma OwnCallVetted(c: CommandId, call: Call, s: Shared, ch: Choice)
    requires CallVetted(call, s.log)
    requires call.pc.Running? && ch.deed.Commits? ==> Vetted(ch.deed.event, ch.deed.expected, s.log)
    ensures CallVetted(Step(c, call, s, ch).0, s.log)
  {
    if HoldsAny(StepPc(c, call, s, ch).0.pc) {
      HeldEventsWereCommitted(c, call, s, ch);
    }
  }

  lemma CallVettedLater(call: Call, log: seq<Event>, longer: seq<Event>)
    requires CallVetted(call, log) && log <= longer
    ensures CallVetted(call, longer)
  {
    if HoldsAny(call.pc) {
      VettedLater(call.pc.event, call.pc.expected, log, longer);
    }
  }

  lemma TakeKeepsVetted(w: World, id: nat, ch: Choice)
    requires Inv(w) && VettedInv(w) && EngineMove(w, Take(id, ch)) && id in w.calls
    ensures VettedInv(Next(w, Take(id, ch)))
  {
    var call, w' := w.calls[id], Next(w, Take(id, ch));
    var c, s := CommandOf(call), View(w, call.key);
    StepSound(w, id, ch);
    AppendKeepsReplayable(c, call, s, ch);
    OwnCallVetted(c, call, s, ch);
    forall j | j in w'.calls ensures CallVetted(w'.calls[j], w'.log) {
      CallVettedLater(if j == id then w'.calls[j] else w.calls[j], w.log, w'.log);
    }
  }

  lemma NextKeepsVetted(w: World, move: Move)
    requires Inv(w) && VettedInv(w) && EngineMove(w, move)
    ensures VettedInv(Next(w, move))
  {
    if move.Take? && move.id in w.calls {
      TakeKeepsVetted(w, move.id, move.choice);
    }
  }

  lemma {:induction false} RunIsVetted(moves: seq<Move>)
    requires EngineRun(moves)
    ensures VettedInv(Run(moves))
  {
    if moves != [] {
      var shorter, last := moves[..|moves| - 1], moves[|moves| - 1];
      assert forall k :: 0 <= k < |shorter| ==> moves[..k] == shorter[..k];
      RunIsVetted(shorter);
      RunInv(shorter);
      NextKeepsVetted(Run(shorter), last);
    }
  }

  /** In every run of calls that commit what engines have validated, whatever fails and however often commands are
      retried, every aggregate's history projects without error. */
  lemma CommandsKeepTheLogReplayable(moves: seq<Move>, aggregate: int)
    requires EngineRun(moves)
    ensures Project(Known(Run(moves).log, aggregate)).Returns?
  {
    RunIsVetted(moves);
  }
}
