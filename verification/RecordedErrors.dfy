/** Errors on record: what a failed command's row says, that it goes on saying so, and that every retry is told it. */
module RecordedErrors {
  import opened Events
  import opened StoreContracts
  import opened CommandRows
  import opened EventLog
  import opened Stores
  import opened Coordinator
  import opened Ownership
  import opened OwnSteps
  import opened RowSteps
  import opened Runs
  import opened Permanence

  /** The error on record leaves it open whether the command has events. */
  predicate LeavesOpen(row: Row) {
    row.status == Failed && row.error.Some? && ReconcilableUnknown(row.error.value.code)
  }

  predicate SaysInterrupted(row: Row) {
    row.status == Failed && row.error.Some? && row.error.value.code == InterruptedAfterCommit
  }

  /** A row that says its command was interrupted lists exactly its events; and a range and its aggregate go together.
      */
  ghost predicate RowSays(row: Option<Row>, events: seq<Event>) {
    row.Some? ==>
      && (row.value.range.Some? ==> row.value.aggregate == Some(row.value.range.value.aggregate))
      && (SaysInterrupted(row.value) ==> row.value.error == Some(Interrupted(events)))
  }

  /** A failure that was read as open, in the same generation, is open still or was reconciled. */
  ghost predicate StillOpen(record: Row, row: Option<Row>) {
    LeavesOpen(record) && row.Some? && row.value.token == record.token && row.value.status == Failed ==>
      LeavesOpen(row.value) || SaysInterrupted(row.value)
  }

  ghost predicate CallSays(c: CommandId, call: Call, row: Option<Row>) {
    match call.pc
    case Resolving(record) => StillOpen(record, row)
    case ReconcilingFailure(record, known) => StillOpen(record, row) && LeavesOpen(record) && Contiguous(c, known)
    case _ => true
  }

  /** The row once an open failure with these events is reconciled. */
  function Reconciled(row: Row, events: seq<Event>): Row
    requires events != []
  {
    row.(aggregate := Some(RangeOf(events).aggregate), range := Some(RangeOf(events)),
         error := Some(Interrupted(events)))
  }

  /** What a step may do to a failed row: reconcile it, or release it if it is open. */
  ghost predicate FailedStep(call: Call, row: Row, row': Option<Row>) {
    || row' == Some(row)
    || (call.pc.ReconcilingFailure? && call.pc.record.token == row.token && call.pc.events != []
        && row' == Some(Reconciled(row, call.pc.events)))
    || (call.pc.ReleasingFailed? && call.pc.record.token == row.token && row.error.Some? && call.pc.record.error.Some?
        && call.pc.record.error.value.code == row.error.value.code && row'.Some? && row'.value.status == Released
        && row'.value.token == row.token)
  }

  lemma ReconcilingStep(c: CommandId, call: Call, s: Shared, ch: Choice)
    requires call.pc.ReconcilingFailure? && s.row.Some? && s.row.value.status == Failed
    ensures FailedStep(call, s.row.value, StepReconcilingFailure(c, call, s, ch).1.row)
  {
  }

  lemma ReleasingStep(call: Call, s: Shared, ch: Choice)
    requires call.pc.ReleasingFailed? && call.pc.record.error.Some? && s.row.Some? && s.row.value.status == Failed
    ensures FailedStep(call, s.row.value, StepReleasingFailed(call, s, ch).1.row)
  {
  }

  lemma ChallengesKeepFailed(c: CommandId, call: Call, s: Shared, ch: Choice)
    requires Resolves(call.pc) && !call.pc.ReconcilingFailure? && !call.pc.ReleasingFailed?
    requires s.row.Some? && s.row.value.status == Failed
    ensures StepPc(c, call, s, ch).1.row == s.row
  {
  }

  lemma OwnersKeepFailed(c: CommandId, call: Call, s: Shared, ch: Choice)
    requires !Resolves(call.pc) && s.row.Some? && s.row.value.status == Failed
    ensures StepPc(c, call, s, ch).1.row == s.row
  {
  }

  lemma FailedSteps(c: CommandId, call: Call, s: Shared, ch: Choice)
    requires Before(c, call, s) && s.row.Some? && s.row.value.status == Failed
    ensures FailedStep(call, s.row.value, StepPc(c, call, s, ch).1.row)
  {
    if call.pc.ReconcilingFailure? {
      ReconcilingStep(c, call, s, ch);
    } else if call.pc.ReleasingFailed? {
      ReleasingStep(call, s, ch);
    } else if Resolves(call.pc) {
      ChallengesKeepFailed(c, call, s, ch);
    } else {
      OwnersKeepFailed(c, call, s, ch);
    }
  }

  /** What a step may do to a row that has not failed: fail it, with an error on its way or as interrupted. */
  ghost predicate OtherStep(call: Call, row: Option<Row>, events: seq<Event>, row': Option<Row>) {
    row'.Some? && row'.value.status == Failed ==>
      && row.Some? && row.value.status == Processing && row'.value.token == row.value.token
      && (|| (call.pc.Failing? && call.pc.generation == row.value.token && row'.value.error == Some(call.pc.error))
          || (events != [] && row'.value.error == Some(Interrupted(events))))
  }

  lemma ResolversFail(c: CommandId, call: Call, s: Shared, ch: Choice)
    requires Resolves(call.pc) && (s.row.Some? ==> s.row.value.status != Failed)
    ensures OtherStep(call, s.row, EventsOf(s, c), StepPc(c, call, s, ch).1.row)
  {
  }

  lemma OwnersFail(c: CommandId, call: Call, s: Shared, ch: Choice)
    requires !Resolves(call.pc) && (s.row.Some? ==> s.row.value.status != Failed)
    ensures OtherStep(call, s.row, EventsOf(s, c), StepPc(c, call, s, ch).1.row)
  {
  }

  predicate AggregateFits(row: Option<Row>) {
    row.Some? && row.value.range.Some? ==> row.value.aggregate == Some(row.value.range.value.aggregate)
  }

  lemma ResolversKeepAggregate(c: CommandId, call: Call, s: Shared, ch: Choice)
    requires Resolves(call.pc) && AggregateFits(s.row)
    ensures AggregateFits(StepPc(c, call, s, ch).1.row)
  {
  }

  lemma OwnersKeepAggregate(c: CommandId, call: Call, s: Shared, ch: Choice)
    requires !Resolves(call.pc) && AggregateFits(s.row)
    ensures AggregateFits(StepPc(c, call, s, ch).1.row)
  {
    if call.pc.Renewing? || call.pc.Recording? || call.pc.Completing? {
      MutationsKeepAggregate(c, call, s, ch);
    }
  }

  lemma MutationsKeepAggregate(c: CommandId, call: Call, s: Shared, ch: Choice)
    requires call.pc.Renewing? || call.pc.Recording? || call.pc.Completing?
    requires AggregateFits(s.row)
    ensures AggregateFits(StepPc(c, call, s, ch).1.row)
  {
  }

  lemma StepsKeepAggregate(c: CommandId, call: Call, s: Shared, ch: Choice)
    requires AggregateFits(s.row)
    ensures AggregateFits(StepPc(c, call, s, ch).1.row)
  {
    if Resolves(call.pc) {
      ResolversKeepAggregate(c, call, s, ch);
    } else {
      OwnersKeepAggregate(c, call, s, ch);
    }
  }

  /** A step, with all that is known about it. */
  ghost predicate Stepped(c: CommandId, call: Call, s: Shared, call': Call, s': Shared) {
    && Before(c, call, s) && Sound(c, call, s, call', s') && call.key.Some?
    && (if s.row.Some? && s.row.value.status == Failed then FailedStep(call, s.row.value, s'.row)
        else OtherStep(call, s.row, EventsOf(s, c), s'.row))
    && (AggregateFits(s.row) ==> AggregateFits(s'.row))
  }

  lemma StepIsStepped(c: CommandId, call: Call, s: Shared, ch: Choice)
    requires Before(c, call, s) && call.key.Some?
    requires Sound(c, call, s, StepPc(c, call, s, ch).0, StepPc(c, call, s, ch).1)
    ensures Stepped(c, call, s, StepPc(c, call, s, ch).0, StepPc(c, call, s, ch).1)
  {
    if s.row.Some? && s.row.value.status == Failed {
      FailedSteps(c, call, s, ch);
    } else if Resolves(call.pc) {
      ResolversFail(c, call, s, ch);
    } else {
      OwnersFail(c, call, s, ch);
    }
    if AggregateFits(s.row) { StepsKeepAggregate(c, call, s, ch); }
  }

  lemma RowStillSays(c: CommandId, call: Call, s: Shared, call': Call, s': Shared)
    requires Stepped(c, call, s, call', s') && RowSays(s.row, EventsOf(s, c))
    ensures RowSays(s'.row, EventsOf(s', c))
  {
  }

  lemma OtherStillSays(c: CommandId, other: Call, call: Call, s: Shared, call': Call, s': Shared)
    requires Stepped(c, call, s, call', s') && CallInv(c, other, s.row, EventsOf(s, c)) && CallSays(c, other, s.row)
    ensures CallSays(c, other, s'.row)
  {
  }

  /** A call that comes to resolve has just read the row; one that is to reconcile a failure has resolved it. */
  lemma ReadersHaveRead(c: CommandId, call: Call, s: Shared, ch: Choice)
    requires !Executes(call.pc)
    ensures var r := StepPc(c, call, s, ch);
            && (r.0.pc.Resolving? ==> r.1.row == Some(r.0.pc.record))
            && (r.0.pc.ReconcilingFailure? ==>
                  && call.pc.Resolving? && r.0.pc.record == call.pc.record && r.1 == s
                  && LeavesOpen(call.pc.record) && r.0.pc.events == EventsOf(s, c) && Contiguous(c, EventsOf(s, c)))
  {
    if call.pc.Resolving? {
      ResolvingReads(c, call, s, ch);
    } else {
      OthersRead(c, call, s, ch);
    }
  }

  lemma ResolvingReads(c: CommandId, call: Call, s: Shared, ch: Choice)
    requires call.pc.Resolving?
    ensures var call' := StepResolving(c, call, s, ch);
            && !call'.pc.Resolving?
            && (call'.pc.ReconcilingFailure? ==>
                  && call'.pc.record == call.pc.record && LeavesOpen(call.pc.record)
                  && call'.pc.events == EventsOf(s, c) && Contiguous(c, EventsOf(s, c)))
  {
  }

  lemma OthersRead(c: CommandId, call: Call, s: Shared, ch: Choice)
    requires !Executes(call.pc) && !call.pc.Resolving?
    ensures var r := StepPc(c, call, s, ch);
            !r.0.pc.ReconcilingFailure? && (r.0.pc.Resolving? ==> r.1.row == Some(r.0.pc.record))
  {
    if call.pc.TakingOver? || call.pc.Revoking? || call.pc.ReleasingFailed? || call.pc.ReconcilingFailure? {
      ChallengesDoNotRead(c, call, s, ch);
    } else if !Resolves(call.pc) {
      EndingsDoNotRead(c, call, s, ch);
    }
  }

  lemma ChallengesDoNotRead(c: CommandId, call: Call, s: Shared, ch: Choice)
    requires call.pc.TakingOver? || call.pc.Revoking? || call.pc.ReleasingFailed? || call.pc.ReconcilingFailure?
    ensures var pc := StepPc(c, call, s, ch).0.pc; !pc.Resolving? && !pc.ReconcilingFailure?
  {
  }

  lemma EndingsDoNotRead(c: CommandId, call: Call, s: Shared, ch: Choice)
    requires !Executes(call.pc) && !Resolves(call.pc)
    ensures var pc := StepPc(c, call, s, ch).0.pc; !pc.Resolving? && !pc.ReconcilingFailure?
  {
  }

  lemma OwnStillSays(c: CommandId, call: Call, s: Shared, ch: Choice)
    requires Before(c, call, s) && CallSays(c, call, s.row)
    requires Sound(c, call, s, StepPc(c, call, s, ch).0, StepPc(c, call, s, ch).1)
    ensures CallSays(c, StepPc(c, call, s, ch).0, StepPc(c, call, s, ch).1.row)
  {
    if Resolves(StepPc(c, call, s, ch).0.pc) {
      assert !Executes(call.pc);
      ReadersHaveRead(c, call, s, ch);
    }
  }

  ghost predicate SaysAll(w: World) {
    && (forall i :: 0 <= i < |w.log| ==> ValidEvent(w.log[i]))
    && (forall key: CommandKey :: RowSays(Lookup(w.rows, key), EventsIn(w, Key(key))))
    && (forall id :: id in w.calls ==> CallSays(CommandOf(w.calls[id]), w.calls[id], RowOf(w, w.calls[id].key)))
  }

  lemma AppendsAreValid(c: CommandId, call: Call, s: Shared, ch: Choice)
    requires forall i :: 0 <= i < |s.log| ==> ValidEvent(s.log[i])
    ensures var log := StepPc(c, call, s, ch).1.log; forall i :: 0 <= i < |log| ==> ValidEvent(log[i])
  {
    OnlyAppendingGrows(c, call, s, ch);
    if call.pc.Appending? {
      var refusal := AppendError(s.log, FencingError(s.row, call.token), call.pc.event, call.pc.expected);
      assert AppendWith(call, s, ch.fault, refusal).1.log == s.log || refusal.None?;
    }
  }

  /** One step of a keyed call in an invariant world, with all that is known about it. */
  lemma TakeIsStepped(w: World, id: nat, ch: Choice)
    requires Inv(w) && id in w.calls && w.calls[id].key.Some?
    ensures var call := w.calls[id];
            var r := Step(CommandOf(call), call, View(w, call.key), ch);
            Stepping(w, call, r.0, r.1) && Stepped(CommandOf(call), call, View(w, call.key), r.0, r.1)
  {
    var call := w.calls[id];
    var c, s := CommandOf(call), View(w, call.key);
    StepSound(w, id, ch);
    InvBefore(w, call);
    StepPcIsStepped(c, call, s, ch);
  }

  lemma StepPcIsStepped(c: CommandId, call: Call, s: Shared, ch: Choice)
    requires Before(c, call, s) && call.key.Some?
    ensures Stepped(c, call, s, StepPc(c, call, s, ch).0, StepPc(c, call, s, ch).1)
  {
    StepPcSound(c, call, s, ch);
    StepIsStepped(c, call, s, ch);
  }

  lemma TakeKeepsRowSays(w: World, id: nat, ch: Choice, key: CommandKey)
    requires Inv(w) && SaysAll(w) && id in w.calls
    ensures var w' := Next(w, Take(id, ch)); RowSays(Lookup(w'.rows, key), EventsIn(w', Key(key)))
  {
    var call, w' := w.calls[id], Next(w, Take(id, ch));
    var c, s := CommandOf(call), View(w, call.key);
    var r := Step(c, call, s, ch);
    StepSound(w, id, ch);
    assert RowSays(Lookup(w.rows, key), EventsIn(w, Key(key)));
    if call.key == Some(key) {
      TakeIsStepped(w, id, ch);
      RowStillSays(c, call, s, r.0, r.1);
      OwnView(w, call, r.0, r.1);
    } else {
      OtherCommandsUntouched(w, call, r.0, r.1, Key(key));
    }
  }

  lemma TakeKeepsOtherSays(w: World, id: nat, ch: Choice, j: nat)
    requires Inv(w) && id in w.calls && j in w.calls && j != id
    requires CallSays(CommandOf(w.calls[j]), w.calls[j], RowOf(w, w.calls[j].key))
    ensures var w' := Next(w, Take(id, ch));
            CallSays(CommandOf(w.calls[j]), w.calls[j], RowOf(w', w.calls[j].key))
  {
    var call, other := w.calls[id], w.calls[j];
    if other.key.Some? && other.key == call.key {
      SameCommandStillSays(w, id, ch, j);
    } else {
      StepSound(w, id, ch);
      var r := Step(CommandOf(call), call, View(w, call.key), ch);
      OtherRowStays(w, call, r.0, r.1, other.key);
    }
  }

  lemma SameCommandStillSays(w: World, id: nat, ch: Choice, j: nat)
    requires Inv(w) && id in w.calls && j in w.calls && w.calls[j].key.Some? && w.calls[j].key == w.calls[id].key
    requires CallSays(CommandOf(w.calls[j]), w.calls[j], RowOf(w, w.calls[j].key))
    ensures CallSays(CommandOf(w.calls[j]), w.calls[j], RowOf(Next(w, Take(id, ch)), w.calls[j].key))
  {
    var call, other := w.calls[id], w.calls[j];
    var c, s := CommandOf(call), View(w, call.key);
    var r := Step(c, call, s, ch);
    TakeIsStepped(w, id, ch);
    assert CallInv(c, other, s.row, EventsIn(w, c));
    OtherStillSays(c, other, call, s, r.0, r.1);
    OwnView(w, call, r.0, r.1);
  }

  lemma OtherRowStays(w: World, call: Call, call': Call, s': Shared, key: Option<CommandKey>)
    requires Stepping(w, call, call', s') && (key.None? || key != call.key)
    ensures RowOf(Put(w, call, call', s'), key) == RowOf(w, key)
  {
    if key.Some? { OtherCommandsUntouched(w, call, call', s', Key(key.value)); }
  }

  lemma TakeKeepsOwnSays(w: World, id: nat, ch: Choice)
    requires Inv(w) && SaysAll(w) && id in w.calls
    ensures var w' := Next(w, Take(id, ch));
            id in w'.calls && CallSays(CommandOf(w'.calls[id]), w'.calls[id], RowOf(w', w'.calls[id].key))
  {
    var call := w.calls[id];
    var c, s := CommandOf(call), View(w, call.key);
    StepSound(w, id, ch);
    InvBefore(w, call);
    StepPcSound(c, call, s, ch);
    OwnStillSays(c, call, s, ch);
    var r := Step(c, call, s, ch);
    OwnView(w, call, r.0, r.1);
  }

  lemma NextKeepsSays(w: World, move: Move)
    requires Inv(w) && SaysAll(w)
    ensures SaysAll(Next(w, move))
  {
    if move.Take? && move.id in w.calls {
      TakeKeepsSays(w, move.id, move.choice);
    } else {
      IdleKeepsSays(w, move);
    }
  }

  lemma IdleKeepsSays(w: World, move: Move)
    requires SaysAll(w) && !(move.Take? && move.id in w.calls)
    ensures SaysAll(Next(w, move))
  {
    NoStepKeepsSays(w, Next(w, move));
  }

  /** A world with the same rows and log, in which calls have only begun or crashed. */
  lemma NoStepKeepsSays(w: World, w': World)
    requires SaysAll(w) && w'.rows == w.rows && w'.log == w.log
    requires forall id :: id in w'.calls && !(id in w.calls && w.calls[id] == w'.calls[id]) ==>
               !w'.calls[id].pc.Resolving? && !w'.calls[id].pc.ReconcilingFailure?
    ensures SaysAll(w')
  {
    forall key: CommandKey ensures RowSays(Lookup(w'.rows, key), EventsIn(w', Key(key))) {
      assert RowSays(Lookup(w.rows, key), EventsIn(w, Key(key)));
    }
  }

  lemma TakeKeepsSays(w: World, id: nat, ch: Choice)
    requires Inv(w) && SaysAll(w) && id in w.calls
    ensures SaysAll(Next(w, Take(id, ch)))
  {
    var w' := Next(w, Take(id, ch));
    AppendsAreValid(CommandOf(w.calls[id]), w.calls[id], View(w, w.calls[id].key), ch);
    forall key: CommandKey ensures RowSays(Lookup(w'.rows, key), EventsIn(w', Key(key))) {
      TakeKeepsRowSays(w, id, ch, key);
    }
    TakeKeepsOwnSays(w, id, ch);
    forall j | j in w'.calls ensures CallSays(CommandOf(w'.calls[j]), w'.calls[j], RowOf(w', w'.calls[j].key)) {
      if j != id { TakeKeepsOtherSays(w, id, ch, j); }
    }
  }

  lemma {:induction false} RunSays(moves: seq<Move>)
    ensures SaysAll(Run(moves))
  {
    if moves != [] {
      var shorter := moves[..|moves| - 1];
      RunSays(shorter);
      RunInv(shorter);
      NextKeepsSays(Run(shorter), moves[|moves| - 1]);
    } else {
      assert forall key: CommandKey :: Lookup(EMPTY.rows, key) == None;
    }
  }
}
