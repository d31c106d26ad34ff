/** Resolution of an existing command terminates: every further round is paid for by another call's change. */
module Progress {
  import opened Events
  import opened StoreContracts
  import opened CommandRows
  import opened EventLog
  import opened Stores
  import opened Coordinator
  import opened Ownership
  import opened OwnSteps
  import opened Runs

  predicate ReleasedFor(call: Call, row: Option<Row>) {
    row.Some? && row.value.status == Released && row.value.request == call.request
  }

  /** How the rounds of a call relate to the changes others made, before and after it last read the row. As long as
      nobody else changed anything, what the call read is what there is. */
  ghost predicate Paced(call: Call, row: Option<Row>, events: seq<Event>, changes: nat) {
    var others, seen := Others(call, changes), call.witnessed;
    && 0 <= seen <= others
    && match call.pc
       case Reserving => call.rounds <= seen || (call.rounds <= seen + 1 && (others == seen ==> ReleasedFor(call, row)))
       case Resolving(record) => call.rounds <= seen && (others == seen ==> row == Some(record))
       case Verifying(_, _) => call.rounds <= seen
       case TakingOver(record) =>
         call.rounds <= seen && (others == seen ==> row == Some(record) && record.range.None? && events == [])
       case Revoking(record, known) =>
         call.rounds <= seen && (others == seen ==> row == Some(record) && known == events)
       case ReleasingFailed(_) => call.rounds <= seen
       case ReconcilingFailure(_, _) => call.rounds <= seen
       case Refetching => call.rounds <= others
       case _ => call.rounds <= others + 1
  }

  /** A step that changes the row or the log of its command is counted, and only such a step. */
  ghost predicate Counted(s: Shared, s': Shared) {
    && s.changes <= s'.changes
    && (s'.changes == s.changes <==> s'.row == s.row && s'.log == s.log)
  }

  lemma StepCounted(c: CommandId, call: Call, s: Shared, ch: Choice)
    ensures Counted(s, StepPc(c, call, s, ch).1)
  {
    if call.pc.Appending? {
      var refusal := AppendError(s.log, FencingError(s.row, call.token), call.pc.event, call.pc.expected);
      AppendCounted(call, s, ch.fault, refusal);
    }
  }

  lemma AppendCounted(call: Call, s: Shared, fault: Fault, refusal: Option<CommandError>)
    requires call.pc.Appending?
    ensures Counted(s, AppendWith(call, s, fault, refusal).1)
  {
    assert |s.log + [call.pc.event]| == |s.log| + 1;
  }

  /** The call left resolution for good, in the same round. */
  ghost predicate Executed(call: Call, call': Call) {
    && !Resolves(call'.pc)
    && call'.rounds == call.rounds && call'.base == call.base && call'.own == call.own
    && call'.witnessed == call.witnessed
  }

  lemma HandleStays(call: Call, error: CommandError)
    ensures Executed(call, Handle(call, error))
  {
  }

  lemma RunningStays(c: CommandId, call: Call, s: Shared, ch: Choice)
    requires call.pc.Running?
    ensures Executed(call, StepRunning(c, call, s, ch))
  {
    RunningCases(c, call, s, ch);
    if error :| DomainError(call, error) && StepRunning(c, call, s, ch) == Handle(call, error) {
      HandleStays(call, error);
    }
  }

  lemma OwnedStays<T>(call: Call, s: Shared, r: (Option<Row>, Reply<T>), next: Call)
    requires Executed(call, next)
    ensures Executed(call, Owned(call, s, r, next).0)
  {
    if r.1.Throws? {
      HandleStays(call, r.1.error);
    }
  }

  lemma AppendStays(call: Call, s: Shared, fault: Fault, refusal: Option<CommandError>)
    requires call.pc.Appending?
    ensures Executed(call, AppendWith(call, s, fault, refusal).0)
  {
    if refusal.Some? {
      HandleStays(call, refusal.value);
    }
  }

  lemma LookingUpStays(c: CommandId, call: Call, s: Shared, ch: Choice)
    requires call.pc.LookingUp?
    ensures Executed(call, StepLookingUp(c, call, s, ch))
  {
    HandleStays(call, CommandError(AppendCommitUnknown, Unsaid, [call.pc.event.id]));
    HandleStays(call, call.pc.failure);
    HandleStays(call, Inconsistent(HistoryInconsistent, EventsOf(s, c)));
  }

  /** An execution never returns to resolving, and starts no round. */
  lemma ExecutionStays(c: CommandId, call: Call, s: Shared, ch: Choice)
    requires !Resolves(call.pc)
    ensures Executed(call, StepPc(c, call, s, ch).0)
  {
    match call.pc
    case Running => RunningStays(c, call, s, ch);
    case Renewing(event, expected) =>
      OwnedStays(call, s, Faulty(ch.fault, s.row, Renew(s.row, call.worker, call.token, call.ttl, ch.now)),
                 call.(pc := Appending(event, expected)));
    case Appending(event, expected) =>
      AppendStays(call, s, ch.fault, AppendError(s.log, FencingError(s.row, call.token), event, expected));
    case LookingUp(_, _) => LookingUpStays(c, call, s, ch);
    case Recording(event) =>
      OwnedStays(call, s, Faulty(ch.fault, s.row, Record(s.row, c, event, call.token)), call.(pc := Running));
    case Completing(result, receipt) =>
      OwnedStays(call, s, Faulty(ch.fault, s.row, Complete(s.row, result, receipt, call.token)),
                 call.(pc := Ended(Answer(result))));
    case Reconciling(_, _) => if call.token.Some? { ReconcilingStays(c, call, s, ch); }
    case CheckingNew => if call.token.Some? { CheckingNewStays(c, call, s, ch); }
    case _ =>
  }

  lemma ReconcilingStays(c: CommandId, call: Call, s: Shared, ch: Choice)
    requires call.pc.Reconciling? && call.token.Some?
    ensures Executed(call, StepReconciling(c, call, s, ch).0)
  {
  }

  lemma CheckingNewStays(c: CommandId, call: Call, s: Shared, ch: Choice)
    requires call.pc.CheckingNew? && call.token.Some?
    ensures Executed(call, StepCheckingNew(c, call, s, ch))
  {
  }

  /** The step is counted, and once the counters are brought up to date the call is paced again. */
  ghost predicate PacedStep(c: CommandId, call: Call, s: Shared, call': Call, s': Shared) {
    && Counted(s, s')
    && Paced(Noted(call, s, call', s'), s'.row, EventsOf(s', c), s'.changes)
  }

  ghost predicate PacedBefore(c: CommandId, call: Call, s: Shared) {
    Before(c, call, s) && Paced(call, s.row, EventsOf(s, c), s.changes)
  }

  lemma ReservingPaced(c: CommandId, call: Call, s: Shared, r: (Option<Row>, Reply<Reservation>))
    requires PacedBefore(c, call, s) && call.pc.Reserving? && ReserveVerdict(call, s.row, r)
    requires r.1.Done? && !r.1.value.conflict && !r.1.value.created ==> !ReleasedFor(call, s.row)
    ensures PacedStep(c, call, s, ReserveWith(call, s, r).0, ReserveWith(call, s, r).1)
  {
  }

  lemma ResolvingPaced(c: CommandId, call: Call, s: Shared, ch: Choice)
    requires PacedBefore(c, call, s) && call.pc.Resolving?
    ensures PacedStep(c, call, s, StepResolving(c, call, s, ch), s)
  {
    if !ch.readFails {
      ResolvePaced(c, call, s);
    }
  }

  lemma ResolvePaced(c: CommandId, call: Call, s: Shared)
    requires PacedBefore(c, call, s) && call.pc.Resolving?
    ensures PacedStep(c, call, s, Resolve(c, call, call.pc.record, EventsOf(s, c)), s)
  {
    var events := EventsOf(s, c);
    match call.pc.record.status
    case Finished =>
    case Processing =>
    case Failed => FailedPaced(c, call, events);
    case Released =>
  }

  /** Resolving a failed row leads on only to giving it up or to repairing it. */
  lemma FailedPaced(c: CommandId, call: Call, events: seq<Event>)
    requires call.pc.Resolving? && call.pc.record.status == Failed
    ensures var pc := Resolve(c, call, call.pc.record, events).pc;
            Resolve(c, call, call.pc.record, events) == call.(pc := pc)
            && (pc.ReleasingFailed? || pc.ReconcilingFailure? || pc.Ended?)
  {
  }

  /** A call that is sent back to the row owes this to others: they have changed the row or the log since it last
      read the row. */
  ghost predicate Owed(call: Call, s: Shared, call': Call, s': Shared) {
    s.changes <= s'.changes &&
    (call'.pc.Refetching? ==> Others(Noted(call, s, call', s'), s'.changes) > call.witnessed)
  }

  /** A refused takeover that sends the call back to the row means that someone else changed something. */
  lemma TakingOverPaced(c: CommandId, call: Call, s: Shared, ch: Choice)
    requires PacedBefore(c, call, s) && call.pc.TakingOver?
    ensures PacedStep(c, call, s, StepTakingOver(c, call, s, ch).0, StepTakingOver(c, call, s, ch).1)
    ensures Owed(call, s, StepTakingOver(c, call, s, ch).0, StepTakingOver(c, call, s, ch).1)
  {
    var r := TakeOver(s.row, EventsOf(s, c), call.worker, call.ttl, Some(call.pc.record.token), ch.now);
    TakeOverWithPaced(c, call, s, Faulty(ch.fault, s.row, r));
  }

  lemma TakeOverWithPaced(c: CommandId, call: Call, s: Shared, r: (Option<Row>, Reply<Challenge>))
    requires PacedBefore(c, call, s) && call.pc.TakingOver?
    requires s.row == Some(call.pc.record) && call.pc.record.range.None? && EventsOf(s, c) == []
             && r.1.Done? && r.1.value.Declined?
             ==> r.1.value.reason == NotExpired
    ensures PacedStep(c, call, s, TakeOverWith(call, s, r).0, TakeOverWith(call, s, r).1)
    ensures Owed(call, s, TakeOverWith(call, s, r).0, TakeOverWith(call, s, r).1)
  {
  }

  /** The same for a refused revocation. */
  lemma RevokingPaced(c: CommandId, call: Call, s: Shared, ch: Choice)
    requires PacedBefore(c, call, s) && call.pc.Revoking?
    ensures PacedStep(c, call, s, StepRevoking(c, call, s, ch).0, StepRevoking(c, call, s, ch).1)
    ensures Owed(call, s, StepRevoking(c, call, s, ch).0, StepRevoking(c, call, s, ch).1)
  {
    var record, known := call.pc.record, call.pc.events;
    var r := Revoke(s.row, c, EventsOf(s, c), record.token, Interrupted(known), ch.now);
    RevokeWithPaced(c, call, s, Faulty(ch.fault, s.row, r));
  }

  lemma RevokeWithPaced(c: CommandId, call: Call, s: Shared, r: (Option<Row>, Reply<Challenge>))
    requires PacedBefore(c, call, s) && call.pc.Revoking?
    requires s.row == Some(call.pc.record) && EventsOf(s, c) == call.pc.events && r.1.Done? && r.1.value.Declined?
             ==> r.1.value.reason == NotExpired
    ensures PacedStep(c, call, s, RevokeWith(call, s, r).0, RevokeWith(call, s, r).1)
    ensures Owed(call, s, RevokeWith(call, s, r).0, RevokeWith(call, s, r).1)
  {
  }

  /** A released row is reserved again at once, unless someone else changes it first. */
  lemma ReleasingFailedPaced(c: CommandId, call: Call, s: Shared, ch: Choice)
    requires PacedBefore(c, call, s) && call.pc.ReleasingFailed?
    ensures PacedStep(c, call, s, StepReleasingFailed(call, s, ch).0, StepReleasingFailed(call, s, ch).1)
  {
  }

  lemma VerifyingPaced(c: CommandId, call: Call, s: Shared, ch: Choice)
    requires PacedBefore(c, call, s) && call.pc.Verifying?
    ensures PacedStep(c, call, s, StepVerifying(call, s, ch), s)
  {
  }

  lemma RefetchingPaced(c: CommandId, call: Call, s: Shared, ch: Choice)
    requires PacedBefore(c, call, s) && call.pc.Refetching?
    ensures PacedStep(c, call, s, StepRefetching(call, s, ch), s)
  {
  }

  lemma ReconcilingFailurePaced(c: CommandId, call: Call, s: Shared, r: (Option<Row>, Reply<()>))
    requires PacedBefore(c, call, s) && call.pc.ReconcilingFailure?
    ensures PacedStep(c, call, s, ReconcileFailureWith(call, s, r).0, ReconcileFailureWith(call, s, r).1)
  {
  }

  lemma ExecutedPaced(c: CommandId, call: Call, s: Shared, call': Call, s': Shared)
    requires PacedBefore(c, call, s) && !Resolves(call.pc) && Counted(s, s') && Executed(call, call')
    ensures PacedStep(c, call, s, call', s')
  {
  }

  lemma ExecutionPaced(c: CommandId, call: Call, s: Shared, ch: Choice)
    requires PacedBefore(c, call, s) && !Resolves(call.pc)
    ensures PacedStep(c, call, s, StepPc(c, call, s, ch).0, StepPc(c, call, s, ch).1)
  {
    StepCounted(c, call, s, ch);
    ExecutionStays(c, call, s, ch);
    var r := StepPc(c, call, s, ch);
    ExecutedPaced(c, call, s, r.0, r.1);
  }

  lemma StepPcPaced(c: CommandId, call: Call, s: Shared, ch: Choice)
    requires PacedBefore(c, call, s)
    ensures PacedStep(c, call, s, StepPc(c, call, s, ch).0, StepPc(c, call, s, ch).1)
  {
    match call.pc
    case Reserving =>
      ReserveVerdictHolds(call, s.row, ch);
      var r := Faulty(ch.fault, s.row, Reserve(s.row, call.request, Some(call.worker), call.ttl, ch.now));
      ReservingPaced(c, call, s, r);
    case Resolving(_) => ResolvingPaced(c, call, s, ch);
    case TakingOver(_) => TakingOverPaced(c, call, s, ch);
    case Revoking(_, _) => RevokingPaced(c, call, s, ch);
    case ReleasingFailed(_) => ReleasingFailedPaced(c, call, s, ch);
    case Verifying(_, _) => VerifyingPaced(c, call, s, ch);
    case Refetching => RefetchingPaced(c, call, s, ch);
    case ReconcilingFailure(record, known) =>
      ReconcilingFailurePaced(c, call, s, Faulty(ch.fault, s.row,
        ReconcileFailure(s.row, c, known, Interrupted(known), Some(record.token))));
    case _ => ExecutionPaced(c, call, s, ch);
  }

  ghost predicate CallPaced(w: World, call: Call) {
    call.key.Some? ==> Paced(call, RowOf(w, call.key), EventsIn(w, CommandOf(call)), ChangesOf(w, call.key))
  }

  ghost predicate WorldPaced(w: World) {
    forall id :: id in w.calls ==> CallPaced(w, w.calls[id])
  }

  /** Changes by someone else leave a call paced. */
  lemma OthersKeepPaced(call: Call, row: Option<Row>, events: seq<Event>, changes: nat,
                        row': Option<Row>, events': seq<Event>, changes': nat)
    requires Paced(call, row, events, changes)
    requires changes < changes' || (changes == changes' && row == row' && events == events')
    ensures Paced(call, row', events', changes')
  {
  }

  lemma TakeKeepsPaced(w: World, id: nat, ch: Choice)
    requires Inv(w) && WorldPaced(w) && id in w.calls
    ensures WorldPaced(Next(w, Take(id, ch)))
  {
    var call, w' := w.calls[id], Next(w, Take(id, ch));
    var c, s := CommandOf(call), View(w, call.key);
    var r := Step(c, call, s, ch);
    StepSound(w, id, ch);
    OwnView(w, call, r.0, r.1);
    StepCounted(c, call, s, ch);
    forall j | j in w'.calls ensures CallPaced(w', w'.calls[j]) {
      if j == id {
        if call.key.Some? { OwnPaced(w, call, ch); }
      } else {
        OtherCallPaced(w, call, r.0, r.1, w.calls[j]);
      }
    }
  }

  /** Another call sees a change of its command counted, or none. */
  lemma OtherCallPaced(w: World, call: Call, call': Call, s': Shared, other: Call)
    requires Stepping(w, call, call', s') && Counted(View(w, call.key), s') && CallPaced(w, other)
    ensures CallPaced(Put(w, call, call', s'), other)
  {
    if other.key.Some? {
      if other.key == call.key {
        SameCommandPaced(w, call, call', s', other);
      } else {
        OtherCommandsUntouched(w, call, call', s', CommandOf(other));
      }
    }
  }

  lemma SameCommandPaced(w: World, call: Call, call': Call, s': Shared, other: Call)
    requires Stepping(w, call, call', s') && Counted(View(w, call.key), s') && CallPaced(w, other)
    requires other.key.Some? && other.key == call.key
    ensures CallPaced(Put(w, call, call', s'), other)
  {
    var c, s := CommandOf(call), View(w, call.key);
    OwnView(w, call, call', s');
    OthersKeepPaced(other, s.row, EventsOf(s, c), s.changes, s'.row, EventsOf(s', c), s'.changes);
  }

  lemma OwnPaced(w: World, call: Call, ch: Choice)
    requires Inv(w) && WorldPaced(w) && call.id in w.calls && w.calls[call.id] == call && call.key.Some?
    ensures var s := View(w, call.key);
            var r := Step(CommandOf(call), call, s, ch);
            Paced(r.0, r.1.row, EventsOf(r.1, CommandOf(call)), r.1.changes)
  {
    var c, s := CommandOf(call), View(w, call.key);
    assert CallPaced(w, call);
    assert CommandInv(Key(call.key.value), Lookup(w.rows, call.key.value), EventsIn(w, c));
    StepPcPaced(c, call, s, ch);
  }

  /** Only one call is added or replaced, by one that is paced where it matters. */
  lemma OneCallPaced(w: World, call: Call)
    requires WorldPaced(w) && CallPaced(w, call)
    ensures WorldPaced(w.(calls := w.calls[call.id := call]))
  {
    var w' := w.(calls := w.calls[call.id := call]);
    forall j | j in w'.calls ensures CallPaced(w', w'.calls[j]) {
      assert j != call.id ==> CallPaced(w, w.calls[j]);
    }
  }

  lemma NextKeepsPaced(w: World, move: Move)
    requires Inv(w) && WorldPaced(w)
    ensures WorldPaced(Next(w, move))
  {
    match move
    case Begin(id, key, _, _, _) =>
      if id !in w.calls { OneCallPaced(w, Next(w, move).calls[id]); }
    case Take(id, choice) =>
      if id in w.calls { TakeKeepsPaced(w, id, choice); }
    case Crash(id) =>
      if id in w.calls {
        assert CallPaced(w, w.calls[id]) && w.calls[id].id == id;
        CrashedPaced(w, w.calls[id]);
        OneCallPaced(w, w.calls[id].(pc := Crashed));
      }
  }

  lemma CrashedPaced(w: World, call: Call)
    requires CallPaced(w, call)
    ensures CallPaced(w, call.(pc := Crashed))
  {
  }

  lemma {:induction false} HistoryKeepsPaced(worlds: seq<World>)
    requires History(worlds)
    ensures WorldPaced(worlds[|worlds| - 1])
  {
    if |worlds| > 1 {
      var shorter := worlds[..|worlds| - 1];
      HistoryKeepsPaced(shorter);
      HistoryKeepsInv(shorter);
      var last := shorter[|shorter| - 1];
      assert Leads(last, worlds[|worlds| - 1]);
      var move :| Next(last, move) == worlds[|worlds| - 1];
      NextKeepsPaced(last, move);
    }
  }

  lemma ReachedPaced(w: World)
    requires Reached(w)
    ensures Inv(w) && WorldPaced(w)
  {
    ReachedInv(w);
    var worlds :| History(worlds) && worlds[|worlds| - 1] == w;
    HistoryKeepsPaced(worlds);
  }

  /** In every reachable world a call has gone back to resolving at most once more than others changed its command
      since it began: alone, it recurses at most once. */
  lemma RoundsAreBounded(w: World, id: nat)
    requires Reached(w) && id in w.calls && w.calls[id].key.Some?
    ensures w.calls[id].rounds <= Others(w.calls[id], ChangesOf(w, w.calls[id].key)) + 1
  {
    ReachedPaced(w);
    assert CallPaced(w, w.calls[id]);
  }

  /** In every reachable world, a challenge whose refusal sends the call back to the row was refused because others have
      changed the row or the log since the call last read the row. */
  lemma EveryRereadIsOwed(w: World, id: nat, choice: Choice)
    requires Reached(w) && id in w.calls && w.calls[id].key.Some?
    requires w.calls[id].pc.TakingOver? || w.calls[id].pc.Revoking?
    ensures var w' := Next(w, Take(id, choice));
            var call, call' := w.calls[id], w'.calls[id];
            call'.pc.Refetching? ==> Others(call', ChangesOf(w', call.key)) > call.witnessed
  {
    ReachedPaced(w);
    var call := w.calls[id];
    var c, s := CommandOf(call), View(w, call.key);
    assert CallPaced(w, call);
    assert CommandInv(Key(call.key.value), Lookup(w.rows, call.key.value), EventsIn(w, c));
    assert call.id == id;
    ChallengeOwed(c, call, s, choice);
    StepCounted(c, call, s, choice);
    var r := StepPc(c, call, s, choice);
    TakePuts(w, id, choice, call, s, r.0, r.1);
    PutShows(w, call, Noted(call, s, r.0, r.1), r.1);
  }

  lemma ChallengeOwed(c: CommandId, call: Call, s: Shared, ch: Choice)
    requires PacedBefore(c, call, s) && (call.pc.TakingOver? || call.pc.Revoking?)
    ensures Owed(call, s, StepPc(c, call, s, ch).0, StepPc(c, call, s, ch).1)
  {
    if call.pc.TakingOver? {
      TakingOverPaced(c, call, s, ch);
    } else {
      RevokingPaced(c, call, s, ch);
    }
  }

  lemma PutShows(w: World, call: Call, call': Call, s': Shared)
    requires call.key.Some?
    ensures var w' := Put(w, call, call', s');
            call.id in w'.calls && w'.calls[call.id] == call' && ChangesOf(w', call.key) == s'.changes
  {
  }

  /** Between two worlds nobody but `id` changed the command of `id`. */
  ghost predicate OnlyOwnChanges(w: World, w': World, id: nat) {
    && id in w.calls && id in w'.calls && w'.calls[id].key == w.calls[id].key
    && Others(w'.calls[id], ChangesOf(w', w.calls[id].key)) == Others(w.calls[id], ChangesOf(w, w.calls[id].key))
  }

  lemma OwnStepKeepsOthers(w: World, mid: World, id: nat, choice: Choice)
    requires Inv(mid) && OnlyOwnChanges(w, mid, id) && w.calls[id].key.Some?
    ensures OnlyOwnChanges(w, Next(mid, Take(id, choice)), id)
  {
    var call := mid.calls[id];
    StepSound(mid, id, choice);
    BaseKept(CommandOf(call), call, View(mid, call.key), choice);
  }

  lemma BaseKept(c: CommandId, call: Call, s: Shared, ch: Choice)
    ensures StepPc(c, call, s, ch).0.base == call.base
  {
    if !Resolves(call.pc) {
      ExecutionStays(c, call, s, ch);
    }
  }

  /** The world after steps of one call only. */
  ghost function Undisturbed(w: World, id: nat, choices: seq<Choice>): World {
    if choices == [] then w
    else Next(Undisturbed(w, id, choices[..|choices| - 1]), Take(id, choices[|choices| - 1]))
  }

  /** What a stretch of undisturbed steps keeps. */
  ghost predicate Solo(w: World, w': World, id: nat) {
    Inv(w') && WorldPaced(w') && OnlyOwnChanges(w, w', id)
  }

  lemma SoloStep(w: World, mid: World, id: nat, choice: Choice)
    requires Solo(w, mid, id) && w.calls[id].key.Some?
    ensures Solo(w, Next(mid, Take(id, choice)), id)
  {
    InvKept(mid, Take(id, choice));
    NextKeepsPaced(mid, Take(id, choice));
    OwnStepKeepsOthers(w, mid, id, choice);
  }

  lemma {:induction false} SoloRun(w: World, id: nat, choices: seq<Choice>)
    requires Inv(w) && WorldPaced(w) && id in w.calls && w.calls[id].key.Some?
    ensures Solo(w, Undisturbed(w, id, choices), id)
  {
    if choices != [] {
      var shorter := choices[..|choices| - 1];
      SoloRun(w, id, shorter);
      SoloStep(w, Undisturbed(w, id, shorter), id, choices[|choices| - 1]);
    }
  }

  /** A call that runs undisturbed, whatever it found and whatever fails, goes back to resolving at most once. */
  lemma AloneRecursesAtMostOnce(w: World, begin: Move, choices: seq<Choice>)
    requires Reached(w) && begin.Begin? && begin.key.Some? && begin.id !in w.calls
    ensures var w' := Undisturbed(Next(w, begin), begin.id, choices);
            begin.id in w'.calls && w'.calls[begin.id].rounds <= 1
  {
    ReachedPaced(w);
    InvKept(w, begin);
    NextKeepsPaced(w, begin);
    SoloRun(Next(w, begin), begin.id, choices);
    var w' := Undisturbed(Next(w, begin), begin.id, choices);
    assert CallPaced(w', w'.calls[begin.id]);
  }

  /** How far a resolving call is from its next round. */
  function Distance(pc: Pc): nat {
    match pc case Reserving => 3 case Refetching => 3 case Resolving(_) => 2 case _ => 1
  }

  /** What a resolving call has left: rounds others have paid for, and the distance to the next one. */
  ghost function Budget(call: Call, changes: nat): int {
    4 * (Others(call, changes) + 2 - call.rounds) + Distance(call.pc)
  }

  /** Every step of a resolving call ends it, starts its execution, or uses up budget, of which there is always some:
      unless others keep changing the command, resolution terminates. */
  lemma ResolutionTerminates(w: World, id: nat, choice: Choice)
    requires Reached(w) && id in w.calls && w.calls[id].key.Some? && Resolves(w.calls[id].pc)
    ensures var w' := Next(w, Take(id, choice));
            var call, call' := w.calls[id], w'.calls[id];
            && Budget(call, ChangesOf(w, call.key)) > 0
            && (Resolves(call'.pc) ==> Budget(call', ChangesOf(w', call.key)) < Budget(call, ChangesOf(w, call.key)))
  {
    RoundsAreBounded(w, id);
    ReachedInv(w);
    var call := w.calls[id];
    StepSound(w, id, choice);
    RoundUsesBudget(CommandOf(call), call, View(w, call.key), choice);
  }

  lemma RoundUsesBudget(c: CommandId, call: Call, s: Shared, ch: Choice)
    requires Resolves(call.pc)
    ensures var r := Step(c, call, s, ch);
            Resolves(r.0.pc) ==> Budget(r.0, r.1.changes) < Budget(call, s.changes)
  {
    var r := StepPc(c, call, s, ch);
    if call.pc.Resolving? {
      ResolvingAdvances(c, call, s, ch);
    } else if call.pc.TakingOver? || call.pc.Revoking? || call.pc.ReleasingFailed? || call.pc.ReconcilingFailure? {
      ChallengeAdvances(c, call, s, ch);
    } else {
      ReadingAdvances(c, call, s, ch);
    }
    StepCounted(c, call, s, ch);
    AdvanceUsesBudget(call, s, r.0, r.1);
  }

  /** Closer to the next round, or in it. */
  ghost predicate Advances(call: Call, call': Call) {
    && call'.base == call.base && call'.own == call.own && call'.witnessed == call.witnessed
    && (Resolves(call'.pc) ==>
          (call'.rounds == call.rounds && Distance(call'.pc) < Distance(call.pc)) || call'.rounds == call.rounds + 1)
  }

  lemma ResolvingAdvances(c: CommandId, call: Call, s: Shared, ch: Choice)
    requires call.pc.Resolving?
    ensures Advances(call, StepPc(c, call, s, ch).0)
  {
  }

  lemma ChallengeAdvances(c: CommandId, call: Call, s: Shared, ch: Choice)
    requires call.pc.TakingOver? || call.pc.Revoking? || call.pc.ReleasingFailed? || call.pc.ReconcilingFailure?
    ensures Advances(call, StepPc(c, call, s, ch).0)
  {
  }

  lemma ReadingAdvances(c: CommandId, call: Call, s: Shared, ch: Choice)
    requires call.pc.Reserving? || call.pc.Refetching? || call.pc.Verifying?
    ensures Advances(call, StepPc(c, call, s, ch).0)
  {
  }

  lemma AdvanceUsesBudget(call: Call, s: Shared, call': Call, s': Shared)
    requires Advances(call, call') && Resolves(call.pc) && s.changes <= s'.changes
    ensures Resolves(call'.pc) ==> Budget(Noted(call, s, call', s'), s'.changes) < Budget(call, s.changes)
  {
  }
}
