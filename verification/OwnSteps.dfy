/** Every step of a call keeps its own invariant and its command's, and is one others can rely on. */
module OwnSteps {
  import opened Events
  import opened StoreContracts
  import opened CommandRows
  import opened EventLog
  import opened Coordinator
  import opened Ownership

  ghost predicate Before(c: CommandId, call: Call, s: Shared) {
    CallInv(c, call, s.row, EventsOf(s, c)) && CommandInv(c, s.row, EventsOf(s, c))
  }

  /** What a step from (call, s) to (call', s') must establish. */
  ghost predicate Sound(c: CommandId, call: Call, s: Shared, call': Call, s': Shared) {
    && CallInv(c, call', s'.row, EventsOf(s', c))
    && CommandInv(c, s'.row, EventsOf(s', c))
    && (call.key.Some? ==> Rely(s.row, EventsOf(s, c), s'.row, EventsOf(s', c), call.token, call.id))
    && call'.id == call.id && call'.key == call.key && call'.request == call.request
    && (call'.token == call.token || Acquires(call, s.row, call', s'.row))
    && (s'.log == s.log || Appends(c, call, s, s'))
    && (s'.row != s.row && call.token.Some? ==> Current(call, s.row))
  }

  /** The step acquired a generation above every earlier one. */
  ghost predicate Acquires(call: Call, row: Option<Row>, call': Call, row': Option<Row>) {
    && call.token.None? && call'.token.Some? && row'.Some?
    && row'.value.token == call'.token.value
    && (row.Some? ==> row.value.token < row'.value.token)
  }

  /** The step appended one event of the call's own command, under the row's current generation. */
  ghost predicate Appends(c: CommandId, call: Call, s: Shared, s': Shared) {
    && |s'.log| > |s.log| && s'.log == s.log + [s'.log[|s.log|]]
    && s'.log[|s.log|].command == c && s'.log[|s.log|].id.issuer == call.id
    && Current(call, s.row) && s'.row == s.row
    && (call.key.Some? ==> s.row.value.status == Processing)
  }

  /** A step that changes nothing but where the call stands. */
  lemma StayedSound(c: CommandId, call: Call, s: Shared, pc: Pc)
    requires Before(c, call, s) && CallInv(c, call.(pc := pc), s.row, EventsOf(s, c))
    ensures Sound(c, call, s, call.(pc := pc), s)
  {
  }

  /** What an error may claim when it reaches `handleExecutionError`: a commit only if there is an event, none only of
      an execution without one, unless it reports an append of unknown outcome. */
  ghost predicate Claims(call: Call, error: CommandError, row: Option<Row>, events: seq<Event>) {
    && (error.committed == Yes ==> events != [])
    && (error.code == AppendCommitUnknown ==> error.committed == Unsaid)
    && (Current(call, row) && call.committed == [] && error.committed != Yes && error.code != AppendCommitUnknown
        ==> events == [])
    && error.code != InterruptedAfterCommit
  }

  ghost predicate Handleable(c: CommandId, call: Call, row: Option<Row>, events: seq<Event>) {
    && (if call.key.None? then call.token.None? && (call.pc.Running? || call.pc.Appending? || call.pc.LookingUp?)
        else call.token.Some? && c.Key?)
    && HolderInv(c, call, row, events)
    && (Current(call, row) ==> AtMostOneMore(call.committed, events))
    && CommandInv(c, row, events)
  }

  lemma HandleUncommittedSound(c: CommandId, call: Call, error: CommandError, row: Option<Row>, events: seq<Event>)
    requires Handleable(c, call, row, events) && Claims(call, error, row, events)
    requires call.key.Some? && call.committed == []
    ensures CallInv(c, Handle(call, error), row, events)
  {
  }

  lemma HandleCommittedSound(c: CommandId, call: Call, error: CommandError, row: Option<Row>, events: seq<Event>)
    requires Handleable(c, call, row, events) && Claims(call, error, row, events)
    requires call.key.Some? && call.committed != []
    ensures CallInv(c, Handle(call, error), row, events)
  {
  }

  lemma HandleKeylessSound(c: CommandId, call: Call, error: CommandError, row: Option<Row>, events: seq<Event>)
    requires Handleable(c, call, row, events) && Claims(call, error, row, events)
    requires call.key.None?
    ensures CallInv(c, Handle(call, error), row, events)
  {
  }

  /** `handleExecutionError` leaves a sound call, whatever was thrown, provided the error does not claim too much and
      an uncertain append is reported as such. */
  lemma HandleSound(c: CommandId, call: Call, error: CommandError, row: Option<Row>, events: seq<Event>)
    requires Handleable(c, call, row, events) && Claims(call, error, row, events)
    ensures CallInv(c, Handle(call, error), row, events)
    ensures Handle(call, error) == call.(pc := Handle(call, error).pc)
  {
    if call.key.None? {
      HandleKeylessSound(c, call, error, row, events);
    } else if call.committed == [] {
      HandleUncommittedSound(c, call, error, row, events);
    } else {
      HandleCommittedSound(c, call, error, row, events);
    }
  }

  /** The same, as a step that touches neither row nor log. */
  lemma HandledSound(c: CommandId, call: Call, s: Shared, error: CommandError)
    requires Before(c, call, s)
    requires call.key.None? ==> call.pc.Running? || call.pc.Appending? || call.pc.LookingUp?
    requires call.key.Some? ==> call.token.Some?
    requires Current(call, s.row) ==> AtMostOneMore(call.committed, EventsOf(s, c))
    requires Claims(call, error, s.row, EventsOf(s, c))
    ensures Sound(c, call, s, Handle(call, error), s)
  {
    HandleSound(c, call, error, s.row, EventsOf(s, c));
    StayedSound(c, call, s, Handle(call, error).pc);
  }

  /** The row after a reservation that took effect: a new generation, above that of the released row it replaces. */
  ghost predicate NewGeneration(call: Call, row: Option<Row>, row': Row) {
    && row'.status == Processing && row'.range.None? && row'.error.None? && row'.request == call.request
    && match row
       case None => row'.token == 1
       case Some(prior) => prior.status == Released && prior.request == call.request && row'.token == prior.token + 1
  }

  /** What a reservation may do and answer. */
  ghost predicate ReserveVerdict(call: Call, row: Option<Row>, r: (Option<Row>, Reply<Reservation>)) {
    && (r.0 == row || (r.0.Some? && NewGeneration(call, row, r.0.value)))
    && (r.1.Done? && !r.1.value.conflict ==>
          if r.1.value.created then r.0 == Some(r.1.value.row) && NewGeneration(call, row, r.1.value.row)
          else row == r.0 == Some(r.1.value.row) && r.1.value.row.request == call.request)
    && (r.1.Throws? ==> r.1.error == UNCODED)
  }

  lemma ReserveVerdictHolds(call: Call, row: Option<Row>, ch: Choice)
    ensures ReserveVerdict(call, row, Faulty(ch.fault, row,
                                             Reserve(row, call.request, Some(call.worker), call.ttl, ch.now)))
  {
  }

  lemma ReserveWithSound(c: CommandId, call: Call, s: Shared, r: (Option<Row>, Reply<Reservation>))
    requires Before(c, call, s) && call.pc.Reserving? && ReserveVerdict(call, s.row, r)
    ensures Sound(c, call, s, ReserveWith(call, s, r).0, ReserveWith(call, s, r).1)
  {
    if r.0 == s.row {
      ReserveNothingSound(c, call, s, r);
    } else {
      ReserveNewSound(c, call, s, r);
    }
  }

  lemma ReserveNothingSound(c: CommandId, call: Call, s: Shared, r: (Option<Row>, Reply<Reservation>))
    requires Before(c, call, s) && call.pc.Reserving? && ReserveVerdict(call, s.row, r) && r.0 == s.row
    ensures Sound(c, call, s, ReserveWith(call, s, r).0, ReserveWith(call, s, r).1)
  {
    StayedSound(c, call, s, ReserveWith(call, s, r).0.pc);
  }

  lemma ReserveNewSound(c: CommandId, call: Call, s: Shared, r: (Option<Row>, Reply<Reservation>))
    requires Before(c, call, s) && call.pc.Reserving? && ReserveVerdict(call, s.row, r) && r.0 != s.row
    ensures Sound(c, call, s, ReserveWith(call, s, r).0, ReserveWith(call, s, r).1)
  {
  }

  lemma ReservingSound(c: CommandId, call: Call, s: Shared, ch: Choice)
    requires Before(c, call, s) && call.pc.Reserving?
    ensures Sound(c, call, s, StepReserving(call, s, ch).0, StepReserving(call, s, ch).1)
  {
    ReserveVerdictHolds(call, s.row, ch);
    ReserveWithSound(c, call, s,
      Faulty(ch.fault, s.row, Reserve(s.row, call.request, Some(call.worker), call.ttl, ch.now)));
  }

  lemma CheckingNewSound(c: CommandId, call: Call, s: Shared, ch: Choice)
    requires Before(c, call, s) && call.pc.CheckingNew? && call.token.Some?
    ensures Sound(c, call, s, StepCheckingNew(c, call, s, ch), s)
  {
    CheckedKnows(c, call, s.row, EventsOf(s, c), StepCheckingNew(c, call, s, ch).pc);
    StayedSound(c, call, s, StepCheckingNew(c, call, s, ch).pc);
  }

  /** What a new execution knows after its check: that there is nothing, or that there is something to reconcile. */
  lemma CheckedKnows(c: CommandId, call: Call, row: Option<Row>, events: seq<Event>, pc: Pc)
    requires CallInv(c, call, row, events) && CommandInv(c, row, events) && call.pc.CheckingNew? && call.token.Some?
    requires || pc == Failing(call.token.value, Plain(ReconciliationFailed, Unsaid), [])
             || (events == [] && pc == Running)
             || (events != [] && pc == Failing(call.token.value, Inconsistent(HistoryInconsistent, events), events))
             || (events != [] && pc == Reconciling(Interrupted(events), events))
    ensures CallInv(c, call.(pc := pc), row, events)
  {
  }

  lemma ReadingBackSound(c: CommandId, call: Call, s: Shared, ch: Choice)
    requires Before(c, call, s) && call.pc.ReadingBack?
    ensures Sound(c, call, s, StepReadingBack(call, s, ch), s)
  {
    StayedSound(c, call, s, StepReadingBack(call, s, ch).pc);
  }

  /** Where the callback's next deed can lead. */
  ghost predicate RunsTo(c: CommandId, call: Call, call': Call) {
    || call' == call
    || (exists event, expected ::
          Pending(c, call, event) && call.key.Some? && call' == call.(pc := Renewing(event, expected)))
    || (exists event, expected ::
          Pending(c, call, event) && call.key.None? && call' == call.(pc := Appending(event, expected)))
    || (exists error :: DomainError(call, error) && call' == Handle(call, error))
    || (exists result, receipt :: call.key.Some? && call' == call.(pc := Completing(result, receipt)))
    || (exists result :: call.key.None? && call' == call.(pc := Ended(Answer(result))))
  }

  ghost predicate DomainError(call: Call, error: CommandError) {
    && error.code != AppendCommitUnknown && error.code != InterruptedAfterCommit
    && (error.committed == Yes ==> call.committed != [])
  }

  lemma RunningCases(c: CommandId, call: Call, s: Shared, ch: Choice)
    requires call.pc.Running?
    ensures RunsTo(c, call, StepRunning(c, call, s, ch))
  {
    var call' := StepRunning(c, call, s, ch);
    if Plausible(c, call, s.log, ch.deed) {
      match ch.deed
      case Commits(event, expected) => assert Pending(c, call, event);
      case ThrowsError(error) => assert DomainError(call, error);
      case Answers(_, _, _) => assert DomainError(call, UNCODED);
    }
  }

  lemma RunsToSound(c: CommandId, call: Call, s: Shared, call': Call)
    requires Before(c, call, s) && call.pc.Running? && RunsTo(c, call, call')
    ensures Sound(c, call, s, call', s)
  {
    if error :| DomainError(call, error) && call' == Handle(call, error) {
      HandledSound(c, call, s, error);
    } else {
      RunsOnKeepsCall(c, call, s.row, EventsOf(s, c), call');
      StayedSound(c, call, s, call'.pc);
    }
  }

  /** Going on, or answering, keeps what the execution knows. */
  lemma RunsOnKeepsCall(c: CommandId, call: Call, row: Option<Row>, events: seq<Event>, call': Call)
    requires CallInv(c, call, row, events) && CommandInv(c, row, events)
    requires call.pc.Running? && RunsTo(c, call, call')
    requires !exists error :: DomainError(call, error) && call' == Handle(call, error)
    ensures CallInv(c, call', row, events) && call' == call.(pc := call'.pc)
  {
  }

  lemma RunningSound(c: CommandId, call: Call, s: Shared, ch: Choice)
    requires Before(c, call, s) && call.pc.Running?
    ensures Sound(c, call, s, StepRunning(c, call, s, ch), s)
  {
    RunningCases(c, call, s, ch);
    RunsToSound(c, call, s, StepRunning(c, call, s, ch));
  }

  /** The pending append may go ahead. */
  ghost predicate MayAppend(c: CommandId, call: Call, s: Shared, event: Event) {
    && Before(c, call, s) && call.pc.Appending? && event == call.pc.event && Current(call, s.row)
    && (call.key.Some? ==> s.row.value.status == Processing)
  }

  /** What the log's growth by the pending event means to the command and to others. */
  lemma AppendRelied(c: CommandId, call: Call, s: Shared, event: Event)
    requires MayAppend(c, call, s, event)
    ensures CommandInv(c, s.row, EventsOf(Longer(s, event), c))
    ensures call.key.Some? ==>
              Rely(s.row, EventsOf(s, c), s.row, EventsOf(Longer(s, event), c), call.token, call.id)
    ensures Appends(c, call, s, Longer(s, event))
  {
    LongerEvents(c, s, event);
  }

  /** A call that knows of its append, or is to look for it, has taken a sound step. */
  lemma AppendedSound(c: CommandId, call: Call, s: Shared, event: Event, call': Call)
    requires MayAppend(c, call, s, event)
    requires call' == call.(committed := call'.committed, pc := call'.pc)
    requires CallInv(c, call', s.row, EventsOf(Longer(s, event), c))
    ensures Sound(c, call, s, call', Longer(s, event))
  {
    AppendRelied(c, call, s, event);
  }

  /** The log grew by the pending event, but the acknowledgement was lost. */
  lemma UnacknowledgedKnows(c: CommandId, call: Call, s: Shared, event: Event)
    requires MayAppend(c, call, s, event)
    ensures CallInv(c, call.(pc := LookingUp(event, UNCODED)), s.row, EventsOf(Longer(s, event), c))
  {
    LongerEvents(c, s, event);
  }

  lemma AppendUnacknowledgedSound(c: CommandId, call: Call, s: Shared, event: Event)
    requires MayAppend(c, call, s, event)
    ensures Sound(c, call, s, call.(pc := LookingUp(event, UNCODED)), Longer(s, event))
  {
    UnacknowledgedKnows(c, call, s, event);
    AppendedSound(c, call, s, event, call.(pc := LookingUp(event, UNCODED)));
  }

  /** What the call knows once its append is confirmed. */
  lemma ConfirmedKnows(c: CommandId, call: Call, s: Shared, event: Event)
    requires MayAppend(c, call, s, event)
    ensures CallInv(c, Confirmed(call, event), s.row, EventsOf(Longer(s, event), c))
  {
    LongerEvents(c, s, event);
    ConfirmedCommits(c, call, s.row, EventsOf(s, c), event);
  }

  lemma ConfirmedCommits(c: CommandId, call: Call, row: Option<Row>, events: seq<Event>, event: Event)
    requires CallInv(c, call, row, events) && call.pc.Appending? && event == call.pc.event && Current(call, row)
    ensures CallInv(c, Confirmed(call, event), row, events + [event])
  {
    assert Confirmed(call, event).committed[..|call.committed|] == call.committed;
  }

  lemma AppendConfirmedSound(c: CommandId, call: Call, s: Shared, event: Event)
    requires MayAppend(c, call, s, event)
    ensures Sound(c, call, s, Confirmed(call, event), Longer(s, event))
  {
    ConfirmedKnows(c, call, s, event);
    AppendedSound(c, call, s, event, Confirmed(call, event));
  }

  function Longer(s: Shared, event: Event): Shared {
    s.(log := s.log + [event], changes := s.changes + 1)
  }

  lemma LongerEvents(c: CommandId, s: Shared, event: Event)
    ensures EventsOf(Longer(s, event), c)
            == if event.command == c then EventsOf(s, c) + [event] else EventsOf(s, c)
    ensures (EventsOf(s, c) + [event])[..|EventsOf(s, c)|] == EventsOf(s, c)
  {
    SelectAppend(s.log, event, OfCommand(c));
  }

  /** What the event store may answer to the pending append. */
  ghost predicate AppendVerdict(call: Call, row: Option<Row>, refusal: Option<CommandError>) {
    match refusal
    case None =>
      call.token.Some? ==> row.Some? && row.value.status == Processing && row.value.token == call.token.value
    case Some(error) =>
      if FencingCode(error.code) then error.committed == No
      else error.committed == Unsaid && (error.code == Uncoded || error.code == OptimisticConcurrencyConflict)
  }

  lemma AppendVerdictHolds(call: Call, s: Shared, event: Event, expected: int)
    ensures AppendVerdict(call, s.row, AppendError(s.log, FencingError(s.row, call.token), event, expected))
  {
  }

  lemma UncertainAppendSound(c: CommandId, call: Call, s: Shared, failure: CommandError)
    requires Before(c, call, s) && call.pc.Appending? && failure.committed == Unsaid
    requires failure.code == Uncoded || failure.code == OptimisticConcurrencyConflict
    ensures Sound(c, call, s, call.(pc := LookingUp(call.pc.event, failure)), s)
  {
  }

  lemma AppendWithSound(c: CommandId, call: Call, s: Shared, fault: Fault, refusal: Option<CommandError>)
    requires Before(c, call, s) && call.pc.Appending? && AppendVerdict(call, s.row, refusal)
    ensures Sound(c, call, s, AppendWith(call, s, fault, refusal).0, AppendWith(call, s, fault, refusal).1)
  {
    if fault == Refuses {
      UncertainAppendSound(c, call, s, UNCODED);
    } else if refusal.None? {
      AppendUnacknowledgedSound(c, call, s, call.pc.event);
      AppendConfirmedSound(c, call, s, call.pc.event);
    } else if FencingCode(refusal.value.code) {
      HandledSound(c, call, s, refusal.value);
    } else {
      UncertainAppendSound(c, call, s, refusal.value);
    }
  }

  lemma AppendingSound(c: CommandId, call: Call, s: Shared, ch: Choice)
    requires Before(c, call, s) && call.pc.Appending?
    ensures Sound(c, call, s, StepAppending(call, s, ch).0, StepAppending(call, s, ch).1)
  {
    var refusal := AppendError(s.log, FencingError(s.row, call.token), call.pc.event, call.pc.expected);
    AppendVerdictHolds(call, s, call.pc.event, call.pc.expected);
    AppendWithSound(c, call, s, ch.fault, refusal);
  }

  lemma {:induction false} FindByIdFresh(events: seq<Event>, e: Event)
    requires !HasId(events, e.id)
    ensures FindById(events, e.id) == None && FindById(events + [e], e.id) == Some(e)
  {
    if events != [] {
      assert events[0].id != e.id;
      forall i | 0 <= i < |events[1..]| ensures events[1..][i].id != e.id {
        assert events[1..][i] == events[i + 1];
      }
      FindByIdFresh(events[1..], e);
      assert (events + [e])[1..] == events[1..] + [e];
    } else {
      assert [e][1..] == [];
    }
  }

  lemma {:induction false} FoundById(events: seq<Event>, id: EventId)
    requires FindById(events, id).Some?
    ensures exists i :: 0 <= i < |events| && events[i].id == id
  {
    if events[0].id != id {
      FoundById(events[1..], id);
      var i :| 0 <= i < |events[1..]| && events[1..][i].id == id;
      assert events[i + 1].id == id;
    }
  }

  /** The raw lookup decides an uncertain append correctly, unless it fails itself. */
  lemma LookingUpSound(c: CommandId, call: Call, s: Shared, ch: Choice)
    requires Before(c, call, s) && call.pc.LookingUp?
    ensures Sound(c, call, s, StepLookingUp(c, call, s, ch), s)
  {
    var event, events := call.pc.event, EventsOf(s, c);
    var found := FindById(events, event.id);
    FindByIdFresh(call.committed, event);
    if ch.readFails {
      HandledSound(c, call, s, CommandError(AppendCommitUnknown, Unsaid, [event.id]));
    } else if found.None? {
      HandledSound(c, call, s, call.pc.failure);
    } else if found.value != event {
      HandledSound(c, call, s, Inconsistent(HistoryInconsistent, events));
    } else {
      FoundById(events, event.id);
      ConfirmedSound(c, call, s, event);
    }
  }

  lemma ConfirmedSound(c: CommandId, call: Call, s: Shared, event: Event)
    requires Before(c, call, s) && call.pc.LookingUp? && event == call.pc.event
    requires Current(call, s.row) ==> EventsOf(s, c) == call.committed + [event]
    requires Current(call, s.row)
    ensures Sound(c, call, s, Confirmed(call, event), s)
  {
    assert (call.committed + [event])[..|call.committed|] == call.committed;
  }
}
