/** One call of `execute` as a small-step machine: between any two store operations other calls may run. */
module Coordinator {
  import opened Events
  import opened StoreContracts
  import opened CommandRows
  import opened EventLog
  import opened Receipts

  datatype Outcome = Answer(result: Result) | Thrown(error: CommandError)

  /** Where a call stands: the next store operation it performs, with the locals it still needs. */
  datatype Pc =
    | Reserving
    | CheckingNew
    | ReadingBack
    | Running
    | Renewing(event: Event, expected: int)
    | Appending(event: Event, expected: int)
    | LookingUp(event: Event, failure: CommandError)
    | Recording(event: Event)
    | Completing(result: Result, receipt: Receipt)
    | Reconciling(error: CommandError, events: seq<Event>)
    | Failing(generation: nat, error: CommandError, events: seq<Event>)
    | Rereading(generation: nat, error: CommandError, events: seq<Event>)
    | Releasing(error: CommandError)
    | Resolving(record: Row)
    | Verifying(record: Row, events: seq<Event>)
    | TakingOver(record: Row)
    | Revoking(record: Row, events: seq<Event>)
    | Refetching
    | ReleasingFailed(record: Row)
    | ReconcilingFailure(record: Row, events: seq<Event>)
    | Ended(outcome: Outcome)
    | Crashed

  /** A call of `execute`. `token` is the generation its execution holds, once it holds one. `rounds` counts how often
      it went back to reserving or to re-reading the row; `base`, `own` and `witnessed` count changes of its command's
      row and events: all when it began, its own, and those by others when it last read the row. */
  datatype Call = Call(
    id: nat, key: Option<CommandKey>, request: Request, worker: string, ttl: int,
    token: Option<nat>, committed: seq<Event>, pc: Pc,
    rounds: nat, base: nat, own: nat, witnessed: int)

  /** What one call sees of the stores: its command's row, the event log, and a count of changes to its command. */
  datatype Shared = Shared(row: Option<Row>, log: seq<Event>, changes: nat)

  /** A store operation succeeds, throws without effect, or takes effect and throws. */
  datatype Fault = Faultless | Refuses | LosesAck

  /** What the command's callback does next. */
  datatype Deed =
    | Commits(event: Event, expected: int)
    | ThrowsError(error: CommandError)
    | Answers(result: Result, stateAt: nat, snapshotAt: nat)

  datatype Choice = Choice(now: int, fault: Fault, readFails: bool, deed: Deed)

  function CommandOf(call: Call): CommandId {
    match call.key case Some(k) => Key(k) case None => Operation(call.id)
  }

  function EventsOf(s: Shared, c: CommandId): seq<Event> {
    Select(s.log, OfCommand(c))
  }

  function Faulty<T>(fault: Fault, row: Option<Row>, r: (Option<Row>, Reply<T>)): (Option<Row>, Reply<T>) {
    match fault
    case Faultless => r
    case Refuses => (row, Reply.Throws(UNCODED))
    case LosesAck => (r.0, Reply.Throws(UNCODED))
  }

  function Write(s: Shared, row: Option<Row>): Shared {
    s.(row := row, changes := if row == s.row then s.changes else s.changes + 1)
  }

  function End(call: Call, error: CommandError): Call {
    call.(pc := Ended(Thrown(error)))
  }

  predicate FencingCode(code: Code) {
    code == FencingTokenStale || code == LeaseExpired || code == FencingTokenRequired || code == FencingContextInvalid
  }

  predicate DeterministicRejection(code: Code) {
    code == AggregateNotFound || code == CompensationRequired
  }

  predicate ReconcilableUnknown(code: Code) {
    code == ReconciliationFailed || code == AppendCommitUnknown
  }

  /** `handleExecutionError`. */
  function Handle(call: Call, error: CommandError): Call {
    if call.key.None? || call.token.None? then
      if call.committed != [] then
        End(call, if error.committed == Yes then error else Failure(PartiallyCommitted, Yes, call.committed))
      else if error.committed == Yes || error.code == AppendCommitUnknown then End(call, error)
      else End(call, error.(committed := No))
    else if call.committed == [] then
      if error.committed == Yes then End(call, error)
      else if error.code == AppendCommitUnknown then
        call.(pc := Failing(call.token.value, error.(committed := Unsaid), []))
      else if FencingCode(error.code) then End(call, error)
      else if DeterministicRejection(error.code) then
        call.(pc := Failing(call.token.value, error.(committed := No), []))
      else call.(pc := Releasing(error.(committed := No)))
    else
      var answer := if error.committed == Yes then error else Failure(PartiallyCommitted, Yes, call.committed);
      call.(pc := Reconciling(answer, call.committed))
  }

  function StepReserving(call: Call, s: Shared, ch: Choice): (Call, Shared) {
    ReserveWith(call, s,
                Faulty(ch.fault, s.row, Reserve(s.row, call.request, Some(call.worker), call.ttl, ch.now)))
  }

  function ReserveWith(call: Call, s: Shared, r: (Option<Row>, Reply<Reservation>)): (Call, Shared) {
    var s' := Write(s, r.0);
    match r.1
    case Throws(error) => (End(call, error), s')
    case Done(reservation) =>
      if reservation.conflict then (End(call, Plain(IdempotencyKeyConflict, No)), s')
      else if !reservation.created then (call.(pc := Resolving(reservation.row)), s')
      else (call.(pc := CheckingNew, token := Some(reservation.row.token)), s')
  }

  function StepCheckingNew(c: CommandId, call: Call, s: Shared, ch: Choice): Call
    requires call.token.Some?
  {
    var events := EventsOf(s, c);
    if ch.readFails then call.(pc := Failing(call.token.value, Plain(ReconciliationFailed, Unsaid), []))
    else if events == [] then call.(pc := Running)
    else if !Contiguous(c, events) then
      call.(pc := Failing(call.token.value, Inconsistent(HistoryInconsistent, events), events))
    else call.(pc := Reconciling(Interrupted(events), events))
  }

  /** What a callback may do: append events of its own command under fresh ids, throw a domain error (one that claims
      a commit only after one), or answer as the engine's commands do. */
  ghost predicate Plausible(c: CommandId, call: Call, log: seq<Event>, deed: Deed) {
    match deed
    case Commits(event, _) => event.command == c && event.id.issuer == call.id && !HasId(call.committed, event.id)
    case ThrowsError(error) =>
      && (error.code == Uncoded || DeterministicRejection(error.code) || error.code == ViewRepairFailed)
      && (error.committed == Yes ==> call.committed != [])
    case Answers(result, stateAt, snapshotAt) =>
      && ReadFrom(result, Known(log, result.aggregate), stateAt, snapshotAt)
      && (forall i :: 0 <= i < |call.committed| ==> call.committed[i].aggregate == result.aggregate)
      && (call.committed == [] ==> call.request.commandType == CompensateOrder && result.events == Some([]))
  }

  ghost function StepRunning(c: CommandId, call: Call, s: Shared, ch: Choice): Call {
    if !Plausible(c, call, s.log, ch.deed) then call
    else match ch.deed
      case Commits(event, expected) =>
        if call.key.Some? then call.(pc := Renewing(event, expected)) else call.(pc := Appending(event, expected))
      case ThrowsError(error) => Handle(call, error)
      case Answers(result, _, _) =>
        if ch.fault != Faultless then Handle(call, UNCODED)
        else match ValidateResult(result, s.log)
          case Refused => Handle(call, UNCODED)
          case Anchored(anchor) =>
            if call.key.Some? then call.(pc := Completing(result, MakeReceipt(call.committed, anchor)))
            else call.(pc := Ended(Answer(result)))
  }

  /** A mutation of the owner's own row: an error it throws is handled as any other error of the execution. */
  function Owned<T>(call: Call, s: Shared, r: (Option<Row>, Reply<T>), next: Call): (Call, Shared) {
    (if r.1.Throws? then Handle(call, r.1.error) else next, Write(s, r.0))
  }

  function StepRenewing(call: Call, s: Shared, ch: Choice): (Call, Shared)
    requires call.pc.Renewing?
  {
    Owned(call, s, Faulty(ch.fault, s.row, Renew(s.row, call.worker, call.token, call.ttl, ch.now)),
          call.(pc := Appending(call.pc.event, call.pc.expected)))
  }

  /** The append is known to have reached the log. */
  function Confirmed(call: Call, event: Event): Call {
    call.(committed := call.committed + [event], pc := if call.key.Some? then Recording(event) else Running)
  }

  function StepAppending(call: Call, s: Shared, ch: Choice): (Call, Shared)
    requires call.pc.Appending?
  {
    AppendWith(call, s, ch.fault,
               AppendError(s.log, FencingError(s.row, call.token), call.pc.event, call.pc.expected))
  }

  /** `appendEvent`, given the refusal of the event store, if any: a fencing refusal is final, any other throw leaves
      it open whether the event was written. */
  function AppendWith(call: Call, s: Shared, fault: Fault, refusal: Option<CommandError>): (Call, Shared)
    requires call.pc.Appending?
  {
    var event := call.pc.event;
    if fault == Refuses then (call.(pc := LookingUp(event, UNCODED)), s)
    else match refusal
      case Some(error) =>
        (if FencingCode(error.code) then Handle(call, error) else call.(pc := LookingUp(event, error)), s)
      case None =>
        (if fault == LosesAck then call.(pc := LookingUp(event, UNCODED)) else Confirmed(call, event),
         s.(log := s.log + [event], changes := s.changes + 1))
  }

  function FindById(events: seq<Event>, id: EventId): Option<Event> {
    if events == [] then None else if events[0].id == id then Some(events[0]) else FindById(events[1..], id)
  }

  function StepLookingUp(c: CommandId, call: Call, s: Shared, ch: Choice): Call
    requires call.pc.LookingUp?
  {
    var event := call.pc.event;
    var found := FindById(EventsOf(s, c), event.id);
    if ch.readFails then Handle(call, CommandError(AppendCommitUnknown, Unsaid, [event.id]))
    else if found.None? then Handle(call, call.pc.failure)
    else if found.value != event then Handle(call, Inconsistent(HistoryInconsistent, EventsOf(s, c)))
    else Confirmed(call, event)
  }

  function StepRecording(c: CommandId, call: Call, s: Shared, ch: Choice): (Call, Shared)
    requires call.pc.Recording?
  {
    Owned(call, s, Faulty(ch.fault, s.row, Record(s.row, c, call.pc.event, call.token)), call.(pc := Running))
  }

  function StepCompleting(call: Call, s: Shared, ch: Choice): (Call, Shared)
    requires call.pc.Completing?
  {
    Owned(call, s, Faulty(ch.fault, s.row, Complete(s.row, call.pc.result, call.pc.receipt, call.token)),
          call.(pc := Ended(Answer(call.pc.result))))
  }

  function StepReconciling(c: CommandId, call: Call, s: Shared, ch: Choice): (Call, Shared)
    requires call.pc.Reconciling? && call.token.Some?
  {
    ReconcileWith(call, s, Faulty(ch.fault, s.row, ReconcileEvents(s.row, c, call.pc.events, call.token)))
  }

  function ReconcileWith(call: Call, s: Shared, r: (Option<Row>, Reply<()>)): (Call, Shared)
    requires call.pc.Reconciling? && call.token.Some?
  {
    var error, events := call.pc.error, call.pc.events;
    (call.(pc := if r.1.Done? then Failing(call.token.value, error, events)
                 else Rereading(call.token.value, error, events)), Write(s, r.0))
  }

  function StepFailing(call: Call, s: Shared, ch: Choice): (Call, Shared)
    requires call.pc.Failing?
  {
    FailWith(call, s, Faulty(ch.fault, s.row, Fail(s.row, call.pc.error, Some(call.pc.generation))))
  }

  function FailWith(call: Call, s: Shared, r: (Option<Row>, Reply<()>)): (Call, Shared)
    requires call.pc.Failing?
  {
    var error, events := call.pc.error, call.pc.events;
    (if r.1.Done? then End(call, error) else call.(pc := Rereading(call.pc.generation, error, events)), Write(s, r.0))
  }

  /** `reconcilePersistenceFailure`: a pure truth read. */
  function StepRereading(call: Call, s: Shared, ch: Choice): Call
    requires call.pc.Rereading?
  {
    var unpersisted := Failure(StatePersistenceFailed, call.pc.error.committed, call.pc.events);
    if ch.readFails || s.row.None? then End(call, unpersisted)
    else if s.row.value.token != call.pc.generation then End(call, Stale())
    else if s.row.value.status != Processing && s.row.value.error.Some? then End(call, s.row.value.error.value)
    else End(call, unpersisted)
  }

  function StepReleasing(call: Call, s: Shared, ch: Choice): (Call, Shared)
    requires call.pc.Releasing?
  {
    var r := Faulty(ch.fault, s.row, Release(s.row, call.token));
    (End(call, call.pc.error), Write(s, r.0))
  }

  predicate EventlessCompensation(row: Row, events: seq<Event>) {
    row.request.commandType == CompensateOrder && row.range.None? && events == []
    && row.result.Some? && row.result.value.events == Some([])
  }

  /** `resolveExistingCommand`, after its first read of the command's events. */
  function Resolve(c: CommandId, call: Call, record: Row, events: seq<Event>): Call {
    match record.status
    case Finished =>
      if !EventlessCompensation(record, events) && !RangeMatches(c, record.range, events)
      then End(call, Inconsistent(HistoryInconsistent, events))
      else call.(pc := Verifying(record, events))
    case Processing =>
      if events == [] then
        if record.range.Some? then End(call, Inconsistent(HistoryInconsistent, events))
        else if record.deadline.None? then End(call, Plain(CommandInProgress, No))
        else call.(pc := TakingOver(record))
      else if !Contiguous(c, events)
      then call.(pc := Failing(record.token, Inconsistent(HistoryInconsistent, events), events))
      else call.(pc := Revoking(record, events))
    case Failed =>
      if record.error.None? then End(call, UNCODED)
      else if ReconcilableUnknown(record.error.value.code) then
        if events == [] then call.(pc := ReleasingFailed(record))
        else if !Contiguous(c, events) then End(call, Inconsistent(HistoryInconsistent, events))
        else call.(pc := ReconcilingFailure(record, events))
      else if (record.range.None? && events == []) || RangeMatches(c, record.range, events)
      then End(call, record.error.value)
      else End(call, Inconsistent(HistoryInconsistent, events))
    case Released => End(call, Inconsistent(HistoryInconsistent, events))
  }

  function StepResolving(c: CommandId, call: Call, s: Shared, ch: Choice): Call
    requires call.pc.Resolving?
  {
    if ch.readFails then End(call, Plain(ReconciliationFailed, Unsaid))
    else Resolve(c, call, call.pc.record, EventsOf(s, c))
  }

  /** Both checks read the log; whatever goes wrong in them, a failing read included, is one answer. */
  function StepVerifying(call: Call, s: Shared, ch: Choice): Call
    requires call.pc.Verifying?
  {
    if !ch.readFails && ReceiptHolds(call.pc.record, s.log) then call.(pc := Ended(Answer(call.pc.record.result.value)))
    else End(call, Inconsistent(ReceiptInconsistent, call.pc.events))
  }

  function StepTakingOver(c: CommandId, call: Call, s: Shared, ch: Choice): (Call, Shared)
    requires call.pc.TakingOver?
  {
    TakeOverWith(call, s, Faulty(ch.fault, s.row, TakeOver(s.row, EventsOf(s, c), call.worker, call.ttl,
                                                           Some(call.pc.record.token), ch.now)))
  }

  function TakeOverWith(call: Call, s: Shared, r: (Option<Row>, Reply<Challenge>)): (Call, Shared) {
    (match r.1
     case Throws(error) => End(call, error)
     case Done(Granted(row)) => call.(token := Some(row.token), pc := ReadingBack)
     case Done(Declined(NotExpired)) => End(call, Plain(CommandInProgress, No))
     case Done(Declined(_)) => call.(pc := Refetching, rounds := call.rounds + 1),
     Write(s, r.0))
  }

  /** The answer of a granted takeover is the row as it is read after the takeover has taken effect. Here it is read
      while the generation granted is still the row's; `LateReadBack` is the other case. */
  function StepReadingBack(call: Call, s: Shared, ch: Choice): Call
    requires call.pc.ReadingBack?
  {
    if ch.readFails || s.row.None? then End(call, UNCODED)
    else if call.token == Some(s.row.value.token) then call.(pc := Running)
    else call
  }

  /** The read came after another generation was handed out: the execution goes on under that one. */
  function LateReadBack(call: Call, row: Row): Call {
    call.(token := Some(row.token), pc := Running)
  }

  function StepRevoking(c: CommandId, call: Call, s: Shared, ch: Choice): (Call, Shared)
    requires call.pc.Revoking?
  {
    RevokeWith(call, s, Faulty(ch.fault, s.row, Revoke(s.row, c, EventsOf(s, c), call.pc.record.token,
                                                       Interrupted(call.pc.events), ch.now)))
  }

  function RevokeWith(call: Call, s: Shared, r: (Option<Row>, Reply<Challenge>)): (Call, Shared) {
    (match r.1
     case Throws(error) => End(call, error)
     case Done(Granted(row)) => End(call, if row.error.Some? then row.error.value else UNCODED)
     case Done(Declined(NotExpired)) => End(call, Plain(CommandInProgress, No))
     case Done(Declined(_)) => call.(pc := Refetching, rounds := call.rounds + 1),
     Write(s, r.0))
  }

  function StepRefetching(call: Call, s: Shared, ch: Choice): Call {
    if ch.readFails || s.row.None? then End(call, UNCODED) else call.(pc := Resolving(s.row.value))
  }

  function StepReleasingFailed(call: Call, s: Shared, ch: Choice): (Call, Shared)
    requires call.pc.ReleasingFailed?
  {
    var record := call.pc.record;
    var code := if record.error.Some? then record.error.value.code else Uncoded;
    ReleaseFailedWith(call, s, Faulty(ch.fault, s.row, ReleaseFailed(s.row, code, Some(record.token))))
  }

  function ReleaseFailedWith(call: Call, s: Shared, r: (Option<Row>, Reply<bool>)): (Call, Shared) {
    (match r.1
     case Throws(error) => End(call, error)
     case Done(_) => call.(pc := Reserving, rounds := call.rounds + 1),
     Write(s, r.0))
  }

  function StepReconcilingFailure(c: CommandId, call: Call, s: Shared, ch: Choice): (Call, Shared)
    requires call.pc.ReconcilingFailure?
  {
    ReconcileFailureWith(call, s, Faulty(ch.fault, s.row,
      ReconcileFailure(s.row, c, call.pc.events, Interrupted(call.pc.events), Some(call.pc.record.token))))
  }

  function ReconcileFailureWith(call: Call, s: Shared, r: (Option<Row>, Reply<()>)): (Call, Shared)
    requires call.pc.ReconcilingFailure?
  {
    var events := call.pc.events;
    (End(call, if r.1.Done? then Interrupted(events) else Failure(StatePersistenceFailed, Yes, events)),
     Write(s, r.0))
  }

  /** The next step of a call, before its counters are brought up to date. */
  ghost function StepPc(c: CommandId, call: Call, s: Shared, ch: Choice): (Call, Shared) {
    match call.pc
    case Reserving => StepReserving(call, s, ch)
    case CheckingNew => if call.token.None? then (call, s) else (StepCheckingNew(c, call, s, ch), s)
    case Running => (StepRunning(c, call, s, ch), s)
    case Renewing(_, _) => StepRenewing(call, s, ch)
    case Appending(_, _) => StepAppending(call, s, ch)
    case LookingUp(_, _) => (StepLookingUp(c, call, s, ch), s)
    case Recording(_) => StepRecording(c, call, s, ch)
    case Completing(_, _) => StepCompleting(call, s, ch)
    case Reconciling(_, _) => if call.token.None? then (call, s) else StepReconciling(c, call, s, ch)
    case Failing(_, _, _) => StepFailing(call, s, ch)
    case Rereading(_, _, _) => (StepRereading(call, s, ch), s)
    case Releasing(_) => StepReleasing(call, s, ch)
    case Resolving(_) => (StepResolving(c, call, s, ch), s)
    case Verifying(_, _) => (StepVerifying(call, s, ch), s)
    case TakingOver(_) => StepTakingOver(c, call, s, ch)
    case ReadingBack => (StepReadingBack(call, s, ch), s)
    case Revoking(_, _) => StepRevoking(c, call, s, ch)
    case Refetching => (StepRefetching(call, s, ch), s)
    case ReleasingFailed(_) => StepReleasingFailed(call, s, ch)
    case ReconcilingFailure(_, _) => StepReconcilingFailure(c, call, s, ch)
    case Ended(_) => (call, s)
    case Crashed => (call, s)
  }

  /** How many of the changes to its command since the call began were made by others. */
  function Others(call: Call, changes: nat): int {
    changes - call.base - call.own
  }

  /** The call with its counters brought up to date. */
  function Noted(call: Call, s: Shared, call': Call, s': Shared): Call
    requires s.changes <= s'.changes
  {
    var stepped := call'.(own := call.own + s'.changes - s.changes);
    if call'.pc.Resolving? then stepped.(witnessed := Others(stepped, s'.changes)) else stepped
  }

  /** One step of a call: its own changes are counted, and a read of the row notes the changes by others. */
  ghost function Step(c: CommandId, call: Call, s: Shared, ch: Choice): (Call, Shared) {
    var r := StepPc(c, call, s, ch);
    (Noted(call, s, r.0, r.1), r.1)
  }
}
