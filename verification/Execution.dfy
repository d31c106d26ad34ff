/** The coordinator's own methods over the two stores, while no other call runs: each takes the machine's steps. */
module Execution {
  import opened Events
  import opened StoreContracts
  import opened CommandRows
  import opened EventLog
  import opened Receipts
  import opened Stores
  import opened Coordinator
  import opened Outcomes

  /** What one execution of a command carries along; committed events are pushed onto it. */
  class CommandContext {
    const id: nat
    const key: Option<CommandKey>
    const request: Request
    const token: Option<nat>
    var committedEvents: seq<Event>

    constructor (id: nat, key: Option<CommandKey>, request: Request, token: Option<nat>)
      ensures this.id == id && this.key == key && this.request == request && this.token == token
      ensures committedEvents == []
    {
      this.id, this.key, this.request, this.token, committedEvents := id, key, request, token, [];
    }

    /** Only a command with a reserved row presents a generation. */
    predicate Valid() {
      key.Some? <==> token.Some?
    }

    function Command(): CommandId {
      match key case Some(k) => Key(k) case None => Operation(id)
    }
  }

  function Undisturbed(now: int): Choice {
    Choice(now, Faultless, false, ThrowsError(UNCODED))
  }

  /** The counters of changes play no part here. */
  function Uncounted(r: (Call, Shared)): (Call, Shared) {
    (r.0, r.1.(changes := 0))
  }

  /** From the renewal that opens a keyed commit to the callback going on, or to an error being handled. */
  function Commit(c: CommandId, call: Call, s: Shared, now: int): (Call, Shared)
    requires call.pc.Renewing? || call.pc.Appending?
  {
    var ch := Undisturbed(now);
    var renewed := if call.pc.Renewing? then Uncounted(StepRenewing(call, s, ch)) else (call, s);
    if !renewed.0.pc.Appending? then renewed
    else
      var appended := Uncounted(AppendSettled(c, renewed.0, renewed.1));
      if appended.0.pc.Recording? then Uncounted(StepRecording(c, appended.0, appended.1, Undisturbed(0))) else appended
  }

  /** From a failure to be persisted, or a reservation to be given up, to the error answered. */
  function Settle(call: Call, s: Shared): (Call, Shared) {
    var ch := Undisturbed(0);
    var settled := if call.pc.Failing? then Uncounted(StepFailing(call, s, ch))
                   else if call.pc.Releasing? then Uncounted(StepReleasing(call, s, ch))
                   else (call, s);
    if settled.0.pc.Rereading? then (StepRereading(settled.0, settled.1, ch), settled.1) else settled
  }

  /** The same, starting with the bookkeeping of the committed events where there are any. */
  function SettleAll(c: CommandId, call: Call, s: Shared): (Call, Shared) {
    if call.pc.Reconciling? && call.token.Some?
    then var r := Uncounted(StepReconciling(c, call, s, Undisturbed(0))); Settle(r.0, r.1)
    else Settle(call, s)
  }

  class CommandExecutionCoordinator {
    const eventStore: InMemoryEventStore
    const commandStore: InMemoryCommandStore
    const workerId: string
    const leaseTtlMs: int

    constructor (eventStore: InMemoryEventStore, commandStore: InMemoryCommandStore, workerId: string, leaseTtlMs: int)
      ensures this.eventStore == eventStore && this.commandStore == commandStore
      ensures this.workerId == workerId && this.leaseTtlMs == leaseTtlMs
    {
      this.eventStore, this.commandStore := eventStore, commandStore;
      this.workerId, this.leaseTtlMs := workerId, leaseTtlMs;
    }

    ghost predicate Valid()
      reads this, eventStore
    {
      eventStore.Valid() && eventStore.commandStore == commandStore
    }

    ghost function RowOf(context: CommandContext): Option<Row>
      reads commandStore
    {
      if context.key.Some? then Lookup(commandStore.commands, context.key.value) else None
    }

    /** The machine's view of the stores. */
    ghost function View(context: CommandContext): Shared
      reads commandStore, eventStore
    {
      Shared(RowOf(context), eventStore.events, 0)
    }

    /** The machine's call of this execution. */
    ghost function CallOf(context: CommandContext, pc: Pc): Call
      reads context
    {
      Call(context.id, context.key, context.request, workerId, leaseTtlMs, context.token, context.committedEvents, pc,
           0, 0, 0, 0)
    }

    /** Settles whether an append that threw reached the log, by looking for exactly this event. */
    method FindCommitted(context: CommandContext, event: Event, failure: CommandError) returns (r: Reply<Event>)
      requires Valid() && event.command == context.Command()
      ensures var call := CallOf(context, LookingUp(event, failure));
              Came(r, call, event, StepLookingUp(context.Command(), call, View(context), Undisturbed(0)))
    {
      var commandEvents := eventStore.GetByCommandId(event.command);
      var committed := FindById(commandEvents, event.id);
      if committed.None? {
        return Throws(failure);
      }
      if committed.value != event {
        return Throws(Inconsistent(HistoryInconsistent, commandEvents));
      }
      return Done(event);
    }

    /** Appends; an error that leaves it open whether the event was written is settled by looking for it. */
    method AppendEvent(context: CommandContext, event: Event, expectedVersion: int) returns (r: Reply<Event>)
      requires Valid() && context.Valid() && event.command == context.Command()
      modifies eventStore`events, eventStore`byAggregate, eventStore`ids, eventStore`byCommand
      ensures Valid()
      ensures Appended(CallOf(context, Appending(event, expectedVersion)), context.Command(), old(View(context)),
                       View(context), r)
    {
      ghost var call, s := CallOf(context, Appending(event, expectedVersion)), View(context);
      ghost var refusal := AppendError(s.log, FencingError(s.row, call.token), event, expectedVersion);
      assert refusal
             == AppendError(eventStore.events, eventStore.Fencing(event, context.token), event, expectedVersion);
      r := eventStore.Append(event, expectedVersion, context.token);
      if r.Throws? && !FencingCode(r.error.code) {
        r := FindCommitted(context, event, r.error);
      }
      AppendOutcome(context.Command(), call, s, View(context), refusal, r);
    }

    /** Renews the lease the append depends on. */
    method Renew(context: CommandContext, event: Event, expectedVersion: int, now: int)
      returns (r: Option<CommandError>)
      requires context.key.Some?
      modifies commandStore`commands
      ensures RenewCame(CallOf(context, Renewing(event, expectedVersion)), old(View(context)), now, View(context), r)
    {
      var renewed := commandStore.RenewLease(context.key.value, workerId, context.token, leaseTtlMs, now);
      r := if renewed.Throws? then Some(renewed.error) else None;
    }

    method Record(context: CommandContext, event: Event) returns (r: Option<CommandError>)
      requires context.key.Some? && event.command == context.Command()
      modifies commandStore`commands
      ensures RecordCame(context.Command(), CallOf(context, Recording(event)), old(View(context)), View(context), r)
    {
      var recorded := commandStore.RecordEvent(context.key.value, event, context.token);
      r := if recorded.Throws? then Some(recorded.error) else None;
    }

    method CommitEvent(context: CommandContext, event: Event, expectedVersion: int, now: int) returns (r: Reply<Event>)
      requires Valid() && context.Valid() && event.command == context.Command()
      modifies context`committedEvents, commandStore`commands
      modifies eventStore`events, eventStore`byAggregate, eventStore`ids, eventStore`byCommand
      ensures Valid()
      ensures CommitCame(context.Command(),
                         old(CallOf(context, if context.key.Some? then Renewing(event, expectedVersion)
                                             else Appending(event, expectedVersion))),
                         old(View(context)), now, CallOf(context, Running), View(context), r)
      ensures old(MayGoAhead(CallOf(context, Running), View(context), event, expectedVersion, now)) ==>
                var y := AfterCommit(old(SceneOf(CallOf(context, Running), View(context))), Plan(event, now, true));
                && r == Done(event) && context.committedEvents == y.call.committed
                && RowOf(context) == y.row && eventStore.events == y.log
    {
      ghost var before, seen := CallOf(context, Running), View(context);
      if MayGoAhead(before, seen, event, expectedVersion, now) {
        CommitSucceeds(before, seen, event, now);
      }
      ghost var call, s := CallOf(context, Appending(event, expectedVersion)), View(context);
      ghost var c := context.Command();
      if context.key.Some? {
        var refused := Renew(context, event, expectedVersion, now);
        if refused.Some? {
          CommitNotRenewed(c, call, s, now, View(context), refused.value);
          return Throws(refused.value);
        }
      }
      ghost var s1 := View(context);
      r := AppendEvent(context, event, expectedVersion);
      if r.Throws? {
        CommitNotAppended(c, call, s, now, s1, View(context), r);
        return;
      }
      ghost var s2 := View(context);
      context.committedEvents := context.committedEvents + [r.value];
      var failed: Option<CommandError> := None;
      if context.key.Some? {
        failed := Record(context, r.value);
      }
      CommitRecorded(c, call, s, now, s1, s2, View(context), failed);
      if failed.Some? {
        return Throws(failed.value);
      }
    }

    /** The envelope check of a completed receipt: it reads the event store and modifies nothing. */
    method AssertCompletedReceiptEnvelope(record: Row) returns (ok: bool)
      requires Valid()
      ensures ok == EnvelopeHolds(record, eventStore.events)
    {
      if record.receipt.None? || !ValidReceipt(record.receipt.value) || record.result.None? {
        return false;
      }
      var anchor, result := record.receipt.value.anchor, record.result.value;
      if record.receipt.value.effect == EffectEvents {
        if record.range.None? || anchor.None? {
          return false;
        }
        if anchor.value.aggregate != record.range.value.aggregate || anchor.value.sequence < record.range.value.last {
          return false;
        }
      } else if record.range.Some? {
        return false;
      }
      if anchor.None? {
        return result.state.None?;
      }
      if result.aggregate != anchor.value.aggregate || result.state.None?
         || result.state.value.aggregate != anchor.value.aggregate
         || result.state.value.version != anchor.value.sequence {
        return false;
      }
      if anchor.value.sequence == 0 {
        return true;
      }
      var known := eventStore.GetByAggregateId(anchor.value.aggregate);
      var event := FindSequence(known, anchor.value.sequence);
      return event.Some? && Some(event.value.id) == anchor.value.lastEventId;
    }

    /** A pure truth read: the answer describes what is persisted, whoever persisted it. */
    method ReconcilePersistenceFailure(context: CommandContext, events: seq<Event>, error: CommandError)
      returns (answer: CommandError)
      requires context.key.Some? && context.token.Some?
      ensures Settle(CallOf(context, Rereading(context.token.value, error, events)), View(context))
              == (CallOf(context, Ended(Thrown(answer))), View(context))
    {
      var record := commandStore.Get(context.key.value);
      if record.None? {
        return Failure(StatePersistenceFailed, error.committed, events);
      }
      if record.value.token != context.token.value {
        return Stale();
      }
      if record.value.status != Processing && record.value.error.Some? {
        return record.value.error.value;
      }
      return Failure(StatePersistenceFailed, error.committed, events);
    }

    method FailCommand(context: CommandContext, events: seq<Event>, error: CommandError) returns (answer: CommandError)
      requires context.key.Some? && context.token.Some?
      modifies commandStore`commands
      ensures Settle(CallOf(context, Failing(context.token.value, error, events)), old(View(context)))
              == (CallOf(context, Ended(Thrown(answer))), View(context))
    {
      var failed := commandStore.Fail(context.key.value, error, context.token);
      if failed.Throws? {
        answer := ReconcilePersistenceFailure(context, events, error);
        return;
      }
      return error;
    }

    /** Brings the bookkeeping up to date, then fails the row; the error answered is `error` if both succeed. */
    method PersistFailedCommand(context: CommandContext, error: CommandError, events: seq<Event>)
      returns (answer: CommandError)
      requires context.key.Some? && context.token.Some?
      modifies commandStore`commands
      ensures SettleAll(context.Command(),
                        CallOf(context, if events == [] then Failing(context.token.value, error, events)
                                        else Reconciling(error, events)), old(View(context)))
              == (CallOf(context, Ended(Thrown(answer))), View(context))
    {
      if events != [] {
        var reconciled := commandStore.ReconcileEvents(context.key.value, events, context.token);
        if reconciled.Throws? {
          answer := ReconcilePersistenceFailure(context, events, error);
          return;
        }
      }
      answer := FailCommand(context, events, error);
    }

    /** Gives the reservation up; that it cannot be given up is not the reason the command failed. */
    method ReleaseCommand(context: CommandContext, error: CommandError)
      requires context.key.Some? && context.token.Some?
      modifies commandStore`commands
      ensures Settle(CallOf(context, Releasing(error)), old(View(context)))
              == (CallOf(context, Ended(Thrown(error))), View(context))
    {
      var released := commandStore.Release(context.key.value, context.token);
    }

    /** An error before the first commit. */
    method HandleUncommitted(context: CommandContext, caught: CommandError) returns (answer: CommandError)
      requires context.key.Some? && context.token.Some? && context.committedEvents == []
      modifies commandStore`commands
      ensures SettleAll(context.Command(), Handle(CallOf(context, Running), caught), old(View(context)))
              == (CallOf(context, Ended(Thrown(answer))), View(context))
    {
      if caught.committed == Yes {
        return caught;
      }
      if caught.code == AppendCommitUnknown {
        answer := PersistFailedCommand(context, caught.(committed := Unsaid), []);
        return;
      }
      if FencingCode(caught.code) {
        return caught;
      }
      if DeterministicRejection(caught.code) {
        answer := PersistFailedCommand(context, caught.(committed := No), []);
        return;
      }
      answer := caught.(committed := No);
      ReleaseCommand(context, answer);
    }

    /** `handleExecutionError`: takes the machine from the thrown error to the error it answers. */
    method HandleExecutionError(context: CommandContext, caught: CommandError) returns (answer: CommandError)
      requires context.Valid()
      modifies commandStore`commands
      ensures SettleAll(context.Command(), Handle(CallOf(context, Running), caught), old(View(context)))
              == (CallOf(context, Ended(Thrown(answer))), View(context))
    {
      var committed := context.committedEvents;
      var partially := if caught.committed == Yes then caught else Failure(PartiallyCommitted, Yes, committed);
      if context.key.None? {
        if committed != [] {
          return partially;
        }
        if caught.committed == Yes || caught.code == AppendCommitUnknown {
          return caught;
        }
        return caught.(committed := No);
      }
      if committed == [] {
        answer := HandleUncommitted(context, caught);
        return;
      }
      answer := PersistFailedCommand(context, partially, committed);
    }
  }

  function SceneOf(call: Call, s: Shared): Scene {
    Scene(call, s.row, s.log)
  }

  /** A keyed commit that nothing stands in the way of. */
  ghost predicate MayGoAhead(call: Call, s: Shared, event: Event, expected: int, now: int) {
    && call.key.Some? && s.changes == 0 && expected == event.sequence - 1
    && InExecution(SceneOf(call, s)) && MayCommit(SceneOf(call, s), Plan(event, now, true))
  }

  /** It goes ahead: the lease is extended, the event is in the log, and the range is exact. */
  lemma CommitSucceeds(call: Call, s: Shared, event: Event, now: int)
    requires MayGoAhead(call, s, event, event.sequence - 1, now)
    ensures var y := AfterCommit(SceneOf(call, s), Plan(event, now, true));
            Commit(CommandOf(call), call.(pc := Renewing(event, event.sequence - 1)), s, now)
            == (y.call, Shared(y.row, y.log, 0))
  {
    var x, p := SceneOf(call, s), Plan(event, now, true);
    var renewed := Appends(x, p);
    RenewedStillAppends(x, p, renewed);
    AppendIsAccepted(renewed, p);
    RecordsRange(renewed, p);
    BookedIsCommitted(x, p);
    CommitGoes(call, s, event, now, renewed);
  }

  lemma CommitGoes(call: Call, s: Shared, event: Event, now: int, renewed: Scene)
    requires MayGoAhead(call, s, event, event.sequence - 1, now)
    requires var p := Plan(event, now, true);
             && renewed == Appends(SceneOf(call, s), p)
             && AppendError(renewed.log, FencingError(renewed.row, call.token), event, event.sequence - 1).None?
             && Record(renewed.row, CommandOf(call), event, call.token)
                == (Booked(renewed, p).row, CommandRows.Done(()))
    ensures var y := Booked(renewed, Plan(event, now, true));
            Commit(CommandOf(call), call.(pc := Renewing(event, event.sequence - 1)), s, now)
            == (y.call, Shared(y.row, y.log, 0))
  {
    var opening := call.(pc := Renewing(event, event.sequence - 1));
    assert Uncounted(StepRenewing(opening, s, Undisturbed(now))) == (renewed.call, Shared(renewed.row, s.log, 0));
  }

  ghost predicate RenewCame(call: Call, s: Shared, now: int, s': Shared, r: Option<CommandError>) {
    && call.pc.Renewing?
    && Uncounted(StepRenewing(call, s, Undisturbed(now)))
       == (if r.None? then call.(pc := Appending(call.pc.event, call.pc.expected)) else Handle(call, r.value), s')
  }

  ghost predicate RecordCame(c: CommandId, call: Call, s: Shared, s': Shared, r: Option<CommandError>) {
    && call.pc.Recording?
    && Uncounted(StepRecording(c, call, s, Undisturbed(0)))
       == (if r.None? then call.(pc := Running) else Handle(call, r.value), s')
  }

  /** The call as it opens a commit. */
  function Opening(call: Call): Call
    requires call.pc.Appending?
  {
    if call.key.Some? then call.(pc := Renewing(call.pc.event, call.pc.expected)) else call
  }

  lemma CommitNotRenewed(c: CommandId, call: Call, s: Shared, now: int, s1: Shared, error: CommandError)
    requires call.pc.Appending? && call.key.Some?
    requires RenewCame(Opening(call), s, now, s1, Some(error))
    ensures CommitCame(c, Opening(call), s, now, call.(pc := Running), s1, Throws(error))
  {
    HandleElsewhere(Opening(call), call.(pc := Running), error);
  }

  lemma HandleElsewhere(call: Call, elsewhere: Call, error: CommandError)
    requires elsewhere == call.(pc := elsewhere.pc)
    ensures Handle(call, error) == Handle(elsewhere, error)
    ensures !Handle(call, error).pc.Appending? && !Handle(call, error).pc.Recording?
  {
  }

  ghost predicate Opened(call: Call, s: Shared, now: int, s1: Shared) {
    && call.pc.Appending? && s.changes == s1.changes == 0
    && if call.key.Some? then RenewCame(Opening(call), s, now, s1, None) else s1 == s
  }

  lemma CommitNotAppended(c: CommandId, call: Call, s: Shared, now: int, s1: Shared, s2: Shared, r: Reply<Event>)
    requires Opened(call, s, now, s1) && r.Throws? && Appended(call, c, s1, s2, r) && s2.changes == 0
    ensures CommitCame(c, Opening(call), s, now, call.(pc := Running), s2, r)
  {
    HandleElsewhere(call, call.(pc := Running), r.error);
    AppendKeepsRow(c, call, s1);
    CommitAppends(c, call, s, now, s1);
  }

  lemma AppendKeepsRow(c: CommandId, call: Call, s: Shared)
    requires call.pc.Appending?
    ensures AppendSettled(c, call, s).1.row == s.row
  {
  }

  lemma CommitAppends(c: CommandId, call: Call, s: Shared, now: int, s1: Shared)
    requires Opened(call, s, now, s1)
    ensures var appended := Uncounted(AppendSettled(c, call, s1));
            Commit(c, Opening(call), s, now) ==
              if appended.0.pc.Recording?
              then Uncounted(StepRecording(c, appended.0, appended.1, Undisturbed(0))) else appended
  {
  }

  lemma CommitRecorded(c: CommandId, call: Call, s: Shared, now: int, s1: Shared, s2: Shared, s3: Shared,
                       failed: Option<CommandError>)
    requires Opened(call, s, now, s1) && Appended(call, c, s1, s2, Done(call.pc.event)) && s2.changes == 0
    requires var confirmed := Confirmed(call, call.pc.event);
             if call.key.Some? then RecordCame(c, confirmed, s2, s3, failed) else s3 == s2 && failed == None
    ensures CommitCame(c, Opening(call), s, now, Confirmed(call, call.pc.event).(pc := Running), s3,
                       if failed.None? then Done(call.pc.event) else Throws(failed.value))
  {
    var confirmed := Confirmed(call, call.pc.event);
    AppendKeepsRow(c, call, s1);
    assert Uncounted(AppendSettled(c, call, s1)) == (confirmed, s2);
    CommitAppends(c, call, s, now, s1);
    if failed.Some? {
      HandleElsewhere(confirmed, confirmed.(pc := Running), failed.value);
    }
  }

  /** What a commit came to: the execution goes on, or an error is thrown to be handled. */
  ghost predicate CommitCame(c: CommandId, before: Call, s: Shared, now: int, after: Call, s': Shared, r: Reply<Event>)
  {
    && (before.pc.Renewing? || before.pc.Appending?)
    && Commit(c, before, s, now) == (if r.Done? then after else Handle(after, r.error), s')
  }

  /** The machine's append, and its lookup where one is needed. */
  function AppendSettled(c: CommandId, call: Call, s: Shared): (Call, Shared)
    requires call.pc.Appending?
  {
    var a := StepAppending(call, s, Undisturbed(0));
    if a.0.pc.LookingUp? then (StepLookingUp(c, a.0, a.1, Undisturbed(0)), a.1) else a
  }

  /** What an append came to: the event as stored, or the error to throw. */
  ghost predicate Came(r: Reply<Event>, call: Call, event: Event, to: Call) {
    match r
    case Done(stored) => stored == event && to == Confirmed(call, event)
    case Throws(error) => to == Handle(call, error)
  }

  ghost predicate Appended(call: Call, c: CommandId, s: Shared, s': Shared, r: Reply<Event>) {
    && call.pc.Appending? && s'.row == s.row && s'.log == AppendSettled(c, call, s).1.log
    && Came(r, call, call.pc.event, AppendSettled(c, call, s).0)
  }

  lemma AppendOutcome(c: CommandId, call: Call, s: Shared, s': Shared, refusal: Option<CommandError>, r: Reply<Event>)
    requires call.pc.Appending? && s'.row == s.row
    requires refusal == AppendError(s.log, FencingError(s.row, call.token), call.pc.event, call.pc.expected)
    requires match refusal
             case None => r == Done(call.pc.event) && s'.log == s.log + [call.pc.event]
             case Some(error) =>
               && s'.log == s.log
               && if FencingCode(error.code) then r == Throws(error)
                  else var looking := call.(pc := LookingUp(call.pc.event, error));
                       Came(r, looking, call.pc.event, StepLookingUp(c, looking, s', Undisturbed(0)))
    ensures Appended(call, c, s, s', r)
  {
    if refusal.None? {
      AppendWrote(c, call, s, s');
    } else if FencingCode(refusal.value.code) {
      AppendFenced(c, call, s, s', refusal.value);
    } else {
      AppendInconclusive(c, call, s, s', refusal.value, r);
    }
  }

  lemma AppendFenced(c: CommandId, call: Call, s: Shared, s': Shared, error: CommandError)
    requires call.pc.Appending? && s'.row == s.row && s'.log == s.log && FencingCode(error.code)
    requires AppendError(s.log, FencingError(s.row, call.token), call.pc.event, call.pc.expected) == Some(error)
    ensures Appended(call, c, s, s', Throws(error))
  {
  }

  lemma AppendInconclusive(c: CommandId, call: Call, s: Shared, s': Shared, error: CommandError, r: Reply<Event>)
    requires call.pc.Appending? && s'.row == s.row && s'.log == s.log && !FencingCode(error.code)
    requires AppendError(s.log, FencingError(s.row, call.token), call.pc.event, call.pc.expected) == Some(error)
    requires var looking := call.(pc := LookingUp(call.pc.event, error));
             Came(r, looking, call.pc.event, StepLookingUp(c, looking, s', Undisturbed(0)))
    ensures Appended(call, c, s, s', r)
  {
    CameFromAnywhere(r, call, call.(pc := LookingUp(call.pc.event, error)), call.pc.event, AppendSettled(c, call, s).0);
  }

  lemma AppendWrote(c: CommandId, call: Call, s: Shared, s': Shared)
    requires call.pc.Appending? && s'.row == s.row && s'.log == s.log + [call.pc.event]
    requires AppendError(s.log, FencingError(s.row, call.token), call.pc.event, call.pc.expected) == None
    ensures Appended(call, c, s, s', Done(call.pc.event))
  {
  }

  /** What comes of a call does not depend on where it stood. */
  lemma CameFromAnywhere(r: Reply<Event>, call: Call, elsewhere: Call, event: Event, to: Call)
    requires elsewhere == call.(pc := elsewhere.pc) && Came(r, elsewhere, event, to)
    ensures Came(r, call, event, to)
  {
  }
}
