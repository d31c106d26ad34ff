/** The steps that read or write the command's row: each keeps the invariants and is one others can rely on. */
module RowSteps {
  import opened Events
  import opened StoreContracts
  import opened CommandRows
  import opened Coordinator
  import opened Ownership
  import opened OwnSteps

  /** Recording one more event keeps the bookkeeping exact. */
  lemma RecordCovers(c: CommandId, row: Row, prior: seq<Event>, event: Event, token: Option<nat>)
    requires Covers(c, row.range, prior) && event.command == c
    requires Record(Some(row), c, event, token).1.Done?
    ensures Covers(c, Record(Some(row), c, event, token).0.value.range, prior + [event])
    ensures Record(Some(row), c, event, token).0.value.range != row.range
  {
    var events := prior + [event];
    if prior == [] {
      assert events == [event];
    } else {
      assert forall i :: 0 <= i < |prior| ==> events[i] == prior[i];
      assert Ids(events) == Ids(prior) + [event.id];
    }
  }

  /** A change of a processing row by the holder of its generation. */
  ghost predicate OwnerChange(call: Call, row: Option<Row>, row': Option<Row>) {
    && call.token.Some? && Current(call, row) && row.Some? && row.value.status == Processing
    && row'.Some? && row'.value.token == row.value.token && row'.value.request == row.value.request
  }

  ghost predicate Harmless(error: CommandError) {
    error.committed != Yes && error.code != AppendCommitUnknown && error.code != InterruptedAfterCommit
  }

  lemma OwnedSound<T>(c: CommandId, call: Call, s: Shared, r: (Option<Row>, Reply<T>), next: Call)
    requires Before(c, call, s) && call.key.Some? && call.token.Some?
    requires call.pc.Renewing? || call.pc.Recording? || call.pc.Completing?
    requires r.0 == s.row || OwnerChange(call, s.row, r.0)
    requires CommandInv(c, r.0, EventsOf(s, c))
    requires r.1.Throws? ==> Harmless(r.1.error)
    requires r.1.Done? ==> CallInv(c, next, r.0, EventsOf(s, c))
    requires next.id == call.id && next.key == call.key && next.request == call.request && next.token == call.token
    ensures Sound(c, call, s, Owned(call, s, r, next).0, Owned(call, s, r, next).1)
  {
    if r.1.Throws? {
      HandleSound(c, call, r.1.error, r.0, EventsOf(s, c));
    }
  }

  lemma RenewingSound(c: CommandId, call: Call, s: Shared, ch: Choice)
    requires Before(c, call, s) && call.pc.Renewing?
    ensures Sound(c, call, s, StepRenewing(call, s, ch).0, StepRenewing(call, s, ch).1)
  {
    OwnedSound(c, call, s, Faulty(ch.fault, s.row, Renew(s.row, call.worker, call.token, call.ttl, ch.now)),
               call.(pc := Appending(call.pc.event, call.pc.expected)));
  }

  /** What recording the last committed event may do: nothing, or complete the bookkeeping of the processing row. */
  ghost predicate RecordVerdict(c: CommandId, call: Call, row: Option<Row>, r: (Option<Row>, Reply<()>)) {
    && (r.1.Throws? ==> Harmless(r.1.error))
    && (r.1.Done? ==> r.0 != row)
    && (r.0 != row ==>
          && OwnerChange(call, row, r.0)
          && Covers(c, r.0.value.range, call.committed)
          && r.0.value.(range := row.value.range, aggregate := row.value.aggregate) == row.value)
  }

  lemma RecordVerdictHolds(c: CommandId, call: Call, row: Option<Row>, fault: Fault)
    requires call.pc.Recording? && call.key.Some? && call.token.Some?
    requires ExecutionInv(c, call, row, call.committed) && Bookkept(c, call, row)
    requires call.pc.event.command == c
    ensures RecordVerdict(c, call, row, Faulty(fault, row, Record(row, c, call.pc.event, call.token)))
  {
    var r := Record(row, c, call.pc.event, call.token);
    if r.1.Done? {
      var prior := call.committed[..|call.committed| - 1];
      assert call.committed == prior + [call.pc.event];
      RecordCovers(c, row.value, prior, call.pc.event, call.token);
    }
  }

  lemma RecordedSound(c: CommandId, call: Call, s: Shared, r: (Option<Row>, Reply<()>))
    requires Before(c, call, s) && call.pc.Recording? && RecordVerdict(c, call, s.row, r)
    ensures Sound(c, call, s, Owned(call, s, r, call.(pc := Running)).0, Owned(call, s, r, call.(pc := Running)).1)
  {
    OwnedSound(c, call, s, r, call.(pc := Running));
  }

  lemma RecordingSound(c: CommandId, call: Call, s: Shared, ch: Choice)
    requires Before(c, call, s) && call.pc.Recording?
    ensures Sound(c, call, s, StepRecording(c, call, s, ch).0, StepRecording(c, call, s, ch).1)
  {
    if call.pc.event.command == c {
      RecordVerdictHolds(c, call, s.row, ch.fault);
    } else {
      assert !Record(s.row, c, call.pc.event, call.token).1.Done?;
    }
    RecordedSound(c, call, s, Faulty(ch.fault, s.row, Record(s.row, c, call.pc.event, call.token)));
  }

  lemma CompletingSound(c: CommandId, call: Call, s: Shared, ch: Choice)
    requires Before(c, call, s) && call.pc.Completing?
    ensures Sound(c, call, s, StepCompleting(call, s, ch).0, StepCompleting(call, s, ch).1)
  {
    OwnedSound(c, call, s,
               Faulty(ch.fault, s.row, Complete(s.row, call.pc.result, call.pc.receipt, call.token)),
               call.(pc := Ended(Answer(call.pc.result))));
  }

  /** The row with its range rebuilt from `known`, a contiguous list. */
  ghost predicate Rebuilt(c: CommandId, row: Row, row': Row, known: seq<Event>) {
    && known != [] && Covers(c, row'.range, known)
    && row'.(range := row.range, aggregate := row.aggregate, error := row.error) == row
  }

  lemma BuildRangeCovers(c: CommandId, known: seq<Event>)
    requires BuildRange(c, known).Some?
    ensures known != [] && Covers(c, BuildRange(c, known), known)
  {
  }

  lemma AllOrAllButLast(known: seq<Event>, events: seq<Event>)
    requires AtMostOneMore(known, events)
    ensures known == events || (events != [] && events[..|events| - 1] == known)
  {
  }

  /** The bookkeeping was not, or not known to be, brought up to date: the row stays. */
  lemma ReconcileRefusedSound(c: CommandId, call: Call, s: Shared, r: (Option<Row>, Reply<()>))
    requires Before(c, call, s) && call.pc.Reconciling? && call.token.Some? && r.0 == s.row
    ensures Sound(c, call, s, ReconcileWith(call, s, r).0, ReconcileWith(call, s, r).1)
  {
    StayedSound(c, call, s, ReconcileWith(call, s, r).0.pc);
  }

  lemma ReconcileWithSound(c: CommandId, call: Call, s: Shared, r: (Option<Row>, Reply<()>))
    requires Before(c, call, s) && call.pc.Reconciling? && call.token.Some?
    requires r.0 == s.row || (OwnerChange(call, s.row, r.0) && Rebuilt(c, s.row.value, r.0.value, call.pc.events)
                              && r.0.value.error == s.row.value.error)
    ensures Sound(c, call, s, ReconcileWith(call, s, r).0, ReconcileWith(call, s, r).1)
  {
    if r.0 == s.row {
      ReconcileRefusedSound(c, call, s, r);
    } else {
      RebuiltKeepsCommand(c, s.row.value, r.0.value, call.committed, EventsOf(s, c));
    }
  }

  /** Rebuilding the range from what the execution committed keeps the row's invariant. */
  lemma RebuiltKeepsCommand(c: CommandId, row: Row, row': Row, committed: seq<Event>, events: seq<Event>)
    requires CommandInv(c, Some(row), events) && row.status == Processing && AtMostOneMore(committed, events)
    requires Rebuilt(c, row, row', committed) && row'.error == row.error
    ensures CommandInv(c, Some(row'), events)
  {
    AllOrAllButLast(committed, events);
  }

  lemma ReconcilingSound(c: CommandId, call: Call, s: Shared, ch: Choice)
    requires Before(c, call, s) && call.pc.Reconciling? && call.token.Some?
    ensures Sound(c, call, s, StepReconciling(c, call, s, ch).0, StepReconciling(c, call, s, ch).1)
  {
    var r := ReconcileEvents(s.row, c, call.pc.events, call.token);
    if BuildRange(c, call.pc.events).Some? {
      BuildRangeCovers(c, call.pc.events);
    }
    ReconcileWithSound(c, call, s, Faulty(ch.fault, s.row, r));
  }

  lemma FailingSound(c: CommandId, call: Call, s: Shared, ch: Choice)
    requires Before(c, call, s) && call.pc.Failing?
    ensures Sound(c, call, s, StepFailing(call, s, ch).0, StepFailing(call, s, ch).1)
  {
    FailWithSound(c, call, s, Faulty(ch.fault, s.row, Fail(s.row, call.pc.error, Some(call.pc.generation))));
  }

  /** What failing may do: nothing, or end the processing generation it names with the error. */
  ghost predicate FailVerdict(row: Option<Row>, generation: nat, error: CommandError, row': Option<Row>) {
    row' != row ==>
      && row.Some? && row'.Some? && row.value.status == Processing && row.value.token == generation
      && row'.value == row.value.(status := Failed, error := Some(error), owner := None, deadline := None)
  }

  lemma FailWithSound(c: CommandId, call: Call, s: Shared, r: (Option<Row>, Reply<()>))
    requires Before(c, call, s) && call.pc.Failing?
    requires FailVerdict(s.row, call.pc.generation, call.pc.error, r.0)
    ensures Sound(c, call, s, FailWith(call, s, r).0, FailWith(call, s, r).1)
  {
    if r.0 == s.row {
      assert FailWith(call, s, r).1 == s;
      NotFailedSound(c, call, s, FailWith(call, s, r).0);
    } else {
      FailedSound(c, call, s, r);
    }
  }

  /** The row is as it was; the call ends, or reads the row again. */
  lemma NotFailedSound(c: CommandId, call: Call, s: Shared, call': Call)
    requires Before(c, call, s) && call.pc.Failing?
    requires call' == End(call, call.pc.error)
             || call' == call.(pc := Rereading(call.pc.generation, call.pc.error, call.pc.events))
    ensures Sound(c, call, s, call', s)
  {
    StayedSound(c, call, s, call'.pc);
  }

  lemma FailedSound(c: CommandId, call: Call, s: Shared, r: (Option<Row>, Reply<()>))
    requires Before(c, call, s) && call.pc.Failing? && r.0 != s.row
    requires FailVerdict(s.row, call.pc.generation, call.pc.error, r.0)
    ensures Sound(c, call, s, FailWith(call, s, r).0, FailWith(call, s, r).1)
  {
    FailedKeepsCommand(c, call, s.row.value, r.0.value, EventsOf(s, c));
    FailedKeepsCall(c, call, s.row.value, r, EventsOf(s, c));
  }

  /** The error on record is truthful. */
  lemma FailedKeepsCommand(c: CommandId, call: Call, row: Row, row': Row, events: seq<Event>)
    requires CallInv(c, call, Some(row), events) && CommandInv(c, Some(row), events) && call.pc.Failing?
    requires FailVerdict(Some(row), call.pc.generation, call.pc.error, Some(row')) && row' != row
    ensures CommandInv(c, Some(row'), events)
  {
  }

  lemma FailedKeepsCall(c: CommandId, call: Call, row: Row, r: (Option<Row>, Reply<()>), events: seq<Event>)
    requires CallInv(c, call, Some(row), events) && call.pc.Failing? && r.0 != Some(row)
    requires FailVerdict(Some(row), call.pc.generation, call.pc.error, r.0)
    ensures var error := call.pc.error;
            CallInv(c, call.(pc := if r.1.Done? then Ended(Thrown(error))
                                   else Rereading(call.pc.generation, error, call.pc.events)), r.0, events)
  {
  }

  lemma RereadingSound(c: CommandId, call: Call, s: Shared, ch: Choice)
    requires Before(c, call, s) && call.pc.Rereading?
    ensures Sound(c, call, s, StepRereading(call, s, ch), s)
  {
    RereadKeepsCall(c, call, s, ch);
    StayedSound(c, call, s, StepRereading(call, s, ch).pc);
  }

  lemma RereadKeepsCall(c: CommandId, call: Call, s: Shared, ch: Choice)
    requires Before(c, call, s) && call.pc.Rereading?
    ensures CallInv(c, StepRereading(call, s, ch), s.row, EventsOf(s, c))
    ensures call.(pc := StepRereading(call, s, ch).pc) == StepRereading(call, s, ch)
  {
  }

  lemma ReleasingSound(c: CommandId, call: Call, s: Shared, ch: Choice)
    requires Before(c, call, s) && call.pc.Releasing?
    ensures Sound(c, call, s, StepReleasing(call, s, ch).0, StepReleasing(call, s, ch).1)
  {
    ReleaseWithSound(c, call, s, Faulty(ch.fault, s.row, Release(s.row, call.token)).0);
  }

  /** What giving up a reservation may do: nothing, or release the processing, eventless generation of its owner. */
  lemma ReleaseWithSound(c: CommandId, call: Call, s: Shared, row': Option<Row>)
    requires Before(c, call, s) && call.pc.Releasing?
    requires row' != s.row ==>
               OwnerChange(call, s.row, row')
               && row'.value == s.row.value.(status := Released, owner := None, deadline := None)
    ensures Sound(c, call, s, End(call, call.pc.error), Write(s, row'))
  {
  }

  lemma ResolveProcessing(c: CommandId, call: Call, record: Row, row: Option<Row>, events: seq<Event>)
    requires CallInv(c, call, row, events) && CommandInv(c, row, events) && call.pc == Resolving(record)
    requires record.status == Processing
    ensures CallInv(c, Resolve(c, call, record, events), row, events)
    ensures call.(pc := Resolve(c, call, record, events).pc) == Resolve(c, call, record, events)
  {
  }

  lemma ResolveFailed(c: CommandId, call: Call, record: Row, row: Option<Row>, events: seq<Event>)
    requires CallInv(c, call, row, events) && CommandInv(c, row, events) && call.pc == Resolving(record)
    requires record.status == Failed
    ensures CallInv(c, Resolve(c, call, record, events), row, events)
    ensures call.(pc := Resolve(c, call, record, events).pc) == Resolve(c, call, record, events)
  {
  }

  lemma ResolveInactive(c: CommandId, call: Call, record: Row, row: Option<Row>, events: seq<Event>)
    requires CallInv(c, call, row, events) && CommandInv(c, row, events) && call.pc == Resolving(record)
    requires record.status == Finished || record.status == Released
    ensures CallInv(c, Resolve(c, call, record, events), row, events)
    ensures call.(pc := Resolve(c, call, record, events).pc) == Resolve(c, call, record, events)
  {
  }

  lemma ResolveKeepsCall(c: CommandId, call: Call, record: Row, row: Option<Row>, events: seq<Event>)
    requires CallInv(c, call, row, events) && CommandInv(c, row, events) && call.pc == Resolving(record)
    ensures CallInv(c, Resolve(c, call, record, events), row, events)
    ensures call.(pc := Resolve(c, call, record, events).pc) == Resolve(c, call, record, events)
  {
    match record.status
    case Processing => ResolveProcessing(c, call, record, row, events);
    case Failed => ResolveFailed(c, call, record, row, events);
    case Finished => ResolveInactive(c, call, record, row, events);
    case Released => ResolveInactive(c, call, record, row, events);
  }

  lemma ResolvingSound(c: CommandId, call: Call, s: Shared, ch: Choice)
    requires Before(c, call, s) && call.pc.Resolving?
    ensures Sound(c, call, s, StepResolving(c, call, s, ch), s)
  {
    if !ch.readFails {
      ResolveKeepsCall(c, call, call.pc.record, s.row, EventsOf(s, c));
    }
    StayedSound(c, call, s, StepResolving(c, call, s, ch).pc);
  }

  lemma VerifyingSound(c: CommandId, call: Call, s: Shared, ch: Choice)
    requires Before(c, call, s) && call.pc.Verifying?
    ensures Sound(c, call, s, StepVerifying(call, s, ch), s)
  {
    StayedSound(c, call, s, StepVerifying(call, s, ch).pc);
  }

  /** What a takeover may do: nothing, or move an eventless processing row to its next generation. */
  ghost predicate TakeOverVerdict(row: Option<Row>, events: seq<Event>, r: (Option<Row>, Reply<Challenge>)) {
    && (r.0 != row ==>
          && row.Some? && r.0.Some? && row.value.status == Processing && events == []
          && r.0.value == row.value.(owner := r.0.value.owner, deadline := r.0.value.deadline,
                                     token := row.value.token + 1))
    && (r.1.Done? && r.1.value.Granted? ==> r.0 != row && r.0 == Some(r.1.value.row))
    && (r.1.Throws? ==> r.1.error == UNCODED)
  }

  lemma TakeOverWithSound(c: CommandId, call: Call, s: Shared, r: (Option<Row>, Reply<Challenge>))
    requires Before(c, call, s) && call.pc.TakingOver? && TakeOverVerdict(s.row, EventsOf(s, c), r)
    ensures Sound(c, call, s, TakeOverWith(call, s, r).0, TakeOverWith(call, s, r).1)
  {
    if r.0 == s.row {
      TakeNothingOverSound(c, call, s, r);
    } else {
      TakenOverSound(c, call, s, r);
    }
  }

  lemma TakeNothingOverSound(c: CommandId, call: Call, s: Shared, r: (Option<Row>, Reply<Challenge>))
    requires Before(c, call, s) && call.pc.TakingOver? && TakeOverVerdict(s.row, EventsOf(s, c), r) && r.0 == s.row
    ensures Sound(c, call, s, TakeOverWith(call, s, r).0, TakeOverWith(call, s, r).1)
  {
  }

  lemma TakenOverSound(c: CommandId, call: Call, s: Shared, r: (Option<Row>, Reply<Challenge>))
    requires Before(c, call, s) && call.pc.TakingOver? && TakeOverVerdict(s.row, EventsOf(s, c), r) && r.0 != s.row
    ensures Sound(c, call, s, TakeOverWith(call, s, r).0, TakeOverWith(call, s, r).1)
  {
  }

  lemma TakingOverSound(c: CommandId, call: Call, s: Shared, ch: Choice)
    requires Before(c, call, s) && call.pc.TakingOver?
    ensures Sound(c, call, s, StepTakingOver(c, call, s, ch).0, StepTakingOver(c, call, s, ch).1)
  {
    TakeOverWithSound(c, call, s, Faulty(ch.fault, s.row,
      TakeOver(s.row, EventsOf(s, c), call.worker, call.ttl, Some(call.pc.record.token), ch.now)));
  }

  /** What a revocation may do: nothing, or fail the processing row with the full range of its events. */
  ghost predicate RevokeVerdict(c: CommandId, row: Option<Row>, events: seq<Event>,
                                r: (Option<Row>, Reply<Challenge>))
  {
    && (r.0 != row ==>
          && row.Some? && r.0.Some? && row.value.status == Processing
          && events != [] && Covers(c, r.0.value.range, events)
          && r.0.value.status == Failed && r.0.value.owner.None? && r.0.value.deadline.None?
          && r.0.value.token == row.value.token && r.0.value.request == row.value.request
          && r.0.value.error.Some? && r.0.value.error.value.code == InterruptedAfterCommit
          && r.0.value.error.value.committed == Yes)
    && (r.1.Done? && r.1.value.Granted? ==> r.0 != row && r.0 == Some(r.1.value.row))
    && (r.1.Throws? ==> r.1.error == UNCODED)
  }

  lemma RevokeVerdictHolds(c: CommandId, row: Option<Row>, events: seq<Event>, token: nat, known: seq<Event>,
                           ch: Choice)
    ensures RevokeVerdict(c, row, events, Faulty(ch.fault, row,
                                                 Revoke(row, c, events, token, Interrupted(known), ch.now)))
  {
    if BuildRange(c, events).Some? {
      BuildRangeCovers(c, events);
    }
  }

  lemma RevokeWithSound(c: CommandId, call: Call, s: Shared, r: (Option<Row>, Reply<Challenge>))
    requires Before(c, call, s) && call.pc.Revoking? && RevokeVerdict(c, s.row, EventsOf(s, c), r)
    ensures Sound(c, call, s, RevokeWith(call, s, r).0, RevokeWith(call, s, r).1)
  {
    if r.0 == s.row {
      RevokeNothingSound(c, call, s, r);
    } else {
      RevokedSound(c, call, s, r);
    }
  }

  lemma RevokedSound(c: CommandId, call: Call, s: Shared, r: (Option<Row>, Reply<Challenge>))
    requires Before(c, call, s) && call.pc.Revoking? && RevokeVerdict(c, s.row, EventsOf(s, c), r) && r.0 != s.row
    ensures Sound(c, call, s, RevokeWith(call, s, r).0, RevokeWith(call, s, r).1)
  {
    RevokedKeepsCommand(c, s.row, EventsOf(s, c), r);
  }

  lemma RevokedKeepsCommand(c: CommandId, row: Option<Row>, events: seq<Event>, r: (Option<Row>, Reply<Challenge>))
    requires CommandInv(c, row, events) && RevokeVerdict(c, row, events, r) && r.0 != row
    ensures CommandInv(c, r.0, events)
  {
  }

  lemma RevokeNothingSound(c: CommandId, call: Call, s: Shared, r: (Option<Row>, Reply<Challenge>))
    requires Before(c, call, s) && call.pc.Revoking? && RevokeVerdict(c, s.row, EventsOf(s, c), r) && r.0 == s.row
    ensures Sound(c, call, s, RevokeWith(call, s, r).0, RevokeWith(call, s, r).1)
  {
  }

  lemma RevokingSound(c: CommandId, call: Call, s: Shared, ch: Choice)
    requires Before(c, call, s) && call.pc.Revoking?
    ensures Sound(c, call, s, StepRevoking(c, call, s, ch).0, StepRevoking(c, call, s, ch).1)
  {
    RevokeVerdictHolds(c, s.row, EventsOf(s, c), call.pc.record.token, call.pc.events, ch);
    RevokeWithSound(c, call, s, Faulty(ch.fault, s.row,
      Revoke(s.row, c, EventsOf(s, c), call.pc.record.token, Interrupted(call.pc.events), ch.now)));
  }

  lemma RefetchingSound(c: CommandId, call: Call, s: Shared, ch: Choice)
    requires Before(c, call, s) && call.pc.Refetching?
    ensures Sound(c, call, s, StepRefetching(call, s, ch), s)
  {
    StayedSound(c, call, s, StepRefetching(call, s, ch).pc);
  }

  lemma ReleasingFailedSound(c: CommandId, call: Call, s: Shared, ch: Choice)
    requires Before(c, call, s) && call.pc.ReleasingFailed?
    ensures Sound(c, call, s, StepReleasingFailed(call, s, ch).0, StepReleasingFailed(call, s, ch).1)
  {
    var record := call.pc.record;
    var code := if record.error.Some? then record.error.value.code else Uncoded;
    ReleaseFailedWithSound(c, call, s, Faulty(ch.fault, s.row, ReleaseFailed(s.row, code, Some(record.token))));
  }

  /** What giving up a failed row may do: nothing, or release the failed generation that was read. */
  ghost predicate ReleaseFailedVerdict(row: Option<Row>, token: nat, r: (Option<Row>, Reply<bool>)) {
    && (r.0 != row ==>
          && row.Some? && r.0.Some? && row.value.status == Failed && row.value.token == token
          && r.0.value == row.value.(status := Released, owner := None, deadline := None))
    && (r.1.Throws? ==> r.1.error == UNCODED || r.1.error == Stale())
  }

  lemma ReleaseFailedWithSound(c: CommandId, call: Call, s: Shared, r: (Option<Row>, Reply<bool>))
    requires Before(c, call, s) && call.pc.ReleasingFailed? && ReleaseFailedVerdict(s.row, call.pc.record.token, r)
    ensures Sound(c, call, s, ReleaseFailedWith(call, s, r).0, ReleaseFailedWith(call, s, r).1)
  {
    if r.0 == s.row {
      ReleaseNoFailedSound(c, call, s, r);
    } else {
      ReleasedFailedSound(c, call, s, r);
    }
  }

  lemma ReleasedFailedSound(c: CommandId, call: Call, s: Shared, r: (Option<Row>, Reply<bool>))
    requires Before(c, call, s) && call.pc.ReleasingFailed? && ReleaseFailedVerdict(s.row, call.pc.record.token, r)
    requires r.0 != s.row
    ensures Sound(c, call, s, ReleaseFailedWith(call, s, r).0, ReleaseFailedWith(call, s, r).1)
  {
  }

  lemma ReleaseNoFailedSound(c: CommandId, call: Call, s: Shared, r: (Option<Row>, Reply<bool>))
    requires Before(c, call, s) && call.pc.ReleasingFailed? && ReleaseFailedVerdict(s.row, call.pc.record.token, r)
    requires r.0 == s.row
    ensures Sound(c, call, s, ReleaseFailedWith(call, s, r).0, ReleaseFailedWith(call, s, r).1)
  {
  }

  lemma ReconcileFailureWithSound(c: CommandId, call: Call, s: Shared, r: (Option<Row>, Reply<()>))
    requires Before(c, call, s) && call.pc.ReconcilingFailure?
    requires r.0 == s.row ||
             (s.row.Some? && r.0.Some? && s.row.value.status == Failed && s.row.value.token == call.pc.record.token
              && Rebuilt(c, s.row.value, r.0.value, call.pc.events)
              && r.0.value.error == Some(Interrupted(call.pc.events)))
    ensures Sound(c, call, s, ReconcileFailureWith(call, s, r).0, ReconcileFailureWith(call, s, r).1)
  {
    if r.0 == s.row {
      StayedSound(c, call, s, ReconcileFailureWith(call, s, r).0.pc);
    }
  }

  lemma ReconcilingFailureSound(c: CommandId, call: Call, s: Shared, ch: Choice)
    requires Before(c, call, s) && call.pc.ReconcilingFailure?
    ensures Sound(c, call, s, StepReconcilingFailure(c, call, s, ch).0, StepReconcilingFailure(c, call, s, ch).1)
  {
    var known := call.pc.events;
    var r := ReconcileFailure(s.row, c, known, Interrupted(known), Some(call.pc.record.token));
    if BuildRange(c, known).Some? {
      BuildRangeCovers(c, known);
    }
    ReconcileFailureWithSound(c, call, s, Faulty(ch.fault, s.row, r));
  }

  /** Every step of every call is sound. */
  lemma StepPcSound(c: CommandId, call: Call, s: Shared, ch: Choice)
    requires Before(c, call, s)
    ensures Sound(c, call, s, StepPc(c, call, s, ch).0, StepPc(c, call, s, ch).1)
  {
    match call.pc
    case Reserving => ReservingSound(c, call, s, ch);
    case CheckingNew => if call.token.Some? { CheckingNewSound(c, call, s, ch); }
    case ReadingBack => ReadingBackSound(c, call, s, ch);
    case Running => RunningSound(c, call, s, ch);
    case Renewing(_, _) => RenewingSound(c, call, s, ch);
    case Appending(_, _) => AppendingSound(c, call, s, ch);
    case LookingUp(_, _) => LookingUpSound(c, call, s, ch);
    case Recording(_) => RecordingSound(c, call, s, ch);
    case Completing(_, _) => CompletingSound(c, call, s, ch);
    case Reconciling(_, _) => if call.token.Some? { ReconcilingSound(c, call, s, ch); }
    case Failing(_, _, _) => FailingSound(c, call, s, ch);
    case Rereading(_, _, _) => RereadingSound(c, call, s, ch);
    case Releasing(_) => ReleasingSound(c, call, s, ch);
    case Resolving(_) => ResolvingSound(c, call, s, ch);
    case Verifying(_, _) => VerifyingSound(c, call, s, ch);
    case TakingOver(_) => TakingOverSound(c, call, s, ch);
    case Revoking(_, _) => RevokingSound(c, call, s, ch);
    case Refetching => RefetchingSound(c, call, s, ch);
    case ReleasingFailed(_) => ReleasingFailedSound(c, call, s, ch);
    case ReconcilingFailure(_, _) => ReconcilingFailureSound(c, call, s, ch);
    case Ended(_) =>
    case Crashed =>
  }
}
