/** What a renewal is for: the owner of a generation is its holder, and a renewed lease keeps others away. */
module Leases {
  import opened Events
  import opened StoreContracts
  import opened CommandRows
  import opened Stores
  import opened Coordinator
  import opened Ownership
  import opened OwnSteps
  import opened EventLog
  import opened RowSteps
  import opened Runs
  import opened LiveLeases

  /** Within a generation that is being processed the owner does not change. */
  ghost predicate OwnerStays(row: Option<Row>, row': Option<Row>) {
    row.Some? && row'.Some? && row'.value.token == row.value.token && row'.value.status == Processing ==>
      row'.value.owner == row.value.owner && row.value.status == Processing
  }

  lemma ResolversKeepOwners(c: CommandId, call: Call, s: Shared, ch: Choice)
    requires Resolves(call.pc)
    ensures OwnerStays(s.row, StepPc(c, call, s, ch).1.row)
  {
  }

  lemma MutationsKeepOwners(c: CommandId, call: Call, s: Shared, ch: Choice)
    requires call.pc.Renewing? || call.pc.Recording? || call.pc.Completing?
    ensures OwnerStays(s.row, StepPc(c, call, s, ch).1.row)
  {
  }

  lemma EndingsKeepOwners(c: CommandId, call: Call, s: Shared, ch: Choice)
    requires call.pc.Reconciling? || call.pc.Failing? || call.pc.Releasing?
    ensures OwnerStays(s.row, StepPc(c, call, s, ch).1.row)
  {
  }

  lemma OthersKeepRows(c: CommandId, call: Call, s: Shared, ch: Choice)
    requires call.pc.CheckingNew? || call.pc.ReadingBack? || call.pc.Running? || call.pc.Appending?
             || call.pc.LookingUp? || call.pc.Rereading? || call.pc.Ended? || call.pc.Crashed?
    ensures StepPc(c, call, s, ch).1.row == s.row
  {
  }

  lemma StepsKeepOwners(c: CommandId, call: Call, s: Shared, ch: Choice)
    ensures OwnerStays(s.row, StepPc(c, call, s, ch).1.row)
  {
    match call.pc
    case Renewing(_, _) => MutationsKeepOwners(c, call, s, ch);
    case Recording(_) => MutationsKeepOwners(c, call, s, ch);
    case Completing(_, _) => MutationsKeepOwners(c, call, s, ch);
    case Reconciling(_, _) => EndingsKeepOwners(c, call, s, ch);
    case Failing(_, _, _) => EndingsKeepOwners(c, call, s, ch);
    case Releasing(_) => EndingsKeepOwners(c, call, s, ch);
    case CheckingNew => OthersKeepRows(c, call, s, ch);
    case ReadingBack => OthersKeepRows(c, call, s, ch);
    case Running => OthersKeepRows(c, call, s, ch);
    case Appending(_, _) => OthersKeepRows(c, call, s, ch);
    case LookingUp(_, _) => OthersKeepRows(c, call, s, ch);
    case Rereading(_, _, _) => OthersKeepRows(c, call, s, ch);
    case Ended(_) => OthersKeepRows(c, call, s, ch);
    case Crashed => OthersKeepRows(c, call, s, ch);
    case _ => ResolversKeepOwners(c, call, s, ch);
  }

  lemma ReservedIsOwned(call: Call, s: Shared, ch: Choice)
    requires call.pc.Reserving? && call.token.None? && StepReserving(call, s, ch).0.token.Some?
    ensures var row' := StepReserving(call, s, ch).1.row; row'.Some? && row'.value.owner == Some(call.worker)
  {
  }

  lemma TakenIsOwned(c: CommandId, call: Call, s: Shared, ch: Choice)
    requires call.pc.TakingOver? && call.token.None? && StepTakingOver(c, call, s, ch).0.token.Some?
    ensures var row' := StepTakingOver(c, call, s, ch).1.row; row'.Some? && row'.value.owner == Some(call.worker)
  {
  }

  lemma OthersAcquireNothing(c: CommandId, call: Call, s: Shared, ch: Choice)
    requires call.token.None? && !Executes(call.pc) && !call.pc.Reserving? && !call.pc.TakingOver?
    ensures StepPc(c, call, s, ch).0.token.None?
  {
  }

  /** A generation is handed to the worker that asked for it. */
  lemma AcquiredIsOwned(c: CommandId, call: Call, s: Shared, ch: Choice)
    requires call.token.None? && !Executes(call.pc) && StepPc(c, call, s, ch).0.token.Some?
    ensures var row' := StepPc(c, call, s, ch).1.row;
            row'.Some? && row'.value.owner == Some(call.worker)
  {
    if call.pc.Reserving? {
      ReservedIsOwned(call, s, ch);
    } else if call.pc.TakingOver? {
      TakenIsOwned(c, call, s, ch);
    } else {
      OthersAcquireNothing(c, call, s, ch);
    }
  }

  /** Who a call is does not change: only its locals and its counters. */
  predicate SameCaller(call: Call, call': Call) {
    && call'.id == call.id && call'.key == call.key && call'.request == call.request
    && call'.worker == call.worker && call'.ttl == call.ttl
  }

  lemma HandleKeepsCaller(call: Call, error: CommandError)
    ensures SameCaller(call, Handle(call, error))
  {
  }

  lemma OwnedKeepsCaller<T>(call: Call, s: Shared, r: (Option<Row>, CommandRows.Reply<T>), next: Call)
    requires SameCaller(call, next)
    ensures SameCaller(call, Owned(call, s, r, next).0)
  {
    if r.1.Throws? {
      HandleKeepsCaller(call, r.1.error);
    }
  }

  lemma RunningKeepsCaller(c: CommandId, call: Call, s: Shared, ch: Choice)
    requires call.pc.Running?
    ensures SameCaller(call, StepRunning(c, call, s, ch))
  {
    HandleKeepsCaller(call, UNCODED);
    if ch.deed.ThrowsError? {
      HandleKeepsCaller(call, ch.deed.error);
    }
  }

  lemma AppendKeepsCaller(call: Call, s: Shared, fault: Fault, refusal: Option<CommandError>)
    requires call.pc.Appending?
    ensures SameCaller(call, AppendWith(call, s, fault, refusal).0)
  {
    if refusal.Some? {
      HandleKeepsCaller(call, refusal.value);
    }
  }

  lemma LookupKeepsCaller(c: CommandId, call: Call, s: Shared, ch: Choice)
    requires call.pc.LookingUp?
    ensures SameCaller(call, StepLookingUp(c, call, s, ch))
  {
    HandleKeepsCaller(call, CommandError(AppendCommitUnknown, Unsaid, [call.pc.event.id]));
    HandleKeepsCaller(call, call.pc.failure);
    HandleKeepsCaller(call, Inconsistent(HistoryInconsistent, EventsOf(s, c)));
  }

  lemma ResolversKeepCaller(c: CommandId, call: Call, s: Shared, ch: Choice)
    requires Resolves(call.pc)
    ensures SameCaller(call, StepPc(c, call, s, ch).0)
  {
    if call.pc.Resolving? {
      ResolvingKeepsCaller(c, call, s, ch);
    }
  }

  lemma ResolvingKeepsCaller(c: CommandId, call: Call, s: Shared, ch: Choice)
    requires call.pc.Resolving?
    ensures SameCaller(call, StepResolving(c, call, s, ch))
  {
  }

  lemma EndingsKeepCaller(c: CommandId, call: Call, s: Shared, ch: Choice)
    requires call.pc.CheckingNew? || call.pc.ReadingBack? || call.pc.Reconciling? || call.pc.Failing?
             || call.pc.Rereading? || call.pc.Releasing? || call.pc.Ended? || call.pc.Crashed?
    ensures SameCaller(call, StepPc(c, call, s, ch).0)
  {
  }

  lemma StepsKeepCaller(c: CommandId, call: Call, s: Shared, ch: Choice)
    ensures SameCaller(call, StepPc(c, call, s, ch).0)
  {
    match call.pc
    case Running => RunningKeepsCaller(c, call, s, ch);
    case Renewing(event, expected) =>
      OwnedKeepsCaller(call, s, Faulty(ch.fault, s.row, Renew(s.row, call.worker, call.token, call.ttl, ch.now)),
                       call.(pc := Appending(event, expected)));
    case Appending(event, expected) =>
      AppendKeepsCaller(call, s, ch.fault, AppendError(s.log, FencingError(s.row, call.token), event, expected));
    case LookingUp(_, _) => LookupKeepsCaller(c, call, s, ch);
    case Recording(event) =>
      OwnedKeepsCaller(call, s, Faulty(ch.fault, s.row, Record(s.row, c, event, call.token)), call.(pc := Running));
    case Completing(result, receipt) =>
      OwnedKeepsCaller(call, s, Faulty(ch.fault, s.row, Complete(s.row, result, receipt, call.token)),
                       call.(pc := Ended(Answer(result))));
    case _ => if Resolves(call.pc) { ResolversKeepCaller(c, call, s, ch); } else { EndingsKeepCaller(c, call, s, ch); }
  }

  /** The holder of the current generation is the owner of its row. */
  ghost predicate Owns(call: Call, row: Option<Row>) {
    (call.key.Some? && call.token.Some? && row.Some? && row.value.token == call.token.value
     && row.value.status == Processing) ==> row.value.owner == Some(call.worker)
  }

  lemma StepKeepsOwns(c: CommandId, call: Call, s: Shared, ch: Choice)
    requires Before(c, call, s) && Owns(call, s.row)
    requires Sound(c, call, s, StepPc(c, call, s, ch).0, StepPc(c, call, s, ch).1)
    ensures Owns(StepPc(c, call, s, ch).0, StepPc(c, call, s, ch).1.row)
  {
    StepsKeepOwners(c, call, s, ch);
    StepsKeepCaller(c, call, s, ch);
    if call.key.Some? && call.token.None? && StepPc(c, call, s, ch).0.token.Some? {
      AcquiredIsOwned(c, call, s, ch);
    }
  }

  /** Nobody else's step makes a holder lose its row to another owner within its generation. */
  lemma OthersKeepOwns(c: CommandId, other: Call, row: Option<Row>, events: seq<Event>, row': Option<Row>,
                       events': seq<Event>, mover: Option<nat>, id: nat)
    requires Owns(other, row) && CallInv(c, other, row, events)
    requires Rely(row, events, row', events', mover, id) && OwnerStays(row, row')
    ensures Owns(other, row')
  {
  }

  ghost predicate OwnsAll(w: World) {
    forall id :: id in w.calls ==> Owns(w.calls[id], RowOf(w, w.calls[id].key))
  }

  lemma OtherStillOwns(w: World, id: nat, ch: Choice, j: nat)
    requires Inv(w) && OwnsAll(w) && id in w.calls && j in w.calls && j != id
    ensures Owns(w.calls[j], RowOf(Next(w, Take(id, ch)), w.calls[j].key))
  {
    var call, other := w.calls[id], w.calls[j];
    var c, s := CommandOf(call), View(w, call.key);
    StepSound(w, id, ch);
    StepsKeepOwners(c, call, s, ch);
    assert CallInv(CommandOf(other), other, RowOf(w, other.key), EventsIn(w, CommandOf(other)));
    assert Owns(other, RowOf(w, other.key));
    if other.key.Some? && other.key == call.key {
      var r := Step(c, call, s, ch);
      OthersKeepOwns(c, other, s.row, EventsOf(s, c), r.1.row, EventsOf(r.1, c), call.token, call.id);
    }
  }

  lemma TakeKeepsOwns(w: World, id: nat, ch: Choice)
    requires Inv(w) && OwnsAll(w) && id in w.calls
    ensures OwnsAll(Next(w, Take(id, ch)))
  {
    var call, w' := w.calls[id], Next(w, Take(id, ch));
    var c, s := CommandOf(call), View(w, call.key);
    StepSound(w, id, ch);
    assert Before(c, call, s) by {
      if call.key.Some? { assert CommandInv(Key(call.key.value), Lookup(w.rows, call.key.value), EventsIn(w, c)); }
    }
    assert Owns(call, s.row);
    StepOwns(c, call, s, ch);
    forall j | j in w'.calls ensures Owns(w'.calls[j], RowOf(w', w'.calls[j].key)) {
      if j != id {
        OtherStillOwns(w, id, ch, j);
      } else {
        var r := Step(c, call, s, ch);
        OwnView(w, call, r.0, r.1);
      }
    }
  }

  lemma StepOwns(c: CommandId, call: Call, s: Shared, ch: Choice)
    requires Before(c, call, s) && Owns(call, s.row)
    ensures Owns(Step(c, call, s, ch).0, Step(c, call, s, ch).1.row)
  {
    StepPcSound(c, call, s, ch);
    StepKeepsOwns(c, call, s, ch);
  }

  lemma NextKeepsOwns(w: World, move: Move)
    requires Inv(w) && OwnsAll(w)
    ensures OwnsAll(Next(w, move))
  {
    if move.Take? && move.id in w.calls {
      TakeKeepsOwns(w, move.id, move.choice);
    }
  }

  lemma {:induction false} HistoryKeepsOwns(worlds: seq<World>)
    requires History(worlds)
    ensures OwnsAll(worlds[|worlds| - 1])
  {
    if |worlds| > 1 {
      var shorter := worlds[..|worlds| - 1];
      HistoryKeepsOwns(shorter);
      HistoryKeepsInv(shorter);
      var last := shorter[|shorter| - 1];
      assert Leads(last, worlds[|worlds| - 1]);
      var move :| Next(last, move) == worlds[|worlds| - 1];
      NextKeepsOwns(last, move);
    }
  }

  /** In every reachable world the holder of the generation being processed is its row's owner. */
  lemma HoldersOwn(w: World, id: nat, key: CommandKey)
    requires Reached(w) && id in w.calls && w.calls[id].key == Some(key)
    requires key in w.rows && w.rows[key].status == Processing && w.calls[id].token == Some(w.rows[key].token)
    ensures w.rows[key].owner == Some(w.calls[id].worker)
  {
    var worlds :| History(worlds) && worlds[|worlds| - 1] == w;
    HistoryKeepsOwns(worlds);
    assert Owns(w.calls[id], RowOf(w, Some(key)));
  }

  /** A call that is about to renew the generation it holds. */
  ghost predicate Renews(w: World, id: nat, key: CommandKey) {
    && id in w.calls && w.calls[id].key == Some(key) && w.calls[id].pc.Renewing?
    && key in w.rows && w.rows[key].status == Processing && w.calls[id].token == Some(w.rows[key].token)
  }

  /** What the owner's renewal does to its row, and where it leads. */
  lemma RenewsTo(call: Call, s: Shared, ch: Choice)
    requires call.pc.Renewing? && s.row.Some? && s.row.value.status == Processing && !ch.fault.Refuses?
    requires call.token == Some(s.row.value.token) && s.row.value.owner == Some(call.worker)
    requires call.worker != "" && LeaseDeadline(ch.now, call.ttl).Some?
    ensures StepRenewing(call, s, ch).1 == Write(s, Some(s.row.value.(deadline := Some(ch.now + call.ttl))))
    ensures ch.fault.Faultless? ==>
              StepRenewing(call, s, ch).0 == call.(pc := Appending(call.pc.event, call.pc.expected))
  {
  }

  /** The row has the new deadline, and nothing else of rows and log has changed; the call goes on to append unless the
      acknowledgement was lost. */
  ghost predicate Extended(w: World, w': World, id: nat, key: CommandKey, ch: Choice)
    requires id in w.calls && w.calls[id].pc.Renewing? && key in w.rows
  {
    var call := w.calls[id];
    && w'.rows == w.rows[key := w.rows[key].(deadline := Some(ch.now + call.ttl))] && w'.log == w.log
    && (ch.fault.Faultless? ==> id in w'.calls && w'.calls[id].pc == Appending(call.pc.event, call.pc.expected))
  }

  /** In every reachable world the renewal of the current generation, at a clock that gives a deadline, extends the
      lease to exactly that deadline. */
  lemma RenewalsExtendLeases(w: World, id: nat, key: CommandKey, ch: Choice)
    requires Reached(w) && Renews(w, id, key) && !ch.fault.Refuses?
    requires w.calls[id].worker != "" && LeaseDeadline(ch.now, w.calls[id].ttl).Some?
    ensures Extended(w, Next(w, Take(id, ch)), id, key, ch)
  {
    HoldersOwn(w, id, key);
    ReachedInv(w);
    OwnersRenew(w, id, key, ch);
  }

  lemma OwnersRenew(w: World, id: nat, key: CommandKey, ch: Choice)
    requires Inv(w) && Renews(w, id, key) && !ch.fault.Refuses? && w.rows[key].owner == Some(w.calls[id].worker)
    requires w.calls[id].worker != "" && LeaseDeadline(ch.now, w.calls[id].ttl).Some?
    ensures Extended(w, Next(w, Take(id, ch)), id, key, ch)
  {
    RenewsTo(w.calls[id], View(w, Some(key)), ch);
    var r := StepRenewing(w.calls[id], View(w, Some(key)), ch);
    PutsRenewal(w, id, key, ch, r.0, r.1);
  }

  lemma PutsRenewal(w: World, id: nat, key: CommandKey, ch: Choice, call': Call, s': Shared)
    requires Inv(w) && Renews(w, id, key) && (call', s') == StepRenewing(w.calls[id], View(w, Some(key)), ch)
    requires s' == Write(View(w, Some(key)), Some(w.rows[key].(deadline := Some(ch.now + w.calls[id].ttl))))
    requires var pc := w.calls[id].pc; ch.fault.Faultless? ==> call'.pc == Appending(pc.event, pc.expected)
    ensures Extended(w, Next(w, Take(id, ch)), id, key, ch)
  {
    StepSound(w, id, ch);
    TakePuts(w, id, ch, w.calls[id], View(w, Some(key)), call', s');
  }

  /** So a renewed lease keeps everyone else away until its new deadline, as long as the history is not broken. */
  lemma RenewedLeasesProtect(w: World, id: nat, key: CommandKey, ch: Choice, other: nat, later: Choice)
    requires Reached(w) && Renews(w, id, key) && !ch.fault.Refuses?
    requires w.calls[id].worker != "" && LeaseDeadline(ch.now, w.calls[id].ttl).Some?
    requires other in w.calls && other != id && w.calls[other].key == Some(key)
    requires later.now < ch.now + w.calls[id].ttl
    requires EventsIn(w, Key(key)) == [] || Contiguous(Key(key), EventsIn(w, Key(key)))
    ensures var w' := Next(w, Take(id, ch));
            key in w'.rows && RowOf(Next(w', Take(other, later)), Some(key)) == Some(w'.rows[key])
  {
    ReachedInv(w);
    RenewalsExtendLeases(w, id, key, ch);
    var w' := Next(w, Take(id, ch));
    ReachedNext(w, Take(id, ch), w');
    assert w'.rows[key] == w.rows[key].(deadline := Some(ch.now + w.calls[id].ttl));
    assert !SameHold(w.calls[id], w.calls[other]);
    OthersStandStill(w, id, ch, other);
    if RowOf(Next(w', Take(other, later)), Some(key)) != Some(w'.rows[key]) {
      LiveRowsEndOnlyOverBrokenHistories(w', key, other, later);
    }
  }

  lemma OthersStandStill(w: World, id: nat, ch: Choice, other: nat)
    requires Inv(w) && id in w.calls && other in w.calls && other != id
    ensures other in Next(w, Take(id, ch)).calls && Next(w, Take(id, ch)).calls[other] == w.calls[other]
  {
    StepSound(w, id, ch);
  }
}
