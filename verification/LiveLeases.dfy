/** When a third party may end a generation whose lease still runs: exactly over a broken history. */
module LiveLeases {
  import opened Events
  import opened StoreContracts
  import opened CommandRows
  import opened EventLog
  import opened Stores
  import opened Coordinator
  import opened Ownership
  import opened OwnSteps
  import opened Runs

  /** A call that is about to fail a row it never owned has seen a broken part of the command's history. */
  ghost predicate SawBroken(c: CommandId, call: Call, events: seq<Event>) {
    call.pc.Failing? && call.token.None? ==>
      call.pc.events != [] && call.pc.events <= events && !Contiguous(c, call.pc.events)
  }

  lemma BrokenStaysBroken(c: CommandId, known: seq<Event>, events: seq<Event>)
    requires known != [] && known <= events && !Contiguous(c, known)
    ensures !Contiguous(c, events)
  {
    assert forall i :: 0 <= i < |known| ==> known[i] == events[i];
  }

  lemma HandledFailuresHaveATokens(call: Call, error: CommandError)
    ensures Handle(call, error).pc.Failing? ==> call.token.Some?
    ensures Handle(call, error).token == call.token
  {
  }

  /** Only resolving leads a call without a generation to fail a row. */
  lemma StrangersFailFromResolving(c: CommandId, call: Call, s: Shared, ch: Choice)
    requires var call' := StepPc(c, call, s, ch).0; call'.pc.Failing? && call'.token.None?
    ensures call.pc.Resolving? && !ch.readFails
    ensures StepPc(c, call, s, ch).0 == Resolve(c, call, call.pc.record, EventsOf(s, c))
  {
    match call.pc
    case Running =>
      RunningCases(c, call, s, ch);
      if error :| DomainError(call, error) && StepRunning(c, call, s, ch) == Handle(call, error) {
        HandledFailuresHaveATokens(call, error);
      }
    case Renewing(event, expected) =>
      OwnedFailsWithToken(call, s, Faulty(ch.fault, s.row, Renew(s.row, call.worker, call.token, call.ttl, ch.now)),
                          call.(pc := Appending(event, expected)));
    case Recording(event) =>
      OwnedFailsWithToken(call, s, Faulty(ch.fault, s.row, Record(s.row, c, event, call.token)), call.(pc := Running));
    case Completing(result, receipt) =>
      OwnedFailsWithToken(call, s, Faulty(ch.fault, s.row, Complete(s.row, result, receipt, call.token)),
                          call.(pc := Ended(Answer(result))));
    case Appending(event, expected) =>
      AppendFailsWithToken(call, s, ch.fault, AppendError(s.log, FencingError(s.row, call.token), event, expected));
    case LookingUp(_, _) => LookupFailsWithToken(c, call, s, ch);
    case _ =>
  }

  lemma OwnedFailsWithToken<T>(call: Call, s: Shared, r: (Option<Row>, Reply<T>), next: Call)
    requires !next.pc.Failing?
    ensures Owned(call, s, r, next).0.pc.Failing? ==> Owned(call, s, r, next).0.token.Some?
  {
    if r.1.Throws? {
      HandledFailuresHaveATokens(call, r.1.error);
    }
  }

  lemma AppendFailsWithToken(call: Call, s: Shared, fault: Fault, refusal: Option<CommandError>)
    requires call.pc.Appending?
    ensures AppendWith(call, s, fault, refusal).0.pc.Failing? ==> AppendWith(call, s, fault, refusal).0.token.Some?
  {
    if refusal.Some? {
      HandledFailuresHaveATokens(call, refusal.value);
    }
  }

  lemma LookupFailsWithToken(c: CommandId, call: Call, s: Shared, ch: Choice)
    requires call.pc.LookingUp?
    ensures StepLookingUp(c, call, s, ch).pc.Failing? ==> StepLookingUp(c, call, s, ch).token.Some?
  {
    HandledFailuresHaveATokens(call, CommandError(AppendCommitUnknown, Unsaid, [call.pc.event.id]));
    HandledFailuresHaveATokens(call, call.pc.failure);
    HandledFailuresHaveATokens(call, Inconsistent(HistoryInconsistent, EventsOf(s, c)));
  }

  /** Resolving fails the row exactly if the processing row's command has events that are not contiguous, whatever its
      deadline says. */
  lemma ResolvingFailsBrokenRows(c: CommandId, call: Call, record: Row, events: seq<Event>)
    requires !call.pc.Failing?
    ensures Resolve(c, call, record, events).pc.Failing? <==>
            record.status == Processing && events != [] && !Contiguous(c, events)
    ensures Resolve(c, call, record, events).pc.Failing? ==>
              Resolve(c, call, record, events)
              == call.(pc := Failing(record.token, Inconsistent(HistoryInconsistent, events), events))
  {
  }

  lemma OwnSawBroken(c: CommandId, call: Call, s: Shared, ch: Choice)
    requires Before(c, call, s)
    ensures SawBroken(c, StepPc(c, call, s, ch).0, EventsOf(s, c))
  {
    var call' := StepPc(c, call, s, ch).0;
    if call'.pc.Failing? && call'.token.None? {
      StrangersFailFromResolving(c, call, s, ch);
      ResolvingFailsBrokenRows(c, call, call.pc.record, EventsOf(s, c));
    }
  }

  ghost predicate SawBrokenAll(w: World) {
    forall id :: id in w.calls ==> SawBroken(CommandOf(w.calls[id]), w.calls[id], EventsIn(w, CommandOf(w.calls[id])))
  }

  lemma EventsOnlyGrow(w: World, call: Call, call': Call, s': Shared, c: CommandId)
    requires Stepping(w, call, call', s')
    ensures EventsIn(w, c) <= EventsIn(Put(w, call, call', s'), c)
  {
    if s'.log != w.log {
      SelectAppend(w.log, s'.log[|w.log|], OfCommand(c));
    }
  }

  lemma TakeKeepsSawBroken(w: World, id: nat, ch: Choice)
    requires Inv(w) && SawBrokenAll(w) && id in w.calls
    ensures SawBrokenAll(Next(w, Take(id, ch)))
  {
    var call, w' := w.calls[id], Next(w, Take(id, ch));
    var c, s := CommandOf(call), View(w, call.key);
    var r := Step(c, call, s, ch);
    StepSound(w, id, ch);
    assert Before(c, call, s) by {
      if call.key.Some? { assert CommandInv(Key(call.key.value), Lookup(w.rows, call.key.value), EventsIn(w, c)); }
    }
    OwnSawBroken(c, call, s, ch);
    forall j | j in w'.calls
      ensures SawBroken(CommandOf(w'.calls[j]), w'.calls[j], EventsIn(w', CommandOf(w'.calls[j])))
    {
      EventsOnlyGrow(w, call, r.0, r.1, CommandOf(w'.calls[j]));
      assert j != id ==> SawBroken(CommandOf(w.calls[j]), w.calls[j], EventsIn(w, CommandOf(w.calls[j])));
    }
  }

  lemma NextKeepsSawBroken(w: World, move: Move)
    requires Inv(w) && SawBrokenAll(w)
    ensures SawBrokenAll(Next(w, move))
  {
    if move.Take? && move.id in w.calls {
      TakeKeepsSawBroken(w, move.id, move.choice);
    } else {
      NoStepKeepsSawBroken(w, Next(w, move));
    }
  }

  /** A world with the same log in which calls have only begun or crashed. */
  lemma NoStepKeepsSawBroken(w: World, w': World)
    requires SawBrokenAll(w) && w'.log == w.log
    requires forall id :: id in w'.calls && !(id in w.calls && w.calls[id] == w'.calls[id]) ==>
               !w'.calls[id].pc.Failing?
    ensures SawBrokenAll(w')
  {
  }

  lemma {:induction false} HistoryKeepsSawBroken(worlds: seq<World>)
    requires History(worlds)
    ensures SawBrokenAll(worlds[|worlds| - 1])
  {
    if |worlds| > 1 {
      var shorter := worlds[..|worlds| - 1];
      HistoryKeepsSawBroken(shorter);
      HistoryKeepsInv(shorter);
      var last := shorter[|shorter| - 1];
      assert Leads(last, worlds[|worlds| - 1]);
      var move :| Next(last, move) == worlds[|worlds| - 1];
      NextKeepsSawBroken(last, move);
    }
  }

  /** No resolving step changes a processing row whose lease runs. */
  lemma ResolversKeepLiveRows(c: CommandId, call: Call, s: Shared, ch: Choice)
    requires Resolves(call.pc) && s.row.Some? && s.row.value.status == Processing && !Expired(s.row.value, ch.now)
    ensures StepPc(c, call, s, ch).1.row == s.row
  {
  }

  lemma FailingNamesItsGeneration(call: Call, s: Shared, ch: Choice)
    requires call.pc.Failing? && StepFailing(call, s, ch).1.row != s.row
    ensures s.row.Some? && call.pc.generation == s.row.value.token
  {
  }

  lemma OtherStepsKeepRows(c: CommandId, call: Call, s: Shared, ch: Choice)
    requires !Resolves(call.pc) && !Executes(call.pc) && !call.pc.Failing?
    ensures StepPc(c, call, s, ch).1.row == s.row
  {
  }

  /** What a call without a generation may do to a processing row whose lease runs: fail it, and nothing else. */
  lemma StrangersOnlyFailLiveRows(c: CommandId, call: Call, s: Shared, ch: Choice)
    requires Before(c, call, s) && call.key.Some? && call.token.None?
    requires s.row.Some? && s.row.value.status == Processing && !Expired(s.row.value, ch.now)
    requires StepPc(c, call, s, ch).1.row != s.row
    ensures call.pc.Failing? && call.pc.generation == s.row.value.token
  {
    assert !Executes(call.pc);
    if Resolves(call.pc) {
      ResolversKeepLiveRows(c, call, s, ch);
    } else if call.pc.Failing? {
      FailingNamesItsGeneration(call, s, ch);
    } else {
      OtherStepsKeepRows(c, call, s, ch);
    }
  }

  /** A generation whose lease runs is ended by another execution only if the command's history is broken. */
  lemma LiveRowsEndOnlyOverBrokenHistories(w: World, key: CommandKey, id: nat, choice: Choice)
    requires Reached(w) && key in w.rows && w.rows[key].status == Processing && !Expired(w.rows[key], choice.now)
    requires id in w.calls && w.calls[id].key == Some(key) && w.calls[id].token != Some(w.rows[key].token)
    requires RowOf(Next(w, Take(id, choice)), Some(key)) != Some(w.rows[key])
    ensures w.calls[id].pc.Failing? && EventsIn(w, Key(key)) != [] && !Contiguous(Key(key), EventsIn(w, Key(key)))
  {
    ReachedInv(w);
    var worlds :| History(worlds) && worlds[|worlds| - 1] == w;
    HistoryKeepsSawBroken(worlds);
    var call := w.calls[id];
    var c, s := CommandOf(call), View(w, call.key);
    assert CommandInv(Key(key), Lookup(w.rows, key), EventsIn(w, c));
    StepSound(w, id, choice);
    var r := StepPc(c, call, s, choice);
    assert RowOf(Next(w, Take(id, choice)), Some(key)) == r.1.row;
    if call.token.None? {
      StrangersOnlyFailLiveRows(c, call, s, choice);
      assert SawBroken(c, call, EventsIn(w, c));
      BrokenStaysBroken(c, call.pc.events, EventsIn(w, c));
    }
  }

  /** A call where it stands, before a processing row and its command's events. */
  ghost predicate Facing(w: World, begin: Move, row: Row, events: seq<Event>, pc: Pc)
    requires begin.Begin? && begin.key.Some?
  {
    && begin.id in w.calls
    && var call := w.calls[begin.id];
    && call.id == begin.id && call.key == begin.key && call.request == row.request == begin.request && call.token.None?
    && call.worker == begin.worker && call.ttl == begin.ttl && call.pc == pc
    && RowOf(w, begin.key) == Some(row) && EventsIn(w, Key(begin.key.value)) == events
  }

  /** Who may make the attempt: a new call with the command's key and payload. */
  ghost predicate Retries(w: World, begin: Move, row: Row, events: seq<Event>) {
    && begin.Begin? && begin.key.Some? && begin.id !in w.calls && begin.request == row.request
    && RowOf(w, begin.key) == Some(row) && EventsIn(w, Key(begin.key.value)) == events
  }

  lemma FacesOnBegin(w: World, begin: Move, row: Row, events: seq<Event>)
    requires Retries(w, begin, row, events)
    ensures Facing(Next(w, begin), begin, row, events, Reserving)
  {
  }

  /** A step that leaves row and log alone only moves the call. */
  lemma FacesOn(w: World, begin: Move, row: Row, events: seq<Event>, ch: Choice, pc: Pc)
    requires begin.Begin? && begin.key.Some? && begin.id in w.calls
    requires Facing(w, begin, row, events, w.calls[begin.id].pc)
    requires var call := w.calls[begin.id];
             StepPc(CommandOf(call), call, View(w, call.key), ch) == (call.(pc := pc), View(w, call.key))
    ensures Facing(Next(w, Take(begin.id, ch)), begin, row, events, pc)
  {
    var call := w.calls[begin.id];
    var s := View(w, call.key);
    TakePuts(w, begin.id, ch, call, s, call.(pc := pc), s);
  }

  lemma RetryReadsRow(w: World, begin: Move, row: Row, events: seq<Event>, ch: Choice)
    requires begin.Begin? && begin.key.Some? && Facing(w, begin, row, events, Reserving)
    requires row.status == Processing && ch.fault == Faultless
    requires ValidTtl(begin.ttl) && (begin.worker != "" ==> LeaseDeadline(ch.now, begin.ttl).Some?)
    ensures Facing(Next(w, Take(begin.id, ch)), begin, row, events, Resolving(row))
  {
    FacesOn(w, begin, row, events, ch, Resolving(row));
  }

  lemma RetryFindsBroken(w: World, begin: Move, row: Row, events: seq<Event>, ch: Choice)
    requires begin.Begin? && begin.key.Some? && Facing(w, begin, row, events, Resolving(row))
    requires row.status == Processing && events != [] && !Contiguous(Key(begin.key.value), events) && !ch.readFails
    ensures Facing(Next(w, Take(begin.id, ch)), begin, row, events,
                   Failing(row.token, Inconsistent(HistoryInconsistent, events), events))
  {
    var call := w.calls[begin.id];
    ResolvingFailsBrokenRows(CommandOf(call), call, row, events);
    FacesOn(w, begin, row, events, ch, Failing(row.token, Inconsistent(HistoryInconsistent, events), events));
  }

  lemma RetryFailsRow(w: World, begin: Move, row: Row, events: seq<Event>, error: CommandError, ch: Choice)
    requires begin.Begin? && begin.key.Some? && Facing(w, begin, row, events, Failing(row.token, error, events))
    requires row.status == Processing && ch.fault == Faultless
    ensures RowOf(Next(w, Take(begin.id, ch)), begin.key)
            == Some(row.(status := Failed, error := Some(error), owner := None, deadline := None))
  {
    var call, s := w.calls[begin.id], View(w, begin.key);
    var r := StepPc(CommandOf(call), call, s, ch);
    TakePuts(w, begin.id, ch, call, s, r.0, r.1);
  }

  /** The world after the retry's first steps, taken one after the other. */
  ghost function Retried(w: World, begin: Move, ch1: Choice, ch2: Choice): World
    requires begin.Begin?
  {
    Next(Next(Next(w, begin), Take(begin.id, ch1)), Take(begin.id, ch2))
  }

  /** The other half: over a broken history a retry fails the processing row at any clock, before or after its deadline.
      So a running lease protects a generation from others exactly as long as the command's events are contiguous. */
  lemma BrokenRowsAreFailedAtAnyClock(w: World, begin: Move, row: Row, events: seq<Event>,
                                      ch1: Choice, ch2: Choice, ch3: Choice)
    requires Retries(w, begin, row, events) && row.status == Processing
    requires events != [] && !Contiguous(Key(begin.key.value), events)
    requires ch1.fault == Faultless && !ch2.readFails && ch3.fault == Faultless
    requires ValidTtl(begin.ttl) && (begin.worker != "" ==> LeaseDeadline(ch1.now, begin.ttl).Some?)
    ensures RowOf(Next(Retried(w, begin, ch1, ch2), Take(begin.id, ch3)), begin.key)
            == Some(row.(status := Failed, error := Some(Inconsistent(HistoryInconsistent, events)),
                         owner := None, deadline := None))
  {
    FacesOnBegin(w, begin, row, events);
    RetryReadsRow(Next(w, begin), begin, row, events, ch1);
    RetryFindsBroken(Next(Next(w, begin), Take(begin.id, ch1)), begin, row, events, ch2);
    RetryFailsRow(Retried(w, begin, ch1, ch2), begin, row, events, Inconsistent(HistoryInconsistent, events), ch3);
  }
}
