/** The SQLite command store: a validating SELECT and an UPDATE, with and without the write lock held in between. */
module Sqlite {
  import opened Events
  import opened StoreContracts
  import opened CommandRows

  datatype Operation =
    | Reserving(request: Request, reserver: Option<string>, ttl: int)
    | TakingOver(worker: string, ttl: int, expected: Option<nat>)
    | Revoking(generation: nat, error: CommandError)
    | Renewing(worker: string, token: Option<nat>, ttl: int)
    | Recording(event: Event, token: Option<nat>)
    | Completing(result: Result, receipt: Receipt, token: Option<nat>)
    | Failing(error: CommandError, token: Option<nat>)
    | Releasing(token: Option<nat>)
    | ReleasingFailed(code: Code, token: Option<nat>)
    | ReconcilingEvents(events: seq<Event>, token: Option<nat>)
    | ReconcilingFailure(events: seq<Event>, error: CommandError, token: Option<nat>)

  /** What an operation reads besides the row: the store's clock and the command's events. */
  datatype Reading = Reading(row: Option<Row>, command: CommandId, events: seq<Event>, now: int)

  /** The row the operation must leave behind when nothing else runs. */
  function Atomically(op: Operation, at: Reading): Option<Row> {
    match op
    case Reserving(request, worker, ttl) => Reserve(at.row, request, worker, ttl, at.now).0
    case TakingOver(worker, ttl, expected) => TakeOver(at.row, at.events, worker, ttl, expected, at.now).0
    case Revoking(expected, error) => Revoke(at.row, at.command, at.events, expected, error, at.now).0
    case Renewing(worker, token, ttl) => Renew(at.row, worker, token, ttl, at.now).0
    case Recording(event, token) => Record(at.row, at.command, event, token).0
    case Completing(result, receipt, token) => Complete(at.row, result, receipt, token).0
    case Failing(error, token) => Fail(at.row, error, token).0
    case Releasing(token) => Release(at.row, token).0
    case ReleasingFailed(code, token) => ReleaseFailed(at.row, code, token).0
    case ReconcilingEvents(events, token) => ReconcileEvents(at.row, at.command, events, token).0
    case ReconcilingFailure(events, error, token) => ReconcileFailure(at.row, at.command, events, error, token).0
  }

  /** Whether what was read lets the operation reach its INSERT or UPDATE. */
  predicate Reaches(op: Operation, at: Reading) {
    match op
    case Reserving(request, worker, ttl) =>
      var r := Reserve(at.row, request, worker, ttl, at.now).1; r.Done? && r.value.created
    case TakingOver(worker, ttl, expected) =>
      var r := TakeOver(at.row, at.events, worker, ttl, expected, at.now).1; r.Done? && r.value.Granted?
    case Revoking(expected, error) =>
      var r := Revoke(at.row, at.command, at.events, expected, error, at.now).1; r.Done? && r.value.Granted?
    case Renewing(worker, token, ttl) => Renew(at.row, worker, token, ttl, at.now).1.Done?
    case Recording(event, token) => Record(at.row, at.command, event, token).1.Done?
    case Completing(result, receipt, token) => Complete(at.row, result, receipt, token).1.Done?
    case Failing(error, token) => Fail(at.row, error, token).1.Done?
    case Releasing(token) => Release(at.row, token).1 == Done(true)
    case ReleasingFailed(code, token) => ReleaseFailed(at.row, code, token).1 == Done(true)
    case ReconcilingEvents(events, token) => ReconcileEvents(at.row, at.command, events, token).1.Done?
    case ReconcilingFailure(events, error, token) =>
      ReconcileFailure(at.row, at.command, events, error, token).1.Done?
  }

  /** The SET clause: the columns the statement writes, taken from `values`, over the row as it is now. */
  function Assign(op: Operation, row: Row, values: Row): Row {
    match op
    case Reserving(_, _, _) => values
    case TakingOver(_, _, _) => row.(owner := values.owner, token := values.token, deadline := values.deadline)
    case Revoking(_, _) =>
      row.(status := Status.Failed, error := values.error, aggregate := values.aggregate, range := values.range,
           owner := None, deadline := None)
    case Renewing(_, _, _) => row.(deadline := values.deadline)
    case Recording(_, _) => row.(aggregate := values.aggregate, range := values.range)
    case Completing(_, _, _) =>
      row.(status := Finished, result := values.result, receipt := values.receipt, owner := None, deadline := None)
    case Failing(_, _) => row.(status := Status.Failed, error := values.error, owner := None, deadline := None)
    case Releasing(_) => row.(status := Status.Released, owner := None, deadline := None)
    case ReleasingFailed(_, _) => row.(status := Status.Released, owner := None, deadline := None)
    case ReconcilingEvents(_, _) => row.(aggregate := values.aggregate, range := values.range)
    case ReconcilingFailure(_, _, _) =>
      row.(aggregate := values.aggregate, range := values.range, error := values.error)
  }

  /** The WHERE clause: every statement but the takeover's names the status and the generation that were read. */
  predicate Matches(op: Operation, seen: Row, row: Row) {
    op.TakingOver? || (row.status == seen.status && row.token == seen.token)
  }

  /** The INSERT, or the UPDATE, that follows a validated reading, executed over the row as it is now. */
  function Execute(op: Operation, at: Reading, row: Option<Row>): Option<Row> {
    var values := Atomically(op, at);
    if !Reaches(op, at) || values.None? then row
    else match at.row
      case None => if row.None? then values else row
      case Some(seen) =>
        if row.Some? && Matches(op, seen, row.value) then Some(Assign(op, row.value, values.value)) else row
  }

  /** What an operation answers, by the type of its reply. */
  datatype Answer =
    | Reserved(reservation: Reply<Reservation>)
    | Challenged(challenge: Reply<Challenge>)
    | Renewed(deadline: Reply<int>)
    | Mutated(done: Reply<()>)
    | GivenUp(released: Reply<bool>)

  /** The answer when nothing else runs. */
  function AtomicAnswer(op: Operation, at: Reading): Answer {
    match op
    case Reserving(request, worker, ttl) => Reserved(Reserve(at.row, request, worker, ttl, at.now).1)
    case TakingOver(worker, ttl, expected) =>
      Challenged(TakeOver(at.row, at.events, worker, ttl, expected, at.now).1)
    case Revoking(expected, error) => Challenged(Revoke(at.row, at.command, at.events, expected, error, at.now).1)
    case Renewing(worker, token, ttl) => Renewed(Renew(at.row, worker, token, ttl, at.now).1)
    case Recording(event, token) => Mutated(Record(at.row, at.command, event, token).1)
    case Completing(result, receipt, token) => Mutated(Complete(at.row, result, receipt, token).1)
    case Failing(error, token) => Mutated(Fail(at.row, error, token).1)
    case Releasing(token) => GivenUp(Release(at.row, token).1)
    case ReleasingFailed(code, token) => GivenUp(ReleaseFailed(at.row, code, token).1)
    case ReconcilingEvents(events, token) => Mutated(ReconcileEvents(at.row, at.command, events, token).1)
    case ReconcilingFailure(events, error, token) =>
      Mutated(ReconcileFailure(at.row, at.command, events, error, token).1)
  }

  function Throwing(op: Operation, error: CommandError): Answer {
    match op
    case Reserving(_, _, _) => Reserved(Throws(error))
    case TakingOver(_, _, _) => Challenged(Throws(error))
    case Revoking(_, _) => Challenged(Throws(error))
    case Renewing(_, _, _) => Renewed(Throws(error))
    case Releasing(_) => GivenUp(Throws(error))
    case ReleasingFailed(_, _) => GivenUp(Throws(error))
    case _ => Mutated(Throws(error))
  }

  /** Whether the statement that follows a validated reading finds the row it names. */
  predicate Applies(op: Operation, at: Reading, row: Option<Row>) {
    match at.row
    case None => row.None?
    case Some(seen) => row.Some? && Matches(op, seen, row.value)
  }

  /** What the adapter answers: what the reading decided, as long as it does not reach the statement; an INSERT that
      finds a row throws, and an UPDATE that finds none is a lost generation. A revocation answers the row it left
      behind, read in its transaction; a takeover answers `readBack`, the row as it is when it is read again after the
      COMMIT. */
  function AnswerOf(op: Operation, at: Reading, row: Option<Row>, readBack: Option<Row>): Answer {
    if !Reaches(op, at) then AtomicAnswer(op, at)
    else if !Applies(op, at, row) then Throwing(op, if at.row.None? then UNCODED else Stale())
    else match op
      case TakingOver(_, _, _) => Granting(op, readBack)
      case Revoking(_, _) => Granting(op, Execute(op, at, row))
      case _ => AtomicAnswer(op, at)
  }

  function Granting(op: Operation, row: Option<Row>): Answer {
    if row.Some? then Challenged(Done(Granted(row.value))) else Throwing(op, UNCODED)
  }

  /** With the write lock held from SELECT to UPDATE, and the row read back before anyone else changes it, each
      transaction is the atomic operation the in-memory store performs, in the row it leaves behind and in its answer:
      the columns a statement writes are exactly those that change. */
  lemma LockedIsAtomic(op: Operation, at: Reading)
    ensures Execute(op, at, at.row) == Atomically(op, at)
    ensures AnswerOf(op, at, at.row, Execute(op, at, at.row)) == AtomicAnswer(op, at)
  {
    match op
    case TakingOver(_, _, _) =>
    case Revoking(_, _) =>
    case _ =>
  }

  predicate Refused(answer: Answer) {
    match answer
    case Reserved(r) => r.Throws?
    case Challenged(r) => r.Throws?
    case Renewed(r) => r.Throws?
    case Mutated(r) => r.Throws?
    case GivenUp(r) => r.Throws?
  }

  /** A guarded statement never loses silently: once it is reached, its answer throws exactly if it changed nothing
      because the status or the generation had moved. */
  lemma LostGuardsAreAnswered(op: Operation, at: Reading, row: Row, readBack: Option<Row>)
    requires !op.TakingOver? && Reaches(op, at)
    ensures Refused(AnswerOf(op, at, Some(row), readBack)) <==>
            at.row.None? || (at.row.value.status, at.row.value.token) != (row.status, row.token)
    ensures Refused(AnswerOf(op, at, Some(row), readBack)) ==> Execute(op, at, Some(row)) == Some(row)
  {
  }

  /** What a guarded statement may do to a row that others may have changed since it was read: nothing once the status
      or the generation has moved; and otherwise it keeps the generation, except that a released row is reserved again
      under the next one, and leaves completed rows alone. */
  lemma GuardsHold(op: Operation, at: Reading, row: Row)
    requires !op.TakingOver?
    ensures var row' := Execute(op, at, Some(row));
            && row'.Some?
            && (at.row.None? || (at.row.value.status, at.row.value.token) != (row.status, row.token) ==>
                  row' == Some(row))
            && (row.status == Finished ==> row' == Some(row))
            && row'.value.token == (if row' != Some(row) && op.Reserving? then row.token + 1 else row.token)
            && (row' != Some(row) && op.Reserving? ==> row.status == Status.Released)
            && (row'.value.status != row.status ==>
                  row.status == Processing
                  || (row.status == Status.Failed && row'.value.status == Status.Released)
                  || (row.status == Status.Released && row'.value.status == Processing))
  {
  }

  /** Several connections over one command's row. A connection has read and validated, and not yet written; `granted`
      lists the generations handed out, by reservation or takeover, in order. */
  datatype Session = Session(op: Operation, at: Reading)
  datatype Table = Table(row: Option<Row>, sessions: map<nat, Session>, granted: seq<nat>)

  datatype Move =
    | Selects(connection: nat, op: Operation, command: CommandId, events: seq<Event>, now: int)
    | Updates(connection: nat)
    | Transacts(op: Operation, command: CommandId, events: seq<Event>, now: int)

  function Grants(op: Operation, row: Option<Row>, row': Option<Row>): seq<nat> {
    if row'.Some? && row' != row && (op.Reserving? || op.TakingOver?) then [row'.value.token] else []
  }

  function Written(t: Table, op: Operation, at: Reading): Table {
    var row' := Execute(op, at, t.row);
    t.(row := row', granted := t.granted + Grants(op, t.row, row'))
  }

  function Next(t: Table, move: Move): Table {
    match move
    case Selects(connection, op, command, events, now) =>
      t.(sessions := t.sessions[connection := Session(op, Reading(t.row, command, events, now))])
    case Updates(connection) =>
      if connection !in t.sessions then t
      else
        var session := t.sessions[connection];
        Written(t.(sessions := t.sessions - {connection}), session.op, session.at)
    case Transacts(op, command, events, now) => Written(t, op, Reading(t.row, command, events, now))
  }

  function Run(moves: seq<Move>): Table {
    if moves == [] then Table(None, map[], []) else Next(Run(moves[..|moves| - 1]), moves[|moves| - 1])
  }

  /** The write lock is held for takeovers, and for nothing else. */
  predicate TakeoversLocked(moves: seq<Move>) {
    forall i :: 0 <= i < |moves| ==> moves[i].Selects? ==> !moves[i].op.TakingOver?
  }

  ghost predicate Increasing(tokens: seq<nat>) {
    forall i, j :: 0 <= i < j < |tokens| ==> tokens[i] < tokens[j]
  }

  ghost predicate TableInv(t: Table) {
    && Increasing(t.granted)
    && (t.row.None? ==> t.granted == [])
    && (t.row.Some? ==> t.granted != [] && t.granted[|t.granted| - 1] == t.row.value.token)
    && forall c :: c in t.sessions ==> !t.sessions[c].op.TakingOver?
  }

  lemma WrittenKeepsInv(t: Table, op: Operation, at: Reading)
    requires TableInv(t) && (op.TakingOver? ==> at.row == t.row)
    ensures TableInv(Written(t, op, at))
    ensures t.row.Some? ==> Written(t, op, at).row.Some? && t.row.value.token <= Written(t, op, at).row.value.token
    ensures t.row.Some? && t.row.value.status == Finished ==> Written(t, op, at).row == t.row
  {
    if t.row.Some? && !op.TakingOver? {
      GuardsHold(op, at, t.row.value);
    } else if op.TakingOver? {
      TakeOverGrants(op, at);
    } else {
      InsertGrants(op, at);
    }
  }

  lemma TakeOverGrants(op: Operation, at: Reading)
    requires op.TakingOver?
    ensures Execute(op, at, at.row) == at.row ||
            (at.row.Some? && Execute(op, at, at.row).Some? && at.row.value.status == Processing
             && Execute(op, at, at.row).value.token == at.row.value.token + 1)
  {
  }

  lemma InsertGrants(op: Operation, at: Reading)
    ensures Execute(op, at, None).Some? ==> op.Reserving?
  {
  }

  lemma {:induction false} ReachableTable(moves: seq<Move>)
    requires TakeoversLocked(moves)
    ensures TableInv(Run(moves))
  {
    if moves != [] {
      var t, move := Run(moves[..|moves| - 1]), moves[|moves| - 1];
      ReachableTable(moves[..|moves| - 1]);
      match move
      case Selects(_, _, _, _, _) =>
      case Updates(connection) =>
        if connection in t.sessions {
          var session := t.sessions[connection];
          WrittenKeepsInv(t.(sessions := t.sessions - {connection}), session.op, session.at);
        }
      case Transacts(op, command, events, now) => WrittenKeepsInv(t, op, Reading(t.row, command, events, now));
    }
  }

  /** Only the takeover needs the lock: with every other SELECT and UPDATE interleaved at will, each generation handed
      out is above all earlier ones. */
  lemma GenerationsUniqueWithoutLock(moves: seq<Move>)
    requires TakeoversLocked(moves)
    ensures Increasing(Run(moves).granted)
  {
    ReachableTable(moves);
  }

  /** Over every such run and continuation, no generation is lowered and no completed row is overwritten. */
  lemma {:induction false} NothingNewerIsOverwritten(moves: seq<Move>, more: seq<Move>)
    requires TakeoversLocked(moves + more) && Run(moves).row.Some?
    ensures var row, row' := Run(moves).row.value, Run(moves + more).row;
            && row'.Some? && row.token <= row'.value.token
            && (row.status == Finished ==> row' == Some(row))
  {
    if more == [] {
      assert moves + more == moves;
    } else {
      var all, shorter, last := moves + more, more[..|more| - 1], more[|more| - 1];
      assert all[..|all| - 1] == moves + shorter && all[|all| - 1] == last;
      assert forall i :: 0 <= i < |moves + shorter| ==> (moves + shorter)[i] == all[i];
      NothingNewerIsOverwritten(moves, shorter);
      ReachableTable(moves + shorter);
      NextOverwritesNothing(Run(moves + shorter), last);
    }
  }

  lemma NextOverwritesNothing(t: Table, move: Move)
    requires TableInv(t) && t.row.Some?
    ensures Next(t, move).row.Some? && t.row.value.token <= Next(t, move).row.value.token
    ensures t.row.value.status == Finished ==> Next(t, move).row == t.row
  {
    match move
    case Selects(_, _, _, _, _) =>
    case Updates(connection) =>
      if connection in t.sessions {
        var session := t.sessions[connection];
        WrittenKeepsInv(t.(sessions := t.sessions - {connection}), session.op, session.at);
      }
    case Transacts(op, command, events, now) => WrittenKeepsInv(t, op, Reading(t.row, command, events, now));
  }

  lemma RunOneMore(moves: seq<Move>, k: nat)
    requires k < |moves|
    ensures Run(moves[..k + 1]) == Next(Run(moves[..k]), moves[k])
  {
    assert moves[..k + 1][..k] == moves[..k];
  }

  /** Two connections whose takeovers both read before either writes. */
  function RacingTakeovers(request: Request, command: CommandId): seq<Move> {
    [Transacts(Reserving(request, Some("first"), 10), command, [], 0),
     Selects(1, TakingOver("second", 10, Some(1)), command, [], 20),
     Selects(2, TakingOver("third", 10, Some(1)), command, [], 20),
     Updates(1),
     Updates(2)]
  }

  lemma BothHaveRead(request: Request, command: CommandId)
    ensures var moves := RacingTakeovers(request, command);
            var at := Reading(Some(FreshRow(request, Some("first"), 1, Some(10))), command, [], 20);
            Run(moves[..3]) == Table(at.row, map[1 := Session(moves[1].op, at), 2 := Session(moves[2].op, at)], [1])
  {
    var moves := RacingTakeovers(request, command);
    var at := Reading(Some(FreshRow(request, Some("first"), 1, Some(10))), command, [], 20);
    assert Run(moves[..0]) == Table(None, map[], []);
    RunOneMore(moves, 0);
    assert Run(moves[..1]) == Table(at.row, map[], [1]);
    RunOneMore(moves, 1);
    RunOneMore(moves, 2);
  }

  /** Without the lock the takeover hands out the same generation twice: its statement names no generation. */
  lemma UnlockedTakeoversCollide(request: Request, command: CommandId)
    ensures Run(RacingTakeovers(request, command)).granted == [1, 2, 2]
  {
    var moves := RacingTakeovers(request, command);
    BothHaveRead(request, command);
    RunOneMore(moves, 3);
    assert Run(moves[..4]).granted == [1, 2];
    RunOneMore(moves, 4);
    assert moves[..5] == moves;
  }

  /** No connection has read a generation above the row's. */
  ghost predicate ReadsAreOld(t: Table) {
    forall c :: c in t.sessions && t.sessions[c].at.row.Some? ==>
      t.row.Some? && t.sessions[c].at.row.value.token <= t.row.value.token
  }

  lemma NextReadsAreOld(t: Table, move: Move)
    requires TableInv(t) && ReadsAreOld(t) && (move.Selects? ==> !move.op.TakingOver?)
    ensures ReadsAreOld(Next(t, move))
  {
    if t.row.Some? {
      NextOverwritesNothing(t, move);
    }
  }

  lemma {:induction false} ReachableReads(moves: seq<Move>)
    requires TakeoversLocked(moves)
    ensures ReadsAreOld(Run(moves))
  {
    if moves != [] {
      ReachableReads(moves[..|moves| - 1]);
      ReachableTable(moves[..|moves| - 1]);
      NextReadsAreOld(Run(moves[..|moves| - 1]), moves[|moves| - 1]);
    }
  }

  /** The generation an owner's mutation or a repair names. */
  function NamedBy(op: Operation): Option<nat> {
    match op
    case Reserving(_, _, _) => None
    case TakingOver(_, _, _) => None
    case Revoking(_, _) => None
    case Renewing(_, token, _) => token
    case Recording(_, token) => token
    case Completing(_, _, token) => token
    case Failing(_, token) => token
    case Releasing(token) => token
    case ReleasingFailed(_, token) => token
    case ReconcilingEvents(_, token) => token
    case ReconcilingFailure(_, _, token) => token
  }

  /** What may run before a takeover reads its answer: nobody has learned of the new generation, so nobody names it, and
      the command has no event yet that would let it be revoked after its deadline. */
  predicate Unaware(move: Move, row: Row) {
    move.Updates? ||
    (NamedBy(move.op) != Some(row.token) && (move.op.Revoking? ==> !Expired(row, move.now) || move.events == []))
  }

  /** The next takeover of an eventless row: at or after the deadline, in whole, and not for another generation. */
  predicate TakesNext(move: Move, row: Row) {
    && move.Transacts? && move.op.TakingOver? && move.events == []
    && move.op.worker != "" && LeaseDeadline(move.now, move.op.ttl).Some?
    && Expired(row, move.now) && (move.op.expected.Some? ==> move.op.expected.value == row.token)
  }

  /** A row as a takeover leaves it. */
  predicate Taken(row: Row) {
    row.status == Processing && (row.range.Some? ==> row.range.value.ids == [])
  }

  /** The row is still `row`, and no connection that has read is about to change it. */
  ghost predicate Untouched(t: Table, row: Row) {
    && t.row == Some(row)
    && forall c :: c in t.sessions ==> Harmless(t.sessions[c], row)
  }

  predicate Harmless(session: Session, row: Row) {
    && !session.op.TakingOver?
    && match session.at.row
       case None => true
       case Some(seen) => seen.token < row.token || (seen == row && !Reaches(session.op, session.at))
  }

  lemma HarmlessWritesNothing(session: Session, row: Row)
    requires Harmless(session, row)
    ensures Execute(session.op, session.at, Some(row)) == Some(row)
  {
  }

  /** The guards, evaluated on the row a takeover left: only the next takeover passes one. */
  lemma OnlyTheNextTakeoverReaches(move: Move, row: Row)
    requires !move.Updates? && (move.Selects? ==> !move.op.TakingOver?)
    requires Taken(row) && Unaware(move, row)
    ensures Reaches(move.op, Reading(Some(row), move.command, move.events, move.now)) <==> TakesNext(move, row)
  {
  }

  lemma OthersLeaveUntouched(t: Table, move: Move, row: Row)
    requires Untouched(t, row) && Taken(row) && (move.Selects? ==> !move.op.TakingOver?)
    requires Unaware(move, row) && !TakesNext(move, row)
    ensures Untouched(Next(t, move), row)
  {
    match move
    case Updates(connection) =>
      if connection in t.sessions { HarmlessWritesNothing(t.sessions[connection], row); }
    case _ => OnlyTheNextTakeoverReaches(move, row);
  }

  lemma TheNextTakeoverTakes(t: Table, move: Move, row: Row)
    requires t.row == Some(row) && Taken(row) && TakesNext(move, row)
    ensures Next(t, move).row.Some? && Next(t, move).row.value.token > row.token
  {
  }

  /** The row is untouched, or, once taken over, newer. */
  ghost predicate Since(t: Table, row: Row, taken: bool) {
    if taken then t.row.Some? && t.row.value.token > row.token else Untouched(t, row)
  }

  lemma OneMoreMove(t: Table, move: Move, row: Row, taken: bool)
    requires TableInv(t) && Since(t, row, taken) && Taken(row)
    requires Unaware(move, row) && (move.Selects? ==> !move.op.TakingOver?)
    ensures Since(Next(t, move), row, taken || TakesNext(move, row))
  {
    if taken {
      NextOverwritesNothing(t, move);
    } else if TakesNext(move, row) {
      TheNextTakeoverTakes(t, move, row);
    } else {
      OthersLeaveUntouched(t, move, row);
    }
  }

  /** Some of the moves is the next takeover. */
  predicate SomeTakesNext(more: seq<Move>, row: Row) {
    exists i :: 0 <= i < |more| && TakesNext(more[i], row)
  }

  /** Running on from an untouched row: it stays untouched until the next takeover, and never comes back after it. */
  lemma {:induction false} UntouchedUntilTaken(moves: seq<Move>, more: seq<Move>, row: Row)
    requires TakeoversLocked(moves + more) && Untouched(Run(moves), row) && Taken(row)
    requires forall i :: 0 <= i < |more| ==> Unaware(more[i], row)
    ensures Since(Run(moves + more), row, SomeTakesNext(more, row))
  {
    if more == [] {
      assert moves + more == moves;
    } else {
      var all, shorter, last := moves + more, more[..|more| - 1], more[|more| - 1];
      assert all[..|all| - 1] == moves + shorter && all[|all| - 1] == last;
      assert forall i :: 0 <= i < |moves + shorter| ==> (moves + shorter)[i] == all[i];
      UntouchedUntilTaken(moves, shorter, row);
      ReachableTable(moves + shorter);
      OneMoreMove(Run(moves + shorter), last, row, SomeTakesNext(shorter, row));
      OneMoreCounts(more, row);
    }
  }

  lemma OneMoreCounts(more: seq<Move>, row: Row)
    requires more != []
    ensures SomeTakesNext(more, row) <==>
            SomeTakesNext(more[..|more| - 1], row) || TakesNext(more[|more| - 1], row)
  {
    assert forall i :: 0 <= i < |more| - 1 ==> more[..|more| - 1][i] == more[i];
  }

  /** The takeover is granted, in one transaction. */
  ghost predicate TakesOver(t: Table, taking: Move) {
    taking.Transacts? && taking.op.TakingOver? && Reaches(taking.op, ReadBy(t, taking))
  }

  function ReadBy(t: Table, taking: Move): Reading
    requires taking.Transacts?
  {
    Reading(t.row, taking.command, taking.events, taking.now)
  }

  lemma GrantedIsUntouched(t: Table, taking: Move)
    requires TableInv(t) && ReadsAreOld(t) && TakesOver(t, taking)
    ensures t.row.Some? && Next(t, taking).row.Some?
    ensures Taken(Next(t, taking).row.value) && Untouched(Next(t, taking), Next(t, taking).row.value)
    ensures Next(t, taking).row.value.deadline == LeaseDeadline(taking.now, taking.op.ttl)
    ensures LeaseDeadline(taking.now, taking.op.ttl).Some?
    ensures AtomicAnswer(taking.op, ReadBy(t, taking)) == Challenged(Done(Granted(Next(t, taking).row.value)))
  {
  }

  /** A takeover reads the row it answers after its COMMIT, any number of moves later. Until then nobody has learned of
      the generation granted, so nobody names it. Then the answer is the one the transaction decided exactly if no
      further takeover ran at or after the deadline granted: within its own lease the read is never late. */
  lemma ReadBackIsOwnGeneration(moves: seq<Move>, taking: Move, more: seq<Move>)
    requires TakeoversLocked(moves + [taking] + more) && TakesOver(Run(moves), taking)
    requires Run(moves + [taking]).row.Some? ==>
               forall i :: 0 <= i < |more| ==> Unaware(more[i], Run(moves + [taking]).row.value)
    ensures Run(moves + [taking]).row.Some?
    ensures var before, row, after := Run(moves), Run(moves + [taking]).row.value, Run(moves + [taking] + more);
            && row.deadline == LeaseDeadline(taking.now, taking.op.ttl)
            && after.row.Some? && after.row.value.token >= row.token
            && (AnswerOf(taking.op, ReadBy(before, taking), before.row, after.row)
                == AtomicAnswer(taking.op, ReadBy(before, taking))
                <==> !SomeTakesNext(more, row))
            && (after.row == Some(row) <==> !SomeTakesNext(more, row))
  {
    assert forall i :: 0 <= i < |moves| ==> (moves + [taking] + more)[i] == moves[i];
    ReachableTable(moves);
    ReachableReads(moves);
    RunOneMore(moves + [taking], |moves|);
    assert (moves + [taking])[..|moves|] == moves && (moves + [taking])[..|moves| + 1] == moves + [taking];
    GrantedIsUntouched(Run(moves), taking);
    UntouchedUntilTaken(moves + [taking], more, Run(moves + [taking]).row.value);
  }

  /** A takeover, and another after the first lease ran out, each in one transaction. */
  function SuccessiveTakeovers(request: Request, command: CommandId): seq<Move> {
    [Transacts(Reserving(request, Some("first"), 10), command, [], 0),
     Transacts(TakingOver("second", 10, Some(1)), command, [], 20),
     Transacts(TakingOver("third", 10, Some(2)), command, [], 40)]
  }

  /** The two can differ: the second worker was granted generation 2, and is answered 3 if it reads back after the
      third worker's takeover. */
  lemma LateReadBackAnswersAnotherGeneration(request: Request, command: CommandId)
    ensures var moves := SuccessiveTakeovers(request, command);
            var at := Reading(Run(moves[..1]).row, command, [], 20);
            && Run(moves[..2]).row.Some? && Run(moves).row.Some?
            && AtomicAnswer(moves[1].op, at) == Challenged(Done(Granted(Run(moves[..2]).row.value)))
            && Run(moves[..2]).row.value.token == 2
            && AnswerOf(moves[1].op, at, at.row, Run(moves).row) == Challenged(Done(Granted(Run(moves).row.value)))
            && Run(moves).row.value.token == 3
  {
    var moves := SuccessiveTakeovers(request, command);
    var row := FreshRow(request, Some("first"), 1, Some(10));
    assert Run(moves[..0]) == Table(None, map[], []);
    RunOneMore(moves, 0);
    assert Run(moves[..1]).row == Some(row);
    RunOneMore(moves, 1);
    assert Run(moves[..2]).row == Some(row.(owner := Some("second"), token := 2, deadline := Some(30)));
    RunOneMore(moves, 2);
    assert moves[..3] == moves;
  }
}
