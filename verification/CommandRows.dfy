/** What each operation of a command store does to one row, as a function of the row, the authoritative
    events of its command and the store's clock. */
module CommandRows {
  import opened Events
  import opened StoreContracts

  /** The reply of a mutation: a value, or the error it throws. */
  datatype Reply<+T> = Done(value: T) | Throws(error: CommandError)

  const UNCODED := Plain(Uncoded, Unsaid)

  datatype Reservation = Reservation(created: bool, conflict: bool, row: Row)

  function FreshRow(request: Request, worker: Option<string>, token: nat, deadline: Option<int>): Row {
    Row(request, Processing, None, None, None, None, None, worker, token, deadline)
  }

  predicate Named(worker: Option<string>) {
    worker.Some? && worker.value != ""
  }

  function Reserve(row: Option<Row>, request: Request, worker: Option<string>, ttl: int, now: int)
    : (r: (Option<Row>, Reply<Reservation>))
  {
    var deadline := if Named(worker) then LeaseDeadline(now, ttl) else None;
    if !ValidTtl(ttl) || (Named(worker) && deadline.None?) then (row, Throws(UNCODED))
    else match row
      case None =>
        var reserved := FreshRow(request, worker, 1, deadline);
        (Some(reserved), Done(Reservation(true, false, reserved)))
      case Some(existing) =>
        if existing.status == Released && existing.request == request then
          var reserved := FreshRow(request, worker, existing.token + 1, deadline);
          (Some(reserved), Done(Reservation(true, false, reserved)))
        else (row, Done(Reservation(false, existing.request != request, existing)))
  }

  datatype Refusal = NotFound | NotProcessing | HasEvents | NoEvents | NotExpired | TokenMismatch
  datatype Challenge = Granted(row: Row) | Declined(reason: Refusal)

  /** The store's own test of temporal eligibility: a missing deadline counts as passed. */
  predicate Expired(row: Row, now: int) {
    row.deadline.None? || row.deadline.value <= now
  }

  function TakeOver(row: Option<Row>, events: seq<Event>, worker: string, ttl: int, expected: Option<nat>, now: int)
    : (r: (Option<Row>, Reply<Challenge>))
  {
    var deadline := LeaseDeadline(now, ttl);
    if worker == "" || deadline.None? then (row, Throws(UNCODED))
    else if row.None? then (row, Done(Declined(NotFound)))
    else if row.value.status != Processing then (row, Done(Declined(NotProcessing)))
    else if events != [] then (row, Done(Declined(HasEvents)))
    else if row.value.range.Some? && row.value.range.value.ids != [] then (row, Done(Declined(HasEvents)))
    else if !Expired(row.value, now) then (row, Done(Declined(NotExpired)))
    else if expected.Some? && row.value.token != expected.value then (row, Done(Declined(TokenMismatch)))
    else
      var taken := row.value.(owner := Some(worker), token := row.value.token + 1, deadline := deadline);
      (Some(taken), Done(Granted(taken)))
  }

  function Revoke(row: Option<Row>, c: CommandId, events: seq<Event>, expected: nat, error: CommandError, now: int)
    : (r: (Option<Row>, Reply<Challenge>))
  {
    if expected == 0 then (row, Throws(UNCODED))
    else if row.None? then (row, Done(Declined(NotFound)))
    else if row.value.status != Processing then (row, Done(Declined(NotProcessing)))
    else if row.value.token != expected then (row, Done(Declined(TokenMismatch)))
    else if !Expired(row.value, now) then (row, Done(Declined(NotExpired)))
    else if events == [] then (row, Done(Declined(NoEvents)))
    else match BuildRange(c, events)
      case None => (row, Throws(UNCODED))
      case Some(range) =>
        var revoked := row.value.(status := Failed, aggregate := Some(range.aggregate), range := Some(range),
                                  error := Some(error.(eventIds := range.ids)), owner := None, deadline := None);
        (Some(revoked), Done(Granted(revoked)))
  }

  /** Every owner mutation names the generation it acts on. */
  function GenerationError(row: Row, token: Option<nat>): Option<CommandError> {
    if token.None? then Some(Plain(FencingTokenRequired, No))
    else if row.token != token.value then Some(Stale())
    else None
  }

  /** The error of a mutation that needs a processing row of the named generation, if it is refused. */
  function OwnerError(row: Option<Row>, token: Option<nat>): Option<CommandError> {
    if row.None? || row.value.status != Processing then Some(UNCODED) else GenerationError(row.value, token)
  }

  function Renew(row: Option<Row>, worker: string, token: Option<nat>, ttl: int, now: int)
    : (r: (Option<Row>, Reply<int>))
  {
    var deadline := LeaseDeadline(now, ttl);
    if worker == "" || deadline.None? then (row, Throws(UNCODED))
    else if OwnerError(row, token).Some? then (row, Throws(OwnerError(row, token).value))
    else if row.value.owner != Some(worker) then (row, Throws(Stale()))
    else (Some(row.value.(deadline := deadline)), Done(deadline.value))
  }

  function Record(row: Option<Row>, c: CommandId, event: Event, token: Option<nat>): (r: (Option<Row>, Reply<()>)) {
    if OwnerError(row, token).Some? then (row, Throws(OwnerError(row, token).value))
    else if !PositiveSafe(event.sequence) || event.command != c then (row, Throws(UNCODED))
    else match row.value.range
      case None =>
        (Some(row.value.(aggregate := Some(event.aggregate), range := Some(RangeOf([event])))), Done(()))
      case Some(range) =>
        if range.aggregate != event.aggregate || event.sequence != range.last + 1 then (row, Throws(UNCODED))
        else (Some(row.value.(range := Some(range.(last := event.sequence, ids := range.ids + [event.id])))), Done(()))
  }

  function Complete(row: Option<Row>, result: Result, receipt: Receipt, token: Option<nat>)
    : (r: (Option<Row>, Reply<()>))
  {
    if OwnerError(row, token).Some? then (row, Throws(OwnerError(row, token).value))
    else if !ValidReceipt(receipt) then (row, Throws(UNCODED))
    else
      (Some(row.value.(status := Finished, result := Some(result), receipt := Some(receipt),
                       owner := None, deadline := None)), Done(()))
  }

  function Fail(row: Option<Row>, error: CommandError, token: Option<nat>): (r: (Option<Row>, Reply<()>)) {
    if OwnerError(row, token).Some? then (row, Throws(OwnerError(row, token).value))
    else (Some(row.value.(status := Failed, error := Some(error), owner := None, deadline := None)), Done(()))
  }

  function Release(row: Option<Row>, token: Option<nat>): (r: (Option<Row>, Reply<bool>)) {
    if row.None? then (row, Done(false))
    else if row.value.status != Processing || row.value.range.Some? then (row, Throws(UNCODED))
    else if GenerationError(row.value, token).Some? then (row, Throws(GenerationError(row.value, token).value))
    else (Some(row.value.(status := Released, owner := None, deadline := None)), Done(true))
  }

  function ReleaseFailed(row: Option<Row>, code: Code, token: Option<nat>): (r: (Option<Row>, Reply<bool>)) {
    if row.None? then (row, Done(false))
    else if row.value.status != Failed || row.value.range.Some? || row.value.error.None?
            || row.value.error.value.code != code
    then (row, Throws(UNCODED))
    else if GenerationError(row.value, token).Some? then (row, Throws(GenerationError(row.value, token).value))
    else (Some(row.value.(status := Released, owner := None, deadline := None)), Done(true))
  }

  function ReconcileEvents(row: Option<Row>, c: CommandId, events: seq<Event>, token: Option<nat>)
    : (r: (Option<Row>, Reply<()>))
  {
    if OwnerError(row, token).Some? then (row, Throws(OwnerError(row, token).value))
    else match BuildRange(c, events)
      case None => (row, Throws(UNCODED))
      case Some(range) => (Some(row.value.(aggregate := Some(range.aggregate), range := Some(range))), Done(()))
  }

  function ReconcileFailure(row: Option<Row>, c: CommandId, events: seq<Event>, error: CommandError, token: Option<nat>)
    : (r: (Option<Row>, Reply<()>))
  {
    if row.None? || row.value.status != Failed then (row, Throws(UNCODED))
    else if GenerationError(row.value, token).Some? then (row, Throws(GenerationError(row.value, token).value))
    else match BuildRange(c, events)
      case None => (row, Throws(UNCODED))
      case Some(range) =>
        (Some(row.value.(aggregate := Some(range.aggregate), range := Some(range), error := Some(error))), Done(()))
  }

  /** The error an append is refused with because of the command row, if any. */
  function FencingError(row: Option<Row>, token: Option<nat>): Option<CommandError> {
    match row
    case None => if token.Some? then Some(Plain(FencingContextInvalid, No)) else None
    case Some(r) => if r.status != Processing then Some(Stale()) else GenerationError(r, token)
  }

  /** For a processing row whose bookkeeping is a prefix of its contiguous events: once the deadline has passed
      exactly one of the two challenges with the current token succeeds, takeover without events and revocation
      with; before that neither does; and the owner may renew at any clock that gives a representable deadline. */
  lemma ExactlyOneChallenge(row: Row, c: CommandId, events: seq<Event>, known: nat, challenger: string, ttl: int,
                            error: CommandError, now: int)
    requires row.status == Processing && row.token > 0
    requires known <= |events| && Covers(c, row.range, events[..known])
    requires events != [] ==> BuildRange(c, events).Some?
    requires challenger != "" && LeaseDeadline(now, ttl).Some?
    ensures var takeover := TakeOver(Some(row), events, challenger, ttl, Some(row.token), now).1;
            var revocation := Revoke(Some(row), c, events, row.token, error, now).1;
            && takeover.Done? && revocation.Done?
            && (takeover.value.Granted? <==> Expired(row, now) && events == [])
            && (revocation.value.Granted? <==> Expired(row, now) && events != [])
            && (takeover.value.Granted? ==> takeover.value.row.token == row.token + 1)
            && (revocation.value.Granted? ==>
                  revocation.value.row.status == Failed && Covers(c, revocation.value.row.range, events))
    ensures row.owner.Some? && row.owner.value != "" ==>
              Renew(Some(row), row.owner.value, Some(row.token), ttl, now).1.Done?
  {
    assert events == [] ==> events[..known] == [];
  }

  /** A renewal extends the lease: the owner's row gets the new deadline and nothing else, and before that has passed
      nobody takes the row over or revokes it, at whatever clock they come and whatever they expect. */
  lemma RenewalExtends(row: Row, worker: string, ttl: int, now: int, c: CommandId, events: seq<Event>,
                       challenger: string, term: int, expected: Option<nat>, generation: nat, error: CommandError,
                       later: int)
    requires row.status == Processing && row.owner == Some(worker) && worker != "" && LeaseDeadline(now, ttl).Some?
    ensures Renew(Some(row), worker, Some(row.token), ttl, now)
            == (Some(row.(deadline := Some(now + ttl))), Done(now + ttl))
    ensures later < now + ttl ==>
              Spared(row.(deadline := Some(now + ttl)), c, events, challenger, term, expected, generation, error, later)
  {
  }

  /** Neither challenge changes the row. One that is not refused for anything else is told that the lease has not run
      out. */
  predicate Spared(row: Row, c: CommandId, events: seq<Event>, challenger: string, ttl: int, expected: Option<nat>,
                   generation: nat, error: CommandError, now: int)
  {
    var takeover := TakeOver(Some(row), events, challenger, ttl, expected, now);
    var revocation := Revoke(Some(row), c, events, generation, error, now);
    && takeover.0 == Some(row) && revocation.0 == Some(row)
    && (challenger != "" && LeaseDeadline(now, ttl).Some? && events == [] && row.range.None? ==>
          takeover.1 == Done(Declined(NotExpired)))
    && (generation == row.token > 0 ==> revocation.1 == Done(Declined(NotExpired)))
  }

  /** What a takeover leaves: the next generation, owned by the challenger until its own deadline. */
  lemma TakeoverHandsOver(row: Row, challenger: string, ttl: int, now: int)
    requires row.status == Processing && row.range.None? && Expired(row, now)
    requires challenger != "" && LeaseDeadline(now, ttl).Some?
    ensures TakeOver(Some(row), [], challenger, ttl, Some(row.token), now).0
            == Some(row.(owner := Some(challenger), token := row.token + 1, deadline := Some(now + ttl)))
    ensures var taken := TakeOver(Some(row), [], challenger, ttl, Some(row.token), now).0;
            Renew(taken, challenger, Some(row.token), ttl, now).1 == Throws(Stale())
  {
  }

  /** A key is reserved, under the next generation, exactly if it has no row or its row was released by the same
      request; any other request is told of the conflict, and finds the row as it was. */
  lemma ReservesExactly(row: Option<Row>, request: Request, worker: string, ttl: int, now: int)
    requires worker != "" && LeaseDeadline(now, ttl).Some?
    ensures var r := Reserve(row, request, Some(worker), ttl, now);
            && r.1.Done?
            && (r.1.value.created <==>
                  row.None? || (row.value.status == Released && row.value.request == request))
            && (r.1.value.created ==>
                  r.0 == Some(r.1.value.row)
                  && r.1.value.row == FreshRow(request, Some(worker), if row.None? then 1 else row.value.token + 1,
                                               Some(now + ttl)))
            && (!r.1.value.created ==> r.0 == row && r.1.value.row == row.value)
            && (r.1.value.conflict <==> row.Some? && row.value.request != request)
  {
  }

  /** Every mutation of an existing generation that is accepted named it; a challenge that names one as well. */
  lemma AcceptedMutationsNameTheGeneration(row: Row, c: CommandId, token: Option<nat>, worker: string, ttl: int,
                                           now: int, event: Event, events: seq<Event>, error: CommandError, code: Code,
                                           result: Result, receipt: Receipt)
    ensures Renew(Some(row), worker, token, ttl, now).1.Done? ==> token == Some(row.token) && row.owner == Some(worker)
    ensures Record(Some(row), c, event, token).1.Done? ==> token == Some(row.token)
    ensures Complete(Some(row), result, receipt, token).1.Done? ==> token == Some(row.token)
    ensures Fail(Some(row), error, token).1.Done? ==> token == Some(row.token)
    ensures Release(Some(row), token).1.Done? ==> token == Some(row.token)
    ensures ReleaseFailed(Some(row), code, token).1.Done? ==> token == Some(row.token)
    ensures ReconcileEvents(Some(row), c, events, token).1.Done? ==> token == Some(row.token)
    ensures ReconcileFailure(Some(row), c, events, error, token).1.Done? ==> token == Some(row.token)
    ensures token.Some? ==>
              var challenge := Revoke(Some(row), c, events, token.value, error, now).1;
              challenge.Done? && challenge.value.Granted? ==> token == Some(row.token)
    ensures var challenge := TakeOver(Some(row), events, worker, ttl, token, now).1;
            token.Some? && challenge.Done? && challenge.value.Granted? ==> token == Some(row.token)
  {
  }
}
