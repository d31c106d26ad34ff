/** What a takeover's late read-back costs: two executions under one generation. In the runs of `Runs` no read-back is
    late; here two calls of one command run over one store, and the first one's is. */
module LateReadBacks {
  import opened Events
  import opened StoreContracts
  import opened CommandRows
  import opened EventLog
  import opened Coordinator

  /** How the story ends: the first execution's callback rejects the command, or writes as well. */
  datatype Ending = Rejects | Writes

  datatype Turn = First(choice: Choice) | Second(choice: Choice) | FirstReadsLate
  datatype Duo = Duo(first: Call, second: Call, shared: Shared)

  const KEY: CommandKey := "key"
  const COMMAND := Key(KEY)
  const REQUEST := Request(CreateOrder, "payload")
  const ABANDONED := FreshRow(REQUEST, Some("gone"), 1, Some(10))
  const CREATED := Event(EventId(2, 0), 1, 1, 0, OrderCreated("item", 1), COMMAND)
  const RESERVED := Event(EventId(1, 0), 1, 2, 0, InventoryReserved(1, "item", 1), COMMAND)
  const REJECTION := Plain(AggregateNotFound, No)
  const CONFLICT := Failure(PartiallyCommitted, Yes, [CREATED])

  function FirstWorker(e: Ending): string {
    if e.Rejects? then "first" else "worker"
  }

  function SecondWorker(e: Ending): string {
    if e.Rejects? then "second" else "worker"
  }

  /** The row after the first takeover, at clock 20, and after the second one, at clock 40. */
  function TakenOnce(e: Ending): Row {
    ABANDONED.(owner := Some(FirstWorker(e)), token := 2, deadline := Some(30))
  }

  function TakenTwice(e: Ending): Row {
    ABANDONED.(owner := Some(SecondWorker(e)), token := 3, deadline := Some(50))
  }

  ghost function Turned(d: Duo, turn: Turn): Duo {
    match turn
    case First(choice) =>
      var r := StepPc(COMMAND, d.first, d.shared, choice);
      d.(first := r.0, shared := r.1)
    case Second(choice) =>
      var r := StepPc(COMMAND, d.second, d.shared, choice);
      d.(second := r.0, shared := r.1)
    case FirstReadsLate =>
      if d.first.pc.ReadingBack? && d.shared.row.Some?
      then d.(first := LateReadBack(d.first, d.shared.row.value)) else d
  }

  /** The first call takes over and does not read back; the second takes over when that lease has run out, reads back at
      once and creates the order; only then does the first call learn a generation: the second one's. */
  function TurnAt(e: Ending, k: nat): Turn {
    if k <= 2 then First(At(20, IDLE))
    else if k <= 6 then Second(At(40, IDLE))
    else if k == 7 then FirstReadsLate
    else if k == 8 then Second(At(40, Commits(CREATED, 0)))
    else if k <= 10 then Second(At(40, IDLE))
    else if e.Rejects? then
      if k == 11 then First(At(40, ThrowsError(Plain(AggregateNotFound, Unsaid))))
      else if k == 12 then First(At(40, IDLE))
      else Second(At(40, IDLE))
    else First(At(40, if k == 11 then Commits(RESERVED, 1) else IDLE))
  }

  const IDLE := ThrowsError(UNCODED)

  function At(now: int, deed: Deed): Choice {
    Choice(now, Faultless, false, deed)
  }

  function LengthOf(e: Ending): nat {
    if e.Rejects? then 16 else 14
  }

  function FirstPc(e: Ending, k: nat): Pc {
    if k == 0 then Reserving
    else if k == 1 then Resolving(ABANDONED)
    else if k == 2 then TakingOver(ABANDONED)
    else if k <= 7 then ReadingBack
    else if k <= 11 then Running
    else if e.Rejects? then if k == 12 then Failing(3, REJECTION, []) else Ended(Thrown(REJECTION))
    else if k == 12 then Renewing(RESERVED, 1)
    else if k == 13 then Appending(RESERVED, 1)
    else Recording(RESERVED)
  }

  function SecondPc(e: Ending, k: nat): Pc {
    if k <= 3 then Reserving
    else if k == 4 then Resolving(TakenOnce(e))
    else if k == 5 then TakingOver(TakenOnce(e))
    else if k == 6 then ReadingBack
    else if k <= 8 then Running
    else if k == 9 then Renewing(CREATED, 0)
    else if k == 10 then Appending(CREATED, 0)
    else if k <= 13 || e.Writes? then Recording(CREATED)
    else if k == 14 then Reconciling(CONFLICT, [CREATED])
    else if k == 15 then Rereading(3, CONFLICT, [CREATED])
    else Ended(Thrown(REJECTION))
  }

  function FirstCall(e: Ending, k: nat): Call {
    Call(1, Some(KEY), REQUEST, FirstWorker(e), 10, if k <= 2 then None else if k <= 7 then Some(2) else Some(3),
         if k == 14 && e.Writes? then [RESERVED] else [], FirstPc(e, k), 0, 0, 0, 0)
  }

  function SecondCall(e: Ending, k: nat): Call {
    Call(2, Some(KEY), REQUEST, SecondWorker(e), 10, if k <= 5 then None else Some(3),
         if k <= 10 then [] else [CREATED], SecondPc(e, k), 0, 0, 0, 0)
  }

  function RowAt(e: Ending, k: nat): Row {
    if k <= 2 then ABANDONED
    else if k <= 5 then TakenOnce(e)
    else if k <= 12 || e.Writes? then TakenTwice(e)
    else TakenTwice(e).(status := Failed, error := Some(REJECTION), owner := None, deadline := None)
  }

  function LogAt(e: Ending, k: nat): seq<Event> {
    if k <= 10 then [] else if k == 14 && e.Writes? then [CREATED, RESERVED] else [CREATED]
  }

  function ChangesAt(e: Ending, k: nat): nat {
    if k <= 2 then 0
    else if k <= 5 then 1
    else if k <= 10 then 2
    else if k <= 12 || (e.Writes? && k == 13) then 3
    else 4
  }

  function DuoAt(e: Ending, k: nat): Duo {
    Duo(FirstCall(e, k), SecondCall(e, k), Shared(Some(RowAt(e, k)), LogAt(e, k), ChangesAt(e, k)))
  }

  ghost predicate Leads(e: Ending, k: nat, d: Duo, d': Duo) {
    Turned(d, TurnAt(e, k)) == d'
  }

  /** The turn leads from each state to the next. */
  ghost predicate Follows(e: Ending, k: nat) {
    Leads(e, k, DuoAt(e, k), DuoAt(e, k + 1))
  }

  lemma FirstTakesOver(e: Ending, k: nat)
    requires k <= 2
    ensures Follows(e, k)
  {
  }

  lemma SecondTakesOver(e: Ending, k: nat)
    requires 3 <= k <= 5
    ensures Follows(e, k)
  {
  }

  lemma BothReadBack(e: Ending, k: nat)
    requires 6 <= k <= 7
    ensures Follows(e, k)
  {
  }

  lemma SecondWrites(e: Ending, k: nat)
    requires 8 <= k <= 10
    ensures Follows(e, k)
  {
    assert Select([], OfAggregate(1)) == [];
    assert [] + [CREATED] == [CREATED];
  }

  lemma FirstRejects(k: nat)
    requires 11 <= k <= 12
    ensures Follows(Rejects, k)
  {
  }

  lemma SecondIsAnswered(k: nat)
    requires 13 <= k <= 15
    ensures Follows(Rejects, k)
  {
  }

  lemma FirstRenews(k: nat)
    requires 11 <= k <= 12
    ensures Follows(Writes, k)
  {
  }

  lemma ReservedAccepted()
    ensures AppendError([CREATED], FencingError(Some(TakenTwice(Writes)), Some(3)), RESERVED, 1) == None
  {
    SelectAppend([], CREATED, OfAggregate(1));
    assert [] + [CREATED] == [CREATED];
  }

  lemma FirstAppends()
    ensures Follows(Writes, 13)
  {
    ReservedAccepted();
    assert [CREATED] + [RESERVED] == [CREATED, RESERVED];
    assert [] + [RESERVED] == [RESERVED];
  }

  lemma EveryTurnFollows(e: Ending, k: nat)
    requires k < LengthOf(e)
    ensures Follows(e, k)
  {
    if k <= 2 { FirstTakesOver(e, k); }
    else if k <= 5 { SecondTakesOver(e, k); }
    else if k <= 7 { BothReadBack(e, k); }
    else if k <= 10 { SecondWrites(e, k); }
    else if e.Writes? { if k == 13 { FirstAppends(); } else { FirstRenews(k); } }
    else if k <= 12 { FirstRejects(k); }
    else { SecondIsAnswered(k); }
  }

  /** The states of the two calls and their store, turn by turn. */
  ghost predicate Story(e: Ending, states: seq<Duo>) {
    && |states| == LengthOf(e) + 1 && states[0] == DuoAt(e, 0)
    && forall k :: 0 <= k < LengthOf(e) ==> Leads(e, k, states[k], states[k + 1])
  }

  lemma StoryGoesOn(e: Ending, states: seq<Duo>, k: nat)
    requires Story(e, states) && k < LengthOf(e) && states[k] == DuoAt(e, k)
    ensures states[k + 1] == DuoAt(e, k + 1)
  {
    EveryTurnFollows(e, k);
  }

  lemma {:induction false} StoryIsTold(e: Ending, states: seq<Duo>, k: nat)
    requires Story(e, states) && k <= LengthOf(e)
    ensures states[k] == DuoAt(e, k)
  {
    if k > 0 {
      StoryIsTold(e, states, k - 1);
      StoryGoesOn(e, states, k - 1);
    }
  }

  /** Honest answers do not survive a late read-back: the first execution fails the row with a domain rejection, and the
      second one, whose event is in the log, is answered that nothing was committed. */
  lemma DishonestAfterLateReadBack(states: seq<Duo>)
    requires Story(Rejects, states)
    ensures var d := states[LengthOf(Rejects)];
            && d.second.pc == Ended(Thrown(REJECTION)) && REJECTION.committed == No
            && d.shared.log == [CREATED] && CREATED.id.issuer == d.second.id && CREATED.command == CommandOf(d.second)
  {
    StoryIsTold(Rejects, states, LengthOf(Rejects));
  }

  /** Nor does at most once, where two workers go by one name: two executions have written events of one command. */
  lemma TwiceAfterLateReadBack(states: seq<Duo>)
    requires Story(Writes, states)
    ensures var d := states[LengthOf(Writes)];
            && d.first.token == d.second.token == Some(3) && d.first.id != d.second.id
            && d.shared.log == [CREATED, RESERVED] && CREATED.command == RESERVED.command
            && CREATED.id.issuer == d.second.id && RESERVED.id.issuer == d.first.id
  {
    StoryIsTold(Writes, states, LengthOf(Writes));
  }

  /** Both stories exist: each turn of theirs is one the calls can take. */
  lemma StoriesExist(e: Ending, states: seq<Duo>)
    requires |states| == LengthOf(e) + 1 && forall k :: 0 <= k <= LengthOf(e) ==> states[k] == DuoAt(e, k)
    ensures Story(e, states)
  {
    forall k | 0 <= k < LengthOf(e) ensures Leads(e, k, states[k], states[k + 1]) {
      StoryHas(e, k, states[k], states[k + 1]);
    }
  }

  lemma StoryHas(e: Ending, k: nat, d: Duo, d': Duo)
    requires k < LengthOf(e) && d == DuoAt(e, k) && d' == DuoAt(e, k + 1)
    ensures Leads(e, k, d, d')
  {
    EveryTurnFollows(e, k);
  }

  /** It takes one name: whatever generation it read, a call gets no further than its renewal over a row that another
      worker owns, so it writes nothing. */
  lemma StrangersDoNotRenew(call: Call, s: Shared, ch: Choice)
    requires call.pc.Renewing? && s.row.Some? && s.row.value.owner != Some(call.worker)
    ensures !StepRenewing(call, s, ch).0.pc.Appending? && StepRenewing(call, s, ch).1 == s
  {
  }
}
