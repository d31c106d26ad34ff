/** One whole life of a command, step by step: the worlds the theorems speak about are inhabited. */
module ExampleRun {
  import opened Events
  import opened Projection
  import opened StoreContracts
  import opened CommandRows
  import opened EventLog
  import opened Receipts
  import opened Coordinator
  import opened Runs

  const KEY: CommandKey := "key"
  const REQUEST := Request(CreateOrder, "payload")
  const CREATED := Event(EventId(0, 0), 1, 1, 3, OrderCreated("item", 1), Key(KEY))
  const STATE := State(1, 1, Active, false, None, Some(Order(1, "item", 1, OrderIsCreated, 3, None, None)), None, None)
  const RESULT := Result(1, Some(STATE), None, None)
  const RECEIPT := Receipt(1, EffectEvents, Some(Anchor(1, 1, Some(EventId(0, 0)))))

  const RESERVED := FreshRow(REQUEST, Some("worker"), 1, Some(10))
  const RENEWED := RESERVED.(deadline := Some(15))
  const RECORDED := RENEWED.(aggregate := Some(1), range := Some(Range(1, 1, 1, [EventId(0, 0)])))
  const COMPLETED :=
    RECORDED.(status := Finished, result := Some(RESULT), receipt := Some(RECEIPT), owner := None, deadline := None)

  const IDLE := ThrowsError(UNCODED)

  function Doing(deed: Deed): Move {
    Take(0, Choice(0, Faultless, false, deed))
  }

  /** The lease is renewed at clock 5, before it would run out at 10. */
  const RENEWING := Take(0, Choice(5, Faultless, false, IDLE))

  /** Reserve, find nothing, create the order, renew, append, record, answer, complete: the moves, by number. */
  function MoveAt(k: nat): Move {
    if k == 0 then Begin(0, Some(KEY), REQUEST, "worker", 10)
    else if k == 3 then Doing(Commits(CREATED, 0))
    else if k == 4 then RENEWING
    else if k == 7 then Doing(Answers(RESULT, 1, 1))
    else Doing(IDLE)
  }

  const LENGTH: nat := 9

  /** Where the call stands before each move; every change so far was its own. */
  function PcAt(k: nat): Pc {
    if k <= 1 then Reserving
    else if k == 2 then CheckingNew
    else if k == 3 then Running
    else if k == 4 then Renewing(CREATED, 0)
    else if k == 5 then Appending(CREATED, 0)
    else if k == 6 then Recording(CREATED)
    else if k == 7 then Running
    else if k == 8 then Completing(RESULT, RECEIPT)
    else Ended(Answer(RESULT))
  }

  function RowAt(k: nat): Option<Row> {
    if k <= 1 then None
    else if k <= 4 then Some(RESERVED)
    else if k <= 6 then Some(RENEWED)
    else if k <= 8 then Some(RECORDED)
    else Some(COMPLETED)
  }

  function LogAt(k: nat): seq<Event> {
    if k <= 5 then [] else [CREATED]
  }

  function ChangesAt(k: nat): nat {
    if k <= 1 then 0
    else if k <= 4 then 1
    else if k == 5 then 2
    else if k == 6 then 3
    else if k <= 8 then 4
    else 5
  }

  function CallAt(k: nat): Call {
    Call(0, Some(KEY), REQUEST, "worker", 10, if k <= 1 then None else Some(1), LogAt(k), PcAt(k),
         0, 0, ChangesAt(k), 0)
  }

  function SharedAt(k: nat): Shared {
    Shared(RowAt(k), LogAt(k), ChangesAt(k))
  }

  /** The world before each move. */
  function WorldAt(k: nat): World {
    if k == 0 then EMPTY
    else if k == 1 then World(map[], [], [], map[0 := CallAt(k)], map[])
    else World(map[KEY := RowAt(k).value], LogAt(k), if LogAt(k) == [] then [] else [Author(0, 1)],
               map[0 := CallAt(k)], map[KEY := ChangesAt(k)])
  }

  lemma Reserves()
    ensures StepReserving(CallAt(1), SharedAt(1), Doing(IDLE).choice) == (CallAt(2).(own := 0), SharedAt(2))
  {
  }

  lemma Opens()
    ensures StepCheckingNew(Key(KEY), CallAt(2), SharedAt(2), Doing(IDLE).choice) == CallAt(3)
  {
  }

  lemma Creates()
    ensures StepRunning(Key(KEY), CallAt(3), SharedAt(3), Doing(Commits(CREATED, 0)).choice) == CallAt(4)
  {
  }

  lemma Renews()
    ensures StepRenewing(CallAt(4), SharedAt(4), RENEWING.choice) == (CallAt(5).(own := 1), SharedAt(5))
  {
  }

  lemma Accepted()
    ensures AppendError([], FencingError(Some(RENEWED), Some(1)), CREATED, 0) == None
  {
  }

  lemma Appends()
    ensures StepAppending(CallAt(5), SharedAt(5), Doing(IDLE).choice) == (CallAt(6).(own := 2), SharedAt(6))
  {
    Accepted();
    assert LogAt(5) + [CREATED] == LogAt(6);
    assert AppendWith(CallAt(5), SharedAt(5), Faultless, None) == (CallAt(6).(own := 2), SharedAt(6));
  }

  lemma Records()
    ensures StepRecording(Key(KEY), CallAt(6), SharedAt(6), Doing(IDLE).choice) == (CallAt(7).(own := 3), SharedAt(7))
  {
    assert Ids([CREATED]) == [EventId(0, 0)];
  }

  lemma CreatedProjects()
    ensures Known([CREATED], 1) == [CREATED] && Project([CREATED]) == Returns(Some(STATE))
    ensures [CREATED][..1] == [CREATED]
  {
    SelectAppend([], CREATED, OfAggregate(1));
    assert [] + [CREATED] == [CREATED];
    ProjectFirst(CREATED);
  }

  lemma AnswerAccepted()
    ensures ValidateResult(RESULT, [CREATED]) == Anchored(RECEIPT.anchor)
    ensures ReadFrom(RESULT, Known([CREATED], 1), 1, 1)
  {
    CreatedProjects();
    assert FindSequence([CREATED], 1) == Some(CREATED);
  }

  lemma AnswersValidly()
    ensures StepRunning(Key(KEY), CallAt(7), SharedAt(7), Doing(Answers(RESULT, 1, 1)).choice) == CallAt(8)
  {
    AnswerAccepted();
  }

  lemma Finishes()
    ensures StepCompleting(CallAt(8), SharedAt(8), Doing(IDLE).choice) == (CallAt(9).(own := 4), SharedAt(9))
  {
  }

  /** Every step computes the next one's call and view. */
  lemma Steps(k: nat)
    requires 1 <= k < LENGTH
    ensures StepPc(Key(KEY), CallAt(k), SharedAt(k), MoveAt(k).choice)
            == (CallAt(k + 1).(own := ChangesAt(k)), SharedAt(k + 1))
  {
    if k == 1 { Reserves(); }
    else if k == 2 { Opens(); }
    else if k == 3 { Creates(); }
    else if k == 4 { Renews(); }
    else if k == 5 { Appends(); }
    else if k == 6 { Records(); }
    else if k == 7 { AnswersValidly(); }
    else { Finishes(); }
  }

  lemma Sees(k: nat)
    requires 1 <= k < LENGTH
    ensures View(WorldAt(k), Some(KEY)) == SharedAt(k)
  {
  }

  lemma Puts(k: nat)
    requires 1 <= k < LENGTH
    ensures Put(WorldAt(k), CallAt(k), CallAt(k + 1), SharedAt(k + 1)) == WorldAt(k + 1)
  {
    var w, next := Put(WorldAt(k), CallAt(k), CallAt(k + 1), SharedAt(k + 1)), WorldAt(k + 1);
    assert w.rows == next.rows;
    assert w.calls == next.calls;
    assert w.changes == next.changes;
  }

  lemma Begins()
    ensures Next(WorldAt(0), MoveAt(0)) == WorldAt(1)
  {
  }

  lemma Visits(k: nat)
    requires 1 <= k < LENGTH
    ensures Next(WorldAt(k), MoveAt(k)) == WorldAt(k + 1)
  {
    Steps(k);
    Sees(k);
    Puts(k);
    TakePuts(WorldAt(k), 0, MoveAt(k).choice, CallAt(k), SharedAt(k), CallAt(k + 1).(own := ChangesAt(k)),
             SharedAt(k + 1));
  }

  lemma LivesFirst()
    ensures Reached(WorldAt(1))
  {
    assert History([EMPTY]);
    Begins();
    ReachedNext(WorldAt(0), MoveAt(0), WorldAt(1));
  }

  lemma LivesOn(k: nat)
    requires 1 <= k < LENGTH && Reached(WorldAt(k))
    ensures Reached(WorldAt(k + 1))
  {
    Visits(k);
    ReachedNext(WorldAt(k), MoveAt(k), WorldAt(k + 1));
  }

  /** A run visits these worlds one after the other. */
  lemma {:induction false} Lives(k: nat)
    requires 1 <= k <= LENGTH
    ensures Reached(WorldAt(k))
  {
    if k == 1 {
      LivesFirst();
    } else {
      Lives(k - 1);
      LivesOn(k - 1);
    }
  }

  /** In the last one the command is completed, by one call's own steps: completed commands are reachable. */
  lemma Completes(w: World)
    requires w == WorldAt(LENGTH)
    ensures Reached(w) && w.rows == map[KEY := COMPLETED] && w.log == [CREATED]
    ensures 0 in w.calls && w.calls[0].pc == Ended(Answer(RESULT))
  {
    Lives(LENGTH);
  }
}
