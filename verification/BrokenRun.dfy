/** A run that breaks a command's history while its lease runs: another command writes to the same aggregate between two
    of its events. The retry that then fails the live row is no hypothetical. */
module BrokenRun {
  import opened Events
  import opened StoreContracts
  import opened CommandRows
  import opened EventLog
  import opened Coordinator
  import opened Runs
  import opened LiveLeases
  import opened ExampleRun

  const SECOND := Event(EventId(1, 0), 1, 2, 6, InventoryReserved(1, "item", 1), Operation(1))
  const THIRD := Event(EventId(0, 1), 1, 3, 7, InventoryReleased(1, None), Key(KEY))

  /** The run goes on where the first call has created its order: a call without a key appends, then the first again. */
  function FurtherMove(k: nat): Move {
    if k == 0 then Begin(1, None, REQUEST, "other", 10)
    else Take(MoverAt(k), DoingAt(k).choice)
  }

  function MoverAt(k: nat): nat {
    if k <= 2 then 1 else 0
  }

  function DoingAt(k: nat): Move {
    if k == 1 then Doing(Commits(SECOND, 1)) else if k == 3 then Doing(Commits(THIRD, 2)) else AT_EIGHT
  }

  const AT_EIGHT := Take(0, Choice(8, Faultless, false, IDLE))
  const EXTENDED := RECORDED.(deadline := Some(18))

  const FURTHER: nat := 6

  /** The call with the key: it stands still until the other one has written. */
  function Owner(k: nat): Call {
    CallAt(7).(pc := if k <= 3 then Running
                     else if k == 4 then Renewing(THIRD, 2)
                     else if k == 5 then Appending(THIRD, 2)
                     else Recording(THIRD),
               committed := if k <= 5 then [CREATED] else [CREATED, THIRD],
               own := OwnChanges(k))
  }

  /** The owner's changes: four before, its renewal at clock 8, its append. */
  function OwnChanges(k: nat): nat {
    if k <= 4 then 4 else if k == 5 then 5 else 6
  }

  function RowThen(k: nat): Row {
    if k <= 4 then RECORDED else EXTENDED
  }

  function Other(k: nat): Call {
    Call(1, None, REQUEST, "other", 10, None, if k <= 2 then [] else [SECOND],
         if k == 2 then Appending(SECOND, 1) else Running, 0, 0, if k <= 2 then 0 else 1, 0)
  }

  function FurtherLog(k: nat): seq<Event> {
    if k <= 2 then [CREATED] else if k <= 5 then [CREATED, SECOND] else [CREATED, SECOND, THIRD]
  }

  function FurtherAuthors(k: nat): seq<Author> {
    if k <= 2 then [Author(0, 1)] else if k <= 5 then [Author(0, 1), Author(1, 0)]
    else [Author(0, 1), Author(1, 0), Author(0, 1)]
  }

  function FurtherWorld(k: nat): World {
    World(map[KEY := RowThen(k)], FurtherLog(k), FurtherAuthors(k),
          if k == 0 then map[0 := Owner(k)] else map[0 := Owner(k), 1 := Other(k)],
          map[KEY := OwnChanges(k)])
  }

  function Moving(k: nat): Call {
    if MoverAt(k) == 1 then Other(k) else Owner(k)
  }

  /** The moving call after its step. */
  function Moved(k: nat): Call {
    if MoverAt(k) == 1 then Other(k + 1) else Owner(k + 1)
  }

  function SeenAt(k: nat, mover: nat): Shared {
    if mover == 1 then Shared(None, FurtherLog(k), 0)
    else Shared(Some(RowThen(k)), FurtherLog(k), OwnChanges(k))
  }

  /** The view after the step: a call without a key counts from none. */
  function LeftAt(k: nat): Shared {
    if MoverAt(k) == 1 then Shared(None, FurtherLog(k + 1), if k == 2 then 1 else 0) else SeenAt(k + 1, 0)
  }

  lemma OtherCommits()
    ensures StepRunning(Operation(1), Other(1), SeenAt(1, 1), DoingAt(1).choice) == Other(2)
  {
  }

  lemma SecondAccepted()
    ensures AppendError([CREATED], FencingError(None, None), SECOND, 1) == None
  {
    SelectAppend([], CREATED, OfAggregate(1));
    assert [] + [CREATED] == [CREATED];
  }

  lemma OtherAppends()
    ensures StepAppending(Other(2), SeenAt(2, 1), DoingAt(2).choice) == (Other(3).(own := 0), LeftAt(2))
  {
    SecondAccepted();
    assert FurtherLog(2) + [SECOND] == FurtherLog(3);
    assert [] + [SECOND] == [SECOND];
  }

  lemma OwnerCommits()
    ensures StepRunning(Key(KEY), Owner(3), SeenAt(3, 0), DoingAt(3).choice) == Owner(4)
  {
  }

  lemma OwnerRenews()
    ensures StepRenewing(Owner(4), SeenAt(4, 0), DoingAt(4).choice) == (Owner(5).(own := 4), SeenAt(5, 0))
  {
  }

  lemma ThirdAccepted()
    ensures AppendError([CREATED, SECOND], FencingError(Some(EXTENDED), Some(1)), THIRD, 2) == None
  {
    SelectAppend([], CREATED, OfAggregate(1));
    assert [] + [CREATED] == [CREATED];
    SelectAppend([CREATED], SECOND, OfAggregate(1));
    assert [CREATED] + [SECOND] == [CREATED, SECOND];
  }

  lemma OwnerAppends()
    ensures StepAppending(Owner(5), SeenAt(5, 0), DoingAt(5).choice) == (Owner(6).(own := 5), SeenAt(6, 0))
  {
    ThirdAccepted();
    assert FurtherLog(5) + [THIRD] == FurtherLog(6);
    assert [CREATED] + [THIRD] == [CREATED, THIRD];
  }

  /** Every step computes the next call and view; its own changes are counted after it. */
  lemma FurtherSteps(k: nat)
    requires 1 <= k < FURTHER
    ensures StepPc(CommandOf(Moving(k)), Moving(k), SeenAt(k, MoverAt(k)), DoingAt(k).choice)
            == (Moved(k).(own := Moving(k).own), LeftAt(k))
  {
    if k == 1 { OtherCommits(); }
    else if k == 2 { OtherAppends(); }
    else if k == 3 { OwnerCommits(); }
    else if k == 4 { OwnerRenews(); }
    else { OwnerAppends(); }
  }

  lemma PutsCalls(k: nat)
    requires 1 <= k < FURTHER
    ensures FurtherWorld(k).calls[MoverAt(k) := Moved(k)] == FurtherWorld(k + 1).calls
  {
    if MoverAt(k) == 1 {
      assert Owner(k) == Owner(k + 1);
    } else {
      assert Other(k) == Other(k + 1);
    }
  }

  lemma FurtherPuts(k: nat)
    requires 1 <= k < FURTHER
    ensures Put(FurtherWorld(k), Moving(k), Moved(k), LeftAt(k)) == FurtherWorld(k + 1)
  {
    PutsCalls(k);
    PutsRow(k);
    PutsAuthor(k);
  }

  lemma PutsRow(k: nat)
    requires 1 <= k < FURTHER
    ensures var w, next := FurtherWorld(k), FurtherWorld(k + 1);
            && (if MoverAt(k) == 0 then w.rows[KEY := LeftAt(k).row.value] else w.rows) == next.rows
            && (if MoverAt(k) == 0 then w.changes[KEY := LeftAt(k).changes] else w.changes) == next.changes
  {
  }

  lemma PutsAuthor(k: nat)
    requires 1 <= k < FURTHER
    ensures FurtherAuthors(k + 1)
            == if |FurtherLog(k + 1)| > |FurtherLog(k)|
               then FurtherAuthors(k) + [Author(MoverAt(k), if MoverAt(k) == 0 then 1 else 0)] else FurtherAuthors(k)
  {
  }

  lemma FurtherVisits(k: nat)
    requires 1 <= k < FURTHER
    ensures Next(FurtherWorld(k), FurtherMove(k)) == FurtherWorld(k + 1)
  {
    FurtherSteps(k);
    FurtherPuts(k);
    TakePuts(FurtherWorld(k), MoverAt(k), DoingAt(k).choice, Moving(k), SeenAt(k, MoverAt(k)),
             Moved(k).(own := Moving(k).own), LeftAt(k));
  }

  lemma OtherBegins()
    ensures WorldAt(7) == FurtherWorld(0)
    ensures Next(WorldAt(7), FurtherMove(0)) == FurtherWorld(1)
  {
    assert Next(WorldAt(7), FurtherMove(0)).calls == FurtherWorld(1).calls;
  }

  lemma {:induction false} LivesFurther(k: nat)
    requires 1 <= k <= FURTHER
    ensures Reached(FurtherWorld(k))
  {
    if k == 1 {
      Lives(7);
      OtherBegins();
      ReachedNext(WorldAt(7), FurtherMove(0), FurtherWorld(1));
    } else {
      LivesFurther(k - 1);
      FurtherVisits(k - 1);
      ReachedNext(FurtherWorld(k - 1), FurtherMove(k - 1), FurtherWorld(k));
    }
  }

  lemma OwnEvents()
    ensures Select([CREATED, SECOND, THIRD], OfCommand(Key(KEY))) == [CREATED, THIRD]
  {
    var c := OfCommand(Key(KEY));
    SelectAppend([], CREATED, c);
    assert [] + [CREATED] == [CREATED];
    SelectAppend([CREATED], SECOND, c);
    assert [CREATED] + [SECOND] == [CREATED, SECOND];
    SelectAppend([CREATED, SECOND], THIRD, c);
    assert [CREATED, SECOND] + [THIRD] == [CREATED, SECOND, THIRD];
  }

  /** A reachable world whose processing row is leased until 18, and whose command's events are 1 and 3. */
  lemma Breaks(w: World)
    requires w == FurtherWorld(FURTHER)
    ensures Reached(w) && w.rows == map[KEY := EXTENDED] && EXTENDED.status == Processing && !Expired(EXTENDED, 17)
    ensures EventsIn(w, Key(KEY)) == [CREATED, THIRD] && !Contiguous(Key(KEY), [CREATED, THIRD])
  {
    LivesFurther(FURTHER);
    OwnEvents();
    assert [CREATED, THIRD][1] == THIRD;
  }

  /** There a newcomer ends the owner's live generation at clock 17. */
  lemma ALiveGenerationIsEnded(w: World, begin: Move)
    requires w == FurtherWorld(FURTHER) && begin == Begin(2, Some(KEY), REQUEST, "third", 10)
    ensures var ch := Choice(17, Faultless, false, IDLE);
            RowOf(Next(Retried(w, begin, ch, ch), Take(2, ch)), Some(KEY))
            == Some(EXTENDED.(status := Status.Failed,
                              error := Some(Inconsistent(HistoryInconsistent, [CREATED, THIRD])),
                              owner := None, deadline := None))
  {
    Breaks(w);
    var ch := Choice(17, Faultless, false, IDLE);
    BrokenRowsAreFailedAtAnyClock(w, begin, EXTENDED, [CREATED, THIRD], ch, ch, ch);
  }
}
