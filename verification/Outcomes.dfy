/** What undisturbed executions come to: nothing is refused that should be done, and every ending leaves the row and the
    answer it should. */
module Outcomes {
  import opened Events
  import opened StoreContracts
  import opened CommandRows
  import opened EventLog
  import opened Coordinator
  import opened OwnSteps
  import opened Runs
  import opened Progress

  /** A call without its counters. */
  function Bare(call: Call): Call {
    call.(rounds := 0, base := 0, own := 0, witnessed := 0)
  }

  /** What one keyed call has before it: itself, its row and the log. */
  datatype Scene = Scene(call: Call, row: Option<Row>, log: seq<Event>)

  ghost predicate Plays(w: World, x: Scene) {
    && x.call.key.Some? && x.call.id in w.calls && Bare(w.calls[x.call.id]) == x.call
    && RowOf(w, x.call.key) == x.row && w.log == x.log
  }

  /** One step, as the scene shows it. */
  lemma PlaysOn(w: World, x: Scene, ch: Choice, call': Call, s': Shared)
    requires Plays(w, x)
    requires var key := x.call.key; var s := View(w, key);
             && StepPc(CommandOf(x.call), w.calls[x.call.id], s, ch) == (call', s')
             && s.changes <= s'.changes && (s.row.Some? ==> s'.row.Some?)
             && call'.id == x.call.id && call'.key == key
    ensures Plays(Next(w, Take(x.call.id, ch)), Scene(Bare(call'), s'.row, s'.log))
  {
    TakeShows(w, x.call.id, x.call.key.value, ch, call', s');
  }

  function Quietly(now: int): Choice {
    Choice(now, Faultless, false, ThrowsError(UNCODED))
  }

  function Deeds(deed: Deed): Choice {
    Choice(0, Faultless, false, deed)
  }

  lemma UndisturbedOneMore(w: World, id: nat, choices: seq<Choice>, ch: Choice)
    ensures Undisturbed(w, id, choices + [ch]) == Next(Undisturbed(w, id, choices), Take(id, ch))
  {
    assert (choices + [ch])[..|choices|] == choices;
  }

  lemma {:induction false} UndisturbedOn(w: World, id: nat, first: seq<Choice>, more: seq<Choice>)
    ensures Undisturbed(w, id, first + more) == Undisturbed(Undisturbed(w, id, first), id, more)
  {
    if more == [] {
      assert first + more == first;
    } else {
      var shorter, last := more[..|more| - 1], more[|more| - 1];
      assert first + more == (first + shorter) + [last] && shorter + [last] == more;
      UndisturbedOn(w, id, first, shorter);
      UndisturbedOneMore(w, id, first + shorter, last);
      UndisturbedOneMore(Undisturbed(w, id, first), id, shorter, last);
    }
  }

  /** An execution between two of its callback's deeds: its generation is being processed, its own, and exactly
      booked. */
  ghost predicate InExecution(x: Scene) {
    && x.call.key.Some? && x.call.pc.Running? && x.call.token.Some? && x.row.Some? && x.call.worker != ""
    && WellFormedLog(x.log) && (forall i :: 0 <= i < |x.log| ==> ValidEvent(x.log[i]))
    && Select(x.log, OfCommand(CommandOf(x.call))) == x.call.committed
    && var row := x.row.value;
    && row.status == Processing && row.token == x.call.token.value && row.owner == Some(x.call.worker)
    && Covers(CommandOf(x.call), row.range, x.call.committed)
    && (row.range.Some? ==> row.aggregate == Some(row.range.value.aggregate))
  }

  /** One event to commit: at which clock its lease is renewed, and whether its append is acknowledged. */
  datatype Plan = Plan(event: Event, now: int, acknowledged: bool)

  /** The event may be committed next: the command's own, freshly numbered, in line with the aggregate's history and
      with the command's earlier events. */
  ghost predicate MayCommit(x: Scene, p: Plan) {
    && LeaseDeadline(p.now, x.call.ttl).Some?
    && p.event.command == CommandOf(x.call) && p.event.id.issuer == x.call.id
    && ValidEvent(p.event) && WellFormedLog(x.log + [p.event])
    && Contiguous(CommandOf(x.call), x.call.committed + [p.event])
  }

  /** Renewed, appended, booked. */
  function AfterCommit(x: Scene, p: Plan): Scene
    requires x.row.Some?
  {
    var committed := x.call.committed + [p.event];
    Scene(x.call.(committed := committed),
          Some(x.row.value.(deadline := Some(p.now + x.call.ttl), aggregate := Some(RangeOf(committed).aggregate),
                            range := Some(RangeOf(committed)))),
          x.log + [p.event])
  }

  function CommitChoices(p: Plan): seq<Choice> {
    [Deeds(Commits(p.event, p.event.sequence - 1)), Quietly(p.now),
     Choice(0, if p.acknowledged then Faultless else LosesAck, false, ThrowsError(UNCODED))]
    + (if p.acknowledged then [] else [Quietly(0)]) + [Quietly(0)]
  }

  function Renewed(x: Scene, now: int): Option<Row>
    requires x.row.Some?
  {
    Some(x.row.value.(deadline := Some(now + x.call.ttl)))
  }

  lemma CommitOpens(w: World, x: Scene, p: Plan)
    requires Plays(w, x) && InExecution(x) && MayCommit(x, p)
    ensures Plays(Next(w, Take(x.call.id, Deeds(Commits(p.event, p.event.sequence - 1)))), Renews(x, p))
  {
    FreshAmongOwn(x, p);
    var call := w.calls[x.call.id];
    var s := View(w, x.call.key);
    PlaysOn(w, x, Deeds(Commits(p.event, p.event.sequence - 1)),
            call.(pc := Pc.Renewing(p.event, p.event.sequence - 1)), s);
  }

  /** Distinct ids in the log make the event fresh among the command's. */
  lemma FreshAmongOwn(x: Scene, p: Plan)
    requires InExecution(x) && MayCommit(x, p)
    ensures !HasId(x.call.committed, p.event.id) && !HasId(x.log, p.event.id)
  {
    var longer := x.log + [p.event];
    forall i | 0 <= i < |x.log| ensures x.log[i].id != p.event.id {
      assert longer[i].id != longer[|x.log|].id;
    }
    forall i | 0 <= i < |x.call.committed| ensures x.call.committed[i].id != p.event.id {
      SelectMembers(x.log, OfCommand(CommandOf(x.call)), x.call.committed[i]);
    }
  }

  function Renews(x: Scene, p: Plan): Scene {
    x.(call := x.call.(pc := Pc.Renewing(p.event, p.event.sequence - 1)))
  }

  function Appends(x: Scene, p: Plan): Scene
    requires x.row.Some?
  {
    Scene(x.call.(pc := Pc.Appending(p.event, p.event.sequence - 1)), Renewed(x, p.now), x.log)
  }

  lemma CommitRenews(w: World, x: Scene, p: Plan)
    requires InExecution(x) && MayCommit(x, p) && Plays(w, Renews(x, p))
    ensures Plays(Next(w, Take(x.call.id, Quietly(p.now))), Appends(x, p))
  {
    var call := w.calls[x.call.id];
    var s := View(w, x.call.key);
    PlaysOn(w, Renews(x, p), Quietly(p.now), call.(pc := Pc.Appending(p.event, p.event.sequence - 1)),
            Write(s, Renewed(x, p.now)));
  }

  /** Before the pending append: the scene as it was between two deeds, but for the pending event and the lease. */
  ghost predicate IsAppending(x: Scene, p: Plan) {
    && x.call.pc == Pc.Appending(p.event, p.event.sequence - 1)
    && InExecution(x.(call := x.call.(pc := Running))) && MayCommit(x, p)
  }

  lemma AppendIsAccepted(x: Scene, p: Plan)
    requires IsAppending(x, p)
    ensures AppendError(x.log, FencingError(x.row, x.call.token), p.event, p.event.sequence - 1).None?
    ensures Select(x.log + [p.event], OfCommand(p.event.command)) == x.call.committed + [p.event]
  {
    var known := Select(x.log, OfAggregate(p.event.aggregate));
    SelectAppend(x.log, p.event, OfAggregate(p.event.aggregate));
    SelectAppend(x.log, p.event, OfCommand(p.event.command));
    assert Dense(Select(x.log + [p.event], OfAggregate(p.event.aggregate)));
    assert (known + [p.event])[|known|] == p.event;
    AppendAcceptsExactly(x.log, FencingError(x.row, x.call.token), p.event, p.event.sequence - 1);
  }

  function Confirming(x: Scene, p: Plan): Scene {
    Scene(x.call.(committed := x.call.committed + [p.event], pc := Pc.Recording(p.event)), x.row, x.log + [p.event])
  }

  function LookingFor(x: Scene, p: Plan): Scene {
    Scene(x.call.(pc := LookingUp(p.event, UNCODED)), x.row, x.log + [p.event])
  }

  lemma CommitAppends(w: World, x: Scene, p: Plan)
    requires Plays(w, x) && IsAppending(x, p)
    ensures Plays(Next(w, Take(x.call.id, CommitChoices(p)[2])),
                  if p.acknowledged then Confirming(x, p) else LookingFor(x, p))
  {
    AppendIsAccepted(x, p);
    var call := w.calls[x.call.id];
    var s := View(w, x.call.key);
    var s' := s.(log := s.log + [p.event], changes := s.changes + 1);
    PlaysOn(w, x, CommitChoices(p)[2],
            if p.acknowledged then Confirmed(call, p.event) else call.(pc := LookingUp(p.event, UNCODED)), s');
  }

  /** An append whose acknowledgement was lost is found in the log. */
  lemma CommitLooks(w: World, x: Scene, p: Plan)
    requires IsAppending(x, p) && Plays(w, LookingFor(x, p))
    ensures Plays(Next(w, Take(x.call.id, Quietly(0))), Confirming(x, p))
  {
    AppendIsAccepted(x, p);
    FreshAmongOwn(x.(call := x.call.(pc := Running)), p);
    FindByIdFresh(x.call.committed, p.event);
    var call := w.calls[x.call.id];
    PlaysOn(w, LookingFor(x, p), Quietly(0), Confirmed(call, p.event), View(w, x.call.key));
  }

  lemma CommitRecords(w: World, x: Scene, p: Plan)
    requires IsAppending(x, p) && Plays(w, Confirming(x, p))
    ensures Plays(Next(w, Take(x.call.id, Quietly(0))), Booked(x, p))
  {
    var call := w.calls[x.call.id];
    RecordsRange(x, p);
    PlaysOn(w, Confirming(x, p), Quietly(0), call.(pc := Running), Write(View(w, x.call.key), Booked(x, p).row));
  }

  function Booked(x: Scene, p: Plan): Scene
    requires x.row.Some?
  {
    var committed := x.call.committed + [p.event];
    Scene(x.call.(committed := committed, pc := Running),
          Some(x.row.value.(aggregate := Some(RangeOf(committed).aggregate), range := Some(RangeOf(committed)))),
          x.log + [p.event])
  }

  lemma RecordsRange(x: Scene, p: Plan)
    requires IsAppending(x, p)
    ensures Record(x.row, CommandOf(x.call), p.event, x.call.token) == (Booked(x, p).row, Done(()))
  {
    var committed := x.call.committed + [p.event];
    assert committed[|x.call.committed|] == p.event;
    if x.call.committed == [] {
      assert committed == [p.event];
    } else {
      assert committed[0] == x.call.committed[0] && committed[|x.call.committed| - 1].sequence
             == committed[0].sequence + (|x.call.committed| - 1);
      assert Ids(committed) == Ids(x.call.committed) + [p.event.id];
    }
  }

  lemma CommitReachesAppend(w: World, x: Scene, p: Plan, w1: World, w2: World)
    requires Plays(w, x) && InExecution(x) && MayCommit(x, p)
    requires w1 == Next(w, Take(x.call.id, Deeds(Commits(p.event, p.event.sequence - 1))))
    requires w2 == Next(w1, Take(x.call.id, Quietly(p.now)))
    ensures Plays(w2, Appends(x, p))
  {
    CommitOpens(w, x, p);
    CommitRenews(w1, x, p);
  }

  lemma CommitFinishes(w: World, x: Scene, p: Plan, w3: World, w4: World)
    requires Plays(w, x) && IsAppending(x, p)
    requires w3 == Next(w, Take(x.call.id, CommitChoices(p)[2]))
    requires w4 == if p.acknowledged then w3 else Next(w3, Take(x.call.id, Quietly(0)))
    ensures Plays(Next(w4, Take(x.call.id, Quietly(0))), Booked(x, p))
  {
    CommitAppends(w, x, p);
    if !p.acknowledged { CommitLooks(w3, x, p); }
    CommitRecords(w4, x, p);
  }

  /** One commit, from the callback's deed to the booking, whether or not its append was acknowledged. */
  lemma OneCommit(w: World, x: Scene, p: Plan)
    requires Plays(w, x) && InExecution(x) && MayCommit(x, p)
    ensures Plays(Undisturbed(w, x.call.id, CommitChoices(p)), AfterCommit(x, p)) && InExecution(AfterCommit(x, p))
  {
    var id, choices := x.call.id, CommitChoices(p);
    var w1 := Next(w, Take(id, choices[0]));
    var w2 := Next(w1, Take(id, choices[1]));
    var w3 := Next(w2, Take(id, choices[2]));
    var w4 := if p.acknowledged then w3 else Next(w3, Take(id, Quietly(0)));
    CommitReachesAppend(w, x, p, w1, w2);
    RenewedStillAppends(x, p, Appends(x, p));
    CommitFinishes(w2, Appends(x, p), p, w3, w4);
    BookedIsCommitted(x, p);
    FourOrFive(w, id, p, w1, w2, w3, w4);
    CommittedExecutes(x, p);
  }

  lemma BookedIsCommitted(x: Scene, p: Plan)
    requires x.row.Some? && x.call.pc.Running?
    ensures Booked(Appends(x, p), p) == AfterCommit(x, p)
  {
  }

  lemma RenewedStillAppends(x: Scene, p: Plan, x2: Scene)
    requires InExecution(x) && MayCommit(x, p)
    requires x2 == Scene(x.call.(pc := Pc.Appending(p.event, p.event.sequence - 1)), Renewed(x, p.now), x.log)
    ensures IsAppending(x2, p)
  {
  }

  lemma FourOrFive(w: World, id: nat, p: Plan, w1: World, w2: World, w3: World, w4: World)
    requires var choices := CommitChoices(p);
             && w1 == Next(w, Take(id, choices[0])) && w2 == Next(w1, Take(id, choices[1]))
             && w3 == Next(w2, Take(id, choices[2]))
             && w4 == if p.acknowledged then w3 else Next(w3, Take(id, Quietly(0)))
    ensures Undisturbed(w, id, CommitChoices(p)) == Next(w4, Take(id, Quietly(0)))
  {
    var choices := CommitChoices(p);
    assert Undisturbed(w, id, []) == w;
    UndisturbedOneMore(w, id, [], choices[0]);
    UndisturbedOneMore(w, id, [choices[0]], choices[1]);
    UndisturbedOneMore(w, id, [choices[0], choices[1]], choices[2]);
    assert [] + [choices[0]] == [choices[0]] && [choices[0]] + [choices[1]] == [choices[0], choices[1]];
    var three := [choices[0], choices[1], choices[2]];
    assert [choices[0], choices[1]] + [choices[2]] == three;
    UndisturbedOneMore(w, id, three, Quietly(0));
    UndisturbedOneMore(w, id, three + [Quietly(0)], Quietly(0));
    assert choices == if p.acknowledged then three + [Quietly(0)] else three + [Quietly(0)] + [Quietly(0)];
  }

  lemma CommittedExecutes(x: Scene, p: Plan)
    requires InExecution(x) && MayCommit(x, p)
    ensures InExecution(AfterCommit(x, p))
  {
    SelectAppend(x.log, p.event, OfCommand(CommandOf(x.call)));
  }

  function EventsOfPlans(plans: seq<Plan>): (events: seq<Event>)
    ensures |events| == |plans|
  {
    seq(|plans|, i requires 0 <= i < |plans| => plans[i].event)
  }

  /** All the events may be committed, one after the other: stated about the log and the command's events at the end. */
  ghost predicate MayCommitAll(x: Scene, plans: seq<Plan>) {
    var events := EventsOfPlans(plans);
    && (forall i :: 0 <= i < |plans| ==>
          LeaseDeadline(plans[i].now, x.call.ttl).Some? && plans[i].event.id.issuer == x.call.id
          && ValidEvent(plans[i].event))
    && WellFormedLog(x.log + events)
    && (events != [] ==> Contiguous(CommandOf(x.call), x.call.committed + events))
  }

  /** Log and command have grown by exactly the events, the range is exact, and the lease runs from the last renewal. */
  function AfterCommits(x: Scene, plans: seq<Plan>): Scene
    requires x.row.Some?
  {
    if plans == [] then x else
      var events := EventsOfPlans(plans);
      var committed := x.call.committed + events;
      Scene(x.call.(committed := committed),
            Some(x.row.value.(deadline := Some(plans[|plans| - 1].now + x.call.ttl),
                              aggregate := Some(RangeOf(committed).aggregate), range := Some(RangeOf(committed)))),
            x.log + events)
  }

  function AllChoices(plans: seq<Plan>): seq<Choice> {
    if plans == [] then [] else AllChoices(plans[..|plans| - 1]) + CommitChoices(plans[|plans| - 1])
  }

  lemma WellFormedPrefix(log: seq<Event>, longer: seq<Event>)
    requires WellFormedLog(longer) && log <= longer
    ensures WellFormedLog(log)
  {
    forall a ensures Dense(Select(log, OfAggregate(a))) && Chronological(Select(log, OfAggregate(a))) {
      SelectPrefix(log, longer, OfAggregate(a));
      var part, all := Select(log, OfAggregate(a)), Select(longer, OfAggregate(a));
      assert Dense(all) && Chronological(all) && forall i :: 0 <= i < |part| ==> part[i] == all[i];
    }
    assert forall i :: 0 <= i < |log| ==> log[i] == longer[i];
  }

  lemma AfterCommitsGrows(x: Scene, plans: seq<Plan>)
    requires x.row.Some?
    ensures AfterCommits(x, plans).log == x.log + EventsOfPlans(plans)
    ensures AfterCommits(x, plans).call == x.call.(committed := x.call.committed + EventsOfPlans(plans))
    ensures AfterCommits(x, plans).row.Some?
  {
    assert x.log + [] == x.log && x.call.committed + [] == x.call.committed;
  }

  lemma OneMorePlan(plans: seq<Plan>, log: seq<Event>)
    requires plans != []
    ensures log + EventsOfPlans(plans) == log + EventsOfPlans(plans[..|plans| - 1]) + [plans[|plans| - 1].event]
  {
    assert EventsOfPlans(plans) == EventsOfPlans(plans[..|plans| - 1]) + [plans[|plans| - 1].event];
  }

  /** All but the last may be committed first. */
  lemma MayCommitShorter(x: Scene, plans: seq<Plan>)
    requires InExecution(x) && MayCommitAll(x, plans) && plans != []
    ensures MayCommitAll(x, plans[..|plans| - 1])
    ensures MayCommit(AfterCommits(x, plans[..|plans| - 1]), plans[|plans| - 1])
  {
    var shorter, last := plans[..|plans| - 1], plans[|plans| - 1];
    AfterCommitsGrows(x, shorter);
    OneMorePlan(plans, x.log);
    OneMorePlan(plans, x.call.committed);
    WellFormedPrefix(x.log + EventsOfPlans(shorter), x.log + EventsOfPlans(plans));
    var committed := x.call.committed + EventsOfPlans(plans);
    ContiguousPrefix(CommandOf(x.call), x.call.committed + EventsOfPlans(shorter), last.event);
  }

  lemma ContiguousPrefix(c: CommandId, events: seq<Event>, event: Event)
    requires Contiguous(c, events + [event])
    ensures events != [] ==> Contiguous(c, events)
    ensures event.command == c
  {
    assert (events + [event])[|events|] == event;
    assert forall i :: 0 <= i < |events| ==> (events + [event])[i] == events[i];
  }

  lemma OneMoreCommitted(x: Scene, plans: seq<Plan>)
    requires x.row.Some? && plans != []
    ensures AfterCommit(AfterCommits(x, plans[..|plans| - 1]), plans[|plans| - 1]) == AfterCommits(x, plans)
  {
    AfterCommitsGrows(x, plans[..|plans| - 1]);
    AfterCommitsGrows(x, plans);
    OneMorePlan(plans, x.log);
    OneMorePlan(plans, x.call.committed);
  }

  /** Any number of commits. */
  lemma {:induction false} CommitsAll(w: World, x: Scene, plans: seq<Plan>)
    requires Plays(w, x) && InExecution(x) && MayCommitAll(x, plans)
    ensures Plays(Undisturbed(w, x.call.id, AllChoices(plans)), AfterCommits(x, plans))
    ensures InExecution(AfterCommits(x, plans))
  {
    if plans != [] {
      var shorter, last := plans[..|plans| - 1], plans[|plans| - 1];
      MayCommitShorter(x, plans);
      OneMoreCommitted(x, plans);
      CommitsAll(w, x, shorter);
      OneCommit(Undisturbed(w, x.call.id, AllChoices(shorter)), AfterCommits(x, shorter), last);
      UndisturbedOn(w, x.call.id, AllChoices(shorter), CommitChoices(last));
    }
  }
}
