/** An engine that nobody disturbs, step by step: it records exactly the events that continue the history and that the
    store accepts, and leaves the view as the replay. */
module EngineAlone {
  import opened Events
  import opened Projection
  import opened EventLog
  import opened Receipts
  import opened Views
  import opened Engine
  import opened EngineRuns

  /** Every view is well shaped and filed under its own aggregate. */
  ghost predicate ViewsValid(views: map<int, State>) {
    forall a :: a in views ==> ValidState(views[a]) && views[a].aggregate == a
  }

  lemma {:induction false} RunViewsValid(moves: seq<Move>)
    ensures ViewsValid(Run(moves).views)
  {
    if moves != [] {
      RunViewsValid(moves[..|moves| - 1]);
    }
  }

  /** Where the engine, the views and the log are after `steps` steps of nobody but this engine. */
  function Solo(s: System, at: Progress, wish: Wish, steps: nat): (Progress, map<int, State>, seq<Event>)
    decreases steps
  {
    if steps == 0 then (at, s.views, s.log)
    else var r := Stepped(s, at, wish); Solo(System(r.2, r.1, s.engines), r.0, wish, steps - 1)
  }

  function Repeated(engine: nat, wish: Wish, steps: nat): seq<Move> {
    seq(steps, i => Steps(engine, wish))
  }

  function After(s: System, moves: seq<Move>): System {
    if moves == [] then s else Next(After(s, moves[..|moves| - 1]), moves[|moves| - 1])
  }

  function Standing(s: System, engine: nat, at: Progress): System {
    s.(engines := s.engines[engine := at])
  }

  lemma {:induction false} AfterIsSolo(s: System, engine: nat, at: Progress, wish: Wish, steps: nat)
    ensures var r := Solo(s, at, wish, steps);
            After(Standing(s, engine, at), Repeated(engine, wish, steps))
            == Standing(System(r.2, r.1, s.engines), engine, r.0)
    decreases steps
  {
    if steps > 0 {
      var r := Stepped(s, at, wish);
      var next := System(r.2, r.1, s.engines);
      AfterIsSolo(next, engine, r.0, wish, steps - 1);
      FirstStep(Standing(s, engine, at), engine, wish, steps);
      StandingSteps(s, engine, at, wish);
    }
  }

  lemma StandingSteps(s: System, engine: nat, at: Progress, wish: Wish)
    ensures var r := Stepped(s, at, wish);
            Next(Standing(s, engine, at), Steps(engine, wish)) == Standing(System(r.2, r.1, s.engines), engine, r.0)
  {
    assert s.engines[engine := at][engine := Stepped(s, at, wish).0] == s.engines[engine := Stepped(s, at, wish).0];
  }

  lemma {:induction false} FirstStep(s: System, engine: nat, wish: Wish, steps: nat)
    requires steps > 0
    ensures After(s, Repeated(engine, wish, steps))
            == After(Next(s, Steps(engine, wish)), Repeated(engine, wish, steps - 1))
  {
    var moves := Repeated(engine, wish, steps);
    assert moves[..steps - 1] == Repeated(engine, wish, steps - 1);
    if steps > 1 {
      FirstStep(s, engine, wish, steps - 1);
      assert Repeated(engine, wish, steps - 1)[..steps - 2] == Repeated(engine, wish, steps - 2);
    } else {
      assert After(s, moves[..0]) == s;
    }
  }

  lemma {:induction false} IdleStays(s: System, wish: Wish, steps: nat)
    ensures Solo(s, Idle, wish, steps) == (Idle, s.views, s.log)
  {
    if steps > 0 { IdleStays(s, wish, steps - 1); }
  }

  /** What is left of a step budget, after a step. */
  lemma SoloStep(s: System, at: Progress, wish: Wish, steps: nat, at': Progress, s': System)
    requires steps > 0 && Stepped(s, at, wish) == (at', s'.views, s'.log) && s'.engines == s.engines
    ensures Solo(s, at, wish, steps) == Solo(s', at', wish, steps - 1)
  {
  }

  /** The system with one view replaced. */
  function Viewed(s: System, a: int, state: State): System {
    s.(views := s.views[a := state])
  }

  /** The view after the authoritative read. */
  function Refreshed(s: System, a: int): System {
    var replayed := Project(Known(s.log, a));
    if replayed.Returns? && replayed.state.Some? then Viewed(s, a, replayed.state.value) else s
  }

  /** The authoritative read ends with the replay, and has stored it if it is one; it fails if the replay does. */
  lemma ReadsAlone(s: System, a: int, wish: Wish)
    requires ViewsValid(s.views)
    ensures var replayed := Project(Known(s.log, a));
            if replayed.Throws? then Solo(s, Observing(a, s.log), wish, 9) == (Idle, s.views, s.log)
            else exists steps: nat :: 6 <= steps <= 7 &&
                   Solo(s, Observing(a, s.log), wish, 9)
                   == Solo(Refreshed(s, a), Applying(a, s.log, replayed.state), wish, steps)
  {
    var view := ViewOf(s.views, a);
    var at := Comparing(a, s.log, view);
    SoloStep(s, Observing(a, s.log), wish, 9, at, s);
    SoloStep(s, at, wish, 8, Compared(s, at), s);
    var replayed := Project(Known(s.log, a));
    if replayed.Throws? {
      IdleStays(s, wish, 7);
    } else if replayed.state.None? || view == replayed.state {
      assert Refreshed(s, a).views == s.views;
      assert Compared(s, at) == Applying(a, s.log, replayed.state);
    } else {
      var state := replayed.state.value;
      ReplayIsSwappable(s.log, a, view);
      assert Compared(s, at) == Writing(a, Validating(s.log), view, state);
      SoloStep(s, Writing(a, Validating(s.log), view, state), wish, 7, Applying(a, s.log, Some(state)),
               Viewed(s, a, state));
      assert Refreshed(s, a) == Viewed(s, a, state);
    }
  }

  /** The event the engine makes of its wish. */
  function Wished(wish: Wish, a: int, log: seq<Event>): Event {
    Stamped(wish.id, a, wish.fact, wish.now, wish.command, log)
  }

  /** The event is appended: it continues the history, and the store accepts it. */
  ghost predicate IsRecorded(s: System, a: int, wish: Wish) {
    var e := Wished(wish, a, s.log);
    Continues(s.log, e) && AppendError(s.log, wish.fencing, e, e.sequence - 1).None?
  }

  function WithLog(s: System, e: Event): System {
    s.(log := s.log + [e])
  }

  lemma AppliesAlone(s: System, a: int, wish: Wish, steps: nat)
    requires ViewsValid(s.views) && 6 <= steps && Project(Known(s.log, a)).Returns?
    requires var state := Project(Known(s.log, a)).state; state.Some? ==> ViewOf(s.views, a) == state
    ensures var state := Project(Known(s.log, a)).state;
            var e := Wished(wish, a, s.log);
            var applied := Apply(Basis(state, a), e);
            if !IsRecorded(s, a, wish) then Solo(s, Applying(a, s.log, state), wish, steps) == (Idle, s.views, s.log)
            else applied.Some? &&
                 Solo(s, Applying(a, s.log, state), wish, steps)
                 == Solo(WithLog(s, e), Writing(a, Publishing, state, applied.value), wish, steps - 2)
  {
    var state, e := Project(Known(s.log, a)).state, Wished(wish, a, s.log);
    ContinuesIffApplies(s.log, e, state);
    var applied := Apply(Basis(state, a), e);
    if applied.None? {
      SoloStep(s, Applying(a, s.log, state), wish, steps, Idle, s);
      IdleStays(s, wish, steps - 1);
    } else {
      var at := Committing(Candidate(e, state, applied.value), s.log, s.log);
      SoloStep(s, Applying(a, s.log, state), wish, steps, at, s);
      CommitsAlone(s, a, wish, applied.value, steps - 1);
    }
  }

  lemma CommitsAlone(s: System, a: int, wish: Wish, next: State, steps: nat)
    requires 5 <= steps && Project(Known(s.log, a)).Returns?
    requires Apply(Basis(Project(Known(s.log, a)).state, a), Wished(wish, a, s.log)) == Some(next)
    ensures var state, e := Project(Known(s.log, a)).state, Wished(wish, a, s.log);
            var at := Committing(Candidate(e, state, next), s.log, s.log);
            Solo(s, at, wish, steps)
            == if AppendError(s.log, wish.fencing, e, e.sequence - 1).None?
               then Solo(WithLog(s, e), Writing(a, Publishing, state, next), wish, steps - 1)
               else (Idle, s.views, s.log)
  {
    var state, e := Project(Known(s.log, a)).state, Wished(wish, a, s.log);
    var at := Committing(Candidate(e, state, next), s.log, s.log);
    if AppendError(s.log, wish.fencing, e, e.sequence - 1).None? {
      ReplayNow(a, s.log, s.log, state);
      CandidateIsSwappable(at.candidate, s.log, s.log);
      SoloStep(s, at, wish, steps, Writing(a, Publishing, state, next), WithLog(s, e));
    } else {
      SoloStep(s, at, wish, steps, Idle, s);
      IdleStays(s, wish, steps - 1);
    }
  }

  /** The view is written; a stale one without a history is replaced at the second attempt. */
  lemma PublishesAlone(s: System, a: int, observed: Option<State>, next: State, wish: Wish, steps: nat)
    requires ViewsValid(s.views) && 4 <= steps && Project(Known(s.log, a)) == Returns(Some(next))
    requires observed.Some? ==> ViewOf(s.views, a) == observed
    ensures Solo(s, Writing(a, Publishing, observed, next), wish, steps) == (Idle, s.views[a := next], s.log)
  {
    var view := ViewOf(s.views, a);
    ReplayIsSwappable(s.log, a, observed);
    ReplayIsSwappable(s.log, a, view);
    var at := Writing(a, Publishing, observed, next);
    if view == observed {
      SoloStep(s, at, wish, steps, Idle, Viewed(s, a, next));
      IdleStays(Viewed(s, a, next), wish, steps - 1);
    } else {
      SoloStep(s, at, wish, steps, Reobserving(a, Publishing, 0), s);
      RepublishesAlone(s, a, next, wish, steps - 1);
    }
  }

  lemma RepublishesAlone(s: System, a: int, next: State, wish: Wish, steps: nat)
    requires ViewsValid(s.views) && 3 <= steps && Project(Known(s.log, a)) == Returns(Some(next))
    ensures Solo(s, Reobserving(a, Publishing, 0), wish, steps) == (Idle, s.views[a := next], s.log)
  {
    var view := ViewOf(s.views, a);
    ReplayIsSwappable(s.log, a, view);
    SoloStep(s, Reobserving(a, Publishing, 0), wish, steps, Replaying(a, Publishing, 0, view), s);
    if view == Some(next) {
      SoloStep(s, Replaying(a, Publishing, 0, view), wish, steps - 1, Idle, s);
      IdleStays(s, wish, steps - 2);
      assert s.views[a := next] == s.views;
    } else {
      var at := Swapping(a, Publishing, 0, view, next);
      SoloStep(s, Replaying(a, Publishing, 0, view), wish, steps - 1, at, s);
      SoloStep(s, at, wish, steps - 2, Idle, Viewed(s, a, next));
      IdleStays(Viewed(s, a, next), wish, steps - 3);
    }
  }

  /** The views after a recording that nobody disturbed: its own is the replay, the others are as they were. */
  ghost predicate OnlyOwnView(views: map<int, State>, views': map<int, State>, a: int, log: seq<Event>) {
    && (forall b :: b != a ==> ViewOf(views', b) == ViewOf(views, b))
    && Project(Known(log, a)).Returns?
    && (Project(Known(log, a)).state.Some? ==> ViewOf(views', a) == Project(Known(log, a)).state)
  }

  lemma RecordsSolo(s: System, a: int, wish: Wish)
    requires ViewsValid(s.views)
    ensures var r := Solo(s, Observing(a, s.log), wish, 9);
            && r.0 == Idle
            && r.2 == (if IsRecorded(s, a, wish) then s.log + [Wished(wish, a, s.log)] else s.log)
            && (IsRecorded(s, a, wish) ==> OnlyOwnView(s.views, r.1, a, r.2))
  {
    var replayed := Project(Known(s.log, a));
    ReadsAlone(s, a, wish);
    if replayed.Returns? {
      var steps: nat :| 6 <= steps <= 7 && Solo(s, Observing(a, s.log), wish, 9)
                                           == Solo(Refreshed(s, a), Applying(a, s.log, replayed.state), wish, steps);
      RefreshedValid(s, a);
      FinishesSolo(Refreshed(s, a), a, wish, steps);
    }
  }

  lemma RefreshedValid(s: System, a: int)
    requires ViewsValid(s.views) && Project(Known(s.log, a)).Returns?
    ensures ViewsValid(Refreshed(s, a).views) && Refreshed(s, a).log == s.log
    ensures var state := Project(Known(s.log, a)).state; state.Some? ==> ViewOf(Refreshed(s, a).views, a) == state
  {
    if Project(Known(s.log, a)).state.Some? {
      ReplayIsSwappable(s.log, a, None);
    }
  }

  lemma FinishesSolo(s: System, a: int, wish: Wish, steps: nat)
    requires ViewsValid(s.views) && 6 <= steps && Project(Known(s.log, a)).Returns?
    requires var state := Project(Known(s.log, a)).state; state.Some? ==> ViewOf(s.views, a) == state
    ensures var r := Solo(s, Applying(a, s.log, Project(Known(s.log, a)).state), wish, steps);
            && r.0 == Idle
            && r.2 == (if IsRecorded(s, a, wish) then s.log + [Wished(wish, a, s.log)] else s.log)
            && (IsRecorded(s, a, wish) ==> OnlyOwnView(s.views, r.1, a, r.2))
  {
    if IsRecorded(s, a, wish) {
      var next := FinishesRecorded(s, a, wish, steps);
      OwnViewIsReplay(s.views, a, next, s.log + [Wished(wish, a, s.log)]);
    } else {
      AppliesAlone(s, a, wish, steps);
    }
  }

  lemma OwnViewIsReplay(views: map<int, State>, a: int, next: State, log: seq<Event>)
    requires Project(Known(log, a)) == Returns(Some(next))
    ensures OnlyOwnView(views, views[a := next], a, log)
  {
  }

  lemma FinishesRecorded(s: System, a: int, wish: Wish, steps: nat) returns (next: State)
    requires ViewsValid(s.views) && 6 <= steps && IsRecorded(s, a, wish)
    requires var state := Project(Known(s.log, a)).state; state.Some? ==> ViewOf(s.views, a) == state
    ensures var log := s.log + [Wished(wish, a, s.log)];
            && Project(Known(log, a)) == Returns(Some(next))
            && Solo(s, Applying(a, s.log, Project(Known(s.log, a)).state), wish, steps)
               == (Idle, s.views[a := next], log)
  {
    var state, e := Project(Known(s.log, a)).state, Wished(wish, a, s.log);
    RecordedProjects(s, a, wish);
    next := Apply(Basis(state, a), e).value;
    AppliesAlone(s, a, wish, steps);
    PublishesAlone(WithLog(s, e), a, state, next, wish, steps - 2);
  }

  lemma RecordedProjects(s: System, a: int, wish: Wish)
    requires IsRecorded(s, a, wish)
    ensures var state, e := Project(Known(s.log, a)).state, Wished(wish, a, s.log);
            var applied := Apply(Basis(state, a), e);
            applied.Some? && Project(Known(s.log + [e], a)) == Returns(applied)
  {
    var e := Wished(wish, a, s.log);
    SelectAppend(s.log, e, OfAggregate(a));
    ProjectNext(Known(s.log, a), e);
  }

  /** In every reachable system, an engine that starts and takes nine steps while nobody else does anything is done;
      it has appended its event exactly if that continues the history and the store accepts it, and then the view of
      its aggregate is the replay, whatever it was before, and no other view has changed. */
  lemma EnginesRecordAlone(moves: seq<Move>, engine: nat, a: int, wish: Wish)
    requires ProgressOf(Run(moves), engine).Idle?
    ensures var s := Run(moves);
            var s' := After(Next(s, Starts(engine, a)), Repeated(engine, wish, 9));
            && ProgressOf(s', engine) == Idle
            && s'.log == (if IsRecorded(s, a, wish) then s.log + [Wished(wish, a, s.log)] else s.log)
            && (IsRecorded(s, a, wish) ==> OnlyOwnView(s.views, s'.views, a, s'.log))
  {
    var s := Run(moves);
    RunViewsValid(moves);
    assert Next(s, Starts(engine, a)) == Standing(s, engine, Observing(a, s.log));
    AfterIsSolo(s, engine, Observing(a, s.log), wish, 9);
    RecordsSolo(s, a, wish);
  }
}
