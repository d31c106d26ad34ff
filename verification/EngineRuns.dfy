/** Several engines record events over one log and one set of views, step by step, while anyone overwrites or removes
    views between any two steps: every history projects, and engines act on and write only replayed states. */
module EngineRuns {
  import opened Events
  import opened Projection
  import opened StoreContracts
  import opened EventLog
  import opened Receipts
  import opened Views
  import opened Engine

  /** What a state is read or written for: to validate an event, since the log was `since` when the last sequence number
      was read; to publish a committed event; or to repair the view after publishing failed. */
  datatype Purpose = Validating(since: seq<Event>) | Publishing | Repairing

  /** Where one engine's recording stands: the next access to log or views it makes. */
  datatype Progress =
    | Idle
    | Observing(aggregate: int, since: seq<Event>)
    | Comparing(aggregate: int, since: seq<Event>, view: Option<State>)
    | Writing(aggregate: int, purpose: Purpose, expected: Option<State>, next: State)
    | Reobserving(aggregate: int, purpose: Purpose, attempt: nat)
    | Replaying(aggregate: int, purpose: Purpose, attempt: nat, view: Option<State>)
    | Swapping(aggregate: int, purpose: Purpose, attempt: nat, expected: Option<State>, next: State)
    | Applying(aggregate: int, since: seq<Event>, state: Option<State>)
    | Committing(candidate: Candidate, since: seq<Event>, seen: seq<Event>)

  datatype System = System(log: seq<Event>, views: map<int, State>, engines: map<nat, Progress>)

  /** The event an engine wants to record, and what the command store will say of its append. */
  datatype Wish = Wish(id: EventId, fact: Fact, now: int, command: CommandId, fencing: Option<CommandError>)

  datatype Move =
    | Starts(engine: nat, aggregate: int)
    | Steps(engine: nat, wish: Wish)
    | GivesUp(engine: nat)
    | Overwrites(aggregate: int, state: State)
    | Removes(aggregate: int)

  function ProgressOf(s: System, engine: nat): Progress {
    if engine in s.engines then s.engines[engine] else Idle
  }

  /** The authoritative state is known, or the view is written. */
  function Settled(aggregate: int, purpose: Purpose, state: Option<State>): Progress {
    match purpose case Validating(since) => Applying(aggregate, since, state) case _ => Idle
  }

  /** A reconciliation threw: a failed publication is followed by a repair, everything else ends. */
  function Failed(aggregate: int, purpose: Purpose): Progress {
    if purpose.Publishing? then Reobserving(aggregate, Repairing, 0) else Idle
  }

  /** `writeMaterializedState` begins: nothing to write if the state is what was observed. */
  function Write(aggregate: int, purpose: Purpose, expected: Option<State>, next: State): Progress {
    if expected == Some(next) then Settled(aggregate, purpose, expected)
    else Writing(aggregate, purpose, expected, next)
  }

  /** The replay of `ensureLiveState`, against the view observed before it. */
  function Compared(s: System, at: Progress): Progress
    requires at.Comparing?
  {
    match Project(Known(s.log, at.aggregate))
    case Throws => Idle
    case Returns(None) => Applying(at.aggregate, at.since, None)
    case Returns(Some(state)) => Write(at.aggregate, Validating(at.since), at.view, state)
  }

  /** The replay of one reconciliation attempt; the fourth only looks. */
  function Replayed(s: System, at: Progress): Progress
    requires at.Replaying?
  {
    match Project(Known(s.log, at.aggregate))
    case Throws => Failed(at.aggregate, at.purpose)
    case Returns(state) =>
      if at.view == state then Settled(at.aggregate, at.purpose, state)
      else if state.None? || at.attempt >= ATTEMPTS then Failed(at.aggregate, at.purpose)
      else Swapping(at.aggregate, at.purpose, at.attempt, at.view, state.value)
  }

  /** A compare-and-swap of one view: where it leads when it applies, loses or throws, and the views afterwards. */
  function Swapped(s: System, aggregate: int, purpose: Purpose, attempt: nat, expected: Option<State>, next: State)
    : (Progress, map<int, State>)
  {
    if !Swappable(aggregate, expected, next) then (Failed(aggregate, purpose), s.views)
    else if ViewOf(s.views, aggregate) != expected then (Reobserving(aggregate, purpose, attempt), s.views)
    else (Settled(aggregate, purpose, Some(next)), s.views[aggregate := next])
  }

  function Applied(s: System, at: Progress, wish: Wish): Progress
    requires at.Applying?
  {
    var event := Event(wish.id, at.aggregate, |Known(at.since, at.aggregate)| + 1, wish.now, wish.fact, wish.command);
    match Apply(Basis(at.state, at.aggregate), event)
    case None => Idle
    case Some(next) => Committing(Candidate(event, at.state, next), at.since, s.log)
  }

  predicate Accepts(s: System, at: Progress, wish: Wish)
    requires at.Committing?
  {
    AppendError(s.log, wish.fencing, at.candidate.event, at.candidate.event.sequence - 1).None?
  }

  /** One access of an engine. */
  function Stepped(s: System, at: Progress, wish: Wish): (Progress, map<int, State>, seq<Event>) {
    match at
    case Idle => (at, s.views, s.log)
    case Observing(a, since) => (Comparing(a, since, ViewOf(s.views, a)), s.views, s.log)
    case Comparing(_, _, _) => (Compared(s, at), s.views, s.log)
    case Writing(a, purpose, expected, next) =>
      var r := Swapped(s, a, purpose, 0, expected, next); (r.0, r.1, s.log)
    case Reobserving(a, purpose, attempt) => (Replaying(a, purpose, attempt, ViewOf(s.views, a)), s.views, s.log)
    case Replaying(_, _, _, _) => (Replayed(s, at), s.views, s.log)
    case Swapping(a, purpose, attempt, expected, next) =>
      var r := Swapped(s, a, purpose, attempt + 1, expected, next); (r.0, r.1, s.log)
    case Applying(_, _, _) => (Applied(s, at, wish), s.views, s.log)
    case Committing(v, _, _) =>
      if Accepts(s, at, wish)
      then (Write(v.event.aggregate, Publishing, v.observed, v.next), s.views, s.log + [v.event])
      else (Idle, s.views, s.log)
  }

  function Next(s: System, move: Move): System {
    match move
    case Starts(engine, aggregate) =>
      if ProgressOf(s, engine).Idle? then s.(engines := s.engines[engine := Observing(aggregate, s.log)]) else s
    case Steps(engine, wish) =>
      var r := Stepped(s, ProgressOf(s, engine), wish);
      System(r.2, r.1, s.engines[engine := r.0])
    case GivesUp(engine) => s.(engines := s.engines[engine := Idle])
    case Overwrites(aggregate, state) =>
      if ValidState(state) && state.aggregate == aggregate then s.(views := s.views[aggregate := state]) else s
    case Removes(aggregate) => s.(views := s.views - {aggregate})
  }

  function Run(moves: seq<Move>): System {
    if moves == [] then System([], map[], map[]) else Next(Run(moves[..|moves| - 1]), moves[|moves| - 1])
  }

  ghost predicate Replayable(log: seq<Event>) {
    forall a :: Project(Known(log, a)).Returns?
  }

  /** `state` is a replay of the log at some moment; for validation, at one since the sequence number was read. */
  ghost predicate IsReplay(state: Option<State>, aggregate: int, purpose: Purpose, log: seq<Event>) {
    match purpose
    case Validating(since) => since <= log && ReplayBetween(state, aggregate, since, log)
    case _ => ReplayBetween(state, aggregate, [], log)
  }

  ghost predicate Began(purpose: Purpose, log: seq<Event>) {
    purpose.Validating? ==> purpose.since <= log
  }

  ghost predicate ProgressInv(at: Progress, log: seq<Event>) {
    match at
    case Idle => true
    case Observing(_, since) => since <= log
    case Comparing(_, since, _) => since <= log
    case Writing(a, purpose, _, next) => IsReplay(Some(next), a, purpose, log)
    case Reobserving(_, purpose, attempt) => Began(purpose, log) && attempt <= ATTEMPTS
    case Replaying(_, purpose, attempt, _) => Began(purpose, log) && attempt <= ATTEMPTS
    case Swapping(a, purpose, attempt, _, next) => IsReplay(Some(next), a, purpose, log) && attempt < ATTEMPTS
    case Applying(a, since, state) => IsReplay(state, a, Validating(since), log)
    case Committing(v, since, seen) => since <= seen <= log && Validated(v, since, seen)
  }

  ghost predicate Inv(s: System) {
    && WellFormedLog(s.log) && Replayable(s.log)
    && forall engine :: engine in s.engines ==> ProgressInv(s.engines[engine], s.log)
  }

  /** What an engine relies on survives every growth of the log. */
  lemma ProgressLater(at: Progress, log: seq<Event>, longer: seq<Event>)
    requires ProgressInv(at, log) && log <= longer
    ensures ProgressInv(at, longer)
  {
    match at
    case Writing(a, purpose, _, next) => ReplayLater(Some(next), a, purpose, log, longer);
    case Swapping(a, purpose, _, _, next) => ReplayLater(Some(next), a, purpose, log, longer);
    case Applying(a, since, state) => ReplayLater(state, a, Validating(since), log, longer);
    case _ =>
  }

  lemma ReplayLater(state: Option<State>, aggregate: int, purpose: Purpose, log: seq<Event>, longer: seq<Event>)
    requires IsReplay(state, aggregate, purpose, log) && log <= longer
    ensures IsReplay(state, aggregate, purpose, longer)
  {
    var from := if purpose.Validating? then purpose.since else [];
    ReplayWithin(state, aggregate, from, log, from, longer);
  }

  lemma IsReplayNow(state: Option<State>, aggregate: int, purpose: Purpose, log: seq<Event>)
    requires Began(purpose, log) && Project(Known(log, aggregate)) == Returns(state)
    ensures IsReplay(state, aggregate, purpose, log)
  {
    ReplayNow(aggregate, if purpose.Validating? then purpose.since else [], log, state);
  }

  lemma ComparedKeeps(s: System, at: Progress)
    requires at.Comparing? && ProgressInv(at, s.log)
    ensures ProgressInv(Compared(s, at), s.log)
  {
    var replayed := Project(Known(s.log, at.aggregate));
    if replayed.Returns? {
      IsReplayNow(replayed.state, at.aggregate, Validating(at.since), s.log);
    }
  }

  lemma ReplayedKeeps(s: System, at: Progress)
    requires at.Replaying? && ProgressInv(at, s.log)
    ensures ProgressInv(Replayed(s, at), s.log)
  {
    var replayed := Project(Known(s.log, at.aggregate));
    if replayed.Returns? {
      IsReplayNow(replayed.state, at.aggregate, at.purpose, s.log);
    }
  }

  lemma SwappedKeeps(s: System, aggregate: int, purpose: Purpose, attempt: nat, expected: Option<State>, next: State)
    requires IsReplay(Some(next), aggregate, purpose, s.log) && attempt <= ATTEMPTS
    ensures ProgressInv(Swapped(s, aggregate, purpose, attempt, expected, next).0, s.log)
  {
  }

  lemma AppliedKeeps(s: System, at: Progress, wish: Wish)
    requires at.Applying? && ProgressInv(at, s.log)
    ensures ProgressInv(Applied(s, at, wish), s.log)
  {
  }

  /** Only a validated event is appended, and only to the history it was validated against. */
  lemma CommitKeeps(s: System, at: Progress, wish: Wish)
    requires WellFormedLog(s.log) && Replayable(s.log)
    requires at.Committing? && ProgressInv(at, s.log) && Accepts(s, at, wish)
    ensures var v := at.candidate;
            && WellFormedLog(s.log + [v.event]) && Replayable(s.log + [v.event])
            && ProgressInv(Write(v.event.aggregate, Publishing, v.observed, v.next), s.log + [v.event])
  {
    var v := at.candidate;
    AppendKeepsWellFormed(s.log, v.event, v.event.sequence - 1);
    ValidatedAppendContinues(v, at.since, at.seen, s.log);
    forall a ensures Project(Known(s.log + [v.event], a)).Returns? {
      SelectAppend(s.log, v.event, OfAggregate(a));
      assert Project(Known(s.log, a)).Returns?;
    }
    IsReplayNow(Some(v.next), v.event.aggregate, Publishing, s.log + [v.event]);
  }

  lemma SteppedKeeps(s: System, at: Progress, wish: Wish)
    requires WellFormedLog(s.log) && Replayable(s.log) && ProgressInv(at, s.log)
    ensures var r := Stepped(s, at, wish);
            WellFormedLog(r.2) && Replayable(r.2) && ProgressInv(r.0, r.2) && s.log <= r.2
  {
    match at
    case Comparing(_, _, _) => ComparedKeeps(s, at);
    case Writing(a, purpose, expected, next) => SwappedKeeps(s, a, purpose, 0, expected, next);
    case Replaying(_, _, _, _) => ReplayedKeeps(s, at);
    case Swapping(a, purpose, attempt, expected, next) => SwappedKeeps(s, a, purpose, attempt + 1, expected, next);
    case Applying(_, _, _) => AppliedKeeps(s, at, wish);
    case Committing(_, _, _) => if Accepts(s, at, wish) { CommitKeeps(s, at, wish); }
    case _ =>
  }

  lemma NextKeepsInv(s: System, move: Move)
    requires Inv(s)
    ensures Inv(Next(s, move))
  {
    if move.Steps? {
      var at := ProgressOf(s, move.engine);
      var r := Stepped(s, at, move.wish);
      SteppedKeeps(s, at, move.wish);
      forall engine | engine in s.engines ensures ProgressInv(s.engines[engine], r.2) {
        ProgressLater(s.engines[engine], s.log, r.2);
      }
    }
  }

  lemma {:induction false} ReachableInv(moves: seq<Move>)
    ensures Inv(Run(moves))
  {
    if moves == [] {
    } else {
      ReachableInv(moves[..|moves| - 1]);
      NextKeepsInv(Run(moves[..|moves| - 1]), moves[|moves| - 1]);
    }
  }

  /** In every run of any number of engines, whatever happens to the views, every history projects without error. */
  lemma LogStaysReplayable(moves: seq<Move>, aggregate: int)
    ensures Project(Known(Run(moves).log, aggregate)).Returns?
  {
    ReachableInv(moves);
  }

  /** Whatever the view held or became meanwhile, the state an engine is about to apply an event to is the replay of the
      log at some moment since it read the last sequence number. */
  lemma AuthoritativeReadsAreReplays(moves: seq<Move>, engine: nat)
    requires ProgressOf(Run(moves), engine).Applying?
    ensures var at := ProgressOf(Run(moves), engine);
            at.since <= Run(moves).log && ReplayBetween(at.state, at.aggregate, at.since, Run(moves).log)
  {
    ReachableInv(moves);
  }

  /** An engine's step changes no view but the one of its own aggregate, and what it stores there is a replay of a part
      of the log. */
  lemma EnginesWriteOnlyReplays(moves: seq<Move>, engine: nat, wish: Wish)
    ensures var s, s' := Run(moves), Next(Run(moves), Steps(engine, wish));
            var at := ProgressOf(s, engine);
            s'.views != s.views ==>
              && (at.Writing? || at.Swapping?)
              && s'.views == s.views[at.aggregate := at.next]
              && ReplayBetween(Some(at.next), at.aggregate, [], s.log)
  {
    var s := Run(moves);
    ReachableInv(moves);
    var at := ProgressOf(s, engine);
    if at.Writing? || at.Swapping? {
      assert ProgressInv(at, s.log);
      if at.purpose.Validating? {
        ReplayWithin(Some(at.next), at.aggregate, at.purpose.since, s.log, [], s.log);
      }
    }
  }
}
