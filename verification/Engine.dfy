/** The engine's authority over its views: every state it acts on or writes is a replay of the log. */
module Engine {
  import opened Events
  import opened Projection
  import opened Histories
  import opened StoreContracts
  import opened Receipts
  import opened Replay
  import opened Views

  /** At some moment the aggregate had no history that projects to a state. */
  ghost predicate NothingThere(aggregate: int, before: seq<Event>, after: seq<Event>) {
    exists log :: before <= log <= after
                  && (Project(Known(log, aggregate)).Throws? || Project(Known(log, aggregate)).state.None?)
  }

  /** What one reconciliation may do, whatever others do meanwhile: at most three swaps, each of a replayed state and
      all but the last refused; a swap that took effect stored what is answered; the answer is a replay; and where there
      is a history it does not give up before the third. */
  ghost predicate Reconciled(aggregate: int, before: seq<Event>, after: seq<Event>,
                             tried: seq<Swap>, swaps: seq<Swap>, r: Views.Reply)
  {
    && tried <= swaps && |swaps| <= |tried| + 3
    && (r.Threw? ==> |swaps| == |tried| + 3 || NothingThere(aggregate, before, after))
    && (forall i :: |tried| <= i < |swaps| ==> ReplayingSwap(swaps[i], aggregate, before, after))
    && (forall i :: |tried| <= i < |swaps| - 1 ==> !swaps[i].applied)
    && (|swaps| > |tried| && swaps[|swaps| - 1].applied ==> r == Gave(Some(swaps[|swaps| - 1].next)))
    && (r.Gave? ==> ReplayBetween(r.state, aggregate, before, after))
  }

  /** One attempt answers without a swap, or makes one swap of a replayed state and answers it if it took effect. */
  ghost predicate Attempted(aggregate: int, before: seq<Event>, after: seq<Event>,
                            tried: seq<Swap>, swaps: seq<Swap>, r: Option<Views.Reply>)
  {
    && (r.Some? && r.value.Gave? ==> ReplayBetween(r.value.state, aggregate, before, after))
    && (r == Some(Threw) ==> NothingThere(aggregate, before, after))
    && (if swaps == tried then r.Some? else
          && |swaps| == |tried| + 1 && tried <= swaps
          && ReplayingSwap(swaps[|tried|], aggregate, before, after)
          && r == if swaps[|tried|].applied then Some(Gave(Some(swaps[|tried|].next))) else None)
  }

  ghost predicate QuietAttempt(aggregate: int, log: seq<Event>, views: map<int, State>, views': map<int, State>,
                               r: Option<Views.Reply>)
  {
    var replayed := Project(Known(log, aggregate));
    && r == Some(QuietAnswer(replayed, ViewOf(views, aggregate)))
    && views' == QuietViews(replayed, views, aggregate)
  }

  ghost predicate ReplayingSwap(swap: Swap, aggregate: int, before: seq<Event>, after: seq<Event>) {
    swap.aggregate == aggregate && ReplayBetween(Some(swap.next), aggregate, before, after)
  }

  /** What is answered when nobody else does anything: the replay, unless it throws, or knows nothing of an aggregate
      that has a view. */
  function QuietAnswer(replayed: Replayed, view: Option<State>): Views.Reply {
    match replayed
    case Throws => Threw
    case Returns(None) => if view.None? then Gave(None) else Threw
    case Returns(Some(s)) => Gave(Some(s))
  }

  /** The views afterwards: the replay has replaced whatever was there. */
  function QuietViews(replayed: Replayed, views: map<int, State>, aggregate: int): map<int, State> {
    if replayed.Returns? && replayed.state.Some? then views[aggregate := replayed.state.value] else views
  }

  lemma ReplayNow(aggregate: int, before: seq<Event>, log: seq<Event>, state: Option<State>)
    requires before <= log && Project(Known(log, aggregate)) == Returns(state)
    ensures ReplayBetween(state, aggregate, before, log)
  {
  }

  lemma NothingNow(aggregate: int, before: seq<Event>, log: seq<Event>)
    requires before <= log && (Project(Known(log, aggregate)).Throws? || Project(Known(log, aggregate)).state.None?)
    ensures NothingThere(aggregate, before, log)
  {
  }

  lemma NothingWithin(aggregate: int, before: seq<Event>, after: seq<Event>, earlier: seq<Event>, later: seq<Event>)
    requires NothingThere(aggregate, before, after) && earlier <= before && after <= later
    ensures NothingThere(aggregate, earlier, later)
  {
    var log :| before <= log <= after
               && (Project(Known(log, aggregate)).Throws? || Project(Known(log, aggregate)).state.None?);
    assert earlier <= log <= later;
  }

  /** A replay taken in a part of an interval was taken in the interval. */
  lemma ReplayWithin(state: Option<State>, aggregate: int, before: seq<Event>, after: seq<Event>,
                     earlier: seq<Event>, later: seq<Event>)
    requires ReplayBetween(state, aggregate, before, after) && earlier <= before && after <= later
    ensures ReplayBetween(state, aggregate, earlier, later)
  {
    var log :| before <= log <= after && Project(Known(log, aggregate)) == Returns(state);
    assert earlier <= log <= later;
  }

  /** A replayed state belongs to its aggregate and can be stored. */
  lemma ReplayIsSwappable(log: seq<Event>, aggregate: int, view: Option<State>)
    requires Project(Known(log, aggregate)).Returns? && Project(Known(log, aggregate)).state.Some?
    requires view.Some? ==> ValidState(view.value) && view.value.aggregate == aggregate
    ensures Swappable(aggregate, view, Project(Known(log, aggregate)).state.value)
  {
    var known := Known(log, aggregate);
    AcceptedIffLawful(known);
    SelectMembers(log, OfAggregate(aggregate), known[0]);
  }

  /** The events of aggregates numbered `from` or above. */
  function Used(log: seq<Event>, from: int): nat {
    if log == [] then 0
    else Used(log[..|log| - 1], from) + if log[|log| - 1].aggregate >= from then 1 else 0
  }

  lemma {:induction false} UsedShrinks(log: seq<Event>, from: int)
    ensures Used(log, from) >= Used(log, from + 1) + |Known(log, from)|
  {
    if log != [] {
      UsedShrinks(log[..|log| - 1], from);
    }
  }

  class RollbackEngine {
    const shared: SharedStores
    var nextAggregateId: int

    constructor (shared: SharedStores)
      ensures this.shared == shared && nextAggregateId == 1
    {
      this.shared, nextAggregateId := shared, 1;
    }

    /** A fresh aggregate id: the first from the counter on that has no events, past which the counter moves. */
    method AllocateAggregateId() returns (id: int)
      requires shared.Valid()
      modifies this`nextAggregateId
      ensures nextAggregateId == id + 1 && id >= old(nextAggregateId)
      ensures Known(shared.store.events, id) == []
      ensures forall a :: old(nextAggregateId) <= a < id ==> Known(shared.store.events, a) != []
    {
      var last := shared.store.GetLastSequence(nextAggregateId);
      while last > 0
        invariant nextAggregateId >= old(nextAggregateId)
        invariant last == |Known(shared.store.events, nextAggregateId)|
        invariant forall a :: old(nextAggregateId) <= a < nextAggregateId ==> Known(shared.store.events, a) != []
        decreases Used(shared.store.events, nextAggregateId)
      {
        UsedShrinks(shared.store.events, nextAggregateId);
        nextAggregateId := nextAggregateId + 1;
        last := shared.store.GetLastSequence(nextAggregateId);
      }
      id := nextAggregateId;
      nextAggregateId := nextAggregateId + 1;
    }

    /** The view, and then the replay it is compared with. */
    method Look(aggregate: int) returns (observed: Option<State>, replayed: Replayed)
      requires shared.Valid()
      modifies shared.Repr()
      ensures shared.Valid() && old(shared.store.events) <= shared.store.events && shared.swaps == old(shared.swaps)
      ensures replayed == Project(Known(shared.store.events, aggregate))
      ensures observed.Some? ==> ValidState(observed.value) && observed.value.aggregate == aggregate
      ensures old(shared.Quiet()) ==>
                && shared.Quiet() && shared.store.events == old(shared.store.events)
                && shared.repository.states == old(shared.repository.states)
                && observed == ViewOf(old(shared.repository.states), aggregate)
    {
      observed := shared.Observe(aggregate);
      replayed := shared.Replay(aggregate);
    }

    /** One attempt: an answer, or None when someone else's write won. */
    method Attempt(aggregate: int) returns (r: Option<Views.Reply>)
      requires shared.Valid()
      modifies shared.Repr()
      ensures shared.Valid() && old(shared.store.events) <= shared.store.events
      ensures Attempted(aggregate, old(shared.store.events), shared.store.events, old(shared.swaps), shared.swaps, r)
      ensures old(shared.Quiet()) ==>
                && shared.Quiet() && shared.store.events == old(shared.store.events)
                && QuietAttempt(aggregate, shared.store.events, old(shared.repository.states),
                                shared.repository.states, r)
    {
      var observed, replayed := Look(aggregate);
      if replayed.Throws? {
        NothingNow(aggregate, old(shared.store.events), shared.store.events);
        return Some(Threw);
      }
      ReplayNow(aggregate, old(shared.store.events), shared.store.events, replayed.state);
      if observed == replayed.state {
        return Some(Gave(observed));
      }
      if replayed.state.None? {
        NothingNow(aggregate, old(shared.store.events), shared.store.events);
        return Some(Threw);
      }
      r := SwapIn(aggregate, observed, replayed.state.value, old(shared.store.events));
    }

    method SwapIn(aggregate: int, observed: Option<State>, state: State, ghost before: seq<Event>)
      returns (r: Option<Views.Reply>)
      requires shared.Valid() && before <= shared.store.events
      requires Project(Known(shared.store.events, aggregate)) == Returns(Some(state))
      requires observed.Some? ==> ValidState(observed.value) && observed.value.aggregate == aggregate
      modifies shared.Repr()
      ensures shared.Valid() && old(shared.store.events) <= shared.store.events
      ensures Attempted(aggregate, before, shared.store.events, old(shared.swaps), shared.swaps, r)
      ensures old(shared.Quiet()) ==>
                && shared.Quiet() && shared.store.events == old(shared.store.events)
                && (ViewOf(old(shared.repository.states), aggregate) == observed ==>
                      r == Some(Gave(Some(state)))
                      && shared.repository.states == old(shared.repository.states)[aggregate := state])
    {
      ReplayIsSwappable(shared.store.events, aggregate, observed);
      ReplayNow(aggregate, before, shared.store.events, Some(state));
      var applied := shared.CompareAndSwap(aggregate, observed, state);
      ReplayWithin(Some(state), aggregate, before, old(shared.store.events), before, shared.store.events);
      return if applied then Some(Gave(Some(state))) else None;
    }

    /** Re-observe, replay and try again, at most three times; then look once more, and fail rather than return a
        state that is not a replay. */
    method ReconcileMaterializedState(aggregate: int) returns (r: Views.Reply)
      requires shared.Valid()
      modifies shared.Repr()
      ensures shared.Valid() && old(shared.store.events) <= shared.store.events
      ensures Reconciled(aggregate, old(shared.store.events), shared.store.events, old(shared.swaps), shared.swaps, r)
      ensures old(shared.Quiet()) ==>
                && shared.Quiet() && shared.store.events == old(shared.store.events)
                && QuietAttempt(aggregate, shared.store.events, old(shared.repository.states), shared.repository.states,
                                Some(r))
                && |shared.swaps| <= |old(shared.swaps)| + 1
    {
      ghost var before, tried := shared.store.events, shared.swaps;
      for attempt := 0 to ATTEMPTS
        invariant shared.Valid() && before <= shared.store.events
        invariant Beaten(aggregate, before, shared.store.events, tried, shared.swaps, attempt)
        invariant old(shared.Quiet()) ==> attempt == 0 && shared.Quiet() && shared.store.events == before
                                          && shared.repository.states == old(shared.repository.states)
      {
        ghost var between, sofar := shared.store.events, shared.swaps;
        var outcome := Attempt(aggregate);
        AttemptCounts(aggregate, before, between, shared.store.events, tried, sofar, shared.swaps, attempt, outcome);
        if outcome.Some? {
          return outcome.value;
        }
      }
      ghost var between := shared.store.events;
      var observed, replayed := Look(aggregate);
      BeatenLater(aggregate, before, between, shared.store.events, tried, shared.swaps, ATTEMPTS);
      if replayed.Returns? && observed == replayed.state {
        ReplayNow(aggregate, before, shared.store.events, observed);
        return Gave(observed);
      }
      return Threw;
    }

    method WriteMaterializedState(expected: Option<State>, next: State) returns (r: Views.Reply)
      requires shared.Valid() && Swappable(next.aggregate, expected, next)
      modifies shared.Repr()
      ensures shared.Valid() && old(shared.store.events) <= shared.store.events
      ensures Written(next.aggregate, expected, next, old(shared.store.events), shared.store.events,
                      old(shared.swaps), shared.swaps, r)
      ensures old(shared.Quiet()) && Project(Known(old(shared.store.events), next.aggregate)) == Returns(Some(next))
              && (expected == Some(next) ==> ViewOf(old(shared.repository.states), next.aggregate) == expected) ==>
                && shared.Quiet() && shared.store.events == old(shared.store.events)
                && r == Gave(Some(next))
                && shared.repository.states == old(shared.repository.states)[next.aggregate := next]
    {
      if expected == Some(next) {
        return Gave(expected);
      }
      var applied := shared.CompareAndSwap(next.aggregate, expected, next);
      if applied {
        return Gave(Some(next));
      }
      ghost var between := shared.store.events;
      ghost var tried := shared.swaps;
      r := ReconcileMaterializedState(next.aggregate);
      ReconciledWithin(next.aggregate, old(shared.store.events), between, shared.store.events, tried, shared.swaps, r);
    }

    /** `ensureLiveState`, the authoritative read: whatever the view held, what is answered is a replay. */
    method EnsureLiveState(aggregate: int) returns (r: Views.Reply)
      requires shared.Valid()
      modifies shared.Repr()
      ensures shared.Valid() && old(shared.store.events) <= shared.store.events
      ensures r.Gave? ==> ReplayBetween(r.state, aggregate, old(shared.store.events), shared.store.events)
      ensures old(shared.Quiet()) ==>
                && var replayed := Project(Known(shared.store.events, aggregate));
                && shared.Quiet() && shared.store.events == old(shared.store.events)
                && r == (if replayed.Throws? then Threw else Gave(replayed.state))
                && shared.repository.states == QuietViews(replayed, old(shared.repository.states), aggregate)
    {
      ghost var before := shared.store.events;
      var observed, replayed := Look(aggregate);
      if replayed.Throws? {
        return Threw;
      }
      ReplayNow(aggregate, before, shared.store.events, replayed.state);
      if replayed.state.None? || observed == replayed.state {
        return Gave(replayed.state);
      }
      ReplayIsSwappable(shared.store.events, aggregate, observed);
      ghost var between, tried := shared.store.events, shared.swaps;
      r := WriteMaterializedState(observed, replayed.state.value);
      WrittenIsReplay(aggregate, observed, replayed.state.value, before, between, shared.store.events,
                      tried, shared.swaps, r);
    }

    /** After the commit: write the view, or repair it; only the answer depends on whether that succeeds. */
    method Publish(event: Event, observed: Option<State>, next: State) returns (r: Recording)
      requires shared.Valid() && next.aggregate == event.aggregate && Swappable(event.aggregate, observed, next)
      modifies shared.Repr()
      ensures shared.Valid() && old(shared.store.events) <= shared.store.events
      ensures !r.NotRecorded? && r.event == event
      ensures old(shared.Quiet()) && Project(Known(old(shared.store.events), event.aggregate)) == Returns(Some(next))
              && observed != Some(next) ==>
                && r.Recorded? && shared.store.events == old(shared.store.events)
                && ViewOf(shared.repository.states, event.aggregate) == Some(next)
    {
      var written := WriteMaterializedState(observed, next);
      if written.Gave? {
        return Recorded(event);
      }
      var repaired := ReconcileMaterializedState(event.aggregate);
      if repaired.Threw? {
        return Unrepaired(event);
      }
      var replayed := shared.Replay(event.aggregate);
      return if replayed == Returns(repaired.state) then Recorded(event) else Unrepaired(event);
    }

    /** The state check of a completed receipt: a historical replay of the log, past views and snapshots. Nothing is
        modified: no view, no event, and nobody else is let in. */
    method ValidateHistoricalReceiptState(result: Result, anchor: Option<Anchor>) returns (ok: bool)
      requires shared.Valid()
      ensures ok == HistoryHolds(result, anchor, shared.store.events)
    {
      if anchor.None? {
        return result.state.None? && result.snapshot.None?;
      }
      var a := anchor.value;
      if a.sequence < 0 {
        return false;
      }
      var historical := ReplayAtSequence(shared.store, a.aggregate, a.sequence);
      if historical != Returns(result.state) {
        return false;
      }
      if result.snapshot.None? {
        return true;
      }
      var snapshot := result.snapshot.value;
      return snapshot.aggregate == a.aggregate && snapshot.version == a.sequence
             && snapshot.lastEventId == a.lastEventId && snapshot.state == result.state;
    }

    /** Reads the last sequence number, then the authoritative state, and applies the event to it. */
    method ValidateEvent(id: EventId, aggregate: int, fact: Fact, now: int, command: CommandId)
      returns (r: Option<Candidate>, ghost before: seq<Event>)
      requires shared.Valid()
      modifies shared.Repr()
      ensures shared.Valid() && old(shared.store.events) <= before <= shared.store.events
      ensures r.Some? ==> r.value.event.(sequence := 0) == Event(id, aggregate, 0, now, fact, command)
      ensures r.Some? ==> Validated(r.value, before, shared.store.events)
      ensures old(shared.Quiet()) ==>
                && shared.Quiet() && shared.store.events == old(shared.store.events)
                && var e := Stamped(id, aggregate, fact, now, command, shared.store.events);
                   (r.Some? <==> Continues(shared.store.events, e)) && (r.Some? ==> r.value.event == e)
    {
      var lastSequence := shared.GetLastSequence(aggregate);
      before := shared.store.events;
      var event := Event(id, aggregate, lastSequence + 1, now, fact, command);
      var observed := EnsureLiveState(aggregate);
      if observed.Threw? {
        return None, before;
      }
      if old(shared.Quiet()) { ContinuesIffApplies(shared.store.events, event, observed.state); }
      var next := Apply(Basis(observed.state, aggregate), event);
      if next.None? {
        return None, before;
      }
      return Some(Candidate(event, observed.state, next.value)), before;
    }

    /** Commits a validated event and publishes the state it leads to. */
    method CommitCandidate(v: Candidate, ghost before: seq<Event>, token: Option<nat>) returns (r: Recording)
      requires shared.Valid() && before <= shared.store.events && Validated(v, before, shared.store.events)
      modifies shared.Repr()
      ensures shared.Valid() && old(shared.store.events) <= shared.store.events
      ensures CommitOutcome(v.event, before, shared.store.events, r)
      ensures old(shared.Quiet()) ==>
                && (r == if old(shared.Refusal(v.event, token)).None? then Recorded(v.event) else NotRecorded)
                && QuietOutcome(v.event, old(shared.store.events), shared.store.events, shared.repository.states, r)
    {
      var committed := AppendCandidate(v, before, token);
      if !committed {
        return NotRecorded;
      }
      ghost var written := shared.store.events;
      r := Publish(v.event, v.observed, v.next);
      CommitLasts(v.event, before, written, shared.store.events);
    }

    /** Appends a validated event, expecting the version it was validated against. */
    method AppendCandidate(v: Candidate, ghost before: seq<Event>, token: Option<nat>) returns (ok: bool)
      requires shared.Valid() && before <= shared.store.events && Validated(v, before, shared.store.events)
      modifies shared.Repr()
      ensures shared.Valid() && old(shared.store.events) <= shared.store.events
      ensures ok ==> Landed(v, before, shared.store.events)
      ensures old(shared.Quiet()) ==>
                && shared.Quiet() && (ok <==> old(shared.Refusal(v.event, token)).None?)
                && (ok ==> shared.store.events == old(shared.store.events) + [v.event])
    {
      ghost var seen := shared.store.events;
      ghost var at;
      ok, at := shared.Append(v.event, v.event.sequence - 1, token);
      if ok {
        CommitReady(v, before, seen, at);
      }
    }

    /** Validates against the authoritative state, commits, and publishes; a view that cannot be repaired does not undo
        the commit. Whatever others do to views and log meanwhile, the event extends a history that projects. */
    method RecordEvent(id: EventId, aggregate: int, fact: Fact, now: int, command: CommandId, token: Option<nat>)
      returns (r: Recording)
      requires shared.Valid()
      modifies shared.Repr()
      ensures shared.Valid() && old(shared.store.events) <= shared.store.events
      ensures !r.NotRecorded? ==> r.event.(sequence := 0) == Event(id, aggregate, 0, now, fact, command)
      ensures !r.NotRecorded? ==> ExtendsHistory(r.event, old(shared.store.events), shared.store.events)
      ensures old(shared.Quiet()) && !r.NotRecorded? ==>
                QuietOutcome(r.event, old(shared.store.events), shared.store.events, shared.repository.states, r)
      ensures old(shared.Quiet()) ==>
                var e := Stamped(id, aggregate, fact, now, command, old(shared.store.events));
                RecordedOrRefused(old(shared.store.events), e, old(shared.Refusal(e, token)), r)
    {
      ghost var e := Stamped(id, aggregate, fact, now, command, shared.store.events);
      ghost var refusal := shared.Refusal(e, token);
      var candidate, before := ValidateEvent(id, aggregate, fact, now, command);
      assert old(shared.Quiet()) ==> shared.Refusal(e, token) == refusal;
      if candidate.None? {
        return NotRecorded;
      }
      r := CommitCandidate(candidate.value, before, token);
      if !r.NotRecorded? {
        ExtendsEarlier(r.event, before, shared.store.events, old(shared.store.events));
      }
    }
  }

  /** With nobody else about, the event is recorded exactly if the history projects with and without it and the store
      does not refuse it; otherwise nothing is. */
  ghost predicate RecordedOrRefused(log: seq<Event>, event: Event, refusal: Option<CommandError>, r: Recording) {
    r == if Continues(log, event) && refusal.None? then Recorded(event) else NotRecorded
  }

  /** `event` was appended, somewhere between `before` and `after`, to a history that projects with and without it. */
  ghost predicate ExtendsHistory(event: Event, before: seq<Event>, after: seq<Event>) {
    exists at :: before <= at && at + [event] <= after && Continues(at, event)
  }

  /** An event that was recorded extends a history that projects. */
  ghost predicate CommitOutcome(event: Event, before: seq<Event>, after: seq<Event>, r: Recording) {
    !r.NotRecorded? ==> r.event == event && ExtendsHistory(event, before, after)
  }

  /** With nobody else about, the log is one event longer and the view is its replay. */
  ghost predicate QuietOutcome(event: Event, before: seq<Event>, after: seq<Event>, views: map<int, State>,
                               r: Recording)
  {
    !r.NotRecorded? ==>
      && r.Recorded? && after == before + [event]
      && Returns(ViewOf(views, event.aggregate)) == Project(Known(after, event.aggregate))
  }

  /** The event is in the log, which now replays to the candidate's next state. */
  ghost predicate Landed(v: Candidate, before: seq<Event>, log: seq<Event>) {
    && v.next.aggregate == v.event.aggregate && Swappable(v.event.aggregate, v.observed, v.next)
    && v.observed != Some(v.next)
    && Project(Known(log, v.event.aggregate)) == Returns(Some(v.next))
    && ExtendsHistory(v.event, before, log)
  }

  lemma CommitReady(v: Candidate, before: seq<Event>, seen: seq<Event>, at: seq<Event>)
    requires before <= seen <= at && Validated(v, before, seen)
    requires |Known(at, v.event.aggregate)| == v.event.sequence - 1
    ensures Landed(v, before, at + [v.event])
  {
    ValidatedAppendContinues(v, before, seen, at);
    CandidateIsSwappable(v, before, seen);
    assert Continues(at, v.event);
  }

  lemma CommitLasts(event: Event, before: seq<Event>, written: seq<Event>, after: seq<Event>)
    requires ExtendsHistory(event, before, written) && written <= after
    ensures ExtendsHistory(event, before, after)
  {
    var at :| before <= at && at + [event] <= written && Continues(at, event);
    assert at + [event] <= after;
  }

  lemma ExtendsEarlier(event: Event, before: seq<Event>, after: seq<Event>, earlier: seq<Event>)
    requires ExtendsHistory(event, before, after) && earlier <= before
    ensures ExtendsHistory(event, earlier, after)
  {
    var at :| before <= at && at + [event] <= after && Continues(at, event);
    assert earlier <= at;
  }

  /** The event the engine makes of a fact: numbered next in its aggregate. */
  function Stamped(id: EventId, aggregate: int, fact: Fact, now: int, command: CommandId, log: seq<Event>): Event {
    Event(id, aggregate, |Known(log, aggregate)| + 1, now, fact, command)
  }

  /** The next event applies exactly if the history still projects with it. */
  lemma ContinuesIffApplies(log: seq<Event>, event: Event, state: Option<State>)
    requires Project(Known(log, event.aggregate)) == Returns(state)
    ensures Continues(log, event) <==> Apply(Basis(state, event.aggregate), event).Some?
  {
    SelectAppend(log, event, OfAggregate(event.aggregate));
    ProjectNext(Known(log, event.aggregate), event);
  }

  ghost predicate Continues(log: seq<Event>, event: Event) {
    && Project(Known(log, event.aggregate)).Returns?
    && Project(Known(log + [event], event.aggregate)).Returns?
  }

  /** An event with the state it was validated against and the state it leads to. */
  datatype Candidate = Candidate(event: Event, observed: Option<State>, next: State)

  /** The state is a replay taken since the last sequence number was read, and the event applies to it. */
  ghost predicate Validated(v: Candidate, before: seq<Event>, seen: seq<Event>) {
    && v.event.sequence == |Known(before, v.event.aggregate)| + 1
    && ReplayBetween(v.observed, v.event.aggregate, before, seen)
    && Apply(Basis(v.observed, v.event.aggregate), v.event) == Some(v.next)
  }

  lemma CandidateIsSwappable(v: Candidate, before: seq<Event>, seen: seq<Event>)
    requires Validated(v, before, seen)
    ensures v.next.aggregate == v.event.aggregate && Swappable(v.event.aggregate, v.observed, v.next)
    ensures v.observed != Some(v.next)
  {
  }

  /** The heart of the engine's safety: an event validated against a replay between reading the last sequence number
      and appending with that number expected extends exactly the history it was validated against. */
  lemma ValidatedAppendContinues(v: Candidate, before: seq<Event>, seen: seq<Event>, at: seq<Event>)
    requires before <= seen <= at && Validated(v, before, seen)
    requires |Known(at, v.event.aggregate)| == v.event.sequence - 1
    ensures Project(Known(at, v.event.aggregate)) == Returns(v.observed)
    ensures Project(Known(at + [v.event], v.event.aggregate)) == Returns(Some(v.next))
  {
    var a := v.event.aggregate;
    var log :| before <= log <= seen && Project(Known(log, a)) == Returns(v.observed);
    SelectPrefix(before, log, OfAggregate(a));
    SelectPrefix(log, at, OfAggregate(a));
    assert Known(log, a) == Known(at, a);
    SelectAppend(at, v.event, OfAggregate(a));
    ProjectNext(Known(at, a), v.event);
  }

  /** A reconciliation in a later part of an interval is one in the interval. */
  lemma ReconciledWithin(aggregate: int, before: seq<Event>, between: seq<Event>, after: seq<Event>,
                         tried: seq<Swap>, swaps: seq<Swap>, r: Views.Reply)
    requires Reconciled(aggregate, between, after, tried, swaps, r) && before <= between <= after
    ensures Reconciled(aggregate, before, after, tried, swaps, r)
  {
    forall i | |tried| <= i < |swaps| ensures ReplayingSwap(swaps[i], aggregate, before, after) {
      ReplayWithin(Some(swaps[i].next), aggregate, between, after, before, after);
    }
    if r.Gave? {
      ReplayWithin(r.state, aggregate, between, after, before, after);
    } else if |swaps| != |tried| + 3 {
      NothingWithin(aggregate, between, after, before, after);
    }
  }

  /** Publishing a replay answers a replay. */
  lemma WrittenIsReplay(aggregate: int, expected: Option<State>, next: State, before: seq<Event>, between: seq<Event>,
                        after: seq<Event>, tried: seq<Swap>, swaps: seq<Swap>, r: Views.Reply)
    requires Written(aggregate, expected, next, between, after, tried, swaps, r)
    requires before <= between <= after && ReplayBetween(Some(next), aggregate, before, between)
    ensures r.Gave? ==> ReplayBetween(r.state, aggregate, before, after)
  {
    ReplayWithin(Some(next), aggregate, before, between, before, after);
    if expected != Some(next) && !swaps[|tried|].applied && r.Gave? {
      ReplayWithin(r.state, aggregate, between, after, before, after);
    }
  }

  /** What publishing a state may do: nothing if it is what was observed; otherwise one swap of it for the observed
      state, and when that lost, a reconciliation, which never forces the stale candidate through. */
  ghost predicate Written(aggregate: int, expected: Option<State>, next: State, before: seq<Event>, after: seq<Event>,
                          tried: seq<Swap>, swaps: seq<Swap>, r: Views.Reply)
  {
    if expected == Some(next) then swaps == tried && r == Gave(expected)
    else
      && |swaps| > |tried|
      && var first := swaps[|tried|];
      && first == Swap(aggregate, expected, next, first.applied)
      && (if first.applied then swaps == tried + [first] && r == Gave(Some(next))
          else Reconciled(aggregate, before, after, tried + [first], swaps, r))
  }

  /** What recording an event answers: nothing recorded, recorded, or recorded while the view could not be repaired. */
  datatype Recording = NotRecorded | Recorded(event: Event) | Unrepaired(event: Event)

  /** Every swap so far was of a replayed state and lost, and there was at most one per attempt. */
  ghost predicate Beaten(aggregate: int, before: seq<Event>, after: seq<Event>, tried: seq<Swap>, swaps: seq<Swap>,
                         attempts: nat)
  {
    && tried <= swaps && |swaps| == |tried| + attempts
    && forall i :: |tried| <= i < |swaps| ==> ReplayingSwap(swaps[i], aggregate, before, after) && !swaps[i].applied
  }

  lemma BeatenLater(aggregate: int, before: seq<Event>, between: seq<Event>, after: seq<Event>,
                    tried: seq<Swap>, swaps: seq<Swap>, attempts: nat)
    requires Beaten(aggregate, before, between, tried, swaps, attempts) && between <= after
    ensures Beaten(aggregate, before, after, tried, swaps, attempts)
  {
    forall i | |tried| <= i < |swaps| ensures ReplayingSwap(swaps[i], aggregate, before, after) {
      ReplayWithin(Some(swaps[i].next), aggregate, before, between, before, after);
    }
  }

  /** One more attempt after some lost ones. */
  lemma AttemptCounts(aggregate: int, before: seq<Event>, between: seq<Event>, after: seq<Event>,
                      tried: seq<Swap>, sofar: seq<Swap>, swaps: seq<Swap>, attempts: nat, r: Option<Views.Reply>)
    requires Beaten(aggregate, before, between, tried, sofar, attempts) && attempts < ATTEMPTS
    requires Attempted(aggregate, between, after, sofar, swaps, r) && before <= between <= after
    ensures if r.Some? then Reconciled(aggregate, before, after, tried, swaps, r.value)
            else Beaten(aggregate, before, after, tried, swaps, attempts + 1)
  {
    BeatenLater(aggregate, before, between, after, tried, sofar, attempts);
    if r.Some? && r.value.Gave? {
      ReplayWithin(r.value.state, aggregate, between, after, before, after);
    }
    if r == Some(Threw) {
      NothingWithin(aggregate, between, after, before, after);
    }
    if swaps != sofar {
      ReplayWithin(Some(swaps[|sofar|].next), aggregate, between, after, before, after);
    }
  }
}
