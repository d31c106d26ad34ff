/** Materialized views: the repository that holds them, and the bounded compare-and-swap that keeps replay the
    authority over them while other workers write the same views and append to the same log. */
module Views {
  import opened Events
  import opened Projection
  import opened StoreContracts
  import opened EventLog
  import opened Receipts
  import opened Replay
  import opened Stores

  const ATTEMPTS := 3

  function ViewOf(states: map<int, State>, aggregate: int): Option<State> {
    if aggregate in states then Some(states[aggregate]) else None
  }

  class InMemoryStateRepository {
    var states: map<int, State>

    /** Every stored view is well shaped and filed under its own aggregate; what it says is another matter. */
    ghost predicate Valid()
      reads this
    {
      forall a :: a in states ==> states[a].aggregate == a && ValidState(states[a])
    }

    constructor ()
      ensures Valid() && states == map[]
    {
      states := map[];
    }

    method GetByAggregateId(aggregate: int) returns (r: Option<State>)
      ensures r == ViewOf(states, aggregate)
    {
      r := if aggregate in states then Some(states[aggregate]) else None;
    }

    method Save(state: State) returns (ok: bool)
      requires Valid()
      modifies this
      ensures Valid()
      ensures ok == (ValidState(state) && state.aggregate !in old(states))
      ensures states == if ok then old(states)[state.aggregate := state] else old(states)
    {
      if !ValidState(state) || state.aggregate in states {
        return false;
      }
      states := states[state.aggregate := state];
      return true;
    }

    method Replace(state: State) returns (ok: bool)
      requires Valid()
      modifies this
      ensures Valid()
      ensures ok == (ValidState(state) && state.aggregate in old(states))
      ensures states == if ok then old(states)[state.aggregate := state] else old(states)
    {
      if !ValidState(state) || state.aggregate !in states {
        return false;
      }
      states := states[state.aggregate := state];
      return true;
    }

    method Reset()
      modifies this
      ensures Valid() && states == map[]
    {
      states := map[];
    }

    /** Not an operation the engine has: what an outside hand may do to one stored view. */
    method Remove(aggregate: int)
      requires Valid()
      modifies this
      ensures Valid() && states == old(states) - {aggregate}
    {
      states := states - {aggregate};
    }

    /** Stores `next` exactly if the view is still the expected one (None: absent); None where the source throws. */
    method CompareAndSwap(aggregate: int, expected: Option<State>, next: State) returns (applied: Option<bool>)
      requires Valid()
      modifies this
      ensures Valid()
      ensures applied.None? <==> !Swappable(aggregate, expected, next)
      ensures applied.Some? ==> applied.value == (ViewOf(old(states), aggregate) == expected)
      ensures states == if applied == Some(true) then old(states)[aggregate := next] else old(states)
    {
      if !PositiveSafe(aggregate) || !ValidState(next) || next.aggregate != aggregate {
        return None;
      }
      if expected.Some? && (!ValidState(expected.value) || expected.value.aggregate != aggregate) {
        return None;
      }
      var current := GetByAggregateId(aggregate);
      if current != expected {
        return Some(false);
      }
      var stored;
      if current.Some? {
        stored := Replace(next);
      } else {
        stored := Save(next);
      }
      return Some(true);
    }
  }

  predicate Swappable(aggregate: int, expected: Option<State>, next: State) {
    && PositiveSafe(aggregate) && ValidState(next) && next.aggregate == aggregate
    && (expected.Some? ==> ValidState(expected.value) && expected.value.aggregate == aggregate)
  }

  /** What may happen between two accesses of ours: any view is overwritten with any well-shaped state, right or
      wrong, one view or all are removed, or any event the store accepts is appended. */
  datatype Interference =
    | Overwrites(state: State)
    | Removes(aggregate: int)
    | Resets
    | Appends(event: Event, expected: int, token: Option<nat>)

  datatype Swap = Swap(aggregate: int, expected: Option<State>, next: State, applied: bool)

  /** A view or state the engine hands on, or None where it throws. */
  datatype Reply = Threw | Gave(state: Option<State>)

  /** `state` is the replay of `aggregate` over some log between `before` and `after`. */
  ghost predicate ReplayBetween(state: Option<State>, aggregate: int, before: seq<Event>, after: seq<Event>) {
    exists log :: before <= log <= after && Project(Known(log, aggregate)) == Returns(state)
  }

  /** One engine's access to shared stores: before each access, other workers run the next part of `script`. */
  class SharedStores {
    const repository: InMemoryStateRepository
    const store: InMemoryEventStore
    const commandStore: InMemoryCommandStore?
    var script: seq<seq<Interference>>
    ghost var swaps: seq<Swap>

    ghost predicate Valid()
      reads this, repository, store
    {
      repository.Valid() && store.Valid() && store.commandStore == commandStore
    }

    /** What the store would refuse an append of `event` with, right after the version before its own. */
    ghost function Refusal(event: Event, token: Option<nat>): Option<CommandError>
      reads store, store.commandStore
    {
      AppendError(store.events, store.Fencing(event, token), event, event.sequence - 1)
    }

    /** What accesses through here may change. */
    ghost function Repr(): set<object> {
      {this, repository, store}
    }

    /** Nobody else does anything any more. */
    ghost predicate Quiet()
      reads this
    {
      script == []
    }

    constructor (repository: InMemoryStateRepository, store: InMemoryEventStore, script: seq<seq<Interference>>)
      requires repository.Valid() && store.Valid()
      ensures Valid() && swaps == [] && this.script == script
      ensures this.repository == repository && this.store == store
    {
      this.repository, this.store, this.commandStore := repository, store, store.commandStore;
      this.script, this.swaps := script, [];
    }

    method Disturb()
      requires Valid()
      modifies Repr()
      ensures swaps == old(swaps)
      ensures Valid() && old(store.events) <= store.events
      ensures old(Quiet()) ==>
                Quiet() && repository.states == old(repository.states) && store.events == old(store.events)
    {
      if script == [] {
        return;
      }
      var moves := script[0];
      script := script[1..];
      for i := 0 to |moves|
        invariant Valid() && old(store.events) <= store.events && swaps == old(swaps)
      {
        match moves[i] {
          case Overwrites(state) =>
            var replaced := repository.Replace(state);
            if !replaced {
              replaced := repository.Save(state);
            }
          case Removes(aggregate) =>
            repository.Remove(aggregate);
          case Resets =>
            repository.Reset();
          case Appends(event, expected, token) =>
            var appended := store.Append(event, expected, token);
        }
      }
    }

    method Observe(aggregate: int) returns (r: Option<State>)
      requires Valid()
      modifies Repr()
      ensures swaps == old(swaps)
      ensures Valid() && old(store.events) <= store.events
      ensures old(Quiet()) ==>
                Quiet() && repository.states == old(repository.states) && store.events == old(store.events)
      ensures r == ViewOf(repository.states, aggregate)
    {
      Disturb();
      r := repository.GetByAggregateId(aggregate);
    }

    method Replay(aggregate: int) returns (r: Replayed)
      requires Valid()
      modifies Repr()
      ensures swaps == old(swaps)
      ensures Valid() && old(store.events) <= store.events
      ensures old(Quiet()) ==>
                Quiet() && repository.states == old(repository.states) && store.events == old(store.events)
      ensures r == Project(Known(store.events, aggregate))
    {
      Disturb();
      r := ReplayAggregate(store, aggregate);
    }

    /** A compare-and-swap, noted in `swaps`. */
    method CompareAndSwap(aggregate: int, expected: Option<State>, next: State) returns (applied: bool)
      requires Valid() && Swappable(aggregate, expected, next)
      modifies Repr()
      ensures Valid() && old(store.events) <= store.events
      ensures swaps == old(swaps) + [Swap(aggregate, expected, next, applied)]
      ensures applied ==> ViewOf(repository.states, aggregate) == Some(next)
      ensures old(Quiet()) ==>
                && Quiet() && store.events == old(store.events)
                && applied == (ViewOf(old(repository.states), aggregate) == expected)
                && repository.states == if applied then old(repository.states)[aggregate := next]
                                        else old(repository.states)
    {
      Disturb();
      var outcome := repository.CompareAndSwap(aggregate, expected, next);
      applied := outcome.value;
      swaps := swaps + [Swap(aggregate, expected, next, applied)];
    }

    /** The last sequence number of an aggregate, as someone sees it between other workers' moves. */
    method GetLastSequence(aggregate: int) returns (r: int)
      requires Valid()
      modifies Repr()
      ensures swaps == old(swaps)
      ensures Valid() && old(store.events) <= store.events
      ensures old(Quiet()) ==>
                Quiet() && repository.states == old(repository.states) && store.events == old(store.events)
      ensures r == |Known(store.events, aggregate)|
    {
      Disturb();
      r := store.GetLastSequence(aggregate);
    }

    /** An append, after whatever others appended first. */
    method Append(event: Event, expected: int, token: Option<nat>) returns (ok: bool, ghost at: seq<Event>)
      requires Valid()
      modifies Repr()
      ensures swaps == old(swaps)
      ensures Valid() && old(store.events) <= at
      ensures old(Quiet()) ==> Quiet() && repository.states == old(repository.states) && at == old(store.events)
      ensures old(Quiet()) && expected == event.sequence - 1 ==> (ok <==> old(Refusal(event, token)).None?)
      ensures ok ==> store.events == at + [event] && AppendError(at, None, event, expected).None?
      ensures !ok ==> store.events == at
    {
      Disturb();
      at := store.events;
      var reply := store.Append(event, expected, token);
      ok := reply.Done?;
    }
  }
}
