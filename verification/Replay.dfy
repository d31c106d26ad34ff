/** Reading an aggregate's state out of the log: in full, up to a sequence number or a moment, or from a snapshot. */
module Replay {
  import opened Events
  import opened Projection
  import opened Stores

  /** The events numbered at most `target`: what a plain filter returns. */
  function UpTo(known: seq<Event>, target: int): seq<Event> {
    if known == [] then [] else
      UpTo(known[..|known| - 1], target)
      + if known[|known| - 1].sequence <= target then [known[|known| - 1]] else []
  }

  lemma {:induction false} UpToIsPrefix(known: seq<Event>, target: nat)
    requires Dense(known)
    ensures UpTo(known, target) == if target < |known| then known[..target] else known
  {
    if known != [] {
      UpToIsPrefix(known[..|known| - 1], target);
      assert known[..|known| - 1] + [known[|known| - 1]] == known;
    }
  }

  /** The state after the first `target` events; none for an aggregate without events. */
  function AtSequence(aggregate: int, known: seq<Event>, target: nat): Replayed {
    if known == [] then Returns(None)
    else if target == 0 || UpTo(known, target) == [] then Returns(Some(InitialState(aggregate)))
    else Project(UpTo(known, target))
  }

  /** How many events of a chronological list are not later than `time`. */
  function CountUntil(known: seq<Event>, time: int): (n: nat)
    ensures n <= |known|
  {
    if known == [] || known[0].timestamp > time then 0 else 1 + CountUntil(known[1..], time)
  }

  lemma {:induction false} CountUntilSplits(known: seq<Event>, time: int)
    requires Chronological(known)
    ensures var n := CountUntil(known, time);
            && (forall i :: 0 <= i < n ==> known[i].timestamp <= time)
            && (forall i :: n <= i < |known| ==> known[i].timestamp > time)
  {
    if known != [] && known[0].timestamp <= time {
      var rest := known[1..];
      assert forall i :: 0 <= i < |rest| ==> rest[i] == known[i + 1];
      CountUntilSplits(rest, time);
      forall i | CountUntil(known, time) <= i < |known| ensures known[i].timestamp > time {
        assert known[i] == rest[i - 1];
      }
      forall i | 0 <= i < CountUntil(known, time) ensures known[i].timestamp <= time {
        if i > 0 { assert known[i] == rest[i - 1]; }
      }
    }
  }

  method ReplayAggregate(store: InMemoryEventStore, aggregate: int) returns (r: Replayed)
    requires store.Valid()
    ensures r == Project(Select(store.events, OfAggregate(aggregate)))
  {
    var known := store.GetByAggregateId(aggregate);
    r := ProjectEvents(known);
  }

  method ReplayAtSequence(store: InMemoryEventStore, aggregate: int, target: nat) returns (r: Replayed)
    requires store.Valid()
    ensures r == AtSequence(aggregate, Select(store.events, OfAggregate(aggregate)), target)
  {
    var known := store.GetByAggregateId(aggregate);
    if known == [] {
      return Returns(None);
    }
    if target == 0 {
      return Returns(Some(InitialState(aggregate)));
    }
    var prefix: seq<Event> := [];
    for i := 0 to |known|
      invariant prefix == UpTo(known[..i], target)
    {
      assert known[..i + 1][..i] == known[..i];
      if known[i].sequence <= target {
        prefix := prefix + [known[i]];
      }
    }
    assert known[..|known|] == known;
    if prefix == [] {
      return Returns(Some(InitialState(aggregate)));
    }
    r := ProjectEvents(prefix);
  }

  lemma AtSequenceOfPrefix(aggregate: int, known: seq<Event>, n: nat)
    requires Dense(known) && known != [] && n <= |known|
    ensures AtSequence(aggregate, known, n)
            == if n == 0 then Returns(Some(InitialState(aggregate))) else Project(known[..n])
  {
    UpToIsPrefix(known, n);
    assert known[..|known|] == known;
  }

  /** Time travel by timestamp projects exactly the events not later than `time`, which is time travel by sequence
      to their number. */
  method ReplayAt(store: InMemoryEventStore, aggregate: int, time: int) returns (r: Replayed)
    requires store.Valid()
    ensures var known := Select(store.events, OfAggregate(aggregate));
            r == AtSequence(aggregate, known, CountUntil(known, time))
  {
    var known := store.GetByAggregateId(aggregate);
    assert Dense(known) && Chronological(known);
    if known == [] {
      return Returns(None);
    }
    var prefix := TakeUntil(known, time);
    AtSequenceOfPrefix(aggregate, known, CountUntil(known, time));
    if prefix == [] {
      return Returns(Some(InitialState(aggregate)));
    }
    r := ProjectEvents(prefix);
  }

  /** The loop that stops at the first later event. */
  method TakeUntil(known: seq<Event>, time: int) returns (prefix: seq<Event>)
    ensures prefix == known[..CountUntil(known, time)]
  {
    prefix := [];
    var i := 0;
    while i < |known| && known[i].timestamp <= time
      invariant 0 <= i <= |known| && prefix == known[..i]
      invariant CountUntil(known, time) == i + CountUntil(known[i..], time)
    {
      prefix := prefix + [known[i]];
      assert known[i..][1..] == known[i + 1..];
      i := i + 1;
    }
  }

  /** A stored snapshot: any contents whatsoever, including a timestamp that is not in normal form. */
  datatype StoredSnapshot = StoredSnapshot(aggregate: int, version: int, normalTimestamp: bool, state: Option<State>)

  /** What reading the snapshot store yields. */
  datatype SnapshotRead = ReadThrows | NoSnapshot | Found(snapshot: StoredSnapshot)

  method SnapshotMatchesEventPrefix(snapshot: StoredSnapshot, aggregate: int, known: seq<Event>) returns (ok: bool)
    ensures ok ==> 0 < snapshot.version <= |known| && Project(known[..snapshot.version]) == Returns(snapshot.state)
  {
    if snapshot.aggregate != aggregate || snapshot.version <= 0 || snapshot.version > |known|
       || !snapshot.normalTimestamp {
      return false;
    }
    var expected := ProjectEvents(known[..snapshot.version]);
    return expected == Returns(snapshot.state);
  }

  /** Whatever the snapshot store holds or throws, replaying from it equals the full replay. */
  method ReplayFromSnapshot(store: InMemoryEventStore, aggregate: int, read: SnapshotRead) returns (r: Replayed)
    requires store.Valid()
    ensures r == Project(Select(store.events, OfAggregate(aggregate)))
  {
    var known := store.GetByAggregateId(aggregate);
    if known == [] {
      return Returns(None);
    }
    if !read.Found? {
      r := ProjectEvents(known);
      return;
    }
    var matches := SnapshotMatchesEventPrefix(read.snapshot, aggregate, known);
    if !matches {
      r := ProjectEvents(known);
      return;
    }
    var version := read.snapshot.version;
    var state := read.snapshot.state.value;
    for i := version to |known|
      invariant Project(known[..i]) == Returns(Some(state))
    {
      ProjectAppend(known[..i], known[i]);
      assert known[..i + 1] == known[..i] + [known[i]];
      match Apply(state, known[i]) {
        case None =>
          assert known[..i + 1][0] == known[0];
          FoldStuck(InitialState(known[0].aggregate), known, i + 1);
          return Throws;
        case Some(next) =>
          state := next;
      }
    }
    assert known[..|known|] == known;
    return Returns(Some(state));
  }

  /** Every prefix of an accepted history is accepted, so time travel never throws on an accepted one. */
  lemma AtSequenceAccepts(aggregate: int, known: seq<Event>, target: nat)
    requires Dense(known) && Project(known).Returns?
    ensures AtSequence(aggregate, known, target).Returns?
    ensures 0 < target <= |known| ==> AtSequence(aggregate, known, target) == Project(known[..target])
    ensures target >= |known| > 0 ==> AtSequence(aggregate, known, target) == Project(known)
  {
    UpToIsPrefix(known, target);
    assert known[..|known|] == known;
    if 0 < target < |known| && Project(known[..target]).Throws? {
      FoldStuck(InitialState(known[0].aggregate), known, target);
    }
  }
}
