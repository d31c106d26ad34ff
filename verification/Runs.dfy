/** Any number of calls, by any number of workers, interleaved over shared stores: reachable worlds. */
module Runs {
  import opened Events
  import opened StoreContracts
  import opened Stores
  import opened Coordinator
  import opened Ownership
  import opened OwnSteps
  import opened RowSteps

  /** Who appended an event, and under which generation (0 for a call without a key). */
  datatype Author = Author(call: nat, token: nat)

  datatype World = World(
    rows: map<CommandKey, Row>,
    log: seq<Event>,
    authors: seq<Author>,
    calls: map<nat, Call>,
    changes: map<CommandKey, nat>)

  datatype Move =
    | Begin(id: nat, key: Option<CommandKey>, request: Request, worker: string, ttl: int)
    | Take(id: nat, choice: Choice)
    | Crash(id: nat)

  const EMPTY := World(map[], [], [], map[], map[])

  function ChangesOf(w: World, key: Option<CommandKey>): nat {
    if key.Some? && key.value in w.changes then w.changes[key.value] else 0
  }

  function RowOf(w: World, key: Option<CommandKey>): Option<Row> {
    if key.Some? then Lookup(w.rows, key.value) else None
  }

  /** What a call with this key sees of the world. */
  function View(w: World, key: Option<CommandKey>): Shared {
    Shared(RowOf(w, key), w.log, ChangesOf(w, key))
  }

  /** The world after `call` became `call'` and its view became `s`. */
  function Put(w: World, call: Call, call': Call, s: Shared): World {
    World(
      if call.key.Some? && s.row.Some? then w.rows[call.key.value := s.row.value] else w.rows,
      s.log,
      if |s.log| > |w.log| then w.authors + [Author(call.id, if call.token.Some? then call.token.value else 0)]
      else w.authors,
      w.calls[call.id := call'],
      if call.key.Some? then w.changes[call.key.value := s.changes] else w.changes)
  }

  ghost function Next(w: World, move: Move): World {
    match move
    case Begin(id, key, request, worker, ttl) =>
      if id in w.calls then w
      else w.(calls := w.calls[id := Call(id, key, request, worker, ttl, None, [],
                                          if key.Some? then Reserving else Running, 0, ChangesOf(w, key), 0, 0)])
    case Take(id, choice) =>
      if id !in w.calls || w.calls[id].id != id then w
      else
        var call := w.calls[id];
        var r := Step(CommandOf(call), call, View(w, call.key), choice);
        Put(w, call, r.0, r.1)
    case Crash(id) =>
      if id !in w.calls || w.calls[id].pc.Ended? then w
      else w.(calls := w.calls[id := w.calls[id].(pc := Crashed)])
  }

  /** The world after a run: every reachable world is the result of some list of moves. */
  ghost function Run(moves: seq<Move>): World {
    if moves == [] then EMPTY else Next(Run(moves[..|moves| - 1]), moves[|moves| - 1])
  }

  /** Taking a step puts what the step computed. */
  lemma TakePuts(w: World, id: nat, choice: Choice, call: Call, s: Shared, call': Call, s': Shared)
    requires id in w.calls && w.calls[id] == call && call.id == id && s == View(w, call.key) && s.changes <= s'.changes
    requires StepPc(CommandOf(call), call, s, choice) == (call', s')
    ensures Next(w, Take(id, choice)) == Put(w, call, Noted(call, s, call', s'), s')
  {
  }

  /** The world as the stepping call leaves it: its locals, its row and the log; the counters play no part. */
  ghost predicate Shows(w: World, id: nat, key: CommandKey, call: Call, row: Option<Row>, log: seq<Event>) {
    && id in w.calls && w.calls[id].id == id && w.calls[id].key == Some(key)
    && w.calls[id].(own := 0, witnessed := 0) == call.(own := 0, witnessed := 0)
    && RowOf(w, Some(key)) == row && w.log == log
  }

  lemma TakeShows(w: World, id: nat, key: CommandKey, choice: Choice, call': Call, s': Shared)
    requires id in w.calls && w.calls[id].id == id && w.calls[id].key == Some(key)
    requires var s := View(w, Some(key)); s.changes <= s'.changes && (s.row.Some? ==> s'.row.Some?)
    requires StepPc(Key(key), w.calls[id], View(w, Some(key)), choice) == (call', s')
    requires call'.id == id && call'.key == Some(key)
    ensures Shows(Next(w, Take(id, choice)), id, key, call', s'.row, s'.log)
  {
    var call, s := w.calls[id], View(w, Some(key));
    TakePuts(w, id, choice, call, s, call', s');
  }

  /** One more move. */
  lemma RunsOn(moves: seq<Move>, move: Move)
    ensures Run(moves + [move]) == Next(Run(moves), move)
  {
    assert (moves + [move])[..|moves|] == moves;
  }

  /** Running on: the last of the further moves is taken after the others. */
  lemma RunsOnAfter(moves: seq<Move>, more: seq<Move>, shorter: seq<Move>, last: Move)
    requires more == shorter + [last]
    ensures Run(moves + more) == Next(Run(moves + shorter), last)
  {
    assert moves + more == moves + shorter + [last];
    RunsOn(moves + shorter, last);
  }

  function EventsIn(w: World, c: CommandId): seq<Event> {
    Select(w.log, OfCommand(c))
  }

  ghost predicate CallsInv(w: World) {
    forall id :: id in w.calls ==>
      w.calls[id].id == id &&
      CallInv(CommandOf(w.calls[id]), w.calls[id], RowOf(w, w.calls[id].key), EventsIn(w, CommandOf(w.calls[id])))
  }

  ghost predicate CommandsInv(w: World) {
    forall key: CommandKey :: CommandInv(Key(key), Lookup(w.rows, key), EventsIn(w, Key(key)))
  }

  predicate SameHold(a: Call, b: Call) {
    a.key.Some? && a.key == b.key && a.token == b.token
  }

  /** No two executions hold the same generation of a command. */
  ghost predicate HoldersInv(w: World) {
    forall i, j ::
      i in w.calls && j in w.calls && i != j && SameHold(w.calls[i], w.calls[j]) ==> w.calls[i].token.None?
  }

  /** The author of an event holds the generation the event was written under, and it is the row's current one. */
  ghost predicate Authored(w: World, event: Event, author: Author) {
    && author.call in w.calls && event.id.issuer == author.call
    && match event.command
       case Key(key) =>
         && key in w.rows && w.rows[key].token == author.token
         && w.calls[author.call].key == Some(key) && w.calls[author.call].token == Some(author.token)
       case Operation(id) => author == Author(id, 0) && w.calls[id].key.None?
  }

  ghost predicate AuthorsInv(w: World) {
    |w.authors| == |w.log| && forall n :: 0 <= n < |w.log| ==> Authored(w, w.log[n], w.authors[n])
  }

  ghost predicate Inv(w: World) {
    CallsInv(w) && CommandsInv(w) && HoldersInv(w) && AuthorsInv(w)
  }

  lemma CountersDoNotMatter(c: CommandId, call: Call, own: nat, witnessed: int, row: Option<Row>, events: seq<Event>)
    requires CallInv(c, call, row, events)
    ensures CallInv(c, call.(own := own, witnessed := witnessed), row, events)
  {
  }

  /** The hypotheses under which a step is analysed: an invariant world, a call in it, and what its step leads to. */
  ghost predicate Stepping(w: World, call: Call, call': Call, s': Shared) {
    && Inv(w) && call.id in w.calls && w.calls[call.id] == call
    && Sound(CommandOf(call), call, View(w, call.key), call', s')
  }

  lemma StepSound(w: World, id: nat, choice: Choice)
    requires Inv(w) && id in w.calls
    ensures var call := w.calls[id];
            var r := Step(CommandOf(call), call, View(w, call.key), choice);
            Stepping(w, call, r.0, r.1)
  {
    var call := w.calls[id];
    var c, s := CommandOf(call), View(w, call.key);
    assert CommandInv(c, s.row, EventsOf(s, c)) by {
      if call.key.Some? { assert CommandInv(Key(call.key.value), Lookup(w.rows, call.key.value), EventsIn(w, c)); }
    }
    StepPcSound(c, call, s, choice);
    var r := StepPc(c, call, s, choice);
    CountersDoNotMatter(c, r.0, Step(c, call, s, choice).0.own, Step(c, call, s, choice).0.witnessed,
                        r.1.row, EventsOf(r.1, c));
  }

  /** A step changes no other command's row or events. */
  lemma OtherCommandsUntouched(w: World, call: Call, call': Call, s': Shared, other: CommandId)
    requires Stepping(w, call, call', s') && other != CommandOf(call)
    ensures EventsIn(Put(w, call, call', s'), other) == EventsIn(w, other)
    ensures other.Key? ==> Lookup(Put(w, call, call', s').rows, other.key) == Lookup(w.rows, other.key)
  {
    if s'.log != w.log {
      SelectAppend(w.log, s'.log[|w.log|], OfCommand(other));
    }
  }

  /** The view of the stepping call after its step is the one the step computed. */
  lemma OwnView(w: World, call: Call, call': Call, s': Shared)
    requires Stepping(w, call, call', s')
    ensures var w' := Put(w, call, call', s');
            RowOf(w', call.key) == s'.row && EventsIn(w', CommandOf(call)) == EventsOf(s', CommandOf(call))
  {
  }

  lemma CallsKept(w: World, call: Call, call': Call, s': Shared)
    requires Stepping(w, call, call', s')
    ensures CallsInv(Put(w, call, call', s'))
  {
    var w' := Put(w, call, call', s');
    OwnView(w, call, call', s');
    forall id | id in w'.calls
      ensures w'.calls[id].id == id
      ensures CallInv(CommandOf(w'.calls[id]), w'.calls[id], RowOf(w', w'.calls[id].key),
                      EventsIn(w', CommandOf(w'.calls[id])))
    {
      if id != call.id {
        var other := w.calls[id];
        assert other.id == id;
        if CommandOf(other) == CommandOf(call) {
          SameCommandKept(w, call, call', s', other);
        } else {
          OtherCommandsUntouched(w, call, call', s', CommandOf(other));
        }
      }
    }
  }

  lemma SameCommandKept(w: World, call: Call, call': Call, s': Shared, other: Call)
    requires Stepping(w, call, call', s')
    requires other.id in w.calls && w.calls[other.id] == other && other.id != call.id
    requires CommandOf(other) == CommandOf(call)
    ensures CallInv(CommandOf(other), other, s'.row, EventsOf(s', CommandOf(other)))
  {
    var s := View(w, call.key);
    assert other.key.Some? && other.key == call.key;
    OthersKeepCall(CommandOf(call), other, s.row, EventsOf(s, CommandOf(call)), s'.row, EventsOf(s', CommandOf(call)),
                   call.token, call.id);
  }

  lemma CommandsKept(w: World, call: Call, call': Call, s': Shared)
    requires Stepping(w, call, call', s')
    ensures CommandsInv(Put(w, call, call', s'))
  {
    var w' := Put(w, call, call', s');
    OwnView(w, call, call', s');
    forall key: CommandKey ensures CommandInv(Key(key), Lookup(w'.rows, key), EventsIn(w', Key(key))) {
      if call.key != Some(key) {
        OtherCommandsUntouched(w, call, call', s', Key(key));
        assert CommandInv(Key(key), Lookup(w.rows, key), EventsIn(w, Key(key)));
      }
    }
  }

  lemma HoldersKept(w: World, call: Call, call': Call, s': Shared)
    requires Stepping(w, call, call', s')
    ensures HoldersInv(Put(w, call, call', s'))
  {
    if call'.token != call.token {
      forall j | j in w.calls && j != call.id && w.calls[j].key == call.key && call.key.Some? && w.calls[j].token.Some?
        ensures w.calls[j].token != call'.token
      {
        assert HolderInv(CommandOf(w.calls[j]), w.calls[j], RowOf(w, w.calls[j].key),
                         EventsIn(w, CommandOf(w.calls[j])));
      }
    }
  }

  lemma AuthorsKept(w: World, call: Call, call': Call, s': Shared)
    requires Stepping(w, call, call', s')
    ensures AuthorsInv(Put(w, call, call', s'))
  {
    var w' := Put(w, call, call', s');
    forall n | 0 <= n < |w'.log| ensures Authored(w', w'.log[n], w'.authors[n]) {
      if n < |w.log| {
        assert w'.log[n] == w.log[n] && w'.authors[n] == w.authors[n];
        AuthorKept(w, call, call', s', n);
      }
    }
  }

  /** An event keeps its author: the generation it was written under cannot move any more. */
  lemma AuthorKept(w: World, call: Call, call': Call, s': Shared, n: nat)
    requires Stepping(w, call, call', s') && n < |w.log|
    ensures Authored(Put(w, call, call', s'), w.log[n], w.authors[n])
  {
    assert Authored(w, w.log[n], w.authors[n]);
    if call.key.Some? && w.log[n].command == Key(call.key.value) {
      SelectMembers(w.log, OfCommand(CommandOf(call)), w.log[n]);
    }
  }

  lemma InvKept(w: World, move: Move)
    requires Inv(w)
    ensures Inv(Next(w, move))
  {
    match move
    case Begin(id, key, request, worker, ttl) =>
      if id !in w.calls {
        var call := Next(w, move).calls[id];
        NewcomerSound(w, call);
        OneCallReplaced(w, call);
      }
    case Crash(id) =>
      if id in w.calls {
        var call := w.calls[id];
        CrashedSound(CommandOf(call), call, RowOf(w, call.key), EventsIn(w, CommandOf(call)));
        OneCallReplaced(w, call.(pc := Crashed));
      }
    case Take(id, choice) =>
      if id in w.calls && w.calls[id].id == id {
        var call := w.calls[id];
        var r := Step(CommandOf(call), call, View(w, call.key), choice);
        StepSound(w, id, choice);
        PutKept(w, call, r.0, r.1);
      }
  }

  lemma PutKept(w: World, call: Call, call': Call, s': Shared)
    requires Stepping(w, call, call', s')
    ensures Inv(Put(w, call, call', s'))
  {
    CallsKept(w, call, call', s');
    CommandsKept(w, call, call', s');
    HoldersKept(w, call, call', s');
    AuthorsKept(w, call, call', s');
  }

  /** A call that has not begun has written nothing. */
  lemma NothingByNewcomer(w: World, id: nat, c: CommandId)
    requires Inv(w) && id !in w.calls
    ensures NoneBy(EventsIn(w, c), id) && EventsIn(w, Operation(id)) == []
  {
    forall e | e in EventsIn(w, c) ensures e.id.issuer != id {
      WrittenByKnownCall(w, c, e);
    }
    if EventsIn(w, Operation(id)) != [] {
      WrittenByKnownCall(w, Operation(id), EventsIn(w, Operation(id))[0]);
    }
  }

  lemma WrittenByKnownCall(w: World, c: CommandId, event: Event)
    requires Inv(w) && event in EventsIn(w, c)
    ensures event.command == c && event.id.issuer in w.calls && (c.Operation? ==> event.id.issuer == c.call)
  {
    SelectMembers(w.log, OfCommand(c), event);
    var n :| 0 <= n < |w.log| && w.log[n] == event;
    assert Authored(w, w.log[n], w.authors[n]);
  }

  lemma NewcomerSound(w: World, call: Call)
    requires Inv(w) && call.id !in w.calls && call.token.None? && call.committed == []
    requires call.pc == if call.key.Some? then Reserving else Running
    ensures CallInv(CommandOf(call), call, RowOf(w, call.key), EventsIn(w, CommandOf(call)))
  {
    NothingByNewcomer(w, call.id, CommandOf(call));
  }

  /** A world that differs only in one call that is itself sound, and holds what it held. */
  lemma OneCallReplaced(w: World, call: Call)
    requires Inv(w)
    requires CallInv(CommandOf(call), call, RowOf(w, call.key), EventsIn(w, CommandOf(call)))
    requires if call.id in w.calls then w.calls[call.id].key == call.key && w.calls[call.id].token == call.token
             else call.token.None?
    ensures Inv(w.(calls := w.calls[call.id := call]))
  {
    AuthorsStay(w, call);
    CommandsStay(w, call);
    CallsStay(w, call);
    HoldersStay(w, call);
  }

  lemma CallsStay(w: World, call: Call)
    requires CallsInv(w)
    requires CallInv(CommandOf(call), call, RowOf(w, call.key), EventsIn(w, CommandOf(call)))
    ensures CallsInv(w.(calls := w.calls[call.id := call]))
  {
    var w' := w.(calls := w.calls[call.id := call]);
    assert forall c :: EventsIn(w', c) == EventsIn(w, c);
  }

  lemma HoldersStay(w: World, call: Call)
    requires HoldersInv(w)
    requires if call.id in w.calls then w.calls[call.id].key == call.key && w.calls[call.id].token == call.token
             else call.token.None?
    ensures HoldersInv(w.(calls := w.calls[call.id := call]))
  {
  }

  lemma CommandsStay(w: World, call: Call)
    requires CommandsInv(w)
    ensures CommandsInv(w.(calls := w.calls[call.id := call]))
  {
    var w' := w.(calls := w.calls[call.id := call]);
    forall key: CommandKey ensures CommandInv(Key(key), Lookup(w'.rows, key), EventsIn(w', Key(key))) {
      assert CommandInv(Key(key), Lookup(w.rows, key), EventsIn(w, Key(key)));
    }
  }

  lemma AuthorsStay(w: World, call: Call)
    requires AuthorsInv(w)
    requires call.id in w.calls ==> w.calls[call.id].key == call.key && w.calls[call.id].token == call.token
    ensures AuthorsInv(w.(calls := w.calls[call.id := call]))
  {
    var w' := w.(calls := w.calls[call.id := call]);
    forall n | 0 <= n < |w'.log| ensures Authored(w', w'.log[n], w'.authors[n]) {
      assert Authored(w, w.log[n], w.authors[n]);
    }
  }

  lemma CrashedSound(c: CommandId, call: Call, row: Option<Row>, events: seq<Event>)
    requires CallInv(c, call, row, events)
    ensures CallInv(c, call.(pc := Crashed), row, events)
  {
  }

  /** One move leads from `w` to `w'`. */
  ghost predicate Leads(w: World, w': World) {
    exists move :: Next(w, move) == w'
  }

  /** The worlds of a run, from the empty one on. */
  ghost predicate History(worlds: seq<World>) {
    worlds != [] && worlds[0] == EMPTY && forall i :: 0 <= i < |worlds| - 1 ==> Leads(worlds[i], worlds[i + 1])
  }

  /** Some run leads to `w`. */
  ghost predicate Reached(w: World) {
    exists worlds :: History(worlds) && worlds[|worlds| - 1] == w
  }

  lemma {:induction false} HistoryKeepsInv(worlds: seq<World>)
    requires History(worlds)
    ensures Inv(worlds[|worlds| - 1])
  {
    if |worlds| > 1 {
      var shorter := worlds[..|worlds| - 1];
      HistoryKeepsInv(shorter);
      var last := shorter[|shorter| - 1];
      assert Leads(last, worlds[|worlds| - 1]);
      var move :| Next(last, move) == worlds[|worlds| - 1];
      InvKept(last, move);
    }
  }

  /** Every reachable world satisfies the invariant. */
  lemma ReachedInv(w: World)
    requires Reached(w)
    ensures Inv(w)
  {
    var worlds :| History(worlds) && worlds[|worlds| - 1] == w;
    HistoryKeepsInv(worlds);
  }

  lemma LongerHistory(worlds: seq<World>, move: Move)
    requires History(worlds)
    ensures History(worlds + [Next(worlds[|worlds| - 1], move)])
  {
    var next := Next(worlds[|worlds| - 1], move);
    var longer := worlds + [next];
    forall i | 0 <= i < |longer| - 1 ensures Leads(longer[i], longer[i + 1]) {
      if i < |worlds| - 1 {
        assert Leads(worlds[i], worlds[i + 1]);
      } else {
        assert Next(longer[i], move) == longer[i + 1];
      }
    }
  }

  lemma ReachedNext(w: World, move: Move, w': World)
    requires Reached(w) && Next(w, move) == w'
    ensures Reached(w')
  {
    var worlds :| History(worlds) && worlds[|worlds| - 1] == w;
    LongerHistory(worlds, move);
  }

  /** Every run ends in a reached world. */
  lemma {:induction false} RunIsReached(moves: seq<Move>)
    ensures Reached(Run(moves))
  {
    if moves == [] {
      assert History([EMPTY]);
    } else {
      var shorter, last := moves[..|moves| - 1], moves[|moves| - 1];
      RunIsReached(shorter);
      assert moves == shorter + [last];
      RunsOn(shorter, last);
      var worlds :| History(worlds) && worlds[|worlds| - 1] == Run(shorter);
      LongerHistory(worlds, last);
    }
  }

  lemma RunInv(moves: seq<Move>)
    ensures Inv(Run(moves))
  {
    RunIsReached(moves);
    ReachedInv(Run(moves));
  }

  lemma {:induction false} HistoryIsRun(worlds: seq<World>)
    requires History(worlds)
    ensures exists moves :: Run(moves) == worlds[|worlds| - 1]
  {
    if |worlds| == 1 {
      assert Run([]) == EMPTY;
    } else {
      var shorter := worlds[..|worlds| - 1];
      HistoryIsRun(shorter);
      var moves :| Run(moves) == shorter[|shorter| - 1];
      assert Leads(shorter[|shorter| - 1], worlds[|worlds| - 1]);
      var move :| Next(Run(moves), move) == worlds[|worlds| - 1];
      RunsOn(moves, move);
    }
  }

  /** The reached worlds are those in which a list of moves ends. */
  lemma ReachedIffRun(w: World)
    ensures Reached(w) <==> exists moves :: Run(moves) == w
  {
    if Reached(w) {
      var worlds :| History(worlds) && worlds[|worlds| - 1] == w;
      HistoryIsRun(worlds);
    }
    if moves :| Run(moves) == w {
      RunIsReached(moves);
    }
  }
}
