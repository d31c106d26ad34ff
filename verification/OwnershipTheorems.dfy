/** What holds in every interleaving of any number of calls, with crashes, lost acknowledgements and failing reads. */
module OwnershipTheorems {
  import opened Events
  import opened StoreContracts
  import opened CommandRows
  import opened Stores
  import opened Coordinator
  import opened Ownership
  import opened Runs

  /** At most once: all events of one command were appended by one execution under one generation. */
  lemma AtMostOnce(w: World, m: nat, n: nat)
    requires Reached(w) && m < n < |w.log| && w.log[m].command == w.log[n].command
    ensures |w.authors| == |w.log| && w.authors[m] == w.authors[n]
  {
    ReachedInv(w);
    assert Authored(w, w.log[m], w.authors[m]) && Authored(w, w.log[n], w.authors[n]);
    assert w.log[m].command.Key? ==> SameHold(w.calls[w.authors[m].call], w.calls[w.authors[n].call]);
  }

  /** What a run may do to a command: its generation never decreases, events are only appended and never under a new
      generation, and a completed row stays as it is. */
  ghost predicate Evolves(row: Option<Row>, events: seq<Event>, row': Option<Row>, events': seq<Event>) {
    && events <= events'
    && (row.Some? ==>
          && row'.Some?
          && row'.value.request == row.value.request
          && row.value.token <= row'.value.token
          && (events != [] ==> row'.value.token == row.value.token)
          && (row.value.token == row'.value.token ==> Rank(row.value.status) <= Rank(row'.value.status))
          && (row.value.token == row'.value.token && row.value.status != Processing ==> events' == events)
          && (row.value.status == Finished ==> row' == row))
  }

  lemma RelyEvolves(row: Option<Row>, events: seq<Event>, row': Option<Row>, events': seq<Event>,
                    mover: Option<nat>, id: nat)
    requires Rely(row, events, row', events', mover, id)
    ensures Evolves(row, events, row', events')
  {
  }

  lemma EvolvesTransitive(row: Option<Row>, events: seq<Event>, row': Option<Row>, events': seq<Event>,
                          row'': Option<Row>, events'': seq<Event>)
    requires Evolves(row, events, row', events') && Evolves(row', events', row'', events'')
    ensures Evolves(row, events, row'', events'')
  {
  }

  /** One move, as every command sees it. */
  lemma MoveEvolves(w: World, move: Move, key: CommandKey)
    requires Inv(w)
    ensures var w' := Next(w, move);
            Evolves(Lookup(w.rows, key), EventsIn(w, Key(key)), Lookup(w'.rows, key), EventsIn(w', Key(key)))
  {
    if move.Take? && move.id in w.calls && w.calls[move.id].id == move.id {
      var call := w.calls[move.id];
      var r := Step(CommandOf(call), call, View(w, call.key), move.choice);
      StepSound(w, move.id, move.choice);
      SoundEvolves(w, call, r.0, r.1, key);
    }
  }

  /** A sound step, as every command sees it. */
  lemma SoundEvolves(w: World, call: Call, call': Call, s': Shared, key: CommandKey)
    requires Stepping(w, call, call', s')
    ensures var w' := Put(w, call, call', s');
            Evolves(Lookup(w.rows, key), EventsIn(w, Key(key)), Lookup(w'.rows, key), EventsIn(w', Key(key)))
  {
    if call.key == Some(key) {
      OwnView(w, call, call', s');
      RelyEvolves(RowOf(w, call.key), EventsIn(w, Key(key)), s'.row, EventsOf(s', Key(key)), call.token, call.id);
    } else {
      OtherCommandsUntouched(w, call, call', s', Key(key));
    }
  }

  /** Over every continuation of every run: tokens never decrease, a generation with an event is final, and a completed
      row and its events never change again. */
  lemma {:induction false} CommandsEvolve(moves: seq<Move>, more: seq<Move>, key: CommandKey)
    ensures var w, w' := Run(moves), Run(moves + more);
            Evolves(Lookup(w.rows, key), EventsIn(w, Key(key)), Lookup(w'.rows, key), EventsIn(w', Key(key)))
  {
    if more == [] {
      assert moves + more == moves;
    } else {
      var shorter, last := more[..|more| - 1], more[|more| - 1];
      RunsOnAfter(moves, more, shorter, last);
      var w, mid, w' := Run(moves), Run(moves + shorter), Run(moves + more);
      CommandsEvolve(moves, shorter, key);
      RunInv(moves + shorter);
      MoveEvolves(mid, last, key);
      EvolvesTransitive(Lookup(w.rows, key), EventsIn(w, Key(key)), Lookup(mid.rows, key), EventsIn(mid, Key(key)),
                        Lookup(w'.rows, key), EventsIn(w', Key(key)));
    }
  }

  /** A generation that an execution acquires is above every generation the command ever had: also above those whose
      acknowledgement was lost, which no execution holds. */
  lemma GenerationsNeverRepeat(moves: seq<Move>, more: seq<Move>, key: CommandKey, id: nat, choice: Choice)
    requires key in Run(moves).rows
    requires var w := Run(moves + more);
             id in w.calls && w.calls[id].key == Some(key) && w.calls[id].token.None?
    requires Next(Run(moves + more), Take(id, choice)).calls[id].token.Some?
    ensures Next(Run(moves + more), Take(id, choice)).calls[id].token.value > Run(moves).rows[key].token
  {
    var w := Run(moves + more);
    CommandsEvolve(moves, more, key);
    RunInv(moves + more);
    AcquiredIsNew(w, key, id, choice);
  }

  /** An acquired generation is above the row's, and so above every one an execution holds. */
  lemma AcquiredIsNew(w: World, key: CommandKey, id: nat, choice: Choice)
    requires Inv(w) && key in w.rows && id in w.calls && w.calls[id].key == Some(key) && w.calls[id].token.None?
    requires Next(w, Take(id, choice)).calls[id].token.Some?
    ensures Next(w, Take(id, choice)).calls[id].token.value > w.rows[key].token
    ensures forall other :: other in w.calls && w.calls[other].key == Some(key) && w.calls[other].token.Some? ==>
              w.rows[key].token >= w.calls[other].token.value
  {
    StepSound(w, id, choice);
    forall other | other in w.calls && w.calls[other].key == Some(key) && w.calls[other].token.Some?
      ensures w.rows[key].token >= w.calls[other].token.value
    {
      assert HolderInv(CommandOf(w.calls[other]), w.calls[other], RowOf(w, w.calls[other].key),
                       EventsIn(w, CommandOf(w.calls[other])));
    }
  }

  /** An execution changes its command's row only while it holds the row's current generation. */
  lemma OwnersActOnTheirGeneration(w: World, id: nat, choice: Choice)
    requires Reached(w) && id in w.calls && w.calls[id].key.Some? && w.calls[id].token.Some?
    requires RowOf(Next(w, Take(id, choice)), w.calls[id].key) != RowOf(w, w.calls[id].key)
    ensures RowOf(w, w.calls[id].key).Some? && RowOf(w, w.calls[id].key).value.token == w.calls[id].token.value
  {
    ReachedInv(w);
    StepSound(w, id, choice);
    var call := w.calls[id];
    var r := Step(CommandOf(call), call, View(w, call.key), choice);
    OwnView(w, call, r.0, r.1);
  }

  /** Honest answers: an error that says nothing was committed comes from a call that left no event in the log, and one
      that says something was means that the command has at least one event. */
  lemma HonestAnswers(w: World, id: nat, error: CommandError)
    requires Reached(w) && id in w.calls && w.calls[id].pc == Ended(Thrown(error))
    ensures |w.authors| == |w.log|
    ensures error.committed == No ==> forall n :: 0 <= n < |w.log| ==> w.authors[n].call != id
    ensures error.committed == Yes ==> EventsIn(w, CommandOf(w.calls[id])) != []
  {
    ReachedInv(w);
    var call := w.calls[id];
    var c := CommandOf(call);
    assert CallInv(c, call, RowOf(w, call.key), EventsIn(w, c));
    if error.committed == No {
      forall n | 0 <= n < |w.log| ensures w.authors[n].call != id {
        assert Authored(w, w.log[n], w.authors[n]);
        SelectMembers(w.log, OfCommand(c), w.log[n]);
      }
    }
  }

  /** A keyed call answers a result only if it is the result on record of its completed command. */
  lemma AnswersAreOnRecord(w: World, id: nat, key: CommandKey, result: Result)
    requires Reached(w) && id in w.calls && w.calls[id].key == Some(key) && w.calls[id].pc == Ended(Answer(result))
    ensures key in w.rows && OnRecord(w.calls[id], Some(w.rows[key]), result)
  {
    ReachedInv(w);
    var call := w.calls[id];
    assert CallInv(CommandOf(call), call, RowOf(w, call.key), EventsIn(w, CommandOf(call)));
  }

  /** Bookkeeping: every row's recorded range is the list of its command's events in the log or all but the last; a
      completed or revoked row records exactly the full list, and an inactive row has neither owner nor deadline. */
  lemma BookkeepingLags(w: World, key: CommandKey)
    requires Reached(w) && key in w.rows
    ensures var row, events := w.rows[key], EventsIn(w, Key(key));
            && Lags(Key(key), row.range, events)
            && (row.status == Finished ==> Covers(Key(key), row.range, events))
            && (row.status == Failed && row.error.Some? && row.error.value.code == InterruptedAfterCommit ==>
                  Covers(Key(key), row.range, events))
            && (row.status == Released ==> events == [])
            && (row.status != Processing ==> row.owner.None? && row.deadline.None?)
  {
    ReachedInv(w);
    assert CommandInv(Key(key), Lookup(w.rows, key), EventsIn(w, Key(key)));
  }

  /** In every reachable world, an abandoned processing command with contiguous events can be challenged in exactly one
      way once its deadline has passed, and in none before. */
  lemma ReachableChallenge(w: World, key: CommandKey, challenger: string, ttl: int, error: CommandError, now: int)
    requires Reached(w) && key in w.rows && w.rows[key].status == Processing
    requires var events := EventsIn(w, Key(key)); events != [] ==> BuildRange(Key(key), events).Some?
    requires challenger != "" && LeaseDeadline(now, ttl).Some?
    ensures var row, events := w.rows[key], EventsIn(w, Key(key));
            var takeover := TakeOver(Some(row), events, challenger, ttl, Some(row.token), now).1;
            var revocation := Revoke(Some(row), Key(key), events, row.token, error, now).1;
            && takeover.Done? && revocation.Done?
            && (takeover.value.Granted? <==> Expired(row, now) && events == [])
            && (revocation.value.Granted? <==> Expired(row, now) && events != [])
  {
    var row, events := w.rows[key], EventsIn(w, Key(key));
    ReachedInv(w);
    assert CommandInv(Key(key), Lookup(w.rows, key), events);
    var known := if Covers(Key(key), row.range, events) then |events| else |events| - 1;
    assert events[..|events|] == events;
    ExactlyOneChallenge(row, Key(key), events, known, challenger, ttl, error, now);
  }
}
