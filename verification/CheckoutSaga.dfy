/** The checkout saga and its reverse compensation, over a journal whose recordings may fail at any point. */
module CheckoutSaga {
  import opened Events
  import opened Projection
  import opened Histories

  datatype FailurePoint = AfterOrder | AfterInventory | AfterPayment

  datatype Context = Context(
    item: string, quantity: int, amount: real, failAt: Option<FailurePoint>,
    aggregate: int, reservationId: int, paymentId: int)

  predicate ValidContext(c: Context) {
    c.item != "" && PositiveSafe(c.quantity) && c.amount > 0.0
    && PositiveSafe(c.aggregate) && PositiveSafe(c.reservationId) && PositiveSafe(c.paymentId)
  }

  function FailureMessage(point: FailurePoint): string {
    match point
    case AfterOrder => "Simulated checkout failure at after_order"
    case AfterInventory => "Simulated checkout failure at after_inventory"
    case AfterPayment => "Simulated checkout failure at after_payment"
  }

  /** What remains to be undone in `state`: refund, then release, then rollback. */
  function Plan(state: Option<State>, reason: string): seq<Fact> {
    if state.None? || state.value.deleted then [] else
      var s := state.value;
      (if PaymentHas(s, Charged) then [PaymentRefunded(s.payment.value.id, Some(reason))] else [])
      + (if InventoryHas(s, Reserved) then [InventoryReleased(s.inventory.value.id, Some(reason))] else [])
      + (if s.order.Some? && s.order.value.status != OrderIsRolledBack then [OrderRolledBack(Some(reason))] else [])
  }

  function ForwardFacts(c: Context): seq<Fact> {
    [OrderCreated(c.item, c.quantity),
     InventoryReserved(c.reservationId, c.item, c.quantity),
     PaymentCharged(c.paymentId, c.amount)]
  }

  function ForwardLength(failAt: Option<FailurePoint>): nat {
    match failAt
    case Some(AfterOrder) => 1
    case Some(AfterInventory) => 2
    case _ => 3
  }

  /** The undo facts of a saga that fails: the forward facts of money and stock, reversed, then the rollback. */
  function UndoFacts(c: Context): seq<Fact> {
    match c.failAt
    case None => []
    case Some(point) =>
      var reason := Some(FailureMessage(point));
      (if point == AfterPayment then [PaymentRefunded(c.paymentId, reason)] else [])
      + (if point != AfterOrder then [InventoryReleased(c.reservationId, reason)] else [])
      + [OrderRolledBack(reason)]
  }

  /** Everything a checkout records when nothing else goes wrong. */
  function SagaFacts(c: Context): seq<Fact> {
    ForwardFacts(c)[..ForwardLength(c.failAt)] + UndoFacts(c)
  }

  /** Events carrying `facts` in order, with the generator's consecutive ids and consecutive sequence numbers. */
  function Stamp(id: nat, aggregate: int, sequence: int, now: int, command: CommandId, facts: seq<Fact>): seq<Event> {
    seq(|facts|, i requires 0 <= i < |facts| =>
          Event(EventId(0, id + i), aggregate, sequence + i, now, facts[i], command))
  }

  /** The event stream of one aggregate as the saga sees it: `RecordEvent` validates against the
      replayed state and appends; `credit` is how many more recordings succeed before one throws. */
  class Journal {
    const aggregate: int
    const command: CommandId
    const now: int
    var events: seq<Event>
    var nextId: nat
    var credit: nat
    ghost var state: Option<State>

    ghost predicate Valid()
      reads this
    {
      && Project(events) == Returns(state)
      && (forall i :: 0 <= i < |events| ==> events[i].aggregate == aggregate)
    }

    constructor (aggregate: int, command: CommandId, now: int, nextId: nat, credit: nat)
      ensures Valid() && events == [] && state == None && this.credit == credit && this.nextId == nextId
      ensures this.aggregate == aggregate && this.command == command && this.now == now
    {
      this.aggregate, this.command, this.now := aggregate, command, now;
      this.events, this.nextId, this.credit, this.state := [], nextId, credit, None;
    }

    /** The events `facts` become when they are recorded next, one after the other. */
    function Stamped(facts: seq<Fact>): seq<Event>
      reads this
    {
      Stamp(nextId, aggregate, |events| + 1, now, command, facts)
    }

    /** The state the next event is validated against. */
    ghost function Current(): State
      reads this
    {
      Basis(state, aggregate)
    }

    method GetState() returns (s: Option<State>)
      requires Valid()
      ensures s == state
    {
      var r := ProjectEvents(events);
      s := r.state;
    }

    /** Records one fact, or throws (None): the projection refuses it, or the recording itself fails. */
    method RecordEvent(fact: Fact) returns (r: Option<Event>)
      requires Valid()
      modifies this
      ensures Valid()
      ensures r.Some? <==> old(Accepts(fact)) && old(credit) > 0
      ensures r.Some? ==>
                && [r.value] == old(Stamped([fact]))
                && events == old(events) + [r.value] && nextId == old(nextId) + 1 && credit == old(credit) - 1
                && Apply(old(Current()), r.value) == state
      ensures r.None? ==> events == old(events) && state == old(state) && credit == old(credit) && nextId == old(nextId)
    {
      var event, next := Validate(fact);
      if next.None? || credit == 0 {
        return None;
      }
      Append(event, next.value);
      r := Some(event);
    }

    /** Applies the event that `fact` would become to the replayed state. */
    method Validate(fact: Fact) returns (event: Event, next: Option<State>)
      requires Valid()
      ensures [event] == Stamped([fact]) && next == Apply(Current(), event)
      ensures Project(events + [event]) == if next.None? then Throws else Returns(next)
    {
      event := Event(EventId(0, nextId), aggregate, |events| + 1, now, fact, command);
      var current := GetState();
      next := Apply(Basis(current, aggregate), event);
      ProjectNext(events, event);
    }

    method Append(event: Event, next: State)
      requires Valid() && credit > 0 && event.aggregate == aggregate && Project(events + [event]) == Returns(Some(next))
      modifies this
      ensures Valid() && state == Some(next)
      ensures events == old(events) + [event] && nextId == old(nextId) + 1 && credit == old(credit) - 1
    {
      events, nextId, credit, state := events + [event], nextId + 1, credit - 1, Some(next);
    }

    /** The projection would accept `fact` as the next event. */
    ghost predicate Accepts(fact: Fact)
      reads this
    {
      Apply(Current(), Stamped([fact])[0]).Some?
    }
  }

  /** Every undo fact is accepted, and what is left to undo afterwards is the rest of the plan. */
  lemma PlanStep(events: seq<Event>, s: State, reason: string, e: Event)
    requires Lawful(events) && Reflects(s, events) && reason != ""
    requires Plan(Some(s), reason) != [] && e.fact == Plan(Some(s), reason)[0]
    requires e.aggregate == s.aggregate && e.sequence == s.version + 1
    ensures Apply(s, e).Some?
    ensures Plan(Apply(s, e), reason) == Plan(Some(s), reason)[1..]
    ensures |Plan(Some(s), reason)| == 1 ==> Apply(s, e).value.lifecycle == RolledBack
    ensures !Apply(s, e).value.deleted
  {
    WordOfHistory(s, events);
    ReflectedLength(events, s);
  }

  lemma ReflectedLength(events: seq<Event>, s: State)
    requires Reflects(s, events)
    ensures 1 <= |events| <= 7
  {
  }

  /** From every undeleted accepted state the plan has at most three steps, in the order refund, release,
      rollback, and nothing is left to undo exactly when the order is already rolled back. */
  lemma PlanShape(events: seq<Event>, s: State, reason: string)
    requires Project(events) == Returns(Some(s)) && !s.deleted
    ensures var plan := Plan(Some(s), reason);
            && |plan| <= 3
            && (plan == [] <==> s.lifecycle == RolledBack)
            && (plan != [] ==> plan[|plan| - 1].OrderRolledBack?)
            && (forall i :: 0 <= i < |plan| - 1 ==> plan[i].PaymentRefunded? || plan[i].InventoryReleased?)
            && (|plan| == 3 ==> plan[0].PaymentRefunded? && plan[1].InventoryReleased?)
  {
    AcceptedIffLawful(events);
  }

  lemma StampAppend(id: nat, aggregate: int, sequence: int, now: int, command: CommandId, facts: seq<Fact>, k: nat)
    requires k < |facts|
    ensures Stamp(id, aggregate, sequence, now, command, facts[..k])
            + Stamp(id + k, aggregate, sequence + k, now, command, [facts[k]])
            == Stamp(id, aggregate, sequence, now, command, facts[..k + 1])
    ensures facts[k..][1..] == facts[k + 1..]
  {
  }

  lemma StampFirst(events: seq<Event>, id: nat, aggregate: int, sequence: int, now: int, command: CommandId,
                   facts: seq<Fact>)
    requires facts != []
    ensures var all := Stamp(id, aggregate, sequence, now, command, facts);
            events + all == events + [all[0]] + Stamp(id + 1, aggregate, sequence + 1, now, command, facts[1..])
  {
  }

  /** `issued` is the recorded part of `plan`, and the rest of `plan` is what the journal's state still needs. */
  ghost predicate Underway(journal: Journal, id: nat, before: seq<Event>, plan: seq<Fact>, issued: seq<Event>,
                           reason: string)
    reads journal
  {
    && journal.Valid()
    && reason != "" && before != []
    && |issued| <= |plan| && journal.nextId == id + |issued|
    && journal.events == before + issued
    && issued == Stamp(id, journal.aggregate, |before| + 1, journal.now, journal.command, plan[..|issued|])
    && journal.state.Some? && !journal.state.value.deleted
    && Plan(journal.state, reason) == plan[|issued|..]
  }

  /** The next step of the plan is accepted, and leaves the rest of the plan to do. */
  lemma NextIsAccepted(journal: Journal, id: nat, before: seq<Event>, plan: seq<Fact>, issued: seq<Event>,
                       reason: string, e: Event)
    requires Underway(journal, id, before, plan, issued, reason) && |issued| < |plan|
    requires e.fact == plan[|issued|] && [e] == journal.Stamped([e.fact])
    ensures Apply(journal.Current(), e).Some? && !Apply(journal.Current(), e).value.deleted
    ensures Plan(Apply(journal.Current(), e), reason) == plan[|issued| + 1..]
  {
    AcceptedIffLawful(journal.events);
    assert Plan(journal.state, reason)[0] == plan[|issued|];
    assert journal.Stamped([e.fact])[0] == e;
    PlanStep(journal.events, journal.state.value, reason, e);
    StampAppend(id, journal.aggregate, |before| + 1, journal.now, journal.command, plan, |issued|);
  }

  lemma UnderwayNext(journal: Journal, id: nat, before: seq<Event>, plan: seq<Fact>, issued: seq<Event>, event: Event,
                     reason: string)
    requires journal.Valid() && reason != "" && before != [] && |issued| < |plan|
    requires journal.nextId == id + |issued| + 1 && journal.events == before + issued + [event]
    requires issued == Stamp(id, journal.aggregate, |before| + 1, journal.now, journal.command, plan[..|issued|])
    requires [event] == Stamp(id + |issued|, journal.aggregate, |before| + 1 + |issued|, journal.now, journal.command,
                              [plan[|issued|]])
    requires journal.state.Some? && !journal.state.value.deleted
    requires Plan(journal.state, reason) == plan[|issued| + 1..]
    ensures Underway(journal, id, before, plan, issued + [event], reason)
  {
    StampAppend(id, journal.aggregate, |before| + 1, journal.now, journal.command, plan, |issued|);
    assert before + issued + [event] == before + (issued + [event]);
  }

  /** Records the next step of the plan; only a failing recording can stop it. */
  method Undo(journal: Journal, fact: Fact, issued: seq<Event>,
              ghost id: nat, ghost before: seq<Event>, ghost plan: seq<Fact>, ghost reason: string)
    returns (ok: bool, issued': seq<Event>, state: Option<State>)
    requires Underway(journal, id, before, plan, issued, reason)
    requires |issued| < |plan| && fact == plan[|issued|]
    modifies journal
    ensures Underway(journal, id, before, plan, issued', reason)
    ensures ok == (old(journal.credit) > 0) && state == journal.state
    ensures if ok then
              |issued'| == |issued| + 1 && journal.credit == old(journal.credit) - 1
              && journal.nextId == old(journal.nextId) + 1
            else
              issued' == issued && journal.credit == old(journal.credit) && journal.nextId == old(journal.nextId)
  {
    ghost var e := journal.Stamped([fact])[0];
    NextIsAccepted(journal, id, before, plan, issued, reason, e);
    var event := journal.RecordEvent(fact);
    ok, issued' := event.Some?, issued;
    if ok {
      issued' := issued + [event.value];
      UnderwayNext(journal, id, before, plan, issued, event.value, reason);
    }
    state := journal.GetState();
  }

  /** The plan from each kind of state on: what the three tests of the compensation decide. */
  lemma PlanHead(s: State, reason: string)
    requires !s.deleted
    ensures var plan := Plan(Some(s), reason);
            && (PaymentHas(s, Charged) ==> plan != [] && plan[0] == PaymentRefunded(s.payment.value.id, Some(reason)))
            && (!PaymentHas(s, Charged) && InventoryHas(s, Reserved) ==>
                  plan != [] && plan[0] == InventoryReleased(s.inventory.value.id, Some(reason)))
            && (!PaymentHas(s, Charged) && !InventoryHas(s, Reserved) ==>
                  plan == if s.order.Some? && s.order.value.status != OrderIsRolledBack
                          then [OrderRolledBack(Some(reason))] else [])
  {
  }

  /** The compensation of an existing, undeleted order: three tests, each against the state re-read after the
      previous recording. */
  method UndoAll(journal: Journal, reason: string, current: State,
                 ghost id: nat, ghost before: seq<Event>, ghost plan: seq<Fact>)
    returns (ok: bool, issued: seq<Event>)
    requires Underway(journal, id, before, plan, [], reason) && journal.state == Some(current)
    modifies journal
    ensures Underway(journal, id, before, plan, issued, reason)
    ensures ok == (|plan| <= old(journal.credit)) && |issued| == Min(|plan|, old(journal.credit))
    ensures journal.credit == old(journal.credit) - |issued|
  {
    issued := [];
    var state := Some(current);
    PlanHead(state.value, reason);
    if PaymentHas(state.value, Charged) {
      ok, issued, state := Undo(journal, PaymentRefunded(state.value.payment.value.id, Some(reason)), issued,
                                id, before, plan, reason);
      if !ok {
        return;
      }
      PlanHead(state.value, reason);
    }
    if InventoryHas(state.value, Reserved) {
      assert plan[|issued|] == plan[|issued|..][0];
      ok, issued, state := Undo(journal, InventoryReleased(state.value.inventory.value.id, Some(reason)), issued,
                                id, before, plan, reason);
      if !ok {
        return;
      }
      PlanHead(state.value, reason);
    }
    if state.value.order.Some? && state.value.order.value.status != OrderIsRolledBack {
      assert plan[|issued|] == plan[|issued|..][0];
      ok, issued, state := Undo(journal, OrderRolledBack(Some(reason)), issued, id, before, plan, reason);
      return;
    }
    return true, issued;
  }

  /** Undoes what the journal's state still holds. When a recording throws, exactly the recordings before it
      remain, and what is left of the plan is its rest: running it again resumes. */
  method CompensateCheckout(journal: Journal, reason: string) returns (ok: bool, issued: seq<Event>)
    requires journal.Valid()
    modifies journal
    ensures journal.Valid()
    ensures reason == "" ==> !ok && issued == []
    ensures reason != "" ==>
              && ok == (|Plan(old(journal.state), reason)| <= old(journal.credit))
              && |issued| == Min(|Plan(old(journal.state), reason)|, old(journal.credit))
              && issued == Stamp(old(journal.nextId), journal.aggregate, |old(journal.events)| + 1, journal.now,
                                 journal.command, Plan(old(journal.state), reason)[..|issued|])
              && Plan(journal.state, reason) == Plan(old(journal.state), reason)[|issued|..]
    ensures journal.events == old(journal.events) + issued
    ensures journal.credit == old(journal.credit) - |issued| && journal.nextId == old(journal.nextId) + |issued|
    ensures ok && old(journal.events) != [] && !old(journal.state).value.deleted ==>
              journal.state.Some? && journal.state.value.lifecycle == RolledBack
  {
    if reason == "" {
      return false, [];
    }
    var state := journal.GetState();
    if state.None? || state.value.deleted {
      return true, [];
    }
    ghost var plan := Plan(state, reason);
    ok, issued := UndoAll(journal, reason, state.value, journal.nextId, journal.events, plan);
    PlanShape(journal.events, journal.state.value, reason);
  }

  /** The history is accepted, ends rolled back, and leaves nothing to undo. */
  ghost predicate Undone(events: seq<Event>, reason: string) {
    var r := Project(events);
    r.Returns? && r.state.Some? && r.state.value.lifecycle == RolledBack && Plan(r.state, reason) == []
  }

  lemma UndoneOnce(events: seq<Event>, s: State, reason: string, e: Event)
    requires Project(events) == Returns(Some(s)) && !s.deleted && reason != ""
    requires Plan(Some(s), reason) != [] && e.fact == Plan(Some(s), reason)[0]
    requires e.aggregate == s.aggregate && e.sequence == |events| + 1
    ensures Apply(s, e).Some? && !Apply(s, e).value.deleted && Apply(s, e).value.aggregate == s.aggregate
    ensures Project(events + [e]) == Returns(Apply(s, e))
    ensures Plan(Apply(s, e), reason) == Plan(Some(s), reason)[1..]
  {
    AcceptedIffLawful(events);
    PlanStep(events, s, reason, e);
    ProjectNext(events, e);
  }

  /** Compensation is total: recording the whole plan after any undeleted accepted history is accepted, ends rolled
      back and leaves nothing to undo, so a second run issues no event. */
  lemma {:induction false} CompensationIsTotal(events: seq<Event>, s: State, reason: string,
                                               id: nat, now: int, command: CommandId)
    requires Project(events) == Returns(Some(s)) && !s.deleted && reason != ""
    ensures Undone(events + Stamp(id, s.aggregate, |events| + 1, now, command, Plan(Some(s), reason)), reason)
    decreases |Plan(Some(s), reason)|
  {
    var plan := Plan(Some(s), reason);
    var issued := Stamp(id, s.aggregate, |events| + 1, now, command, plan);
    if plan == [] {
      PlanShape(events, s, reason);
      assert events + issued == events;
    } else {
      var e := issued[0];
      UndoneOnce(events, s, reason, e);
      CompensationIsTotal(events + [e], Apply(s, e).value, reason, id + 1, now, command);
      StampFirst(events, id, s.aggregate, |events| + 1, now, command, plan);
    }
  }

  datatype SagaStatus = SagaCompleted | SagaRolledBack | SagaFailed

  datatype SagaResult = SagaResult(
    aggregate: int, status: SagaStatus, failedAt: Option<FailurePoint>, completedSteps: seq<Kind>,
    forwardEvents: seq<Event>, compensationEvents: seq<Event>, events: seq<Event>)

  lemma ForwardLawful(c: Context, id: nat, now: int, command: CommandId, n: nat)
    requires ValidContext(c) && n <= 3
    ensures Lawful(Stamp(id, c.aggregate, 1, now, command, ForwardFacts(c)[..n]))
    ensures Kinds(Stamp(id, c.aggregate, 1, now, command, ForwardFacts(c)[..n])) == REFUNDED[..n]
  {
    var events := Stamp(id, c.aggregate, 1, now, command, ForwardFacts(c)[..n]);
    assert Kinds(events) == REFUNDED[..n];
    assert REFUNDED[..n] <= REFUNDED;
  }

  /** After the forward steps up to a failure point, what there is to undo is exactly the context's undo list. */
  lemma UndoIsPlan(c: Context, point: FailurePoint, id: nat, now: int, command: CommandId, s: State)
    requires ValidContext(c) && c.failAt == Some(point)
    requires var events := Stamp(id, c.aggregate, 1, now, command, ForwardFacts(c)[..ForwardLength(c.failAt)]);
             Project(events) == Returns(Some(s))
    ensures Plan(Some(s), FailureMessage(point)) == UndoFacts(c) && !s.deleted
  {
    var n := ForwardLength(c.failAt);
    var events := Stamp(id, c.aggregate, 1, now, command, ForwardFacts(c)[..n]);
    ForwardLawful(c, id, now, command, n);
    AcceptedIffLawful(events);
    WordOfHistory(s, events);
    if n > 1 { assert events[1].fact == ForwardFacts(c)[1]; }
    if n > 2 { assert events[2].fact == ForwardFacts(c)[2]; }
  }

  /** The journal holds exactly the first `n` forward steps of the checkout. */
  ghost predicate Forwarded(journal: Journal, c: Context, id: nat, forward: seq<Event>, steps: seq<Kind>, n: nat)
    reads journal
  {
    && n <= 3 && steps == REFUNDED[..n] && |forward| == n
    && journal.Valid() && ValidContext(c) && journal.aggregate == c.aggregate
    && journal.nextId == id + n
    && journal.events == forward == Stamp(id, c.aggregate, 1, journal.now, journal.command, ForwardFacts(c)[..n])
  }

  /** The next forward event is accepted after the ones before it. */
  lemma ForwardNext(c: Context, id: nat, now: int, command: CommandId, n: nat, forward: seq<Event>, e: Event)
    requires ValidContext(c) && n < 3
    requires forward == Stamp(id, c.aggregate, 1, now, command, ForwardFacts(c)[..n]) && Project(forward).Returns?
    requires e == Event(EventId(0, id + n), c.aggregate, n + 1, now, ForwardFacts(c)[n], command)
    ensures Apply(Basis(Project(forward).state, c.aggregate), e).Some?
    ensures forward + [e] == Stamp(id, c.aggregate, 1, now, command, ForwardFacts(c)[..n + 1])
  {
    ForwardLawful(c, id, now, command, n + 1);
    assert forward + [e] == Stamp(id, c.aggregate, 1, now, command, ForwardFacts(c)[..n + 1]);
    AcceptedIffLawful(forward + [e]);
    ProjectNext(forward, e);
  }

  /** One forward step: accepted by the projection, so only a failing recording stops it. */
  method Advance(journal: Journal, fact: Fact, c: Context, forward: seq<Event>, steps: seq<Kind>,
                 ghost id: nat, ghost n: nat)
    returns (ok: bool, forward': seq<Event>, steps': seq<Kind>)
    requires Forwarded(journal, c, id, forward, steps, n) && n < 3 && fact == ForwardFacts(c)[n]
    modifies journal
    ensures ok == (old(journal.credit) > 0)
    ensures Forwarded(journal, c, id, forward', steps', if ok then n + 1 else n)
    ensures journal.credit == if ok then old(journal.credit) - 1 else old(journal.credit)
  {
    ghost var e := Event(EventId(0, id + n), c.aggregate, n + 1, journal.now, fact, journal.command);
    ForwardNext(c, id, journal.now, journal.command, n, forward, e);
    assert journal.Stamped([fact]) == [e];
    var event := journal.RecordEvent(fact);
    ok, forward', steps' := event.Some?, forward, steps;
    if ok {
      forward', steps' := forward + [event.value], steps + [KindOf(fact)];
    }
  }

  /** What a checkout on a fresh aggregate leaves behind, given how many recordings could succeed: the recorded
      stream is exactly that many of the saga's facts, the result (None when a recording threw) reports exactly
      the stream, and the order ends completed or rolled back. */
  ghost predicate SagaOutcome(journal: Journal, c: Context, id: nat, credit: nat, r: Option<SagaResult>)
    reads journal
  {
    && journal.Valid()
    && r.Some? == (|SagaFacts(c)| <= credit)
    && journal.events == Stamp(id, c.aggregate, 1, journal.now, journal.command,
                               SagaFacts(c)[..Min(|SagaFacts(c)|, credit)])
    && (r.Some? ==> Reported(journal, c, r.value))
  }

  ghost predicate Reported(journal: Journal, c: Context, result: SagaResult)
    reads journal
  {
    && result.events == journal.events == result.forwardEvents + result.compensationEvents
    && result.failedAt == c.failAt
    && result.completedSteps == Kinds(result.forwardEvents) == REFUNDED[..ForwardLength(c.failAt)]
    && result.status == (if c.failAt.None? then SagaCompleted else SagaRolledBack)
    && journal.state.Some?
    && journal.state.value.lifecycle == (if c.failAt.None? then Completed else RolledBack)
  }

  lemma SagaLength(c: Context)
    ensures |SagaFacts(c)| == ForwardLength(c.failAt) + |UndoFacts(c)|
    ensures c.failAt.Some? ==> |UndoFacts(c)| > 0
  {
  }

  /** A forward recording threw: the journal holds the saga's first facts, as many as succeeded. */
  lemma StoppedEarly(journal: Journal, c: Context, id: nat, forward: seq<Event>, steps: seq<Kind>, n: nat)
    requires Forwarded(journal, c, id, forward, steps, n) && n < |SagaFacts(c)| && n <= ForwardLength(c.failAt)
    ensures SagaOutcome(journal, c, id, n, None)
  {
    assert ForwardFacts(c)[..n] == SagaFacts(c)[..n];
  }

  lemma CompletedSaga(journal: Journal, c: Context, id: nat, forward: seq<Event>, steps: seq<Kind>, credit: nat)
    requires Forwarded(journal, c, id, forward, steps, 3) && c.failAt == None && credit >= 3
    ensures SagaOutcome(journal, c, id, credit,
                        Some(SagaResult(c.aggregate, SagaCompleted, None, steps, forward, [], forward)))
  {
    ForwardLawful(c, id, journal.now, journal.command, 3);
    AcceptedIffLawful(journal.events);
    assert SagaFacts(c)[..3] == ForwardFacts(c)[..3];
    assert forward + [] == forward;
  }

  /** A failed checkout has been compensated as far as recordings succeeded. */
  ghost predicate Abandoned(journal: Journal, c: Context, id: nat, forward: seq<Event>, issued: seq<Event>, credit: nat)
  {
    && c.failAt.Some? && |issued| == Min(|UndoFacts(c)|, credit)
    && forward == Stamp(id, c.aggregate, 1, journal.now, journal.command, ForwardFacts(c)[..ForwardLength(c.failAt)])
    && issued == Stamp(id + ForwardLength(c.failAt), c.aggregate, ForwardLength(c.failAt) + 1, journal.now,
                       journal.command, UndoFacts(c)[..|issued|])
  }

  lemma AbandonedStream(journal: Journal, c: Context, id: nat, forward: seq<Event>, issued: seq<Event>, credit: nat)
    requires Abandoned(journal, c, id, forward, issued, credit)
    ensures forward + issued == Stamp(id, c.aggregate, 1, journal.now, journal.command,
                                      SagaFacts(c)[..Min(|SagaFacts(c)|, ForwardLength(c.failAt) + credit)])
    ensures |SagaFacts(c)| <= ForwardLength(c.failAt) + credit <==> |UndoFacts(c)| <= credit
  {
    SagaLength(c);
    StampJoin(id, c.aggregate, journal.now, journal.command, c, |issued|);
  }

  /** The saga's catch block: compensate with the failure's message and report the stream. */
  method AbandonCheckout(journal: Journal, c: Context, point: FailurePoint, forward: seq<Event>, steps: seq<Kind>,
                         ghost id: nat)
    returns (r: Option<SagaResult>)
    requires c.failAt == Some(point) && Forwarded(journal, c, id, forward, steps, ForwardLength(c.failAt))
    modifies journal
    ensures SagaOutcome(journal, c, id, ForwardLength(c.failAt) + old(journal.credit), r)
  {
    var ok, issued := CompensateForward(journal, c, point, forward, steps, id);
    AbandonedStream(journal, c, id, forward, issued, old(journal.credit));
    if !ok {
      return None;
    }
    var final := journal.GetState();
    var status := if final.Some? && final.value.lifecycle == RolledBack then SagaRolledBack else SagaFailed;
    return Some(SagaResult(c.aggregate, status, Some(point), steps, forward, issued, forward + issued));
  }

  method CompensateForward(journal: Journal, c: Context, point: FailurePoint, forward: seq<Event>, steps: seq<Kind>,
                           ghost id: nat)
    returns (ok: bool, issued: seq<Event>)
    requires c.failAt == Some(point) && Forwarded(journal, c, id, forward, steps, ForwardLength(c.failAt))
    modifies journal
    ensures journal.Valid() && journal.events == forward + issued
    ensures Abandoned(journal, c, id, forward, issued, old(journal.credit))
    ensures ok == (|UndoFacts(c)| <= old(journal.credit))
    ensures ok ==> journal.state.Some? && journal.state.value.lifecycle == RolledBack
    ensures steps == Kinds(forward) == REFUNDED[..ForwardLength(c.failAt)]
  {
    ForwardLawful(c, id, journal.now, journal.command, |forward|);
    AcceptedIffLawful(journal.events);
    UndoIsPlan(c, point, id, journal.now, journal.command, journal.state.value);
    ok, issued := CompensateCheckout(journal, FailureMessage(point));
  }

  lemma StampConcat(id: nat, aggregate: int, sequence: int, now: int, command: CommandId, a: seq<Fact>, b: seq<Fact>)
    ensures Stamp(id, aggregate, sequence, now, command, a)
            + Stamp(id + |a|, aggregate, sequence + |a|, now, command, b)
            == Stamp(id, aggregate, sequence, now, command, a + b)
  {
  }

  lemma StampJoin(id: nat, aggregate: int, now: int, command: CommandId, c: Context, k: nat)
    requires k <= |UndoFacts(c)|
    ensures var n := ForwardLength(c.failAt);
            Stamp(id, aggregate, 1, now, command, ForwardFacts(c)[..n])
            + Stamp(id + n, aggregate, n + 1, now, command, UndoFacts(c)[..k])
            == Stamp(id, aggregate, 1, now, command, SagaFacts(c)[..n + k])
  {
    var forward := ForwardFacts(c)[..ForwardLength(c.failAt)];
    StampConcat(id, aggregate, 1, now, command, forward, UndoFacts(c)[..k]);
    TakeConcat(forward, UndoFacts(c), k);
  }

  lemma TakeConcat(a: seq<Fact>, b: seq<Fact>, k: nat)
    requires k <= |b|
    ensures (a + b)[..|a| + k] == a + b[..k]
  {
  }

  /** The saga's try block on a fresh aggregate. */
  method RunForward(journal: Journal, c: Context) returns (r: Option<SagaResult>)
    requires journal.Valid() && journal.aggregate == c.aggregate && ValidContext(c) && journal.events == []
    modifies journal
    ensures SagaOutcome(journal, c, old(journal.nextId), old(journal.credit), r)
  {
    ghost var id := journal.nextId;
    SagaLength(c);
    var ok, forward, steps := Advance(journal, OrderCreated(c.item, c.quantity), c, [], [], id, 0);
    if !ok {
      StoppedEarly(journal, c, id, forward, steps, 0);
      return None;
    }
    if c.failAt == Some(AfterOrder) {
      r := AbandonCheckout(journal, c, AfterOrder, forward, steps, id);
      return;
    }
    ok, forward, steps := Advance(journal, InventoryReserved(c.reservationId, c.item, c.quantity), c, forward, steps,
                                  id, 1);
    if !ok {
      StoppedEarly(journal, c, id, forward, steps, 1);
      return None;
    }
    if c.failAt == Some(AfterInventory) {
      r := AbandonCheckout(journal, c, AfterInventory, forward, steps, id);
      return;
    }
    ok, forward, steps := Advance(journal, PaymentCharged(c.paymentId, c.amount), c, forward, steps, id, 2);
    if !ok {
      StoppedEarly(journal, c, id, forward, steps, 2);
      return None;
    }
    if c.failAt == Some(AfterPayment) {
      r := AbandonCheckout(journal, c, AfterPayment, forward, steps, id);
      return;
    }
    CompletedSaga(journal, c, id, forward, steps, old(journal.credit));
    return Some(SagaResult(c.aggregate, SagaCompleted, None, steps, forward, [], forward));
  }

  /** The checkout saga. An invalid context, or an aggregate that already has events, records nothing. */
  method RunCheckoutSaga(journal: Journal, c: Context) returns (r: Option<SagaResult>)
    requires journal.Valid() && journal.aggregate == c.aggregate
    modifies journal
    ensures journal.Valid()
    ensures !ValidContext(c) || old(journal.events) != [] ==> r.None? && journal.events == old(journal.events)
    ensures ValidContext(c) && old(journal.events) == [] ==>
              SagaOutcome(journal, c, old(journal.nextId), old(journal.credit), r)
  {
    if !ValidContext(c) {
      return None;
    }
    if journal.events != [] {
      AcceptedIffLawful(journal.events);
      var refused := journal.RecordEvent(OrderCreated(c.item, c.quantity));
      return None;
    }
    r := RunForward(journal, c);
  }

  function Min(a: nat, b: nat): nat {
    if a < b then a else b
  }
}
