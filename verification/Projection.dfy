/** The order lifecycle: applying one event to a state, and projecting a history. */
module Projection {
  import opened Events

  datatype Lifecycle = Empty | Active | Completed | Compensating | RolledBack | Deleted

  datatype OrderStatus = OrderIsCreated | OrderIsRolledBack
  datatype Order = Order(
    id: int, item: string, quantity: int, status: OrderStatus, createdAt: int,
    rolledBackAt: Option<int>, rollbackReason: Option<string>)

  datatype InventoryStatus = Reserved | Released
  datatype Inventory = Inventory(
    id: int, orderId: int, item: string, quantity: int, status: InventoryStatus, reservedAt: int,
    releasedAt: Option<int>, releaseReason: Option<string>)

  datatype PaymentStatus = Charged | Refunded
  datatype Payment = Payment(
    id: int, orderId: int, amount: real, status: PaymentStatus, chargedAt: int,
    refundedAt: Option<int>, refundReason: Option<string>)

  datatype Tombstone = Tombstone(aggregate: int, deletedAt: int, reason: Option<string>)

  datatype State = State(
    aggregate: int,
    version: int,
    lifecycle: Lifecycle,
    deleted: bool,
    tombstone: Option<Tombstone>,
    order: Option<Order>,
    inventory: Option<Inventory>,
    payment: Option<Payment>)

  function InitialState(aggregate: int): State {
    State(aggregate, 0, Empty, false, None, None, None, None)
  }

  predicate ValidState(s: State) {
    PositiveSafe(s.aggregate) && 0 <= s.version <= MAX_SAFE
  }

  /** The state after `e`, or None where the source throws. */
  function Apply(s: State, e: Event): Option<State> {
    if !ValidState(s) || !ValidEvent(e) || e.aggregate != s.aggregate || e.sequence != s.version + 1 then None
    else match e.fact
      case OrderCreated(item, quantity) =>
        if s.lifecycle != Empty || s.version != 0 || s.order.Some? then None
        else Some(s.(version := e.sequence, lifecycle := Active, deleted := false, tombstone := None,
                     order := Some(Order(e.aggregate, item, quantity, OrderIsCreated, e.timestamp, None, None))))
      case InventoryReserved(id, item, quantity) =>
        if s.deleted || s.lifecycle != Active || !OrderHas(s, OrderIsCreated) || s.inventory.Some? || s.payment.Some?
           || item != s.order.value.item || quantity != s.order.value.quantity then None
        else Some(s.(version := e.sequence,
                     inventory := Some(Inventory(id, e.aggregate, item, quantity, Reserved, e.timestamp, None, None))))
      case PaymentCharged(id, amount) =>
        if s.deleted || s.lifecycle != Active || !OrderHas(s, OrderIsCreated) || !InventoryHas(s, Reserved)
           || s.payment.Some? then None
        else Some(s.(version := e.sequence, lifecycle := Completed,
                     payment := Some(Payment(id, e.aggregate, amount, Charged, e.timestamp, None, None))))
      case PaymentRefunded(id, reason) =>
        if s.deleted || s.lifecycle != Completed || !PaymentHas(s, Charged) || !InventoryHas(s, Reserved)
           || s.payment.value.id != id then None
        else Some(s.(version := e.sequence, lifecycle := Compensating,
                     payment := Some(s.payment.value.(status := Refunded, refundedAt := Some(e.timestamp),
                                                      refundReason := reason))))
      case InventoryReleased(id, reason) =>
        if s.deleted || !InventoryHas(s, Reserved) || s.inventory.value.id != id
           || (s.payment.Some? && s.payment.value.status != Refunded)
           || (s.lifecycle != Active && s.lifecycle != Compensating) then None
        else Some(s.(version := e.sequence, lifecycle := Compensating,
                     inventory := Some(s.inventory.value.(status := Released, releasedAt := Some(e.timestamp),
                                                          releaseReason := reason))))
      case OrderRolledBack(reason) =>
        if s.deleted || (s.lifecycle != Active && s.lifecycle != Compensating) || !OrderHas(s, OrderIsCreated)
           || (s.payment.Some? && s.payment.value.status != Refunded)
           || (s.inventory.Some? && s.inventory.value.status != Released) then None
        else Some(s.(version := e.sequence, lifecycle := RolledBack,
                     order := Some(s.order.value.(status := OrderIsRolledBack, rolledBackAt := Some(e.timestamp),
                                                  rollbackReason := reason))))
      case OrderDeleted(reason) =>
        if s.deleted || s.order.None? || PaymentHas(s, Charged) || InventoryHas(s, Reserved)
           || (s.lifecycle != Active && s.lifecycle != RolledBack) then None
        else Some(s.(version := e.sequence, lifecycle := Deleted, deleted := true,
                     tombstone := Some(Tombstone(e.aggregate, e.timestamp, reason)),
                     order := None, inventory := None, payment := None))
  }

  predicate OrderHas(s: State, status: OrderStatus) {
    s.order.Some? && s.order.value.status == status
  }

  predicate InventoryHas(s: State, status: InventoryStatus) {
    s.inventory.Some? && s.inventory.value.status == status
  }

  predicate PaymentHas(s: State, status: PaymentStatus) {
    s.payment.Some? && s.payment.value.status == status
  }

  /** The outcome of a replay: it throws, or returns a state (none for an empty history). */
  datatype Replayed = Throws | Returns(state: Option<State>)

  /** Applying `events` one after the other, starting from `s`. */
  function Fold(s: State, events: seq<Event>): Option<State> {
    if events == [] then Some(s) else
      match Fold(s, events[..|events| - 1])
      case None => None
      case Some(t) => Apply(t, events[|events| - 1])
  }

  function Project(events: seq<Event>): Replayed {
    if events == [] then Returns(None)
    else if !PositiveSafe(events[0].aggregate) then Throws
    else match Fold(InitialState(events[0].aggregate), events)
      case None => Throws
      case Some(s) => Returns(Some(s))
  }

  /** The source's loop computes exactly Project: a left fold that stops at the first refusal. */
  method ProjectEvents(events: seq<Event>) returns (r: Replayed)
    ensures r == Project(events)
  {
    if events == [] {
      return Returns(None);
    }
    if !PositiveSafe(events[0].aggregate) {
      return Throws;
    }
    var state := InitialState(events[0].aggregate);
    for i := 0 to |events|
      invariant Fold(InitialState(events[0].aggregate), events[..i]) == Some(state)
    {
      assert events[..i + 1][..i] == events[..i];
      match Apply(state, events[i]) {
        case None =>
          FoldStuck(InitialState(events[0].aggregate), events, i + 1);
          return Throws;
        case Some(next) =>
          state := next;
      }
    }
    assert events[..|events|] == events;
    return Returns(Some(state));
  }

  lemma {:induction false} FoldStuck(s: State, events: seq<Event>, i: nat)
    requires i <= |events| && Fold(s, events[..i]).None?
    ensures Fold(s, events).None?
  {
    if i == |events| {
      assert events[..i] == events;
    } else {
      var shorter := events[..|events| - 1];
      assert shorter[..i] == events[..i];
      FoldStuck(s, shorter, i);
    }
  }

  /** One more event: the replay advances by exactly one Apply. */
  lemma ProjectAppend(events: seq<Event>, e: Event)
    requires events != []
    ensures Project(events + [e]) ==
            match Project(events)
            case Throws => Throws
            case Returns(s) => (match Apply(s.value, e) case None => Throws case Some(t) => Returns(Some(t)))
  {
    assert (events + [e])[..|events|] == events;
    assert (events + [e])[0] == events[0];
  }

  lemma ProjectFirst(e: Event)
    ensures Project([e]) ==
            match Apply(InitialState(e.aggregate), e) case None => Throws case Some(t) => Returns(Some(t))
  {
    assert [e][..0] == [];
    assert Fold(InitialState(e.aggregate), [e][..0]) == Some(InitialState(e.aggregate));
  }

  /** The state the next event of an aggregate is applied to. */
  function Basis(state: Option<State>, aggregate: int): State {
    if state.Some? then state.value else InitialState(aggregate)
  }

  /** First event or later one: an accepted history goes on exactly with what applies to its state. */
  lemma ProjectNext(events: seq<Event>, e: Event)
    requires Project(events).Returns?
    ensures Project(events + [e]) ==
            match Apply(Basis(Project(events).state, e.aggregate), e)
            case None => Throws
            case Some(t) => Returns(Some(t))
  {
    if events == [] {
      assert events + [e] == [e];
      ProjectFirst(e);
    } else {
      ProjectAppend(events, e);
    }
  }
}
