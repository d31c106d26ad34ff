/** Which histories a replay accepts, and what their length and lifecycle reveal. */
module Histories {
  import opened Events
  import opened Projection

  datatype Kind = KCreated | KReserved | KCharged | KRefunded | KReleased | KRolledBack | KDeleted

  function KindOf(fact: Fact): Kind {
    match fact
    case OrderCreated(_, _) => KCreated
    case InventoryReserved(_, _, _) => KReserved
    case PaymentCharged(_, _) => KCharged
    case PaymentRefunded(_, _) => KRefunded
    case InventoryReleased(_, _) => KReleased
    case OrderRolledBack(_) => KRolledBack
    case OrderDeleted(_) => KDeleted
  }

  function Kinds(events: seq<Event>): seq<Kind> {
    seq(|events|, i requires 0 <= i < |events| => KindOf(events[i].fact))
  }

  /** The four complete lives of an order. */
  const ABANDONED := [KCreated, KDeleted]
  const CANCELLED := [KCreated, KRolledBack, KDeleted]
  const UNRESERVED := [KCreated, KReserved, KReleased, KRolledBack, KDeleted]
  const REFUNDED := [KCreated, KReserved, KCharged, KRefunded, KReleased, KRolledBack, KDeleted]

  predicate LegalWord(kinds: seq<Kind>) {
    kinds <= ABANDONED || kinds <= CANCELLED || kinds <= UNRESERVED || kinds <= REFUNDED
  }

  /** The event types behind a state, read off its version and lifecycle alone. */
  function WordOf(version: int, lifecycle: Lifecycle): Option<seq<Kind>> {
    match lifecycle
    case Empty => if version == 0 then Some([]) else None
    case Active =>
      if version == 1 then Some(ABANDONED[..1]) else if version == 2 then Some(UNRESERVED[..2]) else None
    case Completed => if version == 3 then Some(REFUNDED[..3]) else None
    case Compensating =>
      if version == 3 then Some(UNRESERVED[..3])
      else if version == 4 || version == 5 then Some(REFUNDED[..version]) else None
    case RolledBack =>
      if version == 2 then Some(CANCELLED[..2]) else if version == 4 then Some(UNRESERVED[..4])
      else if version == 6 then Some(REFUNDED[..6]) else None
    case Deleted =>
      if version == 2 then Some(ABANDONED) else if version == 3 then Some(CANCELLED)
      else if version == 5 then Some(UNRESERVED) else if version == 7 then Some(REFUNDED) else None
  }

  /** Every later payload repeats what the event it answers said. */
  predicate Answers(events: seq<Event>, i: nat)
    requires i < |events|
  {
    match events[i].fact
    case InventoryReserved(_, item, quantity) =>
      events[0].fact.OrderCreated? && events[0].fact.item == item && events[0].fact.quantity == quantity
    case PaymentRefunded(id, _) => i > 2 && events[2].fact.PaymentCharged? && events[2].fact.paymentId == id
    case InventoryReleased(id, _) =>
      i > 1 && events[1].fact.InventoryReserved? && events[1].fact.reservationId == id
    case _ => true
  }

  /** An independent description of an acceptable history: a word of the four, valid payloads
      that answer each other, and one aggregate numbered from 1. */
  ghost predicate Lawful(events: seq<Event>) {
    && LegalWord(Kinds(events))
    && (forall i :: 0 <= i < |events| ==>
          ValidEvent(events[i]) && events[i].aggregate == events[0].aggregate && events[i].sequence == i + 1)
    && (forall i :: 0 <= i < |events| ==> Answers(events, i))
  }

  /** The shape of the state reached by an accepted history: version, lifecycle, and which parts it holds in which
      status. */
  predicate Reflects(s: State, events: seq<Event>) {
    && events != []
    && ValidState(s)
    && s.aggregate == events[0].aggregate
    && s.version == |events|
    && WordOf(s.version, s.lifecycle) == Some(Kinds(events))
    && s.deleted == (s.lifecycle == Deleted)
    && s.tombstone.Some? == s.deleted
    && s.order.Some? == !s.deleted
    && (s.order.Some? ==>
          && events[0].fact.OrderCreated?
          && s.order.value.item == events[0].fact.item
          && s.order.value.quantity == events[0].fact.quantity
          && s.order.value.status == (if s.lifecycle == RolledBack then OrderIsRolledBack else OrderIsCreated))
    && s.inventory.Some? == HoldsInventory(s.version, s.lifecycle)
    && (s.inventory.Some? ==>
          && events[1].fact.InventoryReserved?
          && s.inventory.value.id == events[1].fact.reservationId
          && s.inventory.value.status == (if HasReleased(s.version, s.lifecycle) then Released else Reserved))
    && s.payment.Some? == HoldsPayment(s.version, s.lifecycle)
    && (s.payment.Some? ==>
          && events[2].fact.PaymentCharged?
          && s.payment.value.id == events[2].fact.paymentId
          && s.payment.value.status == (if s.lifecycle == Completed then Charged else Refunded))
  }

  predicate HoldsInventory(version: int, lifecycle: Lifecycle) {
    version > 1 && (lifecycle == RolledBack ==> version > 2) && lifecycle != Deleted
  }

  predicate HasReleased(version: int, lifecycle: Lifecycle) {
    (lifecycle == Compensating && version != 4) || lifecycle == RolledBack
  }

  predicate HoldsPayment(version: int, lifecycle: Lifecycle) {
    version > 2 && (version == 3 ==> lifecycle == Completed) && (lifecycle == RolledBack ==> version > 4)
    && lifecycle != Deleted
  }

  lemma KindsAppend(events: seq<Event>, e: Event)
    ensures Kinds(events + [e]) == Kinds(events) + [KindOf(e.fact)]
  {
  }

  /** A history with one more event is lawful exactly when the event extends the word and answers it. */
  lemma LawfulAppend(events: seq<Event>, e: Event)
    ensures Lawful(events + [e]) <==>
            && Lawful(events)
            && ValidEvent(e) && e.aggregate == (events + [e])[0].aggregate && e.sequence == |events| + 1
            && LegalWord(Kinds(events) + [KindOf(e.fact)])
            && Answers(events + [e], |events|)
  {
    var longer := events + [e];
    KindsAppend(events, e);
    assert longer[|events|] == e;
    assert Kinds(events) <= Kinds(longer);
    forall i | 0 <= i < |events| ensures Answers(longer, i) <==> Answers(events, i) {
      assert longer[i] == events[i];
    }
    if Lawful(longer) {
      forall i | 0 <= i < |events|
        ensures ValidEvent(events[i]) && events[i].aggregate == events[0].aggregate && events[i].sequence == i + 1
      {
        assert longer[i] == events[i];
      }
    }
  }

  /** The lifecycle one more event of type `kind` leads to, if a legal word continues that way. */
  function Continue(version: int, lifecycle: Lifecycle, kind: Kind): Option<Lifecycle> {
    match kind
    case KCreated => if lifecycle == Empty then Some(Active) else None
    case KReserved => if lifecycle == Active && version == 1 then Some(Active) else None
    case KCharged => if lifecycle == Active && version == 2 then Some(Completed) else None
    case KRefunded => if lifecycle == Completed then Some(Compensating) else None
    case KReleased =>
      if (lifecycle == Active && version == 2) || (lifecycle == Compensating && version == 4)
      then Some(Compensating) else None
    case KRolledBack =>
      if (lifecycle == Active && version == 1) || (lifecycle == Compensating && version != 4)
      then Some(RolledBack) else None
    case KDeleted =>
      if (lifecycle == Active && version == 1) || lifecycle == RolledBack then Some(Deleted) else None
  }

  lemma SameAsPrefix(kinds: seq<Kind>, word: seq<Kind>)
    ensures kinds <= word <==> |kinds| <= |word| && forall i :: 0 <= i < |kinds| ==> kinds[i] == word[i]
  {
  }

  lemma LegalContinuation(version: int, lifecycle: Lifecycle, kind: Kind)
    requires WordOf(version, lifecycle).Some?
    ensures |WordOf(version, lifecycle).value| == version
    ensures LegalWord(WordOf(version, lifecycle).value + [kind]) <==> Continue(version, lifecycle, kind).Some?
  {
    if version < 2 {
      LegalShortContinuation(version, lifecycle, kind);
    } else {
      LegalLongContinuation(version, lifecycle, kind);
    }
  }

  lemma LegalShortContinuation(version: int, lifecycle: Lifecycle, kind: Kind)
    requires WordOf(version, lifecycle).Some? && version < 2
    ensures |WordOf(version, lifecycle).value| == version
    ensures LegalWord(WordOf(version, lifecycle).value + [kind]) <==> Continue(version, lifecycle, kind).Some?
  {
    var word := WordOf(version, lifecycle).value;
    var longer := word + [kind];
    assert |word| == version && longer[version] == kind;
    if version > 0 { assert longer[0] == word[0] == KCreated; }
    SameAsPrefix(longer, ABANDONED);
    SameAsPrefix(longer, CANCELLED);
    SameAsPrefix(longer, UNRESERVED);
    SameAsPrefix(longer, REFUNDED);
  }

  lemma LegalLongContinuation(version: int, lifecycle: Lifecycle, kind: Kind)
    requires WordOf(version, lifecycle).Some? && version >= 2
    ensures |WordOf(version, lifecycle).value| == version
    ensures LegalWord(WordOf(version, lifecycle).value + [kind]) <==> Continue(version, lifecycle, kind).Some?
  {
    var word := WordOf(version, lifecycle).value;
    var longer := word + [kind];
    assert |word| == version;
    assert longer[version] == kind && (forall i :: 0 <= i < version ==> longer[i] == word[i]);
    assert longer[0] == word[0] && longer[1] == word[1];
    if version > 2 { assert longer[2] == word[2]; }
    SameAsPrefix(longer, ABANDONED);
    SameAsPrefix(longer, CANCELLED);
    SameAsPrefix(longer, UNRESERVED);
    SameAsPrefix(longer, REFUNDED);
  }

  lemma NextWord(version: int, lifecycle: Lifecycle, kind: Kind)
    requires WordOf(version, lifecycle).Some? && Continue(version, lifecycle, kind).Some?
    ensures WordOf(version + 1, Continue(version, lifecycle, kind).value)
            == Some(WordOf(version, lifecycle).value + [kind])
  {
    var next := WordOf(version + 1, Continue(version, lifecycle, kind).value);
    assert next.Some? && |next.value| == version + 1;
    assert next.value == WordOf(version, lifecycle).value + [kind];
  }

  /** Words and lifecycles advance together. */
  lemma WordContinues(version: int, lifecycle: Lifecycle, kind: Kind)
    requires WordOf(version, lifecycle).Some?
    ensures var word := WordOf(version, lifecycle).value;
            && |word| == version
            && (LegalWord(word + [kind]) <==> Continue(version, lifecycle, kind).Some?)
            && (Continue(version, lifecycle, kind).Some? ==>
                  WordOf(version + 1, Continue(version, lifecycle, kind).value) == Some(word + [kind]))
  {
    LegalContinuation(version, lifecycle, kind);
    if Continue(version, lifecycle, kind).Some? {
      NextWord(version, lifecycle, kind);
    }
  }

  /** The event types of a reflected history, position by position. */
  lemma WordOfHistory(s: State, events: seq<Event>)
    requires Reflects(s, events)
    ensures forall i :: 0 <= i < |events| ==> KindOf(events[i].fact) == WordOf(s.version, s.lifecycle).value[i]
  {
    assert forall i :: 0 <= i < |events| ==> Kinds(events)[i] == KindOf(events[i].fact);
  }

  /** Applying `e` succeeds exactly when it is valid, next in line, continues the word and answers the history. */
  lemma ApplyIff(events: seq<Event>, s: State, e: Event)
    requires Reflects(s, events)
    ensures Apply(s, e).Some? <==>
            && ValidEvent(e) && e.aggregate == s.aggregate && e.sequence == s.version + 1
            && Continue(s.version, s.lifecycle, KindOf(e.fact)).Some?
            && Answers(events + [e], |events|)
  {
    var longer := events + [e];
    WordOfHistory(s, events);
    assert longer[|events|] == e && longer[0] == events[0];
    if |events| > 1 { assert longer[1] == events[1]; }
    if |events| > 2 { assert longer[2] == events[2]; }
  }

  lemma ApplyKeepsReflecting(events: seq<Event>, s: State, e: Event)
    requires Reflects(s, events) && Apply(s, e).Some?
    ensures Reflects(Apply(s, e).value, events + [e])
  {
    var longer := events + [e];
    ApplyIff(events, s, e);
    WordOfHistory(s, events);
    WordContinues(s.version, s.lifecycle, KindOf(e.fact));
    KindsAppend(events, e);
    assert longer[|events|] == e && longer[0] == events[0];
    if |events| > 1 { assert longer[1] == events[1]; }
    if |events| > 2 { assert longer[2] == events[2]; }
  }

  /** The main equivalence: a replay accepts exactly the lawful histories, and its state reflects them. */
  lemma {:induction false} AcceptedIffLawful(events: seq<Event>)
    ensures Project(events).Returns? <==> Lawful(events)
    ensures events != [] && Project(events).Returns? ==>
              Project(events).state.Some? && Reflects(Project(events).state.value, events)
  {
    if events == [] {
    } else if |events| == 1 {
      var e := events[0];
      assert events == [e] == [] + [e];
      ProjectFirst(e);
      LawfulAppend([], e);
      assert Kinds(events) == [] + [KindOf(e.fact)];
      WordContinues(0, Empty, KindOf(e.fact));
    } else {
      var shorter, e := events[..|events| - 1], events[|events| - 1];
      assert events == shorter + [e];
      AcceptedIffLawful(shorter);
      ProjectAppend(shorter, e);
      LawfulAppend(shorter, e);
      if Project(shorter).Returns? {
        var s := Project(shorter).state.value;
        ApplyIff(shorter, s, e);
        WordContinues(s.version, s.lifecycle, KindOf(e.fact));
        if Apply(s, e).Some? {
          ApplyKeepsReflecting(shorter, s, e);
        }
      }
    }
  }

  function ItemOf(fact: Fact): string {
    match fact case OrderCreated(item, _) => item case InventoryReserved(_, item, _) => item case _ => ""
  }

  function QuantityOf(fact: Fact): int {
    match fact case OrderCreated(_, n) => n case InventoryReserved(_, _, n) => n case _ => 0
  }

  function IdOf(fact: Fact): int {
    match fact
    case InventoryReserved(id, _, _) => id
    case PaymentCharged(id, _) => id
    case PaymentRefunded(id, _) => id
    case InventoryReleased(id, _) => id
    case _ => 0
  }

  function AmountOf(fact: Fact): real {
    match fact case PaymentCharged(_, amount) => amount case _ => 0.0
  }

  function ReasonOf(fact: Fact): Option<string> {
    match fact
    case PaymentRefunded(_, reason) => reason
    case InventoryReleased(_, reason) => reason
    case OrderRolledBack(reason) => reason
    case OrderDeleted(reason) => reason
    case _ => None
  }

  function WhenIf(happened: bool, e: Event): Option<int> {
    if happened then Some(e.timestamp) else None
  }

  function WhyIf(happened: bool, e: Event): Option<string> {
    if happened then ReasonOf(e.fact) else None
  }

  /** The order as the first event made it and, if it was rolled back, the last one left it. */
  function OrderOf(events: seq<Event>, rolledBack: bool): Order
    requires events != []
  {
    var made, last := events[0], events[|events| - 1];
    Order(made.aggregate, ItemOf(made.fact), QuantityOf(made.fact),
          if rolledBack then OrderIsRolledBack else OrderIsCreated, made.timestamp,
          WhenIf(rolledBack, last), WhyIf(rolledBack, last))
  }

  /** The inventory as the second event reserved it and, if it was released, the third or fifth released it. */
  function InventoryOf(events: seq<Event>, released: bool): Inventory
    requires |events| > 1 && (released ==> |events| > 2)
  {
    var made := events[1];
    var end := if !released then made else if |events| < 5 then events[2] else events[4];
    Inventory(IdOf(made.fact), made.aggregate, ItemOf(made.fact), QuantityOf(made.fact),
              if released then Released else Reserved, made.timestamp, WhenIf(released, end), WhyIf(released, end))
  }

  /** The payment as the third event charged it and, if it was refunded, the fourth refunded it. */
  function PaymentOf(events: seq<Event>, refunded: bool): Payment
    requires |events| > 2 && (refunded ==> |events| > 3)
  {
    var made := events[2];
    var end := if refunded then events[3] else made;
    Payment(IdOf(made.fact), made.aggregate, AmountOf(made.fact), if refunded then Refunded else Charged,
            made.timestamp, WhenIf(refunded, end), WhyIf(refunded, end))
  }

  /** Every field of the state, read off the events that set it. */
  function StateOf(lifecycle: Lifecycle, events: seq<Event>): State
    requires events != [] && WordOf(|events|, lifecycle).Some?
  {
    var n, a, last := |events|, events[0].aggregate, events[|events| - 1];
    var deleted := lifecycle == Deleted;
    State(a, n, lifecycle, deleted,
          if deleted then Some(Tombstone(a, last.timestamp, ReasonOf(last.fact))) else None,
          if deleted then None else Some(OrderOf(events, lifecycle == RolledBack)),
          if HoldsInventory(n, lifecycle) then Some(InventoryOf(events, HasReleased(n, lifecycle))) else None,
          if HoldsPayment(n, lifecycle) then Some(PaymentOf(events, lifecycle != Completed)) else None)
  }

  /** Every field is accounted for. */
  ghost predicate Pictured(s: State, events: seq<Event>) {
    Reflects(s, events) && s == StateOf(s.lifecycle, events)
  }

  lemma FirstPicture(e: Event)
    requires Project([e]).Returns?
    ensures Project([e]).state.Some? && Project([e]).state.value == StateOf(Active, [e])
  {
    ProjectFirst(e);
  }

  lemma PictureAdvances(events: seq<Event>, s: State, e: Event)
    requires Pictured(s, events) && Apply(s, e).Some?
    ensures Pictured(Apply(s, e).value, events + [e])
  {
    var longer := events + [e];
    ApplyKeepsReflecting(events, s, e);
    WordOfHistory(s, events);
    assert longer[|events|] == e && longer[0] == events[0];
    if |events| > 1 { assert longer[1] == events[1]; }
    if |events| > 2 { assert longer[2] == events[2]; }
    if |events| > 3 { assert longer[3] == events[3]; }
    if |events| > 4 { assert longer[4] == events[4]; }
  }

  /** Every field of a replayed state, timestamps, amounts and reasons included, is what the events that set it say. */
  lemma {:induction false} StateIsDetermined(events: seq<Event>)
    requires events != [] && Project(events).Returns?
    ensures Project(events).state.Some? && Pictured(Project(events).state.value, events)
  {
    AcceptedIffLawful(events);
    var shorter, e := events[..|events| - 1], events[|events| - 1];
    assert events == shorter + [e];
    if shorter == [] {
      assert events == [e];
      FirstPicture(e);
    } else {
      ProjectAppend(shorter, e);
      StateIsDetermined(shorter);
      PictureAdvances(shorter, Project(shorter).state.value, e);
    }
  }

  /** Two accepted histories whose states agree on version and lifecycle went through the same event types. */
  lemma VersionAndLifecycleDetermineTypes(a: seq<Event>, b: seq<Event>, s: State, t: State)
    requires Project(a) == Returns(Some(s)) && Project(b) == Returns(Some(t))
    requires s.version == t.version && s.lifecycle == t.lifecycle
    ensures Kinds(a) == Kinds(b)
  {
    AcceptedIffLawful(a);
    AcceptedIffLawful(b);
  }

  /** All four lives can be lived to the end: every legal word is the type sequence of an accepted history. */
  lemma EveryWordIsLived(kinds: seq<Kind>)
    requires LegalWord(kinds)
    ensures Kinds(Exemplar(kinds)) == kinds && Project(Exemplar(kinds)).Returns?
  {
    var events := Exemplar(kinds);
    forall i | 0 <= i < |events| ensures Answers(events, i) {
      ExemplarAnswers(kinds, i);
    }
    AcceptedIffLawful(events);
  }

  lemma ExemplarAnswers(kinds: seq<Kind>, i: nat)
    requires LegalWord(kinds) && i < |kinds|
    ensures Answers(Exemplar(kinds), i)
  {
    assert kinds[0] == KCreated;
  }

  function ExemplarFact(kind: Kind): Fact {
    match kind
    case KCreated => OrderCreated("item", 1)
    case KReserved => InventoryReserved(1, "item", 1)
    case KCharged => PaymentCharged(1, 1.0)
    case KRefunded => PaymentRefunded(1, None)
    case KReleased => InventoryReleased(1, None)
    case KRolledBack => OrderRolledBack(None)
    case KDeleted => OrderDeleted(None)
  }

  function Exemplar(kinds: seq<Kind>): seq<Event> {
    seq(|kinds|, i requires 0 <= i < |kinds| => Event(EventId(0, i), 1, i + 1, i, ExemplarFact(kinds[i]), Key("key")))
  }
}
