/** The chaos suite's compensation checker, and the proof that it can never fire on an accepted history. */
module InvariantSuite {
  import opened Events
  import opened Projection
  import opened Histories

  datatype Violation = CompensationOrdering | NoImpossibleFinalState

  /** The first position of `kind`, or -1. */
  function IndexOf(kinds: seq<Kind>, kind: Kind): int {
    if kind !in kinds then -1 else if kinds[0] == kind then 0 else 1 + IndexOf(kinds[1..], kind)
  }

  function CheckPayment(kinds: seq<Kind>): Option<Violation> {
    if KCharged in kinds then
      if KRefunded !in kinds then Some(CompensationOrdering)
      else if IndexOf(kinds, KRefunded) < IndexOf(kinds, KCharged) then Some(CompensationOrdering)
      else None
    else if KRefunded in kinds then Some(CompensationOrdering)
    else None
  }

  function CheckInventory(kinds: seq<Kind>): Option<Violation> {
    if KReserved in kinds then
      if KReleased !in kinds then Some(CompensationOrdering)
      else if IndexOf(kinds, KReleased) < IndexOf(kinds, KReserved) then Some(CompensationOrdering)
      else if KRefunded in kinds && IndexOf(kinds, KReleased) < IndexOf(kinds, KRefunded)
      then Some(CompensationOrdering)
      else None
    else if KReleased in kinds then Some(CompensationOrdering)
    else None
  }

  function CheckFinality(kinds: seq<Kind>): Option<Violation> {
    var roll := IndexOf(kinds, KRolledBack);
    if roll < IndexOf(kinds, KCreated)
       || (KReleased in kinds && roll < IndexOf(kinds, KReleased))
       || (KRefunded in kinds && roll < IndexOf(kinds, KRefunded))
    then Some(CompensationOrdering)
    else None
  }

  function CheckCompensatedState(kinds: seq<Kind>, s: State): Option<Violation> {
    if s.lifecycle != RolledBack
       || !OrderHas(s, OrderIsRolledBack)
       || (KCharged in kinds && !PaymentHas(s, Refunded))
       || (KCharged !in kinds && s.payment.Some?)
       || (KReserved in kinds && !InventoryHas(s, Released))
       || (KReserved !in kinds && s.inventory.Some?)
    then Some(NoImpossibleFinalState)
    else None
  }

  /** The violation the checker throws first, if any. */
  function Check(events: seq<Event>, state: Option<State>): Option<Violation> {
    if state.None? then None else
      var s := state.value;
      var kinds := Kinds(events);
      var compensated := KRolledBack in kinds;
      if compensated && CheckPayment(kinds).Some? then CheckPayment(kinds)
      else if compensated && CheckInventory(kinds).Some? then CheckInventory(kinds)
      else if compensated && CheckFinality(kinds).Some? then CheckFinality(kinds)
      else if compensated && !s.deleted && CheckCompensatedState(kinds, s).Some? then CheckCompensatedState(kinds, s)
      else if s.lifecycle == Completed && (!PaymentHas(s, Charged) || !InventoryHas(s, Reserved))
      then Some(NoImpossibleFinalState)
      else if s.deleted && (s.payment.Some? || s.inventory.Some? || s.order.Some?) then Some(NoImpossibleFinalState)
      else None
  }

  lemma {:induction false} IndexOfDistinct(kinds: seq<Kind>, i: nat)
    requires i < |kinds|
    requires forall j, k :: 0 <= j < k < |kinds| ==> kinds[j] != kinds[k]
    ensures IndexOf(kinds, kinds[i]) == i
  {
    if i > 0 {
      assert kinds[1..][i - 1] == kinds[i];
      IndexOfDistinct(kinds[1..], i - 1);
    }
  }

  ghost predicate InOrder(word: seq<Kind>) {
    CheckPayment(word) == None && CheckInventory(word) == None && CheckFinality(word) == None
  }

  lemma CancelledInOrder(word: seq<Kind>)
    requires CANCELLED[..2] <= word <= CANCELLED
    ensures InOrder(word)
  {
    assert word[0] == KCreated && word[1] == KRolledBack;
    IndexOfDistinct(word, 0);
    IndexOfDistinct(word, 1);
  }

  lemma UnreservedInOrder(word: seq<Kind>)
    requires UNRESERVED[..4] <= word <= UNRESERVED
    ensures InOrder(word)
  {
    assert word[0] == KCreated && word[1] == KReserved && word[2] == KReleased && word[3] == KRolledBack;
    IndexOfDistinct(word, 0);
    IndexOfDistinct(word, 1);
    IndexOfDistinct(word, 2);
    IndexOfDistinct(word, 3);
  }

  lemma RefundedInOrder(word: seq<Kind>)
    requires REFUNDED[..6] <= word <= REFUNDED
    ensures InOrder(word)
  {
    assert word[0] == KCreated && word[1] == KReserved && word[2] == KCharged;
    assert word[3] == KRefunded && word[4] == KReleased && word[5] == KRolledBack;
    IndexOfDistinct(word, 0);
    IndexOfDistinct(word, 1);
    IndexOfDistinct(word, 2);
    IndexOfDistinct(word, 3);
    IndexOfDistinct(word, 4);
    IndexOfDistinct(word, 5);
  }

  /** Every legal word that rolls back passes the ordering checks: in it no event type occurs twice,
      so first positions are the only ones. */
  lemma WordInOrder(version: int, lifecycle: Lifecycle)
    requires WordOf(version, lifecycle).Some? && KRolledBack in WordOf(version, lifecycle).value
    ensures InOrder(WordOf(version, lifecycle).value)
  {
    var word := WordOf(version, lifecycle).value;
    if |word| < 4 {
      CancelledInOrder(word);
    } else if |word| < 6 {
      UnreservedInOrder(word);
    } else {
      RefundedInOrder(word);
    }
  }

  /** Which event types a state's word contains. */
  lemma WordContents(version: int, lifecycle: Lifecycle)
    requires WordOf(version, lifecycle).Some?
    ensures var word := WordOf(version, lifecycle).value;
            && (KRolledBack in word && lifecycle != Deleted ==> lifecycle == RolledBack)
            && (lifecycle == RolledBack ==>
                  (KCharged in word <==> HoldsPayment(version, lifecycle)) &&
                  (KReserved in word <==> HoldsInventory(version, lifecycle)))
  {
    var word := WordOf(version, lifecycle).value;
    if lifecycle == RolledBack && version > 2 {
      assert word[1] == KReserved;
      if version > 4 {
        assert word[2] == KCharged;
      }
    }
  }

  /** No accepted history, checked against its own replay, is ever reported. */
  lemma CheckerNeverFires(events: seq<Event>)
    requires Project(events).Returns?
    ensures Check(events, Project(events).state) == None
  {
    AcceptedIffLawful(events);
    if events != [] {
      var s := Project(events).state.value;
      WordContents(s.version, s.lifecycle);
      if KRolledBack in Kinds(events) {
        WordInOrder(s.version, s.lifecycle);
      }
    }
  }

  /** Some `a` comes before the first `b`. */
  predicate Precedes(kinds: seq<Kind>, a: Kind, b: Kind) {
    a in kinds && forall j :: 0 <= j < |kinds| && kinds[j] == b ==> a in kinds[..j]
  }

  lemma {:induction false} IndexOfIsFirst(kinds: seq<Kind>, kind: Kind)
    ensures kind in kinds ==> 0 <= IndexOf(kinds, kind) < |kinds| && kinds[IndexOf(kinds, kind)] == kind
    ensures kind in kinds ==> forall k :: 0 <= k < IndexOf(kinds, kind) ==> kinds[k] != kind
    ensures kind !in kinds ==> IndexOf(kinds, kind) == -1
  {
    if kind in kinds && kinds[0] != kind {
      var rest := kinds[1..];
      assert kinds == [kinds[0]] + rest;
      IndexOfIsFirst(rest, kind);
      forall k | 0 <= k < IndexOf(kinds, kind) ensures kinds[k] != kind {
        if k > 0 { assert kinds[k] == rest[k - 1]; }
      }
    }
  }

  lemma IndicesDecide(kinds: seq<Kind>, a: Kind, b: Kind)
    requires a != b && a in kinds && b in kinds
    ensures Precedes(kinds, a, b) <==> IndexOf(kinds, a) < IndexOf(kinds, b)
  {
    IndexOfIsFirst(kinds, a);
    IndexOfIsFirst(kinds, b);
    var i, j := IndexOf(kinds, a), IndexOf(kinds, b);
    forall k | i < k <= |kinds| ensures a in kinds[..k] {
      assert kinds[..k][i] == a;
    }
    assert a in kinds[..j] ==> i < j;
  }

  /** The events of a rolled back order in a lawful order: what was charged was refunded later, what was reserved was
      released later, after the refund, and the roll-back came after everything; nothing was undone that was not done.
      */
  predicate UndoneInOrder(kinds: seq<Kind>) {
    && (KCharged in kinds || KRefunded in kinds ==> Precedes(kinds, KCharged, KRefunded) && KRefunded in kinds)
    && (KReserved in kinds || KReleased in kinds ==> Precedes(kinds, KReserved, KReleased) && KReleased in kinds)
    && (KRefunded in kinds && KReleased in kinds ==> Precedes(kinds, KRefunded, KReleased))
    && (forall kind :: kind in kinds && kind in {KCreated, KReleased, KRefunded} ==> Precedes(kinds, kind, KRolledBack))
  }

  /** And a state that shows it: rolled back, refunded exactly what was charged, released exactly what was reserved. */
  predicate ShowsUndone(kinds: seq<Kind>, s: State) {
    && s.lifecycle == RolledBack && OrderHas(s, OrderIsRolledBack)
    && (if KCharged in kinds then PaymentHas(s, Refunded) else s.payment.None?)
    && (if KReserved in kinds then InventoryHas(s, Released) else s.inventory.None?)
  }

  lemma OrderingDecides(kinds: seq<Kind>)
    requires KRolledBack in kinds
    ensures InOrder(kinds) <==> UndoneInOrder(kinds)
  {
    if KCharged in kinds && KRefunded in kinds { PairDecides(kinds, KCharged, KRefunded); }
    if KReserved in kinds && KReleased in kinds { PairDecides(kinds, KReserved, KReleased); }
    if KRefunded in kinds && KReleased in kinds { PairDecides(kinds, KRefunded, KReleased); }
    forall kind | kind in kinds && kind in {KCreated, KReleased, KRefunded}
      ensures Precedes(kinds, kind, KRolledBack) <==> IndexOf(kinds, kind) < IndexOf(kinds, KRolledBack)
      ensures IndexOf(kinds, kind) != IndexOf(kinds, KRolledBack)
    {
      PairDecides(kinds, kind, KRolledBack);
    }
    IndexOfIsFirst(kinds, KCreated);
    IndexOfIsFirst(kinds, KRolledBack);
  }

  lemma PairDecides(kinds: seq<Kind>, a: Kind, b: Kind)
    requires a != b && a in kinds && b in kinds
    ensures Precedes(kinds, a, b) <==> IndexOf(kinds, a) < IndexOf(kinds, b)
    ensures IndexOf(kinds, a) != IndexOf(kinds, b)
  {
    IndicesDecide(kinds, a, b);
    IndexOfIsFirst(kinds, a);
    IndexOfIsFirst(kinds, b);
  }

  /** What the checker accepts of any history and state whatever: it reports everything else. */
  lemma CheckerAcceptsExactly(events: seq<Event>, s: State)
    ensures Check(events, Some(s)) == None <==>
            && (KRolledBack in Kinds(events) ==>
                  UndoneInOrder(Kinds(events)) && (s.deleted || ShowsUndone(Kinds(events), s)))
            && (s.lifecycle == Completed ==> PaymentHas(s, Charged) && InventoryHas(s, Reserved))
            && (s.deleted ==> s.payment.None? && s.inventory.None? && s.order.None?)
  {
    if KRolledBack in Kinds(events) { OrderingDecides(Kinds(events)); }
  }

  /** The checker is not vacuous: rolling back a charged payment without a refund is reported. */
  lemma CheckerCatchesMissingRefund(events: seq<Event>, s: State)
    requires KRolledBack in Kinds(events) && KCharged in Kinds(events) && KRefunded !in Kinds(events)
    ensures Check(events, Some(s)) == Some(CompensationOrdering)
  {
  }

  /** Together: no accepted history rolls a charged order back without refunding it. */
  lemma NoRollbackWithoutRefund(events: seq<Event>)
    requires Project(events).Returns? && events != []
    requires KRolledBack in Kinds(events) && KCharged in Kinds(events)
    ensures KRefunded in Kinds(events)
  {
    AcceptedIffLawful(events);
    CheckerNeverFires(events);
    if KRefunded !in Kinds(events) {
      CheckerCatchesMissingRefund(events, Project(events).state.value);
    }
  }
}
