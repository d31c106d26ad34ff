/** Copying and freezing graphs of plain objects and arrays, with sharing and cycles. */
module ObjectGraph {
  import opened Events

  /** A property value: plain data, a function or symbol, or an object. */
  datatype Value = Data(text: string) | Callable | Ref(node: Node)

  /** An own enumerable property, in key order. */
  datatype Field = Field(name: string, value: Value)

  class Node {
    const isArray: bool
    /** Whether the prototype is that of a plain object or array. */
    const plain: bool
    var fields: seq<Field>
    var frozen: bool

    constructor (isArray: bool)
      ensures this.isArray == isArray && plain && fields == [] && !frozen
    {
      this.isArray, plain, fields, frozen := isArray, true, [], false;
    }
  }

  /** What the objects of a graph hold at one moment. */
  type Shape = map<Node, seq<Field>>

  /** Every object a graph's objects refer to belongs to it. */
  ghost predicate Closed(shape: Shape) {
    forall n, i :: n in shape && 0 <= i < |shape[n]| ==> Covered(shape[n][i].value, shape.Keys)
  }

  predicate Covered(value: Value, nodes: set<Node>) {
    value.Ref? ==> value.node in nodes
  }

  ghost predicate Depicts(shape: Shape)
    reads shape.Keys`fields
  {
    forall n :: n in shape ==> n.fields == shape[n]
  }

  ghost predicate PointsTo(shape: Shape, from: Node, to: Node) {
    from in shape && exists i :: 0 <= i < |shape[from]| && shape[from][i].value == Ref(to)
  }

  /** The objects at most `k` references away from `root`. */
  ghost function Within(shape: Shape, root: Node, k: nat): set<Node> {
    if k == 0 then {root} else
      Within(shape, root, k - 1)
      + set n, i | n in Within(shape, root, k - 1) && n in shape && 0 <= i < |shape[n]| && shape[n][i].value.Ref?
          :: shape[n][i].value.node
  }

  ghost predicate Reachable(shape: Shape, value: Value, n: Node) {
    value.Ref? && exists k: nat :: n in Within(shape, value.node, k)
  }

  lemma ReachesItself(shape: Shape, n: Node)
    ensures Reachable(shape, Ref(n), n)
  {
    assert n in Within(shape, n, 0);
  }

  lemma WithinStep(shape: Shape, root: Node, k: nat, m: Node, n: Node)
    requires m in Within(shape, root, k) && PointsTo(shape, m, n)
    ensures n in Within(shape, root, k + 1)
  {
  }

  /** The object whose reference brings `n` within `k` of the root. */
  lemma LastBefore(shape: Shape, root: Node, k: nat, n: Node) returns (m: Node)
    requires k > 0 && n in Within(shape, root, k) && n !in Within(shape, root, k - 1)
    ensures m in Within(shape, root, k - 1) && PointsTo(shape, m, n)
  {
    var m', i :| m' in Within(shape, root, k - 1) && m' in shape && 0 <= i < |shape[m']|
                 && shape[m'][i].value == Ref(n);
    m := m';
  }

  lemma {:induction false} ReachesFurther(shape: Shape, from: Node, next: Node, k: nat, n: Node)
    requires PointsTo(shape, from, next) && n in Within(shape, next, k)
    ensures n in Within(shape, from, k + 1)
  {
    if k == 0 {
      assert from in Within(shape, from, 0);
    } else if n in Within(shape, next, k - 1) {
      ReachesFurther(shape, from, next, k - 1, n);
    } else {
      var m := LastBefore(shape, next, k, n);
      ReachesFurther(shape, from, next, k - 1, m);
    }
  }

  lemma ReachableThrough(shape: Shape, from: Node, value: Value, n: Node)
    requires value.Ref? && PointsTo(shape, from, value.node) && Reachable(shape, value, n)
    ensures Reachable(shape, Ref(from), n)
  {
    var k :| n in Within(shape, value.node, k);
    ReachesFurther(shape, from, value.node, k, n);
  }

  /** Whatever contains the root and all that its members refer to contains everything reachable. */
  lemma {:induction false} ReachableStaysInside(shape: Shape, root: Node, k: nat, nodes: set<Node>)
    requires root in nodes
    requires forall n, i :: n in nodes && n in shape && 0 <= i < |shape[n]| ==> Covered(shape[n][i].value, nodes)
    ensures Within(shape, root, k) <= nodes
  {
    if k > 0 {
      ReachableStaysInside(shape, root, k - 1, nodes);
    }
  }

  /** An object a copy can be made of: plain, with no function or symbol among its values. */
  ghost predicate Cloneable(n: Node, fields: seq<Field>) {
    n.plain && forall i :: 0 <= i < |fields| ==> !fields[i].value.Callable?
  }

  ghost predicate Uncloneable(shape: Shape, value: Value) {
    value.Callable? || exists n :: n in shape && Reachable(shape, value, n) && !Cloneable(n, shape[n])
  }

  /** The same value in the copy: data as it is, a reference as a reference to the object's copy. */
  predicate Corresponds(value: Value, copy: Value, seen: map<Node, Node>) {
    match value
    case Data(_) => copy == value
    case Callable => false
    case Ref(n) => n in seen && copy == Ref(seen[n])
  }

  predicate FieldsCorrespond(fields: seq<Field>, copies: seq<Field>, seen: map<Node, Node>) {
    && |copies| == |fields|
    && forall i :: 0 <= i < |fields| ==>
         copies[i].name == fields[i].name && Corresponds(fields[i].value, copies[i].value, seen)
  }

  /** `copy` is a complete copy of `n`. */
  ghost predicate Copied(n: Node, copy: Node, fields: seq<Field>, seen: map<Node, Node>)
    reads copy`fields
  {
    Cloneable(n, fields) && copy.isArray == n.isArray && FieldsCorrespond(fields, copy.fields, seen)
  }

  ghost predicate Injective(seen: map<Node, Node>) {
    forall m, n :: m in seen && n in seen && seen[m] == seen[n] ==> m == n
  }

  /** Copies are distinct from one another and from everything in the graph. */
  ghost predicate Apart(shape: Shape, seen: map<Node, Node>) {
    seen.Keys <= shape.Keys && Injective(seen) && forall n :: n in seen ==> seen[n] !in shape
  }

  ghost predicate Grows(seen: map<Node, Node>, later: map<Node, Node>) {
    forall n :: n in seen ==> n in later && later[n] == seen[n]
  }

  /** A complete copy stays complete while others are made. */
  lemma CorrespondsLater(fields: seq<Field>, copies: seq<Field>, seen: map<Node, Node>, later: map<Node, Node>)
    requires FieldsCorrespond(fields, copies, seen) && Grows(seen, later)
    ensures FieldsCorrespond(fields, copies, later)
  {
  }

  /** The first `i` properties of `materialized`, the copy of `node`, are defined, and every copy begun since `start`
      is complete. */
  ghost predicate Filling(shape: Shape, node: Node, materialized: Node, i: nat, start: map<Node, Node>,
                          seen: map<Node, Node>)
    reads materialized`fields, seen.Values`fields
  {
    && Apart(shape, seen) && Grows(start, seen)
    && node in start && start[node] == materialized && node in shape
    && node.plain && materialized.isArray == node.isArray
    && i <= |shape[node]| && FieldsCorrespond(shape[node][..i], materialized.fields, seen)
    && (forall j :: 0 <= j < i ==> !shape[node][j].value.Callable?)
    && (forall n :: n in seen && n !in start ==>
          Copied(n, seen[n], shape[n], seen) && Reachable(shape, Ref(node), n))
  }

  /** The copies made for the next property do not disturb what has been filled in. */
  lemma FilledLater(shape: Shape, node: Node, materialized: Node, i: nat, start: map<Node, Node>,
                    before: map<Node, Node>, seen: map<Node, Node>)
    requires Filling(shape, node, materialized, i, start, before) && Apart(shape, seen) && Grows(before, seen)
    requires forall n :: n in seen && n !in before ==>
               Copied(n, seen[n], shape[n], seen) && Reachable(shape, Ref(node), n)
    ensures Filling(shape, node, materialized, i, start, seen)
  {
    CorrespondsLater(shape[node][..i], materialized.fields, before, seen);
    EarlierCopiesStay(shape, start, before, seen);
  }

  lemma EarlierCopiesStay(shape: Shape, start: map<Node, Node>, before: map<Node, Node>, seen: map<Node, Node>)
    requires before.Keys <= shape.Keys && Grows(before, seen)
    requires forall n :: n in before && n !in start ==> Copied(n, before[n], shape[n], before)
    ensures forall n :: n in before && n !in start ==> Copied(n, seen[n], shape[n], seen)
  {
    forall n | n in before && n !in start ensures Copied(n, seen[n], shape[n], seen) {
      CorrespondsLater(shape[n], before[n].fields, before, seen);
    }
  }

  /** What a property's value reaches, the object reaches. */
  lemma ReachedThrough(shape: Shape, node: Node, i: nat, before: map<Node, Node>, seen: map<Node, Node>)
    requires node in shape && i < |shape[node]|
    requires forall n :: n in seen && n !in before ==> Reachable(shape, shape[node][i].value, n)
    ensures forall n :: n in seen && n !in before ==> Reachable(shape, Ref(node), n)
  {
    forall n | n in seen && n !in before ensures Reachable(shape, Ref(node), n) {
      ReachableThrough(shape, node, shape[node][i].value, n);
    }
  }

  lemma UncloneableThrough(shape: Shape, node: Node, i: nat)
    requires node in shape && i < |shape[node]| && Uncloneable(shape, shape[node][i].value)
    ensures Uncloneable(shape, Ref(node))
  {
    ReachesItself(shape, node);
    var value := shape[node][i].value;
    if !value.Callable? {
      var n :| n in shape && Reachable(shape, value, n) && !Cloneable(n, shape[n]);
      ReachableThrough(shape, node, value, n);
    }
  }

  lemma CorrespondsOneMore(fields: seq<Field>, i: nat, copies: seq<Field>, next: Field, seen: map<Node, Node>)
    requires i < |fields| && FieldsCorrespond(fields[..i], copies, seen)
    requires next.name == fields[i].name && Corresponds(fields[i].value, next.value, seen)
    ensures FieldsCorrespond(fields[..i + 1], copies + [next], seen) && !fields[i].value.Callable?
  {
    assert forall j :: 0 <= j < i ==> fields[..i][j] == fields[..i + 1][j];
  }

  class Copier {
    var seen: map<Node, Node>

    constructor ()
      ensures seen == map[]
    {
      seen := map[];
    }

    /** Copies what `value` reaches and has not been seen yet; None where the source throws. */
    method Copy(value: Value, ghost shape: Shape) returns (r: Option<Value>)
      requires Closed(shape) && Depicts(shape) && Covered(value, shape.Keys) && Apart(shape, seen)
      modifies this
      ensures Apart(shape, seen) && Grows(old(seen), seen)
      ensures forall n :: n in seen && n !in old(seen) ==> fresh(seen[n])
      ensures r.Some? ==> Corresponds(value, r.value, seen)
      ensures r.Some? ==> forall n :: n in seen && n !in old(seen) ==>
                        Copied(n, seen[n], shape[n], seen) && Reachable(shape, value, n)
      ensures r.None? ==> Uncloneable(shape, value)
      decreases shape.Keys - seen.Keys, 1
    {
      match value {
        case Callable => return None;
        case Data(_) => return Some(value);
        case Ref(node) =>
          if node in seen {
            return Some(Ref(seen[node]));
          }
          ReachesItself(shape, node);
          if !node.plain {
            return None;
          }
          var materialized := new Node(node.isArray);
          ghost var before := seen;
          seen := seen[node := materialized];
          assert node in shape.Keys - before.Keys && node !in shape.Keys - seen.Keys;
          var ok := CopyFields(node, materialized, shape);
          return if ok then Some(Ref(materialized)) else None;
      }
    }

    /** Defines the properties of a copy one after the other, in key order. */
    method CopyFields(node: Node, materialized: Node, ghost shape: Shape) returns (ok: bool)
      requires Closed(shape) && Depicts(shape) && node in shape && Apart(shape, seen)
      requires node in seen && seen[node] == materialized && node.plain
      requires materialized.fields == [] && materialized.isArray == node.isArray
      modifies this, materialized`fields
      ensures Apart(shape, seen) && Grows(old(seen), seen)
      ensures forall n :: n in seen && n !in old(seen) ==> fresh(seen[n])
      ensures ok ==> Copied(node, materialized, shape[node], seen)
      ensures ok ==> forall n :: n in seen && n !in old(seen) ==>
                       Copied(n, seen[n], shape[n], seen) && Reachable(shape, Ref(node), n)
      ensures !ok ==> Uncloneable(shape, Ref(node))
      decreases shape.Keys - seen.Keys, 3
    {
      var i := 0;
      ghost var start := seen;
      while i < |node.fields|
        invariant Depicts(shape) && Filling(shape, node, materialized, i, start, seen)
        invariant forall n :: n in seen && n !in start ==> fresh(seen[n])
        decreases |node.fields| - i
      {
        ok := CopyField(node, materialized, i, shape, start);
        if !ok {
          return;
        }
        i := i + 1;
      }
      return true;
    }

    method CopyField(node: Node, materialized: Node, i: nat, ghost shape: Shape, ghost start: map<Node, Node>)
      returns (ok: bool)
      requires Closed(shape) && Depicts(shape) && Filling(shape, node, materialized, i, start, seen)
      requires i < |node.fields|
      modifies this, materialized`fields
      ensures Apart(shape, seen) && Grows(old(seen), seen)
      ensures forall n :: n in seen && n !in old(seen) ==> fresh(seen[n])
      ensures if ok then Filling(shape, node, materialized, i + 1, start, seen) else Uncloneable(shape, Ref(node))
      decreases shape.Keys - seen.Keys, 2
    {
      ghost var before := seen;
      var field := node.fields[i];
      assert shape[node][i] == field;
      var value := Copy(field.value, shape);
      if value.None? {
        UncloneableThrough(shape, node, i);
        return false;
      }
      ReachedThrough(shape, node, i, before, seen);
      FilledLater(shape, node, materialized, i, start, before, seen);
      CorrespondsOneMore(shape[node], i, materialized.fields, Field(field.name, value.value), seen);
      materialized.fields := materialized.fields + [Field(field.name, value.value)];
      return true;
    }
  }

  ghost function ReachableSet(shape: Shape, value: Value): set<Node> {
    set n | n in shape && Reachable(shape, value, n)
  }

  /** Every reference an object of `nodes` holds stays in `nodes`. */
  ghost predicate Inward(shape: Shape, nodes: set<Node>) {
    forall n, i :: n in nodes && n in shape && 0 <= i < |shape[n]| ==> Covered(shape[n][i].value, nodes)
  }

  lemma ReachableIsInward(shape: Shape, value: Value, nodes: set<Node>)
    requires Inward(shape, nodes) && Covered(value, nodes)
    ensures ReachableSet(shape, value) <= nodes
  {
    forall n | n in ReachableSet(shape, value) ensures n in nodes {
      var k: nat :| n in Within(shape, value.node, k);
      ReachableStaysInside(shape, value.node, k, nodes);
    }
  }

  /** `copy` is an isomorphic copy of everything `value` reaches: `copies` pairs each reachable object with its own
      complete copy, and nothing else. */
  ghost predicate IsomorphicCopy(shape: Shape, value: Value, copy: Value, copies: map<Node, Node>)
    reads copies.Values`fields
  {
    && Apart(shape, copies)
    && copies.Keys == ReachableSet(shape, value)
    && Corresponds(value, copy, copies)
    && forall n :: n in copies ==> Copied(n, copies[n], shape[n], copies)
  }

  /** The outermost call: from an empty `seen`, an isomorphic copy made of new objects only, unless something reachable
      cannot be copied; the graph itself is left as it was. Sharing and cycles are kept. */
  method MaterializePlainCopy(value: Value, ghost shape: Shape)
    returns (r: Option<Value>, ghost copies: map<Node, Node>)
    requires Closed(shape) && Depicts(shape) && Covered(value, shape.Keys)
    ensures r.Some? <==> !Uncloneable(shape, value)
    ensures r.Some? ==> IsomorphicCopy(shape, value, r.value, copies)
    ensures forall n :: n in copies ==> fresh(copies[n])
  {
    var copier := new Copier();
    r := copier.Copy(value, shape);
    copies := copier.seen;
    if r.Some? {
      EverythingCopied(shape, value, r.value, copies);
    }
  }

  /** When the outermost call returns, what has been copied is closed under references: it is all that is reachable. */
  lemma EverythingCopied(shape: Shape, value: Value, copy: Value, copies: map<Node, Node>)
    requires Apart(shape, copies) && Corresponds(value, copy, copies)
    requires forall n :: n in copies ==> Copied(n, copies[n], shape[n], copies) && Reachable(shape, value, n)
    ensures IsomorphicCopy(shape, value, copy, copies) && !Uncloneable(shape, value)
  {
    forall n, i | n in copies.Keys && n in shape && 0 <= i < |shape[n]|
      ensures Covered(shape[n][i].value, copies.Keys)
    {
      assert Corresponds(shape[n][i].value, copies[n].fields[i].value, copies);
    }
    ReachableIsInward(shape, value, copies.Keys);
  }

  class Freezer {
    var seen: set<Node>

    constructor ()
      ensures seen == {}
    {
      seen := {};
    }

    /** Freezes what `value` reaches and has not been seen yet, each object after its properties. An object still being
        worked on is seen but not yet frozen, so only the outermost call closes the graph. */
    method Freeze(value: Value, ghost shape: Shape)
      requires Closed(shape) && Depicts(shape) && Covered(value, shape.Keys) && seen <= shape.Keys
      modifies this, shape.Keys`frozen
      ensures old(seen) <= seen <= shape.Keys && Covered(value, seen)
      ensures forall n :: n in seen - old(seen) ==> n.frozen && Reachable(shape, value, n) && Inside(shape[n], seen)
      ensures forall n :: n in shape && n !in seen - old(seen) ==> n.frozen == old(n.frozen)
      decreases shape.Keys - seen, 1
    {
      if !value.Ref? || value.node in seen {
        return;
      }
      var node := value.node;
      ghost var before := seen;
      seen := seen + {node};
      assert node in shape.Keys - before && node !in shape.Keys - seen;
      FreezeFields(node, shape);
      ReachesItself(shape, node);
      node.frozen := true;
    }

    method FreezeFields(node: Node, ghost shape: Shape)
      requires Closed(shape) && Depicts(shape) && node in shape && seen <= shape.Keys
      modifies this, shape.Keys`frozen
      ensures old(seen) <= seen <= shape.Keys && Inside(shape[node], seen)
      ensures forall n :: n in seen - old(seen) ==> n.frozen && Reachable(shape, Ref(node), n) && Inside(shape[n], seen)
      ensures forall n :: n in shape && n !in seen - old(seen) ==> n.frozen == old(n.frozen)
      decreases shape.Keys - seen, 2
    {
      ghost var start := seen;
      for i := 0 to |node.fields|
        invariant Depicts(shape) && start <= seen <= shape.Keys && Inside(shape[node][..i], seen)
        invariant forall n :: n in seen - start ==> n.frozen && Reachable(shape, Ref(node), n) && Inside(shape[n], seen)
        invariant forall n :: n in shape && n !in seen - start ==> n.frozen == old(n.frozen)
      {
        ghost var before := seen;
        Freeze(node.fields[i].value, shape);
        forall n | n in seen - before ensures Reachable(shape, Ref(node), n) {
          ReachableThrough(shape, node, shape[node][i].value, n);
        }
        InsideOneMore(shape[node], i, before, seen);
      }
      assert shape[node][..|node.fields|] == shape[node];
    }
  }

  lemma InsideOneMore(fields: seq<Field>, i: nat, before: set<Node>, nodes: set<Node>)
    requires i < |fields| && before <= nodes && Inside(fields[..i], before) && Covered(fields[i].value, nodes)
    ensures Inside(fields[..i + 1], nodes)
  {
    var shorter, longer := fields[..i], fields[..i + 1];
    forall j | 0 <= j < |longer| ensures Covered(longer[j].value, nodes) {
      if j < i {
        assert shorter[j] == longer[j] && Covered(shorter[j].value, before);
      }
    }
  }

  predicate Inside(fields: seq<Field>, nodes: set<Node>) {
    forall i :: 0 <= i < |fields| ==> Covered(fields[i].value, nodes)
  }

  /** Freezes exactly the reachable objects, and changes nothing else. */
  method DeepFreeze(value: Value, ghost shape: Shape)
    requires Closed(shape) && Depicts(shape) && Covered(value, shape.Keys)
    modifies shape.Keys`frozen
    ensures Depicts(shape)
    ensures forall n :: n in shape ==> (n.frozen <==> old(n.frozen) || n in ReachableSet(shape, value))
  {
    var freezer := new Freezer();
    freezer.Freeze(value, shape);
    assert forall n, i :: n in freezer.seen && n in shape && 0 <= i < |shape[n]| ==>
        Inside(shape[n], freezer.seen) && Covered(shape[n][i].value, freezer.seen);
    ReachableIsInward(shape, value, freezer.seen);
  }

  /** What the copies hold. */
  ghost function ShapeOfCopies(copies: map<Node, Node>): Shape
    reads copies.Values`fields
  {
    map m | m in copies.Values :: m.fields
  }

  lemma CopiesAreClosed(shape: Shape, value: Value, copy: Value, copies: map<Node, Node>)
    requires IsomorphicCopy(shape, value, copy, copies)
    ensures Closed(ShapeOfCopies(copies)) && Depicts(ShapeOfCopies(copies)) && Covered(copy, copies.Values)
  {
    var image: Shape := ShapeOfCopies(copies);
    forall m: Node, i: nat | m in image && i < |image[m]| ensures Covered(image[m][i].value, image.Keys) {
      var n :| n in copies && copies[n] == m;
      assert Corresponds(shape[n][i].value, m.fields[i].value, copies);
    }
  }

  /** References lead from copy to copy as they lead from original to original. */
  lemma CopyPoints(shape: Shape, value: Value, copy: Value, copies: map<Node, Node>, m: Node, n: Node)
    requires IsomorphicCopy(shape, value, copy, copies) && m in copies && PointsTo(shape, m, n)
    ensures n in copies && PointsTo(ShapeOfCopies(copies), copies[m], copies[n])
  {
    var i :| 0 <= i < |shape[m]| && shape[m][i].value == Ref(n);
    assert Corresponds(shape[m][i].value, copies[m].fields[i].value, copies);
    assert ShapeOfCopies(copies)[copies[m]][i].value == Ref(copies[n]);
  }

  /** Every reference in one graph has a counterpart between the counterparts in the other. */
  ghost predicate Homomorphic(shape: Shape, image: Shape, copies: map<Node, Node>) {
    forall m, i :: m in copies && m in shape && 0 <= i < |shape[m]| && shape[m][i].value.Ref? ==>
      shape[m][i].value.node in copies && PointsTo(image, copies[m], copies[shape[m][i].value.node])
  }

  lemma {:induction false} CopiesReach(shape: Shape, image: Shape, copies: map<Node, Node>, root: Node, k: nat, n: Node)
    requires Homomorphic(shape, image, copies) && root in copies && n in Within(shape, root, k)
    ensures n in copies && copies[n] in Within(image, copies[root], k)
  {
    if k > 0 {
      if n in Within(shape, root, k - 1) {
        CopiesReach(shape, image, copies, root, k - 1, n);
      } else {
        var m := LastBefore(shape, root, k, n);
        CopiesReach(shape, image, copies, root, k - 1, m);
        WithinStep(image, copies[root], k - 1, copies[m], copies[n]);
      }
    }
  }

  lemma AllCopiesReachable(shape: Shape, value: Value, copy: Value, copies: map<Node, Node>)
    requires IsomorphicCopy(shape, value, copy, copies)
    ensures ReachableSet(ShapeOfCopies(copies), copy) == copies.Values
  {
    var image: Shape := ShapeOfCopies(copies);
    forall m, i | m in copies && m in shape && 0 <= i < |shape[m]| && shape[m][i].value.Ref?
      ensures shape[m][i].value.node in copies
      ensures PointsTo(image, copies[m], copies[shape[m][i].value.node])
    {
      CopyPoints(shape, value, copy, copies, m, shape[m][i].value.node);
    }
    forall m | m in copies.Values ensures m in ReachableSet(image, copy) {
      var n :| n in copies && copies[n] == m;
      var k: nat :| n in Within(shape, value.node, k);
      CopiesReach(shape, image, copies, value.node, k, n);
    }
  }

  /** What the registry captures of a callback's output: an isomorphic copy, all of it frozen and all of it new, so
      nothing the callback kept can change it; the output itself is neither changed nor frozen. */
  method MaterializeAndFreezePlain(value: Value, ghost shape: Shape)
    returns (r: Option<Value>, ghost copies: map<Node, Node>)
    requires Closed(shape) && Depicts(shape) && Covered(value, shape.Keys)
    ensures r.Some? <==> !Uncloneable(shape, value)
    ensures r.Some? ==> IsomorphicCopy(shape, value, r.value, copies)
    ensures r.Some? ==> forall n :: n in copies ==> fresh(copies[n]) && copies[n].frozen
  {
    r, copies := MaterializePlainCopy(value, shape);
    if r.Some? {
      CopiesAreClosed(shape, value, r.value, copies);
      AllCopiesReachable(shape, value, r.value, copies);
      DeepFreeze(r.value, ShapeOfCopies(copies));
    }
  }
}
