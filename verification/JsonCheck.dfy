/** The cycle-safe JSON recogniser of `packages/chord/src/json.ts`, over an arbitrary object graph. */
module JsonCheck {
  import opened Wrappers

  type Id = nat

  /** A JavaScript value; `Other` is undefined, a function, a symbol or a big integer. */
  datatype Value = Null | Str | Bool | Num(finite: bool) | Ref(id: Id) | Other

  /** An own property: data or accessor. */
  datatype Property = Data(enumerable: bool, value: Value) | Accessor(enumerable: bool)

  /** `elements[i]` is the property at index i, if there is one; `ownKeys` counts all own keys of
    the array, including "length". */
  datatype Object =
    | Arr(ownKeys: nat, symbolKeys: bool, elements: seq<Option<Property>>)
    | Rec(plain: bool, symbolKeys: bool, properties: seq<Property>)

  /** The graph: what each object holds. Cycles and sharing are unrestricted. */
  type Heap = Id -> Object

  const MAX_DEPTH: nat := 512

  /** The checks on an object before its members are visited. */
  predicate LocallyValid(node: Object) {
    match node
    case Arr(ownKeys, symbolKeys, elements) => ownKeys == |elements| + 1 && !symbolKeys
    case Rec(plain, symbolKeys, _) => plain && !symbolKeys
  }

  function Members(node: Object): seq<Option<Property>> {
    match node
    case Arr(_, _, elements) => elements
    case Rec(_, _, properties) => seq(|properties|, i requires 0 <= i < |properties| => Some(properties[i]))
  }

  predicate Plain(member: Option<Property>) {
    member.Some? && member.value.Data? && member.value.enumerable
  }

  predicate Atom(value: Value) {
    value == Null || value == Str || value == Bool || value == Num(true)
  }

  // ----- the meaning: a finite tree that the graph unfolds to -----

  datatype Tree = Leaf | Node(id: Id, kids: seq<Tree>)

  ghost predicate Denotes(heap: Heap, value: Value, tree: Tree)
    decreases tree
  {
    match tree
    case Leaf => Atom(value)
    case Node(id, kids) =>
      && value == Ref(id)
      && LocallyValid(heap(id))
      && |kids| == |Members(heap(id))|
      && forall i :: 0 <= i < |kids| ==> Plain(Members(heap(id))[i]) && Denotes(heap, Members(heap(id))[i].value.value, kids[i])
  }

  /** Length of the longest path from the root. */
  function Height(tree: Tree): nat {
    match tree
    case Leaf => 0
    case Node(_, kids) => Tallest(kids)
  }

  function Tallest(kids: seq<Tree>): nat {
    if kids == [] then 0
    else
      var first, rest := 1 + Height(kids[0]), Tallest(kids[1..]);
      if first > rest then first else rest
  }

  ghost function Ids(tree: Tree): set<Id> {
    match tree
    case Leaf => {}
    case Node(id, kids) => {id} + set i, x | 0 <= i < |kids| && x in Ids(kids[i]) :: x
  }

  /** The value is JSON: it unfolds to a finite tree of locally valid nodes within the depth bound. */
  ghost predicate IsJson(heap: Heap, value: Value) {
    exists tree :: Denotes(heap, value, tree) && Height(tree) <= MAX_DEPTH
  }

  lemma {:induction false} TallestIsBound(kids: seq<Tree>, bound: int)
    ensures Tallest(kids) <= bound <==> bound >= 0 && forall i :: 0 <= i < |kids| ==> 1 + Height(kids[i]) <= bound
  {
    if kids != [] {
      TallestIsBound(kids[1..], bound);
      assert forall i :: 1 <= i < |kids| ==> kids[i] == kids[1..][i - 1];
      assert forall i :: 0 <= i < |kids[1..]| ==> kids[1..][i] == kids[i + 1];
    }
  }

  lemma KidIsShorter(tree: Tree, i: nat)
    requires tree.Node? && i < |tree.kids|
    ensures Height(tree.kids[i]) < Height(tree)
  {
    TallestIsBound(tree.kids, Tallest(tree.kids));
  }

  lemma {:induction false} Deterministic(heap: Heap, value: Value, one: Tree, other: Tree)
    requires Denotes(heap, value, one) && Denotes(heap, value, other)
    ensures one == other
    decreases one
  {
    if one.Node? {
      forall i | 0 <= i < |one.kids|
        ensures one.kids[i] == other.kids[i]
      {
        Deterministic(heap, Members(heap(one.id))[i].value.value, one.kids[i], other.kids[i]);
      }
    }
  }

  lemma {:induction false} SubtreeOf(heap: Heap, value: Value, tree: Tree, id: Id) returns (sub: Tree)
    requires Denotes(heap, value, tree) && id in Ids(tree)
    ensures Denotes(heap, Ref(id), sub) && Height(sub) <= Height(tree)
    decreases tree
  {
    if tree.id == id {
      sub := tree;
    } else {
      var i :| 0 <= i < |tree.kids| && id in Ids(tree.kids[i]);
      sub := SubtreeOf(heap, Members(heap(tree.id))[i].value.value, tree.kids[i], id);
      KidIsShorter(tree, i);
    }
  }

  /** A node does not occur below itself. */
  lemma NotBelowItself(heap: Heap, tree: Tree, i: nat)
    requires tree.Node? && Denotes(heap, Ref(tree.id), tree) && i < |tree.kids|
    ensures tree.id !in Ids(tree.kids[i])
  {
    if tree.id in Ids(tree.kids[i]) {
      var sub := SubtreeOf(heap, Members(heap(tree.id))[i].value.value, tree.kids[i], tree.id);
      Deterministic(heap, Ref(tree.id), tree, sub);
      KidIsShorter(tree, i);
      assert false;
    }
  }

  // ----- the recogniser -----

  class Ancestors {
    var ids: set<Id>

    constructor ()
      ensures ids == {}
    {
      ids := {};
    }
  }

  /** What one visit decides: an unfolding that fits under `depth` and avoids the ancestors. */
  ghost predicate Fits(heap: Heap, value: Value, ancestors: set<Id>, depth: nat, tree: Tree) {
    Denotes(heap, value, tree) && depth + Height(tree) <= MAX_DEPTH && Ids(tree) !! ancestors
  }

  /** Visits a value. The shared ancestor set is restored on every return. */
  method Check(heap: Heap, value: Value, ancestors: Ancestors, depth: nat) returns (ok: bool, ghost witness': Tree)
    modifies ancestors
    ensures ancestors.ids == old(ancestors.ids)
    ensures ok ==> Fits(heap, value, old(ancestors.ids), depth, witness')
    ensures !ok ==> forall tree :: !Fits(heap, value, old(ancestors.ids), depth, tree)
    decreases if depth > MAX_DEPTH then 0 else MAX_DEPTH + 1 - depth
  {
    witness' := Leaf;
    if depth > MAX_DEPTH {
      return false, Leaf;
    }
    if value == Null || value == Str || value == Bool {
      return true, Leaf;
    }
    if value.Num? {
      return value.finite, Leaf;
    }
    if value.Other? {
      return false, Leaf;
    }
    var node := heap(value.id);
    if !LocallyValid(node) || value.id in ancestors.ids {
      return false, Leaf;
    }
    ghost var before := ancestors.ids;
    ancestors.ids := ancestors.ids + {value.id};
    ghost var kids: seq<Tree> := [];
    var members := Members(node);
    ok := true;
    var index := 0;
    while index < |members| && ok
      invariant 0 <= index <= |members|
      invariant ancestors.ids == before + {value.id}
      invariant ok ==> |kids| == index
      invariant ok ==> forall k :: 0 <= k < index ==> Plain(members[k]) && Fits(heap, members[k].value.value, before + {value.id}, depth + 1, kids[k])
      invariant !ok ==> forall tree :: !Fits(heap, value, before, depth, tree)
      decreases |members| - index, ok
    {
      if !Plain(members[index]) {
        ok := false;
      } else {
        var fits, kid := Check(heap, members[index].value.value, ancestors, depth + 1);
        if fits {
          kids := kids + [kid];
          index := index + 1;
        } else {
          ok := false;
          KidFails(heap, value.id, before, depth, index, members[index].value.value, ancestors.ids, depth + 1);
        }
      }
    }
    ancestors.ids := ancestors.ids - {value.id};
    witness' := Node(value.id, kids);
    if ok {
      KidsFit(heap, value.id, before, depth, kids);
    }
  }

  /** In an unfolding that fits, every member fits below its parent. */
  lemma KidFits(heap: Heap, id: Id, ancestors: set<Id>, depth: nat, index: nat, tree: Tree)
    requires Fits(heap, Ref(id), ancestors, depth, tree) && index < |Members(heap(id))|
    ensures Plain(Members(heap(id))[index])
    ensures Fits(heap, Members(heap(id))[index].value.value, ancestors + {id}, depth + 1, tree.kids[index])
  {
    NotBelowItself(heap, tree, index);
    KidIsShorter(tree, index);
    assert forall x :: x in Ids(tree.kids[index]) ==> x in Ids(tree);
  }

  lemma KidFails(heap: Heap, id: Id, ancestors: set<Id>, depth: nat, index: nat, member: Value, below: set<Id>, next: nat)
    requires index < |Members(heap(id))| && Members(heap(id))[index] == Some(Data(true, member))
    requires below == ancestors + {id} && next == depth + 1
    requires forall tree :: !Fits(heap, member, below, next, tree)
    ensures forall tree :: !Fits(heap, Ref(id), ancestors, depth, tree)
  {
    forall tree
      ensures !Fits(heap, Ref(id), ancestors, depth, tree)
    {
      if Fits(heap, Ref(id), ancestors, depth, tree) {
        KidFits(heap, id, ancestors, depth, index, tree);
        assert false;
      }
    }
  }

  lemma KidsFit(heap: Heap, id: Id, ancestors: set<Id>, depth: nat, kids: seq<Tree>)
    requires LocallyValid(heap(id)) && id !in ancestors && depth <= MAX_DEPTH && |kids| == |Members(heap(id))|
    requires forall k :: 0 <= k < |kids| ==>
               Plain(Members(heap(id))[k]) && Fits(heap, Members(heap(id))[k].value.value, ancestors + {id}, depth + 1, kids[k])
    ensures Fits(heap, Ref(id), ancestors, depth, Node(id, kids))
  {
    TallestIsBound(kids, MAX_DEPTH - depth);
  }

  /** `isJsonValue` accepts a value exactly when it unfolds to a finite tree of depth at most 512 whose
    nodes are locally valid. */
  method IsJsonValue(heap: Heap, value: Value) returns (ok: bool)
    ensures ok <==> IsJson(heap, value)
  {
    var ancestors := new Ancestors();
    ghost var tree;
    ok, tree := Check(heap, value, ancestors, 0);
    if !ok {
      assert forall t :: Denotes(heap, value, t) && Height(t) <= MAX_DEPTH ==> Fits(heap, value, {}, 0, t);
    }
  }

  // ----- cycles -----

  /** One object holds a reference to another, as an element or as a property that is read. */
  ghost predicate Holds(heap: Heap, from: Id, to: Id) {
    match heap(from)
    case Arr(_, _, elements) => exists i :: 0 <= i < |elements| && elements[i] == Some(Data(true, Ref(to)))
    case Rec(_, _, properties) => exists i :: 0 <= i < |properties| && properties[i] == Data(true, Ref(to))
  }

  lemma HeldMember(heap: Heap, from: Id, to: Id) returns (i: nat)
    requires Holds(heap, from, to)
    ensures i < |Members(heap(from))| && Plain(Members(heap(from))[i]) && Members(heap(from))[i].value.value == Ref(to)
  {
    match heap(from)
    case Arr(_, _, elements) => i :| i < |elements| && elements[i] == Some(Data(true, Ref(to)));
    case Rec(_, _, properties) => i :| i < |properties| && properties[i] == Data(true, Ref(to));
  }

  ghost predicate Path(heap: Heap, path: seq<Id>) {
    path != [] && forall i :: 0 <= i < |path| - 1 ==> Holds(heap, path[i], path[i + 1])
  }

  lemma {:induction false} Descend(heap: Heap, path: seq<Id>, tree: Tree) returns (sub: Tree)
    requires Path(heap, path) && Denotes(heap, Ref(path[0]), tree)
    ensures Denotes(heap, Ref(path[|path| - 1]), sub) && Height(sub) + |path| - 1 <= Height(tree)
    decreases path
  {
    if |path| == 1 {
      sub := tree;
    } else {
      var i := HeldMember(heap, path[0], path[1]);
      KidIsShorter(tree, i);
      var rest := path[1..];
      assert forall k :: 0 <= k < |rest| ==> rest[k] == path[k + 1];
      assert Path(heap, rest);
      sub := Descend(heap, rest, tree.kids[i]);
    }
  }

  /** A value from which a cycle can be reached is never accepted. */
  lemma CyclesRejected(heap: Heap, approach: seq<Id>, cycle: seq<Id>)
    requires Path(heap, approach) && Path(heap, cycle) && |cycle| > 1
    requires approach[|approach| - 1] == cycle[0] == cycle[|cycle| - 1]
    ensures !IsJson(heap, Ref(approach[0]))
  {
    if tree :| Denotes(heap, Ref(approach[0]), tree) && Height(tree) <= MAX_DEPTH {
      var at := Descend(heap, approach, tree);
      var again := Descend(heap, cycle, at);
      Deterministic(heap, Ref(cycle[0]), at, again);
      assert false;
    }
  }

  /** Sharing alone is no reason to reject: an array of any two accepted members is accepted when
    neither is too deep, whether or not they share objects with each other. */
  lemma SharedMembersAccepted(heap: Heap, id: Id, left: Tree, right: Tree)
    requires heap(id).Arr? && heap(id).ownKeys == 3 && !heap(id).symbolKeys && |heap(id).elements| == 2
    requires Plain(heap(id).elements[0]) && Plain(heap(id).elements[1])
    requires Denotes(heap, heap(id).elements[0].value.value, left) && Height(left) < MAX_DEPTH
    requires Denotes(heap, heap(id).elements[1].value.value, right) && Height(right) < MAX_DEPTH
    ensures IsJson(heap, Ref(id))
  {
    var tree := Node(id, [left, right]);
    TallestIsBound(tree.kids, MAX_DEPTH);
    assert Denotes(heap, Ref(id), tree);
  }

  // ----- the grammar, one level at a time -----

  /** The value is JSON of at most this depth. */
  ghost predicate JsonWithin(heap: Heap, value: Value, depth: int) {
    exists tree :: Denotes(heap, value, tree) && Height(tree) <= depth
  }

  ghost function TreeWithin(heap: Heap, value: Value, depth: int): (tree: Tree)
    requires JsonWithin(heap, value, depth)
    ensures Denotes(heap, value, tree) && Height(tree) <= depth
  {
    var tree :| Denotes(heap, value, tree) && Height(tree) <= depth;
    tree
  }

  lemma MembersWithin(heap: Heap, id: Id, depth: int)
    ensures JsonWithin(heap, Ref(id), depth) <==>
            && depth >= 0 && LocallyValid(heap(id))
            && forall i :: 0 <= i < |Members(heap(id))| ==>
                 Plain(Members(heap(id))[i]) && JsonWithin(heap, Members(heap(id))[i].value.value, depth - 1)
  {
    var members := Members(heap(id));
    if JsonWithin(heap, Ref(id), depth) {
      var tree := TreeWithin(heap, Ref(id), depth);
      TallestIsBound(tree.kids, depth);
      forall i | 0 <= i < |members| ensures Plain(members[i]) && JsonWithin(heap, members[i].value.value, depth - 1) {
        assert Denotes(heap, members[i].value.value, tree.kids[i]) && Height(tree.kids[i]) <= depth - 1;
      }
    }
    if && depth >= 0 && LocallyValid(heap(id))
       && forall i :: 0 <= i < |members| ==> Plain(members[i]) && JsonWithin(heap, members[i].value.value, depth - 1) {
      var kids := seq(|members|, i requires 0 <= i < |members| => TreeWithin(heap, members[i].value.value, depth - 1));
      TallestIsBound(kids, depth);
      assert Denotes(heap, Ref(id), Node(id, kids)) && Height(Node(id, kids)) <= depth;
    }
  }

  /** A property that is visible, holds data, and holds JSON one level down. */
  ghost predicate ReadWithin(heap: Heap, property: Property, depth: nat) {
    property.Data? && property.enumerable && depth > 0 && JsonWithin(heap, property.value, depth - 1)
  }

  lemma ReadMember(heap: Heap, property: Property, depth: nat)
    ensures ReadWithin(heap, property, depth) <==> Plain(Some(property)) && JsonWithin(heap, property.value, depth - 1)
  {
    if depth == 0 { NothingBelowZero(heap); }
  }

  lemma NothingBelowZero(heap: Heap)
    ensures forall value :: !JsonWithin(heap, value, -1)
  {
  }

  lemma MembersRead(heap: Heap, id: Id, depth: nat)
    ensures (forall i :: 0 <= i < |Members(heap(id))| ==>
               Plain(Members(heap(id))[i]) && JsonWithin(heap, Members(heap(id))[i].value.value, depth - 1))
            <==> (forall i :: 0 <= i < |Members(heap(id))| ==> Members(heap(id))[i].Some? && ReadWithin(heap, Members(heap(id))[i].value, depth))
  {
    var members := Members(heap(id));
    forall i | 0 <= i < |members|
      ensures Plain(members[i]) && JsonWithin(heap, members[i].value.value, depth - 1) <==> members[i].Some? && ReadWithin(heap, members[i].value, depth)
    {
      if members[i].Some? { ReadMember(heap, members[i].value, depth); }
    }
  }

  /** The grammar in full: null, strings, booleans and finite numbers; arrays without holes, accessors, hidden
    elements or extra keys; plain objects without accessors, hidden properties or symbol keys; and
    their members again, up to a depth of 512. */
  lemma JsonGrammar(heap: Heap, value: Value, depth: nat)
    ensures IsJson(heap, value) <==> JsonWithin(heap, value, 512)
    ensures !value.Ref? ==> (JsonWithin(heap, value, depth) <==> value.Null? || value.Str? || value.Bool? || value == Num(true))
    ensures value.Ref? && heap(value.id).Arr? ==>
              var node := heap(value.id);
              JsonWithin(heap, value, depth) <==>
              && node.ownKeys == |node.elements| + 1 && !node.symbolKeys
              && forall i :: 0 <= i < |node.elements| ==> node.elements[i].Some? && ReadWithin(heap, node.elements[i].value, depth)
    ensures value.Ref? && heap(value.id).Rec? ==>
              var node := heap(value.id);
              JsonWithin(heap, value, depth) <==>
              && node.plain && !node.symbolKeys
              && forall i :: 0 <= i < |node.properties| ==> ReadWithin(heap, node.properties[i], depth)
  {
    hide ReadWithin;
    if value.Ref? {
      MembersWithin(heap, value.id, depth);
      MembersRead(heap, value.id, depth);
      var node, members := heap(value.id), Members(heap(value.id));
      if node.Rec? {
        assert forall i :: 0 <= i < |members| ==> members[i] == Some(node.properties[i]);
        assert forall i :: 0 <= i < |node.properties| ==> members[i].value == node.properties[i];
      }
    } else {
      assert Atom(value) ==> Denotes(heap, value, Leaf) && Height(Leaf) <= depth;
    }
  }
}
