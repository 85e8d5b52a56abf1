/**
 * How much a structure received from another context may hold: the walk `measureStructure` of
 * `src/protocol/limits.ts`, and that it accepts exactly the trees of plain values within the budget.
 *
 * A structure is a graph of objects on a heap. Property reads are taken to have no effects of their own.
 */
module StructureBudget {
  import opened Basics

  type ObjectId = int

  /** A value of the program: a string, any other primitive, a function or symbol, or an object. */
  datatype Value = Text(length: nat) | Primitive | NotData | Ref(id: ObjectId)

  /** An array or a plain object, with its elements or the values of its own keys; or any other object. */
  datatype Object = Node(isArray: bool, children: seq<Value>) | Exotic

  type Heap = map<ObjectId, Object>

  datatype Budget = Budget(values: nat, characters: nat)

  datatype Excess = Values | Characters

  datatype Measured = Measured(excess: Option<Excess>, characters: nat)

  // --- What is accepted: trees --------------------------------------------------------------------

  datatype Tree = Leaf(value: Value) | Branch(id: ObjectId, children: seq<Tree>)

  /** The forest is what unfolds from the values, branch for object. */
  ghost predicate Shows(heap: Heap, values: seq<Value>, forest: seq<Tree>)
    decreases forest
  {
    |values| == |forest| && forall i :: 0 <= i < |forest| ==> ShowsOne(heap, values[i], forest[i])
  }

  ghost predicate ShowsOne(heap: Heap, value: Value, tree: Tree)
    decreases tree
  {
    match tree
    case Leaf(v) => value == v && (v.Text? || v.Primitive?)
    case Branch(id, children) =>
      value == Ref(id) && id in heap && heap[id].Node? && Shows(heap, heap[id].children, children)
  }

  function Size(tree: Tree): nat {
    1 + if tree.Leaf? then 0 else SizeOfAll(tree.children)
  }

  function SizeOfAll(forest: seq<Tree>): nat {
    if forest == [] then 0 else Size(forest[0]) + SizeOfAll(forest[1..])
  }

  function CharactersIn(tree: Tree): nat {
    match tree
    case Leaf(v) => if v.Text? then v.length else 0
    case Branch(_, children) => CharactersInAll(children)
  }

  function CharactersInAll(forest: seq<Tree>): nat {
    if forest == [] then 0 else CharactersIn(forest[0]) + CharactersInAll(forest[1..])
  }

  /** The objects of a tree, as often as they occur in it. */
  function Objects(tree: Tree): multiset<ObjectId> {
    if tree.Leaf? then multiset{} else multiset{tree.id} + ObjectsOfAll(tree.children)
  }

  function ObjectsOfAll(forest: seq<Tree>): multiset<ObjectId> {
    if forest == [] then multiset{} else Objects(forest[0]) + ObjectsOfAll(forest[1..])
  }

  /** No object is reached twice, nor one of those seen before. */
  ghost predicate Unshared(objects: multiset<ObjectId>, seen: set<ObjectId>) {
    forall id :: id in objects ==> objects[id] == 1 && id !in seen
  }

  /** A structure within the budget: a tree of plain values, no larger and with no more characters. */
  ghost predicate IsWithin(heap: Heap, root: Value, budget: Budget, tree: Tree) {
    && ShowsOne(heap, root, tree) && Unshared(Objects(tree), {})
    && Size(tree) <= budget.values && CharactersIn(tree) <= budget.characters
  }

  lemma {:induction false} SizesAdd(a: seq<Tree>, b: seq<Tree>)
    ensures SizeOfAll(a + b) == SizeOfAll(a) + SizeOfAll(b)
  {
    if a == [] {
      assert a + b == b;
    } else {
      SizesAdd(a[1..], b);
      assert (a + b)[1..] == a[1..] + b;
    }
  }

  lemma {:induction false} CharactersAdd(a: seq<Tree>, b: seq<Tree>)
    ensures CharactersInAll(a + b) == CharactersInAll(a) + CharactersInAll(b)
  {
    if a == [] {
      assert a + b == b;
    } else {
      CharactersAdd(a[1..], b);
      assert (a + b)[1..] == a[1..] + b;
    }
  }

  lemma Regroup(x: multiset<ObjectId>, y: multiset<ObjectId>, z: multiset<ObjectId>)
    ensures x + (y + z) == x + y + z
  {
  }

  lemma {:induction false} ObjectsAdd(a: seq<Tree>, b: seq<Tree>)
    ensures ObjectsOfAll(a + b) == ObjectsOfAll(a) + ObjectsOfAll(b)
  {
    if a == [] {
      assert a + b == b;
    } else {
      ObjectsAdd(a[1..], b);
      assert (a + b)[1..] == a[1..] + b && (a + b)[0] == a[0];
      Regroup(Objects(a[0]), ObjectsOfAll(a[1..]), ObjectsOfAll(b));
    }
  }

  lemma SumsOfAll(a: seq<Tree>, b: seq<Tree>)
    ensures SizeOfAll(a + b) == SizeOfAll(a) + SizeOfAll(b)
    ensures CharactersInAll(a + b) == CharactersInAll(a) + CharactersInAll(b)
    ensures ObjectsOfAll(a + b) == ObjectsOfAll(a) + ObjectsOfAll(b)
  {
    SizesAdd(a, b);
    CharactersAdd(a, b);
    ObjectsAdd(a, b);
  }

  lemma {:induction false} SizeIsAtLeastCount(forest: seq<Tree>)
    ensures SizeOfAll(forest) >= |forest|
  {
    if forest != [] { SizeIsAtLeastCount(forest[1..]); }
  }

  lemma SumsOfOne(tree: Tree)
    ensures SizeOfAll([tree]) == Size(tree) && CharactersInAll([tree]) == CharactersIn(tree)
    ensures ObjectsOfAll([tree]) == Objects(tree)
  {
  }

  lemma ShowsParts(heap: Heap, a: seq<Value>, b: seq<Value>, forest: seq<Tree>)
    requires Shows(heap, a + b, forest)
    ensures Shows(heap, a, forest[..|a|]) && Shows(heap, b, forest[|a|..]) && forest == forest[..|a|] + forest[|a|..]
  {
    forall i | 0 <= i < |b|
      ensures ShowsOne(heap, b[i], forest[|a|..][i])
    {
      assert (a + b)[|a| + i] == b[i];
    }
    forall i | 0 <= i < |a|
      ensures ShowsOne(heap, a[i], forest[..|a|][i])
    {
      assert (a + b)[i] == a[i];
    }
  }

  lemma ShowsBoth(heap: Heap, a: seq<Value>, b: seq<Value>, f: seq<Tree>, g: seq<Tree>)
    requires Shows(heap, a, f) && Shows(heap, b, g)
    ensures Shows(heap, a + b, f + g)
  {
  }

  // --- The walk, step by step ---------------------------------------------------------------------

  /** How many children a node has, counted no further than one past `limit` for an object. */
  function Width(node: Object, limit: nat): nat
    requires node.Node?
  {
    if node.isArray || |node.children| <= limit then |node.children| else limit + 1
  }

  function Walk(heap: Heap, budget: Budget, pending: seq<Value>, seen: set<ObjectId>, values: nat,
                characters: nat): Measured
    requires values <= budget.values + 1
    decreases budget.values + 1 - values
  {
    if pending == [] then Measured(None, characters)
    else if values + 1 > budget.values then Measured(Some(Values), characters)
    else
      var rest := pending[..|pending| - 1];
      match pending[|pending| - 1]
      case NotData => Measured(Some(Values), characters)
      case Primitive => Walk(heap, budget, rest, seen, values + 1, characters)
      case Text(length) =>
        if characters + length > budget.characters then Measured(Some(Characters), characters + length)
        else Walk(heap, budget, rest, seen, values + 1, characters + length)
      case Ref(id) =>
        if id in seen || id !in heap || heap[id].Exotic? then Measured(Some(Values), characters)
        else if values + 1 + |rest| + Width(heap[id], budget.values) > budget.values
        then Measured(Some(Values), characters)
        else Walk(heap, budget, rest + heap[id].children, seen + {id}, values + 1, characters)
  }

  /** Counts the keys of an object, stopping once there are more than `limit`. */
  method WidthOf(node: Object, limit: nat) returns (width: nat)
    requires node.Node?
    ensures width == Width(node, limit)
  {
    if node.isArray { return |node.children|; }
    width := 0;
    while width < |node.children|
      invariant width <= |node.children| && width <= limit
    {
      width := width + 1;
      if width > limit { break; }
    }
  }

  method MeasureStructure(heap: Heap, root: Value, budget: Budget) returns (measured: Measured)
    ensures measured == Walk(heap, budget, [root], {}, 0, 0)
  {
    var values, characters := 0, 0;
    var seen: set<ObjectId> := {};
    var pending := [root];
    while pending != []
      invariant values <= budget.values
      invariant Walk(heap, budget, pending, seen, values, characters) == Walk(heap, budget, [root], {}, 0, 0)
      decreases budget.values - values
    {
      var value := pending[|pending| - 1];
      pending := pending[..|pending| - 1];
      values := values + 1;
      if values > budget.values || value.NotData? {
        return Measured(Some(Values), characters);
      }
      match value
      case Text(length) =>
        characters := characters + length;
        if characters > budget.characters {
          return Measured(Some(Characters), characters);
        }
      case Ref(id) =>
        if id in seen || id !in heap || heap[id].Exotic? {
          return Measured(Some(Values), characters);
        }
        seen := seen + {id};
        var width := WidthOf(heap[id], budget.values);
        if values + |pending| + width > budget.values {
          return Measured(Some(Values), characters);
        }
        pending := pending + heap[id].children;
      case _ =>
    }
    measured := Measured(None, characters);
  }

  // --- The walk accepts exactly the trees within the budget ---------------------------------------

  /** What the walk accepts is a forest nobody has seen, within what was left of the budget. */
  lemma {:induction false} AcceptedIsForest(heap: Heap, budget: Budget, pending: seq<Value>, seen: set<ObjectId>,
                                            values: nat, characters: nat)
      returns (forest: seq<Tree>)
    requires values <= budget.values + 1 && (values <= budget.values || pending != [])
    requires characters <= budget.characters
    requires Walk(heap, budget, pending, seen, values, characters).excess.None?
    ensures Shows(heap, pending, forest) && Unshared(ObjectsOfAll(forest), seen)
    ensures values + SizeOfAll(forest) <= budget.values && characters + CharactersInAll(forest) <= budget.characters
    ensures Walk(heap, budget, pending, seen, values, characters).characters == characters + CharactersInAll(forest)
    decreases budget.values + 1 - values
  {
    if pending == [] {
      return [];
    }
    var rest, value := pending[..|pending| - 1], pending[|pending| - 1];
    assert pending == rest + [value];
    if value.Ref? {
      var children := heap[value.id].children;
      var below := AcceptedIsForest(heap, budget, rest + children, seen + {value.id}, values + 1, characters);
      forest := Gathered(heap, rest, value.id, seen, below);
    } else {
      var more := if value.Text? then value.length else 0;
      var before := AcceptedIsForest(heap, budget, rest, seen, values + 1, characters + more);
      forest := before + [Leaf(value)];
      SumsOfAll(before, [Leaf(value)]);
      SumsOfOne(Leaf(value));
      ShowsBoth(heap, rest, [value], before, [Leaf(value)]);
    }
  }

  /** The forest of an object's children, and of what was pending beside it, put under the object. */
  lemma Gathered(heap: Heap, rest: seq<Value>, id: ObjectId, seen: set<ObjectId>, below: seq<Tree>)
    returns (forest: seq<Tree>)
    requires id in heap && heap[id].Node? && id !in seen
    requires Shows(heap, rest + heap[id].children, below) && Unshared(ObjectsOfAll(below), seen + {id})
    ensures Shows(heap, rest + [Ref(id)], forest) && Unshared(ObjectsOfAll(forest), seen)
    ensures SizeOfAll(forest) == SizeOfAll(below) + 1 && CharactersInAll(forest) == CharactersInAll(below)
  {
    ShowsParts(heap, rest, heap[id].children, below);
    var before, children := below[..|rest|], below[|rest|..];
    var branch := Branch(id, children);
    forest := before + [branch];
    SumsOfAll(before, children);
    SumsOfAll(before, [branch]);
    SumsOfOne(branch);
    ShowsBoth(heap, rest, [Ref(id)], before, [branch]);
    UnsharedJoins(ObjectsOfAll(before), ObjectsOfAll(children), id, seen);
  }

  lemma UnsharedJoins(before: multiset<ObjectId>, below: multiset<ObjectId>, id: ObjectId, seen: set<ObjectId>)
    requires Unshared(before + below, seen + {id}) && id !in seen
    ensures Unshared(before + (multiset{id} + below), seen)
  {
    var all := before + (multiset{id} + below);
    forall x | x in all
      ensures all[x] == 1 && x !in seen
    {
      assert x in before + below || x == id;
      assert id !in before + below;
    }
  }

  lemma WalkTakesLeaf(heap: Heap, budget: Budget, rest: seq<Value>, value: Value, seen: set<ObjectId>, values: nat,
                      characters: nat)
    requires (value.Text? || value.Primitive?) && values + 1 <= budget.values
    requires characters + CharactersIn(Leaf(value)) <= budget.characters
    ensures Walk(heap, budget, rest + [value], seen, values, characters)
         == Walk(heap, budget, rest, seen, values + 1, characters + CharactersIn(Leaf(value)))
  {
    assert (rest + [value])[..|rest|] == rest;
  }

  lemma WalkEntersNode(heap: Heap, budget: Budget, rest: seq<Value>, id: ObjectId, seen: set<ObjectId>, values: nat,
                       characters: nat)
    requires id in heap && heap[id].Node? && id !in seen
    requires values + 1 + |rest| + |heap[id].children| <= budget.values
    ensures Walk(heap, budget, rest + [Ref(id)], seen, values, characters)
         == Walk(heap, budget, rest + heap[id].children, seen + {id}, values + 1, characters)
  {
    assert (rest + [Ref(id)])[..|rest|] == rest;
  }

  lemma UnsharedSplits(objects: multiset<ObjectId>, more: multiset<ObjectId>, seen: set<ObjectId>)
    requires Unshared(objects + more, seen)
    ensures Unshared(objects, seen) && Unshared(more, seen)
    ensures forall id :: id in more ==> id !in objects
  {
    forall id | id in objects
      ensures objects[id] == 1 && id !in seen
    {
      assert id in objects + more;
    }
    forall id | id in more
      ensures more[id] == 1 && id !in seen && id !in objects
    {
      assert id in objects + more;
    }
  }

  /** The forest that is left when its last tree is replaced by the trees under it. */
  lemma Spread(heap: Heap, rest: seq<Value>, seen: set<ObjectId>, before: seq<Tree>, tree: Tree)
    requires tree.Branch? && ShowsOne(heap, Ref(tree.id), tree) && Shows(heap, rest, before)
    requires Unshared(ObjectsOfAll(before) + Objects(tree), seen)
    ensures Shows(heap, rest + heap[tree.id].children, before + tree.children)
    ensures tree.id !in seen && Unshared(ObjectsOfAll(before + tree.children), seen + {tree.id})
    ensures SizeOfAll(before + tree.children) == SizeOfAll(before) + Size(tree) - 1
    ensures CharactersInAll(before + tree.children) == CharactersInAll(before) + CharactersIn(tree)
    ensures |rest| + |tree.children| <= SizeOfAll(before + tree.children)
  {
    SumsOfAll(before, tree.children);
    ShowsBoth(heap, rest, heap[tree.id].children, before, tree.children);
    SizeIsAtLeastCount(before + tree.children);
    var all := ObjectsOfAll(before) + Objects(tree);
    assert all == ObjectsOfAll(before + tree.children) + multiset{tree.id};
    UnsharedSplits(ObjectsOfAll(before + tree.children), multiset{tree.id}, seen);
    assert tree.id in multiset{tree.id};
  }

  /** A forest nobody has seen, within what is left of the budget, is accepted and counted as it is. */
  lemma {:induction false} ForestIsAccepted(heap: Heap, budget: Budget, pending: seq<Value>, seen: set<ObjectId>,
                                            values: nat, characters: nat,
      forest: seq<Tree>)
    requires Shows(heap, pending, forest) && Unshared(ObjectsOfAll(forest), seen)
    requires values + SizeOfAll(forest) <= budget.values && characters + CharactersInAll(forest) <= budget.characters
    ensures Walk(heap, budget, pending, seen, values, characters) ==
            Measured(None, characters + CharactersInAll(forest))
    decreases budget.values + 1 - values
  {
    if pending != [] {
      var rest, value := pending[..|pending| - 1], pending[|pending| - 1];
      var before, tree := LastTree(heap, pending, forest);
      match tree
      case Leaf(_) =>
        UnsharedSplits(ObjectsOfAll(before), Objects(tree), seen);
        WalkTakesLeaf(heap, budget, rest, value, seen, values, characters);
        ForestIsAccepted(heap, budget, rest, seen, values + 1, characters + CharactersIn(tree), before);
      case Branch(id, children) =>
        Spread(heap, rest, seen, before, tree);
        WalkEntersNode(heap, budget, rest, id, seen, values, characters);
        ForestIsAccepted(heap, budget, rest + heap[id].children, seen + {id}, values + 1, characters,
                         before + children);
    }
  }

  lemma LastTree(heap: Heap, pending: seq<Value>, forest: seq<Tree>) returns (before: seq<Tree>, tree: Tree)
    requires pending != [] && Shows(heap, pending, forest)
    ensures var rest, value := pending[..|pending| - 1], pending[|pending| - 1];
            pending == rest + [value] && Shows(heap, rest, before) && ShowsOne(heap, value, tree)
    ensures SizeOfAll(forest) == SizeOfAll(before) + Size(tree)
    ensures CharactersInAll(forest) == CharactersInAll(before) + CharactersIn(tree)
    ensures ObjectsOfAll(forest) == ObjectsOfAll(before) + Objects(tree)
  {
    before, tree := forest[..|forest| - 1], forest[|forest| - 1];
    assert forest == before + [tree];
    SumsOfAll(before, [tree]);
    SumsOfOne(tree);
  }

  /** `exceedsStructureBudget` accepts exactly the trees of plain values within the budget. */
  method ExceedsStructureBudget(heap: Heap, root: Value, budget: Budget) returns (excess: Option<Excess>)
    ensures excess.None? <==> exists tree :: IsWithin(heap, root, budget, tree)
  {
    var measured := MeasureStructure(heap, root, budget);
    excess := measured.excess;
    WalkIsExact(heap, root, budget);
  }

  lemma WalkIsExact(heap: Heap, root: Value, budget: Budget)
    ensures Walk(heap, budget, [root], {}, 0, 0).excess.None? <==> exists tree :: IsWithin(heap, root, budget, tree)
    ensures forall tree :: IsWithin(heap, root, budget, tree) ==>
              Walk(heap, budget, [root], {}, 0, 0).characters == CharactersIn(tree)
  {
    if Walk(heap, budget, [root], {}, 0, 0).excess.None? {
      var forest := AcceptedIsForest(heap, budget, [root], {}, 0, 0);
      assert forest == [forest[0]];
      SumsOfOne(forest[0]);
      assert IsWithin(heap, root, budget, forest[0]);
    }
    forall tree | IsWithin(heap, root, budget, tree)
      ensures Walk(heap, budget, [root], {}, 0, 0) == Measured(None, CharactersIn(tree))
    {
      SumsOfOne(tree);
      ForestIsAccepted(heap, budget, [root], {}, 0, 0, [tree]);
    }
  }

  /**
   * `structureCharacters` is the number of characters of a structure within the budget, and the budget for any
   * other.
   */
  method StructureCharacters(heap: Heap, root: Value, budget: Budget) returns (characters: nat)
    ensures forall tree :: IsWithin(heap, root, budget, tree) ==> characters == CharactersIn(tree)
    ensures !(exists tree :: IsWithin(heap, root, budget, tree)) ==> characters == budget.characters
    ensures characters <= budget.characters
  {
    var measured := MeasureStructure(heap, root, budget);
    WalkIsExact(heap, root, budget);
    characters := if measured.excess.None? then measured.characters else budget.characters;
    if measured.excess.None? {
      ghost var tree :| IsWithin(heap, root, budget, tree);
    }
  }
}
