/**
 Walking a subtree with an explicit stack: `set_tracked` cascades over it, the bulk
 default-audio request collects its leaves. Both visit exactly the nodes under the root.

 The walk sees the rows of one instance only. Parents live in the same instance, so that
 view has the same subtrees, and resolves tracked values the same way, as the whole table.
 Kinds rank the forest: a child is always below its parent, so the walk ends.
 */
module LibraryWalk {
  import opened Common
  import opened LibraryModel
  import opened LibrarySync
  import opened LibraryTracking

  type Children = map<Id, seq<Id>>

  function Kids(children: Children, p: Id): seq<Id> { if p in children then children[p] else [] }

  ghost predicate ChildOf(nodes: Nodes, c: Id, p: Id) { c in nodes && nodes[c].parent == Some(p) }

  /** The dict of children by parent lists every child once. */
  ghost predicate ChildMap(nodes: Nodes, children: Children) {
    forall p :: Distinct(Kids(children, p)) && forall c :: c in Kids(children, p) <==> ChildOf(nodes, c, p)
  }

  /** Listed so far: the rows `ids` have been entered. */
  ghost predicate PartMap(nodes: Nodes, ids: seq<Id>, children: Children) {
    forall p :: Distinct(Kids(children, p)) && forall c :: c in Kids(children, p) <==> c in ids && ChildOf(nodes, c, p)
  }

  lemma PartNext(nodes: Nodes, ids: seq<Id>, children: Children, c: Id)
    requires PartMap(nodes, ids, children) && c in nodes && c !in ids
    ensures PartMap(nodes, ids + [c], if nodes[c].parent.Some?
            then children[nodes[c].parent.value := Kids(children, nodes[c].parent.value) + [c]] else children)
  {
    var after := if nodes[c].parent.Some? then children[nodes[c].parent.value := Kids(children, nodes[c].parent.value)
        + [c]] else children;
    forall p: Id ensures Distinct(Kids(after, p)) && forall x ::
        x in Kids(after, p) <==> x in ids + [c] && ChildOf(nodes, x, p) {
      assert Distinct(Kids(children, p));
      if nodes[c].parent == Some(p) { DistinctAppend(Kids(children, p), c); }
    }
  }

  ghost predicate Rising(ids: seq<Id>) { forall i, j :: 0 <= i < j < |ids| ==> ids[i] < ids[j] }

  /** Every list of children is in id order. */
  ghost predicate KidsRise(children: Children) { forall p :: Rising(Kids(children, p)) }

  lemma RiseNext(nodes: Nodes, ids: seq<Id>, children: Children, c: Id, p: Id)
    requires PartMap(nodes, ids, children) && KidsRise(children) && forall x :: x in ids ==> x < c
    ensures KidsRise(children[p := Kids(children, p) + [c]])
  {
    var kids := Kids(children, p);
    var after := children[p := kids + [c]];
    assert Rising(kids) && forall x :: x in kids ==> x in ids;
    forall i | 0 <= i < |kids| ensures kids[i] < c { assert kids[i] in kids; }
    forall q: Id ensures Rising(Kids(after, q)) { assert Rising(Kids(children, q)); }
  }

  lemma RisingPrefix(ids: seq<Id>, n: nat)
    requires Rising(ids) && n < |ids|
    ensures Rising(ids[..n]) && forall x :: x in ids[..n] ==> x < ids[n]
  {
  }

  /** The list of an instance's rows, in which a sync or walk looks for children. */
  method ChildrenByParent(nodes: Nodes, ids: seq<Id>) returns (children: Children)
    requires Distinct(ids) && forall id :: id in ids ==> id in nodes
    ensures PartMap(nodes, ids, children) && (Rising(ids) ==> KidsRise(children))
  {
    children := map[];
    for i := 0 to |ids|
      invariant PartMap(nodes, ids[..i], children)
      invariant Rising(ids) ==> KidsRise(children)
    {
      var c := ids[i];
      assert c in ids && c !in ids[..i];
      if Rising(ids) && nodes[c].parent.Some? {
        RisingPrefix(ids, i);
        RiseNext(nodes, ids[..i], children, c, nodes[c].parent.value);
      }
      PartNext(nodes, ids[..i], children, c);
      assert ids[..i + 1] == ids[..i] + [c];
      if nodes[c].parent.Some? {
        children := children[nodes[c].parent.value := Kids(children, nodes[c].parent.value) + [c]];
      }
    }
    assert ids[..|ids|] == ids;
  }

  // ----- the walk -----

  /** Seen: popped nodes `visited` and the stack together are the children of the root and of what was popped. */
  ghost predicate Walking(nodes: Nodes, root: Id, visited: set<Id>, stack: seq<Id>) {
    && Distinct(stack) && root in nodes && root !in visited && root !in stack
    && (forall d :: d in stack ==> d !in visited)
    && (forall d :: d in visited || d in stack ==> d in nodes && Level(nodes[d].ref) < Level(nodes[root].ref))
    && (forall d :: d in visited || d in stack <==> BelowSeen(nodes, root, visited, d))
  }

  predicate BelowSeen(nodes: Nodes, root: Id, visited: set<Id>, d: Id) {
    d in nodes && nodes[d].parent.Some? && (nodes[d].parent.value == root || nodes[d].parent.value in visited)
  }

  lemma WalkStarts(nodes: Nodes, root: Id, kids: seq<Id>)
    requires Forest(nodes) && root in nodes && Distinct(kids) && forall c :: c in kids <==> ChildOf(nodes, c, root)
    ensures Walking(nodes, root, {}, kids)
  {
  }

  lemma WalkContinues(nodes: Nodes, root: Id, visited: set<Id>, stack: seq<Id>, kids: seq<Id>)
    requires Forest(nodes) && Walking(nodes, root, visited, stack) && stack != []
    requires var d := stack[|stack| - 1]; Distinct(kids) && forall c :: c in kids <==> ChildOf(nodes, c, d)
    ensures Walking(nodes, root, visited + {stack[|stack| - 1]}, stack[..|stack| - 1] + kids)
  {
    var d, rest := stack[|stack| - 1], stack[..|stack| - 1];
    var visited', stack' := visited + {d}, rest + kids;
    assert stack == rest + [d] && d in stack;
    KidsAreNew(nodes, root, visited, stack, kids);
    forall x ensures x in visited' || x in stack' <==> BelowSeen(nodes, root, visited', x) {
      assert x in visited' || x in stack' <==> x in visited || x in stack || x in kids;
      assert x in kids <==> ChildOf(nodes, x, d);
    }
  }

  /** The children of the popped node have not been seen before. */
  lemma KidsAreNew(nodes: Nodes, root: Id, visited: set<Id>, stack: seq<Id>, kids: seq<Id>)
    requires Forest(nodes) && Walking(nodes, root, visited, stack) && stack != []
    requires var d := stack[|stack| - 1]; Distinct(kids) && forall c :: c in kids <==> ChildOf(nodes, c, d)
    ensures forall c :: c in kids ==>
            c !in visited && c !in stack && c != root && c in nodes && Level(nodes[c].ref) < Level(nodes[root].ref)
    ensures Distinct(stack[..|stack| - 1] + kids) && stack[|stack| - 1] !in stack[..|stack| - 1]
  {
    var d := stack[|stack| - 1];
    assert d in stack;
    forall c | c in kids ensures c !in visited && c !in stack && c != root
        && Level(nodes[c].ref) < Level(nodes[root].ref) {
      assert ChildOf(nodes, c, d);
    }
    assert forall x :: x in stack[..|stack| - 1] ==> x in stack;
    DistinctConcat(stack[..|stack| - 1], kids);
  }

  /** When the stack is empty, exactly the nodes strictly under the root have been visited. */
  lemma {:induction false} WalkCovers(nodes: Nodes, root: Id, visited: set<Id>, id: Id)
    requires Forest(nodes) && Walking(nodes, root, visited, []) && id in nodes
    ensures id in visited <==> id != root && Under(nodes, id, root)
    decreases 2 - Level(nodes[id].ref)
  {
    if nodes[id].parent.Some? && nodes[id].parent.value in nodes {
      var p := nodes[id].parent.value;
      WalkCovers(nodes, root, visited, p);
      assert ChildOf(nodes, id, p);
    }
  }

  lemma WalkDone(nodes: Nodes, root: Id, visited: set<Id>)
    requires Forest(nodes) && Walking(nodes, root, visited, [])
    ensures visited + {root} == Subtree(nodes, root)
  {
    forall id ensures id in visited + {root} <==> id in Subtree(nodes, root) {
      if id in nodes { WalkCovers(nodes, root, visited, id); }
    }
  }

  // ----- one instance at a time -----

  /** The rows `list_nodes` returns for one instance. */
  function View(nodes: Nodes, inst: Instance): Nodes { map id | id in nodes && nodes[id].instance == inst :: nodes[id] }

  lemma ViewForest(nodes: Nodes, inst: Instance)
    requires Forest(nodes)
    ensures Forest(View(nodes, inst))
  {
  }

  lemma ViewChildren(nodes: Nodes, inst: Instance, ids: seq<Id>, children: Children)
    requires PartMap(nodes, ids, children) && forall id :: id in ids <==> id in nodes && nodes[id].instance == inst
    ensures ChildMap(View(nodes, inst), children)
  {
    forall p: Id ensures Distinct(Kids(children, p))
        && forall c :: c in Kids(children, p) <==> ChildOf(View(nodes, inst), c, p) {
      assert Distinct(Kids(children, p));
      forall c ensures c in Kids(children, p) <==> ChildOf(View(nodes, inst), c, p) {
        assert c in Kids(children, p) <==> c in ids && ChildOf(nodes, c, p);
      }
    }
  }

  /** Parents are in the same instance, so looking at one instance loses nothing of a subtree. */
  lemma {:induction false} ViewUnder(db: Db, inst: Instance, id: Id, root: Id)
    requires WellFormed(db) && Forest(db.nodes) && Forest(View(db.nodes, inst)) && root in View(db.nodes, inst)
            && id in db.nodes
    ensures Under(db.nodes, id, root) <==> id in View(db.nodes, inst) && Under(View(db.nodes, inst), id, root)
    decreases 2 - Level(db.nodes[id].ref)
  {
    if id != root && db.nodes[id].parent.Some? {
      assert Linked(db, db.nodes[id]);
      ViewUnder(db, inst, db.nodes[id].parent.value, root);
    }
  }

  lemma ViewSubtree(db: Db, inst: Instance, root: Id)
    requires WellFormed(db) && Forest(db.nodes) && Forest(View(db.nodes, inst)) && root in View(db.nodes, inst)
    ensures Subtree(View(db.nodes, inst), root) == Subtree(db.nodes, root)
  {
    forall id ensures id in Subtree(View(db.nodes, inst), root) <==> id in Subtree(db.nodes, root) {
      if id in db.nodes { ViewUnder(db, inst, id, root); }
    }
  }

  /** The rows of one instance resolve as they do in the whole table. */
  lemma {:induction false} ViewResolves(db: Db, inst: Instance, id: Id, default: bool)
    requires WellFormed(db) && Forest(db.nodes) && Forest(View(db.nodes, inst)) && id in View(db.nodes, inst)
    ensures Resolved(View(db.nodes, inst), id, default) == Resolved(db.nodes, id, default)
    decreases 2 - Level(db.nodes[id].ref)
  {
    if db.nodes[id].parent.Some? {
      assert Linked(db, db.nodes[id]);
      ViewResolves(db, inst, db.nodes[id].parent.value, default);
    }
  }

  function Overridden(nodes: Nodes, ids: set<Id>, v: bool): Nodes {
    map id | id in nodes :: if id in ids then nodes[id].(tracked := Some(v)) else nodes[id]
  }

  lemma OverriddenNext(nodes: Nodes, ids: set<Id>, v: bool, d: Id)
    requires d in nodes
    ensures Overridden(nodes, ids + {d}, v) == Overridden(nodes, ids,
            v)[d := Overridden(nodes, ids, v)[d].(tracked := Some(v))]
  {
  }

  lemma OverriddenSubtree(nodes: Nodes, root: Id, v: bool)
    requires Forest(nodes)
    ensures Overridden(nodes, Subtree(nodes, root), v) == Toggled(nodes, root, v)
  {
  }

  // ----- collecting leaves -----

  predicate Leaf(n: Node) { n.ref.EpisodeRef? || n.ref.MovieRef? }

  ghost function LeavesIn(nodes: Nodes, ids: set<Id>): set<Id> {
    set id | id in ids && id in nodes && (nodes[id].ref.EpisodeRef? || nodes[id].ref.MovieRef?)
  }

  lemma LeavesNext(nodes: Nodes, ids: set<Id>, d: Id)
    requires d in nodes
    ensures LeavesIn(nodes, ids + {d}) == if Leaf(nodes[d]) then LeavesIn(nodes, ids) + {d} else LeavesIn(nodes, ids)
  {
  }

  lemma LeafKids(nodes: Nodes, children: Children, d: Id)
    requires Forest(nodes) && d in nodes && Leaf(nodes[d]) && ChildMap(nodes, children)
    ensures Kids(children, d) == []
  {
    HasMember(Kids(children, d));
    assert forall c :: !ChildOf(nodes, c, d);
  }

  lemma RootLeaf(nodes: Nodes, root: Id)
    requires Forest(nodes) && root in nodes && Leaf(nodes[root])
    ensures LeavesIn(nodes, Subtree(nodes, root)) == {root}
  {
    forall id | id in Subtree(nodes, root) ensures id == root { LeafAlone(nodes, id, root); }
    assert Under(nodes, root, root);
  }

  /** A dict of leaves by id, as the ids in insertion order. */
  ghost predicate Gathers(nodes: Nodes, known: seq<Id>, ids: set<Id>, leaves: seq<Id>) {
    && Distinct(leaves) && known <= leaves
    && forall id :: id in leaves <==> id in known || id in LeavesIn(nodes, ids)
  }

  lemma GathersNext(nodes: Nodes, known: seq<Id>, ids: set<Id>, leaves: seq<Id>, d: Id)
    requires Gathers(nodes, known, ids, leaves) && d in nodes && Leaf(nodes[d])
    ensures Gathers(nodes, known, ids + {d}, if d in leaves then leaves else leaves + [d])
  {
    LeavesNext(nodes, ids, d);
    if d !in leaves { DistinctAppend(leaves, d); }
  }

  // ----- the order in which leaves are met -----

  /** The leaves under `d`, depth first: the last child's before those of the children listed before it. */
  ghost function DepthFirst(nodes: Nodes, children: Children, d: Id): seq<Id>
    requires Forest(nodes) && ChildMap(nodes, children) && d in nodes
    decreases Level(nodes[d].ref), 1, 0
  {
    if Leaf(nodes[d]) then [d] else DepthFirstKids(nodes, children, d, |Kids(children, d)|)
  }

  /** The leaves under the first `n` children of `p`. */
  ghost function DepthFirstKids(nodes: Nodes, children: Children, p: Id, n: nat): seq<Id>
    requires Forest(nodes) && ChildMap(nodes, children) && p in nodes && n <= |Kids(children, p)|
    decreases Level(nodes[p].ref), 0, n
  {
    if n == 0 then []
    else
      assert Kids(children, p)[n - 1] in Kids(children, p) && ChildOf(nodes, Kids(children, p)[n - 1], p);
      DepthFirst(nodes, children, Kids(children, p)[n - 1]) + DepthFirstKids(nodes, children, p, n - 1)
  }

  /** The leaves still to come from a stack, its top first. */
  ghost function FromStack(nodes: Nodes, children: Children, stack: seq<Id>): seq<Id>
    requires Forest(nodes) && ChildMap(nodes, children) && forall d :: d in stack ==> d in nodes
  {
    if stack == [] then []
    else
      var n := |stack| - 1;
      assert stack[n] in stack;
      DepthFirst(nodes, children, stack[n]) + FromStack(nodes, children, stack[..n])
  }

  lemma {:induction false} KidsFromStack(nodes: Nodes, children: Children, p: Id, n: nat)
    requires Forest(nodes) && ChildMap(nodes, children) && p in nodes && n <= |Kids(children, p)|
    ensures forall d :: d in Kids(children, p)[..n] ==> d in nodes
    ensures FromStack(nodes, children, Kids(children, p)[..n]) == DepthFirstKids(nodes, children, p, n)
  {
    forall d | d in Kids(children, p)[..n] ensures d in nodes { assert ChildOf(nodes, d, p); }
    if n > 0 {
      KidsFromStack(nodes, children, p, n - 1);
      assert Kids(children, p)[..n][..n - 1] == Kids(children, p)[..n - 1];
    }
  }

  lemma {:induction false} StackJoins(nodes: Nodes, children: Children, rest: seq<Id>, kids: seq<Id>)
    requires Forest(nodes) && ChildMap(nodes, children)
    requires (forall d :: d in rest ==> d in nodes) && forall d :: d in kids ==> d in nodes
    ensures FromStack(nodes, children, rest + kids) ==
            FromStack(nodes, children, kids) + FromStack(nodes, children, rest)
  {
    if kids == [] {
      assert rest + kids == rest;
    } else {
      var n := |kids| - 1;
      assert kids[n] in kids && (rest + kids)[..|rest + kids| - 1] == rest + kids[..n];
      StackJoins(nodes, children, rest, kids[..n]);
    }
  }

  /** Popping a season or series and pushing its children leaves what is to come as it was. */
  lemma StackExpands(nodes: Nodes, children: Children, stack: seq<Id>)
    requires Forest(nodes) && ChildMap(nodes, children) && stack != [] && forall d :: d in stack ==> d in nodes
    requires stack[|stack| - 1] in stack && !Leaf(nodes[stack[|stack| - 1]])
    ensures var d, rest := stack[|stack| - 1], stack[..|stack| - 1];
            && (forall c :: c in rest + Kids(children, d) ==> c in nodes)
            && FromStack(nodes, children, rest + Kids(children, d)) == FromStack(nodes, children, stack)
  {
    var d, rest := stack[|stack| - 1], stack[..|stack| - 1];
    var kids := Kids(children, d);
    KidsFromStack(nodes, children, d, |kids|);
    assert kids[..|kids|] == kids;
    StackJoins(nodes, children, rest, kids);
  }

  /** Keys put into a dict one by one: a known key keeps its place. */
  ghost function PutAll(known: seq<Id>, ids: seq<Id>): seq<Id>
    decreases ids
  {
    if ids == [] then known else PutAll(if ids[0] in known then known else known + [ids[0]], ids[1..])
  }

  /** The leaves of one root's subtree, put depth first into the dict of those the bulk request already has. */
  method LeavesUnder(nodes: Nodes, children: Children, root: Id, known: seq<Id>) returns (leaves: seq<Id>)
    requires Forest(nodes) && root in nodes && ChildMap(nodes, children) && Distinct(known)
    ensures Gathers(nodes, known, Subtree(nodes, root), leaves)
    ensures leaves == PutAll(known, DepthFirst(nodes, children, root))
  {
    leaves := known;
    if Leaf(nodes[root]) {
      RootLeaf(nodes, root);
      GathersNext(nodes, known, {}, leaves, root);
      LeavesNext(nodes, {}, root);
      return if root in leaves then leaves else leaves + [root];
    }
    var stack := Kids(children, root);
    ghost var visited: set<Id> := {};
    assert Distinct(Kids(children, root));
    WalkStarts(nodes, root, stack);
    KidsFromStack(nodes, children, root, |stack|);
    assert stack[..|stack|] == stack;
    while stack != []
      invariant Walking(nodes, root, visited, stack) && visited <= nodes.Keys
      invariant Gathers(nodes, known, visited, leaves)
      invariant forall d :: d in stack ==> d in nodes
      invariant PutAll(leaves, FromStack(nodes, children, stack)) == PutAll(known, DepthFirst(nodes, children, root))
      decreases nodes.Keys - visited
    {
      var d := stack[|stack| - 1];
      assert d in stack;
      assert Distinct(Kids(children, d));
      WalkContinues(nodes, root, visited, stack, Kids(children, d));
      if !Leaf(nodes[d]) { StackExpands(nodes, children, stack); }
      stack := stack[..|stack| - 1];
      if Leaf(nodes[d]) {
        GathersNext(nodes, known, visited, leaves, d);
        if d !in leaves { leaves := leaves + [d]; }
        LeafKids(nodes, children, d);
        assert stack + Kids(children, d) == stack;
      } else {
        LeavesNext(nodes, visited, d);
        stack := stack + Kids(children, d);
      }
      visited := visited + {d};
    }
    WalkDone(nodes, root, visited);
    LeavesNext(nodes, visited, root);
  }
}
