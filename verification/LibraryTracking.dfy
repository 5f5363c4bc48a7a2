/**
 The tracked flag: a node's effective value is its nearest override on the way up, else the
 global default. Toggling a node cascades over its whole subtree and nothing else, and nodes
 that later syncs create below it follow it.
 */
module LibraryTracking {
  import opened Common
  import opened LibraryModel
  import opened LibrarySync

  type Nodes = map<Id, Node>

  function Level(r: NodeRef): nat {
    match r
    case SeriesRef(_) => 2
    case SeasonRef(_, _) => 1
    case _ => 0
  }

  /** Parents are of a higher kind, so every walk up or down ends. */
  ghost predicate Forest(nodes: Nodes) {
    forall id :: id in nodes && nodes[id].parent.Some? && nodes[id].parent.value in nodes ==>
      Level(nodes[nodes[id].parent.value].ref) > Level(nodes[id].ref)
  }

  lemma WellFormedIsForest(db: Db)
    requires WellFormed(db)
    ensures Forest(db.nodes)
  {
    forall id | id in db.nodes && db.nodes[id].parent.Some? && db.nodes[id].parent.value in db.nodes
      ensures Level(db.nodes[db.nodes[id].parent.value].ref) > Level(db.nodes[id].ref)
    {
      assert Shaped(db.nodes[id]) && Linked(db, db.nodes[id]);
    }
  }

  /** `resolve_tracked`. */
  ghost function Resolved(nodes: Nodes, id: Id, default: bool): bool
    requires id in nodes && Forest(nodes)
    decreases 2 - Level(nodes[id].ref)
  {
    var n := nodes[id];
    if n.tracked.Some? then n.tracked.value
    else if n.parent.None? || n.parent.value !in nodes then default
    else Resolved(nodes, n.parent.value, default)
  }

  method ResolveTracked(id: Id, nodesById: Nodes, default: bool) returns (r: bool)
    requires id in nodesById && Forest(nodesById)
    ensures r == Resolved(nodesById, id, default)
  {
    var current := Some(id);
    while current.Some?
      invariant current.Some? ==> current.value in nodesById
      invariant Resolved(nodesById, id, default) == if current.Some? then Resolved(nodesById, current.value, default)
              else default
      decreases if current.Some? then 3 - Level(nodesById[current.value].ref) else 0
    {
      var n := nodesById[current.value];
      if n.tracked.Some? { return n.tracked.value; }
      if n.parent.None? { break; }
      current := if n.parent.value in nodesById then n.parent else None;
    }
    r := default;
  }

  /** `id` lies in the subtree of `root`, root included, hidden nodes included. */
  ghost predicate Under(nodes: Nodes, id: Id, root: Id)
    requires id in nodes && Forest(nodes)
    decreases 2 - Level(nodes[id].ref)
  {
    || id == root
    || (nodes[id].parent.Some? && nodes[id].parent.value in nodes && Under(nodes, nodes[id].parent.value, root))
  }

  /** `a` is `id` or above it, carries an override, and nothing from `id` up to it does. */
  ghost predicate Nearest(nodes: Nodes, id: Id, a: Id)
    requires id in nodes && Forest(nodes)
  {
    && a in nodes && Under(nodes, id, a) && nodes[a].tracked.Some?
    && forall b :: b in nodes && b != a && Under(nodes, id, b) && Under(nodes, b, a) ==> nodes[b].tracked.None?
  }

  /** The effective value is the nearest override on the way up, and the default exactly when there is none. */
  lemma {:induction false} NearestDecides(nodes: Nodes, id: Id, default: bool)
    requires id in nodes && Forest(nodes)
    ensures forall a :: Nearest(nodes, id, a) ==> nodes[a].tracked == Some(Resolved(nodes, id, default))
    ensures (exists a :: Nearest(nodes, id, a)) || Resolved(nodes, id, default) == default
    ensures (exists a :: Nearest(nodes, id, a)) <==>
            exists a :: a in nodes && Under(nodes, id, a) && nodes[a].tracked.Some?
    decreases 2 - Level(nodes[id].ref)
  {
    var n := nodes[id];
    if n.tracked.Some? {
      assert Under(nodes, id, id);
      forall b | b in nodes && Under(nodes, id, b) && Under(nodes, b, id) && b != id ensures false {
        UnderIsLower(nodes, id, b);
        UnderIsLower(nodes, b, id);
      }
      assert Nearest(nodes, id, id);
    } else if n.parent.Some? && n.parent.value in nodes {
      var p := n.parent.value;
      NearestDecides(nodes, p, default);
      forall a ensures a in nodes && Nearest(nodes, p, a) <==> Nearest(nodes, id, a) { NearestAbove(nodes, id, p, a); }
      forall a | a in nodes && Under(nodes, id, a) && nodes[a].tracked.Some? ensures Under(nodes, p, a) {}
    }
  }

  lemma NearestAbove(nodes: Nodes, id: Id, p: Id, a: Id)
    requires id in nodes && Forest(nodes) && nodes[id].tracked.None? && nodes[id].parent == Some(p) && p in nodes
    ensures Nearest(nodes, p, a) <==> Nearest(nodes, id, a)
  {
    forall b | b in nodes ensures Under(nodes, id, b) <==> b == id || Under(nodes, p, b) {}
  }

  ghost function Subtree(nodes: Nodes, root: Id): set<Id>
    requires Forest(nodes)
  {
    set id | id in nodes && Under(nodes, id, root)
  }

  ghost function Toggled(nodes: Nodes, root: Id, v: bool): Nodes
    requires Forest(nodes)
  {
    map id | id in nodes :: if Under(nodes, id, root) then nodes[id].(tracked := Some(v)) else nodes[id]
  }

  lemma ToggledForest(nodes: Nodes, root: Id, v: bool)
    requires Forest(nodes)
    ensures Forest(Toggled(nodes, root, v))
  {
  }

  /** After a toggle everything in the subtree resolves to the new value, everything outside as before. */
  lemma {:induction false} ToggleResolves(nodes: Nodes, root: Id, v: bool, id: Id, default: bool)
    requires Forest(nodes) && id in nodes
    ensures Forest(Toggled(nodes, root, v))
    ensures Resolved(Toggled(nodes, root, v), id, default)
            == if Under(nodes, id, root) then v else Resolved(nodes, id, default)
    decreases 2 - Level(nodes[id].ref)
  {
    ToggledForest(nodes, root, v);
    if !Under(nodes, id, root) && nodes[id].parent.Some? && nodes[id].parent.value in nodes {
      ToggleResolves(nodes, root, v, nodes[id].parent.value, default);
    }
  }

  /** A season, episode or movie whose subtree is asked for: nothing lies under a leaf but itself. */
  lemma {:induction false} LeafAlone(nodes: Nodes, id: Id, root: Id)
    requires Forest(nodes) && id in nodes && root in nodes && Level(nodes[root].ref) == 0 && Under(nodes, id, root)
    ensures id == root
    decreases 2 - Level(nodes[id].ref)
  {
    if id != root { LeafAlone(nodes, nodes[id].parent.value, root); }
  }

  lemma {:induction false} UnderIsLower(nodes: Nodes, id: Id, root: Id)
    requires Forest(nodes) && id in nodes && root in nodes && Under(nodes, id, root)
    ensures id == root || Level(nodes[id].ref) < Level(nodes[root].ref)
    decreases 2 - Level(nodes[id].ref)
  {
    if id != root { UnderIsLower(nodes, nodes[id].parent.value, root); }
  }

  // ----- nodes created after a toggle -----

  /**
   What a toggle of `root` to `v` leaves behind, kept by every later upsert: the rows of its
   subtree (`tree`) are set to `v`, rows with ids from `born` on are new and unset, and the
   seasons that hang under `root` are in `tree` or new.
   */
  ghost predicate Inherits(db: Db, root: Id, v: bool, tree: set<Id>, born: Id) {
    && root in tree && born <= db.nextId
    && (forall id :: id in tree ==> id in db.nodes && id < born && db.nodes[id].tracked == Some(v))
    && (forall id :: id in db.nodes && id >= born ==> db.nodes[id].tracked.None?)
    && (forall id :: id in db.nodes && id < born && db.nodes[id].ref.SeasonRef? && db.nodes[id].parent == Some(root)
         ==> id in tree)
  }

  lemma ToggleInherits(db: Db, root: Id, v: bool)
    requires WellFormed(db) && root in db.nodes
    ensures Forest(db.nodes)
    ensures Inherits(db.(nodes := Toggled(db.nodes, root, v)), root, v, Subtree(db.nodes, root), db.nextId)
  {
    WellFormedIsForest(db);
  }

  /** A season never changes series, so no upsert moves an old season under `root`. */
  lemma SeasonStays(db: Db, db': Db, id: Id)
    requires WellFormed(db) && WellFormed(db') && Extends(db, db')
    requires id in db.nodes && db.nodes[id].ref.SeasonRef?
    ensures db'.nodes[id].parent == db.nodes[id].parent
  {
    assert Shaped(db.nodes[id]) && Linked(db, db.nodes[id]) && Shaped(db'.nodes[id]) && Linked(db', db'.nodes[id]);
    var p, p' := db.nodes[id].parent.value, db'.nodes[id].parent.value;
    assert Same(db'.nodes[p], db'.nodes[p']);
  }

  lemma ExtendsInherits(db: Db, db': Db, root: Id, v: bool, tree: set<Id>, born: Id)
    requires WellFormed(db) && WellFormed(db') && Extends(db, db') && Inherits(db, root, v, tree, born)
    ensures Inherits(db', root, v, tree, born)
  {
    forall id | id in db'.nodes && id < born && db'.nodes[id].ref.SeasonRef?
        && db'.nodes[id].parent == Some(root) ensures id in tree {
      SeasonStays(db, db', id);
    }
  }

  /** Rows of the toggled subtree, and rows created since that hang under the toggled node, resolve to its value. */
  lemma {:induction false} NewNodesFollow(db: Db, root: Id, v: bool, tree: set<Id>, born: Id, id: Id, default: bool)
    requires WellFormed(db) && Forest(db.nodes) && Inherits(db, root, v, tree, born) && id in db.nodes
    requires id in tree || (id >= born && Under(db.nodes, id, root))
    ensures Resolved(db.nodes, id, default) == v
    decreases 2 - Level(db.nodes[id].ref)
  {
    if id !in tree {
      var p := db.nodes[id].parent.value;
      if p !in tree && p < born {
        assert Shaped(db.nodes[p]) && Linked(db, db.nodes[p]) && Linked(db, db.nodes[id]);
        OldSeasonUnder(db, root, p);
      }
      NewNodesFollow(db, root, v, tree, born, p, default);
    }
  }

  /** A node strictly under `root` that has a child is a season right below it. */
  lemma OldSeasonUnder(db: Db, root: Id, p: Id)
    requires WellFormed(db) && Forest(db.nodes) && p in db.nodes && root in db.nodes && p != root
            && Under(db.nodes, p, root)
    requires Level(db.nodes[p].ref) > 0
    ensures db.nodes[p].ref.SeasonRef? && db.nodes[p].parent == Some(root)
  {
    UnderIsLower(db.nodes, p, root);
    var q := db.nodes[p].parent.value;
    assert Linked(db, db.nodes[p]) && Shaped(db.nodes[q]);
  }
}
