/**
 The bulk default-audio request: references to nodes of any kind become the distinct media
 files of all the leaves below them.
 */
module LibraryBulk {
  import opened Common
  import opened LibraryModel
  import opened LibrarySync
  import opened LibraryTracking
  import opened LibraryWalk
  import opened LibraryStore

  datatype Reference = Reference(node: Id, kind: Kind)

  datatype BulkError = NoNode(id: Id) | KindMismatch(id: Id)

  predicate Resolvable(nodes: Nodes, r: Reference) {
    r.node in nodes && match nodes[r.node].ref
                       case SeriesRef(_) => r.kind.Series?
                       case SeasonRef(_, _) => r.kind.Season?
                       case EpisodeRef(_) => r.kind.Episode?
                       case MovieRef(_) => r.kind.Movie?
  }

  /** All references are checked before any is expanded; the first bad one decides the error. */
  method ResolveRoots(nodes: Nodes, references: seq<Reference>) returns (r: Result<seq<Id>, BulkError>)
    ensures r.Ok? <==> forall x :: x in references ==> Resolvable(nodes, x)
    ensures r.Ok? ==> |r.value| == |references| && forall i ::
            0 <= i < |references| ==> r.value[i] == references[i].node
    ensures r.Err? ==> exists i :: 0 <= i < |references| && !Resolvable(nodes, references[i])
                         && (forall j :: 0 <= j < i ==> Resolvable(nodes, references[j]))
                         && r.error == if references[i].node in nodes then KindMismatch(references[i].node)
                              else NoNode(references[i].node)
  {
    var roots := [];
    for i := 0 to |references|
      invariant |roots| == i && forall j :: 0 <= j < i ==>
              Resolvable(nodes, references[j]) && roots[j] == references[j].node
    {
      var x := references[i];
      assert x in references;
      if x.node !in nodes { return Err(NoNode(x.node)); }
      if KindOf(nodes[x.node].ref) != x.kind { return Err(KindMismatch(x.node)); }
      roots := roots + [x.node];
    }
    r := Ok(roots);
  }

  /** Everything a list of roots stands for. */
  ghost function LeavesOf(nodes: Nodes, roots: seq<Id>): set<Id>
    requires Forest(nodes)
  {
    set id | id in nodes && (nodes[id].ref.EpisodeRef? || nodes[id].ref.MovieRef?)
        && exists r :: r in roots && Under(nodes, id, r)
  }

  lemma LeavesOfNext(nodes: Nodes, roots: seq<Id>, r: Id)
    requires Forest(nodes)
    ensures LeavesOf(nodes, roots + [r]) == LeavesOf(nodes, roots) + LeavesIn(nodes, Subtree(nodes, r))
  {
    forall id | id in nodes && Leaf(nodes[id])
      ensures (exists x :: x in roots + [r] && Under(nodes, id, x)) <==>
              (exists x :: x in roots && Under(nodes, id, x)) || Under(nodes, id, r)
    {
      if x :| x in roots && Under(nodes, id, x) { assert x in roots + [r]; }
      if Under(nodes, id, r) { assert r in roots + [r]; }
    }
  }

  /** One root expanded over its own instance. */
  method LeavesOfRoot(lib: Library, root: Id, known: seq<Id>) returns (leaves: seq<Id>)
    requires WellFormed(lib.Db()) && Forest(lib.nodes) && root in lib.nodes && Distinct(known)
    ensures Gathers(lib.nodes, known, Subtree(lib.nodes, root), leaves)
  {
    var inst := lib.nodes[root].instance;
    var ids := lib.ListNodes(inst);
    RisingDistinct(ids);
    var children := ChildrenByParent(lib.nodes, ids);
    ViewForest(lib.nodes, inst);
    ViewChildren(lib.nodes, inst, ids, children);
    leaves := LeavesUnder(View(lib.nodes, inst), children, root, known);
    ViewSubtree(lib.Db(), inst, root);
  }

  /** The leaves of all roots, each once; those of an earlier root come first. */
  method CollectLeaves(lib: Library, roots: seq<Id>) returns (leaves: seq<Id>, ghost marks: seq<nat>)
    requires WellFormed(lib.Db()) && Forest(lib.nodes) && forall r :: r in roots ==> r in lib.nodes
    ensures Distinct(leaves) && forall id :: id in leaves <==> id in LeavesOf(lib.nodes, roots)
    ensures |marks| == |roots| + 1
    ensures forall n :: 0 <= n <= |roots| ==>
              marks[n] <= |leaves| && forall id :: id in leaves[..marks[n]] <==> id in LeavesOf(lib.nodes, roots[..n])
  {
    leaves, marks := [], [0];
    for i := 0 to |roots|
      invariant Distinct(leaves) && |marks| == i + 1
      invariant forall id :: id in leaves <==> id in LeavesOf(lib.nodes, roots[..i])
      invariant forall n :: 0 <= n <= i ==>
                  marks[n] <= |leaves| && forall id ::
                      id in leaves[..marks[n]] <==> id in LeavesOf(lib.nodes, roots[..n])
    {
      assert roots[i] in roots && roots[..i + 1] == roots[..i] + [roots[i]];
      var more := LeavesOfRoot(lib, roots[i], leaves);
      LeavesOfNext(lib.nodes, roots[..i], roots[i]);
      assert forall n :: 0 <= n <= i ==> more[..marks[n]] == leaves[..marks[n]];
      leaves, marks := more, marks + [|more|];
      assert leaves[..|leaves|] == leaves;
    }
    assert roots[..|roots|] == roots;
  }

  // ----- leaves to files -----

  /** Tracked media paths by instance and source id. */
  type Media = map<(Instance, int), string>

  function SourceId(n: Node): Option<int> { if n.episodeId.Some? then n.episodeId else n.movieId }

  ghost predicate FileOf(nodes: Nodes, media: Media, leaf: Id, file: string) {
    && leaf in nodes
    && var n := nodes[leaf];
       if n.episodeId.Some?
       then (n.instance, n.episodeId.value) in media && media[(n.instance, n.episodeId.value)] == file
       else n.movieId.Some? && (n.instance, n.movieId.value) in media && media[(n.instance, n.movieId.value)] == file
  }

  /** Whenever a leaf gives a file, an earlier leaf has given each file listed before it. */
  ghost predicate FirstSeen(nodes: Nodes, media: Media, leaves: seq<Id>, files: seq<string>) {
    forall i, j, n :: 0 <= i < j < |files| && 0 <= n < |leaves| && FileOf(nodes, media, leaves[n], files[j]) ==>
      Given(nodes, media, leaves[..n], files[i])
  }

  ghost predicate Given(nodes: Nodes, media: Media, leaves: seq<Id>, file: string) {
    exists leaf :: leaf in leaves && FileOf(nodes, media, leaf, file)
  }

  lemma FirstSeenNext(nodes: Nodes, media: Media, leaves: seq<Id>, before: seq<string>, leaf: Id, files: seq<string>)
    requires FirstSeen(nodes, media, leaves, before) && forall f :: f in before <==> Given(nodes, media, leaves, f)
    requires files == before || exists f :: FileOf(nodes, media, leaf, f) && f !in before && files == before + [f]
    ensures FirstSeen(nodes, media, leaves + [leaf], files)
  {
    var all := leaves + [leaf];
    forall i, j, n | 0 <= i < j < |files| && 0 <= n < |all| && FileOf(nodes, media, all[n], files[j])
      ensures Given(nodes, media, all[..n], files[i])
    {
      assert files[i] in before;
      if n < |leaves| {
        assert all[..n] == leaves[..n] && leaves[n] in leaves;
        assert Given(nodes, media, leaves, files[j]);
        assert j < |before| && FileOf(nodes, media, leaves[n], before[j]);
      } else {
        assert all[..n] == leaves;
      }
    }
  }

  /** Each file of a leaf once, in the order first seen; leaves without a tracked file contribute nothing. */
  method LeafFiles(nodes: Nodes, leaves: seq<Id>, media: Media) returns (files: seq<string>)
    requires forall id :: id in leaves ==> id in nodes
    ensures Distinct(files) && forall f ::
            f in files <==> exists leaf :: leaf in leaves && FileOf(nodes, media, leaf, f)
    ensures FirstSeen(nodes, media, leaves, files)
  {
    files := [];
    for n := 0 to |leaves|
      invariant Distinct(files)
      invariant forall f :: f in files <==> exists leaf :: leaf in leaves[..n] && FileOf(nodes, media, leaf, f)
      invariant FirstSeen(nodes, media, leaves[..n], files)
    {
      var leaf := leaves[n];
      assert leaf in leaves && leaves[..n + 1] == leaves[..n] + [leaf];
      var source := SourceId(nodes[leaf]);
      ghost var before := files;
      if source.Some? && (nodes[leaf].instance, source.value) in media {
        var f := media[(nodes[leaf].instance, source.value)];
        if f !in files {
          DistinctAppend(files, f);
          files := files + [f];
        }
      }
      forall f ensures f in files <==> f in before || FileOf(nodes, media, leaf, f) {}
      FirstSeenNext(nodes, media, leaves[..n], before, leaf, files);
    }
    assert leaves[..|leaves|] == leaves;
  }
}
