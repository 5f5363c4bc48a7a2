/** The library mirror over whole runs of syncs, imports and toggles. */
module LibraryRuns {
  import opened Common
  import opened LibraryModel
  import opened LibrarySync
  import opened LibraryLaws
  import opened LibraryTracking

  datatype Op =
    | SeriesSync(inst: Instance, catalog: seq<CatalogSeries>)
    | MovieSync(inst: Instance, movies: seq<CatalogMovie>)
    | EpisodeImport(inst: Instance, series: int, title: string, episode: CatalogEpisode)
    | MovieImport(inst: Instance, movie: CatalogMovie)
    | Toggle(id: Id, v: bool)

  ghost function Step(db: Db, op: Op): Db {
    match op
    case SeriesSync(inst, catalog) => Sync(db, inst, CatalogEntries(catalog))
    case MovieSync(inst, movies) => Sync(db, inst, MovieEntries(movies))
    case EpisodeImport(inst, series, title, e) => ApplyAll(db, inst, WebhookEntries(series, title, e))
    case MovieImport(inst, m) => ApplyAll(db, inst, [MovieEntry(m)])
    case Toggle(id, v) => if id in db.nodes && Forest(db.nodes) then db.(nodes := Toggled(db.nodes, id, v)) else db
  }

  ghost function RunFrom(db: Db, ops: seq<Op>): Db {
    if ops == [] then db else Step(RunFrom(db, ops[..|ops| - 1]), ops[|ops| - 1])
  }

  /** Catalogs come from a fetch, which lists every episode's season. */
  predicate FetchedOp(op: Op) { op.SeriesSync? ==> forall s :: s in op.catalog ==> Fetched(s) }

  ghost predicate Mirror(db: Db) { WellFormed(db) && ParentsVisible(db) && EpisodesInSeasons(db) }

  lemma OneMovie(m: CatalogMovie)
    ensures Orderly([MovieEntry(m)]) && Covered([MovieEntry(m)])
  {
    MoviesOrderly([m]);
    assert [m][..0] == [] && MovieEntries([m]) == [MovieEntry(m)];
  }

  lemma SyncKeeps(db: Db, inst: Instance, es: seq<Entry>)
    requires Mirror(db) && Orderly(es) && Covered(es)
    ensures Mirror(Sync(db, inst, es))
  {
    SyncMirrors(db, inst, es);
    SyncKeepsParents(db, inst, es);
    SyncKeepsSeasons(db, inst, es);
  }

  lemma ImportKeeps(db: Db, inst: Instance, es: seq<Entry>)
    requires Mirror(db) && Orderly(es) && Covered(es)
    ensures Mirror(ApplyAll(db, inst, es))
  {
    ApplyAllReflects(db, inst, es);
    UpsertsKeepParents(db, inst, es);
    UpsertsKeepSeasons(db, inst, es);
  }

  lemma ToggledWellFormed(db: Db, root: Id, v: bool)
    requires WellFormed(db) && Forest(db.nodes)
    ensures WellFormed(db.(nodes := Toggled(db.nodes, root, v)))
  {
    var db' := db.(nodes := Toggled(db.nodes, root, v));
    forall x | x in db'.nodes ensures Shaped(db'.nodes[x]) && Linked(db', db'.nodes[x]) {
      assert Shaped(db.nodes[x]) && Linked(db, db.nodes[x]);
    }
    forall a, b | a in db'.nodes && b in db'.nodes && Same(db'.nodes[a], db'.nodes[b]) ensures a == b {
      assert Same(db.nodes[a], db.nodes[b]);
    }
  }

  lemma ToggleKeeps(db: Db, id: Id, v: bool)
    requires Mirror(db) && Forest(db.nodes)
    ensures Mirror(db.(nodes := Toggled(db.nodes, id, v)))
  {
    ToggledWellFormed(db, id, v);
  }

  lemma StepKeeps(db: Db, op: Op)
    requires Mirror(db) && FetchedOp(op)
    ensures Mirror(Step(db, op))
  {
    match op
    case SeriesSync(inst, catalog) => CatalogOrderly(catalog); SyncKeeps(db, inst, CatalogEntries(catalog));
    case MovieSync(inst, movies) => MoviesOrderly(movies); SyncKeeps(db, inst, MovieEntries(movies));
    case EpisodeImport(inst, series, title, e) => WebhookOrderly(series, title, e);
        ImportKeeps(db, inst, WebhookEntries(series, title, e));
    case MovieImport(inst, m) => OneMovie(m); ImportKeeps(db, inst, [MovieEntry(m)]);
    case Toggle(id, v) => WellFormedIsForest(db); ToggleKeeps(db, id, v);
  }

  /**
   In any run from an empty table, every visible node's parent is visible and every visible episode
   hangs under a season.
   */
  lemma {:induction false} RunKeepsMirror(ops: seq<Op>)
    requires forall op :: op in ops ==> FetchedOp(op)
    ensures Mirror(RunFrom(EMPTY_DB, ops))
  {
    if ops != [] {
      var n := |ops| - 1;
      assert ops[n] in ops && forall op :: op in ops[..n] ==> op in ops;
      RunKeepsMirror(ops[..n]);
      StepKeeps(RunFrom(EMPTY_DB, ops[..n]), ops[n]);
    }
  }

  /** Syncs and imports extend the table: identities and overrides stay. */
  lemma StepExtends(db: Db, op: Op)
    requires WellFormed(db) && !op.Toggle?
    ensures WellFormed(Step(db, op)) && Extends(db, Step(db, op))
  {
    match op
    case SeriesSync(inst, catalog) => CatalogOrderly(catalog); SyncMirrors(db, inst, CatalogEntries(catalog));
    case MovieSync(inst, movies) => MoviesOrderly(movies); SyncMirrors(db, inst, MovieEntries(movies));
    case EpisodeImport(inst, series, title, e) =>
      WebhookOrderly(series, title, e);
      ApplyAllReflects(db, inst, WebhookEntries(series, title, e));
      ApplyAllExtends(db, inst, WebhookEntries(series, title, e));
    case MovieImport(inst, m) =>
      OneMovie(m);
      ApplyAllReflects(db, inst, [MovieEntry(m)]);
      ApplyAllExtends(db, inst, [MovieEntry(m)]);
  }

  lemma {:induction false} RunExtends(db: Db, ops: seq<Op>)
    requires WellFormed(db) && forall op :: op in ops ==> !op.Toggle?
    ensures WellFormed(RunFrom(db, ops)) && Extends(db, RunFrom(db, ops))
  {
    if ops != [] {
      var n := |ops| - 1;
      assert ops[n] in ops && forall op :: op in ops[..n] ==> op in ops;
      RunExtends(db, ops[..n]);
      StepExtends(RunFrom(db, ops[..n]), ops[n]);
      ExtendsTrans(db, RunFrom(db, ops[..n]), RunFrom(db, ops));
    }
  }

  /**
   After a toggle and any syncs and imports, everything that was in the toggled subtree, and
   every node created since that hangs under the toggled node, resolves to the toggled value.
   */
  lemma ToggleLasts(db: Db, root: Id, v: bool, ops: seq<Op>, id: Id, default: bool)
    requires WellFormed(db) && Forest(db.nodes) && root in db.nodes && forall op :: op in ops ==> !op.Toggle?
    requires var after := RunFrom(db.(nodes := Toggled(db.nodes, root, v)), ops);
             id in after.nodes && Forest(after.nodes)
                 && (id in Subtree(db.nodes, root) || (id >= db.nextId && Under(after.nodes, id, root)))
    ensures Resolved(RunFrom(db.(nodes := Toggled(db.nodes, root, v)), ops).nodes, id, default) == v
  {
    var toggled := db.(nodes := Toggled(db.nodes, root, v));
    ToggleInherits(db, root, v);
    ToggledWellFormed(db, root, v);
    RunExtends(toggled, ops);
    ExtendsInherits(toggled, RunFrom(toggled, ops), root, v, Subtree(db.nodes, root), db.nextId);
    NewNodesFollow(RunFrom(toggled, ops), root, v, Subtree(db.nodes, root), db.nextId, id, default);
  }

  // ----- looking a node up by its source id -----

  /** The rows `get_node_by_source_id` selects for an episode. */
  ghost function EpisodeRows(db: Db, inst: Instance, e: int): set<Id> {
    set id | id in db.nodes && db.nodes[id].instance == inst && db.nodes[id].ref.EpisodeRef?
        && db.nodes[id].episodeId == Some(e)
  }

  ghost function MovieRows(db: Db, inst: Instance, m: int): set<Id> {
    set id | id in db.nodes && db.nodes[id].instance == inst && db.nodes[id].ref.MovieRef?
        && db.nodes[id].movieId == Some(m)
  }

  /** The lookup selects the one row with that key, or none: it can never find two. */
  lemma SourceLookupUnique(db: Db, inst: Instance, x: int)
    requires WellFormed(db)
    ensures EpisodeRows(db, inst, x) == match Find(db, inst, EpisodeRef(x)) { case Some(id) => {id} case None => {} }
    ensures MovieRows(db, inst, x) == match Find(db, inst, MovieRef(x)) { case Some(id) => {id} case None => {} }
  {
    forall id ensures id in EpisodeRows(db, inst, x) <==> Named(db, inst, EpisodeRef(x), id) {
      if id in db.nodes { assert Shaped(db.nodes[id]); }
    }
    forall id ensures id in MovieRows(db, inst, x) <==> Named(db, inst, MovieRef(x), id) {
      if id in db.nodes { assert Shaped(db.nodes[id]); }
    }
    forall a, b, r | Named(db, inst, r, a) && Named(db, inst, r, b) ensures a
        == b { assert Same(db.nodes[a], db.nodes[b]); }
  }
}
