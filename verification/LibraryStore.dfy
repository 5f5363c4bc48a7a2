/**
 The node table and the operations that change it in place.

 A sync or a webhook goes over its report one entry at a time, with the dict of known rows
 and the set of reported ones beside it. Each loop is proved to have applied exactly the
 entries it has gone over, in their order, so the whole operation equals the function that
 specifies it.
 */
module LibraryStore {
  import opened Common
  import opened LibraryModel
  import opened LibrarySync
  import opened LibraryLaws
  import opened LibraryCatalog
  import opened LibraryTracking
  import opened LibraryWalk

  datatype NotFound = NoSuchNode(id: Id)

  predicate Has(existing: map<NodeRef, Id>, r: NodeRef, id: Id) { r in existing && existing[r] == id }

  /**
   The dict from node key to row id that a sync builds once and keeps up to date. It is
   indexed by what a key stands for; keys are injective, so that is indexing by their text.
   */
  ghost predicate Indexes(existing: map<NodeRef, Id>, db: Db, inst: Instance) {
    && (forall r :: r in existing ==> Named(db, inst, r, existing[r]))
    && (forall id :: id in db.nodes && db.nodes[id].instance == inst ==> Has(existing, db.nodes[id].ref, id))
  }

  lemma IndexesFinds(existing: map<NodeRef, Id>, db: Db, inst: Instance, r: NodeRef)
    requires Unique(db) && Indexes(existing, db, inst)
    ensures Find(db, inst, r) == if r in existing then Some(existing[r]) else None
  {
    if r in existing {
      assert Named(db, inst, r, existing[r]);
      assert Same(db.nodes[Find(db, inst, r).value], db.nodes[existing[r]]);
    }
  }

  lemma IndexesNext(existing: map<NodeRef, Id>, db: Db, db': Db, inst: Instance, r: NodeRef, at: Id)
    requires Indexes(existing, db, inst) && Extends(db, db') && OnlyTouches(db, db', inst, r) && Named(db', inst, r, at)
            && Unique(db')
    ensures Indexes(existing[r := at], db', inst)
  {
    forall x | x in existing && x != r ensures Named(db', inst, x,
        existing[x]) { assert Named(db, inst, x, existing[x]); }
    forall id | id in db'.nodes && db'.nodes[id].instance == inst ensures Has(existing[r := at], db'.nodes[id].ref,
        id) {
      if id !in db.nodes { assert Named(db', inst, r, id); }
      if db'.nodes[id].ref == r { assert Same(db'.nodes[id], db'.nodes[at]); }
    }
  }

  lemma FindNamed(db: Db, inst: Instance, r: NodeRef, id: Id)
    requires Unique(db) && Named(db, inst, r, id)
    ensures Find(db, inst, r) == Some(id)
  {
    assert Same(db.nodes[Find(db, inst, r).value], db.nodes[id]);
  }

  lemma ApplySnoc(db: Db, inst: Instance, es: seq<Entry>, e: Entry)
    ensures ApplyAll(db, inst, es + [e]) == Apply(ApplyAll(db, inst, es), inst, e)
            && Refs(es + [e]) == Refs(es) + {e.ref}
  {
    assert (es + [e])[..|es|] == es;
    RefsConcat(es, [e]);
  }

  /** What an upsert leaves behind, given the row the dict found. */
  lemma UpsertLeaves(db: Db, inst: Instance, e: Entry, parent: Option<Id>, existing: map<NodeRef, Id>, at: Id)
    requires WellFormed(db) && Indexes(existing, db, inst) && Applicable(db, inst, e) && ParentOf(db, inst, e) == parent
    requires at == if e.ref in existing then existing[e.ref] else db.nextId
    ensures var db' := Upserted(db, inst, e, parent, if e.ref in existing then Some(existing[e.ref]) else None);
            && db' == Apply(db, inst, e) && WellFormed(db') && Extends(db, db')
            && Named(db', inst, e.ref, at) && Indexes(existing[e.ref := at], db', inst)
  {
    IndexesFinds(existing, db, inst, e.ref);
    ApplyWellFormed(db, inst, e);
    ApplyExtends(db, inst, e);
    assert Named(Apply(db, inst, e), inst, e.ref, at);
    IndexesNext(existing, db, Apply(db, inst, e), inst, e.ref, at);
  }

  lemma SeasonsSnoc(done: seq<Entry>, series: int, seasons: seq<int>, i: nat)
    requires i < |seasons|
    ensures done + SeasonEntries(series, seasons[..i + 1]) == (done + SeasonEntries(series, seasons[..i]))
            + [SeasonEntry(series, seasons[i])]
  {
    assert seasons[..i + 1][..i] == seasons[..i];
  }

  lemma EpisodesSnoc(done: seq<Entry>, s: CatalogSeries, i: nat)
    requires i < |s.episodes|
    ensures done + EpisodeEntries(s.id, s.seasons, s.episodes[..i + 1])
         == (done + EpisodeEntries(s.id, s.seasons, s.episodes[..i])) + [EpisodeEntry(s.id, s.seasons, s.episodes[i])]
  {
    assert s.episodes[..i + 1][..i] == s.episodes[..i];
  }

  lemma CatalogSnoc(catalog: seq<CatalogSeries>, i: nat)
    requires i < |catalog|
    ensures CatalogEntries(catalog[..i + 1]) == CatalogEntries(catalog[..i]) + SeriesEntries(catalog[i])
  {
    assert catalog[..i + 1][..i] == catalog[..i];
  }

  lemma SeriesParts(done: seq<Entry>, s: CatalogSeries)
    ensures done + [SeriesEntry(s.id, s.title)] + SeasonEntries(s.id, s.seasons)
            + EpisodeEntries(s.id, s.seasons, s.episodes) == done + SeriesEntries(s)
  {
  }

  /** The dict of this series' season rows, by season number. */
  ghost predicate SeasonRows(existing: map<NodeRef, Id>, series: int, rows: map<int, Id>) {
    forall n :: n in rows ==> Has(existing, SeasonRef(series, n), rows[n])
  }

  lemma RowsNext(existing: map<NodeRef, Id>, series: int, row: Id, rows: map<int, Id>, n: int, at: Id)
    requires Has(existing, SeriesRef(series), row) && SeasonRows(existing, series, rows)
    ensures var after := existing[SeasonRef(series, n) := at];
            Has(after, SeriesRef(series), row) && SeasonRows(after, series, rows[n := at])
                && rows[n := at].Keys == rows.Keys + {n}
  {
  }

  lemma RowsOther(existing: map<NodeRef, Id>, series: int, row: Id, rows: map<int, Id>, r: NodeRef, at: Id)
    requires Has(existing, SeriesRef(series), row) && SeasonRows(existing, series, rows) && r.EpisodeRef?
    ensures Has(existing[r := at], SeriesRef(series), row) && SeasonRows(existing[r := at], series, rows)
  {
  }

  function Numbers(s: seq<int>): set<int> { set n | n in s }

  lemma NumbersNext(s: seq<int>, i: nat)
    requires i < |s|
    ensures Numbers(s[..i + 1]) == Numbers(s[..i]) + {s[i]}
  {
    assert s[..i + 1] == s[..i] + [s[i]];
  }

  /** The state of a sync that has applied `done` to the table `was` and noted what it has seen. */
  ghost predicate Syncing(was: Db, now: Db, inst: Instance, done: seq<Entry>, existing: map<NodeRef, Id>,
                          seen: set<NodeRef>)
  {
    now == ApplyAll(was, inst, done) && WellFormed(now) && Indexes(existing, now, inst) && seen == Refs(done)
  }

  class Library {
    var nodes: map<Id, Node>
    var nextId: Id

    ghost function Db(): Db reads this { LibraryModel.Db(nodes, nextId) }

    constructor ()
      ensures Db() == EMPTY_DB
    {
      nodes, nextId := map[], 0;
    }

    /** `list_nodes`: the instance's rows by id, hidden ones included. */
    method ListNodes(inst: Instance) returns (ids: seq<Id>)
      requires RowsOk(Db())
      ensures forall id :: id in ids <==> id in nodes && nodes[id].instance == inst
      ensures Rising(ids)
    {
      ids := [];
      for id := 0 to nextId
        invariant forall x :: x in ids <==> x in nodes && nodes[x].instance == inst && x < id
        invariant Rising(ids)
      {
        assert forall j :: 0 <= j < |ids| ==> ids[j] in ids;
        if id in nodes && nodes[id].instance == inst { ids := ids + [id]; }
      }
    }

    method ExistingByKey(inst: Instance) returns (existing: map<NodeRef, Id>)
      requires WellFormed(Db())
      ensures Indexes(existing, Db(), inst)
    {
      var ids := ListNodes(inst);
      existing := map[];
      for i := 0 to |ids|
        invariant forall r :: r in existing ==> Named(Db(), inst, r, existing[r])
        invariant forall j :: 0 <= j < i ==> Has(existing, nodes[ids[j]].ref, ids[j])
      {
        assert ids[i] in ids;
        assert forall j :: 0 <= j < i ==> ids[j] in ids && !Same(nodes[ids[j]], nodes[ids[i]]);
        existing := existing[nodes[ids[i]].ref := ids[i]];
      }
    }

    /** `_upsert_node`. */
    method UpsertNode(existing: map<NodeRef, Id>, inst: Instance, e: Entry, parent: Option<Id>)
      returns (existing': map<NodeRef, Id>, at: Id)
      requires WellFormed(Db()) && Indexes(existing, Db(), inst) && Applicable(Db(), inst, e)
      requires parent == ParentOf(Db(), inst, e)
      modifies this
      ensures Db() == Apply(old(Db()), inst, e) && WellFormed(Db()) && Extends(old(Db()), Db())
      ensures existing' == existing[e.ref := at] && Indexes(existing', Db(), inst) && Named(Db(), inst, e.ref, at)
    {
      ghost var was := Db();
      at := if e.ref in existing then existing[e.ref] else nextId;
      UpsertLeaves(was, inst, e, parent, existing, at);
      if e.ref !in existing {
        nodes := nodes[at := Created(inst, e, parent)];
        nextId := nextId + 1;
        assert Db() == Upserted(was, inst, e, parent, None);
      } else {
        nodes := nodes[at := Written(nodes[at], e, parent)];
        assert Db() == Upserted(was, inst, e, parent, Some(at));
      }
      existing' := existing[e.ref := at];
    }

    /** `_soft_hide_missing`. */
    method SoftHideMissing(inst: Instance, seen: set<NodeRef>)
      requires WellFormed(Db())
      modifies this
      ensures Db() == Hide(old(Db()), inst, seen)
    {
      var ids := ListNodes(inst);
      for i := 0 to |ids|
        invariant nextId == old(nextId) && nodes.Keys == old(nodes).Keys
        invariant forall id :: id in nodes ==>
                    nodes[id] == if id in ids[..i] then Hidden(old(nodes)[id], inst, seen) else old(nodes)[id]
      {
        var id := ids[i];
        assert id in ids && id !in ids[..i];
        if nodes[id].ref !in seen && !nodes[id].hidden { nodes := nodes[id := nodes[id].(hidden := true)]; }
        assert ids[..i + 1] == ids[..i] + [id];
      }
      assert ids[..|ids|] == ids;
    }

    /** One upsert inside a sync. */
    method SyncOne(ghost was: Db, inst: Instance, ghost done: seq<Entry>, existing: map<NodeRef, Id>,
                   seen: set<NodeRef>, e: Entry, parent: Option<Id>)
      returns (existing': map<NodeRef, Id>, seen': set<NodeRef>, at: Id)
      requires Syncing(was, Db(), inst, done, existing, seen) && EntryOk(e)
      requires if e.parent.Some? then parent.Some? && Has(existing, e.parent.value, parent.value) else parent.None?
      modifies this
      ensures Syncing(was, Db(), inst, done + [e], existing', seen') && existing' == existing[e.ref := at]
              && Named(Db(), inst, e.ref, at)
    {
      if e.parent.Some? { FindNamed(Db(), inst, e.parent.value, parent.value); }
      ApplySnoc(was, inst, done, e);
      seen' := seen + {e.ref};
      existing', at := UpsertNode(existing, inst, e, parent);
    }

    /** Season number `i` of the series. */
    method SyncSeason(ghost was: Db, inst: Instance, ghost done: seq<Entry>, existing: map<NodeRef, Id>,
                      seen: set<NodeRef>,
                      s: CatalogSeries, series: Id, rows: map<int, Id>, i: nat)
      returns (existing': map<NodeRef, Id>, seen': set<NodeRef>, rows': map<int, Id>)
      requires i < |s.seasons| && rows.Keys == Numbers(s.seasons[..i])
      requires Syncing(was, Db(), inst, done + SeasonEntries(s.id, s.seasons[..i]), existing, seen)
      requires Has(existing, SeriesRef(s.id), series) && SeasonRows(existing, s.id, rows)
      modifies this
      ensures Syncing(was, Db(), inst, done + SeasonEntries(s.id, s.seasons[..i + 1]), existing', seen')
      ensures Has(existing', SeriesRef(s.id), series) && SeasonRows(existing', s.id, rows')
              && rows'.Keys == Numbers(s.seasons[..i + 1])
    {
      var at;
      existing', seen', at := SyncOne(was, inst, done + SeasonEntries(s.id, s.seasons[..i]), existing, seen,
          SeasonEntry(s.id, s.seasons[i]), Some(series));
      RowsNext(existing, s.id, series, rows, s.seasons[i], at);
      SeasonsSnoc(done, s.id, s.seasons, i);
      NumbersNext(s.seasons, i);
      rows' := rows[s.seasons[i] := at];
    }

    method SyncSeasons(ghost was: Db, inst: Instance, ghost done: seq<Entry>, existing: map<NodeRef, Id>,
                       seen: set<NodeRef>, s: CatalogSeries, series: Id)
      returns (existing': map<NodeRef, Id>, seen': set<NodeRef>, rows: map<int, Id>)
      requires Syncing(was, Db(), inst, done, existing, seen) && Has(existing, SeriesRef(s.id), series)
      modifies this
      ensures Syncing(was, Db(), inst, done + SeasonEntries(s.id, s.seasons), existing', seen')
      ensures Has(existing', SeriesRef(s.id), series) && SeasonRows(existing', s.id, rows)
              && rows.Keys == Numbers(s.seasons)
    {
      existing', seen', rows := existing, seen, map[];
      assert done + SeasonEntries(s.id, s.seasons[..0]) == done;
      for i := 0 to |s.seasons|
        invariant Syncing(was, Db(), inst, done + SeasonEntries(s.id, s.seasons[..i]), existing', seen')
        invariant Has(existing', SeriesRef(s.id), series) && SeasonRows(existing', s.id, rows)
                && rows.Keys == Numbers(s.seasons[..i])
      {
        existing', seen', rows := SyncSeason(was, inst, done, existing', seen', s, series, rows, i);
      }
      assert s.seasons[..|s.seasons|] == s.seasons;
    }

    /** Episode number `i` of the series. */
    method SyncEpisode(ghost was: Db, inst: Instance, ghost done: seq<Entry>, existing: map<NodeRef, Id>,
                       seen: set<NodeRef>,
                       s: CatalogSeries, series: Id, rows: map<int, Id>, i: nat)
      returns (existing': map<NodeRef, Id>, seen': set<NodeRef>)
      requires i < |s.episodes| && rows.Keys == Numbers(s.seasons)
      requires Syncing(was, Db(), inst, done + EpisodeEntries(s.id, s.seasons, s.episodes[..i]), existing, seen)
      requires Has(existing, SeriesRef(s.id), series) && SeasonRows(existing, s.id, rows)
      modifies this
      ensures Syncing(was, Db(), inst, done + EpisodeEntries(s.id, s.seasons, s.episodes[..i + 1]), existing', seen')
      ensures Has(existing', SeriesRef(s.id), series) && SeasonRows(existing', s.id, rows)
    {
      var e := s.episodes[i];
      var parent := if e.season in rows then rows[e.season] else series;
      assert e.season in rows.Keys <==> e.season in s.seasons;
      var at;
      existing', seen', at := SyncOne(was, inst, done + EpisodeEntries(s.id, s.seasons, s.episodes[..i]), existing,
          seen,
                                      EpisodeEntry(s.id, s.seasons, e), Some(parent));
      RowsOther(existing, s.id, series, rows, EpisodeRef(e.id), at);
      EpisodesSnoc(done, s, i);
    }

    method SyncEpisodes(ghost was: Db, inst: Instance, ghost done: seq<Entry>, existing: map<NodeRef, Id>,
                        seen: set<NodeRef>, s: CatalogSeries, series: Id, rows: map<int, Id>)
      returns (existing': map<NodeRef, Id>, seen': set<NodeRef>)
      requires Syncing(was, Db(), inst, done, existing, seen)
      requires Has(existing, SeriesRef(s.id), series) && SeasonRows(existing, s.id, rows)
              && rows.Keys == Numbers(s.seasons)
      modifies this
      ensures Syncing(was, Db(), inst, done + EpisodeEntries(s.id, s.seasons, s.episodes), existing', seen')
    {
      existing', seen' := existing, seen;
      assert done + EpisodeEntries(s.id, s.seasons, s.episodes[..0]) == done;
      for i := 0 to |s.episodes|
        invariant Syncing(was, Db(), inst, done + EpisodeEntries(s.id, s.seasons, s.episodes[..i]), existing', seen')
        invariant Has(existing', SeriesRef(s.id), series) && SeasonRows(existing', s.id, rows)
      {
        existing', seen' := SyncEpisode(was, inst, done, existing', seen', s, series, rows, i);
      }
      assert s.episodes[..|s.episodes|] == s.episodes;
    }

    method SyncSeries(ghost was: Db, inst: Instance, ghost done: seq<Entry>, existing: map<NodeRef, Id>,
                      seen: set<NodeRef>, s: CatalogSeries)
      returns (existing': map<NodeRef, Id>, seen': set<NodeRef>)
      requires Syncing(was, Db(), inst, done, existing, seen) && WellFormed(was) && Orderly(done)
      modifies this
      ensures Syncing(was, Db(), inst, done + SeriesEntries(s), existing', seen') && Orderly(done + SeriesEntries(s))
      ensures ShowsCatalog(Db(), inst, [s])
    {
      var series, rows;
      existing', seen', series := SyncOne(was, inst, done, existing, seen, SeriesEntry(s.id, s.title), None);
      existing', seen', rows := SyncSeasons(was, inst, done + [SeriesEntry(s.id, s.title)], existing', seen', s,
          series);
      existing', seen' := SyncEpisodes(was, inst, done + [SeriesEntry(s.id, s.title)] + SeasonEntries(s.id, s.seasons),
          existing', seen', s, series, rows);
      SeriesParts(done, s);
      SeriesShows(was, inst, done, s);
    }

    /** `_sync_sonarr_catalog`. */
    method SyncSonarr(inst: Instance, catalog: seq<CatalogSeries>)
      requires WellFormed(Db())
      modifies this
      ensures Db() == Sync(old(Db()), inst, CatalogEntries(catalog))
      ensures ShowsCatalog(Db(), inst, catalog) && OnlyShows(Db(), inst, catalog)
    {
      ghost var was := Db();
      SyncShowsCatalog(was, inst, catalog);
      var existing := ExistingByKey(inst);
      var seen := {};
      for i := 0 to |catalog|
        invariant Syncing(was, Db(), inst, CatalogEntries(catalog[..i]), existing, seen)
      {
        CatalogSnoc(catalog, i);
        CatalogOrderly(catalog[..i]);
        existing, seen := SyncSeries(was, inst, CatalogEntries(catalog[..i]), existing, seen, catalog[i]);
      }
      assert catalog[..|catalog|] == catalog;
      SoftHideMissing(inst, seen);
    }

    /** `_sync_radarr_catalog`. */
    method SyncRadarr(inst: Instance, movies: seq<CatalogMovie>)
      requires WellFormed(Db())
      modifies this
      ensures Db() == Sync(old(Db()), inst, MovieEntries(movies))
      ensures ShowsMovies(Db(), inst, movies) && OnlyShowsMovies(Db(), inst, movies)
    {
      ghost var was := Db();
      SyncShowsMovies(was, inst, movies);
      var existing := ExistingByKey(inst);
      var seen := {};
      for i := 0 to |movies|
        invariant Syncing(was, Db(), inst, MovieEntries(movies[..i]), existing, seen)
      {
        assert movies[..i + 1][..i] == movies[..i];
        var at;
        existing, seen, at := SyncOne(was, inst, MovieEntries(movies[..i]), existing, seen, MovieEntry(movies[i]),
            None);
      }
      assert movies[..|movies|] == movies;
      SoftHideMissing(inst, seen);
    }

    /** `upsert_series_episode_node`. */
    method UpsertSeriesEpisodeNode(inst: Instance, series: int, title: string, e: CatalogEpisode) returns (at: Id)
      requires WellFormed(Db())
      modifies this
      ensures Db() == ApplyAll(old(Db()), inst, WebhookEntries(series, title, e))
              && Named(Db(), inst, EpisodeRef(e.id), at)
      ensures ShowsCatalog(Db(), inst, [CatalogSeries(series, title, [e.season], [e])])
      ensures EpisodeRow(Db(), inst, nodes[at], CatalogSeries(series, title, [e.season], [e]), e)
      ensures forall id :: Named(Db(), inst, SeasonRef(series, e.season), id) ==>
                SeasonRow(Db(), inst, nodes[id], series, e.season)
      ensures forall id :: Named(Db(), inst, SeriesRef(series), id) ==> SeriesRow(nodes[id], series, title)
    {
      ghost var was := Db();
      ImportShows(was, inst, series, title, e);
      var existing := ExistingByKey(inst);
      var seen, seriesNode, seasonNode := {}, 0, 0;
      existing, seen, seriesNode := SyncOne(was, inst, [], existing, seen, SeriesEntry(series, title), None);
      existing, seen, seasonNode := SyncOne(was, inst, [] + [SeriesEntry(series, title)], existing, seen,
          SeasonEntry(series, e.season), Some(seriesNode));
      existing, seen, at := SyncOne(was, inst, [] + [SeriesEntry(series, title)] + [SeasonEntry(series, e.season)],
          existing, seen,
                                    EpisodeEntry(series, [e.season], e), Some(seasonNode));
      WebhookIsThree(series, title, e);
    }

    /** `upsert_movie_node`. */
    method UpsertMovieNode(inst: Instance, m: CatalogMovie) returns (at: Id)
      requires WellFormed(Db())
      modifies this
      ensures Db() == ApplyAll(old(Db()), inst, [MovieEntry(m)]) && Named(Db(), inst, MovieRef(m.id), at)
      ensures MovieRow(nodes[at], m)
    {
      ghost var was := Db();
      MovieImportShows(was, inst, m);
      var existing := ExistingByKey(inst);
      var seen := {};
      existing, seen, at := SyncOne(was, inst, [], existing, seen, MovieEntry(m), None);
      assert [] + [MovieEntry(m)] == [MovieEntry(m)];
    }

    /** `set_tracked`: the override, cascaded over the subtree of a series or season. */
    method SetTracked(id: Id, tracked: bool) returns (r: Result<Node, NotFound>)
      requires WellFormed(Db())
      modifies this
      ensures r.Err? <==> id !in old(nodes)
      ensures r.Err? ==> Db() == old(Db())
      ensures r.Ok? ==>
              Forest(old(nodes)) && nodes == Toggled(old(nodes), id, tracked) && nextId == old(nextId)
              && id in nodes && r.value == nodes[id]
    {
      if id !in nodes { return Err(NoSuchNode(id)); }
      ghost var was := Db();
      WellFormedIsForest(was);
      var inst := nodes[id].instance;
      var ids := ListNodes(inst);
      RisingDistinct(ids);
      var children := ChildrenByParent(nodes, ids);
      nodes := nodes[id := nodes[id].(tracked := Some(tracked))];
      if nodes[id].ref.SeriesRef? || nodes[id].ref.SeasonRef? {
        ViewForest(was.nodes, inst);
        ViewChildren(was.nodes, inst, ids, children);
        OverriddenOne(was.nodes, id, tracked);
        Cascade(was.nodes, View(was.nodes, inst), id, tracked, children);
        ViewSubtree(was, inst, id);
        OverriddenSubtree(was.nodes, id, tracked);
      } else {
        LeafToggle(was.nodes, id, tracked);
      }
      r := Ok(nodes[id]);
    }

    /** The stack walk over the rows of one instance. */
    method Cascade(ghost was: Nodes, ghost view: Nodes, id: Id, tracked: bool, children: Children)
      requires Forest(view) && id in view && view.Keys <= was.Keys && ChildMap(view, children)
      requires nodes == Overridden(was, {id}, tracked)
      modifies this`nodes
      ensures nodes == Overridden(was, Subtree(view, id), tracked)
    {
      ghost var visited: set<Id> := {};
      var stack := Kids(children, id);
      assert Distinct(Kids(children, id)) && {id} == visited + {id};
      WalkStarts(view, id, stack);
      while stack != []
        invariant Walking(view, id, visited, stack) && visited <= view.Keys
        invariant nodes == Overridden(was, visited + {id}, tracked)
        decreases view.Keys - visited
      {
        var d := stack[|stack| - 1];
        assert d in stack;
        assert Distinct(Kids(children, d));
        WalkContinues(view, id, visited, stack, Kids(children, d));
        OverriddenNext(was, visited + {id}, tracked, d);
        stack := stack[..|stack| - 1] + Kids(children, d);
        nodes := nodes[d := nodes[d].(tracked := Some(tracked))];
        assert (visited + {id}) + {d} == (visited + {d}) + {id};
        visited := visited + {d};
      }
      WalkDone(view, id, visited);
    }
  }

  lemma OverriddenOne(nodes: Nodes, id: Id, v: bool)
    requires id in nodes
    ensures Overridden(nodes, {id}, v) == nodes[id := nodes[id].(tracked := Some(v))]
  {
  }

  lemma RisingDistinct(ids: seq<Id>)
    requires Rising(ids)
    ensures Distinct(ids)
  {
  }

  /** Toggling an episode or a movie touches that row alone. */
  lemma LeafToggle(nodes: Nodes, id: Id, v: bool)
    requires Forest(nodes) && id in nodes && Leaf(nodes[id])
    ensures Toggled(nodes, id, v) == nodes[id := nodes[id].(tracked := Some(v))]
  {
    forall x | x in nodes && Under(nodes, x, id) ensures x == id { LeafAlone(nodes, x, id); }
  }

  lemma WebhookIsThree(series: int, title: string, e: CatalogEpisode)
    ensures WebhookEntries(series, title, e)
         == [] + [SeriesEntry(series, title)] + [SeasonEntry(series, e.season)] + [EpisodeEntry(series, [e.season], e)]
  {
    assert [e.season][..0] == [] && [e][..0] == [];
    assert SeasonEntries(series, [e.season]) == [SeasonEntry(series, e.season)];
    assert EpisodeEntries(series, [e.season], [e]) == [EpisodeEntry(series, [e.season], e)];
  }
}
