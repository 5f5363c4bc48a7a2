/** Laws of syncing: idempotence, visible parents, and what a catalog turns into. */
module LibraryLaws {
  import opened LibraryModel
  import opened LibrarySync

  // ----- idempotence -----

  lemma NoNewRows(db: Db, inst: Instance, es: seq<Entry>, id: Id)
    requires WellFormed(db) && Orderly(es) && ReflectsAll(db, inst, es) && id in Sync(db, inst, es).nodes
    ensures id in db.nodes
  {
    SyncMirrors(db, inst, es);
    var n := Sync(db, inst, es).nodes[id];
    if n.instance == inst && n.ref in Refs(es) {
      assert Reflects(db, inst, LastEntry(es, n.ref).value);
      var first :| Named(db, inst, n.ref, first);
      assert Same(Sync(db, inst, es).nodes[first], n);
    }
  }

  lemma SameRow(db: Db, inst: Instance, es: seq<Entry>, id: Id)
    requires WellFormed(db) && Orderly(es) && ReflectsAll(db, inst, es) && id in db.nodes
            && db.nodes[id].instance == inst && db.nodes[id].ref in Refs(es)
    ensures id in Sync(db, inst, es).nodes && Sync(db, inst, es).nodes[id] == db.nodes[id]
  {
    SyncMirrors(db, inst, es);
    var db' := Sync(db, inst, es);
    var e := LastEntry(es, db.nodes[id].ref).value;
    assert Reflects(db, inst, e) && Reflects(db', inst, e);
    var a :| Named(db, inst, e.ref, a) && Shows(db, db.nodes[a], e);
    var b :| Named(db', inst, e.ref, b) && Shows(db', db'.nodes[b], e);
    assert Same(db.nodes[a], db.nodes[id]) && Same(db'.nodes[b], db'.nodes[id]);
    if e.parent.Some? {
      var p, q := db.nodes[id].parent.value, db'.nodes[id].parent.value;
      assert Named(db, inst, e.parent.value, p) && Named(db', inst, e.parent.value, q);
      assert Same(db'.nodes[p], db'.nodes[q]);
    }
  }

  /** The table a sync leaves: the reported nodes as reported, the others hidden. */
  ghost predicate Settled(db: Db, inst: Instance, es: seq<Entry>) {
    && WellFormed(db) && ReflectsAll(db, inst, es)
    && forall id :: id in db.nodes && db.nodes[id].instance == inst && db.nodes[id].ref !in Refs(es)
         ==> db.nodes[id].hidden
  }

  lemma SyncSettles(db: Db, inst: Instance, es: seq<Entry>)
    requires WellFormed(db) && Orderly(es)
    ensures Settled(Sync(db, inst, es), inst, es)
  {
    SyncMirrors(db, inst, es);
  }

  lemma SettledRow(db: Db, inst: Instance, es: seq<Entry>, id: Id)
    requires Settled(db, inst, es) && Orderly(es) && id in db.nodes
    ensures id in Sync(db, inst, es).nodes && Sync(db, inst, es).nodes[id] == db.nodes[id]
  {
    SyncMirrors(db, inst, es);
    if db.nodes[id].instance == inst && db.nodes[id].ref in Refs(es) { SameRow(db, inst, es, id); }
  }

  /** Syncing the same catalog twice is syncing it once. */
  lemma SyncIdempotent(db: Db, inst: Instance, es: seq<Entry>)
    requires WellFormed(db) && Orderly(es)
    ensures Sync(Sync(db, inst, es), inst, es).nodes == Sync(db, inst, es).nodes
  {
    var db1 := Sync(db, inst, es);
    SyncSettles(db, inst, es);
    forall id | id in Sync(db1, inst, es).nodes ensures id in db1.nodes { NoNewRows(db1, inst, es, id); }
    forall id | id in db1.nodes ensures id in Sync(db1, inst, es).nodes
        && Sync(db1, inst, es).nodes[id] == db1.nodes[id] {
      SettledRow(db1, inst, es, id);
    }
  }

  // ----- visible parents -----

  ghost predicate ParentsVisible(db: Db) {
    forall id :: id in db.nodes && !db.nodes[id].hidden && db.nodes[id].parent.Some? ==>
      db.nodes[id].parent.value in db.nodes && !db.nodes[db.nodes[id].parent.value].hidden
  }

  /** Every visible episode hangs under a season. */
  ghost predicate EpisodesInSeasons(db: Db) {
    forall id :: id in db.nodes && !db.nodes[id].hidden && db.nodes[id].ref.EpisodeRef? ==>
      db.nodes[id].parent.Some? && db.nodes[id].parent.value in db.nodes
          && db.nodes[db.nodes[id].parent.value].ref.SeasonRef?
  }

  /** No episode of the batch falls back to its series. */
  ghost predicate Covered(es: seq<Entry>) {
    forall e :: e in es && e.ref.EpisodeRef? ==> e.parent.Some? && e.parent.value.SeasonRef?
  }

  lemma ParentReported(es: seq<Entry>, e: Entry)
    requires Orderly(es) && e in es && e.parent.Some?
    ensures e.parent.value in Refs(es)
  {
    var i :| 0 <= i < |es| && es[i] == e;
    var x :| x in es[..i] && x.ref == e.parent.value;
    assert x in es;
  }

  /** The row of a reported node: visible, under a reported parent. */
  lemma ReportedRow(db: Db, inst: Instance, es: seq<Entry>, id: Id)
    requires WellFormed(db) && Orderly(es) && ReflectsAll(db, inst, es)
    requires id in db.nodes && db.nodes[id].instance == inst && db.nodes[id].ref in Refs(es)
    ensures var e := LastEntry(es, db.nodes[id].ref).value;
            && Shows(db, db.nodes[id], e)
            && (e.parent.Some? ==> var p := db.nodes[id].parent.value;
                 db.nodes[p].ref == e.parent.value && e.parent.value in Refs(es) && !db.nodes[p].hidden)
  {
    var e := LastEntry(es, db.nodes[id].ref).value;
    RowShows(db, inst, e, id);
    if e.parent.Some? {
      ParentReported(es, e);
      var pe := LastEntry(es, e.parent.value).value;
      RowShows(db, inst, pe, db.nodes[id].parent.value);
    }
  }

  lemma RowShows(db: Db, inst: Instance, e: Entry, id: Id)
    requires Unique(db) && Reflects(db, inst, e) && Named(db, inst, e.ref, id)
    ensures Shows(db, db.nodes[id], e)
  {
    var a :| Named(db, inst, e.ref, a) && Shows(db, db.nodes[a], e);
    assert Same(db.nodes[a], db.nodes[id]);
  }

  lemma SyncKeepsParents(db: Db, inst: Instance, es: seq<Entry>)
    requires WellFormed(db) && Orderly(es) && ParentsVisible(db)
    ensures ParentsVisible(Sync(db, inst, es))
  {
    SyncMirrors(db, inst, es);
    var db' := Sync(db, inst, es);
    forall id | id in db'.nodes && !db'.nodes[id].hidden && db'.nodes[id].parent.Some?
      ensures db'.nodes[id].parent.value in db'.nodes && !db'.nodes[db'.nodes[id].parent.value].hidden
    {
      if db'.nodes[id].instance == inst { ReportedRow(db', inst, es, id); }
      else { assert Linked(db, db.nodes[id]); }
    }
  }

  lemma SyncKeepsSeasons(db: Db, inst: Instance, es: seq<Entry>)
    requires WellFormed(db) && Orderly(es) && Covered(es) && EpisodesInSeasons(db)
    ensures EpisodesInSeasons(Sync(db, inst, es))
  {
    SyncMirrors(db, inst, es);
    var db' := Sync(db, inst, es);
    forall id | id in db'.nodes && !db'.nodes[id].hidden && db'.nodes[id].ref.EpisodeRef?
      ensures db'.nodes[id].parent.Some? && db'.nodes[id].parent.value in db'.nodes
              && db'.nodes[db'.nodes[id].parent.value].ref.SeasonRef?
    {
      if db'.nodes[id].instance == inst { ReportedRow(db', inst, es, id); }
      else { assert db'.nodes[id] == db.nodes[id]; }
    }
  }

  /** The same for a webhook's upserts, which hide nothing. */
  lemma UpsertsKeepParents(db: Db, inst: Instance, es: seq<Entry>)
    requires WellFormed(db) && Orderly(es) && ParentsVisible(db)
    ensures ParentsVisible(ApplyAll(db, inst, es))
  {
    ApplyAllReflects(db, inst, es);
    ApplyAllExtends(db, inst, es);
    var db' := ApplyAll(db, inst, es);
    forall id | id in db'.nodes && !db'.nodes[id].hidden && db'.nodes[id].parent.Some?
      ensures db'.nodes[id].parent.value in db'.nodes && !db'.nodes[db'.nodes[id].parent.value].hidden
    {
      if db'.nodes[id].instance == inst && db'.nodes[id].ref in Refs(es) { ReportedRow(db', inst, es, id); }
      else { StaysVisible(db, inst, es, db.nodes[id].parent.value); }
    }
  }

  lemma StaysVisible(db: Db, inst: Instance, es: seq<Entry>, id: Id)
    requires WellFormed(db) && Orderly(es) && id in db.nodes && !db.nodes[id].hidden
    ensures id in ApplyAll(db, inst, es).nodes && !ApplyAll(db, inst, es).nodes[id].hidden
  {
    ApplyAllReflects(db, inst, es);
    ApplyAllExtends(db, inst, es);
    var db' := ApplyAll(db, inst, es);
    if db.nodes[id].instance == inst && db.nodes[id].ref in Refs(es) { ReportedRow(db', inst, es, id); }
  }

  lemma UpsertsKeepSeasons(db: Db, inst: Instance, es: seq<Entry>)
    requires WellFormed(db) && Orderly(es) && Covered(es) && EpisodesInSeasons(db)
    ensures EpisodesInSeasons(ApplyAll(db, inst, es))
  {
    ApplyAllReflects(db, inst, es);
    ApplyAllExtends(db, inst, es);
    var db' := ApplyAll(db, inst, es);
    forall id | id in db'.nodes && !db'.nodes[id].hidden && db'.nodes[id].ref.EpisodeRef?
      ensures db'.nodes[id].parent.Some? && db'.nodes[id].parent.value in db'.nodes
              && db'.nodes[db'.nodes[id].parent.value].ref.SeasonRef?
    {
      if db'.nodes[id].instance == inst && db'.nodes[id].ref in Refs(es) { ReportedRow(db', inst, es, id); }
      else { assert db'.nodes[id] == db.nodes[id]; }
    }
  }

  // ----- what a catalog turns into -----

  function SeasonEntries(series: int, seasons: seq<int>): seq<Entry> {
    if seasons == [] then [] else
        SeasonEntries(series, seasons[..|seasons| - 1]) + [SeasonEntry(series, seasons[|seasons| - 1])]
  }

  function EpisodeEntries(series: int, seasons: seq<int>, episodes: seq<CatalogEpisode>): seq<Entry> {
    if episodes == [] then []
    else
        EpisodeEntries(series, seasons, episodes[..|episodes| - 1])
        + [EpisodeEntry(series, seasons, episodes[|episodes| - 1])]
  }

  function SeriesEntries(s: CatalogSeries): seq<Entry> {
    [SeriesEntry(s.id, s.title)] + SeasonEntries(s.id, s.seasons) + EpisodeEntries(s.id, s.seasons, s.episodes)
  }

  function CatalogEntries(catalog: seq<CatalogSeries>): seq<Entry> {
    if catalog == [] then [] else CatalogEntries(catalog[..|catalog| - 1]) + SeriesEntries(catalog[|catalog| - 1])
  }

  function MovieEntries(movies: seq<CatalogMovie>): seq<Entry> {
    if movies == [] then [] else MovieEntries(movies[..|movies| - 1]) + [MovieEntry(movies[|movies| - 1])]
  }

  /** An import webhook: the series, the episode's season, the episode. */
  function WebhookEntries(series: int, title: string, e: CatalogEpisode): seq<Entry> {
    SeriesEntries(CatalogSeries(series, title, [e.season], [e]))
  }

  /** Parents come earlier in the batch or are among `known`. */
  ghost predicate OrderlyAfter(known: set<NodeRef>, es: seq<Entry>) {
    forall i :: 0 <= i < |es| ==> EntryOk(es[i]) && (es[i].parent.Some? ==> es[i].parent.value in known + Refs(es[..i]))
  }

  lemma OrderlySnoc(known: set<NodeRef>, es: seq<Entry>, e: Entry)
    requires OrderlyAfter(known, es) && EntryOk(e) && (e.parent.Some? ==> e.parent.value in known + Refs(es))
    ensures OrderlyAfter(known, es + [e]) && Refs(es + [e]) == Refs(es) + {e.ref}
  {
    forall i | 0 <= i < |es| ensures (es + [e])[..i] == es[..i] {}
    assert (es + [e])[..|es|] == es;
  }

  lemma RefsConcat(a: seq<Entry>, b: seq<Entry>)
    ensures Refs(a + b) == Refs(a) + Refs(b)
  {
    forall e | e in a || e in b ensures e in a + b {}
  }

  lemma OrderlyConcat(known: set<NodeRef>, a: seq<Entry>, b: seq<Entry>)
    requires OrderlyAfter(known, a) && OrderlyAfter(known + Refs(a), b)
    ensures OrderlyAfter(known, a + b)
  {
    forall i | 0 <= i < |a + b|
      ensures EntryOk((a + b)[i]) && ((a + b)[i].parent.Some? ==> (a + b)[i].parent.value in known + Refs((a + b)[..i]))
    {
      if i < |a| { assert (a + b)[..i] == a[..i]; }
      else {
        assert (a + b)[..i] == a + b[..i - |a|];
        RefsConcat(a, b[..i - |a|]);
        assert (a + b)[i] == b[i - |a|];
      }
    }
  }

  lemma {:induction false} SeasonsOrderly(known: set<NodeRef>, series: int, seasons: seq<int>)
    requires SeriesRef(series) in known
    ensures OrderlyAfter(known, SeasonEntries(series, seasons)) && Covered(SeasonEntries(series, seasons))
    ensures forall n :: n in seasons <==> SeasonRef(series, n) in Refs(SeasonEntries(series, seasons))
  {
    if seasons != [] {
      var before, n := seasons[..|seasons| - 1], seasons[|seasons| - 1];
      SeasonsOrderly(known, series, before);
      OrderlySnoc(known, SeasonEntries(series, before), SeasonEntry(series, n));
    }
  }

  lemma {:induction false} EpisodesOrderly(known: set<NodeRef>, series: int, seasons: seq<int>,
                                           episodes: seq<CatalogEpisode>)
    requires SeriesRef(series) in known && forall n :: n in seasons ==> SeasonRef(series, n) in known
    ensures OrderlyAfter(known, EpisodeEntries(series, seasons, episodes))
    ensures (forall e :: e in episodes ==> e.season in seasons) ==> Covered(EpisodeEntries(series, seasons, episodes))
  {
    if episodes != [] {
      var before, e := episodes[..|episodes| - 1], episodes[|episodes| - 1];
      EpisodesOrderly(known, series, seasons, before);
      OrderlySnoc(known, EpisodeEntries(series, seasons, before), EpisodeEntry(series, seasons, e));
    }
  }

  /** What a fetched catalog guarantees: each series lists the seasons of its episodes. */
  predicate Fetched(s: CatalogSeries) { forall e :: e in s.episodes ==> e.season in s.seasons }

  lemma SeriesOrderly(known: set<NodeRef>, s: CatalogSeries)
    ensures OrderlyAfter(known, SeriesEntries(s)) && (Fetched(s) ==> Covered(SeriesEntries(s)))
  {
    var a, b, c := [SeriesEntry(s.id, s.title)], SeasonEntries(s.id, s.seasons),
        EpisodeEntries(s.id, s.seasons, s.episodes);
    assert a[0] in a;
    SeasonsOrderly(known + Refs(a), s.id, s.seasons);
    OrderlyConcat(known, a, b);
    RefsConcat(a, b);
    EpisodesOrderly(known + Refs(a + b), s.id, s.seasons, s.episodes);
    OrderlyConcat(known, a + b, c);
  }

  lemma {:induction false} CatalogOrderlyAfter(catalog: seq<CatalogSeries>)
    ensures OrderlyAfter({}, CatalogEntries(catalog))
    ensures (forall s :: s in catalog ==> Fetched(s)) ==> Covered(CatalogEntries(catalog))
  {
    if catalog != [] {
      var before, s := catalog[..|catalog| - 1], catalog[|catalog| - 1];
      CatalogOrderlyAfter(before);
      SeriesOrderly({} + Refs(CatalogEntries(before)), s);
      OrderlyConcat({}, CatalogEntries(before), SeriesEntries(s));
      assert s in catalog && forall x :: x in before ==> x in catalog;
    }
  }

  lemma OrderlyIs(es: seq<Entry>)
    requires OrderlyAfter({}, es)
    ensures Orderly(es)
  {
    forall i | 0 <= i < |es| && es[i].parent.Some? ensures es[i].parent.value in Refs(es[..i]) {
      assert es[i].parent.value in {} + Refs(es[..i]);
    }
  }

  /** Any catalog reports parents first; a fetched one leaves no episode without its season. */
  lemma CatalogOrderly(catalog: seq<CatalogSeries>)
    ensures Orderly(CatalogEntries(catalog))
    ensures (forall s :: s in catalog ==> Fetched(s)) ==> Covered(CatalogEntries(catalog))
  {
    CatalogOrderlyAfter(catalog);
    OrderlyIs(CatalogEntries(catalog));
  }

  lemma {:induction false} MoviesOrderly(movies: seq<CatalogMovie>)
    ensures Orderly(MovieEntries(movies)) && Covered(MovieEntries(movies))
    ensures OrderlyAfter({}, MovieEntries(movies))
  {
    if movies != [] {
      MoviesOrderly(movies[..|movies| - 1]);
      OrderlySnoc({}, MovieEntries(movies[..|movies| - 1]), MovieEntry(movies[|movies| - 1]));
    }
    OrderlyIs(MovieEntries(movies));
  }

  lemma WebhookOrderly(series: int, title: string, e: CatalogEpisode)
    ensures Orderly(WebhookEntries(series, title, e)) && Covered(WebhookEntries(series, title, e))
  {
    SeriesOrderly({}, CatalogSeries(series, title, [e.season], [e]));
    OrderlyIs(WebhookEntries(series, title, e));
  }
}
