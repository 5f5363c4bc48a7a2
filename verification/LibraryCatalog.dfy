/**
 What the library shows of a catalog, in the catalog's own terms: which things have a visible
 row, and what each row says and hangs under.
 */
module LibraryCatalog {
  import opened Common
  import Decimal
  import opened LibraryModel
  import opened LibrarySync
  import opened LibraryLaws

  // ----- what a row must say -----

  ghost predicate SeriesRow(n: Node, id: int, title: string) {
    && n.ref == SeriesRef(id) && !n.hidden && n.parent.None? && n.title == Given(title) && !n.hasFile
    && n.season.None? && n.episode.None? && n.episodeId.None? && n.movieId.None?
  }

  /** Under the row of its series, titled by its number. */
  ghost predicate SeasonRow(db: Db, inst: Instance, n: Node, series: int, number: int) {
    && n.ref == SeasonRef(series, number) && !n.hidden && n.season == Some(number) && !n.hasFile
    && Shown(n.title) == "Season " + Decimal.Str(number)
    && n.episode.None? && n.episodeId.None? && n.movieId.None?
    && n.parent.Some? && Named(db, inst, SeriesRef(series), n.parent.value)
  }

  /** Under the row of its season if the series lists that season, else under the series. */
  ghost predicate EpisodeRow(db: Db, inst: Instance, n: Node, s: CatalogSeries, e: CatalogEpisode) {
    && n.ref == EpisodeRef(e.id) && !n.hidden && n.season == Some(e.season) && n.episode == Some(e.number)
    && n.episodeId == Some(e.id) && n.movieId.None? && n.title == Given(e.title) && n.hasFile == e.hasFile
    && n.parent.Some?
    && if e.season in s.seasons then Named(db, inst, SeasonRef(s.id, e.season), n.parent.value)
       else Named(db, inst, SeriesRef(s.id), n.parent.value)
  }

  ghost predicate MovieRow(n: Node, m: CatalogMovie) {
    && n.ref == MovieRef(m.id) && !n.hidden && n.parent.None? && n.movieId == Some(m.id) && n.title == Given(m.title)
    && n.hasFile == m.hasFile && n.season.None? && n.episode.None? && n.episodeId.None?
  }

  // ----- what a catalog reports -----

  ghost predicate Reports(catalog: seq<CatalogSeries>, r: NodeRef) {
    match r
    case SeriesRef(x) => exists s :: s in catalog && s.id == x
    case SeasonRef(x, n) => exists s :: s in catalog && s.id == x && n in s.seasons
    case EpisodeRef(x) => exists s, e :: s in catalog && e in s.episodes && e.id == x
    case MovieRef(_) => false
  }

  ghost predicate ReportsMovie(movies: seq<CatalogMovie>, r: NodeRef) {
    r.MovieRef? && exists m :: m in movies && m.id == r.movie
  }

  /** Series `i` is the last one with its id. */
  ghost predicate LastSeries(catalog: seq<CatalogSeries>, i: nat) {
    i < |catalog| && forall k :: i < k < |catalog| ==> catalog[k].id != catalog[i].id
  }

  ghost predicate LastIn(episodes: seq<CatalogEpisode>, j: nat) {
    j < |episodes| && forall k :: j < k < |episodes| ==> episodes[k].id != episodes[j].id
  }

  ghost predicate Lists(s: CatalogSeries, episode: int) { exists e :: e in s.episodes && e.id == episode }

  /** Episode `j` of series `i` is the last one reported with its id. */
  ghost predicate LastEpisode(catalog: seq<CatalogSeries>, i: nat, j: nat) {
    && i < |catalog| && LastIn(catalog[i].episodes, j)
    && forall k :: i < k < |catalog| ==> !Lists(catalog[k], catalog[i].episodes[j].id)
  }

  ghost predicate LastMovie(movies: seq<CatalogMovie>, i: nat) {
    i < |movies| && forall k :: i < k < |movies| ==> movies[k].id != movies[i].id
  }

  // ----- what the library shows of it -----

  ghost predicate RowSays(db: Db, inst: Instance, catalog: seq<CatalogSeries>, n: Node) {
    && (forall i: nat :: LastSeries(catalog, i) && n.ref == SeriesRef(catalog[i].id) ==>
         SeriesRow(n, catalog[i].id, catalog[i].title))
    && (n.ref.SeasonRef? && Reports(catalog, n.ref) ==> SeasonRow(db, inst, n, n.ref.series, n.ref.number))
    && (forall i: nat, j: nat :: LastEpisode(catalog, i, j) && n.ref == EpisodeRef(catalog[i].episodes[j].id) ==>
         EpisodeRow(db, inst, n, catalog[i], catalog[i].episodes[j]))
  }

  /** Everything reported has one row of the instance, which says what was last reported of it. */
  ghost predicate ShowsCatalog(db: Db, inst: Instance, catalog: seq<CatalogSeries>) {
    && (forall r :: Reports(catalog, r) ==> Known(db, inst, r))
    && (forall id :: id in db.nodes && db.nodes[id].instance == inst ==> RowSays(db, inst, catalog, db.nodes[id]))
  }

  ghost predicate ShowsMovies(db: Db, inst: Instance, movies: seq<CatalogMovie>) {
    && (forall r :: ReportsMovie(movies, r) ==> Known(db, inst, r))
    && (forall id, i: nat ::
         id in db.nodes && db.nodes[id].instance == inst && LastMovie(movies, i)
         && db.nodes[id].ref == MovieRef(movies[i].id)
         ==> MovieRow(db.nodes[id], movies[i]))
  }

  /** Exactly what is reported is visible. */
  ghost predicate OnlyShows(db: Db, inst: Instance, catalog: seq<CatalogSeries>) {
    forall id :: id in db.nodes && db.nodes[id].instance == inst ==>
      (!db.nodes[id].hidden <==> Reports(catalog, db.nodes[id].ref))
  }

  ghost predicate OnlyShowsMovies(db: Db, inst: Instance, movies: seq<CatalogMovie>) {
    forall id :: id in db.nodes && db.nodes[id].instance == inst ==>
      (!db.nodes[id].hidden <==> ReportsMovie(movies, db.nodes[id].ref))
  }

  // ----- the entries of a catalog -----

  lemma {:induction false} SeasonMembers(series: int, seasons: seq<int>)
    ensures forall e :: e in SeasonEntries(series, seasons) <==> exists n :: n in seasons && e == SeasonEntry(series, n)
  {
    if seasons != [] {
      var k := |seasons| - 1;
      assert seasons == seasons[..k] + [seasons[k]];
      SeasonMembers(series, seasons[..k]);
    }
  }

  lemma {:induction false} EpisodeMembers(series: int, seasons: seq<int>, episodes: seq<CatalogEpisode>)
    ensures forall e :: e in EpisodeEntries(series, seasons, episodes) <==>
              exists x :: x in episodes && e == EpisodeEntry(series, seasons, x)
  {
    if episodes != [] {
      var k := |episodes| - 1;
      assert episodes == episodes[..k] + [episodes[k]];
      EpisodeMembers(series, seasons, episodes[..k]);
    }
  }

  /** What one series object reports. */
  ghost predicate SeriesReports(s: CatalogSeries, r: NodeRef) {
    match r
    case SeriesRef(x) => s.id == x
    case SeasonRef(x, n) => s.id == x && n in s.seasons
    case EpisodeRef(x) => Lists(s, x)
    case MovieRef(_) => false
  }

  lemma SeriesRefs(s: CatalogSeries, r: NodeRef)
    ensures r in Refs(SeriesEntries(s)) <==> SeriesReports(s, r)
  {
    var a, b, c := [SeriesEntry(s.id, s.title)], SeasonEntries(s.id, s.seasons),
        EpisodeEntries(s.id, s.seasons, s.episodes);
    SeasonMembers(s.id, s.seasons);
    EpisodeMembers(s.id, s.seasons, s.episodes);
    RefsConcat(a, b);
    RefsConcat(a + b, c);
    assert a[0] in a;
    if r.SeasonRef? && SeriesReports(s, r) { assert SeasonEntry(s.id, r.number) in b; }
    if r.EpisodeRef? && SeriesReports(s, r) {
      var e :| e in s.episodes && e.id == r.episode;
      assert EpisodeEntry(s.id, s.seasons, e) in c;
    }
  }

  lemma {:induction false} CatalogRefs(catalog: seq<CatalogSeries>, r: NodeRef)
    ensures r in Refs(CatalogEntries(catalog)) <==> exists s :: s in catalog && SeriesReports(s, r)
  {
    if catalog != [] {
      var k := |catalog| - 1;
      assert catalog == catalog[..k] + [catalog[k]];
      CatalogRefs(catalog[..k], r);
      SeriesRefs(catalog[k], r);
      RefsConcat(CatalogEntries(catalog[..k]), SeriesEntries(catalog[k]));
    }
  }

  lemma CatalogReports(catalog: seq<CatalogSeries>, r: NodeRef)
    ensures r in Refs(CatalogEntries(catalog)) <==> Reports(catalog, r)
  {
    CatalogRefs(catalog, r);
    if s :| s in catalog && SeriesReports(s, r) { assert Reports(catalog, r); }
    if Reports(catalog, r) && r.EpisodeRef? {
      var s, e :| s in catalog && e in s.episodes && e.id == r.episode;
      assert SeriesReports(s, r);
    }
    if Reports(catalog, r) && !r.EpisodeRef? {
      var s :| s in catalog && SeriesReports(s, r);
    }
  }

  // ----- the last report -----

  lemma {:induction false} LastConcat(a: seq<Entry>, b: seq<Entry>, r: NodeRef)
    ensures LastEntry(a + b, r) == if r in Refs(b) then LastEntry(b, r) else LastEntry(a, r)
  {
    if b == [] {
      assert a + b == a;
    } else {
      var k := |b| - 1;
      assert (a + b)[..|a + b| - 1] == a + b[..k];
      LastConcat(a, b[..k], r);
      RefsSnoc(b);
    }
  }

  lemma {:induction false} LastEpisodeIn(series: int, seasons: seq<int>, episodes: seq<CatalogEpisode>, j: nat)
    requires LastIn(episodes, j)
    ensures LastEntry(EpisodeEntries(series, seasons, episodes), EpisodeRef(episodes[j].id))
            == Some(EpisodeEntry(series, seasons, episodes[j]))
  {
    var k := |episodes| - 1;
    if j < k { LastEpisodeIn(series, seasons, episodes[..k], j); }
    var es := EpisodeEntries(series, seasons, episodes);
    assert es[..|es| - 1] == EpisodeEntries(series, seasons, episodes[..k]);
  }

  lemma LastOfSeries(s: CatalogSeries, r: NodeRef)
    ensures r == SeriesRef(s.id) ==> LastEntry(SeriesEntries(s), r) == Some(SeriesEntry(s.id, s.title))
    ensures r.EpisodeRef? && r in Refs(SeriesEntries(s)) ==>
              LastEntry(SeriesEntries(s), r) == LastEntry(EpisodeEntries(s.id, s.seasons, s.episodes), r)
  {
    var a, b, c := [SeriesEntry(s.id, s.title)], SeasonEntries(s.id, s.seasons),
        EpisodeEntries(s.id, s.seasons, s.episodes);
    SeasonMembers(s.id, s.seasons);
    EpisodeMembers(s.id, s.seasons, s.episodes);
    RefsConcat(a, b);
    RefsConcat(a + b, c);
    LastConcat(a + b, c, r);
    LastConcat(a, b, r);
    assert a[..0] == [];
  }

  lemma {:induction false} LastSeriesEntry(catalog: seq<CatalogSeries>, i: nat)
    requires LastSeries(catalog, i)
    ensures LastEntry(CatalogEntries(catalog), SeriesRef(catalog[i].id))
            == Some(SeriesEntry(catalog[i].id, catalog[i].title))
  {
    var k := |catalog| - 1;
    var r := SeriesRef(catalog[i].id);
    LastConcat(CatalogEntries(catalog[..k]), SeriesEntries(catalog[k]), r);
    SeriesRefs(catalog[k], r);
    if i == k { LastOfSeries(catalog[k], r); } else { LastSeriesEntry(catalog[..k], i); }
  }

  lemma LastOfEpisode(s: CatalogSeries, j: nat)
    requires LastIn(s.episodes, j)
    ensures EpisodeRef(s.episodes[j].id) in Refs(SeriesEntries(s))
    ensures LastEntry(SeriesEntries(s), EpisodeRef(s.episodes[j].id))
            == Some(EpisodeEntry(s.id, s.seasons, s.episodes[j]))
  {
    var e := s.episodes[j];
    assert e in s.episodes && SeriesReports(s, EpisodeRef(e.id));
    SeriesRefs(s, EpisodeRef(e.id));
    LastOfSeries(s, EpisodeRef(e.id));
    LastEpisodeIn(s.id, s.seasons, s.episodes, j);
  }

  lemma {:induction false} LastEpisodeEntry(catalog: seq<CatalogSeries>, i: nat, j: nat)
    requires LastEpisode(catalog, i, j)
    ensures LastEntry(CatalogEntries(catalog), EpisodeRef(catalog[i].episodes[j].id))
            == Some(EpisodeEntry(catalog[i].id, catalog[i].seasons, catalog[i].episodes[j]))
  {
    var k := |catalog| - 1;
    var r := EpisodeRef(catalog[i].episodes[j].id);
    LastConcat(CatalogEntries(catalog[..k]), SeriesEntries(catalog[k]), r);
    if i == k {
      LastOfEpisode(catalog[k], j);
    } else {
      SeriesRefs(catalog[k], r);
      LastEpisodeEntry(catalog[..k], i, j);
    }
  }

  lemma LastSeasonEntry(catalog: seq<CatalogSeries>, r: NodeRef)
    requires r.SeasonRef? && Reports(catalog, r)
    ensures LastEntry(CatalogEntries(catalog), r) == Some(SeasonEntry(r.series, r.number))
  {
    CatalogReports(catalog, r);
    OnlySeasonEntry(catalog, LastEntry(CatalogEntries(catalog), r).value);
  }

  lemma {:induction false} OnlySeasonEntry(catalog: seq<CatalogSeries>, e: Entry)
    requires e in CatalogEntries(catalog) && e.ref.SeasonRef?
    ensures e == SeasonEntry(e.ref.series, e.ref.number)
  {
    var k := |catalog| - 1;
    if e in CatalogEntries(catalog[..k]) {
      OnlySeasonEntry(catalog[..k], e);
    } else {
      SeasonMembers(catalog[k].id, catalog[k].seasons);
      EpisodeMembers(catalog[k].id, catalog[k].seasons, catalog[k].episodes);
    }
  }

  lemma {:induction false} MovieMembers(movies: seq<CatalogMovie>, r: NodeRef)
    ensures r in Refs(MovieEntries(movies)) <==> ReportsMovie(movies, r)
  {
    if movies != [] {
      var k := |movies| - 1;
      assert movies == movies[..k] + [movies[k]];
      MovieMembers(movies[..k], r);
      RefsSnoc(MovieEntries(movies));
      var es := MovieEntries(movies);
      assert es[..|es| - 1] == MovieEntries(movies[..k]);
    }
  }

  lemma {:induction false} LastMovieEntry(movies: seq<CatalogMovie>, i: nat)
    requires LastMovie(movies, i)
    ensures LastEntry(MovieEntries(movies), MovieRef(movies[i].id)) == Some(MovieEntry(movies[i]))
  {
    var k := |movies| - 1;
    var es := MovieEntries(movies);
    assert es[..|es| - 1] == MovieEntries(movies[..k]);
    if i < k { LastMovieEntry(movies[..k], i); }
  }

  // ----- main results -----

  lemma SeriesSaid(db: Db, inst: Instance, catalog: seq<CatalogSeries>, id: Id, i: nat)
    requires Unique(db) && ReflectsAll(db, inst, CatalogEntries(catalog)) && LastSeries(catalog, i)
    requires Named(db, inst, SeriesRef(catalog[i].id), id)
    ensures SeriesRow(db.nodes[id], catalog[i].id, catalog[i].title)
  {
    CatalogReports(catalog, SeriesRef(catalog[i].id));
    LastSeriesEntry(catalog, i);
    RowShows(db, inst, SeriesEntry(catalog[i].id, catalog[i].title), id);
  }

  lemma SeasonSaid(db: Db, inst: Instance, catalog: seq<CatalogSeries>, id: Id, r: NodeRef)
    requires Unique(db) && ReflectsAll(db, inst, CatalogEntries(catalog)) && r.SeasonRef? && Reports(catalog, r)
    requires Named(db, inst, r, id)
    ensures SeasonRow(db, inst, db.nodes[id], r.series, r.number)
  {
    CatalogReports(catalog, r);
    LastSeasonEntry(catalog, r);
    RowShows(db, inst, SeasonEntry(r.series, r.number), id);
  }

  lemma EpisodeSaid(db: Db, inst: Instance, catalog: seq<CatalogSeries>, id: Id, i: nat, j: nat)
    requires Unique(db) && ReflectsAll(db, inst, CatalogEntries(catalog)) && LastEpisode(catalog, i, j)
    requires Named(db, inst, EpisodeRef(catalog[i].episodes[j].id), id)
    ensures EpisodeRow(db, inst, db.nodes[id], catalog[i], catalog[i].episodes[j])
  {
    CatalogReports(catalog, EpisodeRef(catalog[i].episodes[j].id));
    LastEpisodeEntry(catalog, i, j);
    RowShows(db, inst, EpisodeEntry(catalog[i].id, catalog[i].seasons, catalog[i].episodes[j]), id);
  }

  lemma ReflectedRow(db: Db, inst: Instance, catalog: seq<CatalogSeries>, id: Id)
    requires Unique(db) && ReflectsAll(db, inst, CatalogEntries(catalog))
    requires id in db.nodes && db.nodes[id].instance == inst
    ensures RowSays(db, inst, catalog, db.nodes[id])
  {
    var n := db.nodes[id];
    forall i: nat | LastSeries(catalog, i) && n.ref == SeriesRef(catalog[i].id)
      ensures SeriesRow(n, catalog[i].id, catalog[i].title)
    {
      SeriesSaid(db, inst, catalog, id, i);
    }
    if n.ref.SeasonRef? && Reports(catalog, n.ref) { SeasonSaid(db, inst, catalog, id, n.ref); }
    forall i: nat, j: nat | LastEpisode(catalog, i, j) && n.ref == EpisodeRef(catalog[i].episodes[j].id)
      ensures EpisodeRow(db, inst, n, catalog[i], catalog[i].episodes[j])
    {
      EpisodeSaid(db, inst, catalog, id, i, j);
    }
  }

  lemma ReflectsShows(db: Db, inst: Instance, catalog: seq<CatalogSeries>)
    requires Unique(db) && ReflectsAll(db, inst, CatalogEntries(catalog))
    ensures ShowsCatalog(db, inst, catalog)
  {
    forall r | Reports(catalog, r) ensures Known(db, inst, r) {
      CatalogReports(catalog, r);
      assert Reflects(db, inst, LastEntry(CatalogEntries(catalog), r).value);
    }
    forall id | id in db.nodes && db.nodes[id].instance == inst ensures RowSays(db, inst, catalog, db.nodes[id]) {
      ReflectedRow(db, inst, catalog, id);
    }
  }

  lemma ReflectsShowsMovies(db: Db, inst: Instance, movies: seq<CatalogMovie>)
    requires Unique(db) && ReflectsAll(db, inst, MovieEntries(movies))
    ensures ShowsMovies(db, inst, movies)
  {
    forall r | ReportsMovie(movies, r) ensures Known(db, inst, r) {
      MovieMembers(movies, r);
      assert Reflects(db, inst, LastEntry(MovieEntries(movies), r).value);
    }
    forall id, i: nat | id in db.nodes && db.nodes[id].instance == inst && LastMovie(movies, i)
        && db.nodes[id].ref == MovieRef(movies[i].id)
      ensures MovieRow(db.nodes[id], movies[i])
    {
      LastMovieEntry(movies, i);
      RowShows(db, inst, MovieEntry(movies[i]), id);
    }
  }

  lemma OrderlyAfterIs(es: seq<Entry>)
    requires Orderly(es)
    ensures OrderlyAfter({}, es)
  {
    forall i | 0 <= i < |es| && es[i].parent.Some? ensures es[i].parent.value in {} + Refs(es[..i]) {
      assert es[i].parent.value in Refs(es[..i]);
    }
  }

  lemma OrderlyNext(done: seq<Entry>, s: CatalogSeries)
    requires Orderly(done)
    ensures Orderly(done + SeriesEntries(s))
  {
    OrderlyAfterIs(done);
    SeriesOrderly({} + Refs(done), s);
    OrderlyConcat({}, done, SeriesEntries(s));
    OrderlyIs(done + SeriesEntries(s));
  }

  lemma ReflectsTail(db: Db, inst: Instance, done: seq<Entry>, es: seq<Entry>)
    requires ReflectsAll(db, inst, done + es)
    ensures ReflectsAll(db, inst, es)
  {
    RefsConcat(done, es);
    forall r | r in Refs(es) ensures Reflects(db, inst, LastEntry(es, r).value) { LastConcat(done, es, r); }
  }

  lemma OneSeries(s: CatalogSeries)
    ensures CatalogEntries([s]) == SeriesEntries(s)
  {
    assert [s][..0] == [] && [] + SeriesEntries(s) == SeriesEntries(s);
  }

  /** Once a series' entries have been applied, whatever was applied before them, its rows say what it says. */
  lemma SeriesShows(was: Db, inst: Instance, done: seq<Entry>, s: CatalogSeries)
    requires WellFormed(was) && Orderly(done)
    ensures Orderly(done + SeriesEntries(s)) && ShowsCatalog(ApplyAll(was, inst, done + SeriesEntries(s)), inst, [s])
  {
    var all := done + SeriesEntries(s);
    OrderlyNext(done, s);
    ApplyAllReflects(was, inst, all);
    ReflectsTail(ApplyAll(was, inst, all), inst, done, SeriesEntries(s));
    OneSeries(s);
    ReflectsShows(ApplyAll(was, inst, all), inst, [s]);
  }

  /**
   After a sync exactly the series, seasons and episodes of the catalog are visible, and each row
   says what the catalog last said of it.
   */
  lemma SyncShowsCatalog(db: Db, inst: Instance, catalog: seq<CatalogSeries>)
    requires WellFormed(db)
    ensures var db' := Sync(db, inst, CatalogEntries(catalog));
            ShowsCatalog(db', inst, catalog) && OnlyShows(db', inst, catalog)
  {
    var db' := Sync(db, inst, CatalogEntries(catalog));
    CatalogOrderly(catalog);
    SyncMirrors(db, inst, CatalogEntries(catalog));
    ReflectsShows(db', inst, catalog);
    forall id | id in db'.nodes && db'.nodes[id].instance == inst
      ensures !db'.nodes[id].hidden <==> Reports(catalog, db'.nodes[id].ref)
    {
      CatalogReports(catalog, db'.nodes[id].ref);
    }
  }

  /** The same for a movie library. */
  lemma SyncShowsMovies(db: Db, inst: Instance, movies: seq<CatalogMovie>)
    requires WellFormed(db)
    ensures var db' := Sync(db, inst, MovieEntries(movies));
            ShowsMovies(db', inst, movies) && OnlyShowsMovies(db', inst, movies)
  {
    var db' := Sync(db, inst, MovieEntries(movies));
    MoviesOrderly(movies);
    SyncMirrors(db, inst, MovieEntries(movies));
    ReflectsShowsMovies(db', inst, movies);
    forall id | id in db'.nodes && db'.nodes[id].instance == inst
      ensures !db'.nodes[id].hidden <==> ReportsMovie(movies, db'.nodes[id].ref)
    {
      MovieMembers(movies, db'.nodes[id].ref);
    }
  }

  lemma ImportReflects(db: Db, inst: Instance, series: int, title: string, e: CatalogEpisode)
    requires WellFormed(db)
    ensures var db', s := ApplyAll(db, inst, WebhookEntries(series, title, e)),
            CatalogSeries(series, title, [e.season], [e]);
            Unique(db') && ReflectsAll(db', inst, CatalogEntries([s]))
  {
    OneSeries(CatalogSeries(series, title, [e.season], [e]));
    WebhookOrderly(series, title, e);
    ApplyAllReflects(db, inst, WebhookEntries(series, title, e));
  }

  lemma OnlyReport(s: CatalogSeries, e: CatalogEpisode)
    requires s.seasons == [e.season] && s.episodes == [e]
    ensures LastSeries([s], 0) && LastEpisode([s], 0, 0) && [s][0] == s && s.episodes[0] == e
    ensures Reports([s], SeasonRef(s.id, e.season))
  {
    assert s in [s] && e.season in s.seasons;
  }

  /** An episode import shows the series, the season and the episode as the webhook describes them. */
  lemma ImportShows(db: Db, inst: Instance, series: int, title: string, e: CatalogEpisode)
    requires WellFormed(db)
    ensures var db', s := ApplyAll(db, inst, WebhookEntries(series, title, e)),
            CatalogSeries(series, title, [e.season], [e]);
            && ShowsCatalog(db', inst, [s])
            && (forall id :: Named(db', inst, SeriesRef(series), id) ==> SeriesRow(db'.nodes[id], series, title))
            && (forall id :: Named(db', inst, SeasonRef(series, e.season), id) ==>
                 SeasonRow(db', inst, db'.nodes[id], series, e.season))
            && (forall id :: Named(db', inst, EpisodeRef(e.id), id) ==> EpisodeRow(db', inst, db'.nodes[id], s, e))
  {
    var s := CatalogSeries(series, title, [e.season], [e]);
    var db' := ApplyAll(db, inst, WebhookEntries(series, title, e));
    ImportReflects(db, inst, series, title, e);
    ReflectsShows(db', inst, [s]);
    OnlyReport(s, e);
    forall id | Named(db', inst, SeriesRef(series), id) ensures SeriesRow(db'.nodes[id], series, title) {
      SeriesSaid(db', inst, [s], id, 0);
    }
    forall id | Named(db', inst, SeasonRef(series, e.season), id)
      ensures SeasonRow(db', inst, db'.nodes[id], series, e.season)
    {
      SeasonSaid(db', inst, [s], id, SeasonRef(series, e.season));
    }
    forall id | Named(db', inst, EpisodeRef(e.id), id) ensures EpisodeRow(db', inst, db'.nodes[id], s, e) {
      EpisodeSaid(db', inst, [s], id, 0, 0);
    }
  }

  lemma MovieImportShows(db: Db, inst: Instance, m: CatalogMovie)
    requires WellFormed(db)
    ensures var db' := ApplyAll(db, inst, [MovieEntry(m)]);
            && Known(db', inst, MovieRef(m.id))
            && (forall id :: Named(db', inst, MovieRef(m.id), id) ==> MovieRow(db'.nodes[id], m))
  {
    var db' := ApplyAll(db, inst, [MovieEntry(m)]);
    assert [m][..0] == [] && MovieEntries([m]) == [MovieEntry(m)];
    MoviesOrderly([m]);
    ApplyAllReflects(db, inst, MovieEntries([m]));
    ReflectsShowsMovies(db', inst, [m]);
    assert LastMovie([m], 0) && [m][0] == m && m in [m];
    assert ReportsMovie([m], MovieRef(m.id));
  }
}
