/**
 Syncing the library mirror: upserts by node key and soft-hiding, as operations on the node table. A node
 is visible exactly when the catalog reports it, and its tracked override stays.
 */
module LibrarySync {
  import opened Common
  import opened LibraryModel

  // ----- what one upsert is told -----

  /** The arguments of one `_upsert_node` call, the parent given by what it stands for. */
  datatype Entry = Entry(
    ref: NodeRef,
    parent: Option<NodeRef>,
    season: Option<int>,
    episode: Option<int>,
    episodeId: Option<int>,
    movieId: Option<int>,
    title: Title,
    hasFile: bool)

  function SeriesEntry(id: int, title: string): Entry {
    Entry(SeriesRef(id), None, None, None, None, None, Given(title), false)
  }

  function SeasonEntry(series: int, number: int): Entry {
    Entry(SeasonRef(series, number), Some(SeriesRef(series)), Some(number), None, None, None, SeasonNumber(number),
        false)
  }

  /** An episode hangs under its season if the catalog lists that season, else under the series. */
  function EpisodeEntry(series: int, seasons: seq<int>, e: CatalogEpisode): Entry {
    Entry(EpisodeRef(e.id), Some(if e.season in seasons then SeasonRef(series, e.season) else SeriesRef(series)),
          Some(e.season), Some(e.number), Some(e.id), None, Given(e.title), e.hasFile)
  }

  function MovieEntry(m: CatalogMovie): Entry {
    Entry(MovieRef(m.id), None, None, None, None, Some(m.id), Given(m.title), m.hasFile)
  }

  predicate EntryOk(e: Entry) {
    match e.ref
    case SeriesRef(_) => e.parent.None?
    case SeasonRef(s, n) => e.parent == Some(SeriesRef(s)) && e.season == Some(n)
    case EpisodeRef(id) =>
      && e.episodeId == Some(id) && e.season.Some? && e.episode.Some?
      && e.parent.Some? && (e.parent.value.SeasonRef? || e.parent.value.SeriesRef?)
    case MovieRef(m) => e.parent.None? && e.movieId == Some(m)
  }

  // ----- the node table -----

  /** The columns a row's kind needs are set, and agree with its key. */
  predicate Shaped(n: Node) {
    match n.ref
    case SeriesRef(_) => n.parent.None?
    case SeasonRef(_, k) => n.parent.Some? && n.season == Some(k)
    case EpisodeRef(e) => n.parent.Some? && n.episodeId == Some(e) && n.season.Some? && n.episode.Some?
    case MovieRef(m) => n.parent.None? && n.movieId == Some(m)
  }

  /** A season's parent is its series; an episode's parent is a season or a series; all within one instance. */
  ghost predicate Linked(db: Db, n: Node) {
    n.parent.Some? ==>
      && n.parent.value in db.nodes
      && var p := db.nodes[n.parent.value];
         && p.instance == n.instance
         && (n.ref.SeasonRef? ==> p.ref == SeriesRef(n.ref.series))
         && (n.ref.EpisodeRef? ==> p.ref.SeasonRef? || p.ref.SeriesRef?)
  }

  predicate Same(a: Node, b: Node) { a.instance == b.instance && a.ref == b.ref }

  ghost predicate RowsOk(db: Db) {
    forall id :: id in db.nodes ==> id < db.nextId && Shaped(db.nodes[id]) && Linked(db, db.nodes[id])
  }

  /** The unique constraint on (instance, node key). */
  ghost predicate Unique(db: Db) {
    forall a, b :: a in db.nodes && b in db.nodes && Same(db.nodes[a], db.nodes[b]) ==> a == b
  }

  ghost predicate WellFormed(db: Db) { RowsOk(db) && Unique(db) }

  ghost predicate Named(db: Db, inst: Instance, r: NodeRef, id: Id) {
    id in db.nodes && db.nodes[id].instance == inst && db.nodes[id].ref == r
  }

  ghost predicate Known(db: Db, inst: Instance, r: NodeRef) { exists id :: Named(db, inst, r, id) }

  ghost function Find(db: Db, inst: Instance, r: NodeRef): (o: Option<Id>)
    ensures if o.Some? then Named(db, inst, r, o.value) else !Known(db, inst, r)
  {
    if Known(db, inst, r) then var id :| Named(db, inst, r, id); Some(id) else None
  }

  function Created(inst: Instance, e: Entry, parent: Option<Id>): Node {
    Node(inst, e.ref, parent, e.season, e.episode, e.episodeId, e.movieId, e.title, e.hasFile, None, false)
  }

  function Written(n: Node, e: Entry, parent: Option<Id>): Node {
    n.(parent := parent, season := e.season, episode := e.episode, episodeId := e.episodeId, movieId := e.movieId,
       title := e.title, hasFile := e.hasFile, hidden := false)
  }

  function Upserted(db: Db, inst: Instance, e: Entry, parent: Option<Id>, found: Option<Id>): Db {
    if found.Some? && found.value in db.nodes then
      db.(nodes := db.nodes[found.value := Written(db.nodes[found.value], e, parent)])
    else Db(db.nodes[db.nextId := Created(inst, e, parent)], db.nextId + 1)
  }

  ghost function ParentOf(db: Db, inst: Instance, e: Entry): Option<Id> {
    if e.parent.None? then None else Find(db, inst, e.parent.value)
  }

  ghost function Apply(db: Db, inst: Instance, e: Entry): Db {
    Upserted(db, inst, e, ParentOf(db, inst, e), Find(db, inst, e.ref))
  }

  ghost function ApplyAll(db: Db, inst: Instance, es: seq<Entry>): Db {
    if es == [] then db else Apply(ApplyAll(db, inst, es[..|es| - 1]), inst, es[|es| - 1])
  }

  function Hidden(n: Node, inst: Instance, seen: set<NodeRef>): Node {
    if n.instance == inst && n.ref !in seen then n.(hidden := true) else n
  }

  function Hide(db: Db, inst: Instance, seen: set<NodeRef>): Db {
    db.(nodes := map id | id in db.nodes :: Hidden(db.nodes[id], inst, seen))
  }

  function Refs(es: seq<Entry>): set<NodeRef> { set e | e in es :: e.ref }

  ghost function Sync(db: Db, inst: Instance, es: seq<Entry>): Db {
    Hide(ApplyAll(db, inst, es), inst, Refs(es))
  }

  // ----- one upsert -----

  /** Rows keep their identity and override; new rows come with fresh ids and no override. */
  ghost predicate Extends(db: Db, db': Db) {
    && db.nextId <= db'.nextId
    && (forall id :: id in db.nodes ==>
         id in db'.nodes && Same(db.nodes[id], db'.nodes[id]) && db'.nodes[id].tracked == db.nodes[id].tracked)
    && (forall id :: id in db'.nodes && id !in db.nodes ==> id >= db.nextId && db'.nodes[id].tracked.None?)
  }

  /** Row `n` shows what `e` reported. */
  ghost predicate Shows(db: Db, n: Node, e: Entry) {
    && !n.hidden && n.season == e.season && n.episode == e.episode && n.episodeId == e.episodeId
         && n.movieId == e.movieId
    && n.title == e.title && n.hasFile == e.hasFile
    && (if e.parent.None? then n.parent.None? else
         n.parent.Some? && Named(db, n.instance, e.parent.value, n.parent.value))
  }

  ghost predicate Reflects(db: Db, inst: Instance, e: Entry) {
    exists id :: Named(db, inst, e.ref, id) && Shows(db, db.nodes[id], e)
  }

  ghost predicate Applicable(db: Db, inst: Instance, e: Entry) {
    EntryOk(e) && (e.parent.Some? ==> Known(db, inst, e.parent.value))
  }

  /** Every row but the one of `r` is as before. */
  ghost predicate OnlyTouches(db: Db, db': Db, inst: Instance, r: NodeRef) {
    && (forall id :: id in db.nodes && !Named(db, inst, r, id) ==> id in db'.nodes && db'.nodes[id] == db.nodes[id])
    && (forall id :: id in db'.nodes && id !in db.nodes ==> Named(db', inst, r, id))
  }

  /** Which row an upsert writes. */
  lemma ApplyWrites(db: Db, inst: Instance, e: Entry) returns (at: Id)
    requires WellFormed(db)
    ensures at in Apply(db, inst, e).nodes && Named(Apply(db, inst, e), inst, e.ref, at)
    ensures Apply(db, inst, e).nodes == db.nodes[at := Apply(db, inst, e).nodes[at]]
    ensures if at in db.nodes then Named(db, inst, e.ref, at) && Apply(db, inst, e).nextId == db.nextId
            else at == db.nextId && !Known(db, inst, e.ref) && Apply(db, inst, e).nextId == db.nextId + 1
    ensures Apply(db, inst, e).nodes[at]
         == if at in db.nodes then Written(db.nodes[at], e, ParentOf(db, inst, e))
             else Created(inst, e, ParentOf(db, inst, e))
  {
    var found := Find(db, inst, e.ref);
    at := if found.Some? then found.value else db.nextId;
  }

  lemma ApplyUnique(db: Db, inst: Instance, e: Entry)
    requires WellFormed(db)
    ensures Unique(Apply(db, inst, e))
  {
    var at := ApplyWrites(db, inst, e);
    var db' := Apply(db, inst, e);
    assert forall b :: Named(db, inst, e.ref, b) && at in db.nodes ==> Same(db.nodes[at], db.nodes[b]);
    forall a, b | a in db'.nodes && b in db'.nodes && Same(db'.nodes[a], db'.nodes[b]) ensures a == b {
      if a != at && b != at { assert Same(db.nodes[a], db.nodes[b]); }
      else { assert (a == at || Named(db, inst, e.ref, a)) && (b == at || Named(db, inst, e.ref, b)); }
    }
  }

  lemma ApplyExtends(db: Db, inst: Instance, e: Entry)
    requires WellFormed(db)
    ensures Extends(db, Apply(db, inst, e)) && OnlyTouches(db, Apply(db, inst, e), inst, e.ref)
  {
    var at := ApplyWrites(db, inst, e);
  }

  lemma ApplyReflects(db: Db, inst: Instance, e: Entry)
    requires WellFormed(db) && Applicable(db, inst, e)
    ensures Reflects(Apply(db, inst, e), inst, e)
  {
    var at := ApplyWrites(db, inst, e);
    ApplyExtends(db, inst, e);
    var db' := Apply(db, inst, e);
    if e.parent.Some? {
      var p := Find(db, inst, e.parent.value).value;
      assert Named(db', inst, e.parent.value, p) && db'.nodes[at].parent == Some(p);
    }
    assert Named(db', inst, e.ref, at) && Shows(db', db'.nodes[at], e);
  }

  lemma ApplyWellFormed(db: Db, inst: Instance, e: Entry)
    requires WellFormed(db) && Applicable(db, inst, e)
    ensures WellFormed(Apply(db, inst, e))
  {
    var at := ApplyWrites(db, inst, e);
    ApplyExtends(db, inst, e);
    ApplyUnique(db, inst, e);
    var db' := Apply(db, inst, e);
    forall id | id in db'.nodes ensures id < db'.nextId && Shaped(db'.nodes[id]) && Linked(db', db'.nodes[id]) {
      if id != at { assert Linked(db, db.nodes[id]); }
    }
  }

  // ----- a batch of upserts -----

  /** Parents are reported before their children. */
  ghost predicate Orderly(es: seq<Entry>) {
    forall i :: 0 <= i < |es| ==> EntryOk(es[i]) && (es[i].parent.Some? ==> es[i].parent.value in Refs(es[..i]))
  }

  /** The last report about `r` wins. */
  function LastEntry(es: seq<Entry>, r: NodeRef): (o: Option<Entry>)
    ensures o.Some? ==> o.value in es && o.value.ref == r
    ensures o.Some? <==> r in Refs(es)
  {
    if es == [] then None
    else
      var n := |es| - 1;
      assert es == es[..n] + [es[n]];
      if es[n].ref == r then Some(es[n]) else LastEntry(es[..n], r)
  }

  ghost predicate ReflectsAll(db: Db, inst: Instance, es: seq<Entry>) {
    forall r :: r in Refs(es) ==> Reflects(db, inst, LastEntry(es, r).value)
  }

  /** Rows outside the batch keep; rows that appear are in the batch. */
  ghost predicate OnlyTouchesAll(db: Db, db': Db, inst: Instance, refs: set<NodeRef>) {
    && (forall id :: id in db.nodes && !(db.nodes[id].instance == inst && db.nodes[id].ref in refs)
         ==> id in db'.nodes && db'.nodes[id] == db.nodes[id])
    && (forall id :: id in db'.nodes && id !in db.nodes ==> db'.nodes[id].instance == inst && db'.nodes[id].ref in refs)
  }

  lemma ReflectsStays(db: Db, inst: Instance, e: Entry, e': Entry)
    requires WellFormed(db) && Reflects(db, inst, e') && e'.ref != e.ref
    ensures Reflects(Apply(db, inst, e), inst, e')
  {
    var id :| Named(db, inst, e'.ref, id) && Shows(db, db.nodes[id], e');
    ApplyExtends(db, inst, e);
    var db' := Apply(db, inst, e);
    assert Named(db', inst, e'.ref, id) && Shows(db', db'.nodes[id], e');
  }

  lemma RefsSnoc(es: seq<Entry>)
    requires es != []
    ensures Refs(es) == Refs(es[..|es| - 1]) + {es[|es| - 1].ref}
  {
    assert es == es[..|es| - 1] + [es[|es| - 1]];
  }

  lemma OrderlyPrefix(es: seq<Entry>)
    requires Orderly(es) && es != []
    ensures Orderly(es[..|es| - 1])
  {
    assert forall i :: 0 <= i < |es| - 1 ==> es[..|es| - 1][..i] == es[..i];
  }

  lemma KnownParent(db: Db, inst: Instance, es: seq<Entry>)
    requires Orderly(es) && es != [] && ReflectsAll(db, inst, es[..|es| - 1])
    ensures Applicable(db, inst, es[|es| - 1])
  {
    var e := es[|es| - 1];
    if e.parent.Some? { assert Reflects(db, inst, LastEntry(es[..|es| - 1], e.parent.value).value); }
  }

  lemma ReflectsNext(db: Db, inst: Instance, es: seq<Entry>)
    requires WellFormed(db) && es != [] && ReflectsAll(db, inst, es[..|es| - 1]) && Applicable(db, inst, es[|es| - 1])
    ensures ReflectsAll(Apply(db, inst, es[|es| - 1]), inst, es)
  {
    var before, e := es[..|es| - 1], es[|es| - 1];
    RefsSnoc(es);
    ApplyReflects(db, inst, e);
    forall r | r in Refs(es) ensures Reflects(Apply(db, inst, e), inst, LastEntry(es, r).value) {
      if r != e.ref { ReflectsStays(db, inst, e, LastEntry(before, r).value); }
    }
  }

  /** A batch leaves a well-formed table in which every reported node shows its last report. */
  lemma {:induction false} ApplyAllReflects(db: Db, inst: Instance, es: seq<Entry>)
    requires WellFormed(db) && Orderly(es)
    ensures WellFormed(ApplyAll(db, inst, es)) && ReflectsAll(ApplyAll(db, inst, es), inst, es)
  {
    if es != [] {
      var before, e := es[..|es| - 1], es[|es| - 1];
      var db1 := ApplyAll(db, inst, before);
      OrderlyPrefix(es);
      ApplyAllReflects(db, inst, before);
      KnownParent(db1, inst, es);
      ApplyWellFormed(db1, inst, e);
      ReflectsNext(db1, inst, es);
    }
  }

  lemma ExtendsTrans(a: Db, b: Db, c: Db)
    requires Extends(a, b) && Extends(b, c)
    ensures Extends(a, c)
  {
  }

  lemma TouchesTrans(a: Db, b: Db, c: Db, inst: Instance, refs: set<NodeRef>, r: NodeRef)
    requires Extends(a, b) && OnlyTouchesAll(a, b, inst, refs) && Extends(b, c) && OnlyTouches(b, c, inst, r)
    ensures OnlyTouchesAll(a, c, inst, refs + {r})
  {
  }

  /** A batch adds rows and rewrites reported ones; identities, overrides and everything else stay. */
  lemma {:induction false} ApplyAllExtends(db: Db, inst: Instance, es: seq<Entry>)
    requires WellFormed(db) && Orderly(es)
    ensures Extends(db, ApplyAll(db, inst, es)) && OnlyTouchesAll(db, ApplyAll(db, inst, es), inst, Refs(es))
  {
    if es != [] {
      var before, e := es[..|es| - 1], es[|es| - 1];
      var db1 := ApplyAll(db, inst, before);
      OrderlyPrefix(es);
      ApplyAllReflects(db, inst, before);
      ApplyAllExtends(db, inst, before);
      ApplyExtends(db1, inst, e);
      ExtendsTrans(db, db1, Apply(db1, inst, e));
      TouchesTrans(db, db1, Apply(db1, inst, e), inst, Refs(before), e.ref);
      RefsSnoc(es);
    }
  }

  // ----- a full sync -----

  lemma HideKeeps(db: Db, inst: Instance, seen: set<NodeRef>)
    requires WellFormed(db)
    ensures WellFormed(Hide(db, inst, seen)) && Extends(db, Hide(db, inst, seen))
  {
    HideRows(db, inst, seen);
  }

  lemma HideRows(db: Db, inst: Instance, seen: set<NodeRef>)
    requires RowsOk(db)
    ensures RowsOk(Hide(db, inst, seen))
  {
    var db' := Hide(db, inst, seen);
    forall id | id in db'.nodes ensures id < db'.nextId && Shaped(db'.nodes[id]) && Linked(db', db'.nodes[id]) {
      assert Shaped(db.nodes[id]) && Linked(db, db.nodes[id]);
    }
  }

  /**
   After a sync a node of the instance is visible exactly when the catalog reports it, with what
   was last reported; overrides, ids and other instances are untouched.
   */
  lemma SyncMirrors(db: Db, inst: Instance, es: seq<Entry>)
    requires WellFormed(db) && Orderly(es)
    ensures var db' := Sync(db, inst, es);
            && WellFormed(db') && Extends(db, db')
            && (forall id :: id in db'.nodes && db'.nodes[id].instance == inst
                 ==> (!db'.nodes[id].hidden <==> db'.nodes[id].ref in Refs(es)))
            && (forall id :: id in db.nodes && db.nodes[id].instance != inst
                 ==> id in db'.nodes && db'.nodes[id] == db.nodes[id])
            && (forall id :: id in db.nodes && db.nodes[id].instance == inst && db.nodes[id].ref !in Refs(es)
                  ==> id in db'.nodes && db'.nodes[id] == db.nodes[id].(hidden := true))
            && (forall id :: id in db'.nodes && id !in db.nodes
                 ==> db'.nodes[id].instance == inst && db'.nodes[id].ref in Refs(es))
            && ReflectsAll(db', inst, es)
  {
    var db1 := ApplyAll(db, inst, es);
    ApplyAllReflects(db, inst, es);
    ApplyAllExtends(db, inst, es);
    HideKeeps(db1, inst, Refs(es));
    ExtendsTrans(db, db1, Sync(db, inst, es));
    VisibleIffReported(db1, inst, es);
    HideReflects(db1, inst, es);
  }

  lemma VisibleIffReported(db: Db, inst: Instance, es: seq<Entry>)
    requires WellFormed(db) && ReflectsAll(db, inst, es)
    ensures var db' := Hide(db, inst, Refs(es));
            forall id :: id in db'.nodes && db'.nodes[id].instance == inst
                ==> (!db'.nodes[id].hidden <==> db'.nodes[id].ref in Refs(es))
  {
    forall id | id in db.nodes && db.nodes[id].instance == inst
        && db.nodes[id].ref in Refs(es) ensures !db.nodes[id].hidden {
      assert Reflects(db, inst, LastEntry(es, db.nodes[id].ref).value);
    }
  }

  lemma HideReflects(db: Db, inst: Instance, es: seq<Entry>)
    requires WellFormed(db) && ReflectsAll(db, inst, es)
    ensures ReflectsAll(Hide(db, inst, Refs(es)), inst, es)
  {
    var db' := Hide(db, inst, Refs(es));
    forall r | r in Refs(es) ensures Reflects(db', inst, LastEntry(es, r).value) {
      var e := LastEntry(es, r).value;
      var id :| Named(db, inst, e.ref, id) && Shows(db, db.nodes[id], e);
      assert Named(db', inst, e.ref, id) && Shows(db', db'.nodes[id], e);
    }
  }
}
