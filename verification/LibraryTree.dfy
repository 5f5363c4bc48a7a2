/**
 The tree a library page shows: every visible series, season and episode, each exactly once.

 The rows are grouped by parent in one pass, hidden rows left out; then series are listed by
 title, seasons and episodes by number. "Exactly once" is an equality of multisets, built up
 from episodes to seasons to series, so nothing visible is lost and nothing listed twice.
 What it needs of the table is what every run of syncs, webhooks and toggles keeps.
 */
module LibraryTree {
  import opened Common
  import opened LibraryModel
  import opened LibrarySync
  import opened LibraryTracking
  import opened LibraryWalk
  import opened LibraryRuns
  import opened Text

  datatype TreeEpisode = TreeEpisode(id: Id, number: int, title: Title, hasFile: bool, tracked: bool)
  datatype TreeSeason = TreeSeason(id: Id, number: int, tracked: bool, episodes: seq<TreeEpisode>)
  datatype TreeSeries = TreeSeries(id: Id, title: Title, tracked: bool, seasons: seq<TreeSeason>)

  // ----- what a tree lists -----

  function EpisodeIds(es: seq<TreeEpisode>): multiset<Id> {
    if es == [] then multiset{} else EpisodeIds(es[..|es| - 1]) + multiset{es[|es| - 1].id}
  }

  function SeasonIds(ss: seq<TreeSeason>): multiset<Id> {
    if ss == [] then multiset{}
    else SeasonIds(ss[..|ss| - 1]) + multiset{ss[|ss| - 1].id} + EpisodeIds(ss[|ss| - 1].episodes)
  }

  function Listed(tree: seq<TreeSeries>): multiset<Id> {
    if tree == [] then multiset{}
    else Listed(tree[..|tree| - 1]) + multiset{tree[|tree| - 1].id} + SeasonIds(tree[|tree| - 1].seasons)
  }

  // ----- sorting -----

  ghost predicate TotalPreorder(less: (Id, Id) -> bool) {
    && (forall a, b :: less(a, b) ==> !less(b, a))
    && (forall a, b, c :: !less(b, a) && !less(c, b) ==> !less(c, a))
  }

  ghost predicate SortedBy(ids: seq<Id>, less: (Id, Id) -> bool) {
    forall i, j :: 0 <= i < j < |ids| ==> !less(ids[j], ids[i])
  }

  ghost predicate Earlier(ids: seq<Id>, a: Id, b: Id) {
    exists i, j :: 0 <= i < j < |ids| && ids[i] == a && ids[j] == b
  }

  /** What ties in `less` keeps the order it had in `ids`. */
  ghost predicate Stable(ids: seq<Id>, r: seq<Id>, less: (Id, Id) -> bool) {
    forall i, j :: 0 <= i < j < |r| ==> less(r[i], r[j]) || Earlier(ids, r[i], r[j])
  }

  /** Python's `sorted` with a key: a stable insertion. */
  method SortIds(ids: seq<Id>, less: (Id, Id) -> bool) returns (r: seq<Id>)
    requires TotalPreorder(less) && Distinct(ids)
    ensures Distinct(r) && (forall id :: id in r <==> id in ids) && SortedBy(r, less) && Stable(ids, r, less)
  {
    r := [];
    for n := 0 to |ids|
      invariant Distinct(r) && (forall id :: id in r <==> id in ids[..n]) && SortedBy(r, less) && Stable(ids, r, less)
    {
      var x := ids[n];
      assert x !in ids[..n] && ids[..n + 1] == ids[..n] + [x];
      EarlierThan(ids, n, r);
      var k: nat := |r|;
      while k > 0 && less(x, r[k - 1])
        invariant 0 <= k <= |r| && forall i :: k <= i < |r| ==> less(x, r[i])
      {
        k := k - 1;
      }
      InsertSorted(r, x, k, less);
      InsertStable(ids, r, x, k, less);
      r := r[..k] + [x] + r[k..];
    }
    assert ids[..|ids|] == ids;
  }

  lemma InsertSorted(r: seq<Id>, x: Id, k: nat, less: (Id, Id) -> bool)
    requires TotalPreorder(less) && Distinct(r) && SortedBy(r, less) && x !in r && k <= |r|
    requires (forall i :: k <= i < |r| ==> less(x, r[i])) && (k > 0 ==> !less(x, r[k - 1]))
    ensures var s := r[..k] + [x] + r[k..];
            Distinct(s) && SortedBy(s, less) && forall id :: id in s <==> id in r || id == x
  {
    InsertAt(r, x, k);
    var s := r[..k] + [x] + r[k..];
    forall i | 0 <= i < k ensures !less(x, r[i]) { assert i == k - 1 || !less(r[k - 1], r[i]); }
    forall i, j | 0 <= i < j < |s| ensures !less(s[j], s[i]) && s[i] != s[j] {
      if i == k { assert less(x, r[j - 1]); }
      else if j != k { assert !less(r[if j < k then j else j - 1], r[if i < k then i else i - 1]); }
    }
  }

  lemma EarlierThan(ids: seq<Id>, n: nat, r: seq<Id>)
    requires n < |ids| && forall id :: id in r ==> id in ids[..n]
    ensures forall id :: id in r ==> Earlier(ids, id, ids[n])
  {
    forall id | id in r ensures Earlier(ids, id, ids[n]) {
      var i :| 0 <= i < n && ids[..n][i] == id;
      assert ids[i] == id;
    }
  }

  lemma InsertStable(ids: seq<Id>, r: seq<Id>, x: Id, k: nat, less: (Id, Id) -> bool)
    requires Stable(ids, r, less) && k <= |r| && forall id :: id in r ==> Earlier(ids, id, x)
    requires forall i :: k <= i < |r| ==> less(x, r[i])
    ensures Stable(ids, r[..k] + [x] + r[k..], less)
  {
    InsertAt(r, x, k);
    var s := r[..k] + [x] + r[k..];
    forall i, j | 0 <= i < j < |s| ensures less(s[i], s[j]) || Earlier(ids, s[i], s[j]) {
      if i == k { assert less(x, r[j - 1]); }
      else if j == k { assert r[i] in r; }
      else { assert s[i] == r[if i < k then i else i - 1] && s[j] == r[if j < k then j else j - 1]; }
    }
  }

  lemma EarlierRises(ids: seq<Id>, a: Id, b: Id)
    requires Rising(ids) && Earlier(ids, a, b)
    ensures a < b
  {
  }

  // ----- the dicts -----

  predicate Showing(n: Node, k: Kind) { !n.hidden && KindOf(n.ref) == k }

  /** The visible rows of kind `k`, by parent, each list in row order. */
  ghost predicate Groups(view: Nodes, k: Kind, groups: Children) {
    KidsRise(groups) && forall p ::
        Distinct(Kids(groups, p)) && forall c :: c in Kids(groups, p) <==> ChildOf(view, c, p) && Showing(view[c], k)
  }

  method GroupByParent(view: Nodes, ids: seq<Id>, k: Kind) returns (groups: Children)
    requires Rising(ids) && forall id :: id in ids <==> id in view
    ensures Groups(view, k, groups)
  {
    var chosen := [];
    for i := 0 to |ids|
      invariant Rising(chosen) && forall id :: id in chosen <==> id in ids[..i] && Showing(view[id], k)
    {
      RisingPrefix(ids, i);
      assert ids[i] in ids && ids[..i + 1] == ids[..i] + [ids[i]];
      assert forall j :: 0 <= j < |chosen| ==> chosen[j] in chosen;
      if Showing(view[ids[i]], k) { chosen := chosen + [ids[i]]; }
    }
    assert ids[..|ids|] == ids;
    groups := ChildrenByParent(view, chosen);
    forall p: Id ensures Distinct(Kids(groups, p))
        && forall c :: c in Kids(groups, p) <==> ChildOf(view, c, p) && Showing(view[c], k) {
      assert Distinct(Kids(groups, p));
      forall c ensures c in Kids(groups, p) <==> ChildOf(view, c, p) && Showing(view[c], k) {
        assert c in Kids(groups, p) <==> c in chosen && ChildOf(view, c, p);
      }
    }
  }

  // ----- building -----

  /** Where a node is listed: under which series. */
  function Top(view: Nodes, id: Id): Option<Id>
    requires id in view
  {
    var n := view[id];
    match n.ref
    case SeriesRef(_) => Some(id)
    case SeasonRef(_, _) => n.parent
    case EpisodeRef(_) => if n.parent.Some? && n.parent.value in view then view[n.parent.value].parent else None
    case MovieRef(_) => None
  }

  ghost function EpisodesOf(view: Nodes, season: Id): set<Id> {
    set id | id in view && Showing(view[id], Episode) && view[id].parent == Some(season)
  }

  /** Some seasons of a series with their visible episodes. */
  ghost function SeasonRegion(view: Nodes, seasons: set<Id>): set<Id> {
    set id | id in view && !view[id].hidden && (id in seasons
        || (view[id].ref.EpisodeRef? && view[id].parent.Some? && view[id].parent.value in seasons))
  }

  /** Some series with everything visible below them. */
  ghost function Region(view: Nodes, series: set<Id>): set<Id> {
    set id | id in view && !view[id].hidden && Top(view, id).Some? && Top(view, id).value in series
  }

  /** What the sync laws give about one instance's rows. */
  ghost predicate Showable(view: Nodes) {
    && Forest(view)
    && (forall id :: id in view && view[id].ref.SeasonRef? ==> view[id].season.Some? && view[id].parent.Some?)
    && (forall id :: id in view && view[id].ref.EpisodeRef? ==> view[id].episode.Some?)
    && (forall id :: id in view && !view[id].hidden && view[id].ref.SeasonRef? ==>
          view[id].parent.value in view && !view[view[id].parent.value].hidden
              && view[view[id].parent.value].ref.SeriesRef?)
    && (forall id :: id in view && !view[id].hidden && view[id].ref.EpisodeRef? ==>
          view[id].parent.Some? && view[id].parent.value in view && !view[view[id].parent.value].hidden
              && view[view[id].parent.value].ref.SeasonRef?)
  }

  /** An entry shows its row: number, title, file flag, effective tracked flag. */
  ghost predicate EpisodeShown(view: Nodes, e: TreeEpisode, default: bool)
    requires Forest(view)
  {
    && e.id in view && view[e.id].episode == Some(e.number) && view[e.id].title == e.title
         && view[e.id].hasFile == e.hasFile
    && e.tracked == Resolved(view, e.id, default)
  }

  method ShowEpisode(view: Nodes, id: Id, default: bool) returns (e: TreeEpisode)
    requires Forest(view) && id in view && view[id].episode.Some?
    ensures EpisodeShown(view, e, default) && e.id == id
  {
    var tracked := ResolveTracked(id, view, default);
    e := TreeEpisode(id, view[id].episode.value, view[id].title, view[id].hasFile, tracked);
  }

  ghost predicate EpisodesShown(view: Nodes, es: seq<TreeEpisode>, ids: seq<Id>, default: bool)
    requires Forest(view)
  {
    |es| == |ids| && forall j :: 0 <= j < |es| ==> es[j].id == ids[j] && EpisodeShown(view, es[j], default)
  }

  lemma {:induction false} ShownIds(view: Nodes, es: seq<TreeEpisode>, ids: seq<Id>, default: bool)
    requires Forest(view) && EpisodesShown(view, es, ids, default)
    ensures EpisodeIds(es) == multiset(ids)
  {
    if es != [] {
      var n := |es| - 1;
      ShownIds(view, es[..n], ids[..n], default);
      assert ids == ids[..n] + [ids[n]];
    }
  }

  method ShowEpisodes(view: Nodes, ids: seq<Id>, default: bool) returns (out: seq<TreeEpisode>)
    requires Forest(view) && forall id :: id in ids ==> id in view && view[id].episode.Some?
    ensures EpisodesShown(view, out, ids, default)
  {
    out := [];
    for i := 0 to |ids|
      invariant EpisodesShown(view, out, ids[..i], default)
    {
      assert ids[i] in ids;
      var e := ShowEpisode(view, ids[i], default);
      out := out + [e];
    }
    assert ids[..|ids|] == ids;
  }

  function EpisodeNumber(view: Nodes, id: Id): int { if id in view then view[id].episode.GetOr(0) else 0 }

  /** By number, equal numbers in row order. */
  ghost predicate EpisodesInOrder(es: seq<TreeEpisode>) {
    forall i, j :: 0 <= i < j < |es| ==>
        es[i].number < es[j].number || (es[i].number == es[j].number && es[i].id < es[j].id)
  }

  method BuildEpisodes(view: Nodes, kids: seq<Id>, season: Id, default: bool) returns (out: seq<TreeEpisode>)
    requires Forest(view) && Rising(kids) && forall c ::
            c in kids <==> ChildOf(view, c, season) && Showing(view[c], Episode)
    requires forall id :: id in kids ==> id in view && view[id].episode.Some?
    ensures EpisodeIds(out) == multiset(EpisodesOf(view, season))
    ensures (forall j :: 0 <= j < |out| ==> EpisodeShown(view, out[j], default)) && EpisodesInOrder(out)
  {
    var sorted := SortIds(kids, (a: Id, b: Id) => EpisodeNumber(view, a) < EpisodeNumber(view, b));
    out := ShowEpisodes(view, sorted, default);
    ShownIds(view, out, sorted, default);
    DistinctMultiset(sorted, EpisodesOf(view, season));
    forall i, j | 0 <= i < j < |out|
      ensures out[i].number < out[j].number || (out[i].number == out[j].number && out[i].id < out[j].id)
    {
      assert EpisodeShown(view, out[i], default) && EpisodeShown(view, out[j], default);
      assert !(EpisodeNumber(view, sorted[j]) < EpisodeNumber(view, sorted[i]));
      if Earlier(kids, sorted[i], sorted[j]) { EarlierRises(kids, sorted[i], sorted[j]); }
    }
  }

  /** A list without repetitions has the multiset of its set. */
  lemma {:induction false} DistinctMultiset(s: seq<Id>, ids: set<Id>)
    requires Distinct(s) && forall id :: id in s <==> id in ids
    ensures multiset(s) == multiset(ids)
  {
    if s == [] {
      assert ids == {};
    } else {
      var n := |s| - 1;
      assert s == s[..n] + [s[n]];
      assert s[n] !in s[..n];
      DistinctMultiset(s[..n], ids - {s[n]});
    }
  }

  // ----- seasons -----

  ghost predicate SeasonShown(view: Nodes, s: TreeSeason, default: bool)
    requires Forest(view)
  {
    && s.id in view && view[s.id].season == Some(s.number) && s.tracked == Resolved(view, s.id, default)
    && EpisodeIds(s.episodes) == multiset(EpisodesOf(view, s.id))
    && (forall j :: 0 <= j < |s.episodes| ==> EpisodeShown(view, s.episodes[j], default))
    && EpisodesInOrder(s.episodes)
  }

  /** The dict of visible episodes by season, as the season builder needs it. */
  ghost predicate EpisodeGroups(view: Nodes, groups: Children) {
    Groups(view, Episode, groups) && forall id :: id in view && view[id].ref.EpisodeRef? ==> view[id].episode.Some?
  }

  method ShowSeason(view: Nodes, id: Id, groups: Children, default: bool) returns (s: TreeSeason)
    requires Forest(view) && EpisodeGroups(view, groups) && id in view && view[id].season.Some?
    ensures SeasonShown(view, s, default) && s.id == id
  {
    assert Rising(Kids(groups, id));
    var episodes := BuildEpisodes(view, Kids(groups, id), id, default);
    var tracked := ResolveTracked(id, view, default);
    s := TreeSeason(id, view[id].season.value, tracked, episodes);
  }

  ghost predicate SeasonsShown(view: Nodes, ss: seq<TreeSeason>, ids: seq<Id>, default: bool)
    requires Forest(view)
  {
    |ss| == |ids| && forall j :: 0 <= j < |ss| ==> ss[j].id == ids[j] && SeasonShown(view, ss[j], default)
  }

  method ShowSeasons(view: Nodes, ids: seq<Id>, groups: Children, default: bool) returns (out: seq<TreeSeason>)
    requires Forest(view) && EpisodeGroups(view, groups)
            && forall id :: id in ids ==> id in view && view[id].season.Some?
    ensures SeasonsShown(view, out, ids, default)
  {
    out := [];
    for i := 0 to |ids|
      invariant SeasonsShown(view, out, ids[..i], default)
    {
      assert ids[i] in ids;
      var s := ShowSeason(view, ids[i], groups, default);
      out := out + [s];
    }
    assert ids[..|ids|] == ids;
  }

  lemma SeasonRegionNext(view: Nodes, seasons: set<Id>, x: Id)
    requires forall id :: id in seasons + {x} ==> id in view && Showing(view[id], Season)
    requires x !in seasons
    ensures multiset(SeasonRegion(view, seasons + {x})) == multiset(SeasonRegion(view, seasons)) + multiset{x}
            + multiset(EpisodesOf(view, x))
  {
    var a, b := SeasonRegion(view, seasons), EpisodesOf(view, x);
    assert SeasonRegion(view, seasons + {x}) == a + {x} + b;
    assert a !! {x} && a !! b && x !in b;
  }

  /** Each entry lists its row and that row's episodes. */
  ghost predicate SeasonsList(view: Nodes, ss: seq<TreeSeason>, ids: seq<Id>) {
    |ss| == |ids| && forall j :: 0 <= j < |ss| ==>
        ss[j].id == ids[j] && EpisodeIds(ss[j].episodes) == multiset(EpisodesOf(view, ids[j]))
  }

  lemma {:induction false} SeasonsCover(view: Nodes, ss: seq<TreeSeason>, ids: seq<Id>, seasons: set<Id>)
    requires SeasonsList(view, ss, ids) && Distinct(ids) && forall id :: id in ids <==> id in seasons
    requires forall id :: id in seasons ==> id in view && Showing(view[id], Season)
    ensures SeasonIds(ss) == multiset(SeasonRegion(view, seasons))
  {
    if ss == [] {
      NoSeasons(view, ids, seasons);
    } else {
      var n := |ss| - 1;
      var before, x := seasons - {ids[n]}, ids[n];
      DropLast(ids, seasons);
      SeasonsListInit(view, ss, ids);
      SeasonsCover(view, ss[..n], ids[..n], before);
      SeasonsCoverNext(view, ss, before, x, seasons);
    }
  }

  lemma NoSeasons(view: Nodes, ids: seq<Id>, seasons: set<Id>)
    requires ids == [] && forall id :: id in ids <==> id in seasons
    ensures SeasonRegion(view, seasons) == {}
    ensures forall id :: id !in seasons
  {
    assert seasons == {};
    forall id ensures id !in SeasonRegion(view, seasons) {
      assert id in view && view[id].parent.Some? ==> view[id].parent.value !in seasons;
    }
  }

  lemma SeasonsListInit(view: Nodes, ss: seq<TreeSeason>, ids: seq<Id>)
    requires SeasonsList(view, ss, ids) && ss != []
    ensures var n := |ss| - 1;
            && SeasonsList(view, ss[..n], ids[..n])
            && ss[n].id == ids[n] && EpisodeIds(ss[n].episodes) == multiset(EpisodesOf(view, ids[n]))
  {
  }

  lemma SeasonsCoverNext(view: Nodes, ss: seq<TreeSeason>, before: set<Id>, x: Id, seasons: set<Id>)
    requires ss != [] && SeasonIds(ss[..|ss| - 1]) == multiset(SeasonRegion(view, before))
    requires seasons == before + {x} && x !in before
    requires forall id :: id in seasons ==> id in view && Showing(view[id], Season)
    requires var s := ss[|ss| - 1]; s.id == x && EpisodeIds(s.episodes) == multiset(EpisodesOf(view, x))
    ensures SeasonIds(ss) == multiset(SeasonRegion(view, seasons))
  {
    SeasonRegionNext(view, before, x);
  }

  lemma ShownSeasonsList(view: Nodes, ss: seq<TreeSeason>, ids: seq<Id>, default: bool)
    requires Forest(view) && SeasonsShown(view, ss, ids, default)
    ensures SeasonsList(view, ss, ids)
  {
    forall j | 0 <= j < |ss| ensures EpisodeIds(ss[j].episodes) == multiset(EpisodesOf(view, ids[j])) {
      assert SeasonShown(view, ss[j], default);
    }
  }

  ghost function SeasonsOf(view: Nodes, series: Id): set<Id> {
    set id | id in view && Showing(view[id], Season) && view[id].parent == Some(series)
  }

  function SeasonOrder(view: Nodes, id: Id): int { if id in view then view[id].season.GetOr(0) else 0 }

  /** By number, equal numbers in row order. */
  ghost predicate SeasonsInOrder(ss: seq<TreeSeason>) {
    forall i, j :: 0 <= i < j < |ss| ==>
        ss[i].number < ss[j].number || (ss[i].number == ss[j].number && ss[i].id < ss[j].id)
  }

  method BuildSeasons(view: Nodes, kids: seq<Id>, groups: Children, series: Id, default: bool)
    returns (out: seq<TreeSeason>)
    requires Forest(view) && EpisodeGroups(view, groups)
    requires Rising(kids) && forall c :: c in kids <==> ChildOf(view, c, series) && Showing(view[c], Season)
    requires forall id :: id in kids ==> id in view && view[id].season.Some?
    ensures SeasonIds(out) == multiset(SeasonRegion(view, SeasonsOf(view, series)))
    ensures forall j :: 0 <= j < |out| ==> SeasonShown(view, out[j], default)
    ensures SeasonsInOrder(out)
  {
    var sorted := SortIds(kids, (a: Id, b: Id) => SeasonOrder(view, a) < SeasonOrder(view, b));
    out := ShowSeasons(view, sorted, groups, default);
    SeasonsListed(view, kids, sorted, out, series, default);
    SeasonsOrdered(view, kids, sorted, out, default);
  }

  lemma SeasonsListed(view: Nodes, kids: seq<Id>, sorted: seq<Id>, out: seq<TreeSeason>, series: Id, default: bool)
    requires Forest(view) && SeasonsShown(view, out, sorted, default) && Distinct(sorted)
    requires forall id :: id in sorted <==> id in kids
    requires forall c :: c in kids <==> ChildOf(view, c, series) && Showing(view[c], Season)
    ensures SeasonIds(out) == multiset(SeasonRegion(view, SeasonsOf(view, series)))
  {
    ShownSeasonsList(view, out, sorted, default);
    SeasonsCover(view, out, sorted, SeasonsOf(view, series));
  }

  lemma SeasonsOrdered(view: Nodes, kids: seq<Id>, sorted: seq<Id>, out: seq<TreeSeason>, default: bool)
    requires Forest(view) && SeasonsShown(view, out, sorted, default) && Rising(kids)
    requires forall i, j :: 0 <= i < j < |sorted| ==> SeasonOrder(view, sorted[i]) <= SeasonOrder(view, sorted[j])
    requires forall i, j :: 0 <= i < j < |sorted| ==>
               SeasonOrder(view, sorted[i]) < SeasonOrder(view, sorted[j]) || Earlier(kids, sorted[i], sorted[j])
    ensures SeasonsInOrder(out)
  {
    forall i, j | 0 <= i < j < |out|
      ensures out[i].number < out[j].number || (out[i].number == out[j].number && out[i].id < out[j].id)
    {
      assert SeasonShown(view, out[i], default) && SeasonShown(view, out[j], default);
      if Earlier(kids, sorted[i], sorted[j]) { EarlierRises(kids, sorted[i], sorted[j]); }
    }
  }

  // ----- series -----

  ghost predicate SeriesShown(view: Nodes, s: TreeSeries, default: bool)
    requires Forest(view)
  {
    && s.id in view && view[s.id].title == s.title && s.tracked == Resolved(view, s.id, default)
    && SeasonIds(s.seasons) == multiset(SeasonRegion(view, SeasonsOf(view, s.id)))
    && (forall j :: 0 <= j < |s.seasons| ==> SeasonShown(view, s.seasons[j], default))
    && SeasonsInOrder(s.seasons)
  }

  ghost predicate AllShown(view: Nodes, tree: seq<TreeSeries>, ids: seq<Id>, default: bool)
    requires Forest(view)
  {
    |tree| == |ids| && forall j :: 0 <= j < |tree| ==> tree[j].id == ids[j] && SeriesShown(view, tree[j], default)
  }

  ghost predicate SeasonGroups(view: Nodes, groups: Children) {
    Groups(view, Season, groups) && forall id :: id in view && view[id].ref.SeasonRef? ==> view[id].season.Some?
  }

  method ShowSeries(view: Nodes, id: Id, seasonGroups: Children, episodeGroups: Children, default: bool)
    returns (s: TreeSeries)
    requires Forest(view) && SeasonGroups(view, seasonGroups) && EpisodeGroups(view, episodeGroups) && id in view
    ensures SeriesShown(view, s, default) && s.id == id
  {
    assert Rising(Kids(seasonGroups, id));
    var seasons := BuildSeasons(view, Kids(seasonGroups, id), episodeGroups, id, default);
    var tracked := ResolveTracked(id, view, default);
    s := TreeSeries(id, view[id].title, tracked, seasons);
  }

  method ShowAll(view: Nodes, ids: seq<Id>, seasonGroups: Children, episodeGroups: Children, default: bool)
    returns (tree: seq<TreeSeries>)
    requires Forest(view) && SeasonGroups(view, seasonGroups) && EpisodeGroups(view, episodeGroups)
            && forall id :: id in ids ==> id in view
    ensures AllShown(view, tree, ids, default)
  {
    tree := [];
    for i := 0 to |ids|
      invariant AllShown(view, tree, ids[..i], default)
    {
      assert ids[i] in ids;
      var s := ShowSeries(view, ids[i], seasonGroups, episodeGroups, default);
      tree := tree + [s];
    }
    assert ids[..|ids|] == ids;
  }

  lemma RegionNext(view: Nodes, series: set<Id>, x: Id)
    requires Showable(view) && (forall id :: id in series + {x} ==> id in view && Showing(view[id], Series))
            && x !in series
    ensures multiset(Region(view, series + {x}))
         == multiset(Region(view, series)) + multiset{x} + multiset(SeasonRegion(view, SeasonsOf(view, x)))
  {
    var a, b := Region(view, series), SeasonRegion(view, SeasonsOf(view, x));
    forall id ensures id in Region(view, series + {x}) <==> id in a + {x} + b { RegionSplit(view, series, x, id); }
    forall id ensures !(id in a && id in {x} + b) && !(id == x && id in b) { RegionSplit(view, series, x, id); }
    assert Region(view, series + {x}) == a + {x} + b;
    assert a !! {x} && a !! b && x !in b;
  }

  lemma RegionSplit(view: Nodes, series: set<Id>, x: Id, id: Id)
    requires Showable(view) && (forall s :: s in series + {x} ==> s in view && Showing(view[s], Series)) && x !in series
    ensures id in Region(view, {x}) <==> id == x || id in SeasonRegion(view, SeasonsOf(view, x))
    ensures id in Region(view, series + {x}) <==> id in Region(view, series) || id in Region(view, {x})
    ensures !(id in Region(view, series) && id in Region(view, {x})) && x !in SeasonRegion(view, SeasonsOf(view, x))
  {
  }

  ghost predicate SeriesList(view: Nodes, tree: seq<TreeSeries>, ids: seq<Id>) {
    |tree| == |ids| && forall j :: 0 <= j < |tree| ==>
      tree[j].id == ids[j] && SeasonIds(tree[j].seasons) == multiset(SeasonRegion(view, SeasonsOf(view, ids[j])))
  }

  lemma {:induction false} SeriesCover(view: Nodes, tree: seq<TreeSeries>, ids: seq<Id>, series: set<Id>)
    requires Showable(view) && SeriesList(view, tree, ids) && Distinct(ids) && forall id :: id in ids <==> id in series
    requires forall id :: id in series ==> id in view && Showing(view[id], Series)
    ensures Listed(tree) == multiset(Region(view, series))
  {
    if tree == [] {
      NoSeries(view, ids, series);
    } else {
      var n := |tree| - 1;
      var before, x := series - {ids[n]}, ids[n];
      DropLast(ids, series);
      SeriesListInit(view, tree, ids);
      SeriesCover(view, tree[..n], ids[..n], before);
      SeriesCoverNext(view, tree, before, x, series);
    }
  }

  lemma SeriesListInit(view: Nodes, tree: seq<TreeSeries>, ids: seq<Id>)
    requires SeriesList(view, tree, ids) && tree != []
    ensures var n := |tree| - 1;
            && SeriesList(view, tree[..n], ids[..n])
            && tree[n].id == ids[n] && SeasonIds(tree[n].seasons)
                 == multiset(SeasonRegion(view, SeasonsOf(view, ids[n])))
  {
  }

  lemma SeriesCoverNext(view: Nodes, tree: seq<TreeSeries>, before: set<Id>, x: Id, series: set<Id>)
    requires tree != [] && Listed(tree[..|tree| - 1]) == multiset(Region(view, before))
    requires Showable(view) && series == before + {x} && x !in before
    requires forall id :: id in series ==> id in view && Showing(view[id], Series)
    requires var s := tree[|tree| - 1];
            s.id == x && SeasonIds(s.seasons) == multiset(SeasonRegion(view, SeasonsOf(view, x)))
    ensures Listed(tree) == multiset(Region(view, series))
  {
    RegionNext(view, before, x);
  }

  lemma NoSeries(view: Nodes, ids: seq<Id>, series: set<Id>)
    requires Showable(view) && ids == [] && forall id :: id in ids <==> id in series
    ensures Region(view, series) == {}
  {
    assert series == {};
  }

  lemma DropLast(ids: seq<Id>, series: set<Id>)
    requires ids != [] && Distinct(ids) && forall id :: id in ids <==> id in series
    ensures var n := |ids| - 1;
            && Distinct(ids[..n]) && ids[n] in series && ids[n] !in ids[..n]
            && series == (series - {ids[n]}) + {ids[n]}
            && forall id :: id in ids[..n] <==> id in series - {ids[n]}
  {
    var n := |ids| - 1;
    assert ids == ids[..n] + [ids[n]] && ids[n] !in ids[..n];
  }

  function TitleText(view: Nodes, id: Id): string { if id in view then Shown(view[id].title) else "" }

  /** Series are shown by title, then id. */
  predicate SeriesBefore(view: Nodes, a: Id, b: Id) {
    LexLess(TitleText(view, a), TitleText(view, b)) || (TitleText(view, a) == TitleText(view, b) && a < b)
  }

  lemma SeriesOrder(view: Nodes, less: (Id, Id) -> bool)
    requires forall a, b :: less(a, b) <==> SeriesBefore(view, a, b)
    ensures TotalPreorder(less)
  {
    forall a, b, c ensures (less(a, b) ==> !less(b, a)) && (!less(b, a) && !less(c, b) ==> !less(c, a)) {
      var x, y, z := TitleText(view, a), TitleText(view, b), TitleText(view, c);
      LexOrder(x, y, x);
      LexOrder(x, y, z);
      LexOrder(y, z, x);
      LexOrder(z, x, y);
      LexOrder(z, y, x);
      LexOrder(y, x, y);
    }
  }

  ghost function VisibleSeries(view: Nodes): set<Id> { set id | id in view && Showing(view[id], Series) }

  /** Everything a tree page can show. */
  ghost function VisibleNodes(view: Nodes): set<Id>
  {
    set id | id in view && !view[id].hidden && !view[id].ref.MovieRef?
  }

  lemma RegionIsAll(view: Nodes)
    requires Showable(view)
    ensures Region(view, VisibleSeries(view)) == VisibleNodes(view)
  {
  }

  lemma MirrorIsShowable(db: Db, inst: Instance)
    requires Mirror(db)
    ensures Showable(View(db.nodes, inst))
  {
    WellFormedIsForest(db);
    ViewForest(db.nodes, inst);
    forall id | id in View(db.nodes, inst)
      ensures Shaped(db.nodes[id]) && Linked(db, db.nodes[id])
    {}
  }

  /** `build_tree` over one instance's rows, listed by id. */
  method BuildTree(view: Nodes, ids: seq<Id>, default: bool) returns (tree: seq<TreeSeries>)
    requires Showable(view) && Rising(ids) && forall id :: id in ids <==> id in view
    ensures Listed(tree) == multiset(VisibleNodes(view))
    ensures forall j :: 0 <= j < |tree| ==> SeriesShown(view, tree[j], default)
    ensures forall i, j :: 0 <= i < j < |tree| ==>
              LexLess(Shown(tree[i].title), Shown(tree[j].title))
              || (Shown(tree[i].title) == Shown(tree[j].title) && tree[i].id < tree[j].id)
  {
    var seasonGroups := GroupByParent(view, ids, Season);
    var episodeGroups := GroupByParent(view, ids, Episode);
    var series := SeriesNodes(view, ids);
    var less := (a: Id, b: Id) => SeriesBefore(view, a, b);
    SeriesOrder(view, less);
    var sorted := SortIds(series, less);
    tree := ShowAll(view, sorted, seasonGroups, episodeGroups, default);
    ShownSeriesList(view, tree, sorted, default);
    SeriesCover(view, tree, sorted, VisibleSeries(view));
    RegionIsAll(view);
    SeriesOrdered(view, tree, sorted, default);
  }

  lemma SeriesOrdered(view: Nodes, tree: seq<TreeSeries>, sorted: seq<Id>, default: bool)
    requires Forest(view) && AllShown(view, tree, sorted, default) && Distinct(sorted)
    requires forall i, j :: 0 <= i < j < |sorted| ==> !SeriesBefore(view, sorted[j], sorted[i])
    ensures forall i, j :: 0 <= i < j < |tree| ==>
              LexLess(Shown(tree[i].title), Shown(tree[j].title))
              || (Shown(tree[i].title) == Shown(tree[j].title) && tree[i].id < tree[j].id)
  {
    forall i, j | 0 <= i < j < |tree|
      ensures LexLess(Shown(tree[i].title), Shown(tree[j].title))
              || (Shown(tree[i].title) == Shown(tree[j].title) && tree[i].id < tree[j].id)
    {
      assert SeriesShown(view, tree[i], default) && SeriesShown(view, tree[j], default);
      assert !SeriesBefore(view, sorted[j], sorted[i]);
      LexOrder(Shown(tree[i].title), Shown(tree[j].title), "");
    }
  }

  method SeriesNodes(view: Nodes, ids: seq<Id>) returns (series: seq<Id>)
    requires Distinct(ids) && forall id :: id in ids <==> id in view
    ensures Distinct(series) && forall id :: id in series <==> id in VisibleSeries(view)
  {
    series := [];
    for i := 0 to |ids|
      invariant Distinct(series) && forall id :: id in series <==> id in ids[..i] && Showing(view[id], Series)
    {
      assert ids[i] in ids && ids[i] !in ids[..i] && ids[..i + 1] == ids[..i] + [ids[i]];
      if Showing(view[ids[i]], Series) {
        DistinctAppend(series, ids[i]);
        series := series + [ids[i]];
      }
    }
    assert ids[..|ids|] == ids;
  }

  lemma ShownSeriesList(view: Nodes, tree: seq<TreeSeries>, ids: seq<Id>, default: bool)
    requires Forest(view) && AllShown(view, tree, ids, default)
    ensures SeriesList(view, tree, ids)
  {
    forall j | 0 <= j < |tree| ensures SeasonIds(tree[j].seasons)
        == multiset(SeasonRegion(view, SeasonsOf(view, ids[j]))) {
      assert SeriesShown(view, tree[j], default);
    }
  }

  /** In any run of fetched syncs, imports and toggles, the tree can be built. */
  lemma TreeAfterAnyRun(ops: seq<Op>, inst: Instance)
    requires forall op :: op in ops ==> FetchedOp(op)
    ensures Showable(View(RunFrom(EMPTY_DB, ops).nodes, inst))
  {
    RunKeepsMirror(ops);
    MirrorIsShowable(RunFrom(EMPTY_DB, ops), inst);
  }
}
