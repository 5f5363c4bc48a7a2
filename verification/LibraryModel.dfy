/** The library mirror's nodes, their keys, and the catalogs they are synced from. */
module LibraryModel {
  import opened Common
  import opened Decimal

  type Id = nat
  type Instance = nat

  datatype Kind = Series | Season | Episode | Movie

  /** What a node stands for upstream, as far as its key goes. */
  datatype NodeRef = SeriesRef(series: int) | SeasonRef(series: int,
      number: int) | EpisodeRef(episode: int) | MovieRef(movie: int)

  function KindOf(r: NodeRef): Kind {
    match r
    case SeriesRef(_) => Series
    case SeasonRef(_, _) => Season
    case EpisodeRef(_) => Episode
    case MovieRef(_) => Movie
  }

  function Prefix(k: Kind): string {
    match k
    case Series => "series:"
    case Season => "season:"
    case Episode => "episode:"
    case Movie => "movie:"
  }

  function Tail(r: NodeRef): string {
    match r
    case SeriesRef(s) => Str(s)
    case SeasonRef(s, n) => Str(s) + ":" + Str(n)
    case EpisodeRef(e) => Str(e)
    case MovieRef(m) => Str(m)
  }

  function MakeNodeKey(r: NodeRef): string { Prefix(KindOf(r)) + Tail(r) }

  /** A title as upstream gives it, or the one a season is given: its number. */
  datatype Title = Given(text: string) | SeasonNumber(number: int)

  function Shown(t: Title): string {
    match t
    case Given(text) => text
    case SeasonNumber(n) => "Season " + Str(n)
  }

  /** A row. Its key column is the text of `ref`, and its kind the kind of `ref`; neither ever changes. */
  datatype Node = Node(
    instance: Instance,
    ref: NodeRef,
    parent: Option<Id>,
    season: Option<int>,
    episode: Option<int>,
    episodeId: Option<int>,
    movieId: Option<int>,
    title: Title,
    hasFile: bool,
    tracked: Option<bool>,
    hidden: bool)

  function Key(n: Node): string { MakeNodeKey(n.ref) }

  /** All rows of the node table, and the next id the database would hand out. */
  datatype Db = Db(nodes: map<Id, Node>, nextId: Id)

  const EMPTY_DB := Db(map[], 0)

  // ----- catalogs -----

  datatype CatalogEpisode = CatalogEpisode(id: int, season: int, number: int, title: string, hasFile: bool)
  datatype CatalogSeries = CatalogSeries(id: int, title: string, seasons: seq<int>, episodes: seq<CatalogEpisode>)
  datatype CatalogMovie = CatalogMovie(id: int, title: string, hasFile: bool)

  // ----- keys are injective -----

  lemma {:induction false} DigitsPlain(n: nat)
    ensures ':' !in Digits(n)
  {
    if n >= 10 { DigitsPlain(n / 10); }
  }

  lemma StrPlain(n: int)
    ensures ':' !in Str(n)
  {
    DigitsPlain(if n < 0 then -n else n);
  }

  lemma ColonInside(a: string, b: string, c: string, d: string)
    requires a + ":" + b == c + ":" + d && |a| < |c|
    ensures ':' in c
  {
    assert (a + ":" + b)[|a|] == ':' && (c + ":" + d)[|a|] == c[|a|];
  }

  lemma SplitAtColon(a: string, b: string, c: string, d: string)
    requires ':' !in a && ':' !in c && a + ":" + b == c + ":" + d
    ensures a == c && b == d
  {
    if |a| < |c| { ColonInside(a, b, c, d); }
    if |c| < |a| { ColonInside(c, d, a, b); }
    var s := a + ":" + b;
    assert s[..|a|] == a && s[..|c|] == c && s[|a| + 1..] == b && s[|c| + 1..] == d;
  }

  lemma PrefixOne(k: Kind, s: string, k': Kind, s': string)
    requires Prefix(k) + s == Prefix(k') + s'
    ensures k == k' && s == s'
  {
    var key := Prefix(k) + s;
    assert "series:"[..3] == "ser" && "season:"[..3] == "sea" && "episode:"[..3] == "epi" && "movie:"[..3] == "mov";
    assert key[..3] == Prefix(k)[..3] && key[..3] == Prefix(k')[..3];
    assert k == k';
    assert (Prefix(k) + s)[|Prefix(k)|..] == s && (Prefix(k) + s')[|Prefix(k)|..] == s';
  }

  /** Different upstream things never share a key. */
  lemma KeyInjective(a: NodeRef, b: NodeRef)
    requires MakeNodeKey(a) == MakeNodeKey(b)
    ensures a == b
  {
    PrefixOne(KindOf(a), Tail(a), KindOf(b), Tail(b));
    match a {
      case SeriesRef(s) => StrInjective(s, b.series);
      case SeasonRef(s, n) =>
        StrPlain(s);
        StrPlain(b.series);
        SplitAtColon(Str(s), Str(n), Str(b.series), Str(b.number));
        StrInjective(s, b.series);
        StrInjective(n, b.number);
      case EpisodeRef(e) => StrInjective(e, b.episode);
      case MovieRef(m) => StrInjective(m, b.movie);
    }
  }

  /** The text of a key. */
  lemma KeyText(r: NodeRef)
    ensures MakeNodeKey(r) == match r
                              case SeriesRef(s) => "series:" + Str(s)
                              case SeasonRef(s, n) => "season:" + Str(s) + ":" + Str(n)
                              case EpisodeRef(e) => "episode:" + Str(e)
                              case MovieRef(m) => "movie:" + Str(m)
  {
    if r.SeasonRef? { assert "season:" + (Str(r.series) + ":" + Str(r.number)) == "season:" + Str(r.series) + ":"
        + Str(r.number); }
  }
}
