/** Reading a Sonarr catalog: episodes are parsed leniently, and every episode's season is listed. */
module Catalog {
  import opened Common
  import opened LibraryModel
  import opened LibraryLaws

  datatype Json =
    | JNull | JBool(b: bool) | JInt(i: int) | JStr(s: string)
    | JList(items: seq<Json>) | JDict(fields: map<string, Json>)

  datatype CatalogError = Malformed

  /** `dict.get`. */
  function Get(j: Json, key: string): Json { if j.JDict? && key in j.fields then j.fields[key] else JNull }

  /** What passes `isinstance(x, int)`; a boolean does, as 0 or 1. */
  function AsInt(j: Json): Option<int> {
    match j
    case JInt(i) => Some(i)
    case JBool(b) => Some(if b then 1 else 0)
    case _ => None
  }

  function Truthy(j: Json): bool {
    match j
    case JNull => false
    case JBool(b) => b
    case JInt(i) => i != 0
    case JStr(s) => s != ""
    case JList(items) => items != []
    case JDict(fields) => fields != map[]
  }

  /** An entry is kept when it is an object with an integer id and season; its other fields have defaults. */
  function Episode(j: Json): Option<CatalogEpisode> {
    if !j.JDict? || AsInt(Get(j, "id")).None? || AsInt(Get(j, "seasonNumber")).None? then None
    else Some(CatalogEpisode(
      AsInt(Get(j, "id")).value,
      AsInt(Get(j, "seasonNumber")).value,
      AsInt(Get(j, "episodeNumber")).GetOr(0),
      if Get(j, "title").JStr? then Get(j, "title").s else "",
      Truthy(Get(j, "hasFile"))))
  }

  function Kept(items: seq<Json>): seq<CatalogEpisode> {
    if items == [] then []
    else
      var e := Episode(items[|items| - 1]);
      Kept(items[..|items| - 1]) + if e.Some? then [e.value] else []
  }

  // ----- an entry in terms of its fields -----

  /** The object has an integer under `key`, a boolean counting as 1 or 0. */
  ghost predicate IntAt(j: Json, key: string, n: int) {
    && j.JDict? && key in j.fields
    && (j.fields[key] == JInt(n) || (j.fields[key] == JBool(true) && n == 1)
         || (j.fields[key] == JBool(false) && n == 0))
  }

  ghost predicate TextAt(j: Json, key: string, s: string) { j.JDict? && key in j.fields && j.fields[key] == JStr(s) }

  /** The object has something other than null, false, zero or an empty value under `key`. */
  ghost predicate SetAt(j: Json, key: string) {
    && j.JDict? && key in j.fields
    && j.fields[key] !in [JNull, JBool(false), JInt(0), JStr(""), JList([]), JDict(map[])]
  }

  /** `e` is what the entry `j` says: its id and season are there, the rest is read or has its default. */
  ghost predicate Reads(j: Json, e: CatalogEpisode) {
    && IntAt(j, "id", e.id) && IntAt(j, "seasonNumber", e.season)
    && (IntAt(j, "episodeNumber", e.number) || (e.number == 0 && forall n :: !IntAt(j, "episodeNumber", n)))
    && (TextAt(j, "title", e.title) || (e.title == "" && forall s :: !TextAt(j, "title", s)))
    && (e.hasFile <==> SetAt(j, "hasFile"))
  }

  lemma IntReads(j: Json, key: string, n: int)
    requires j.JDict?
    ensures AsInt(Get(j, key)) == Some(n) <==> IntAt(j, key, n)
    ensures AsInt(Get(j, key)).None? ==> !IntAt(j, key, n)
  {
  }

  lemma TruthReads(j: Json, key: string)
    requires j.JDict?
    ensures Truthy(Get(j, key)) <==> SetAt(j, key)
  {
  }

  lemma TextReads(j: Json, key: string, s: string)
    requires j.JDict?
    ensures TextAt(j, key, s) <==> Get(j, key).JStr? && Get(j, key).s == s
  {
  }

  lemma NumberReads(j: Json, n: int)
    requires j.JDict?
    ensures AsInt(Get(j, "episodeNumber")).GetOr(0) == n <==>
            IntAt(j, "episodeNumber", n) || (n == 0 && forall k :: !IntAt(j, "episodeNumber", k))
  {
    var r := AsInt(Get(j, "episodeNumber"));
    forall k ensures r == Some(k) <==> IntAt(j, "episodeNumber", k) { IntReads(j, "episodeNumber", k); }
    if r.Some? { assert IntAt(j, "episodeNumber", r.value); }
  }

  lemma TitleReads(j: Json, s: string)
    requires j.JDict?
    ensures (if Get(j, "title").JStr? then Get(j, "title").s else "") == s <==>
            TextAt(j, "title", s) || (s == "" && forall t :: !TextAt(j, "title", t))
  {
    forall t ensures TextAt(j, "title", t) <==> Get(j, "title").JStr? && Get(j, "title").s == t {
      TextReads(j, "title", t);
    }
    if Get(j, "title").JStr? { assert TextAt(j, "title", Get(j, "title").s); }
  }

  lemma EpisodeReads(j: Json, e: CatalogEpisode)
    ensures Episode(j) == Some(e) <==> Reads(j, e)
  {
    if j.JDict? {
      IntReads(j, "id", e.id);
      IntReads(j, "seasonNumber", e.season);
      NumberReads(j, e.number);
      TitleReads(j, e.title);
      TruthReads(j, "hasFile");
    }
  }

  /** Exactly the entries with an id and a season are kept, as they read. */
  lemma {:induction false} KeptMembers(items: seq<Json>, e: CatalogEpisode)
    ensures e in Kept(items) <==> exists j :: j in items && Reads(j, e)
  {
    if items != [] {
      var n := |items| - 1;
      assert items == items[..n] + [items[n]];
      KeptMembers(items[..n], e);
      EpisodeReads(items[n], e);
      if j :| j in items && Reads(j, e) { assert j in items[..n] || j == items[n]; }
      if Reads(items[n], e) { assert items[n] in items; }
    }
  }

  /** In the order they are listed. */
  lemma {:induction false} KeptInOrder(a: seq<Json>, b: seq<Json>)
    ensures Kept(a + b) == Kept(a) + Kept(b)
  {
    if b == [] {
      assert a + b == a;
    } else {
      var n := |b| - 1;
      assert (a + b)[..|a + b| - 1] == a + b[..n];
      KeptInOrder(a, b[..n]);
    }
  }

  method ParseEpisodes(payload: Json) returns (r: Result<seq<CatalogEpisode>, CatalogError>)
    ensures r == if payload.JList? then Ok(Kept(payload.items)) else Err(Malformed)
    ensures r.Ok? ==> forall e :: e in r.value <==> exists j :: j in payload.items && Reads(j, e)
  {
    if !payload.JList? { return Err(Malformed); }
    var episodes := [];
    for i := 0 to |payload.items|
      invariant episodes == Kept(payload.items[..i])
    {
      assert payload.items[..i + 1][..i] == payload.items[..i];
      var e := Episode(payload.items[i]);
      if e.Some? { episodes := episodes + [e.value]; }
    }
    assert payload.items[..|payload.items|] == payload.items;
    forall e ensures e in episodes <==> exists j :: j in payload.items && Reads(j, e) {
      KeptMembers(payload.items, e);
    }
    r := Ok(episodes);
  }

  /** A season number the series object itself lists. */
  ghost predicate ListsSeason(seasons: Json, n: int) {
    seasons.JList? && exists s :: s in seasons.items && IntAt(s, "seasonNumber", n)
  }

  method SortedNumbers(numbers: set<int>) returns (r: seq<int>)
    ensures (forall i, j :: 0 <= i < j < |r| ==> r[i] < r[j]) && forall n :: n in r <==> n in numbers
  {
    r := [];
    var left := numbers;
    while exists n :: n in left
      invariant left <= numbers && forall n :: n in r <==> n in numbers && n !in left
      invariant (forall i, j :: 0 <= i < j < |r| ==> r[i] < r[j])
      decreases left
    {
      var x :| x in left;
      var k: nat := |r|;
      while k > 0 && r[k - 1] > x
        invariant 0 <= k <= |r| && forall i :: k <= i < |r| ==> x < r[i]
      {
        k := k - 1;
      }
      assert k > 0 ==> r[k - 1] in r;
      InsertNumber(r, x, k);
      r := r[..k] + [x] + r[k..];
      left := left - {x};
    }
  }

  lemma InsertNumber(r: seq<int>, x: int, k: nat)
    requires k <= |r| && (forall i, j :: 0 <= i < j < |r| ==> r[i] < r[j])
    requires (forall i :: k <= i < |r| ==> x < r[i]) && (k > 0 ==> r[k - 1] < x)
    ensures var s := r[..k] + [x] + r[k..];
            (forall i, j :: 0 <= i < j < |s| ==> s[i] < s[j]) && forall n :: n in s <==> n in r || n == x
  {
    InsertAt(r, x, k);
    var s := r[..k] + [x] + r[k..];
    forall i | 0 <= i < k ensures r[i] < x { assert i == k - 1 || r[i] < r[k - 1]; }
    forall i, j | 0 <= i < j < |s| ensures s[i] < s[j] {
      if i == k { assert s[j] == r[j - 1]; }
      else if j == k { assert s[i] == r[i]; }
      else { assert s[i] == r[if i < k then i else i - 1] && s[j] == r[if j < k then j else j - 1]; }
    }
  }

  /** The seasons of a series: those it lists and those its episodes are in, ascending, each once. */
  method CollectSeasonNumbers(seasons: Json, episodes: seq<CatalogEpisode>) returns (r: seq<int>)
    ensures forall i, j :: 0 <= i < j < |r| ==> r[i] < r[j]
    ensures forall n :: n in r <==> ListsSeason(seasons, n) || exists e :: e in episodes && e.season == n
    ensures forall id, title :: Fetched(CatalogSeries(id, title, r, episodes))
  {
    var numbers: set<int> := {};
    if seasons.JList? {
      for i := 0 to |seasons.items|
        invariant forall n :: n in numbers <==> ListsSeason(JList(seasons.items[..i]), n)
      {
        var s := seasons.items[i];
        assert seasons.items[..i + 1] == seasons.items[..i] + [s];
        if s.JDict? && AsInt(Get(s, "seasonNumber")).Some? {
          numbers := numbers + {AsInt(Get(s, "seasonNumber")).value};
        }
        forall n ensures ListsSeason(JList(seasons.items[..i + 1]), n)
                    <==>
                        ListsSeason(JList(seasons.items[..i]), n)
                        || (s.JDict? && AsInt(Get(s, "seasonNumber")) == Some(n)) {
          SeasonListed(seasons.items[..i], s, n);
          if s.JDict? { IntReads(s, "seasonNumber", n); }
        }
      }
      assert seasons.items[..|seasons.items|] == seasons.items;
    }
    ghost var listed := numbers;
    for i := 0 to |episodes|
      invariant forall n :: n in numbers <==> n in listed || exists e :: e in episodes[..i] && e.season == n
    {
      assert episodes[..i + 1] == episodes[..i] + [episodes[i]];
      numbers := numbers + {episodes[i].season};
    }
    assert episodes[..|episodes|] == episodes;
    r := SortedNumbers(numbers);
  }

  lemma SeasonListed(items: seq<Json>, s: Json, n: int)
    ensures ListsSeason(JList(items + [s]), n) <==>
            ListsSeason(JList(items), n) || IntAt(s, "seasonNumber", n)
  {
    if IntAt(s, "seasonNumber", n) { assert s in items + [s]; }
    if ListsSeason(JList(items), n) {
      var x :| x in items && IntAt(x, "seasonNumber", n);
      assert x in items + [s];
    }
  }
}
