/**
 Which downmix tracks a file still lacks, per language and tier, and the laws of running
 the downmix repeatedly: it converges at once, and the order of runs does not matter.
 */
module Targets {
  import opened Common
  import opened Audio
  import opened Text

  const TIERS: seq<Tier> := [Stereo, TwoPointOne, FivePointOne]

  predicate Allows(settings: DownmixSettings, language: string) {
    settings.allowed.None? || language in settings.allowed.value
  }

  /** All that detection looks at: which channel counts each language has. */
  function Pairs(streams: seq<Stream>): set<(string, int)> {
    set s | s in streams :: (s.language, s.channels)
  }

  ghost predicate HasWider(p: set<(string, int)>, t: Target) {
    exists c :: (t.language, c) in p && c > Channels(t.tier)
  }

  /** A track worth adding: enabled, allowed, absent, and narrower than something already there. */
  ghost predicate Qualifies(p: set<(string, int)>, settings: DownmixSettings, t: Target) {
    && t.tier in settings.enabled && Allows(settings, t.language)
    && HasWider(p, t) && (t.language, Channels(t.tier)) !in p
  }

  // ----- the order of the result -----

  predicate TargetLess(a: Target, b: Target) {
    LexLess(a.language, b.language) || (a.language == b.language && Channels(a.tier) < Channels(b.tier))
  }

  ghost predicate Ascending(r: seq<Target>) {
    forall i, j :: 0 <= i < j < |r| ==> TargetLess(r[i], r[j])
  }

  /** `r` lists exactly the qualifying targets, by language and then tier. */
  ghost predicate Detects(p: set<(string, int)>, settings: DownmixSettings, r: seq<Target>) {
    (forall t :: t in r <==> Qualifies(p, settings, t)) && Ascending(r)
  }

  lemma AscendingHead(r: seq<Target>, x: Target)
    requires Ascending(r) && x in r && forall y :: y in r ==> x == y || TargetLess(x, y)
    ensures r[0] == x
  {
    var k :| 0 <= k < |r| && r[k] == x;
    assert r[0] in r && (k == 0 || TargetLess(r[0], r[k]));
    LexOrder(x.language, r[0].language, x.language);
  }

  /** The list is determined: two ascending lists of the same targets are the same list. */
  lemma {:induction false} DetectionUnique(a: seq<Target>, b: seq<Target>)
    requires Ascending(a) && Ascending(b) && forall t :: t in a <==> t in b
    ensures a == b
  {
    HasMember(a);
    HasMember(b);
    if a != [] {
      assert a[0] in b;
      AscendingHead(b, a[0]);
      LexOrder(a[0].language, a[0].language, a[0].language);
      assert a == [a[0]] + a[1..] && b == [b[0]] + b[1..];
      assert a[0] !in a[1..] && a[0] !in b[1..];
      DetectionUnique(a[1..], b[1..]);
    }
  }

  // ----- detection as the program runs it -----

  ghost predicate SortedStrings(s: seq<string>) {
    forall i, j :: 0 <= i < j < |s| ==> LexLess(s[i], s[j])
  }

  method InsertString(s: seq<string>, x: string) returns (r: seq<string>)
    requires SortedStrings(s) && x !in s
    ensures SortedStrings(r) && forall y :: y in r <==> y in s || y == x
  {
    var k := 0;
    while k < |s| && LexLess(s[k], x)
      invariant k <= |s| && forall i :: 0 <= i < k ==> LexLess(s[i], x)
    {
      k := k + 1;
    }
    r := s[..k] + [x] + s[k..];
    forall i | k <= i < |s| ensures LexLess(x, s[i]) {
      LexOrder(x, s[k], s[i]);
    }
    InsertAt(s, x, k);
    InsertedSorted(s, x, k);
  }

  lemma InsertedSorted(s: seq<string>, x: string, k: nat)
    requires SortedStrings(s) && k <= |s|
    requires (forall i :: 0 <= i < k ==> LexLess(s[i], x)) && forall i :: k <= i < |s| ==> LexLess(x, s[i])
    ensures SortedStrings(s[..k] + [x] + s[k..])
  {
    InsertAt(s, x, k);
    var r := s[..k] + [x] + s[k..];
    forall i, j | 0 <= i < j < |r| ensures LexLess(r[i], r[j]) {
      if i == k { assert r[j] == s[j - 1]; }
      else if j == k { assert r[i] == s[i]; }
      else { assert r[i] == s[if i < k then i else i - 1] && r[j] == s[if j < k then j else j - 1]; }
    }
  }

  /** Python's `sorted` over a dict's keys. */
  method SortedKeys(keys: set<string>) returns (r: seq<string>)
    ensures SortedStrings(r) && forall y :: y in r <==> y in keys
  {
    r := [];
    var left := keys;
    while left != {}
      invariant left <= keys && SortedStrings(r) && forall y :: y in r <==> y in keys - left
      decreases left
    {
      var x :| x in left;
      r := InsertString(r, x);
      left := left - {x};
    }
  }

  method MaxOf(counts: set<int>) returns (m: int)
    requires exists c :: c in counts
    ensures m in counts && forall c :: c in counts ==> c <= m
  {
    m :| m in counts;
    var left := counts;
    while exists c :: c in left
      invariant left <= counts && m in counts && forall c :: c in counts && c !in left ==> c <= m
      decreases left
    {
      var c :| c in left;
      if c > m { m := c; }
      left := left - {c};
    }
  }

  ghost predicate HasLanguage(p: set<(string, int)>, l: string) { exists c :: (l, c) in p }

  /** `m` holds the channel counts of `p` for each allowed language. */
  ghost predicate Gathered(p: set<(string, int)>, settings: DownmixSettings, m: map<string, set<int>>) {
    && (forall l :: l in m <==> Allows(settings, l) && HasLanguage(p, l))
    && forall l, c :: l in m ==> (c in m[l] <==> (l, c) in p)
  }

  lemma GatherNext(p: set<(string, int)>, settings: DownmixSettings, m: map<string, set<int>>, l: string, c: int)
    requires Gathered(p, settings, m)
    ensures var known := if l in m then m[l] else {};
            Gathered(p + {(l, c)}, settings, if Allows(settings, l) then m[l := known + {c}] else m)
  {
    var q := p + {(l, c)};
    forall x ensures HasLanguage(q, x) <==> x == l || HasLanguage(p, x) {
      assert (l, c) in q;
      if d :| (x, d) in p { assert (x, d) in q; }
    }
    assert Allows(settings, l) && l !in m ==> forall d :: (l, d) !in p;
  }

  lemma PairsSnoc(streams: seq<Stream>, s: Stream)
    ensures Pairs(streams + [s]) == Pairs(streams) + {(s.language, s.channels)}
  {
    assert forall x :: x in streams + [s] <==> x in streams || x == s;
  }

  lemma LanguageOfPair(streams: seq<Stream>, l: string)
    ensures HasLanguage(Pairs(streams), l) <==> exists s :: s in streams && s.language == l
  {
    if s :| s in streams && s.language == l { assert (l, s.channels) in Pairs(streams); }
  }

  /** The dict of channel counts per allowed language. */
  method ChannelsByLanguage(streams: seq<Stream>, settings: DownmixSettings) returns (m: map<string, set<int>>)
    ensures forall l :: l in m <==> Allows(settings, l) && exists s :: s in streams && s.language == l
    ensures forall l, c :: l in m ==> (c in m[l] <==> (l, c) in Pairs(streams))
  {
    m := map[];
    for i := 0 to |streams|
      invariant Gathered(Pairs(streams[..i]), settings, m)
    {
      var s := streams[i];
      assert streams[..i + 1] == streams[..i] + [s];
      PairsSnoc(streams[..i], s);
      GatherNext(Pairs(streams[..i]), settings, m, s.language, s.channels);
      if Allows(settings, s.language) {
        var known := if s.language in m then m[s.language] else {};
        m := m[s.language := known + {s.channels}];
      }
    }
    assert streams[..|streams|] == streams;
    forall l ensures HasLanguage(Pairs(streams), l) <==> exists s :: s in streams && s.language == l {
      LanguageOfPair(streams, l);
    }
  }

  lemma AppendAscending(r: seq<Target>, t: Target)
    requires Ascending(r) && forall x :: x in r ==> TargetLess(x, t)
    ensures Ascending(r + [t])
  {
  }

  lemma AllTiers(x: Tier)
    ensures x in TIERS
  {
    assert TIERS[0] == Stereo && TIERS[1] == TwoPointOne && TIERS[2] == FivePointOne;
  }

  /** The targets of the first `k` tiers that one language still lacks. */
  ghost predicate Lacks(p: set<(string, int)>, settings: DownmixSettings, language: string, k: nat, t: Target)
    requires k <= 3
  {
    Qualifies(p, settings, t) && t.language == language && t.tier in TIERS[..k]
  }

  /** The inner loop: one language, its tiers from narrow to wide. */
  method LackingTiers(language: string, existing: set<int>, settings: DownmixSettings, ghost p: set<(string, int)>)
    returns (r: seq<Target>)
    requires Allows(settings, language) && (exists c :: c in existing)
            && forall c :: c in existing <==> (language, c) in p
    ensures forall t :: t in r <==> Qualifies(p, settings, t) && t.language == language
    ensures Ascending(r)
  {
    var widest := MaxOf(existing);
    r := [];
    for k := 0 to 3
      invariant forall t :: t in r <==> Lacks(p, settings, language, k, t)
      invariant Ascending(r)
    {
      var tier := TIERS[k];
      assert TIERS[..k + 1] == TIERS[..k] + [tier];
      assert HasWider(p, Target(language, tier)) <==> Channels(tier) < widest;
      if tier in settings.enabled && !(Channels(tier) >= widest) && Channels(tier) !in existing {
        AppendAscending(r, Target(language, tier));
        r := r + [Target(language, tier)];
      }
    }
    forall t: Target ensures t.tier in TIERS[..3] { AllTiers(t.tier); }
  }

  lemma ConcatAscending(r: seq<Target>, more: seq<Target>)
    requires Ascending(r) && Ascending(more) && forall x, y :: x in r && y in more ==> TargetLess(x, y)
    ensures Ascending(r + more)
  {
  }

  /** A target worth adding, in terms of the streams themselves. */
  ghost predicate Missing(streams: seq<Stream>, settings: DownmixSettings, t: Target) {
    && t.tier in settings.enabled && (settings.allowed.None? || t.language in settings.allowed.value)
    && (exists s :: s in streams && s.language == t.language && s.channels > Channels(t.tier))
    && (forall s :: s in streams && s.language == t.language ==> s.channels != Channels(t.tier))
  }

  lemma QualifiesMeans(streams: seq<Stream>, settings: DownmixSettings, t: Target)
    ensures Qualifies(Pairs(streams), settings, t) <==> Missing(streams, settings, t)
  {
    if HasWider(Pairs(streams), t) {
      var c :| (t.language, c) in Pairs(streams) && c > Channels(t.tier);
      var s :| s in streams && (s.language, s.channels) == (t.language, c);
    }
    if s :| s in streams && s.language == t.language && s.channels > Channels(t.tier) {
      assert (t.language, s.channels) in Pairs(streams);
    }
  }

  method DetectQualifyingTargets(streams: seq<Stream>, settings: DownmixSettings) returns (r: seq<Target>)
    ensures Detects(Pairs(streams), settings, r)
    ensures forall t :: t in r <==> Missing(streams, settings, t)
    ensures forall i, j :: 0 <= i < j < |r| ==>
              LexLess(r[i].language, r[j].language)
              || (r[i].language == r[j].language && Channels(r[i].tier) < Channels(r[j].tier))
  {
    var byLanguage := ChannelsByLanguage(streams, settings);
    var languages := SortedKeys(byLanguage.Keys);
    ghost var p := Pairs(streams);
    r := [];
    for j := 0 to |languages|
      invariant forall t :: t in r <==> Qualifies(p, settings, t) && t.language in languages[..j]
      invariant Ascending(r)
    {
      var language := languages[j];
      assert language in languages;
      assert exists c :: c in byLanguage[language] by {
        var s :| s in streams && s.language == language;
        assert (language, s.channels) in p;
      }
      var more := LackingTiers(language, byLanguage[language], settings, p);
      assert languages[..j + 1] == languages[..j] + [language];
      assert forall l :: l in languages[..j] ==> LexLess(l, language);
      ConcatAscending(r, more);
      r := r + more;
    }
    forall t | Qualifies(p, settings, t) ensures t.language in languages {
      var c :| (t.language, c) in p;
    }
    assert languages[..|languages|] == languages;
    forall t ensures Qualifies(p, settings, t) <==> Missing(streams, settings, t) {
      QualifiesMeans(streams, settings, t);
    }
  }

  // ----- repeated runs -----

  ghost function Added(r: seq<Target>): set<(string, int)> { set t | t in r :: (t.language, Channels(t.tier)) }

  /** The pairs a run really adds: those of the targets that are not stream copies. */
  ghost function AddedBy(targets: seq<Target>, settings: DownmixSettings): set<(string, int)> {
    set t | t in targets && !Copies(t, settings) :: (t.language, Channels(t.tier))
  }

  /** The channel counts after one successful run under `settings`; a stream copy adds none. */
  ghost function After(p: set<(string, int)>, settings: DownmixSettings): set<(string, int)> {
    p + set x, tier: Tier |
          x in p && Qualifies(p, settings, Target(x.0, tier)) && !Copies(Target(x.0, tier), settings) ::
          (x.0, Channels(tier))
  }

  /** `x` is a track `settings` asks for and transcodes, present or not. */
  ghost predicate Wanted(p: set<(string, int)>, settings: DownmixSettings, x: (string, int)) {
    exists tier :: tier in settings.enabled && x.1 == Channels(tier) && Allows(settings, x.0)
                   && HasWider(p, Target(x.0, tier)) && !Copies(Target(x.0, tier), settings)
  }

  lemma AfterMembers(p: set<(string, int)>, settings: DownmixSettings, x: (string, int))
    ensures x in After(p, settings) <==> x in p || Wanted(p, settings, x)
  {
    if x !in p && Wanted(p, settings, x) {
      var tier :| tier in settings.enabled && x.1 == Channels(tier) && Allows(settings, x.0)
                  && HasWider(p, Target(x.0, tier)) && !Copies(Target(x.0, tier), settings);
      var c :| (x.0, c) in p && c > Channels(tier);
      assert Qualifies(p, settings, Target((x.0, c).0, tier));
    }
  }

  /** `x` is narrower than something already there. */
  ghost predicate Narrow(p: set<(string, int)>, x: (string, int)) {
    exists tier :: x.1 == Channels(tier) && HasWider(p, Target(x.0, tier))
  }

  /** Adding narrower tracks never changes what is wider than what. */
  lemma WiderKept(p: set<(string, int)>, q: set<(string, int)>, t: Target)
    requires p <= q && forall x :: x in q ==> x in p || Narrow(p, x)
    ensures HasWider(q, t) <==> HasWider(p, t)
  {
    if HasWider(q, t) {
      var c :| (t.language, c) in q && c > Channels(t.tier);
      if (t.language, c) !in p {
        var tier :| c == Channels(tier) && HasWider(p, Target(t.language, tier));
        var d :| (t.language, d) in p && d > Channels(tier);
        assert d > Channels(t.tier);
      }
    }
  }

  lemma WiderStable(p: set<(string, int)>, settings: DownmixSettings, t: Target)
    ensures HasWider(After(p, settings), t) <==> HasWider(p, t)
  {
    forall x | x in After(p, settings) ensures x in p || Narrow(p, x) { AfterMembers(p, settings, x); }
    WiderKept(p, After(p, settings), t);
  }

  /** What a run adds is what detection listed, stream copies apart. */
  lemma AfterDetection(p: set<(string, int)>, settings: DownmixSettings, r: seq<Target>)
    requires Detects(p, settings, r)
    ensures After(p, settings) == p + AddedBy(r, settings)
  {
    forall x ensures x in After(p, settings) <==> x in p + AddedBy(r, settings) {
      if x in After(p, settings) && x !in p {
        var tier: Tier :| Qualifies(p, settings, Target(x.0, tier)) && !Copies(Target(x.0, tier), settings)
                          && x == (x.0, Channels(tier));
        assert Target(x.0, tier) in r;
      }
      if x in AddedBy(r, settings) {
        var t :| t in r && !Copies(t, settings) && x == (t.language, Channels(t.tier));
        AfterMembers(p, settings, x);
      }
    }
  }

  /** After a run that adds everything it detected, nothing qualifies under the same settings. */
  lemma Converges(streams: seq<Stream>, settings: DownmixSettings, r: seq<Target>, streams': seq<Stream>,
                  r': seq<Target>)
    requires Detects(Pairs(streams), settings, r) && Pairs(streams') == Pairs(streams) + Added(r)
    requires Detects(Pairs(streams'), settings, r')
    ensures r' == []
  {
    var p, q := Pairs(streams), Pairs(streams');
    forall x | x in q ensures x in p || Narrow(p, x) {
      if x !in p {
        var u :| u in r && x == (u.language, Channels(u.tier));
        assert Qualifies(p, settings, u) && Target(x.0, u.tier) == u;
      }
    }
    forall t ensures !Qualifies(q, settings, t) {
      WiderKept(p, q, t);
      assert t in r <==> Qualifies(p, settings, t);
      assert t in r ==> (t.language, Channels(t.tier)) in Added(r);
    }
    HasMember(r');
  }

  /** The channel counts after a sequence of runs. */
  ghost function Final(p: set<(string, int)>, runs: seq<DownmixSettings>): set<(string, int)> {
    if runs == [] then p else After(Final(p, runs[..|runs| - 1]), runs[|runs| - 1])
  }

  lemma {:induction false} FinalWider(p: set<(string, int)>, runs: seq<DownmixSettings>, t: Target)
    ensures HasWider(Final(p, runs), t) <==> HasWider(p, t)
  {
    if runs != [] {
      FinalWider(p, runs[..|runs| - 1], t);
      WiderStable(Final(p, runs[..|runs| - 1]), runs[|runs| - 1], t);
    }
  }

  lemma WantedStable(p: set<(string, int)>, runs: seq<DownmixSettings>, settings: DownmixSettings, x: (string, int))
    ensures Wanted(Final(p, runs), settings, x) <==> Wanted(p, settings, x)
  {
    forall tier: Tier ensures HasWider(Final(p, runs), Target(x.0, tier)) <==> HasWider(p, Target(x.0, tier)) {
      FinalWider(p, runs, Target(x.0, tier));
    }
  }

  /** The end result in closed form: what was there, and what any of the runs asked for. */
  lemma {:induction false} FinalMembers(p: set<(string, int)>, runs: seq<DownmixSettings>, x: (string, int))
    ensures x in Final(p, runs) <==> x in p || exists s :: s in runs && Wanted(p, s, x)
  {
    if runs != [] {
      var n := |runs| - 1;
      assert runs == runs[..n] + [runs[n]];
      FinalMembers(p, runs[..n], x);
      AfterMembers(Final(p, runs[..n]), runs[n], x);
      WantedStable(p, runs[..n], runs[n], x);
    }
  }

  /** Runs commute and repeat for free: only the set of settings used decides the final channel counts. */
  lemma Confluent(p: set<(string, int)>, runs: seq<DownmixSettings>, runs': seq<DownmixSettings>)
    requires forall s :: s in runs <==> s in runs'
    ensures Final(p, runs) == Final(p, runs')
  {
    forall x ensures x in Final(p, runs) <==> x in Final(p, runs') {
      FinalMembers(p, runs, x);
      FinalMembers(p, runs', x);
    }
  }
}
