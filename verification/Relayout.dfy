/**
 The downmix end to end: probe, detect, build, run, probe again. What the plan predicted is what comes out;
 the run converges; and the default flag lands where it was aimed.
 */
module Relayout {
  import opened Common
  import opened Audio
  import opened Targets
  import opened Remux
  import opened Ffmpeg
  import opened DefaultAudio

  function Reflagged(s: Stream, k: int, index: Option<int>): Stream {
    s.(isDefault := if index.Some? then k == index.value else s.isDefault)
  }

  function ReflagAll(p: seq<Stream>, index: Option<int>): seq<Stream> {
    if p == [] then [] else var n := |p| - 1; ReflagAll(p[..n], index) + [Reflagged(p[n], n, index)]
  }

  lemma {:induction false} ReflagAt(p: seq<Stream>, index: Option<int>)
    ensures |ReflagAll(p, index)| == |p| && forall k ::
            0 <= k < |p| ==> ReflagAll(p, index)[k] == Reflagged(p[k], k, index)
  {
    if p != [] { ReflagAt(p[..|p| - 1], index); }
  }

  lemma ReflagSnoc(p: seq<Stream>, s: Stream, index: Option<int>)
    ensures ReflagAll(p + [s], index) == ReflagAll(p, index) + [Reflagged(s, |p|, index)]
  {
    Snoc(p, s);
  }

  lemma OriginalsLast(c: Container, index: Option<int>)
    requires c != []
    ensures var before, t := c[..|c| - 1], c[|c| - 1];
            Originals(c, index) == Originals(before, index) + [Original(t, AudioCount(before), index)]
            && Probe(c) == Probe(before) + StreamsAt(t, |before|)
  {
  }

  lemma {:induction false} ProbeOriginals(c: Container, index: Option<int>)
    ensures Probe(Originals(c, index)) == ReflagAll(Probe(c), index) && |Originals(c, index)| == |c|
  {
    if c != [] {
      var before, t := c[..|c| - 1], c[|c| - 1];
      ProbeOriginals(before, index);
      OriginalsLast(c, index);
      CountIsProbed(before, 0);
      ProbeSnoc(Originals(before, index), Original(t, AudioCount(before), index), 0);
      if t.AudioTrack? { ReflagSnoc(Probe(before), StreamOf(t, |before|), index); }
      else {
        assert Probe(before) + [] == Probe(before);
        assert ReflagAll(Probe(before), index) + [] == ReflagAll(Probe(before), index);
      }
    }
  }

  /** The streams the added tracks show up as, the first at container position `at`. */
  function NewStreams(start: nat, at: int, sources: seq<(Target, Stream)>, settings: DownmixSettings,
                      index: Option<int>, inherit: bool): seq<Stream>
  {
    if sources == [] then []
    else
      var n := |sources| - 1;
      NewStreams(start, at, sources[..n], settings, index, inherit)
          + [StreamOf(NewTrack(sources[n], start + n, settings, index, inherit), at + n)]
  }

  lemma {:induction false} NewStreamAt(start: nat, at: int, sources: seq<(Target, Stream)>, settings: DownmixSettings,
                                       index: Option<int>, inherit: bool, j: nat)
    requires j < |sources|
    ensures |NewStreams(start, at, sources, settings, index, inherit)| == |sources|
    ensures NewStreams(start, at, sources, settings, index, inherit)[j]
            == StreamOf(NewTrack(sources[j], start + j, settings, index, inherit), at + j)
  {
    var n := |sources| - 1;
    NewStreamsLength(start, at, sources[..n], settings, index, inherit);
    if j < n { NewStreamAt(start, at, sources[..n], settings, index, inherit, j); }
  }

  lemma {:induction false} NewStreamsLength(start: nat, at: int, sources: seq<(Target, Stream)>,
                                            settings: DownmixSettings, index: Option<int>, inherit: bool)
    ensures |NewStreams(start, at, sources, settings, index, inherit)| == |sources|
  {
    if sources != [] { NewStreamsLength(start, at, sources[..|sources| - 1], settings, index, inherit); }
  }

  lemma NewTracksSnoc(start: nat, sources: seq<(Target, Stream)>, settings: DownmixSettings, index: Option<int>,
                      inherit: bool)
    requires sources != []
    ensures var n := |sources| - 1;
            NewTracks(start, sources, settings, index, inherit)
            == NewTracks(start, sources[..n], settings, index, inherit)
                + [NewTrack(sources[n], start + n, settings, index, inherit)]
  {
  }

  lemma {:induction false} ProbeNew(start: nat, at: int, sources: seq<(Target, Stream)>, settings: DownmixSettings,
                                    index: Option<int>, inherit: bool)
    ensures var b := NewTracks(start, sources, settings, index, inherit);
            |b| == |sources| && ProbeFrom(b, at) == NewStreams(start, at, sources, settings, index, inherit)
  {
    if sources != [] {
      var n := |sources| - 1;
      ProbeNew(start, at, sources[..n], settings, index, inherit);
      NewTracksSnoc(start, sources, settings, index, inherit);
      ProbeSnoc(NewTracks(start, sources[..n], settings, index, inherit),
          NewTrack(sources[n], start + n, settings, index, inherit), at);
    }
  }

  lemma ProbeTwo(a: Container, b: Container, at: int, p: seq<Stream>, q: seq<Stream>)
    requires at == |a| && Probe(a) == p && ProbeFrom(b, at) == q
    ensures Probe(a + b) == p + q
  {
    ProbeConcat(a, b, 0);
  }

  /** Probing the new file. */
  lemma ProbeRemuxed(c: Container, sources: seq<(Target, Stream)>, settings: DownmixSettings, index: Option<int>,
                     inherit: bool)
    ensures Probe(Remuxed(c, sources, settings, index, inherit))
         == ReflagAll(Probe(c), index) + NewStreams(|Probe(c)|, |c|, sources, settings, index, inherit)
  {
    ProbeOriginals(c, index);
    ProbeNew(|Probe(c)|, |c|, sources, settings, index, inherit);
    ProbeTwo(Originals(c, index), NewTracks(|Probe(c)|, sources, settings, index, inherit), |c|,
             ReflagAll(Probe(c), index), NewStreams(|Probe(c)|, |c|, sources, settings, index, inherit));
  }

  /** What a run makes of a probe `p`: the originals in order, then one track per target. */
  ghost predicate Realized(p: seq<Stream>, targets: seq<Target>, settings: DownmixSettings, index: Option<int>,
                           inherit: bool, p': seq<Stream>)
  {
    && |p'| == |p| + |targets| && Sources(p, targets).Ok? && Ascends(p) && Ascends(p')
    && (forall k :: 0 <= k < |p| ==> p'[k] == Reflagged(p[k], k, index))
    && (forall j :: 0 <= j < |targets| ==> AddedAt(p, targets, settings, index, inherit, p', j))
  }

  ghost predicate Ascends(p: seq<Stream>) { forall i, j :: 0 <= i < j < |p| ==> p[i].index < p[j].index }

  /** Track `j` of the plan, made from the widest stream of its language. */
  ghost predicate AddedAt(p: seq<Stream>, targets: seq<Target>, settings: DownmixSettings, index: Option<int>,
                          inherit: bool, p': seq<Stream>, j: nat)
    requires j < |targets| && |p'| == |p| + |targets| && Sources(p, targets).Ok?
  {
    var source, s := Sources(p, targets).value[j].1, p'[|p| + j];
    WidestOf(p, targets[j], source) && s == StreamOf(NewTrack((targets[j], source), |p| + j, settings, index, inherit),
        s.index)
  }

  /** Probing what ffmpeg writes for the built command realizes the plan, whatever the file holds. */
  lemma RunRealizes(c: Container, file: string, out: string, ffmpeg: string, targets: seq<Target>,
                    settings: DownmixSettings, index: Option<int>, inherit: bool)
    requires BuildCheck(Probe(c), targets, index).None?
    ensures var opts := Options(file, |Probe(c)|, Sources(Probe(c), targets).value, settings, index);
            Realized(Probe(c), targets, settings, index, inherit, Probe(Output(c, Command(ffmpeg, opts, out), inherit)))
  {
    CommandRealizesPlan(c, file, out, ffmpeg, targets, settings, index, inherit);
    RemuxRealizes(c, targets, settings, index, inherit);
  }

  lemma {:induction false} ProbeAscends(c: Container)
    ensures Ascends(Probe(c))
  {
    if c != [] {
      var before := c[..|c| - 1];
      ProbeAscends(before);
      forall i | 0 <= i < |Probe(before)| ensures Probe(before)[i].index < |before| {
        ProbedAt(before, Probe(before)[i]);
      }
    }
  }

  /** `s` is a probe of the plan's track `j`. */
  ghost predicate IsNew(p: seq<Stream>, targets: seq<Target>, settings: DownmixSettings, index: Option<int>,
                        inherit: bool, j: nat, s: Stream)
    requires Sources(p, targets).Ok? && j < |targets|
  {
    s == StreamOf(NewTrack((targets[j], Sources(p, targets).value[j].1), |p| + j, settings, index, inherit), s.index)
  }

  lemma KeptPart(p: seq<Stream>, index: Option<int>, kept: seq<Stream>, p': seq<Stream>)
    requires kept <= p' && |kept| == |p| && forall k :: 0 <= k < |p| ==> kept[k] == Reflagged(p[k], k, index)
    ensures forall k :: 0 <= k < |p| ==> p'[k] == Reflagged(p[k], k, index)
  {
    assert forall k :: 0 <= k < |p| ==> p'[k] == kept[k];
  }

  lemma AddedFits(p: seq<Stream>, targets: seq<Target>, settings: DownmixSettings, index: Option<int>, inherit: bool,
                  p': seq<Stream>, at: nat, j: nat, s: Stream)
    requires Sources(p, targets).Ok? && j < |targets| && |p'| == |p| + |targets| && at == |p| + j && p'[at] == s
    requires IsNew(p, targets, settings, index, inherit, j, s)
    ensures AddedAt(p, targets, settings, index, inherit, p', j)
  {
    SourceIsWidest(p, targets, j);
  }

  lemma AddedPart(p: seq<Stream>, targets: seq<Target>, settings: DownmixSettings, index: Option<int>, inherit: bool,
                  added: seq<Stream>, p': seq<Stream>)
    requires Sources(p, targets).Ok? && |added| == |targets| && |p'| == |p| + |targets|
    requires forall j :: 0 <= j < |targets| ==> added[j] == p'[|p| + j]
    requires forall j :: 0 <= j < |targets| ==> IsNew(p, targets, settings, index, inherit, j, added[j])
    ensures forall j :: 0 <= j < |targets| ==> AddedAt(p, targets, settings, index, inherit, p', j)
  {
    forall j: nat | j < |targets| ensures AddedAt(p, targets, settings, index, inherit, p', j) {
      var at := |p| + j;
      AddedFits(p, targets, settings, index, inherit, p', at, j, added[j]);
    }
  }

  lemma RealizedParts(p: seq<Stream>, targets: seq<Target>, settings: DownmixSettings, index: Option<int>,
                      inherit: bool, kept: seq<Stream>, added: seq<Stream>)
    requires Sources(p, targets).Ok? && Ascends(p) && Ascends(kept + added) && |added| == |targets|
    requires |kept| == |p| && forall k :: 0 <= k < |p| ==> kept[k] == Reflagged(p[k], k, index)
    requires forall j :: 0 <= j < |targets| ==> IsNew(p, targets, settings, index, inherit, j, added[j])
    ensures Realized(p, targets, settings, index, inherit, kept + added)
  {
    KeptPart(p, index, kept, kept + added);
    AddedPart(p, targets, settings, index, inherit, added, kept + added);
  }

  lemma SourceIsWidest(p: seq<Stream>, targets: seq<Target>, j: nat)
    requires Sources(p, targets).Ok? && j < |targets|
    ensures Sources(p, targets).value[j].0 == targets[j] && WidestOf(p, targets[j], Sources(p, targets).value[j].1)
  {
    SourcesMeaning(p, targets);
  }

  lemma NewStreamsFit(p: seq<Stream>, targets: seq<Target>, at: int, settings: DownmixSettings, index: Option<int>,
                      inherit: bool)
    requires Sources(p, targets).Ok?
    ensures var added := NewStreams(|p|, at, Sources(p, targets).value, settings, index, inherit);
            |added| == |targets| && forall j ::
                0 <= j < |targets| ==> IsNew(p, targets, settings, index, inherit, j, added[j])
  {
    var sources := Sources(p, targets).value;
    NewStreamsLength(|p|, at, sources, settings, index, inherit);
    forall j: nat | j < |targets|
      ensures IsNew(p, targets, settings, index, inherit, j, NewStreams(|p|, at, sources, settings, index, inherit)[j])
    {
      SourceIsWidest(p, targets, j);
      NewStreamAt(|p|, at, sources, settings, index, inherit, j);
    }
  }

  lemma RemuxRealizes(c: Container, targets: seq<Target>, settings: DownmixSettings, index: Option<int>, inherit: bool)
    requires Sources(Probe(c), targets).Ok?
    ensures Realized(Probe(c), targets, settings, index, inherit,
                     Probe(Remuxed(c, Sources(Probe(c), targets).value, settings, index, inherit)))
  {
    var sources := Sources(Probe(c), targets).value;
    ProbeRemuxed(c, sources, settings, index, inherit);
    ProbeAscends(c);
    ProbeAscends(Remuxed(c, sources, settings, index, inherit));
    ReflagAt(Probe(c), index);
    NewStreamsFit(Probe(c), targets, |c|, settings, index, inherit);
    RealizedParts(Probe(c), targets, settings, index, inherit, ReflagAll(Probe(c), index),
                  NewStreams(|Probe(c)|, |c|, sources, settings, index, inherit));
  }

  // ----- the layout -----

  /** `ch` is the widest channel count of the language. */
  ghost predicate WidestChannels(streams: seq<Stream>, language: string, ch: int) {
    (exists s :: s in streams && s.language == language && s.channels == ch)
        && forall s :: s in streams && s.language == language ==> s.channels <= ch
  }

  /** What the plan predicts of added track `j`, made from `source`, and what comes of it. */
  lemma AddedPredicted(p: seq<Stream>, t: Target, source: Stream, k: int, settings: DownmixSettings, index: Option<int>,
                       inherit: bool, s: Stream)
    requires WidestOf(p, t, source) && s == StreamOf(NewTrack((t, source), k, settings, index, inherit), s.index)
    ensures s.language == t.language
    ensures s.channels == Channels(t.tier) <==>
              !Copies(t, settings) || WidestChannels(p, t.language, Channels(t.tier))
    ensures !Copies(t, settings) ==>
              s.codec == (if t.tier.Stereo? then settings.stereoCodec else settings.surroundCodec)
              && s.layout == LayoutName(t.tier)
    ensures index.Some? ==> (s.isDefault <==> k == index.value)
  {
  }

  /**
   The predicted layout is the real one. Originals keep codec, channels, layout and language;
   each added track has the predicted language and the configured codec, and the predicted
   channels unless its codec is configured as a copy of something wider.
   */
  lemma LayoutPredicted(p: seq<Stream>, targets: seq<Target>, settings: DownmixSettings, index: Option<int>,
                        inherit: bool, p': seq<Stream>, k: nat)
    requires Realized(p, targets, settings, index, inherit, p') && k < |p'|
    ensures |p'| == |FinalLayout(p, targets)|
    ensures var s, f := p'[k], FinalLayout(p, targets)[k];
            && s.language == f.language
            && (k < |p| ==> s == Reflagged(f, k, index))
            && (k >= |p| ==> var t := targets[k - |p|];
                  && (s.channels == f.channels <==> !Copies(t, settings) || WidestChannels(p, t.language, f.channels))
                  && (!Copies(t, settings) ==>
                       s.codec == (if t.tier.Stereo? then settings.stereoCodec else settings.surroundCodec)
                       && s.layout == match t.tier case Stereo => "stereo" case TwoPointOne => "2.1"
                                                   case FivePointOne => "5.1"))
            && (index.Some? ==> (s.isDefault <==> k == index.value))
  {
    if k < |p| {
      OriginalPredicted(p, targets, settings, index, inherit, p', k);
    } else {
      var source := AddedFrom(p, targets, settings, index, inherit, p', k);
      AddedPredicted(p, targets[k - |p|], source, k, settings, index, inherit, p'[k]);
      PlannedTrack(p, targets, k);
    }
  }

  lemma AddedFrom(p: seq<Stream>, targets: seq<Target>, settings: DownmixSettings, index: Option<int>, inherit: bool,
                  p': seq<Stream>, k: nat) returns (source: Stream)
    requires Realized(p, targets, settings, index, inherit, p') && |p| <= k < |p'|
    ensures WidestOf(p, targets[k - |p|], source)
    ensures p'[k] == StreamOf(NewTrack((targets[k - |p|], source), k, settings, index, inherit), p'[k].index)
  {
    assert AddedAt(p, targets, settings, index, inherit, p', k - |p|);
    source := Sources(p, targets).value[k - |p|].1;
  }

  lemma PlannedTrack(p: seq<Stream>, targets: seq<Target>, k: nat)
    requires |p| <= k < |p| + |targets|
    ensures var f, t := FinalLayout(p, targets)[k], targets[k - |p|];
            f.language == t.language && f.channels == Channels(t.tier)
  {
  }

  lemma OriginalPredicted(p: seq<Stream>, targets: seq<Target>, settings: DownmixSettings, index: Option<int>,
                          inherit: bool, p': seq<Stream>, k: nat)
    requires Realized(p, targets, settings, index, inherit, p') && k < |p|
    ensures p'[k] == Reflagged(FinalLayout(p, targets)[k], k, index)
  {
  }

  // ----- convergence -----

  lemma PairAt(p: seq<Stream>, targets: seq<Target>, settings: DownmixSettings, index: Option<int>, inherit: bool,
               p': seq<Stream>, k: nat)
    requires Realized(p, targets, settings, index, inherit, p') && k < |p'|
    ensures var x := (p'[k].language, p'[k].channels);
            if k >= |p| && !Copies(targets[k - |p|], settings)
                then x == (targets[k - |p|].language, Channels(targets[k - |p|].tier))
            else x in Pairs(p) && (k < |p| ==> x == (p[k].language, p[k].channels))
  {
    if k < |p| { assert p[k] in p; }
    else { assert AddedAt(p, targets, settings, index, inherit, p', k - |p|); }
  }

  lemma RunPairs(p: seq<Stream>, targets: seq<Target>, settings: DownmixSettings, index: Option<int>, inherit: bool,
                 p': seq<Stream>)
    requires Realized(p, targets, settings, index, inherit, p')
    ensures Pairs(p') == Pairs(p) + AddedBy(targets, settings)
  {
    forall x | x in Pairs(p') ensures x in Pairs(p) + AddedBy(targets, settings) {
      var s :| s in p' && x == (s.language, s.channels);
      var k :| 0 <= k < |p'| && p'[k] == s;
      PairAt(p, targets, settings, index, inherit, p', k);
      assert k >= |p| ==> targets[k - |p|] in targets;
    }
    forall x | x in Pairs(p) + AddedBy(targets, settings) ensures x in Pairs(p') {
      PairKept(p, targets, settings, index, inherit, p', x);
    }
  }

  lemma PairKept(p: seq<Stream>, targets: seq<Target>, settings: DownmixSettings, index: Option<int>, inherit: bool,
                 p': seq<Stream>, x: (string, int))
    requires Realized(p, targets, settings, index, inherit, p') && x in Pairs(p) + AddedBy(targets, settings)
    ensures x in Pairs(p')
  {
    var k: nat;
    if x in Pairs(p) {
      var s :| s in p && x == (s.language, s.channels);
      k :| 0 <= k < |p| && p[k] == s;
    } else {
      var t :| t in targets && !Copies(t, settings) && x == (t.language, Channels(t.tier));
      var j :| 0 <= j < |targets| && targets[j] == t;
      k := |p| + j;
    }
    PairAt(p, targets, settings, index, inherit, p', k);
    assert p'[k] in p';
  }

  /** A target configured as a stream copy is as missing after the run as before. */
  lemma CopyStillMissing(p: seq<Stream>, targets: seq<Target>, settings: DownmixSettings, p': seq<Stream>, t: Target)
    requires Detects(Pairs(p), settings, targets) && Pairs(p') == Pairs(p) + AddedBy(targets, settings)
    requires t in targets && Copies(t, settings)
    ensures Qualifies(Pairs(p'), settings, t)
  {
    assert Qualifies(Pairs(p), settings, t);
    var ch :| (t.language, ch) in Pairs(p) && ch > Channels(t.tier);
    assert (t.language, ch) in Pairs(p');
    forall u | u in targets && !Copies(u, settings) ensures (u.language, Channels(u.tier))
        != (t.language, Channels(t.tier)) {
      assert u.tier != t.tier;
    }
  }

  /**
   A run leaves nothing to detect under the same settings exactly when no added track is configured
   as a stream copy.
   */
  lemma ConvergesIff(p: seq<Stream>, targets: seq<Target>, settings: DownmixSettings, index: Option<int>, inherit: bool,
                     p': seq<Stream>, again: seq<Target>)
    requires Detects(Pairs(p), settings, targets) && Realized(p, targets, settings, index, inherit, p')
    requires Detects(Pairs(p'), settings, again)
    ensures again == [] <==> Transcodes(targets, settings)
  {
    RunPairs(p, targets, settings, index, inherit, p');
    if Transcodes(targets, settings) {
      assert AddedBy(targets, settings) == Added(targets);
      Converges(p, settings, targets, p', again);
    } else {
      var t :| t in targets && Copies(t, settings);
      CopyStillMissing(p, targets, settings, p', t);
      assert t in again;
    }
  }

  // ----- several runs -----

  /** One successful run: `targets` is what detection finds, `index` and `inherit` are free. */
  datatype Run = Run(settings: DownmixSettings, targets: seq<Target>, index: Option<int>, inherit: bool)

  ghost predicate RanTo(p: seq<Stream>, run: Run, p': seq<Stream>) {
    && Detects(Pairs(p), run.settings, run.targets)
    && Realized(p, run.targets, run.settings, run.index, run.inherit, p')
  }

  /** Each probe is what the run before it made of the probe before it. */
  ghost predicate RunsAlong(probes: seq<seq<Stream>>, runs: seq<Run>) {
    |probes| == |runs| + 1 && forall i :: 0 <= i < |runs| ==> RanTo(probes[i], runs[i], probes[i + 1])
  }

  function SettingsOf(runs: seq<Run>): (r: seq<DownmixSettings>)
    ensures |r| == |runs|
  {
    seq(|runs|, i requires 0 <= i < |runs| => runs[i].settings)
  }

  lemma RunReachesAfter(p: seq<Stream>, run: Run, p': seq<Stream>)
    requires RanTo(p, run, p')
    ensures Pairs(p') == After(Pairs(p), run.settings)
  {
    RunPairs(p, run.targets, run.settings, run.index, run.inherit, p');
    AfterDetection(Pairs(p), run.settings, run.targets);
  }

  lemma {:induction false} RunsReachFinal(probes: seq<seq<Stream>>, runs: seq<Run>)
    requires RunsAlong(probes, runs)
    ensures Pairs(probes[|runs|]) == Final(Pairs(probes[0]), SettingsOf(runs))
  {
    if runs != [] {
      var n := |runs| - 1;
      RunsReachFinal(probes[..n + 1], runs[..n]);
      RunReachesAfter(probes[n], runs[n], probes[n + 1]);
      assert SettingsOf(runs)[..n] == SettingsOf(runs[..n]);
    }
  }

  /** What any sequence of runs leaves: what was there, and what any of the runs asked for and transcoded. */
  lemma RunsMembers(probes: seq<seq<Stream>>, runs: seq<Run>, x: (string, int))
    requires RunsAlong(probes, runs)
    ensures x in Pairs(probes[|runs|]) <==>
              x in Pairs(probes[0]) || exists run :: run in runs && Wanted(Pairs(probes[0]), run.settings, x)
  {
    RunsReachFinal(probes, runs);
    FinalMembers(Pairs(probes[0]), SettingsOf(runs), x);
    SettingsMembers(runs);
    forall s | s in SettingsOf(runs) && Wanted(Pairs(probes[0]), s, x)
      ensures exists run :: run in runs && Wanted(Pairs(probes[0]), run.settings, x)
    {
      var run :| run in runs && run.settings == s;
    }
  }

  lemma SettingsMembers(runs: seq<Run>)
    ensures forall run :: run in runs ==> run.settings in SettingsOf(runs)
    ensures forall s :: s in SettingsOf(runs) ==> exists run :: run in runs && run.settings == s
  {
    forall run | run in runs ensures run.settings in SettingsOf(runs) {
      var i :| 0 <= i < |runs| && runs[i] == run;
      assert SettingsOf(runs)[i] == run.settings;
    }
    forall s | s in SettingsOf(runs) ensures exists run :: run in runs && run.settings == s {
      var i :| 0 <= i < |runs| && SettingsOf(runs)[i] == s;
      assert runs[i] in runs;
    }
  }

  /** Runs commute and repeat for free: from the same channel counts, only the set of settings used matters. */
  lemma RunsConfluent(probes: seq<seq<Stream>>, runs: seq<Run>, probes': seq<seq<Stream>>, runs': seq<Run>)
    requires RunsAlong(probes, runs) && RunsAlong(probes', runs') && Pairs(probes[0]) == Pairs(probes'[0])
    requires forall s :: s in SettingsOf(runs) <==> s in SettingsOf(runs')
    ensures Pairs(probes[|runs|]) == Pairs(probes'[|runs'|])
  {
    RunsReachFinal(probes, runs);
    RunsReachFinal(probes', runs');
    Confluent(Pairs(probes[0]), SettingsOf(runs), SettingsOf(runs'));
  }

  // ----- the default flag -----

  /** With an index, exactly that output track carries the default flag. */
  lemma OneDefault(p: seq<Stream>, targets: seq<Target>, settings: DownmixSettings, i: nat, inherit: bool,
                   p': seq<Stream>)
    requires Realized(p, targets, settings, Some(i), inherit, p') && i < |p'|
    ensures Defaults(p') == {i} && AlreadyCorrect(p', i)
  {
    forall k | 0 <= k < |p'| ensures p'[k].isDefault <==> k == i {
      LayoutPredicted(p, targets, settings, Some(i), inherit, p', k);
    }
  }

  /** Every planned track is narrower than its source. */
  ghost predicate Narrower(p: seq<Stream>, targets: seq<Target>) {
    && Sources(p, targets).Ok?
    && forall j :: 0 <= j < |targets| ==> Sources(p, targets).value[j].1.channels > Channels(targets[j].tier)
  }

  lemma DetectedNarrower(p: seq<Stream>, settings: DownmixSettings, targets: seq<Target>)
    requires Detects(Pairs(p), settings, targets)
    ensures Narrower(p, targets)
  {
    DetectedSourcesWider(p, settings, targets);
    SourcesMeaning(p, targets);
    forall j | 0 <= j < |targets| ensures Sources(p, targets).value[j].1.channels > Channels(targets[j].tier) {
      assert Sources(p, targets).value[j] in Sources(p, targets).value;
    }
  }

  /** `o` outranks `s`: the same language, and at least as many channels. */
  predicate Outranks(o: Stream, s: Stream) { o.language == s.language && o.channels >= s.channels }

  /** `q` is `p` and more: every further stream is outranked by one of `p`. */
  ghost predicate Extends(p: seq<Stream>, q: seq<Stream>) {
    && |p| <= |q| && Ascends(q)
    && (forall k :: 0 <= k < |p| ==>
          q[k].language == p[k].language && q[k].channels == p[k].channels && q[k].index == p[k].index)
    && (forall k :: |p| <= k < |q| ==> exists j :: 0 <= j < |p| && Outranks(q[j], q[k]))
  }

  /** Outranked streams never change which one is best. */
  lemma BestKept(p: seq<Stream>, q: seq<Stream>, language: Option<string>)
    requires Extends(p, q)
    ensures Best(q, language) == Best(p, language)
  {
    BestMeaning(p, language);
    BestMeaning(q, language);
    if Best(p, language).Some? {
      BestStays(p, q, language, Best(p, language).value);
      BestUnique(q, language, Best(p, language).value);
    } else {
      forall s | s in q ensures !Speaks(s, language) {
        var k :| 0 <= k < |q| && q[k] == s;
        if k < |p| { assert p[k] in p; }
        else {
          var j :| 0 <= j < |p| && Outranks(q[j], q[k]);
          assert p[j] in p;
        }
      }
    }
  }

  lemma BestStays(p: seq<Stream>, q: seq<Stream>, language: Option<string>, b: nat)
    requires Extends(p, q) && IsBest(p, language, b)
    ensures IsBest(q, language, b)
  {
    forall k | 0 <= k < |q| && Speaks(q[k], language) ensures !Better(q[k], q[b]) {
      if k < |p| { assert !Better(p[k], p[b]); }
      else {
        var j :| 0 <= j < |p| && Outranks(q[j], q[k]);
        assert Speaks(p[j], language) && !Better(p[j], p[b]);
      }
    }
    forall k | 0 <= k < b && Speaks(q[k], language) ensures Better(q[b], q[k]) {
      assert Better(p[b], p[k]);
    }
  }

  lemma PlanAscends(p: seq<Stream>, targets: seq<Target>)
    requires Ascends(p)
    ensures Ascends(FinalLayout(p, targets))
  {
    var f := FinalLayout(p, targets);
    forall i, j | 0 <= i < j < |f| ensures f[i].index < f[j].index {
      if i < |p| { assert p[i] in p; }
    }
  }

  lemma PlannedOutranked(p: seq<Stream>, targets: seq<Target>, j: nat) returns (o: nat)
    requires Narrower(p, targets) && j < |targets|
    ensures o < |p| && p[o].language == targets[j].language && p[o].channels > Channels(targets[j].tier)
  {
    SourcesMeaning(p, targets);
    var s := Sources(p, targets).value[j].1;
    assert WidestOf(p, targets[j], s);
    o :| 0 <= o < |p| && p[o] == s;
  }

  lemma PlanExtends(p: seq<Stream>, targets: seq<Target>)
    requires Narrower(p, targets) && Ascends(p)
    ensures Extends(p, FinalLayout(p, targets))
  {
    var f := FinalLayout(p, targets);
    PlanAscends(p, targets);
    forall k | |p| <= k < |f| ensures exists j :: 0 <= j < |p| && Outranks(f[j], f[k]) {
      var o := PlannedOutranked(p, targets, k - |p|);
      assert Outranks(f[o], f[k]);
    }
  }

  /**
   The added track `k`: its language, and its channels, which some original of the language matches
   when it is a copy.
   */
  lemma AddedChannels(p: seq<Stream>, targets: seq<Target>, settings: DownmixSettings, index: Option<int>,
                      inherit: bool, p': seq<Stream>, k: nat)
    returns (j: nat)
    requires Realized(p, targets, settings, index, inherit, p') && Narrower(p, targets) && |p| <= k < |p'|
    ensures var t := targets[k - |p|];
            && p'[k].language == t.language
            && j < |p| && p[j].language == t.language && p[j].channels > Channels(t.tier)
            && p'[k].channels == if Copies(t, settings) then p[j].channels else Channels(t.tier)
  {
    assert AddedAt(p, targets, settings, index, inherit, p', k - |p|);
    j :| 0 <= j < |p| && p[j] == Sources(p, targets).value[k - |p|].1;
  }

  lemma RunExtends(p: seq<Stream>, targets: seq<Target>, settings: DownmixSettings, index: Option<int>, inherit: bool,
                   p': seq<Stream>)
    requires Realized(p, targets, settings, index, inherit, p') && Narrower(p, targets)
    ensures Extends(p, p')
  {
    forall k | |p| <= k < |p'| ensures exists j :: 0 <= j < |p| && Outranks(p'[j], p'[k]) {
      var j := AddedChannels(p, targets, settings, index, inherit, p', k);
      assert Outranks(p'[j], p'[k]);
    }
  }

  predicate Hits(t: Target, pref: Preference) {
    t.language == pref.language && Channels(t.tier) == Channels(pref.tier)
  }

  lemma PlannedExact(p: seq<Stream>, targets: seq<Target>, pref: Preference, k: nat)
    requires k < |p| + |targets|
    ensures Exact(FinalLayout(p, targets)[k], pref)
            <==> if k < |p| then Exact(p[k], pref) else Hits(targets[k - |p|], pref)
  {
  }

  /** A copied track never gives an exact match that no original gives. */
  lemma ExactTrack(p: seq<Stream>, targets: seq<Target>, settings: DownmixSettings, index: Option<int>, inherit: bool,
                   p': seq<Stream>,
                   pref: Preference, k: nat, t: Target)
    requires Realized(p, targets, settings, index, inherit, p') && Narrower(p, targets)
    requires |p| <= k < |p'| && t == targets[k - |p|]
    ensures !Copies(t, settings) ==> (Exact(p'[k], pref) <==> Hits(t, pref))
    ensures Copies(t, settings) && Hits(t, pref) ==> !Exact(p'[k], pref)
    ensures Copies(t, settings) && Exact(p'[k], pref) ==> FirstExact(p, pref).Some?
  {
    var j := AddedChannels(p, targets, settings, index, inherit, p', k);
    assert FirstExact(p, pref).None? ==> !Exact(p[j], pref);
  }

  lemma ExactAfter(p: seq<Stream>, targets: seq<Target>, settings: DownmixSettings, index: Option<int>, inherit: bool,
                   p': seq<Stream>,
                   pref: Preference, k: nat)
    requires Realized(p, targets, settings, index, inherit, p') && Narrower(p, targets) && k < |p'|
    ensures k < |p| ==> (Exact(p'[k], pref) <==> Exact(p[k], pref))
    ensures k >= |p| && FirstExact(p, pref).None? ==>
              (Exact(p'[k], pref) <==> Exact(FinalLayout(p, targets)[k], pref) && !Copies(targets[k - |p|], settings))
  {
    PlannedExact(p, targets, pref, k);
    if k >= |p| { ExactTrack(p, targets, settings, index, inherit, p', pref, k, targets[k - |p|]); }
  }

  /** The first exact match among the originals is the first exact match of all, before and after. */
  lemma ExactOriginal(p: seq<Stream>, targets: seq<Target>, settings: DownmixSettings, index: Option<int>,
                      inherit: bool, p': seq<Stream>, pref: Preference)
    requires Realized(p, targets, settings, index, inherit, p') && Narrower(p, targets) && FirstExact(p, pref).Some?
    ensures FirstExact(FinalLayout(p, targets), pref) == FirstExact(p, pref) == FirstExact(p', pref)
  {
    var i := FirstExact(p, pref).value;
    forall k: nat | k <= i ensures Exact(p'[k], pref) <==> Exact(p[k], pref) {
      ExactAfter(p, targets, settings, index, inherit, p', pref, k);
    }
    FirstExactIs(FinalLayout(p, targets), pref, i);
    FirstExactIs(p', pref, i);
  }

  lemma FirstExactIs(s: seq<Stream>, pref: Preference, i: nat)
    requires i < |s| && Exact(s[i], pref) && forall k :: 0 <= k < i ==> !Exact(s[k], pref)
    ensures FirstExact(s, pref) == Some(i)
  {
  }

  /** Without an exact original, a planned exact match survives the run unless it is made by copying. */
  lemma ExactAdded(p: seq<Stream>, targets: seq<Target>, settings: DownmixSettings, index: Option<int>, inherit: bool,
                   p': seq<Stream>,
                   pref: Preference, i: nat)
    requires Realized(p, targets, settings, index, inherit, p') && Narrower(p, targets)
    requires FirstExact(p, pref).None? && FirstExact(FinalLayout(p, targets), pref) == Some(i)
    ensures |p| <= i < |p| + |targets|
    ensures FirstExact(p', pref) == Some(i) <==> !Copies(targets[i - |p|], settings)
  {
    var f := FinalLayout(p, targets);
    assert forall k :: 0 <= k < |p| ==> f[k] == p[k] && !Exact(p[k], pref);
    forall k: nat | k < |p'| ensures Exact(p'[k], pref) ==> Exact(f[k], pref) {
      ExactAfter(p, targets, settings, index, inherit, p', pref, k);
    }
    ExactAfter(p, targets, settings, index, inherit, p', pref, i);
    if !Copies(targets[i - |p|], settings) { FirstExactIs(p', pref, i); }
  }

  /** Without a planned exact match there is none after the run. */
  lemma ExactNone(p: seq<Stream>, targets: seq<Target>, settings: DownmixSettings, index: Option<int>, inherit: bool,
                  p': seq<Stream>, pref: Preference)
    requires Realized(p, targets, settings, index, inherit, p') && Narrower(p, targets)
            && FirstExact(FinalLayout(p, targets), pref).None?
    ensures FirstExact(p', pref).None?
  {
    var f := FinalLayout(p, targets);
    assert forall k :: 0 <= k < |p| ==> f[k] == p[k];
    forall k: nat | k < |p'| ensures !Exact(p'[k], pref) {
      ExactAfter(p, targets, settings, index, inherit, p', pref, k);
    }
  }

  lemma BestAfter(p: seq<Stream>, targets: seq<Target>, settings: DownmixSettings, index: Option<int>, inherit: bool,
                  p': seq<Stream>,
                  language: Option<string>)
    requires Realized(p, targets, settings, index, inherit, p') && Narrower(p, targets)
    ensures Best(FinalLayout(p, targets), language) == Best(p, language) == Best(p', language)
  {
    PlanExtends(p, targets);
    RunExtends(p, targets, settings, index, inherit, p');
    BestKept(p, FinalLayout(p, targets), language);
    BestKept(p, p', language);
  }

  lemma ResolveSame(a: seq<Stream>, b: seq<Stream>, pref: Preference)
    requires |a| == |b| && FirstExact(a, pref) == FirstExact(b, pref)
    requires Best(a, Some(pref.language)) == Best(b, Some(pref.language)) && Best(a, None) == Best(b, None)
    ensures Resolve(a, pref) == Resolve(b, pref)
  {
  }

  /** A stream that is no exact match and stands behind every best one is not the winner. */
  lemma ResolveOther(s: seq<Stream>, pref: Preference, n: nat, i: nat)
    requires FirstExact(s, pref) != Some(i) && n <= i
    requires Best(s, Some(pref.language)).Some? ==> Best(s, Some(pref.language)).value < n
    requires Best(s, None).Some? ==> Best(s, None).value < n
    ensures Resolve(s, pref) != Some(i)
  {
  }

  /** What the resolver picks before the run is what it picks after it, unless that is a track made by copying. */
  lemma WinnerAfter(p: seq<Stream>, targets: seq<Target>, settings: DownmixSettings, index: Option<int>, inherit: bool,
                    p': seq<Stream>,
                    pref: Preference, i: nat)
    requires Realized(p, targets, settings, index, inherit, p') && Narrower(p, targets)
    requires Resolve(FinalLayout(p, targets), pref) == Some(i)
    ensures i < |p'| == |p| + |targets|
    ensures Resolve(p', pref) == Some(i) <==> i < |p| || !Copies(targets[i - |p|], settings)
  {
    var f := FinalLayout(p, targets);
    BestAfter(p, targets, settings, index, inherit, p', Some(pref.language));
    BestAfter(p, targets, settings, index, inherit, p', None);
    if FirstExact(p, pref).Some? {
      ExactOriginal(p, targets, settings, index, inherit, p', pref);
      ResolveSame(f, p', pref);
    } else if FirstExact(f, pref).Some? {
      ExactAdded(p, targets, settings, index, inherit, p', pref, i);
      if Copies(targets[i - |p|], settings) { ResolveOther(p', pref, |p|, i); }
    } else {
      ExactNone(p, targets, settings, index, inherit, p', pref);
      ResolveSame(f, p', pref);
    }
  }

  lemma AimedFixpoint(p: seq<Stream>, targets: seq<Target>, settings: DownmixSettings, pref: Preference, i: nat,
                      inherit: bool, p': seq<Stream>)
    requires OutputIndex(p, targets, pref) == Some(i) && Narrower(p, targets)
    requires Realized(p, targets, settings, Some(i), inherit, p')
    ensures NothingToDo(p', pref) <==> i < |p| || !Copies(targets[i - |p|], settings)
  {
    WinnerAfter(p, targets, settings, Some(i), inherit, p', pref, i);
    OneDefault(p, targets, settings, i, inherit, p');
    ResolveMeaning(p', pref, i);
  }

  /**
   Setting the default track is a fixpoint, whatever the codecs, exactly when the track aimed
   at is not made by copying: afterwards the same preference finds nothing to change.
   */
  lemma DefaultFixpoint(p: seq<Stream>, targets: seq<Target>, settings: DownmixSettings, pref: Preference, i: nat,
                        inherit: bool, p': seq<Stream>)
    requires Detects(Pairs(p), settings, targets) && OutputIndex(p, targets, pref) == Some(i)
    requires Realized(p, targets, settings, Some(i), inherit, p')
    ensures NothingToDo(p', pref) <==> i < |p| || !Copies(targets[i - |p|], settings)
    ensures NothingToDo(p', pref) <==> Resolve(p', pref) == Some(i)
    ensures NothingToDo(p', pref) <==> OutputIndex(p', [], pref) == None
  {
    DetectedNarrower(p, settings, targets);
    AimedFixpoint(p, targets, settings, pref, i, inherit, p');
    WinnerAfter(p, targets, settings, Some(i), inherit, p', pref, i);
    ChecksAgree(p', [], pref);
  }

  /** The disposition pipeline: whenever it decides to act its command is accepted, and it never has to act twice. */
  lemma DispositionFixpoint(p: seq<Stream>, settings: DownmixSettings, pref: Preference, inherit: bool)
    requires !NothingToDo(p, pref)
    ensures var i := Resolve(p, pref).value;
            && BuildCheck(p, [], Some(i)).None?
            && forall p' :: Realized(p, [], settings, Some(i), inherit, p') ==> NothingToDo(p', pref)
  {
    assert FinalLayout(p, []) == p;
    var i := Resolve(p, pref).value;
    forall p' | Realized(p, [], settings, Some(i), inherit, p') ensures NothingToDo(p', pref) {
      AimedFixpoint(p, [], settings, pref, i, inherit, p');
    }
  }

  /** Some added track carries the default flag of the stream it is made from. */
  ghost predicate FedByDefault(p: seq<Stream>, targets: seq<Target>, settings: DownmixSettings, inherit: bool)
    requires Sources(p, targets).Ok?
  {
    exists j :: 0 <= j < |targets| && Sources(p, targets).value[j].1.isDefault
        && (inherit || Copies(targets[j], settings))
  }

  /** Which tracks are default when no disposition option is written. */
  lemma InheritedDefaults(p: seq<Stream>, targets: seq<Target>, settings: DownmixSettings, inherit: bool,
                          p': seq<Stream>, k: nat)
    requires Realized(p, targets, settings, None, inherit, p') && k < |p'|
    ensures p'[k].isDefault <==>
              if k < |p| then p[k].isDefault
              else Sources(p, targets).value[k - |p|].1.isDefault && (inherit || Copies(targets[k - |p|], settings))
  {
    if k >= |p| { assert AddedAt(p, targets, settings, None, inherit, p', k - |p|); }
  }

  /** When the planned layout needs no change, its winner is an original and the only default among them. */
  lemma InBandWinner(p: seq<Stream>, targets: seq<Target>, pref: Preference) returns (w: nat)
    requires OutputIndex(p, targets, pref) == None && |p| + |targets| >= 2
    ensures Resolve(FinalLayout(p, targets), pref) == Some(w) && w < |p|
    ensures forall k :: 0 <= k < |p| ==> (p[k].isDefault <==> k == w)
  {
    var f := FinalLayout(p, targets);
    ResolveMeaning(f, pref, 0);
    w := Resolve(f, pref).value;
    assert AlreadyCorrect(f, w) && f[w].isDefault;
    assert forall k :: 0 <= k < |p| ==> f[k] == p[k];
  }

  lemma SomeStream(p: seq<Stream>, targets: seq<Target>)
    requires Sources(p, targets).Ok? && targets != []
    ensures p != []
  {
    SourcesMeaning(p, targets);
    assert targets[0] in targets;
  }

  /**
   In-band, when the resolver says the default is already right, no disposition option is
   written. Re-probing agrees exactly when no added track is made from a default stream in a
   way that keeps its flag: by copying, or, if `inherit`, by encoding.
   */
  lemma InBandIff(p: seq<Stream>, targets: seq<Target>, settings: DownmixSettings, pref: Preference, inherit: bool,
                  p': seq<Stream>)
    requires Detects(Pairs(p), settings, targets) && OutputIndex(p, targets, pref) == None
    requires Realized(p, targets, settings, None, inherit, p')
    ensures NothingToDo(p', pref) <==> !FedByDefault(p, targets, settings, inherit)
  {
    if |p'| < 2 {
      assert targets != [] ==> p != [] by { if targets != [] { SomeStream(p, targets); } }
      return;
    }
    DetectedNarrower(p, settings, targets);
    var w := InBandWinner(p, targets, pref);
    WinnerAfter(p, targets, settings, None, inherit, p', pref, w);
    forall k: nat | k < |p'|
      ensures p'[k].isDefault <==>
                if k < |p| then k == w
                else Sources(p, targets).value[k - |p|].1.isDefault && (inherit || Copies(targets[k - |p|], settings))
    {
      InheritedDefaults(p, targets, settings, inherit, p', k);
    }
    if FedByDefault(p, targets, settings, inherit) {
      var j :| 0 <= j < |targets| && Sources(p, targets).value[j].1.isDefault
          && (inherit || Copies(targets[j], settings));
      assert p'[|p| + j].isDefault && |p| + j != w;
    }
  }

  /**
   The flag ends up where it was aimed: the track at `index` is not a copy, or, when no flag is
   written, no added track keeps one.
   */
  ghost predicate FlagLands(p: seq<Stream>, targets: seq<Target>, settings: DownmixSettings, index: Option<nat>,
                            inherit: bool)
    requires Sources(p, targets).Ok? && (index.Some? ==> index.value < |p| + |targets|)
  {
    match index
    case Some(i) => i < |p| || !Copies(targets[i - |p|], settings)
    case None => !FedByDefault(p, targets, settings, inherit)
  }

  lemma AimedLands(p: seq<Stream>, targets: seq<Target>, settings: DownmixSettings, pref: Preference, i: nat,
                   inherit: bool, p': seq<Stream>)
    requires Detects(Pairs(p), settings, targets) && OutputIndex(p, targets, pref) == Some(i)
    requires Realized(p, targets, settings, Some(i), inherit, p')
    ensures NothingToDo(p', pref) <==> FlagLands(p, targets, settings, Some(i), inherit)
  {
    DefaultFixpoint(p, targets, settings, pref, i, inherit, p');
  }

  /** A downmix that also sets the default track settles it exactly when the flag lands. */
  lemma AutoSetIff(p: seq<Stream>, targets: seq<Target>, settings: DownmixSettings, pref: Preference,
                   index: Option<nat>,
                   inherit: bool, p': seq<Stream>)
    requires Detects(Pairs(p), settings, targets) && index == OutputIndex(p, targets, pref)
    requires Realized(p, targets, settings, index, inherit, p')
    ensures NothingToDo(p', pref) <==> FlagLands(p, targets, settings, index, inherit)
  {
    match index
    case Some(i) => AimedLands(p, targets, settings, pref, i, inherit, p');
    case None => InBandIff(p, targets, settings, pref, inherit, p');
  }

  /** Detected targets always build, with no index or with the resolver's. */
  lemma DetectedPlanBuilds(p: seq<Stream>, settings: DownmixSettings, targets: seq<Target>, pref: Preference)
    requires Detects(Pairs(p), settings, targets) && targets != []
    ensures BuildCheck(p, targets, None).None? && BuildCheck(p, targets, OutputIndex(p, targets, pref)).None?
  {
    DetectedSourcesWider(p, settings, targets);
  }
}
