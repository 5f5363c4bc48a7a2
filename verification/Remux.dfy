/** The ffmpeg command line that adds the planned tracks and, if asked, moves the default flag. */
module Remux {
  import opened Common
  import opened Audio
  import opened Decimal
  import opened Targets

  datatype BuildError = NothingToRemux | NoSource(target: Target) | IndexOutOfRange(index: int, total: nat)

  // ----- sources -----

  /** Each target with the widest stream of its language, the first target without one being an error. */
  function Sources(streams: seq<Stream>, targets: seq<Target>): (r: Result<seq<(Target, Stream)>, BuildError>)
    ensures r.Ok? ==> |r.value| == |targets|
  {
    if targets == [] then Ok([])
    else
      var n := |targets| - 1;
      var rest := Sources(streams, targets[..n]);
      var b := Best(streams, Some(targets[n].language));
      if rest.Err? then rest
      else if b.None? then Err(NoSource(targets[n]))
      else Ok(rest.value + [(targets[n], streams[b.value])])
  }

  method ResolveSources(streams: seq<Stream>, targets: seq<Target>)
    returns (r: Result<seq<(Target, Stream)>, BuildError>)
    ensures r == Sources(streams, targets)
  {
    var resolved := [];
    for i := 0 to |targets|
      invariant Sources(streams, targets[..i]) == Ok(resolved)
    {
      assert targets[..i + 1][..i] == targets[..i];
      var b := Best(streams, Some(targets[i].language));
      if b.None? {
        SourcesFail(streams, targets, i);
        return Err(NoSource(targets[i]));
      }
      resolved := resolved + [(targets[i], streams[b.value])];
    }
    assert targets[..|targets|] == targets;
    r := Ok(resolved);
  }

  /** The first target without a source decides the error. */
  lemma {:induction false} SourcesFail(streams: seq<Stream>, targets: seq<Target>, i: nat)
    requires i < |targets| && Sources(streams, targets[..i]).Ok? && Best(streams, Some(targets[i].language)).None?
    ensures Sources(streams, targets) == Err(NoSource(targets[i]))
  {
    var n := |targets| - 1;
    if i < n {
      assert targets[..n][..i] == targets[..i];
      SourcesFail(streams, targets[..n], i);
    }
  }

  /**
   The chosen source speaks the target's language; of the streams that do it is the widest, and the
   first of those.
   */
  ghost predicate WidestOf(streams: seq<Stream>, t: Target, s: Stream) {
    && s in streams && s.language == t.language
    && forall o :: o in streams && o.language == t.language ==>
         o.channels < s.channels || (o.channels == s.channels && s.index <= o.index)
  }

  lemma BestSource(streams: seq<Stream>, t: Target)
    ensures var b := Best(streams, Some(t.language));
            if b.Some? then WidestOf(streams, t, streams[b.value])
            else forall s :: s in streams ==> s.language != t.language
  {
    BestMeaning(streams, Some(t.language));
    var b := Best(streams, Some(t.language));
    if b.Some? { BestPicks(streams, Some(t.language), b.value); }
  }

  lemma {:induction false} SourcesExist(streams: seq<Stream>, targets: seq<Target>)
    ensures Sources(streams, targets).Ok? <==> forall t ::
            t in targets ==> exists s :: s in streams && s.language == t.language
  {
    if targets != [] {
      var n := |targets| - 1;
      var t := targets[n];
      assert targets == targets[..n] + [t];
      SourcesExist(streams, targets[..n]);
      BestSource(streams, t);
      assert t in targets;
    }
  }

  lemma {:induction false} SourceIs(streams: seq<Stream>, targets: seq<Target>, i: nat)
    requires Sources(streams, targets).Ok? && i < |targets|
    ensures var p := Sources(streams, targets).value[i]; p.0 == targets[i] && WidestOf(streams, targets[i], p.1)
  {
    var n := |targets| - 1;
    if i < n { SourceIs(streams, targets[..n], i); } else { BestSource(streams, targets[n]); }
  }

  lemma SourcesMeaning(streams: seq<Stream>, targets: seq<Target>)
    ensures Sources(streams, targets).Ok? <==> forall t ::
            t in targets ==> exists s :: s in streams && s.language == t.language
    ensures Sources(streams, targets).Ok? ==>
              forall i :: 0 <= i < |targets| ==> var p := Sources(streams, targets).value[i];
                  p.0 == targets[i] && WidestOf(streams, p.0, p.1)
  {
    SourcesExist(streams, targets);
    if Sources(streams, targets).Ok? {
      forall i | 0 <= i < |targets|
        ensures var p := Sources(streams, targets).value[i]; p.0 == targets[i] && WidestOf(streams, p.0, p.1)
      {
        SourceIs(streams, targets, i);
      }
    }
  }

  /** On detected targets source resolution never fails, and each source has strictly more channels than its target. */
  lemma DetectedSourcesWider(streams: seq<Stream>, settings: DownmixSettings, targets: seq<Target>)
    requires Detects(Pairs(streams), settings, targets)
    ensures Sources(streams, targets).Ok?
    ensures forall p :: p in Sources(streams, targets).value ==> p.1 in streams && p.1.channels > Channels(p.0.tier)
  {
    SourcesMeaning(streams, targets);
    forall t | t in targets ensures exists s ::
        s in streams && s.language == t.language && s.channels > Channels(t.tier) {
      assert HasWider(Pairs(streams), t);
      var c :| (t.language, c) in Pairs(streams) && c > Channels(t.tier);
      var s :| s in streams && (s.language, s.channels) == (t.language, c);
    }
    var sources := Sources(streams, targets).value;
    forall p | p in sources ensures p.1 in streams && p.1.channels > Channels(p.0.tier) {
      var i :| 0 <= i < |sources| && sources[i] == p;
      assert targets[i] in targets && WidestOf(streams, p.0, p.1);
    }
  }

  // ----- the command -----

  /** The per-track options, each for one output audio track. */
  datatype Field = CodecField | ChannelsField | LayoutField | BitrateField | LanguageField | DispositionField

  function FieldName(f: Field): string {
    match f
    case CodecField => "-c:a:"
    case ChannelsField => "-ac:a:"
    case LayoutField => "-channel_layout:a:"
    case BitrateField => "-b:a:"
    case LanguageField => "-metadata:s:a:"
    case DispositionField => "-disposition:a:"
  }

  /** What one per-track option sets. */
  datatype Setting =
    | Codec(name: string) | ChannelCount(n: int) | LayoutIs(layout: string) | Bitrate(kbps: int)
    | Language(tag: string) | DefaultFlag(on: bool)

  function FieldOf(x: Setting): Field {
    match x
    case Codec(_) => CodecField
    case ChannelCount(_) => ChannelsField
    case LayoutIs(_) => LayoutField
    case Bitrate(_) => BitrateField
    case Language(_) => LanguageField
    case DefaultFlag(_) => DispositionField
  }

  function Spell(x: Setting): string {
    match x
    case Codec(name) => name
    case ChannelCount(n) => Str(n)
    case LayoutIs(layout) => layout
    case Bitrate(kbps) => Str(kbps) + "k"
    case Language(tag) => "language=" + tag
    case DefaultFlag(on) => if on then "default" else "0"
  }

  /** One option of the command line. */
  datatype Opt = Input(file: string) | MapAll | MapStream(index: int) | CopyAll | Set(track: int, what: Setting)

  /** The two arguments an option is written as. */
  function Tokens(o: Opt): (t: seq<string>)
    ensures |t| == 2
  {
    match o
    case Input(file) => ["-i", file]
    case MapAll => ["-map", "0"]
    case MapStream(index) => ["-map", "0:" + Str(index)]
    case CopyAll => ["-c", "copy"]
    case Set(track, x) => [FieldName(FieldOf(x)) + Str(track), Spell(x)]
  }

  function Flat(opts: seq<Opt>): seq<string> {
    if opts == [] then [] else Flat(opts[..|opts| - 1]) + Tokens(opts[|opts| - 1])
  }

  function BitrateOptions(track: int, t: Tier, settings: DownmixSettings): seq<Opt> {
    var rate := CodecFor(t, settings).1;
    if rate.Some? then [Set(track, Bitrate(rate.value))] else []
  }

  function TrackOptions(track: int, t: Target, settings: DownmixSettings): seq<Opt> {
    [Set(track, Codec(CodecFor(t.tier, settings).0)), Set(track, ChannelCount(Channels(t.tier))),
        Set(track, LayoutIs(LayoutName(t.tier)))]
    + BitrateOptions(track, t.tier, settings) + [Set(track, Language(t.language))]
  }

  function SourceMaps(sources: seq<(Target, Stream)>): seq<Opt> {
    if sources == [] then []
    else var n := |sources| - 1; SourceMaps(sources[..n]) + [MapStream(sources[n].1.index)]
  }

  function AllTrackOptions(start: int, sources: seq<(Target, Stream)>, settings: DownmixSettings): seq<Opt> {
    if sources == [] then []
    else var n := |sources| - 1;
        AllTrackOptions(start, sources[..n], settings) + TrackOptions(start + n, sources[n].0, settings)
  }

  function Dispositions(n: nat, index: int): seq<Opt> {
    if n == 0 then [] else Dispositions(n - 1, index) + [Set(n - 1, DefaultFlag(n - 1 == index))]
  }

  function DefaultOptions(total: nat, index: Option<int>): seq<Opt> {
    if index.Some? then Dispositions(total, index.value) else []
  }

  /** The order of the command line: input, maps, the blanket copy, then the per-track options. */
  function Arranged(file: string, maps: seq<Opt>, tracks: seq<Opt>, defaults: seq<Opt>): seq<Opt> {
    [Input(file), MapAll] + maps + [CopyAll] + tracks + defaults
  }

  function Options(file: string, streams: nat, sources: seq<(Target, Stream)>, settings: DownmixSettings,
                   index: Option<int>): seq<Opt>
  {
    Arranged(file, SourceMaps(sources), AllTrackOptions(streams, sources, settings),
        DefaultOptions(streams + |sources|, index))
  }

  function Command(ffmpeg: string, opts: seq<Opt>, out: string): seq<string> {
    [ffmpeg, "-hide_banner", "-nostdin", "-y"] + Flat(opts) + [out]
  }

  /** What `build_remux_command` raises, if anything; the checks run in this order. */
  function BuildCheck(streams: seq<Stream>, targets: seq<Target>, index: Option<int>): Option<BuildError> {
    if targets == [] && index.None? then Some(NothingToRemux)
    else
      var sources := Sources(streams, targets);
      if sources.Err? then Some(sources.error)
      else if index.Some? && !(0 <= index.value < |streams| + |targets|)
          then Some(IndexOutOfRange(index.value, |streams| + |targets|))
      else None
  }

  /** Target `i` is the first whose language no stream speaks. */
  ghost predicate FirstMissing(streams: seq<Stream>, targets: seq<Target>, i: nat) {
    && i < |targets| && (forall s :: s in streams ==> s.language != targets[i].language)
    && forall j :: 0 <= j < i ==> exists s :: s in streams && s.language == targets[j].language
  }

  lemma MissingDecides(streams: seq<Stream>, targets: seq<Target>, i: nat)
    requires FirstMissing(streams, targets, i)
    ensures Sources(streams, targets) == Err(NoSource(targets[i]))
  {
    SourcesMeaning(streams, targets[..i]);
    BestMeaning(streams, Some(targets[i].language));
    forall t | t in targets[..i] ensures exists s :: s in streams && s.language == t.language {
      var j :| 0 <= j < i && targets[..i][j] == t;
      assert targets[j] == t;
    }
    SourcesFail(streams, targets, i);
  }

  lemma {:induction false} MissingExists(streams: seq<Stream>, targets: seq<Target>) returns (i: nat)
    requires Sources(streams, targets).Err?
    ensures FirstMissing(streams, targets, i)
  {
    var n := |targets| - 1;
    if Sources(streams, targets[..n]).Err? {
      i := MissingExists(streams, targets[..n]);
    } else {
      SourcesMeaning(streams, targets[..n]);
      BestMeaning(streams, Some(targets[n].language));
      i := n;
      forall j | 0 <= j < n ensures exists s :: s in streams && s.language == targets[j].language {
        assert targets[..n][j] in targets[..n];
      }
    }
  }

  lemma SourcesErr(streams: seq<Stream>, targets: seq<Target>)
    ensures Sources(streams, targets).Err? <==> exists i: nat :: FirstMissing(streams, targets, i)
    ensures forall i: nat ::
            FirstMissing(streams, targets, i) ==> Sources(streams, targets) == Err(NoSource(targets[i]))
  {
    forall i: nat | FirstMissing(streams, targets, i) ensures Sources(streams, targets) == Err(NoSource(targets[i])) {
      MissingDecides(streams, targets, i);
    }
    if Sources(streams, targets).Err? { var i := MissingExists(streams, targets); }
  }

  /** When the command cannot be built, and why: the three errors, and that there is no fourth. */
  lemma BuildFails(streams: seq<Stream>, targets: seq<Target>, index: Option<int>)
    ensures var r, total := BuildCheck(streams, targets, index), |streams| + |targets|;
            && (r == Some(NothingToRemux) <==> targets == [] && index == None)
            && (forall t :: r == Some(NoSource(t))
                 <==> exists i: nat :: FirstMissing(streams, targets, i) && targets[i] == t)
            && (forall x, n :: r == Some(IndexOutOfRange(x, n)) <==>
                 index == Some(x) && n == total && (x < 0 || x >= total)
                     && !exists i: nat :: FirstMissing(streams, targets, i))
  {
    SourcesErr(streams, targets);
  }

  lemma {:induction false} FlatConcat(a: seq<Opt>, b: seq<Opt>)
    ensures Flat(a + b) == Flat(a) + Flat(b)
  {
    if b == [] { assert a + b == a; }
    else {
      var n := |b| - 1;
      assert (a + b)[..|a + b| - 1] == a + b[..n];
      FlatConcat(a, b[..n]);
      Assoc(Flat(a), Flat(b[..n]), Tokens(b[n]));
    }
  }

  lemma Assoc(a: seq<string>, b: seq<string>, c: seq<string>)
    ensures (a + b) + c == a + (b + c)
  {
  }

  /** Appending one option's arguments to a command that so far spells `opts`. */
  lemma FlatSnoc(command: seq<string>, opts: seq<Opt>, o: Opt)
    ensures command + Flat(opts + [o]) == command + Flat(opts) + Tokens(o)
  {
    assert (opts + [o])[..|opts|] == opts;
    Assoc(command, Flat(opts), Tokens(o));
  }

  /** `command` spells `base` and then the options `opts`. */
  ghost predicate Spells(command: seq<string>, base: seq<string>, opts: seq<Opt>) { command == base + Flat(opts) }

  method AppendOption(command: seq<string>, ghost base: seq<string>, ghost opts: seq<Opt>, o: Opt)
    returns (r: seq<string>)
    requires Spells(command, base, opts)
    ensures Spells(r, base, opts + [o])
  {
    FlatSnoc(base, opts, o);
    r := command + Tokens(o);
  }

  lemma TrackAssembled(opts: seq<Opt>, a: Opt, b: Opt, c: Opt, x: seq<Opt>, d: Opt)
    ensures opts + [a] + [b] + [c] + x + [d] == opts + ([a, b, c] + x + [d])
  {
  }

  method AppendTrack(command: seq<string>, ghost base: seq<string>, ghost opts: seq<Opt>, track: int, t: Target,
                     settings: DownmixSettings)
    returns (r: seq<string>)
    requires Spells(command, base, opts)
    ensures Spells(r, base, opts + TrackOptions(track, t, settings))
  {
    var (codec, bitrate) := CodecFor(t.tier, settings);
    ghost var done := opts;
    r := AppendOption(command, base, done, Set(track, Codec(codec)));
    done := done + [Set(track, Codec(codec))];
    r := AppendOption(r, base, done, Set(track, ChannelCount(Channels(t.tier))));
    done := done + [Set(track, ChannelCount(Channels(t.tier)))];
    r := AppendOption(r, base, done, Set(track, LayoutIs(LayoutName(t.tier))));
    done := done + [Set(track, LayoutIs(LayoutName(t.tier)))];
    ghost var first := done;
    if bitrate.Some? {
      r := AppendOption(r, base, done, Set(track, Bitrate(bitrate.value)));
      done := done + [Set(track, Bitrate(bitrate.value))];
    }
    assert done == first + BitrateOptions(track, t.tier, settings);
    r := AppendOption(r, base, done, Set(track, Language(t.language)));
    TrackAssembled(opts, Set(track, Codec(codec)), Set(track, ChannelCount(Channels(t.tier))),
        Set(track, LayoutIs(LayoutName(t.tier))),
                   BitrateOptions(track, t.tier, settings), Set(track, Language(t.language)));
  }

  method AppendMaps(command: seq<string>, ghost base: seq<string>, ghost opts: seq<Opt>, sources: seq<(Target, Stream)>)
    returns (r: seq<string>)
    requires Spells(command, base, opts)
    ensures Spells(r, base, opts + SourceMaps(sources))
  {
    r := command;
    assert opts + SourceMaps([]) == opts;
    for i := 0 to |sources|
      invariant Spells(r, base, opts + SourceMaps(sources[..i]))
    {
      assert sources[..i + 1][..i] == sources[..i];
      r := AppendOption(r, base, opts + SourceMaps(sources[..i]), MapStream(sources[i].1.index));
      assert opts + SourceMaps(sources[..i + 1]) == opts + SourceMaps(sources[..i]) + [MapStream(sources[i].1.index)];
    }
    assert sources[..|sources|] == sources;
  }

  lemma TracksSnoc(opts: seq<Opt>, start: int, sources: seq<(Target, Stream)>, i: nat, settings: DownmixSettings)
    requires i < |sources|
    ensures opts + AllTrackOptions(start, sources[..i + 1], settings)
         == opts + AllTrackOptions(start, sources[..i], settings) + TrackOptions(start + i, sources[i].0, settings)
  {
    assert sources[..i + 1][..i] == sources[..i];
  }

  method AppendTracks(command: seq<string>, ghost base: seq<string>, ghost opts: seq<Opt>, start: int,
                      sources: seq<(Target, Stream)>, settings: DownmixSettings)
    returns (r: seq<string>)
    requires Spells(command, base, opts)
    ensures Spells(r, base, opts + AllTrackOptions(start, sources, settings))
  {
    r := command;
    assert opts + AllTrackOptions(start, [], settings) == opts;
    for i := 0 to |sources|
      invariant Spells(r, base, opts + AllTrackOptions(start, sources[..i], settings))
    {
      TracksSnoc(opts, start, sources, i, settings);
      r := AppendTrack(r, base, opts + AllTrackOptions(start, sources[..i], settings), start + i, sources[i].0,
          settings);
    }
    assert sources[..|sources|] == sources;
  }

  method AppendDispositions(command: seq<string>, ghost base: seq<string>, ghost opts: seq<Opt>, total: nat, index: int)
    returns (r: seq<string>)
    requires Spells(command, base, opts)
    ensures Spells(r, base, opts + Dispositions(total, index))
  {
    r := command;
    assert opts + Dispositions(0, index) == opts;
    for i := 0 to total
      invariant Spells(r, base, opts + Dispositions(i, index))
    {
      r := AppendOption(r, base, opts + Dispositions(i, index), Set(i, DefaultFlag(i == index)));
      assert opts + Dispositions(i + 1, index) == opts + Dispositions(i, index) + [Set(i, DefaultFlag(i == index))];
    }
  }

  // ----- the command in plain text -----

  function RateArgs(k: int, rate: Option<int>): seq<string> {
    if rate.Some? then ["-b:a:" + Str(k), Str(rate.value) + "k"] else []
  }

  /** The arguments for output audio track `k`, made for `t`. */
  function TrackArgs(k: int, t: Target, settings: DownmixSettings): seq<string> {
    match t.tier
    case Stereo =>
      ["-c:a:" + Str(k), settings.stereoCodec, "-ac:a:" + Str(k), "2", "-channel_layout:a:" + Str(k), "stereo"]
      + RateArgs(k, settings.stereoBitrate) + ["-metadata:s:a:" + Str(k), "language=" + t.language]
    case TwoPointOne =>
      ["-c:a:" + Str(k), settings.surroundCodec, "-ac:a:" + Str(k), "3", "-channel_layout:a:" + Str(k), "2.1"]
      + RateArgs(k, settings.surroundBitrate) + ["-metadata:s:a:" + Str(k), "language=" + t.language]
    case FivePointOne =>
      ["-c:a:" + Str(k), settings.surroundCodec, "-ac:a:" + Str(k), "6", "-channel_layout:a:" + Str(k), "5.1"]
      + RateArgs(k, settings.surroundBitrate) + ["-metadata:s:a:" + Str(k), "language=" + t.language]
  }

  function AllTrackArgs(start: int, sources: seq<(Target, Stream)>, settings: DownmixSettings): seq<string> {
    if sources == [] then []
    else var n := |sources| - 1;
        AllTrackArgs(start, sources[..n], settings) + TrackArgs(start + n, sources[n].0, settings)
  }

  function MapArgs(sources: seq<(Target, Stream)>): seq<string> {
    if sources == [] then []
    else var n := |sources| - 1; MapArgs(sources[..n]) + ["-map", "0:" + Str(sources[n].1.index)]
  }

  function FlagArgs(n: nat, index: int): seq<string> {
    if n == 0 then []
    else FlagArgs(n - 1, index) + ["-disposition:a:" + Str(n - 1), if n - 1 == index then "default" else "0"]
  }

  /** The whole command line: the file's own `streams` audio tracks first, one new track per source after them. */
  function Argv(ffmpeg: string, file: string, out: string, streams: nat, sources: seq<(Target, Stream)>,
                settings: DownmixSettings, index: Option<int>): seq<string>
  {
    CommandLine(ffmpeg, file, out, MapArgs(sources), AllTrackArgs(streams, sources, settings),
        if index.Some? then FlagArgs(streams + |sources|, index.value) else [])
  }

  function CommandLine(ffmpeg: string, file: string, out: string, maps: seq<string>, tracks: seq<string>,
                       flags: seq<string>): seq<string>
  {
    [ffmpeg, "-hide_banner", "-nostdin", "-y", "-i", file, "-map", "0"] + maps + ["-c", "copy"] + tracks + flags + [out]
  }

  lemma Digit236()
    ensures Str(2) == "2" && Str(3) == "3" && Str(6) == "6"
  {
  }

  lemma FlatOne(o: Opt)
    ensures Flat([o]) == Tokens(o)
  {
    assert [o][..0] == [];
  }

  lemma FlatTwo(a: Opt, b: Opt)
    ensures Flat([a, b]) == Tokens(a) + Tokens(b)
  {
    FlatOne(a);
    assert [a, b][..1] == [a];
  }

  lemma FlatTrack(a: Opt, b: Opt, c: Opt, x: seq<Opt>, d: Opt)
    ensures Flat([a, b, c] + x + [d]) == Tokens(a) + Tokens(b) + Tokens(c) + Flat(x) + Tokens(d)
  {
    assert [a, b, c][..2] == [a, b];
    FlatTwo(a, b);
    FlatConcat([a, b, c], x);
    assert ([a, b, c] + x + [d])[..|[a, b, c] + x|] == [a, b, c] + x;
  }

  lemma RateToken(k: int, rate: int)
    ensures Flat([Set(k, Bitrate(rate))]) == ["-b:a:" + Str(k), Str(rate) + "k"]
  {
    FlatOne(Set(k, Bitrate(rate)));
  }

  lemma RateText(k: int, t: Tier, settings: DownmixSettings)
    ensures Flat(BitrateOptions(k, t, settings))
            == RateArgs(k, if t.Stereo? then settings.stereoBitrate else settings.surroundBitrate)
  {
    var rate := if t.Stereo? then settings.stereoBitrate else settings.surroundBitrate;
    if rate.Some? {
      assert BitrateOptions(k, t, settings) == [Set(k, Bitrate(rate.value))];
      RateToken(k, rate.value);
    }
  }

  lemma FieldsText(k: int, t: Target, settings: DownmixSettings)
    ensures Tokens(Set(k, Codec(CodecFor(t.tier, settings).0)))
            == ["-c:a:" + Str(k), if t.tier.Stereo? then settings.stereoCodec else settings.surroundCodec]
    ensures Tokens(Set(k, ChannelCount(Channels(t.tier))))
            == ["-ac:a:" + Str(k), match t.tier case Stereo => "2" case TwoPointOne => "3" case FivePointOne => "6"]
    ensures Tokens(Set(k, LayoutIs(LayoutName(t.tier))))
            == ["-channel_layout:a:" + Str(k),
                match t.tier case Stereo => "stereo" case TwoPointOne => "2.1" case FivePointOne => "5.1"]
    ensures Tokens(Set(k, Language(t.language))) == ["-metadata:s:a:" + Str(k), "language=" + t.language]
  {
    Digit236();
  }

  lemma TrackText(k: int, t: Target, settings: DownmixSettings)
    ensures Flat(TrackOptions(k, t, settings)) == TrackArgs(k, t, settings)
  {
    RateText(k, t.tier, settings);
    FieldsText(k, t, settings);
    FlatTrack(Set(k, Codec(CodecFor(t.tier, settings).0)), Set(k, ChannelCount(Channels(t.tier))),
        Set(k, LayoutIs(LayoutName(t.tier))), BitrateOptions(k, t.tier, settings), Set(k, Language(t.language)));
  }

  lemma {:induction false} AllTracksText(start: int, sources: seq<(Target, Stream)>, settings: DownmixSettings)
    ensures Flat(AllTrackOptions(start, sources, settings)) == AllTrackArgs(start, sources, settings)
  {
    if sources != [] {
      var n := |sources| - 1;
      AllTracksText(start, sources[..n], settings);
      TrackText(start + n, sources[n].0, settings);
      FlatConcat(AllTrackOptions(start, sources[..n], settings), TrackOptions(start + n, sources[n].0, settings));
    }
  }

  lemma {:induction false} MapsText(sources: seq<(Target, Stream)>)
    ensures Flat(SourceMaps(sources)) == MapArgs(sources)
  {
    if sources != [] {
      var n := |sources| - 1;
      MapsText(sources[..n]);
      FlatConcat(SourceMaps(sources[..n]), [MapStream(sources[n].1.index)]);
      FlatOne(MapStream(sources[n].1.index));
    }
  }

  lemma FlagText(k: int, on: bool)
    ensures Tokens(Set(k, DefaultFlag(on))) == ["-disposition:a:" + Str(k), if on then "default" else "0"]
  {
  }

  lemma {:induction false} FlagsText(n: nat, index: int)
    ensures Flat(Dispositions(n, index)) == FlagArgs(n, index)
  {
    if n > 0 {
      FlagsText(n - 1, index);
      var o := Set(n - 1, DefaultFlag(n - 1 == index));
      FlatSnoc([], Dispositions(n - 1, index), o);
      FlagText(n - 1, n - 1 == index);
    }
  }

  lemma FlatFive(a: seq<Opt>, b: seq<Opt>, c: seq<Opt>, d: seq<Opt>, e: seq<Opt>)
    ensures Flat(a + b + c + d + e) == Flat(a) + Flat(b) + Flat(c) + Flat(d) + Flat(e)
  {
    FlatConcat(a, b);
    FlatConcat(a + b, c);
    FlatConcat(a + b + c, d);
    FlatConcat(a + b + c + d, e);
  }

  lemma HeadText(file: string)
    ensures Flat([Input(file), MapAll]) == ["-i", file, "-map", "0"] && Flat([CopyAll]) == ["-c", "copy"]
  {
    FlatTwo(Input(file), MapAll);
    FlatOne(CopyAll);
  }

  /** Regrouping a command line. */
  lemma Joined(a: seq<string>, h: seq<string>, m: seq<string>, c: seq<string>, t: seq<string>, d: seq<string>,
               z: seq<string>)
    ensures a + (h + m + c + t + d) + z == (a + h) + m + c + t + d + z
  {
  }

  lemma HeadJoined(ffmpeg: string, file: string)
    ensures [ffmpeg, "-hide_banner", "-nostdin", "-y"] + ["-i", file, "-map", "0"]
            == [ffmpeg, "-hide_banner", "-nostdin", "-y", "-i", file, "-map", "0"]
  {
  }

  /** The arguments between the fixed flags and the output path. */
  function Grouped(file: string, maps: seq<string>, tracks: seq<string>, flags: seq<string>): seq<string> {
    ["-i", file, "-map", "0"] + maps + ["-c", "copy"] + tracks + flags
  }

  lemma LineText(ffmpeg: string, file: string, out: string, opts: seq<Opt>, maps: seq<string>, tracks: seq<string>,
                 flags: seq<string>)
    requires Flat(opts) == Grouped(file, maps, tracks, flags)
    ensures Command(ffmpeg, opts, out) == CommandLine(ffmpeg, file, out, maps, tracks, flags)
  {
    HeadJoined(ffmpeg, file);
    Joined([ffmpeg, "-hide_banner", "-nostdin", "-y"], ["-i", file, "-map", "0"], maps, ["-c", "copy"], tracks, flags,
        [out]);
  }

  lemma ArrangedText(file: string, maps: seq<Opt>, tracks: seq<Opt>, defaults: seq<Opt>)
    ensures Flat(Arranged(file, maps, tracks, defaults))
            == Grouped(file, Flat(maps), Flat(tracks), Flat(defaults))
  {
    HeadText(file);
    FlatFive([Input(file), MapAll], maps, [CopyAll], tracks, defaults);
  }

  lemma Regrouped(file: string, opts: seq<Opt>, a: seq<Opt>, b: seq<Opt>, c: seq<Opt>, maps: seq<string>,
                  tracks: seq<string>, flags: seq<string>)
    requires opts == Arranged(file, a, b, c) && Flat(a) == maps && Flat(b) == tracks && Flat(c) == flags
    ensures Flat(opts) == Grouped(file, maps, tracks, flags)
  {
    ArrangedText(file, a, b, c);
  }

  lemma MapsAre(sources: seq<(Target, Stream)>, a: seq<Opt>, maps: seq<string>)
    requires a == SourceMaps(sources) && maps == MapArgs(sources)
    ensures Flat(a) == maps
  {
    MapsText(sources);
  }

  lemma TracksAre(streams: nat, sources: seq<(Target, Stream)>, settings: DownmixSettings, b: seq<Opt>,
                  tracks: seq<string>)
    requires b == AllTrackOptions(streams, sources, settings) && tracks == AllTrackArgs(streams, sources, settings)
    ensures Flat(b) == tracks
  {
    AllTracksText(streams, sources, settings);
  }

  lemma FlagsAre(total: nat, index: Option<int>, c: seq<Opt>, flags: seq<string>)
    requires c == DefaultOptions(total, index) && flags == if index.Some? then FlagArgs(total, index.value) else []
    ensures Flat(c) == flags
  {
    if index.Some? { FlagsText(total, index.value); }
  }

  lemma OptionsText(file: string, streams: nat, sources: seq<(Target, Stream)>, settings: DownmixSettings,
                    index: Option<int>, maps: seq<string>, tracks: seq<string>, flags: seq<string>)
    requires maps == MapArgs(sources) && tracks == AllTrackArgs(streams, sources, settings)
    requires flags == if index.Some? then FlagArgs(streams + |sources|, index.value) else []
    ensures Flat(Options(file, streams, sources, settings, index)) == Grouped(file, maps, tracks, flags)
  {
    var a, b, c := SourceMaps(sources), AllTrackOptions(streams, sources, settings),
        DefaultOptions(streams + |sources|, index);
    MapsAre(sources, a, maps);
    TracksAre(streams, sources, settings, b, tracks);
    FlagsAre(streams + |sources|, index, c, flags);
    Regrouped(file, Options(file, streams, sources, settings, index), a, b, c, maps, tracks, flags);
  }

  /** The options, written out, are the plain text. */
  lemma CommandText(ffmpeg: string, file: string, out: string, streams: nat, sources: seq<(Target, Stream)>,
                    settings: DownmixSettings, index: Option<int>)
    ensures Command(ffmpeg, Options(file, streams, sources, settings, index), out)
            == Argv(ffmpeg, file, out, streams, sources, settings, index)
  {
    var maps, tracks, flags := MapArgs(sources), AllTrackArgs(streams, sources, settings),
        if index.Some? then FlagArgs(streams + |sources|, index.value) else [];
    OptionsText(file, streams, sources, settings, index, maps, tracks, flags);
    LineText(ffmpeg, file, out, Options(file, streams, sources, settings, index), maps, tracks, flags);
  }

  /** The command line, once its inputs have been checked. */
  method AssembleCommand(file: string, temp: string, streams: nat, sources: seq<(Target, Stream)>,
                         settings: DownmixSettings, ffmpeg: string, index: Option<int>)
    returns (command: seq<string>)
    ensures command == Command(ffmpeg, Options(file, streams, sources, settings, index), temp)
  {
    var total := streams + |sources|;
    var head := [ffmpeg, "-hide_banner", "-nostdin", "-y"];
    ghost var opts: seq<Opt> := [];
    assert head == head + Flat([]);
    command := AppendOption(head, head, opts, Input(file));
    opts := opts + [Input(file)];
    command := AppendOption(command, head, opts, MapAll);
    opts := opts + [MapAll];
    command := AppendMaps(command, head, opts, sources);
    opts := opts + SourceMaps(sources);
    command := AppendOption(command, head, opts, CopyAll);
    opts := opts + [CopyAll];
    command := AppendTracks(command, head, opts, streams, sources, settings);
    opts := opts + AllTrackOptions(streams, sources, settings);
    if index.Some? { command := AppendDispositions(command, head, opts, total, index.value); }
    Assembled(opts, DefaultOptions(total, index), file, streams, sources, settings, index);
    command := command + [temp];
  }

  method BuildRemuxCommand(file: string, temp: string, streams: seq<Stream>, targets: seq<Target>,
                           settings: DownmixSettings, ffmpeg: string, index: Option<int>)
    returns (r: Result<seq<string>, BuildError>)
    ensures BuildCheck(streams, targets, index).Some? ==> r == Err(BuildCheck(streams, targets, index).value)
    ensures BuildCheck(streams, targets, index).None? ==>
              Sources(streams, targets).Ok?
              && r == Ok(Command(ffmpeg, Options(file, |streams|, Sources(streams, targets).value, settings, index),
                   temp))
              && r == Ok(Argv(ffmpeg, file, temp, |streams|, Sources(streams, targets).value, settings, index))
  {
    if targets == [] && index.None? { return Err(NothingToRemux); }
    var resolved := ResolveSources(streams, targets);
    if resolved.Err? { return Err(resolved.error); }
    var sources := resolved.value;
    var total := |streams| + |sources|;
    if index.Some? && !(0 <= index.value < total) { return Err(IndexOutOfRange(index.value, total)); }

    var command := AssembleCommand(file, temp, |streams|, sources, settings, ffmpeg, index);
    CommandText(ffmpeg, file, temp, |streams|, sources, settings, index);
    r := Ok(command);
  }

  lemma Assembled(opts: seq<Opt>, last: seq<Opt>, file: string, streams: nat, sources: seq<(Target, Stream)>,
                  settings: DownmixSettings, index: Option<int>)
    requires opts == [] + [Input(file)] + [MapAll] + SourceMaps(sources) + [CopyAll]
            + AllTrackOptions(streams, sources, settings)
    requires last == DefaultOptions(streams + |sources|, index)
    ensures opts + last == Options(file, streams, sources, settings, index)
    ensures last == [] ==> opts == Options(file, streams, sources, settings, index)
  {
    assert [] + [Input(file)] + [MapAll] == [Input(file), MapAll];
  }
}
