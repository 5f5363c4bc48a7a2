/**
 What ffmpeg makes of the command line: the options are parsed back from the argument list,
 the maps select and order the output tracks, and the per-track options override the blanket
 copy. `inherit` says whether an encoded track takes over its source's default flag when no
 disposition option names it; nothing proved here depends on which way ffmpeg decides.

 The proof follows the command: each option is read back as what it was written for, so
 parsing undoes spelling; then lookups in the parsed options are settled block by block,
 and the output is assembled track by track.
 */
module Ffmpeg {
  import opened Common
  import opened Audio
  import opened Decimal
  import opened Remux

  datatype Track =
    | AudioTrack(codec: string, channels: int, layout: string, language: string, isDefault: bool)
    | OtherTrack(kind: string)

  type Container = seq<Track>

  function StreamOf(t: Track, i: int): Stream
    requires t.AudioTrack?
  {
    Stream(i, t.codec, t.channels, t.layout, t.language, t.isDefault)
  }

  function StreamsAt(t: Track, i: int): seq<Stream> { if t.AudioTrack? then [StreamOf(t, i)] else [] }

  function ProbeFrom(c: Container, start: int): seq<Stream> {
    if c == [] then [] else ProbeFrom(c[..|c| - 1], start) + StreamsAt(c[|c| - 1], start + |c| - 1)
  }

  /** The audio streams in container order; `index` is the position in the container. */
  function Probe(c: Container): seq<Stream> { ProbeFrom(c, 0) }

  // ----- reading the command line -----

  predicate Valueless(flag: string) { flag == "-hide_banner" || flag == "-nostdin" || flag == "-y" }

  /** Reads the value of a per-track option. */
  function Read(f: Field, v: string): Option<Setting> {
    match f
    case CodecField => Some(Codec(v))
    case ChannelsField => if Parse(v).Some? then Some(ChannelCount(Parse(v).value)) else None
    case LayoutField => Some(LayoutIs(v))
    case BitrateField =>
      if v != [] && v[|v| - 1] == 'k' && Parse(v[..|v| - 1]).Some? then Some(Bitrate(Parse(v[..|v| - 1]).value))
          else None
    case LanguageField => if "language=" <= v then Some(Language(v[9..])) else None
    case DispositionField => Some(DefaultFlag(v == "default"))
  }

  /** The field a per-track option key starts with. */
  function FieldNamed(key: string): Option<Field> {
    if FieldName(CodecField) <= key then Some(CodecField)
    else if FieldName(ChannelsField) <= key then Some(ChannelsField)
    else if FieldName(LayoutField) <= key then Some(LayoutField)
    else if FieldName(BitrateField) <= key then Some(BitrateField)
    else if FieldName(LanguageField) <= key then Some(LanguageField)
    else if FieldName(DispositionField) <= key then Some(DispositionField)
    else None
  }

  function ReadPerTrack(f: Field, rest: string, value: string): Option<Opt> {
    if Parse(rest).Some? && Read(f, value).Some? then Some(Set(Parse(rest).value, Read(f, value).value)) else None
  }

  function ReadMap(value: string): Option<Opt> {
    if value == "0" then Some(MapAll)
    else if |value| > 2 && value[..2] == "0:" && Parse(value[2..]).Some? then Some(MapStream(Parse(value[2..]).value))
    else None
  }

  /** What one option and its value ask for; None for anything the builder never writes. */
  function Understand(key: string, value: string): Option<Opt> {
    if key == "-i" then Some(Input(value))
    else if key == "-map" then ReadMap(value)
    else if key == "-c" then if value == "copy" then Some(CopyAll) else None
    else
      var f := FieldNamed(key);
      if f.Some? && |FieldName(f.value)| <= |key| then ReadPerTrack(f.value, key[|FieldName(f.value)|..], value)
          else None
  }

  /** The options up to the last token, which is the output path. */
  function ParseOptions(tokens: seq<string>): seq<Opt> {
    if |tokens| <= 1 then []
    else if Valueless(tokens[0]) then ParseOptions(tokens[1..])
    else
      var o := Understand(tokens[0], tokens[1]);
      (if o.Some? then [o.value] else []) + ParseOptions(tokens[2..])
  }

  predicate Sets(o: Opt, f: Field, k: int) { o.Set? && FieldOf(o.what) == f && o.track == k }

  /** The last value given for a track's field wins. */
  function Lookup(opts: seq<Opt>, f: Field, k: int): (r: Option<Setting>)
    ensures r.Some? ==> FieldOf(r.value) == f
  {
    if opts == [] then None
    else if Sets(opts[|opts| - 1], f, k) then Some(opts[|opts| - 1].what)
    else Lookup(opts[..|opts| - 1], f, k)
  }

  /** The tracks one option maps. */
  function Selected(c: Container, o: Opt): Container {
    match o
    case MapAll => c
    case MapStream(i) => if 0 <= i < |c| then [c[i]] else []
    case _ => []
  }

  function Mapped(c: Container, opts: seq<Opt>): Container {
    if opts == [] then [] else Mapped(c, opts[..|opts| - 1]) + Selected(c, opts[|opts| - 1])
  }

  /** Output audio track number `k`, fed by `t`. */
  function Encoded(t: Track, k: nat, opts: seq<Opt>, inherit: bool): Track
    requires t.AudioTrack?
  {
    var codec := Lookup(opts, CodecField, k);
    var channels := Lookup(opts, ChannelsField, k);
    var layout := Lookup(opts, LayoutField, k);
    var language := Lookup(opts, LanguageField, k);
    var disposition := Lookup(opts, DispositionField, k);
    var copied := if codec.Some? then codec.value.name == "copy" else CopyAll in opts;
    AudioTrack(
      if copied then t.codec else if codec.Some? then codec.value.name else "",
      if copied || channels.None? then t.channels else channels.value.n,
      if copied || layout.None? then t.layout else layout.value.layout,
      if language.None? then t.language else language.value.tag,
      if disposition.Some? then disposition.value.on else t.isDefault && (copied || inherit))
  }

  function EncodedOrCopied(t: Track, k: nat, opts: seq<Opt>, inherit: bool): Track {
    if t.AudioTrack? then Encoded(t, k, opts, inherit) else t
  }

  /** Applies `enc` to every track with its audio ordinal, the first audio track's being `start`. */
  function EncodeFrom(tracks: Container, start: nat, enc: (Track, nat) -> Track): Container {
    if tracks == [] then []
    else
      var before := tracks[..|tracks| - 1];
      EncodeFrom(before, start, enc) + [enc(tracks[|tracks| - 1], start + AudioCount(before))]
  }

  function AudioCount(c: Container): nat {
    if c == [] then 0 else AudioCount(c[..|c| - 1]) + if c[|c| - 1].AudioTrack? then 1 else 0
  }

  /** The file `ffmpeg` writes when run with `argv` on `c`. */
  function Output(c: Container, argv: seq<string>, inherit: bool): Container
    requires argv != []
  {
    var opts := ParseOptions(argv[1..]);
    EncodeFrom(Mapped(c, opts), 0, (t: Track, k: nat) => EncodedOrCopied(t, k, opts, inherit))
  }

  // ----- parsing recovers the options -----

  lemma FieldNames(f: Field)
    ensures |FieldName(f)| > 4 && FieldName(f)[0] == '-'
    ensures FieldName(f)[1..3] == match f
                                  case CodecField => "c:"
                                  case ChannelsField => "ac"
                                  case LayoutField => "ch"
                                  case BitrateField => "b:"
                                  case LanguageField => "me"
                                  case DispositionField => "di"
  {
  }

  /** A key that starts with one field's name starts with no other's, and is no ordinary option. */
  lemma PrefixOne(f: Field, rest: string, g: Field)
    ensures FieldName(g) <= FieldName(f) + rest <==> f == g
  {
    var key := FieldName(f) + rest;
    FieldNames(f);
    FieldNames(g);
    assert key[1..3] == FieldName(f)[1..3];
    assert FieldName(g) <= key ==> key[1..3] == FieldName(g)[1..3];
  }

  lemma OrdinaryKey(f: Field, rest: string)
    ensures var key := FieldName(f) + rest; key != "-map" && key != "-c" && key != "-i" && !Valueless(key)
  {
    var key := FieldName(f) + rest;
    FieldNames(f);
    assert key[1..3] == FieldName(f)[1..3];
    assert "-hide_banner"[1..3] == "hi" && "-nostdin"[1..3] == "no";
  }

  lemma KeyNames(f: Field, rest: string)
    ensures FieldNamed(FieldName(f) + rest) == Some(f) && (FieldName(f) + rest)[|FieldName(f)|..] == rest
  {
    PrefixOne(f, rest, CodecField);
    PrefixOne(f, rest, ChannelsField);
    PrefixOne(f, rest, LayoutField);
    PrefixOne(f, rest, BitrateField);
    PrefixOne(f, rest, LanguageField);
    PrefixOne(f, rest, DispositionField);
  }

  lemma ReadSpelled(x: Setting)
    ensures Read(FieldOf(x), Spell(x)) == Some(x)
  {
    match x
    case ChannelCount(n) => ParseStr(n);
    case Bitrate(kbps) =>
      ParseStr(kbps);
      assert (Str(kbps) + "k")[..|Str(kbps)|] == Str(kbps);
    case Language(tag) => assert ("language=" + tag)[9..] == tag;
    case _ =>
  }

  lemma UnderstandSet(track: int, x: Setting)
    ensures var key := FieldName(FieldOf(x)) + Str(track);
            !Valueless(key) && Understand(key, Spell(x)) == Some(Set(track, x))
  {
    OrdinaryKey(FieldOf(x), Str(track));
    KeyNames(FieldOf(x), Str(track));
    ParseStr(track);
    ReadSpelled(x);
  }

  lemma UnderstandMap(i: int)
    ensures ReadMap("0:" + Str(i)) == Some(MapStream(i))
  {
    var v := "0:" + Str(i);
    assert v[2..] == Str(i) && v[..2] == "0:";
    ParseStr(i);
  }

  /** Every option is read back as what it was written for. */
  lemma Understood(o: Opt)
    ensures !Valueless(Tokens(o)[0]) && Understand(Tokens(o)[0], Tokens(o)[1]) == Some(o)
  {
    match o
    case MapStream(i) => UnderstandMap(i);
    case Set(track, x) => UnderstandSet(track, x);
    case _ =>
  }

  lemma ParsePair(o: Opt, pair: seq<string>, tokens: seq<string>)
    requires |pair| == 2 && !Valueless(pair[0]) && Understand(pair[0], pair[1]) == Some(o) && tokens != []
    ensures ParseOptions(pair + tokens) == [o] + ParseOptions(tokens)
  {
    assert (pair + tokens)[2..] == tokens;
  }

  lemma FlatCons(o: Opt, rest: seq<Opt>)
    ensures Flat([o] + rest) == Tokens(o) + Flat(rest)
  {
    FlatConcat([o], rest);
    assert [o][..0] == [];
  }

  lemma {:induction false} ParseFlat(opts: seq<Opt>, out: string)
    ensures ParseOptions(Flat(opts) + [out]) == opts
  {
    if opts != [] {
      var o, rest := opts[0], opts[1..];
      assert opts == [o] + rest;
      FlatCons(o, rest);
      Assoc(Tokens(o), Flat(rest), [out]);
      Understood(o);
      ParsePair(o, Tokens(o), Flat(rest) + [out]);
      ParseFlat(rest, out);
    }
  }

  lemma ParseValueless(flag: string, rest: seq<string>)
    requires Valueless(flag) && rest != []
    ensures ParseOptions([flag] + rest) == ParseOptions(rest)
  {
    assert ([flag] + rest)[1..] == rest;
  }

  /** Parsing the command gives back the options it was built from. */
  lemma ParsesCommand(ffmpeg: string, opts: seq<Opt>, out: string)
    ensures ParseOptions(Command(ffmpeg, opts, out)[1..]) == opts
  {
    var rest := Flat(opts) + [out];
    assert Command(ffmpeg, opts, out)[1..] == ["-hide_banner"] + (["-nostdin"] + (["-y"] + rest));
    ParseValueless("-y", rest);
    ParseValueless("-nostdin", ["-y"] + rest);
    ParseValueless("-hide_banner", ["-nostdin"] + (["-y"] + rest));
    ParseFlat(opts, out);
  }

  // ----- what the options say -----

  lemma {:induction false} LookupConcat(a: seq<Opt>, b: seq<Opt>, f: Field, k: int)
    ensures Lookup(a + b, f, k) == if Lookup(b, f, k).Some? then Lookup(b, f, k) else Lookup(a, f, k)
  {
    if b == [] { assert a + b == a; }
    else {
      assert (a + b)[..|a + b| - 1] == a + b[..|b| - 1];
      LookupConcat(a, b[..|b| - 1], f, k);
    }
  }

  lemma {:induction false} LookupAbsent(opts: seq<Opt>, f: Field, k: int)
    requires forall o :: o in opts ==> !Sets(o, f, k)
    ensures Lookup(opts, f, k) == None
  {
    if opts != [] { LookupAbsent(opts[..|opts| - 1], f, k); }
  }

  lemma LookupSnoc(a: seq<Opt>, o: Opt, f: Field, k: int)
    ensures Lookup(a + [o], f, k) == if Sets(o, f, k) then Some(o.what) else Lookup(a, f, k)
  {
    assert (a + [o])[..|a|] == a;
  }

  /** What the built command says about one field of the track added for `t`. */
  function Intended(f: Field, t: Target, settings: DownmixSettings): Option<Setting> {
    match f
    case CodecField => Some(Codec(CodecFor(t.tier, settings).0))
    case ChannelsField => Some(ChannelCount(Channels(t.tier)))
    case LayoutField => Some(LayoutIs(LayoutName(t.tier)))
    case BitrateField => if CodecFor(t.tier, settings).1.Some? then Some(Bitrate(CodecFor(t.tier, settings).1.value))
        else None
    case LanguageField => Some(Language(t.language))
    case DispositionField => None
  }

  function Last(o: Opt, f: Field, k: int, otherwise: Option<Setting>): Option<Setting> {
    if Sets(o, f, k) then Some(o.what) else otherwise
  }

  lemma ThreeThen(a: Opt, b: Opt, c: Opt, x: seq<Opt>, d: Opt, f: Field, k: int)
    requires |x| <= 1
    ensures Lookup([a, b, c] + x + [d], f, k)
         == Last(d, f, k, var r := Last(c, f, k, Last(b, f, k, Last(a, f, k, None)));
             if x == [] then r else Last(x[0], f, k, r))
  {
    LookupSnoc([a, b, c] + x, d, f, k);
    if x != [] {
      assert [a, b, c] + x == [a, b, c] + [x[0]];
      LookupSnoc([a, b, c], x[0], f, k);
    } else { assert [a, b, c] + x == [a, b, c]; }
    LookupSnoc([a, b], c, f, k);
    LookupSnoc([a], b, f, k);
    LookupSnoc([], a, f, k);
    assert [a, b, c] == [a, b] + [c] && [a, b] == [a] + [b] && [a] == [] + [a];
  }

  /** One track's options say what is intended for it and nothing about any other track. */
  lemma TrackLookup(track: int, t: Target, settings: DownmixSettings, f: Field, k: int)
    ensures Lookup(TrackOptions(track, t, settings), f, k) == if k == track then Intended(f, t, settings) else None
  {
    ThreeThen(Set(track, Codec(CodecFor(t.tier, settings).0)), Set(track, ChannelCount(Channels(t.tier))),
        Set(track, LayoutIs(LayoutName(t.tier))),
              BitrateOptions(track, t.tier, settings), Set(track, Language(t.language)), f, k);
  }

  lemma NextTrackLookup(start: int, sources: seq<(Target, Stream)>, settings: DownmixSettings, f: Field, k: int)
    requires sources != []
    ensures var n := |sources| - 1;
            Lookup(AllTrackOptions(start, sources, settings), f, k)
            == if k == start + n && Intended(f, sources[n].0, settings).Some? then Intended(f, sources[n].0, settings)
               else Lookup(AllTrackOptions(start, sources[..n], settings), f, k)
  {
    var n := |sources| - 1;
    LookupConcat(AllTrackOptions(start, sources[..n], settings), TrackOptions(start + n, sources[n].0, settings), f, k);
    TrackLookup(start + n, sources[n].0, settings, f, k);
  }

  /** The block of per-track options says what is intended for each added track and nothing about any other. */
  lemma {:induction false} AllTracksLookup(start: int, sources: seq<(Target, Stream)>, settings: DownmixSettings,
                                           f: Field, k: int)
    ensures Lookup(AllTrackOptions(start, sources, settings), f, k)
         == if start <= k < start + |sources| then Intended(f, sources[k - start].0, settings) else None
  {
    if sources != [] {
      NextTrackLookup(start, sources, settings, f, k);
      AllTracksLookup(start, sources[..|sources| - 1], settings, f, k);
    }
  }

  lemma {:induction false} DispositionsLookup(n: nat, index: int, f: Field, k: int)
    ensures Lookup(Dispositions(n, index), f, k) == if f.DispositionField? && 0 <= k < n
            then Some(DefaultFlag(k == index)) else None
  {
    if n > 0 {
      LookupSnoc(Dispositions(n - 1, index), Set(n - 1, DefaultFlag(n - 1 == index)), f, k);
      DispositionsLookup(n - 1, index, f, k);
    }
  }

  /** Options that only set fields of tracks. */
  ghost predicate OnlySets(opts: seq<Opt>) { forall o :: o in opts ==> o.Set? }

  lemma {:induction false} TracksOnlySet(start: int, sources: seq<(Target, Stream)>, settings: DownmixSettings)
    ensures OnlySets(AllTrackOptions(start, sources, settings))
  {
    if sources != [] { TracksOnlySet(start, sources[..|sources| - 1], settings); }
  }

  lemma {:induction false} DispositionsOnlySet(n: nat, index: int)
    ensures OnlySets(Dispositions(n, index))
  {
    if n > 0 { DispositionsOnlySet(n - 1, index); }
  }

  lemma {:induction false} MapsNeverSet(sources: seq<(Target, Stream)>)
    ensures forall o :: o in SourceMaps(sources) ==> o.MapStream?
  {
    if sources != [] { MapsNeverSet(sources[..|sources| - 1]); }
  }

  function OrElse(a: Option<Setting>, b: Option<Setting>): Option<Setting> { if a.Some? then a else b }

  lemma LookupFive(a: seq<Opt>, b: seq<Opt>, c: seq<Opt>, d: seq<Opt>, e: seq<Opt>, f: Field, k: int)
    ensures Lookup(a + b + c + d + e, f, k)
         == OrElse(Lookup(e, f, k), OrElse(Lookup(d, f, k),
             OrElse(Lookup(c, f, k), OrElse(Lookup(b, f, k), Lookup(a, f, k)))))
  {
    LookupConcat(a, b, f, k);
    LookupConcat(a + b, c, f, k);
    LookupConcat(a + b + c, d, f, k);
    LookupConcat(a + b + c + d, e, f, k);
  }

  /** What the whole command says about one field of output audio track `k`. */
  function Says(streams: nat, sources: seq<(Target, Stream)>, settings: DownmixSettings, index: Option<int>, f: Field,
                k: int): Option<Setting>
  {
    if f.DispositionField? then
      if index.Some? && 0 <= k < streams + |sources| then Some(DefaultFlag(k == index.value)) else None
    else if streams <= k < streams + |sources| then Intended(f, sources[k - streams].0, settings)
    else None
  }

  lemma HeadSaysNothing(file: string, f: Field, k: int)
    ensures Lookup([Input(file), MapAll], f, k) == None && Lookup([CopyAll], f, k) == None
  {
    LookupAbsent([Input(file), MapAll], f, k);
    LookupAbsent([CopyAll], f, k);
  }

  lemma ArrangedLookup(file: string, maps: seq<Opt>, tracks: seq<Opt>, defaults: seq<Opt>, f: Field, k: int)
    requires Lookup(maps, f, k) == None
    ensures Lookup(Arranged(file, maps, tracks, defaults), f, k) == OrElse(Lookup(defaults, f, k), Lookup(tracks, f, k))
  {
    HeadSaysNothing(file, f, k);
    LookupFive([Input(file), MapAll], maps, [CopyAll], tracks, defaults, f, k);
  }

  lemma DefaultsLookup(total: nat, index: Option<int>, f: Field, k: int)
    ensures Lookup(DefaultOptions(total, index), f, k)
         == if index.Some? && f.DispositionField? && 0 <= k < total then Some(DefaultFlag(k == index.value)) else None
  {
    if index.Some? { DispositionsLookup(total, index.value, f, k); }
  }

  lemma OptionsSplit(file: string, streams: nat, sources: seq<(Target, Stream)>, settings: DownmixSettings,
                     index: Option<int>, f: Field, k: int)
    ensures Lookup(Options(file, streams, sources, settings, index), f, k)
            == OrElse(Lookup(DefaultOptions(streams + |sources|, index), f, k),
                      Lookup(AllTrackOptions(streams, sources, settings), f, k))
  {
    MapsNeverSet(sources);
    LookupAbsent(SourceMaps(sources), f, k);
    ArrangedLookup(file, SourceMaps(sources), AllTrackOptions(streams, sources, settings),
        DefaultOptions(streams + |sources|, index), f, k);
  }

  lemma OptionsLookup(file: string, streams: nat, sources: seq<(Target, Stream)>, settings: DownmixSettings,
                      index: Option<int>, f: Field, k: int)
    ensures Lookup(Options(file, streams, sources, settings, index), f, k)
            == Says(streams, sources, settings, index, f, k)
  {
    OptionsSplit(file, streams, sources, settings, index, f, k);
    SaysParts(streams, sources, settings, index, f, k, Lookup(DefaultOptions(streams + |sources|, index), f, k),
        Lookup(AllTrackOptions(streams, sources, settings), f, k));
  }

  lemma SaysParts(streams: nat, sources: seq<(Target, Stream)>, settings: DownmixSettings, index: Option<int>, f: Field,
                  k: int, d: Option<Setting>, t: Option<Setting>)
    requires d == Lookup(DefaultOptions(streams + |sources|, index), f, k)
    requires t == Lookup(AllTrackOptions(streams, sources, settings), f, k)
    ensures OrElse(d, t) == Says(streams, sources, settings, index, f, k)
  {
    AllTracksLookup(streams, sources, settings, f, k);
    DefaultsLookup(streams + |sources|, index, f, k);
    if f.DispositionField? { assert t == None; } else { assert d == None; }
  }

  /** The options a reader finds in the command built for these sources. */
  ghost function ReadBack(ffmpeg: string, file: string, out: string, streams: nat, sources: seq<(Target, Stream)>,
                          settings: DownmixSettings, index: Option<int>): seq<Opt>
  {
    ParseOptions(Argv(ffmpeg, file, out, streams, sources, settings, index)[1..])
  }

  lemma ReadsBack(ffmpeg: string, file: string, out: string, streams: nat, sources: seq<(Target, Stream)>,
                  settings: DownmixSettings, index: Option<int>, f: Field, k: int)
    ensures Lookup(ReadBack(ffmpeg, file, out, streams, sources, settings, index), f, k)
            == Says(streams, sources, settings, index, f, k)
  {
    CommandText(ffmpeg, file, out, streams, sources, settings, index);
    ParsesCommand(ffmpeg, Options(file, streams, sources, settings, index), out);
    OptionsLookup(file, streams, sources, settings, index, f, k);
  }

  /** Track `k` gets the codec and bitrate configured for the target's tier, and no bitrate if none is configured. */
  ghost predicate CodecRead(opts: seq<Opt>, k: int, t: Target, settings: DownmixSettings) {
    match t.tier
    case Stereo =>
      && Lookup(opts, CodecField, k) == Some(Codec(settings.stereoCodec))
      && Lookup(opts, BitrateField, k)
         == if settings.stereoBitrate.Some? then Some(Bitrate(settings.stereoBitrate.value)) else None
    case _ =>
      && Lookup(opts, CodecField, k) == Some(Codec(settings.surroundCodec))
      && Lookup(opts, BitrateField, k)
         == if settings.surroundBitrate.Some? then Some(Bitrate(settings.surroundBitrate.value)) else None
  }

  lemma CodecSays(opts: seq<Opt>, streams: nat, sources: seq<(Target, Stream)>, settings: DownmixSettings,
                  index: Option<int>, k: int)
    requires streams <= k < streams + |sources|
    requires Lookup(opts, CodecField, k) == Says(streams, sources, settings, index, CodecField, k)
    requires Lookup(opts, BitrateField, k) == Says(streams, sources, settings, index, BitrateField, k)
    ensures CodecRead(opts, k, sources[k - streams].0, settings)
  {
  }

  /** The codec and bitrate of output track `k`, added for the target of its place, read back from the command line. */
  lemma AddedCodecSays(ffmpeg: string, file: string, out: string, streams: nat, sources: seq<(Target, Stream)>,
                       settings: DownmixSettings, index: Option<int>, k: int)
    requires streams <= k < streams + |sources|
    ensures CodecRead(ReadBack(ffmpeg, file, out, streams, sources, settings, index), k, sources[k - streams].0,
            settings)
  {
    ReadsBack(ffmpeg, file, out, streams, sources, settings, index, CodecField, k);
    ReadsBack(ffmpeg, file, out, streams, sources, settings, index, BitrateField, k);
    CodecSays(ReadBack(ffmpeg, file, out, streams, sources, settings, index), streams, sources, settings, index, k);
  }

  /**
   It says nothing about an original but its default flag, and that of every track, and only when
   an index is given.
   */
  lemma OriginalTrackSays(ffmpeg: string, file: string, out: string, streams: nat, sources: seq<(Target, Stream)>,
                          settings: DownmixSettings, index: Option<int>, k: nat, f: Field)
    requires k < streams + |sources|
    ensures var opts := ReadBack(ffmpeg, file, out, streams, sources, settings, index);
            && (k < streams && !f.DispositionField? ==> Lookup(opts, f, k) == None)
            && Lookup(opts, DispositionField, k) == if index.Some? then Some(DefaultFlag(k == index.value)) else None
  {
    ReadsBack(ffmpeg, file, out, streams, sources, settings, index, f, k);
    ReadsBack(ffmpeg, file, out, streams, sources, settings, index, DispositionField, k);
  }

  lemma MappedSnoc(c: Container, opts: seq<Opt>, o: Opt)
    ensures Mapped(c, opts + [o]) == Mapped(c, opts) + Selected(c, o)
  {
    assert (opts + [o])[..|opts|] == opts;
  }

  lemma {:induction false} MappedConcat(c: Container, a: seq<Opt>, b: seq<Opt>)
    ensures Mapped(c, a + b) == Mapped(c, a) + Mapped(c, b)
  {
    if b == [] { assert a + b == a; }
    else {
      var b', o := b[..|b| - 1], b[|b| - 1];
      assert a + b == (a + b') + [o] && b == b' + [o];
      MappedSnoc(c, a + b', o);
      MappedSnoc(c, b', o);
      MappedConcat(c, a, b');
    }
  }

  lemma {:induction false} MappedNone(c: Container, opts: seq<Opt>)
    requires forall o :: o in opts ==> !o.MapAll? && !o.MapStream?
    ensures Mapped(c, opts) == []
  {
    if opts != [] { MappedNone(c, opts[..|opts| - 1]); }
  }

  // ----- the mapped tracks -----

  function TrackOf(s: Stream): Track { AudioTrack(s.codec, s.channels, s.layout, s.language, s.isDefault) }

  lemma {:induction false} ProbedAt(c: Container, s: Stream)
    requires s in Probe(c)
    ensures 0 <= s.index < |c| && c[s.index] == TrackOf(s)
  {
    var n := |c| - 1;
    if s in Probe(c[..n]) { ProbedAt(c[..n], s); }
  }

  /** The tracks the sources name, in order. */
  function Fed(sources: seq<(Target, Stream)>): Container {
    if sources == [] then [] else Fed(sources[..|sources| - 1]) + [TrackOf(sources[|sources| - 1].1)]
  }

  lemma {:induction false} SourceMapsSelect(c: Container, sources: seq<(Target, Stream)>)
    requires forall p :: p in sources ==> p.1 in Probe(c)
    ensures Mapped(c, SourceMaps(sources)) == Fed(sources)
  {
    if sources != [] {
      var n := |sources| - 1;
      assert sources[n] in sources;
      ProbedAt(c, sources[n].1);
      SourceMapsSelect(c, sources[..n]);
      MappedSnoc(c, SourceMaps(sources[..n]), MapStream(sources[n].1.index));
    }
  }

  lemma HeadMaps(c: Container, file: string)
    ensures Mapped(c, [Input(file), MapAll]) == c
  {
    assert [Input(file), MapAll] == [Input(file)] + [MapAll];
    MappedConcat(c, [Input(file)], [MapAll]);
    MappedNone(c, [Input(file)]);
    assert [MapAll][..0] == [];
  }

  lemma MappedFive(x: Container, a: seq<Opt>, b: seq<Opt>, c: seq<Opt>, d: seq<Opt>, e: seq<Opt>)
    requires Mapped(x, c) == [] && Mapped(x, d) == [] && Mapped(x, e) == []
    ensures Mapped(x, a + b + c + d + e) == Mapped(x, a) + Mapped(x, b)
  {
    MappedConcat(x, a, b);
    MappedConcat(x, a + b, c);
    MappedConcat(x, a + b + c, d);
    MappedConcat(x, a + b + c + d, e);
  }

  lemma ArrangedMap(c: Container, file: string, maps: seq<Opt>, tracks: seq<Opt>, defaults: seq<Opt>)
    requires OnlySets(tracks) && OnlySets(defaults)
    ensures Mapped(c, Arranged(file, maps, tracks, defaults)) == c + Mapped(c, maps)
  {
    HeadMaps(c, file);
    MappedNone(c, [CopyAll]);
    MappedNone(c, tracks);
    MappedNone(c, defaults);
    MappedFive(c, [Input(file), MapAll], maps, [CopyAll], tracks, defaults);
  }

  lemma DefaultsOnlySet(total: nat, index: Option<int>)
    ensures OnlySets(DefaultOptions(total, index))
  {
    if index.Some? { DispositionsOnlySet(total, index.value); }
  }

  lemma OptionsMap(c: Container, file: string, streams: nat, sources: seq<(Target, Stream)>, settings: DownmixSettings,
                   index: Option<int>)
    ensures Mapped(c, Options(file, streams, sources, settings, index)) == c + Mapped(c, SourceMaps(sources))
  {
    TracksOnlySet(streams, sources, settings);
    DefaultsOnlySet(streams + |sources|, index);
    ArrangedMap(c, file, SourceMaps(sources), AllTrackOptions(streams, sources, settings),
        DefaultOptions(streams + |sources|, index));
  }

  lemma OptionsCopy(file: string, maps: seq<Opt>, tracks: seq<Opt>, defaults: seq<Opt>)
    ensures CopyAll in Arranged(file, maps, tracks, defaults)
  {
    assert Arranged(file, maps, tracks, defaults)[2 + |maps|] == CopyAll;
  }

  // ----- containers put end to end -----

  lemma Snoc<T>(a: seq<T>, x: T)
    ensures (a + [x])[..|a|] == a && (a + [x])[|a|] == x
  {
  }

  /** `b` is its front and its last element, and so is anything put before it. */
  lemma SplitLast<T>(a: seq<T>, b: seq<T>)
    requires b != []
    ensures b == b[..|b| - 1] + [b[|b| - 1]] && a + b == (a + b[..|b| - 1]) + [b[|b| - 1]]
  {
  }

  lemma ProbeSnoc(c: Container, t: Track, start: int)
    ensures ProbeFrom(c + [t], start) == ProbeFrom(c, start) + StreamsAt(t, start + |c|)
  {
    Snoc(c, t);
  }

  lemma CountSnoc(c: Container, t: Track)
    ensures AudioCount(c + [t]) == AudioCount(c) + if t.AudioTrack? then 1 else 0
  {
    Snoc(c, t);
  }

  lemma EncodeEnds(c: Container, t: Track, start: nat, at: nat, enc: (Track, nat) -> Track)
    requires at == start + AudioCount(c)
    ensures EncodeFrom(c + [t], start, enc) == EncodeFrom(c, start, enc) + [enc(t, at)]
  {
    EncodeSnoc(c, t, start, enc);
  }

  lemma EncodeSnoc(c: Container, t: Track, start: nat, enc: (Track, nat) -> Track)
    ensures EncodeFrom(c + [t], start, enc) == EncodeFrom(c, start, enc) + [enc(t, start + AudioCount(c))]
  {
    Snoc(c, t);
  }

  lemma Assoc3<T>(a: seq<T>, b: seq<T>, c: seq<T>)
    ensures (a + b) + c == a + (b + c)
  {
  }

  lemma {:induction false} ProbeConcat(a: Container, b: Container, start: int)
    ensures ProbeFrom(a + b, start) == ProbeFrom(a, start) + ProbeFrom(b, start + |a|)
  {
    if b == [] { assert a + b == a; }
    else {
      var b', t := b[..|b| - 1], b[|b| - 1];
      SplitLast(a, b);
      ProbeSnoc(a + b', t, start);
      ProbeConcat(a, b', start);
      Assoc3(ProbeFrom(a, start), ProbeFrom(b', start + |a|), StreamsAt(t, start + |a| + |b'|));
    }
  }

  lemma {:induction false} CountConcat(a: Container, b: Container)
    ensures AudioCount(a + b) == AudioCount(a) + AudioCount(b)
  {
    if b == [] { assert a + b == a; }
    else {
      SplitLast(a, b);
      CountSnoc(a + b[..|b| - 1], b[|b| - 1]);
      CountConcat(a, b[..|b| - 1]);
    }
  }

  lemma EncodeConcatSnoc(a: Container, b: Container, t: Track, start: nat, s2: nat, enc: (Track, nat) -> Track)
    requires s2 == start + AudioCount(a)
    requires EncodeFrom(a + b, start, enc) == EncodeFrom(a, start, enc) + EncodeFrom(b, s2, enc)
    ensures EncodeFrom((a + b) + [t], start, enc) == EncodeFrom(a, start, enc) + EncodeFrom(b + [t], s2, enc)
  {
    CountConcat(a, b);
    EncodeEnds(a + b, t, start, start + AudioCount(a + b), enc);
    EncodeEnds(b, t, s2, s2 + AudioCount(b), enc);
    Assoc3(EncodeFrom(a, start, enc), EncodeFrom(b, s2, enc), [enc(t, s2 + AudioCount(b))]);
  }

  lemma EncodeNone(start: nat, enc: (Track, nat) -> Track)
    ensures EncodeFrom([], start, enc) == []
  {
  }

  lemma {:induction false} EncodeConcat(a: Container, b: Container, start: nat, enc: (Track, nat) -> Track)
    ensures EncodeFrom(a + b, start, enc) == EncodeFrom(a, start, enc) + EncodeFrom(b, start + AudioCount(a), enc)
  {
    var s2 := start + AudioCount(a);
    if b == [] {
      EncodeNone(s2, enc);
      assert a + b == a;
    } else {
      var front, t := b[..|b| - 1], b[|b| - 1];
      SplitLast(a, b);
      EncodeConcat(a, front, start, enc);
      EncodeConcatSnoc(a, front, t, start, s2, enc);
    }
  }

  lemma {:induction false} CountIsProbed(c: Container, start: int)
    ensures AudioCount(c) == |ProbeFrom(c, start)|
  {
    if c != [] { CountIsProbed(c[..|c| - 1], start); }
  }

  // ----- the encoded tracks -----

  /** An original track, audio track `k` of the file: copied, its default flag rewritten when an index is given. */
  function Original(t: Track, k: nat, index: Option<int>): Track {
    if t.AudioTrack? && index.Some? then t.(isDefault := k == index.value) else t
  }

  function Originals(c: Container, index: Option<int>): Container {
    if c == [] then []
    else Originals(c[..|c| - 1], index) + [Original(c[|c| - 1], AudioCount(c[..|c| - 1]), index)]
  }

  /** Output audio track `k`, added for `p`. A configured codec named "copy" really copies. */
  function NewTrack(p: (Target, Stream), k: int, settings: DownmixSettings, index: Option<int>, inherit: bool): Track {
    var codec := CodecFor(p.0.tier, settings).0;
    var copied := codec == "copy";
    AudioTrack(
      if copied then p.1.codec else codec,
      if copied then p.1.channels else Channels(p.0.tier),
      if copied then p.1.layout else LayoutName(p.0.tier),
      p.0.language,
      if index.Some? then k == index.value else p.1.isDefault && (copied || inherit))
  }

  function NewTracksBy(start: nat, sources: seq<(Target, Stream)>, make: ((Target, Stream), nat) -> Track): Container {
    if sources == [] then []
    else var n := |sources| - 1; NewTracksBy(start, sources[..n], make) + [make(sources[n], start + n)]
  }

  function NewTracks(start: nat, sources: seq<(Target, Stream)>, settings: DownmixSettings, index: Option<int>,
                     inherit: bool): Container
  {
    NewTracksBy(start, sources, (p: (Target, Stream), k: nat) => NewTrack(p, k, settings, index, inherit))
  }

  /** `opts` says what the built command says. */
  ghost predicate SaysPlan(opts: seq<Opt>, streams: nat, sources: seq<(Target, Stream)>, settings: DownmixSettings,
                           index: Option<int>)
  {
    CopyAll in opts && forall f, k :: Lookup(opts, f, k) == Says(streams, sources, settings, index, f, k)
  }

  lemma EncodesOriginal(t: Track, k: nat, streams: nat, sources: seq<(Target, Stream)>, settings: DownmixSettings,
                        index: Option<int>, inherit: bool, opts: seq<Opt>)
    requires SaysPlan(opts, streams, sources, settings, index) && (t.AudioTrack? ==> k < streams)
    ensures EncodedOrCopied(t, k, opts, inherit) == Original(t, k, index)
  {
  }

  lemma {:induction false} EncodesOriginals(c: Container, index: Option<int>, enc: (Track, nat) -> Track)
    requires forall t: Track, k: nat :: k < AudioCount(c) || t.OtherTrack? ==> enc(t, k) == Original(t, k, index)
    ensures EncodeFrom(c, 0, enc) == Originals(c, index)
  {
    if c != [] { EncodesOriginals(c[..|c| - 1], index, enc); }
  }

  lemma EncodesNew(streams: nat, j: nat, sources: seq<(Target, Stream)>, settings: DownmixSettings, index: Option<int>,
                   inherit: bool, opts: seq<Opt>)
    requires j < |sources| && SaysPlan(opts, streams, sources, settings, index)
    ensures EncodedOrCopied(TrackOf(sources[j].1), streams + j, opts, inherit)
            == NewTrack(sources[j], streams + j, settings, index, inherit)
  {
  }

  lemma {:induction false} FedCount(sources: seq<(Target, Stream)>)
    ensures AudioCount(Fed(sources)) == |sources| == |Fed(sources)|
  {
    if sources != [] {
      var n := |sources| - 1;
      FedCount(sources[..n]);
      CountSnoc(Fed(sources[..n]), TrackOf(sources[n].1));
    }
  }

  lemma NewTracksBySnoc(start: nat, before: seq<(Target, Stream)>, p: (Target, Stream), at: nat,
                        make: ((Target, Stream), nat) -> Track)
    requires at == start + |before|
    ensures NewTracksBy(start, before + [p], make) == NewTracksBy(start, before, make) + [make(p, at)]
  {
    Snoc(before, p);
  }

  lemma FedSnoc(before: seq<(Target, Stream)>, p: (Target, Stream))
    ensures Fed(before + [p]) == Fed(before) + [TrackOf(p.1)]
  {
    Snoc(before, p);
  }

  lemma EncodesNextNew(streams: nat, before: seq<(Target, Stream)>, p: (Target, Stream), at: nat,
                       make: ((Target, Stream), nat) -> Track, enc: (Track, nat) -> Track)
    requires at == streams + |before| && enc(TrackOf(p.1), at) == make(p, at)
    requires EncodeFrom(Fed(before), streams, enc) == NewTracksBy(streams, before, make)
    ensures EncodeFrom(Fed(before + [p]), streams, enc) == NewTracksBy(streams, before + [p], make)
  {
    FedSnoc(before, p);
    FedCount(before);
    EncodeEnds(Fed(before), TrackOf(p.1), streams, at, enc);
    NewTracksBySnoc(streams, before, p, at, make);
  }

  lemma {:induction false} EncodesAllNew(streams: nat, n: nat, sources: seq<(Target, Stream)>,
                                         make: ((Target, Stream), nat) -> Track, enc: (Track, nat) -> Track)
    requires n <= |sources|
    requires forall j: nat :: j < |sources| ==> enc(TrackOf(sources[j].1), streams + j) == make(sources[j], streams + j)
    ensures EncodeFrom(Fed(sources[..n]), streams, enc) == NewTracksBy(streams, sources[..n], make)
  {
    if n > 0 {
      var m: nat := n - 1;
      EncodesAllNew(streams, m, sources, make, enc);
      assert enc(TrackOf(sources[m].1), streams + m) == make(sources[m], streams + m);
      EncodesNextNew(streams, sources[..m], sources[m], streams + m, make, enc);
      assert sources[..n] == sources[..m] + [sources[m]];
    }
  }

  // ----- what the built command does -----

  /** The output the plan promises: the originals in order, then one track per target. */
  function Remuxed(c: Container, sources: seq<(Target, Stream)>, settings: DownmixSettings, index: Option<int>,
                   inherit: bool): Container
  {
    Originals(c, index) + NewTracks(|Probe(c)|, sources, settings, index, inherit)
  }

  lemma PlanOriginals(c: Container, sources: seq<(Target, Stream)>, settings: DownmixSettings, index: Option<int>,
                      inherit: bool, opts: seq<Opt>, enc: (Track, nat) -> Track)
    requires SaysPlan(opts, AudioCount(c), sources, settings, index)
    requires forall t: Track, k: nat :: enc(t, k) == EncodedOrCopied(t, k, opts, inherit)
    ensures EncodeFrom(c, 0, enc) == Originals(c, index)
  {
    forall t: Track, k: nat | k < AudioCount(c) || t.OtherTrack? ensures enc(t, k) == Original(t, k, index) {
      EncodesOriginal(t, k, AudioCount(c), sources, settings, index, inherit, opts);
    }
    EncodesOriginals(c, index, enc);
  }

  lemma PlanNew(streams: nat, sources: seq<(Target, Stream)>, settings: DownmixSettings, index: Option<int>,
                inherit: bool, opts: seq<Opt>, enc: (Track, nat) -> Track)
    requires SaysPlan(opts, streams, sources, settings, index)
    requires forall t: Track, k: nat :: enc(t, k) == EncodedOrCopied(t, k, opts, inherit)
    ensures EncodeFrom(Fed(sources), streams, enc) == NewTracks(streams, sources, settings, index, inherit)
  {
    var make := (p: (Target, Stream), k: nat) => NewTrack(p, k, settings, index, inherit);
    forall j: nat | j < |sources| ensures enc(TrackOf(sources[j].1), streams + j) == make(sources[j], streams + j) {
      EncodesNew(streams, j, sources, settings, index, inherit, opts);
    }
    assert sources[..|sources|] == sources;
    EncodesAllNew(streams, |sources|, sources, make, enc);
  }

  lemma TwoParts(c: Container, sources: seq<(Target, Stream)>, a: Container, b: Container, enc: (Track, nat) -> Track)
    requires EncodeFrom(c, 0, enc) == a && EncodeFrom(Fed(sources), |Probe(c)|, enc) == b
    ensures EncodeFrom(c + Fed(sources), 0, enc) == a + b
  {
    CountIsProbed(c, 0);
    EncodeConcat(c, Fed(sources), 0, enc);
  }

  lemma SourcesProbed(streams: seq<Stream>, targets: seq<Target>)
    requires Sources(streams, targets).Ok?
    ensures forall p :: p in Sources(streams, targets).value ==> p.1 in streams
  {
    SourcesMeaning(streams, targets);
    var sources := Sources(streams, targets).value;
    forall p | p in sources ensures p.1 in streams {
      var i :| 0 <= i < |sources| && sources[i] == p;
      assert WidestOf(streams, p.0, p.1);
    }
  }

  /** Interpreting the built command yields exactly the planned layout, for every file, plan and setting. */
  lemma CommandRealizesPlan(c: Container, file: string, out: string, ffmpeg: string, targets: seq<Target>,
                            settings: DownmixSettings, index: Option<int>, inherit: bool)
    requires BuildCheck(Probe(c), targets, index).None?
    ensures var sources := Sources(Probe(c), targets);
            sources.Ok? && Output(c, Command(ffmpeg, Options(file, |Probe(c)|, sources.value, settings, index), out),
                inherit)
                           == Remuxed(c, sources.value, settings, index, inherit)
  {
    var sources := Sources(Probe(c), targets).value;
    var opts := Options(file, |Probe(c)|, sources, settings, index);
    SourcesProbed(Probe(c), targets);
    ParsesCommand(ffmpeg, opts, out);
    forall f: Field, k: int ensures Lookup(opts, f, k) == Says(|Probe(c)|, sources, settings, index, f, k) {
      OptionsLookup(file, |Probe(c)|, sources, settings, index, f, k);
    }
    OptionsCopy(file, SourceMaps(sources), AllTrackOptions(|Probe(c)|, sources, settings),
        DefaultOptions(|Probe(c)| + |sources|, index));
    OptionsMap(c, file, |Probe(c)|, sources, settings, index);
    SourceMapsSelect(c, sources);
    var enc := (t: Track, k: nat) => EncodedOrCopied(t, k, opts, inherit);
    CountIsProbed(c, 0);
    PlanOriginals(c, sources, settings, index, inherit, opts, enc);
    PlanNew(|Probe(c)|, sources, settings, index, inherit, opts, enc);
    TwoParts(c, sources, Originals(c, index), NewTracks(|Probe(c)|, sources, settings, index, inherit), enc);
  }
}
