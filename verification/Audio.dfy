/** Audio streams as the probe reports them, and the user's downmix settings. */
module Audio {
  import opened Common

  datatype Stream = Stream(index: int, codec: string, channels: int, layout: string, language: string, isDefault: bool)

  datatype Tier = Stereo | TwoPointOne | FivePointOne

  function Channels(t: Tier): int {
    match t
    case Stereo => 2
    case TwoPointOne => 3
    case FivePointOne => 6
  }

  function LayoutName(t: Tier): string {
    match t
    case Stereo => "stereo"
    case TwoPointOne => "2.1"
    case FivePointOne => "5.1"
  }

  /** `allowed` is None when no language allow-list is configured. */
  datatype DownmixSettings = DownmixSettings(
    enabled: set<Tier>,
    allowed: Option<set<string>>,
    stereoCodec: string,
    stereoBitrate: Option<int>,
    surroundCodec: string,
    surroundBitrate: Option<int>)

  /** The codec and bitrate configured for a tier. */
  function CodecFor(t: Tier, settings: DownmixSettings): (string, Option<int>) {
    if t.Stereo? then (settings.stereoCodec, settings.stereoBitrate)
    else (settings.surroundCodec, settings.surroundBitrate)
  }

  datatype Target = Target(language: string, tier: Tier)

  /** A codec called "copy" copies the source stream, channels and all. */
  predicate Copies(t: Target, settings: DownmixSettings) { CodecFor(t.tier, settings).0 == "copy" }

  predicate Transcodes(targets: seq<Target>, settings: DownmixSettings) {
    forall t :: t in targets ==> !Copies(t, settings)
  }

  datatype Preference = Preference(language: string, tier: Tier)

  // ----- picking the best of several streams -----

  /** More channels first, the lower container index among equals. */
  predicate Better(a: Stream, b: Stream) {
    a.channels > b.channels || (a.channels == b.channels && a.index < b.index)
  }

  predicate Speaks(s: Stream, language: Option<string>) { language.None? || s.language == language.value }

  /** The position of the first best stream, among all or among those of one language. */
  function Best(streams: seq<Stream>, language: Option<string>): (r: Option<nat>)
    ensures r.Some? ==> r.value < |streams| && Speaks(streams[r.value], language)
  {
    if streams == [] then None
    else
      var n := |streams| - 1;
      var b := Best(streams[..n], language);
      if Speaks(streams[n], language) && (b.None? || Better(streams[n], streams[b.value])) then Some(n) else b
  }

  /** Nobody eligible beats stream `i`, and nobody eligible before it is as good. */
  ghost predicate IsBest(streams: seq<Stream>, language: Option<string>, i: nat) {
    && i < |streams| && Speaks(streams[i], language)
    && (forall j :: 0 <= j < |streams| && Speaks(streams[j], language) ==> !Better(streams[j], streams[i]))
    && (forall j :: 0 <= j < i && Speaks(streams[j], language) ==> Better(streams[i], streams[j]))
  }

  lemma {:induction false} BestMeaning(streams: seq<Stream>, language: Option<string>)
    ensures Best(streams, language).None? <==> forall s :: s in streams ==> !Speaks(s, language)
    ensures Best(streams, language).Some? ==> IsBest(streams, language, Best(streams, language).value)
  {
    if streams != [] {
      var n := |streams| - 1;
      var last := streams[n];
      assert streams == streams[..n] + [last];
      BestMeaning(streams[..n], language);
      assert last in streams;
    }
  }

  /**
   The best stream in plain terms: of those that may be picked, the widest, and the first in the
   container of these.
   */
  lemma BestPicks(streams: seq<Stream>, language: Option<string>, i: nat)
    requires Best(streams, language) == Some(i)
    ensures i < |streams| && (language.Some? ==> streams[i].language == language.value)
    ensures forall s :: s in streams && (language.Some? ==> s.language == language.value) ==>
              s.channels < streams[i].channels || (s.channels == streams[i].channels && s.index >= streams[i].index)
  {
    BestMeaning(streams, language);
    forall s | s in streams && (language.Some? ==> s.language == language.value)
      ensures s.channels < streams[i].channels || (s.channels == streams[i].channels && s.index >= streams[i].index)
    {
      var j :| 0 <= j < |streams| && streams[j] == s;
      assert Speaks(streams[j], language) && !Better(streams[j], streams[i]);
    }
  }

  /** There is never more than one such position. */
  lemma BestUnique(streams: seq<Stream>, language: Option<string>, i: nat)
    requires IsBest(streams, language, i)
    ensures Best(streams, language) == Some(i)
  {
    BestMeaning(streams, language);
    assert streams[i] in streams;
  }
}
