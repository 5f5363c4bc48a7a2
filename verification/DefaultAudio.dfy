/** Which audio stream should carry the default flag, and whether it already does. */
module DefaultAudio {
  import opened Common
  import opened Audio

  predicate Exact(s: Stream, pref: Preference) { s.language == pref.language && s.channels == Channels(pref.tier) }

  function FirstExact(streams: seq<Stream>, pref: Preference): (r: Option<nat>)
    ensures r.Some? ==> r.value < |streams| && Exact(streams[r.value], pref)
    ensures forall j :: 0 <= j < (if r.Some? then r.value else |streams|) ==> !Exact(streams[j], pref)
  {
    if streams == [] then None
    else
      var n := |streams| - 1;
      var r := FirstExact(streams[..n], pref);
      if r.Some? then r else if Exact(streams[n], pref) then Some(n) else None
  }

  method FindExactMatch(streams: seq<Stream>, pref: Preference) returns (r: Option<nat>)
    ensures r == FirstExact(streams, pref)
  {
    for i := 0 to |streams|
      invariant forall j :: 0 <= j < i ==> !Exact(streams[j], pref)
    {
      if Exact(streams[i], pref) { return Some(i); }
    }
    r := None;
  }

  /** `resolve_default_audio_stream`: the position of the stream that should be default. */
  function Resolve(streams: seq<Stream>, pref: Preference): (r: Option<nat>)
    ensures r.Some? ==> r.value < |streams|
  {
    if |streams| < 2 then None
    else if FirstExact(streams, pref).Some? then FirstExact(streams, pref)
    else if Best(streams, Some(pref.language)).Some? then Best(streams, Some(pref.language))
    else Best(streams, None)
  }

  /** The preference spelled out: an exact match first, then the widest of the language, then the widest of all. */
  ghost predicate Wins(streams: seq<Stream>, pref: Preference, i: nat) {
    && |streams| >= 2 && i < |streams|
    && if exists s :: s in streams && s.language == pref.language && s.channels == Channels(pref.tier) then
         && streams[i].language == pref.language && streams[i].channels == Channels(pref.tier)
         && forall j :: 0 <= j < i ==>
              streams[j].language != pref.language || streams[j].channels != Channels(pref.tier)
       else if exists s :: s in streams && s.language == pref.language then IsBest(streams, Some(pref.language), i)
       else IsBest(streams, None, i)
  }

  /** There is a winner exactly when there are two streams to choose from, and it is the one `Resolve` names. */
  lemma ResolveMeaning(streams: seq<Stream>, pref: Preference, i: nat)
    ensures Resolve(streams, pref).None? <==> |streams| < 2
    ensures Resolve(streams, pref) == Some(i) <==> Wins(streams, pref, i)
  {
    BestMeaning(streams, Some(pref.language));
    BestMeaning(streams, None);
    assert streams == [] || streams[0] in streams;
    var e := FirstExact(streams, pref);
    if e.Some? { assert streams[e.value] in streams; }
    if Wins(streams, pref, i) && e.None? {
      if exists s :: s in streams && s.language == pref.language { BestUnique(streams, Some(pref.language), i); }
      else { BestUnique(streams, None, i); }
    }
  }

  // ----- the layout after a downmix -----

  function MaxIndex(streams: seq<Stream>): (m: int)
    ensures forall s :: s in streams ==> s.index <= m
  {
    if streams == [] then -1
    else
      var n := |streams| - 1;
      var m := MaxIndex(streams[..n]);
      assert streams == streams[..n] + [streams[n]];
      if n == 0 || streams[n].index > m then streams[n].index else m
  }

  function Planned(t: Target, index: int): Stream { Stream(index, "", Channels(t.tier), "", t.language, false) }

  function FinalLayout(streams: seq<Stream>, targets: seq<Target>): (r: seq<Stream>)
    ensures |r| == |streams| + |targets|
  {
    streams + seq(|targets|, j requires 0 <= j < |targets| => Planned(targets[j], MaxIndex(streams) + 1 + j))
  }

  method FinalAudioLayout(streams: seq<Stream>, targets: seq<Target>) returns (layout: seq<Stream>)
    ensures layout == FinalLayout(streams, targets)
  {
    layout := streams;
    var next := MaxIndex(streams) + 1;
    for offset := 0 to |targets|
      invariant layout == FinalLayout(streams, targets[..offset])
    {
      layout := layout + [Planned(targets[offset], next + offset)];
    }
    assert targets[..|targets|] == targets;
  }

  // ----- already correct? -----

  predicate AlreadyCorrect(streams: seq<Stream>, i: nat)
    requires i < |streams|
  {
    streams[i].isDefault && !exists j :: 0 <= j < |streams| && j != i && streams[j].isDefault
  }

  /** The output index to flag, or None when there is nothing to change. */
  function OutputIndex(streams: seq<Stream>, targets: seq<Target>, pref: Preference): (r: Option<nat>)
    ensures r.Some? ==> r.value < |streams| + |targets|
  {
    var layout := FinalLayout(streams, targets);
    var winner := Resolve(layout, pref);
    if winner.None? || AlreadyCorrect(layout, winner.value) then None else winner
  }

  /** `_default_audio_already_correct`: the winner is default and, the winner set aside, no stream is. */
  predicate SoleDefault(streams: seq<Stream>, w: nat)
    requires w < |streams|
  {
    streams[w].isDefault && !exists s :: s in streams[..w] + streams[w + 1..] && s.isDefault
  }

  /** The scheduler's test, before it queues a repair. */
  predicate SchedulerSkips(streams: seq<Stream>, pref: Preference) {
    var winner := Resolve(streams, pref);
    winner.None? || SoleDefault(streams, winner.value)
  }

  /** The disposition pipeline's test, before it runs ffmpeg. */
  predicate NothingToDo(streams: seq<Stream>, pref: Preference) {
    var winner := Resolve(streams, pref);
    winner.None? || AlreadyCorrect(streams, winner.value)
  }

  ghost function Defaults(streams: seq<Stream>): set<nat> { set i | 0 <= i < |streams| && streams[i].isDefault }

  lemma SoleDefaultIs(streams: seq<Stream>, w: nat)
    requires w < |streams|
    ensures SoleDefault(streams, w) <==> AlreadyCorrect(streams, w)
  {
    var others := streams[..w] + streams[w + 1..];
    forall j | 0 <= j < |streams| && j != w ensures streams[j] in others {
      assert others[if j < w then j else j - 1] == streams[j];
    }
    forall s | s in others ensures exists j :: 0 <= j < |streams| && j != w && streams[j] == s {
      var k :| 0 <= k < |others| && others[k] == s;
      assert streams[if k < w then k else k + 1] == s;
    }
  }

  /** All three tests ask one thing: are there fewer than two streams, or is the winner the one and only default? */
  lemma ChecksAgree(streams: seq<Stream>, targets: seq<Target>, pref: Preference)
    ensures NothingToDo(streams, pref) <==>
            |streams| < 2 || exists i: nat :: Wins(streams, pref, i) && Defaults(streams) == {i}
    ensures SchedulerSkips(streams, pref) <==> NothingToDo(streams, pref)
    ensures OutputIndex(streams, targets, pref).None? <==> NothingToDo(FinalLayout(streams, targets), pref)
    ensures OutputIndex(streams, targets, pref).Some? ==>
              Wins(FinalLayout(streams, targets), pref, OutputIndex(streams, targets, pref).value)
    ensures OutputIndex(streams, [], pref).None? <==> NothingToDo(streams, pref)
  {
    assert FinalLayout(streams, []) == streams;
    ResolveMeaning(streams, pref, 0);
    var aimed := OutputIndex(streams, targets, pref);
    if aimed.Some? { ResolveMeaning(FinalLayout(streams, targets), pref, aimed.value); }
    if |streams| >= 2 { SoleDefaultIs(streams, Resolve(streams, pref).value); }
    forall i: nat ensures Resolve(streams, pref) == Some(i)
        <==> Wins(streams, pref, i) { ResolveMeaning(streams, pref, i); }
    forall i: nat | i < |streams| ensures AlreadyCorrect(streams, i) <==> Defaults(streams) == {i} {
      if Defaults(streams) == {i} { assert i in Defaults(streams); }
      assert forall j :: 0 <= j < |streams| && streams[j].isDefault ==> j in Defaults(streams);
    }
  }

  // ----- re-indexing -----

  /** Same languages and channel counts in the same order, each list in ascending container order. */
  ghost predicate SameShape(a: seq<Stream>, b: seq<Stream>) {
    && |a| == |b|
    && (forall i :: 0 <= i < |a| ==> a[i].language == b[i].language && a[i].channels == b[i].channels)
    && (forall i, j :: 0 <= i < j < |a| ==> a[i].index < a[j].index && b[i].index < b[j].index)
  }

  lemma {:induction false} BestShape(a: seq<Stream>, b: seq<Stream>, language: Option<string>)
    requires SameShape(a, b)
    ensures Best(a, language) == Best(b, language)
  {
    if a != [] { BestShape(a[..|a| - 1], b[..|b| - 1], language); }
  }

  lemma {:induction false} ExactShape(a: seq<Stream>, b: seq<Stream>, pref: Preference)
    requires SameShape(a, b)
    ensures FirstExact(a, pref) == FirstExact(b, pref)
  {
    if a != [] { ExactShape(a[..|a| - 1], b[..|b| - 1], pref); }
  }

  /** The winner does not depend on the container indices a probe happens to report. */
  lemma ResolveShape(a: seq<Stream>, b: seq<Stream>, pref: Preference)
    requires SameShape(a, b)
    ensures Resolve(a, pref) == Resolve(b, pref)
  {
    ExactShape(a, b, pref);
    BestShape(a, b, Some(pref.language));
    BestShape(a, b, None);
  }
}
