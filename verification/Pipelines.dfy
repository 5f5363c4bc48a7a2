/**
 The validate-then-rename swap and the two pipelines around it. Whatever fails, the file on disk is either
 the untouched original or a validated replacement, and no temp file stays behind.
 */
module Pipelines {
  import opened Common
  import opened Audio
  import opened Targets
  import opened Remux
  import opened Ffmpeg
  import opened DefaultAudio
  import opened Relayout

  /** A media file: its tracks and its duration in seconds. */
  datatype Media = Media(tracks: Container, duration: real)

  const EMPTY_FILE := Media([], 0.0)

  /** One ffprobe call: it reports what is on disk, fails with an FfprobeError, or raises something else. */
  datatype ProbeOutcome = Reports | Fails | Raises

  /** One ffmpeg call and what it leaves in the temp file; a cancel shows as a non-zero exit. */
  datatype RunOutcome = Exits(code: int, left: Media) | BinaryMissing | TimesOut(left: Media)

  datatype RemuxResult = RemuxResult(success: bool, hasTemp: bool, code: int)

  datatype ApplyFailure = DurationMismatch | StreamCountMismatch

  datatype ApplyEnd = Applied | Rejected(reason: ApplyFailure) | ApplyRaised(probe: ProbeOutcome) | BadArgument

  datatype Outcome = Success | NothingQualifies | ProbeFailed | RemuxFailed | ApplyFailed

  /** How a pipeline call ends: a result, or an exception that is not an FfprobeError. */
  datatype Ending = Returned(outcome: Outcome, success: bool, added: seq<Target>) | Propagated

  function Abs(x: real): real { if x < 0.0 then -x else x }

  /** The swap's acceptance test. */
  predicate Validated(original: Media, temp: Media, added: int, tolerance: real) {
    Abs(temp.duration - original.duration) <= tolerance && |temp.tracks| == |original.tracks| + added
  }

  /** The swap is reached and one of its probes raises something other than an FfprobeError. */
  predicate RaisesInSwap(run: RunOutcome, probeOriginal: ProbeOutcome, probeTemp: ProbeOutcome) {
    run.Exits? && run.code == 0 && (probeOriginal.Raises? || (probeOriginal.Reports? && probeTemp.Raises?))
  }

  // ----- what ffmpeg was told, and what comes of it -----

  /** The flag the downmix aims at an output track, when it sets the default track at all. */
  function AimedIndex(p: seq<Stream>, targets: seq<Target>, pref: Option<Preference>, autoSet: bool): (r: Option<nat>)
    ensures r.Some? ==> r.value < |p| + |targets|
  {
    if autoSet && pref.Some? then OutputIndex(p, targets, pref.value) else None
  }

  /** The originals, flags apart. */
  ghost predicate KeepsStreams(p: seq<Stream>, p': seq<Stream>) {
    |p| <= |p'| && forall k :: 0 <= k < |p| ==> p'[k] == p[k].(isDefault := p'[k].isDefault)
  }

  ghost predicate KeepsFlags(p: seq<Stream>, p': seq<Stream>) {
    |p| <= |p'| && forall k :: 0 <= k < |p| ==> p'[k].isDefault == p[k].isDefault
  }

  /** Track `s` is what was asked for: the target's language, and unless it is a copy its codec and channels. */
  ghost predicate Adds(s: Stream, t: Target, settings: DownmixSettings) {
    && s.language == t.language
    && var codec := if t.tier.Stereo? then settings.stereoCodec else settings.surroundCodec;
       codec != "copy" ==> s.codec == codec && s.channels == Channels(t.tier)
  }

  /** Exactly the track the preference wins in `layout` is flagged in `p'`. */
  ghost predicate FlagsWinner(layout: seq<Stream>, pref: Preference, p': seq<Stream>) {
    exists i: nat :: Wins(layout, pref, i) && Defaults(p') == {i}
  }

  /** What a downmix makes of a file probed as `p`, probed again as `p'`. */
  ghost predicate Downmixed(p: seq<Stream>, targets: seq<Target>, settings: DownmixSettings, pref: Option<Preference>,
                            autoSet: bool, p': seq<Stream>)
  {
    && |p'| == |p| + |targets| && KeepsStreams(p, p')
    && (forall j :: 0 <= j < |targets| ==> Adds(p'[|p| + j], targets[j], settings))
    && if autoSet && pref.Some? && !DefaultAudio.NothingToDo(FinalLayout(p, targets), pref.value)
       then FlagsWinner(FinalLayout(p, targets), pref.value, p') else KeepsFlags(p, p')
  }

  /** What the repair makes of it: the same streams, and exactly the preferred one flagged. */
  ghost predicate Repaired(p: seq<Stream>, pref: Preference, p': seq<Stream>) {
    |p'| == |p| && KeepsStreams(p, p') && FlagsWinner(p, pref, p') && DefaultAudio.NothingToDo(p', pref)
  }

  lemma RealizedKeeps(p: seq<Stream>, targets: seq<Target>, settings: DownmixSettings, index: Option<nat>,
                      inherit: bool, p': seq<Stream>)
    requires Realized(p, targets, settings, index, inherit, p')
    ensures |p'| == |p| + |targets| && KeepsStreams(p, p') && (index.None? ==> KeepsFlags(p, p'))
    ensures forall j :: 0 <= j < |targets| ==> Adds(p'[|p| + j], targets[j], settings)
  {
    forall j | 0 <= j < |targets| ensures Adds(p'[|p| + j], targets[j], settings) {
      assert AddedAt(p, targets, settings, index, inherit, p', j);
    }
  }

  lemma RealizedFlags(p: seq<Stream>, targets: seq<Target>, settings: DownmixSettings, pref: Preference, inherit: bool,
                      p': seq<Stream>)
    requires Realized(p, targets, settings, OutputIndex(p, targets, pref), inherit, p')
    requires OutputIndex(p, targets, pref).Some?
    ensures FlagsWinner(FinalLayout(p, targets), pref, p')
  {
    var i := OutputIndex(p, targets, pref).value;
    ChecksAgree(p, targets, pref);
    OneDefault(p, targets, settings, i, inherit, p');
    assert Wins(FinalLayout(p, targets), pref, i);
  }

  lemma RealizedDownmix(p: seq<Stream>, targets: seq<Target>, settings: DownmixSettings, pref: Option<Preference>,
                        autoSet: bool, inherit: bool, p': seq<Stream>)
    requires Realized(p, targets, settings, AimedIndex(p, targets, pref, autoSet), inherit, p')
    ensures Downmixed(p, targets, settings, pref, autoSet, p')
  {
    RealizedKeeps(p, targets, settings, AimedIndex(p, targets, pref, autoSet), inherit, p');
    if autoSet && pref.Some? {
      ChecksAgree(p, targets, pref.value);
      if OutputIndex(p, targets, pref.value).Some? {
        RealizedFlags(p, targets, settings, pref.value, inherit, p');
      }
    }
  }

  /** Video, subtitle and other tracks stay where they are, and audio tracks stay audio tracks. */
  ghost predicate KeepsOthers(was: Media, left: Media) {
    && |was.tracks| <= |left.tracks|
    && forall k :: 0 <= k < |was.tracks| ==>
         if was.tracks[k].OtherTrack? then left.tracks[k] == was.tracks[k] else left.tracks[k].AudioTrack?
  }

  lemma {:induction false} OthersStay(c: Container, index: Option<int>)
    ensures |Originals(c, index)| == |c|
    ensures forall k :: 0 <= k < |c| ==>
              if c[k].OtherTrack? then Originals(c, index)[k] == c[k] else Originals(c, index)[k].AudioTrack?
  {
    if c != [] {
      var n := |c| - 1;
      OthersStay(c[..n], index);
    }
  }

  /** The file ffmpeg leaves when it does what `argv` says. */
  ghost predicate Obeys(argv: seq<string>, was: Media, left: Media, inherit: bool)
    requires argv != []
  {
    left.tracks == Output(was.tracks, argv, inherit)
  }

  /** `argv` is the command built for these inputs. */
  ghost predicate Told(argv: seq<string>, ffmpeg: string, file: string, out: string, streams: seq<Stream>,
                       targets: seq<Target>, settings: DownmixSettings, index: Option<int>)
  {
    && Sources(streams, targets).Ok? && argv != []
    && argv == Argv(ffmpeg, file, out, |streams|, Sources(streams, targets).value, settings, index)
  }

  lemma ToldRealizes(argv: seq<string>, ffmpeg: string, file: string, out: string, was: Media, targets: seq<Target>,
                     settings: DownmixSettings, index: Option<int>, inherit: bool, left: Media)
    requires Told(argv, ffmpeg, file, out, Probe(was.tracks), targets, settings, index)
    requires BuildCheck(Probe(was.tracks), targets, index).None? && Obeys(argv, was, left, inherit)
    ensures Realized(Probe(was.tracks), targets, settings, index, inherit, Probe(left.tracks))
    ensures Faithful(was, targets, settings, index, inherit, left) && KeepsOthers(was, left)
  {
    var sources := Sources(Probe(was.tracks), targets).value;
    CommandText(ffmpeg, file, out, |Probe(was.tracks)|, sources, settings, index);
    CommandRealizesPlan(was.tracks, file, out, ffmpeg, targets, settings, index, inherit);
    RemuxRealizes(was.tracks, targets, settings, index, inherit);
    OthersStay(was.tracks, index);
  }

  ghost predicate DownmixSays(was: Media, targets: seq<Target>, settings: DownmixSettings, pref: Option<Preference>,
                              autoSet: bool, inherit: bool, left: Media)
  {
    && Downmixed(Probe(was.tracks), targets, settings, pref, autoSet, Probe(left.tracks))
    && Settles(Probe(was.tracks), targets, settings, pref, autoSet, inherit, Probe(left.tracks))
    && KeepsOthers(was, left)
  }

  /** The downmix, told with the index aimed at and obeyed. */
  lemma ToldDownmix(argv: seq<string>, ffmpeg: string, file: string, out: string, was: Media, targets: seq<Target>,
                    settings: DownmixSettings, pref: Option<Preference>, autoSet: bool, inherit: bool, left: Media)
    requires var p := Probe(was.tracks);
             && Detects(Pairs(p), settings, targets) && targets != []
             && Told(argv, ffmpeg, file, out, p, targets, settings, AimedIndex(p, targets, pref, autoSet))
             && Obeys(argv, was, left, inherit)
    ensures DownmixSays(was, targets, settings, pref, autoSet, inherit, left)
  {
    var p, p' := Probe(was.tracks), Probe(left.tracks);
    var index := AimedIndex(p, targets, pref, autoSet);
    DetectedPlanBuilds(p, settings, targets, if pref.Some? then pref.value else Preference("", Stereo));
    ToldRealizes(argv, ffmpeg, file, out, was, targets, settings, index, inherit, left);
    RealizedDownmix(p, targets, settings, pref, autoSet, inherit, p');
    forall again | Detects(Pairs(p'), settings, again) ensures again == [] <==> Transcodes(targets, settings) {
      ConvergesIff(p, targets, settings, index, inherit, p', again);
    }
    if autoSet && pref.Some? { AutoSetIff(p, targets, settings, pref.value, index, inherit, p'); }
  }

  lemma ObeyedDownmix(argv: seq<string>, ffmpeg: string, file: string, out: string, was: Media, targets: seq<Target>,
                      settings: DownmixSettings, pref: Option<Preference>, autoSet: bool, left: Media)
    requires var p := Probe(was.tracks);
             && Detects(Pairs(p), settings, targets) && targets != []
             && Told(argv, ffmpeg, file, out, p, targets, settings, AimedIndex(p, targets, pref, autoSet))
    ensures forall inherit :: Obeys(argv, was, left, inherit) ==>
              DownmixSays(was, targets, settings, pref, autoSet, inherit, left)
  {
    forall inherit | Obeys(argv, was, left, inherit)
      ensures DownmixSays(was, targets, settings, pref, autoSet, inherit, left)
    {
      ToldDownmix(argv, ffmpeg, file, out, was, targets, settings, pref, autoSet, inherit, left);
    }
  }

  /** What the next look at the file finds: when the downmix and its default track are settled. */
  ghost predicate Settles(p: seq<Stream>, targets: seq<Target>, settings: DownmixSettings, pref: Option<Preference>,
                          autoSet: bool, inherit: bool, p': seq<Stream>)
  {
    && Sources(p, targets).Ok?
    && (forall again :: Detects(Pairs(p'), settings, again) ==> (again == [] <==> Transcodes(targets, settings)))
    && (autoSet && pref.Some? ==>
         (DefaultAudio.NothingToDo(p', pref.value)
          <==> FlagLands(p, targets, settings, AimedIndex(p, targets, pref, autoSet), inherit)))
  }

  lemma ToldRepair(argv: seq<string>, ffmpeg: string, file: string, out: string, was: Media, pref: Preference,
                   unused: DownmixSettings, inherit: bool, left: Media)
    requires var p := Probe(was.tracks);
             && !DefaultAudio.NothingToDo(p, pref) && Told(argv, ffmpeg, file, out, p, [], unused, Resolve(p, pref))
             && Obeys(argv, was, left, inherit)
    ensures Repaired(Probe(was.tracks), pref, Probe(left.tracks)) && KeepsOthers(was, left)
  {
    var p, p' := Probe(was.tracks), Probe(left.tracks);
    var i := Resolve(p, pref).value;
    DispositionFixpoint(p, unused, pref, inherit);
    ToldRealizes(argv, ffmpeg, file, out, was, [], unused, Some(i), inherit, left);
    RealizedKeeps(p, [], unused, Some(i), inherit, p');
    OneDefault(p, [], unused, i, inherit, p');
    ResolveMeaning(p, pref, i);
  }

  /** The media file's directory, as far as the pipelines touch it. */
  class Disk {
    var original: Media
    var temp: Option<Media>

    constructor (m: Media)
      ensures original == m && temp == None
    {
      original, temp := m, None;
    }

    method RemoveIfExists()
      modifies this`temp
      ensures temp == None
    {
      if temp.Some? { temp := None; }
    }

    /** A raised ValueError comes before the temp file exists; every failure removes it. */
    method RunRemux(file: string, tempName: string, streams: seq<Stream>, targets: seq<Target>,
                    settings: DownmixSettings,
                    ffmpeg: string, index: Option<int>, run: RunOutcome)
      returns (r: Result<RemuxResult, BuildError>, ghost argv: seq<string>)
      requires temp == None
      modifies this`temp
      ensures r.Err? <==> BuildCheck(streams, targets, index).Some?
      ensures r.Err? ==> r.error == BuildCheck(streams, targets, index).value
      ensures r.Ok? ==> Told(argv, ffmpeg, file, tempName, streams, targets, settings, index)
      ensures r.Ok? ==> r.value.code == if run.Exits? then run.code else -1
      ensures r.Ok? ==> (r.value.success <==> run.Exits? && run.code == 0) && (r.value.hasTemp <==> r.value.success)
      ensures temp == if r.Ok? && r.value.success then Some(run.left) else None
    {
      var checked := BuildRemuxCommand(file, file, streams, targets, settings, ffmpeg, index);
      if checked.Err? { return Err(checked.error), []; }
      temp := Some(EMPTY_FILE);
      var command := BuildRemuxCommand(file, tempName, streams, targets, settings, ffmpeg, index);
      argv := command.value;
      match run {
        case BinaryMissing =>
          RemoveIfExists();
          r := Ok(RemuxResult(false, false, -1));
        case TimesOut(left) =>
          temp := Some(left);
          RemoveIfExists();
          r := Ok(RemuxResult(false, false, -1));
        case Exits(code, left) =>
          temp := Some(left);
          if code != 0 {
            RemoveIfExists();
            r := Ok(RemuxResult(false, false, code));
          } else {
            r := Ok(RemuxResult(true, true, 0));
          }
      }
    }

    /** The swap: both files are probed, compared, and only then is the temp renamed over the original. */
    method ApplyRemuxResult(remux: RemuxResult, added: int, tolerance: real, probeOriginal: ProbeOutcome,
                            probeTemp: ProbeOutcome)
      returns (r: ApplyEnd)
      requires remux.success && remux.hasTemp ==> temp.Some?
      modifies this
      ensures r.BadArgument? <==> !remux.success || !remux.hasTemp || added < 0
      ensures r.BadArgument? ==> original == old(original) && temp == old(temp)
      ensures r.Applied? <==> !r.BadArgument? && probeOriginal.Reports? && probeTemp.Reports?
                              && Validated(old(original), old(temp).value, added, tolerance)
      ensures r.Applied? ==> original == old(temp).value
      ensures !r.Applied? ==> original == old(original)
      ensures !r.BadArgument? ==> temp == None
      ensures r.ApplyRaised? <==> !r.BadArgument? && !(probeOriginal.Reports? && probeTemp.Reports?)
      ensures r.ApplyRaised? ==> r.probe == if probeOriginal.Reports? then probeTemp else probeOriginal
      ensures r.Applied? ==>
                && |original.tracks| == |old(original).tracks| + added
                && -tolerance <= original.duration - old(original).duration <= tolerance
      ensures r == Rejected(DurationMismatch)
         <==> (!r.BadArgument? && !r.ApplyRaised? && Abs(old(temp).value.duration - old(original).duration) > tolerance)
    {
      if !remux.success || !remux.hasTemp { return BadArgument; }
      if added < 0 { return BadArgument; }
      if !probeOriginal.Reports? {
        RemoveIfExists();
        return ApplyRaised(probeOriginal);
      }
      if !probeTemp.Reports? {
        RemoveIfExists();
        return ApplyRaised(probeTemp);
      }
      var delta := Abs(temp.value.duration - original.duration);
      if delta > tolerance {
        RemoveIfExists();
        return Rejected(DurationMismatch);
      }
      if |temp.value.tracks| != |original.tracks| + added {
        RemoveIfExists();
        return Rejected(StreamCountMismatch);
      }
      original, temp := temp.value, None;
      r := Applied;
    }

    /** Either the original is untouched, or it is the validated replacement; and nothing is left over. */
    ghost predicate Safe(was: Media, ending: Ending, added: int, tolerance: real, run: RunOutcome)
      reads this
    {
      && temp == None
      && if ending.Returned? && ending.outcome.Success?
         then run.Exits? && run.code == 0 && original == run.left && Validated(was, original, added, tolerance)
         else original == was
    }

    method RunDownmixPipeline(file: string, tempName: string, settings: DownmixSettings, ffmpeg: string,
                              tolerance: real,
                              pref: Option<Preference>, autoSet: bool,
                              probe: ProbeOutcome, run: RunOutcome, probeOriginal: ProbeOutcome,
                                  probeTemp: ProbeOutcome)
      returns (e: Ending, ghost targets: seq<Target>, ghost argv: Option<seq<string>>)
      requires temp == None
      modifies this
      ensures Detects(Pairs(Probe(old(original).tracks)), settings, targets)
      ensures argv.Some? <==> probe.Reports? && targets != []
      ensures argv.Some? ==> var p := Probe(old(original).tracks);
                Told(argv.value, ffmpeg, file, tempName, p, targets, settings, AimedIndex(p, targets, pref, autoSet))
      ensures Safe(old(original), e, |targets|, tolerance, run)
      ensures e.Returned? && e.outcome.Success? <==>
                && probe.Reports? && targets != [] && run.Exits? && run.code == 0
                && probeOriginal.Reports? && probeTemp.Reports?
                     && Validated(old(original), run.left, |targets|, tolerance)
      ensures e.Returned? && e.outcome.Success? ==> argv.Some? && forall inherit ::
                Obeys(argv.value, old(original), original, inherit) ==>
                  DownmixSays(old(original), targets, settings, pref, autoSet, inherit, original)
      ensures e.Returned? ==> (e.success <==> e.outcome.Success? || e.outcome.NothingQualifies?)
      ensures e.Returned? ==> e.added == if e.outcome.Success? then targets else []
      ensures e.Returned? && e.outcome.NothingQualifies? <==> probe.Reports? && targets == []
      ensures e.Returned? && e.outcome.ProbeFailed? <==> probe.Fails?
      ensures e.Returned? && e.outcome.RemuxFailed?
              <==> probe.Reports? && targets != [] && !(run.Exits? && run.code == 0)
      ensures e.Propagated? <==>
              probe.Raises? || (probe.Reports? && targets != [] && RaisesInSwap(run, probeOriginal, probeTemp))
    {
      var streams := Probe(original.tracks);
      var detected := DetectQualifyingTargets(streams, settings);
      targets, argv := detected, None;
      if probe.Raises? { return Propagated, targets, argv; }
      if probe.Fails? { return Returned(ProbeFailed, false, []), targets, argv; }
      if detected == [] { return Returned(NothingQualifies, true, []), targets, argv; }
      var index: Option<int> := None;
      if autoSet && pref.Some? { index := OutputIndex(streams, detected, pref.value); }
      DetectedPlanBuilds(streams, settings, detected, if pref.Some? then pref.value else Preference("", Stereo));
      ghost var was := original;
      var remuxed;
      ghost var told;
      remuxed, told := RunRemux(file, tempName, streams, detected, settings, ffmpeg, index, run);
      argv := Some(told);
      if !remuxed.value.success { return Returned(RemuxFailed, false, []), targets, argv; }
      var applied := ApplyRemuxResult(remuxed.value, |detected|, tolerance, probeOriginal, probeTemp);
      if applied.ApplyRaised? {
        if applied.probe.Raises? { return Propagated, targets, argv; }
        return Returned(ApplyFailed, false, []), targets, argv;
      }
      if !applied.Applied? { return Returned(ApplyFailed, false, []), targets, argv; }
      ObeyedDownmix(told, ffmpeg, file, tempName, was, targets, settings, pref, autoSet, original);
      e := Returned(Success, true, detected);
    }

    method RunDefaultAudioPipeline(file: string, tempName: string, pref: Preference, unused: DownmixSettings,
                                   ffmpeg: string, tolerance: real,
                                   probe: ProbeOutcome, run: RunOutcome, probeOriginal: ProbeOutcome,
                                       probeTemp: ProbeOutcome)
      returns (e: Ending, ghost argv: Option<seq<string>>)
      requires temp == None
      modifies this
      ensures Safe(old(original), e, 0, tolerance, run)
      ensures argv.Some? <==> probe.Reports? && !DefaultAudio.NothingToDo(Probe(old(original).tracks), pref)
      ensures argv.Some? ==> var p := Probe(old(original).tracks);
                Told(argv.value, ffmpeg, file, tempName, p, [], unused, Resolve(p, pref))
      ensures e.Returned? && e.outcome.Success? ==> argv.Some? && forall inherit ::
                Obeys(argv.value, old(original), original, inherit) ==>
                  Repaired(Probe(old(original).tracks), pref, Probe(original.tracks))
                  && KeepsOthers(old(original), original)
      ensures e.Returned? && e.outcome.Success? <==>
                && probe.Reports? && !DefaultAudio.NothingToDo(Probe(old(original).tracks), pref) && run.Exits?
                     && run.code == 0
                && probeOriginal.Reports? && probeTemp.Reports? && Validated(old(original), run.left, 0, tolerance)
      ensures e.Returned? ==> (e.success <==> e.outcome.Success? || e.outcome.NothingQualifies?) && e.added == []
      ensures e.Returned? && e.outcome.NothingQualifies?
              <==> probe.Reports? && DefaultAudio.NothingToDo(Probe(old(original).tracks), pref)
      ensures e.Returned? && e.outcome.ProbeFailed? <==> probe.Fails?
      ensures e.Propagated? <==>
                probe.Raises? || (probe.Reports? && !DefaultAudio.NothingToDo(Probe(old(original).tracks), pref)
                    && RaisesInSwap(run, probeOriginal, probeTemp))
    {
      argv := None;
      if probe.Raises? { return Propagated, argv; }
      if probe.Fails? { return Returned(ProbeFailed, false, []), argv; }
      var streams := Probe(original.tracks);
      var winner := Resolve(streams, pref);
      if winner.None? { return Returned(NothingQualifies, true, []), argv; }
      if AlreadyCorrect(streams, winner.value) { return Returned(NothingQualifies, true, []), argv; }
      ghost var was := original;
      var remuxed;
      ghost var told;
      remuxed, told := RunRemux(file, tempName, streams, [], unused, ffmpeg, winner, run);
      argv := Some(told);
      if !remuxed.value.success { return Returned(RemuxFailed, false, []), argv; }
      var applied := ApplyRemuxResult(remuxed.value, 0, tolerance, probeOriginal, probeTemp);
      if applied.ApplyRaised? {
        if applied.probe.Raises? { return Propagated, argv; }
        return Returned(ApplyFailed, false, []), argv;
      }
      if !applied.Applied? { return Returned(ApplyFailed, false, []), argv; }
      forall inherit | Obeys(told, was, original, inherit)
        ensures Repaired(Probe(was.tracks), pref, Probe(original.tracks)) && KeepsOthers(was, original)
      {
        ToldRepair(told, ffmpeg, file, tempName, was, pref, unused, inherit, original);
      }
      e := Returned(Success, true, []);
    }
  }

  // ----- with a faithful ffmpeg -----

  /** What ffmpeg leaves when it does what the command says; the duration may drift. */
  ghost predicate Faithful(m: Media, targets: seq<Target>, settings: DownmixSettings, index: Option<int>, inherit: bool,
                           left: Media)
  {
    && BuildCheck(Probe(m.tracks), targets, index).None?
    && left.tracks == Remuxed(m.tracks, Sources(Probe(m.tracks), targets).value, settings, index, inherit)
  }

  lemma CommandIsFaithful(m: Media, targets: seq<Target>, settings: DownmixSettings, index: Option<int>, inherit: bool,
                          file: string, out: string, ffmpeg: string, duration: real)
    requires BuildCheck(Probe(m.tracks), targets, index).None?
    ensures var opts := Options(file, |Probe(m.tracks)|, Sources(Probe(m.tracks), targets).value, settings, index);
            Faithful(m, targets, settings, index, inherit,
                Media(Output(m.tracks, Command(ffmpeg, opts, out), inherit), duration))
  {
    CommandRealizesPlan(m.tracks, file, out, ffmpeg, targets, settings, index, inherit);
  }

  /** A faithful output always passes the stream-count check: only the duration can make the swap reject it. */
  lemma FaithfulIsValidated(m: Media, targets: seq<Target>, settings: DownmixSettings, index: Option<int>,
                            inherit: bool, left: Media, tolerance: real)
    requires Faithful(m, targets, settings, index, inherit, left)
    ensures Validated(m, left, |targets|, tolerance) <==> Abs(left.duration - m.duration) <= tolerance
  {
    ProbeOriginals(m.tracks, index);
    ProbeNew(|Probe(m.tracks)|, 0, Sources(Probe(m.tracks), targets).value, settings, index, inherit);
  }

  /** After a faithful, validated downmix the same settings find nothing to add, unless a codec is set to copy. */
  lemma DownmixSettles(m: Media, targets: seq<Target>, settings: DownmixSettings, index: Option<int>, inherit: bool,
                       left: Media, again: seq<Target>)
    requires Detects(Pairs(Probe(m.tracks)), settings, targets) && Faithful(m, targets, settings, index, inherit, left)
    requires Detects(Pairs(Probe(left.tracks)), settings, again)
    ensures again == [] <==> Transcodes(targets, settings)
  {
    RemuxRealizes(m.tracks, targets, settings, index, inherit);
    ConvergesIff(Probe(m.tracks), targets, settings, index, inherit, Probe(left.tracks), again);
  }

  /**
   After a faithful downmix that also sets the default track, the same preference finds nothing to
   change exactly when the flag lands.
   */
  lemma AutoSetSettles(m: Media, p: seq<Stream>, targets: seq<Target>, settings: DownmixSettings, pref: Preference,
                       index: Option<nat>, inherit: bool, left: Media)
    requires p == Probe(m.tracks) && Detects(Pairs(p), settings, targets) && index == OutputIndex(p, targets, pref)
    requires Faithful(m, targets, settings, index, inherit, left)
    ensures DefaultAudio.NothingToDo(Probe(left.tracks), pref) <==> FlagLands(p, targets, settings, index, inherit)
  {
    RemuxRealizes(m.tracks, targets, settings, index, inherit);
    AutoSetIff(p, targets, settings, pref, index, inherit, Probe(left.tracks));
  }

  /** After a faithful default-track repair the same preference finds nothing to change. */
  lemma RepairSettles(m: Media, pref: Preference, unused: DownmixSettings, inherit: bool, left: Media)
    requires !DefaultAudio.NothingToDo(Probe(m.tracks), pref)
    requires Faithful(m, [], unused, Some(Resolve(Probe(m.tracks), pref).value), inherit, left)
    ensures DefaultAudio.NothingToDo(Probe(left.tracks), pref)
  {
    DispositionFixpoint(Probe(m.tracks), unused, pref, inherit);
    RemuxRealizes(m.tracks, [], unused, Some(Resolve(Probe(m.tracks), pref).value), inherit);
  }
}
