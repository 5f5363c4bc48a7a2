/**
 Concrete files and settings on which a codec called "copy", or an inherited flag, breaks a
 promise of the downmix.
 */
module CopyInputs {
  import opened Common
  import opened Audio
  import opened Targets
  import opened Remux
  import opened Ffmpeg
  import opened DefaultAudio
  import opened Relayout

  /** One English 5.1 stream, the default one. */
  const SURROUND: seq<Stream> := [Stream(1, "ac3", 6, "5.1", "eng", true)]

  const MISSING: seq<Target> := [Target("eng", Stereo)]

  function StereoBy(codec: string): DownmixSettings { DownmixSettings({Stereo}, None, codec, None, "ac3", Some(448)) }

  /** The probe after the run that adds the stereo track. */
  function AfterRun(codec: string, index: Option<int>, inherit: bool): seq<Stream> {
    [Reflagged(SURROUND[0], 0, index), StreamOf(NewTrack((MISSING[0], SURROUND[0]), 1, StereoBy(codec), index, inherit),
        2)]
  }

  lemma StereoIsMissing(codec: string)
    ensures Detects(Pairs(SURROUND), StereoBy(codec), MISSING)
  {
    assert SURROUND[0] in SURROUND;
    assert forall x :: x in Pairs(SURROUND) <==> x == ("eng", 6);
    assert HasWider(Pairs(SURROUND), MISSING[0]);
    forall t | Qualifies(Pairs(SURROUND), StereoBy(codec), t) ensures t in MISSING {
      assert t == MISSING[0];
    }
  }

  lemma RunIsRealized(codec: string, index: Option<int>, inherit: bool)
    ensures Realized(SURROUND, MISSING, StereoBy(codec), index, inherit, AfterRun(codec, index, inherit))
  {
    StereoIsMissing(codec);
    DetectedSourcesWider(SURROUND, StereoBy(codec), MISSING);
    SourcesMeaning(SURROUND, MISSING);
    assert Sources(SURROUND, MISSING).value[0].1 in SURROUND;
    var p' := AfterRun(codec, index, inherit);
    forall j | 0 <= j < |MISSING| ensures AddedAt(SURROUND, MISSING, StereoBy(codec), index, inherit, p', j) {
      assert p'[|SURROUND| + j] == p'[1];
    }
  }

  /** With stereo copied, the run leaves stereo as missing as before. */
  lemma CopyLeavesItMissing(index: Option<int>, inherit: bool)
    ensures Realized(SURROUND, MISSING, StereoBy("copy"), index, inherit, AfterRun("copy", index, inherit))
    ensures Detects(Pairs(AfterRun("copy", index, inherit)), StereoBy("copy"), MISSING)
  {
    RunIsRealized("copy", index, inherit);
    StereoIsMissing("copy");
    RunPairs(SURROUND, MISSING, StereoBy("copy"), index, inherit, AfterRun("copy", index, inherit));
    assert AddedBy(MISSING, StereoBy("copy")) == {};
  }

  /** With stereo preferred and copied, the flag is aimed at the added track and the next look wants it back. */
  lemma CopyMovesTheDefault(inherit: bool)
    ensures var pref, p' := Preference("eng", Stereo), AfterRun("copy", Some(1), inherit);
            && Detects(Pairs(SURROUND), StereoBy("copy"), MISSING) && OutputIndex(SURROUND, MISSING, pref) == Some(1)
            && Realized(SURROUND, MISSING, StereoBy("copy"), Some(1), inherit, p')
            && Resolve(p', pref) == Some(0) && !NothingToDo(p', pref)
  {
    var pref, p', f := Preference("eng", Stereo), AfterRun("copy", Some(1), inherit), FinalLayout(SURROUND, MISSING);
    StereoIsMissing("copy");
    RunIsRealized("copy", Some(1), inherit);
    assert !Exact(f[0], pref) && Exact(f[1], pref) && !f[1].isDefault;
    FirstExactIs(f, pref, 1);
    DefaultFixpoint(SURROUND, MISSING, StereoBy("copy"), pref, 1, inherit, p');
    BestMeaning(p', Some("eng"));
    assert p'[0] in p' && !Exact(p'[0], pref) && !Exact(p'[1], pref);
  }

  /** With 5.1 preferred, the flags are left alone, and the added track comes out with the flag of its source. */
  lemma KeptFlagDoubles(codec: string, inherit: bool)
    requires codec == "copy" || inherit
    ensures var pref, p' := Preference("eng", FivePointOne), AfterRun(codec, None, inherit);
            && Detects(Pairs(SURROUND), StereoBy(codec), MISSING) && OutputIndex(SURROUND, MISSING, pref) == None
            && Realized(SURROUND, MISSING, StereoBy(codec), None, inherit, p')
            && p'[0].isDefault && p'[1].isDefault && !NothingToDo(p', pref)
  {
    var pref, p', f := Preference("eng", FivePointOne), AfterRun(codec, None, inherit), FinalLayout(SURROUND, MISSING);
    StereoIsMissing(codec);
    RunIsRealized(codec, None, inherit);
    assert Exact(f[0], pref) && f[0].isDefault && !f[1].isDefault;
    FirstExactIs(f, pref, 0);
    InBandIff(SURROUND, MISSING, StereoBy(codec), pref, inherit, p');
    DetectedSourcesWider(SURROUND, StereoBy(codec), MISSING);
    assert Sources(SURROUND, MISSING).value[0] in Sources(SURROUND, MISSING).value;
  }
}
