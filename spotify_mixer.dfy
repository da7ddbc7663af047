/** The round-robin mixer: a `Mixer` object that pulls tracks from several
    read-only sources in turn, rejects repeats and recently heard artists, and
    the `MixTracks` driver that collects its output. */
module SpotifyMixer {

  import opened MixerSpec
  import opened MixerRun

  class Mixer {
    const sourceList: seq<seq<Track>>
    const dedup: bool
    const minArtistSeparation: nat
    const failFast: bool
    const maxTracks: nat

    var trackHistory: set<TrackId>
    var artistHistory: seq<ArtistId>
    var curChannel: nat
    var prepped: bool
    var sourcePositions: seq<nat>

    /** Every track accepted so far, in order of acceptance. */
    ghost var emitted: seq<Track>

    /** The object invariant: the cursors and the channel are in range, and
        both histories are what the accepted tracks make of them. */
    ghost predicate Valid()
      reads this`sourcePositions, this`curChannel, this`trackHistory, this`artistHistory, this`emitted
    {
      CursorsOk() && HistoryOk()
    }

    /** One cursor per source, none past its source's end; the channel names
        a source (it stays 0 when there is none). */
    ghost predicate CursorsOk()
      reads this`sourcePositions, this`curChannel
    {
      CursorsFit(sourceList, sourcePositions, curChannel)
    }

    /** The id set holds the ids of the accepted tracks and the artist list is
        the window over their artists. */
    ghost predicate HistoryOk()
      reads this`trackHistory, this`artistHistory, this`emitted
    {
      trackHistory == Elements(TrackIds(emitted))
      && artistHistory == Recent(ArtistIds(emitted), minArtistSeparation)
    }

    /** The promises about the output so far: artists are separated, ids are
        unique when `dedup` is on, the cap holds, and every track came from a
        source. */
    ghost predicate RulesHold()
      reads this`trackHistory, this`emitted
    {
      Separated(ArtistIds(emitted), minArtistSeparation)
      && (dedup ==> Distinct(TrackIds(emitted)))
      && |trackHistory| <= maxTracks
      && (forall i :: 0 <= i < |emitted| ==> FromSources(sourceList, emitted[i]))
    }

    /** The settings, as the reference run takes them. */
    function Cfg(): Config
    {
      Config(sourceList, dedup, minArtistSeparation, maxTracks)
    }

    /** The cursors, the channel and the accepted tracks, as a value. */
    ghost function Snapshot(): Progress
      reads this`sourcePositions, this`curChannel, this`emitted
    {
      Progress(sourcePositions, curChannel, emitted)
    }

    constructor (sourceList: seq<seq<Track>>, dedup: bool, minArtistSeparation: nat,
                 failFast: bool, maxTracks: nat)
      ensures Valid() && RulesHold()
      ensures this.sourceList == sourceList && this.dedup == dedup
      ensures this.minArtistSeparation == minArtistSeparation
      ensures this.failFast == failFast && this.maxTracks == maxTracks
      ensures trackHistory == {} && artistHistory == [] && emitted == []
      ensures curChannel == 0 && !prepped
      ensures |sourcePositions| == |sourceList|
      ensures forall i :: 0 <= i < |sourceList| ==> sourcePositions[i] == 0
      ensures Snapshot() == Start(sourceList)
    {
      this.sourceList := sourceList;
      this.dedup := dedup;
      this.minArtistSeparation := minArtistSeparation;
      this.failFast := failFast;
      this.maxTracks := maxTracks;
      trackHistory := {};
      artistHistory := [];
      curChannel := 0;
      prepped := false;
      sourcePositions := seq(|sourceList|, _ => 0);
      emitted := [];
    }

    /** Pull the next acceptable track, trying the sources in turn from the
        current channel; give up after a whole round of failures. */
    method NextTrack() returns (r: Option<TrackId>, ghost accepted: Option<Track>, ghost attempts: nat)
      requires Valid() && RulesHold() && failFast
      modifies this
      ensures Valid() && RulesHold() && prepped
      // the call is the reference `next_track` call; `accepted` is the track
      // behind the returned id and `attempts` the number of sources tried
      ensures Outcome(accepted, Snapshot(), attempts) == Pull(Cfg(), old(Snapshot()), 0)
      ensures r == if accepted.Some? then Some(accepted.value.trackId) else None
      // with no source or with the cap reached nothing is tried
      ensures |sourceList| == 0 || |old(trackHistory)| >= maxTracks ==>
                r.None? && attempts == 0 && curChannel == old(curChannel)
                && sourcePositions == old(sourcePositions)
      // at most one round of attempts, and cursors never move back
      ensures attempts <= |sourceList|
      ensures |sourceList| > 0 ==> curChannel == Rotated(old(curChannel), attempts, |sourceList|)
      ensures forall i :: 0 <= i < |sourceList| ==> old(sourcePositions)[i] <= sourcePositions[i]
      // channel by channel in round order: passed over, then the one that
      // gave the track, then untouched
      ensures |sourceList| > 0 && |old(trackHistory)| < maxTracks ==>
                forall ch :: 0 <= ch < |sourceList| ==>
                  ChannelFate(Cfg(), old(Snapshot()), Outcome(accepted, Snapshot(), attempts), ch,
                              Ahead(old(curChannel), ch, |sourceList|), attempts)
      // exhaustion: every source was used up or had its head rejected, and
      // the history is untouched
      ensures r.None? ==>
                emitted == old(emitted) && trackHistory == old(trackHistory)
                && artistHistory == old(artistHistory)
      ensures r.None? && |sourceList| > 0 && |old(trackHistory)| < maxTracks ==>
                attempts == |sourceList|
                && forall ch :: 0 <= ch < |sourceList| ==> Skipped(Cfg(), old(Snapshot()), Snapshot(), ch)
      // success: exactly one track was recorded
      ensures accepted.Some? ==>
                1 <= attempts && emitted == old(emitted) + [accepted.value]
      ensures dedup ==> |emitted| <= maxTracks
    {
      ghost var start := Snapshot();
      Prep();
      var track;
      track, attempts := TryChannels();
      accepted := track;
      r := if track.Some? then Some(track.value.trackId) else None;
      DedupCap();
      PullCall(Cfg(), start);
    }

    /** The loop of `NextTrack`: attempt channel after channel until a track
        is accepted, the cap is reached, or a whole round has failed. */
    method TryChannels() returns (accepted: Option<Track>, ghost attempts: nat)
      requires Valid() && RulesHold() && failFast
      modifies this`sourcePositions, this`curChannel, this`trackHistory, this`artistHistory, this`emitted
      ensures Valid() && RulesHold()
      ensures Outcome(accepted, Snapshot(), attempts) == Pull(Cfg(), old(Snapshot()), 0)
      ensures accepted.None? ==> trackHistory == old(trackHistory) && artistHistory == old(artistHistory)
    {
      ghost var start := Snapshot();
      var consecutiveFails: nat := 0;
      attempts := 0;
      accepted := None;
      // each `break` below is a `return`
      while |sourceList| > 0 && |trackHistory| < maxTracks
        invariant Valid() && RulesHold() && accepted.None?
        invariant consecutiveFails <= |sourceList| && attempts == consecutiveFails
        invariant Pull(Cfg(), Snapshot(), consecutiveFails) == Pull(Cfg(), start, 0)
        invariant trackHistory == old(trackHistory) && artistHistory == old(artistHistory)
        decreases |sourceList| - consecutiveFails
      {
        if failFast && consecutiveFails >= |sourceList| {
          break;
        }
        accepted := Attempt();
        attempts := attempts + 1;
        if accepted.Some? {
          break;
        }
        consecutiveFails := consecutiveFails + 1;
      }
    }

    /** One pass of the loop of `NextTrack`: consume the next candidate of the
        current channel, record it if it is acceptable, and move on to the
        next channel whatever happened. */
    method Attempt() returns (accepted: Option<Track>)
      requires Valid() && RulesHold() && |sourceList| > 0 && |trackHistory| < maxTracks
      modifies this`sourcePositions, this`curChannel, this`trackHistory, this`artistHistory, this`emitted
      ensures Valid() && RulesHold()
      ensures (accepted, Snapshot()) == Step(Cfg(), old(Snapshot()))
      // the head of the current source is consumed exactly when there is one,
      // and accepted exactly when it passes the candidate check
      ensures var c := old(curChannel);
              var pos := old(sourcePositions)[c];
              (pos < |sourceList[c]| <==> sourcePositions[c] == pos + 1)
              && (accepted.Some? <==> pos < |sourceList[c]| && old(GoodCandidate(sourceList[c][pos])))
      ensures accepted.None? ==>
                trackHistory == old(trackHistory) && artistHistory == old(artistHistory)
    {
      StepMeans(Cfg(), Snapshot());
      var c := curChannel;
      var candidate := GetNextCandidate();
      accepted := None;
      if candidate.Some? {
        var good := GoodCandidate(candidate.value);
        if good {
          AcceptPreservesRules(candidate.value, c);
          AddToHistory(candidate.value);
          accepted := candidate;
        }
      }
      RotatedIsMod(c, 1, |sourceList|);
      NextChannel();
    }

    /** With `dedup` on the number of accepted tracks is the size of the id
        set, hence within the cap. */
    lemma DedupCap()
      requires Valid() && RulesHold()
      ensures dedup ==> |emitted| <= maxTracks
    {
      if dedup {
        DistinctCardinality(TrackIds(emitted));
      }
    }

    /** Recording a candidate that passed the check and came from a source
        keeps every rule about the output. */
    lemma AcceptPreservesRules(track: Track, c: nat)
      requires HistoryOk() && RulesHold() && GoodCandidate(track)
      requires |trackHistory| < maxTracks
      requires c < |sourceList| && track in sourceList[c]
      ensures var after := emitted + [track];
              Separated(ArtistIds(after), minArtistSeparation)
              && (dedup ==> Distinct(TrackIds(after)))
              && |trackHistory + {track.trackId}| <= maxTracks
              && (forall i :: 0 <= i < |after| ==> FromSources(sourceList, after[i]))
    {
      AppendTrack(emitted, track);
      assert FromSources(sourceList, track);
    }

    /** Record an accepted track: its id joins the id set, its artist joins
        the window, which is then cut back to the last `minArtistSeparation`
        entries (kept whole when that is 0). */
    method AddToHistory(track: Track)
      requires Valid()
      modifies this`trackHistory, this`artistHistory, this`emitted
      ensures Valid()
      ensures emitted == old(emitted) + [track]
      ensures trackHistory == old(trackHistory) + {track.trackId}
      ensures minArtistSeparation > 0 ==> |artistHistory| <= minArtistSeparation
      ensures minArtistSeparation == 0 ==> artistHistory == old(artistHistory) + [track.artistId]
      ensures artistHistory != [] && artistHistory[|artistHistory| - 1] == track.artistId
    {
      RecentStep(ArtistIds(emitted), track.artistId, minArtistSeparation);
      AppendTrack(emitted, track);
      var window := artistHistory + [track.artistId];
      if |window| > minArtistSeparation {
        window := NegSlice(window, minArtistSeparation);
      }
      trackHistory := trackHistory + {track.trackId};
      artistHistory := window;
      emitted := emitted + [track];
    }

    /** Move to the next source, wrapping round to the first. */
    method NextChannel()
      requires Valid()
      modifies this`curChannel
      ensures Valid()
      ensures |sourceList| > 0 ==> curChannel == (old(curChannel) + 1) % |sourceList|
    {
      curChannel := curChannel + 1;
      if curChannel >= |sourceList| {
        curChannel := 0;
      }
    }

    /** Take the next unread track of the current source, consuming it, or
        report that the source is used up. */
    method GetNextCandidate() returns (candidate: Option<Track>)
      requires Valid() && |sourceList| > 0
      modifies this`sourcePositions
      ensures Valid()
      ensures old(sourcePositions[curChannel]) >= |sourceList[curChannel]| ==>
                candidate.None? && sourcePositions == old(sourcePositions)
      ensures old(sourcePositions[curChannel]) < |sourceList[curChannel]| ==>
                candidate == Some(sourceList[curChannel][old(sourcePositions[curChannel])])
                && sourcePositions == old(sourcePositions)[curChannel := old(sourcePositions[curChannel]) + 1]
    {
      var source := sourceList[curChannel];
      var position := sourcePositions[curChannel];
      if position >= |source| {
        return None;
      }
      var track := source[position];
      sourcePositions := sourcePositions[curChannel := position + 1];
      return Some(track);
    }

    /** A candidate is acceptable exactly when recording it keeps the output
        separated by artist and, with `dedup` on, free of repeated ids. */
    function GoodCandidate(track: Track): (good: bool)
      requires HistoryOk() && RulesHold()
      reads this`trackHistory, this`artistHistory, this`emitted
      ensures good <==> Acceptable(Cfg(), emitted, track)
    {
      SeparatedExtend(ArtistIds(emitted), track.artistId, minArtistSeparation);
      DistinctExtend(TrackIds(emitted), track.trackId);
      if dedup && track.trackId in trackHistory then false
      else if track.artistId in artistHistory then false
      else true
    }

    /** One-time preparation; it only raises the flag. */
    method Prep()
      modifies this`prepped
      ensures prepped
    {
      if !prepped {
        prepped := true;
      }
    }
  }

  /** Mix the sources into one list of track ids: pull from a fresh mixer
      until it gives nothing or `maxTracks` ids have been collected. `picked`
      is the list of the accepted tracks themselves. */
  method MixTracks(sourceList: seq<seq<Track>>, dedup: bool, minArtistSeparation: nat,
                   failFast: bool, maxTracks: nat)
    returns (mixedTracks: seq<TrackId>, ghost picked: seq<Track>)
    requires failFast
    // the output is the reference run's, which stops at the first call that
    // gives nothing or once the cap is reached
    ensures picked == Mix(Config(sourceList, dedup, minArtistSeparation, maxTracks), Start(sourceList))
    ensures mixedTracks == TrackIds(picked)
    ensures |mixedTracks| <= maxTracks
    ensures dedup ==> Distinct(mixedTracks)
    ensures Separated(ArtistIds(picked), minArtistSeparation)
    ensures forall i :: 0 <= i < |picked| ==> FromSources(sourceList, picked[i])
  {
    var mixer := new Mixer(sourceList, dedup, minArtistSeparation, failFast, maxTracks);
    ghost var cfg := Config(sourceList, dedup, minArtistSeparation, maxTracks);
    mixedTracks := [];
    while true
      invariant mixer.Valid() && mixer.RulesHold()
      invariant mixer.Cfg() == cfg && mixer.failFast
      invariant mixedTracks == TrackIds(mixer.emitted)
      invariant |mixer.emitted| < maxTracks || mixer.emitted == []
      invariant Mix(cfg, mixer.Snapshot()) == Mix(cfg, Start(sourceList))
      decreases maxTracks - |mixedTracks|
    {
      ghost var before := mixer.Snapshot();
      var trackId, accepted, _ := mixer.NextTrack();
      if trackId.None? {
        break;
      }
      AppendTrack(before.emitted, accepted.value);
      mixedTracks := mixedTracks + [trackId.value];
      if |mixedTracks| >= maxTracks {
        break;
      }
    }
    picked := mixer.emitted;
  }

  /** A mixer over `[[A1, A2], [B1]]` (artists a, a and b) with a window of
      4 gives A1, then B1, then nothing: A2 is consumed and rejected while a
      is in the window, and the second source is used up. */
  method WorkedTrace() returns (first: Option<TrackId>, second: Option<TrackId>, third: Option<TrackId>)
    ensures first == Some("A1") && second == Some("B1") && third == None
  {
    var cfg := ExampleConfig();
    var mixer := new Mixer(cfg.sources, cfg.dedup, cfg.separation, true, cfg.maxTracks);
    WorkedCalls();
    ghost var accepted, attempts;
    first, accepted, attempts := mixer.NextTrack();
    second, accepted, attempts := mixer.NextTrack();
    third, accepted, attempts := mixer.NextTrack();
  }

  /** `mix_tracks` on the same sources returns the ids A1 and B1. */
  method WorkedMixTracks() returns (mixed: seq<TrackId>)
    ensures mixed == ["A1", "B1"]
  {
    var cfg := ExampleConfig();
    ghost var picked;
    mixed, picked := MixTracks(cfg.sources, cfg.dedup, cfg.separation, true, cfg.maxTracks);
    WorkedMix();
    assert TrackIds([Track("A1", "a"), Track("B1", "b")]) == ["A1", "B1"];
  }
}
