/** A reference run of the mixer on values: the state the cursors, the
    channel and the accepted tracks make up, one attempt of the loop in
    `next_track`, a whole `next_track` call, and the whole `mix_tracks` run.
    The `Mixer` class is proved to follow these exactly. Only `fail_fast`
    mixers are described here. */
module MixerRun {

  import opened MixerSpec

  /** The settings a mixer is built with. */
  datatype Config = Config(sources: seq<seq<Track>>, dedup: bool, separation: nat, maxTracks: nat)

  /** The state a mixer changes: one cursor per source, the current channel,
      and every track accepted so far. */
  datatype Progress = Progress(positions: seq<nat>, channel: nat, emitted: seq<Track>)

  /** What a `next_track` call gives: the accepted track, if any, the state it
      leaves, and how many attempts have been made when it returns. */
  datatype Outcome = Outcome(accepted: Option<Track>, after: Progress, tries: nat)

  /** One cursor per source, none past its source's end; the channel names a
      source (it stays 0 when there is none). */
  ghost predicate CursorsFit(sources: seq<seq<Track>>, positions: seq<nat>, channel: nat)
  {
    |positions| == |sources|
    && (forall i :: 0 <= i < |sources| ==> positions[i] <= |sources[i]|)
    && (if |sources| == 0 then channel == 0 else channel < |sources|)
  }

  /** The state of a fresh mixer. */
  function Start(sources: seq<seq<Track>>): Progress
  {
    Progress(seq(|sources|, _ => 0), 0, [])
  }

  /** A track may follow `emitted` when the output stays separated by artist
      and, with `dedup`, free of repeated ids. */
  ghost predicate Acceptable(cfg: Config, emitted: seq<Track>, t: Track)
  {
    Separated(ArtistIds(emitted) + [t.artistId], cfg.separation)
    && (cfg.dedup ==> Distinct(TrackIds(emitted) + [t.trackId]))
  }

  /** For an output that keeps the rules, a track is acceptable exactly when
      its id is not already out (with `dedup`) and its artist is not in the
      recent-artist window. */
  lemma AcceptableMeans(cfg: Config, emitted: seq<Track>, t: Track)
    requires Separated(ArtistIds(emitted), cfg.separation)
    requires cfg.dedup ==> Distinct(TrackIds(emitted))
    ensures Acceptable(cfg, emitted, t) <==>
              !(cfg.dedup && t.trackId in TrackIds(emitted))
              && t.artistId !in Recent(ArtistIds(emitted), cfg.separation)
  {
    SeparatedExtend(ArtistIds(emitted), t.artistId, cfg.separation);
    DistinctExtend(TrackIds(emitted), t.trackId);
  }

  /** One pass of the loop of `next_track`: read the head of the current
      source, consuming it, keep it when it is acceptable, and move on to the
      next channel whatever happened. */
  ghost function Step(cfg: Config, p: Progress): (o: (Option<Track>, Progress))
    requires |cfg.sources| > 0 && CursorsFit(cfg.sources, p.positions, p.channel)
    ensures CursorsFit(cfg.sources, o.1.positions, o.1.channel)
    ensures o.1.emitted == p.emitted + if o.0.Some? then [o.0.value] else []
  {
    var c := p.channel;
    var next := Rotated(c, 1, |cfg.sources|);
    var pos := p.positions[c];
    if pos >= |cfg.sources[c]| then
      (None, p.(channel := next))
    else
      var t := cfg.sources[c][pos];
      var after := Progress(p.positions[c := pos + 1], next, p.emitted);
      if Acceptable(cfg, p.emitted, t) then (Some(t), after.(emitted := p.emitted + [t]))
      else (None, after)
  }

  /** What one attempt does: the channel turns once; only the current cursor
      moves, and it moves exactly when its source has a track left; that
      track is accepted exactly when it is acceptable. */
  lemma StepMeans(cfg: Config, p: Progress)
    requires |cfg.sources| > 0 && CursorsFit(cfg.sources, p.positions, p.channel)
    ensures var o := Step(cfg, p);
            var c := p.channel;
            var pos := p.positions[c];
            o.1.channel == Rotated(c, 1, |cfg.sources|)
            && o.1.positions == p.positions[c := o.1.positions[c]]
            && o.1.positions[c] == (if pos < |cfg.sources[c]| then pos + 1 else pos)
            && (o.0.Some? <==> pos < |cfg.sources[c]| && Acceptable(cfg, p.emitted, cfg.sources[c][pos]))
            && (o.0.Some? ==> pos < |cfg.sources[c]| && o.0.value == cfg.sources[c][pos])
  {
  }

  /** Each attempt turns the channel once. */
  lemma StepTurns(cfg: Config, p: Progress)
    requires |cfg.sources| > 0 && CursorsFit(cfg.sources, p.positions, p.channel)
    ensures Step(cfg, p).1.channel == Rotated(p.channel, 1, |cfg.sources|)
  {
  }

  /** The loop of `next_track` entered with `fails` consecutive failures:
      nothing is tried when there is no source or the id set has reached the
      cap, and a round of failures gives up. */
  ghost function Pull(cfg: Config, p: Progress, fails: nat): (o: Outcome)
    requires CursorsFit(cfg.sources, p.positions, p.channel) && fails <= |cfg.sources|
    ensures CursorsFit(cfg.sources, o.after.positions, o.after.channel)
    ensures fails <= o.tries <= |cfg.sources|
    ensures o.accepted.Some? ==> fails < o.tries
    ensures o.after.emitted == p.emitted + if o.accepted.Some? then [o.accepted.value] else []
    decreases |cfg.sources| - fails
  {
    if |cfg.sources| == 0 || |Elements(TrackIds(p.emitted))| >= cfg.maxTracks then Outcome(None, p, fails)
    else if fails >= |cfg.sources| then Outcome(None, p, fails)
    else
      var s := Step(cfg, p);
      if s.0.Some? then Outcome(s.0, s.1, fails + 1) else Pull(cfg, s.1, fails + 1)
  }

  /** Channel `ch` was passed over: its source was used up and its cursor
      stayed, or its head was consumed and rejected. */
  ghost predicate Skipped(cfg: Config, before: Progress, after: Progress, ch: nat)
    requires ch < |cfg.sources| && |before.positions| == |after.positions| == |cfg.sources|
  {
    var pos := before.positions[ch];
    if pos >= |cfg.sources[ch]| then after.positions[ch] == pos
    else after.positions[ch] == pos + 1 && !Acceptable(cfg, before.emitted, cfg.sources[ch][pos])
  }

  /** Channel `ch` gave `t`: its head, consumed and acceptable. */
  ghost predicate Taken(cfg: Config, before: Progress, after: Progress, ch: nat, t: Track)
    requires ch < |cfg.sources| && |before.positions| == |after.positions| == |cfg.sources|
  {
    var pos := before.positions[ch];
    pos < |cfg.sources[ch]| && t == cfg.sources[ch][pos] && after.positions[ch] == pos + 1
    && Acceptable(cfg, before.emitted, t)
  }

  /** What became of channel `ch`, which a round from the current channel
      reaches after `rank` steps, when `tried` channels were tried: untouched
      past the last one tried, the source of the accepted track at the last
      one, and passed over before it. */
  ghost predicate ChannelFate(cfg: Config, before: Progress, o: Outcome, ch: nat, rank: nat, tried: nat)
    requires ch < |cfg.sources| && |before.positions| == |o.after.positions| == |cfg.sources|
  {
    if rank >= tried then o.after.positions[ch] == before.positions[ch]
    else if o.accepted.Some? && rank == tried - 1 then Taken(cfg, before, o.after, ch, o.accepted.value)
    else Skipped(cfg, before, o.after, ch)
  }

  /** A `next_track` call turns the channel once per attempt, and without an
      accepted track it makes a whole round of attempts. */
  lemma {:induction false} PullRound(cfg: Config, p: Progress, fails: nat)
    requires CursorsFit(cfg.sources, p.positions, p.channel) && fails <= |cfg.sources|
    requires |cfg.sources| > 0 && |Elements(TrackIds(p.emitted))| < cfg.maxTracks
    ensures var o := Pull(cfg, p, fails);
            o.after.channel == Rotated(p.channel, o.tries - fails, |cfg.sources|)
            && (o.accepted.None? ==> o.tries == |cfg.sources|)
    decreases |cfg.sources| - fails
  {
    var n := |cfg.sources|;
    if fails < n {
      var s := Step(cfg, p);
      StepTurns(cfg, p);
      if s.0.None? {
        PullRound(cfg, s.1, fails + 1);
        RotatedShift(p.channel, Pull(cfg, s.1, fails + 1).tries - fails - 1, n);
      }
    }
  }

  /** Channel by channel, in round order from the current one: the channels
      before the last one tried were passed over, the last one tried gave the
      accepted track (if any), and the rest were not touched. */
  lemma {:induction false} PullTrace(cfg: Config, p: Progress, fails: nat, ch: nat)
    requires CursorsFit(cfg.sources, p.positions, p.channel) && fails <= |cfg.sources|
    requires |cfg.sources| > 0 && |Elements(TrackIds(p.emitted))| < cfg.maxTracks
    requires ch < |cfg.sources|
    ensures var o := Pull(cfg, p, fails);
            ChannelFate(cfg, p, o, ch, Ahead(p.channel, ch, |cfg.sources|), o.tries - fails)
    decreases |cfg.sources| - fails
  {
    var n := |cfg.sources|;
    if fails < n {
      var s := Step(cfg, p);
      StepMeans(cfg, p);
      var q := s.1;
      if s.0.None? {
        var o := Pull(cfg, q, fails + 1);
        PullTrace(cfg, q, fails + 1, ch);
        AheadNext(p.channel, ch, n);
        if ch != p.channel {
          assert q.positions[ch] == p.positions[ch];
        }
      }
    }
  }

  /** A whole `next_track` call, from no failures: nothing happens with no
      source or with the cap reached; otherwise the channel turns once per
      attempt, no cursor moves back, each channel met the fate its place in
      the round gives it, and a call without a track passed over every
      channel. */
  lemma PullCall(cfg: Config, p: Progress)
    requires CursorsFit(cfg.sources, p.positions, p.channel)
    ensures var o := Pull(cfg, p, 0);
            var n := |cfg.sources|;
            var room := |Elements(TrackIds(p.emitted))| < cfg.maxTracks;
            (n == 0 || !room ==> o == Outcome(None, p, 0))
            && (n > 0 ==> o.after.channel == Rotated(p.channel, o.tries, n))
            && (forall i :: 0 <= i < n ==> p.positions[i] <= o.after.positions[i])
            && (n > 0 && room ==>
                  forall ch :: 0 <= ch < n ==> ChannelFate(cfg, p, o, ch, Ahead(p.channel, ch, n), o.tries))
            && (n > 0 && room && o.accepted.None? ==>
                  o.tries == n && forall ch :: 0 <= ch < n ==> Skipped(cfg, p, o.after, ch))
  {
    var o := Pull(cfg, p, 0);
    var n := |cfg.sources|;
    if n > 0 && |Elements(TrackIds(p.emitted))| < cfg.maxTracks {
      PullRound(cfg, p, 0);
      forall ch | 0 <= ch < n
        ensures ChannelFate(cfg, p, o, ch, Ahead(p.channel, ch, n), o.tries)
        ensures p.positions[ch] <= o.after.positions[ch]
      {
        PullTrace(cfg, p, 0, ch);
      }
    }
  }

  /** `k` steps from the next channel are `k + 1` steps from this one. */
  lemma RotatedShift(c: nat, k: nat, n: nat)
    requires c < n && k < n
    ensures Rotated(Rotated(c, 1, n), k, n) == Rotated(c, k + 1, n)
  {
  }

  /** The ids `mix_tracks` collects, as the tracks behind them: call
      `next_track` until it gives nothing or the cap is reached. */
  ghost function Mix(cfg: Config, p: Progress): (out: seq<Track>)
    requires CursorsFit(cfg.sources, p.positions, p.channel)
    requires |p.emitted| < cfg.maxTracks || p.emitted == []
    ensures |out| <= cfg.maxTracks
    ensures |p.emitted| <= |out| && out[..|p.emitted|] == p.emitted
    decreases cfg.maxTracks - |p.emitted|
  {
    var o := Pull(cfg, p, 0);
    if o.accepted.None? then p.emitted
    else if |o.after.emitted| >= cfg.maxTracks then o.after.emitted
    else Mix(cfg, o.after)
  }

  /** Two sources `[[A1, A2], [B1]]` by artists a, a and b, with `dedup` on,
      a window of 4 and a cap of 10. */
  function ExampleConfig(): Config
  {
    Config([[Track("A1", "a"), Track("A2", "a")], [Track("B1", "b")]], true, 4, 10)
  }

  /** The example call by call: the first call takes A1 from the first
      source, the second takes B1 from the second, and the third consumes A2,
      rejects it because a is still in the window, finds the second source
      used up and gives nothing after a whole round. */
  lemma WorkedCalls()
    ensures var cfg := ExampleConfig();
            var a1, a2, b1 := Track("A1", "a"), Track("A2", "a"), Track("B1", "b");
            Pull(cfg, Start(cfg.sources), 0) == Outcome(Some(a1), Progress([1, 0], 1, [a1]), 1)
            && Pull(cfg, Progress([1, 0], 1, [a1]), 0) == Outcome(Some(b1), Progress([1, 1], 0, [a1, b1]), 1)
            && Pull(cfg, Progress([1, 1], 0, [a1, b1]), 0) == Outcome(None, Progress([2, 1], 0, [a1, b1]), 2)
  {
    var cfg := ExampleConfig();
    var a1, a2, b1 := Track("A1", "a"), Track("A2", "a"), Track("B1", "b");
    assert Pull(cfg, Start(cfg.sources), 0) == Outcome(Some(a1), Progress([1, 0], 1, [a1]), 1) by {
      assert Start(cfg.sources) == Progress([0, 0], 0, []);
      assert Acceptable(cfg, [], a1);
    }
    assert Pull(cfg, Progress([1, 0], 1, [a1]), 0) == Outcome(Some(b1), Progress([1, 1], 0, [a1, b1]), 1) by {
      ElementsBound(TrackIds([a1]));
      assert ArtistIds([a1]) + [b1.artistId] == ["a", "b"];
      assert TrackIds([a1]) + [b1.trackId] == ["A1", "B1"];
      assert Acceptable(cfg, [a1], b1);
    }
    assert Pull(cfg, Progress([1, 1], 0, [a1, b1]), 0) == Outcome(None, Progress([2, 1], 0, [a1, b1]), 2) by {
      ElementsBound(TrackIds([a1, b1]));
      assert !Acceptable(cfg, [a1, b1], a2) by {
        var artists := ArtistIds([a1, b1]) + [a2.artistId];
        assert artists[0] == artists[2];
      }
      assert Pull(cfg, Progress([2, 1], 1, [a1, b1]), 1) == Outcome(None, Progress([2, 1], 0, [a1, b1]), 2);
    }
  }

  /** Mixing the example gives A1 and then B1, and stops there. */
  lemma WorkedMix()
    ensures Mix(ExampleConfig(), Start(ExampleConfig().sources)) == [Track("A1", "a"), Track("B1", "b")]
  {
    var cfg := ExampleConfig();
    var a1, b1 := Track("A1", "a"), Track("B1", "b");
    WorkedCalls();
    assert Mix(cfg, Progress([1, 0], 1, [a1])) == Mix(cfg, Progress([1, 1], 0, [a1, b1]));
  }
}
