# Round-robin track mixer

A Dafny model of the track mixer at the heart of a Spotify playlist tool.
The mixer interleaves several source playlists into one. Each source is a
read-only list of `{track_id, artist_id}` records. The `Mixer` object keeps:

- one cursor per source;
- a current channel, which is the source to read next;
- the set of track ids it has emitted;
- a window of the most recently emitted artists.

Each `next_track` call reads candidates one channel at a time. Every candidate
it reads is consumed, whether accepted or not. A candidate is rejected when its
id was already emitted (with `dedup` on) or when its artist is in the window.
With `fail_fast` on, the call gives up after one whole round of failures. The
`mix_tracks` driver calls `next_track` until it is exhausted or `max_tracks`
ids have been collected.

Files:

- `mixer_spec.dfy`, module `MixerSpec`. It holds the values and the
  specification functions:
  - the Python slice `h[-k:]`;
  - the recent-artist window as a function of every artist emitted so far;
  - the separation and no-repeat rules over an emitted sequence;
  - the channel rotation.
- `mixer_run.dfy`, module `MixerRun`. It is the reference run on values:
  - `Step` is one pass of the `next_track` loop body;
  - `Pull` is a whole `next_track` call;
  - `Mix` is a whole `mix_tracks` run.
  Lemmas read these back as statements about each channel: which candidate
  was consumed, which was accepted, and what a `None` means. It also holds the
  worked example below.
- `spotify_mixer.dfy`, module `SpotifyMixer`. It holds the class `Mixer`, whose
  methods update its fields as the Python methods do, and the `MixTracks`
  driver loop.
  - A ghost field `emitted` records every accepted track.
  - `Valid()` ties the id set and the window to `emitted`, and keeps the
    cursors and the channel in range.
  - `RulesHold()` states what the output so far obeys: artist separation,
    distinct ids with `dedup`, the cap on the id set, and that every track came
    from a source.
  - `Snapshot()` reads the cursors, the channel and `emitted` as a `MixerRun`
    value. `Attempt`, `NextTrack` and `MixTracks` are each proved to produce
    exactly what `Step`, `Pull` and `Mix` produce from the old snapshot.

How the code behaves, and therefore how the model behaves, where a reader might
expect otherwise:

- `min_artist_separation == 0` does not switch the artist rule off. The
  truncation `artist_history[-0:]` keeps the whole list, so an artist can never
  repeat. `Recent` and `Separated` state this case explicitly.
- The cap test in `next_track` compares the size of the id set with
  `max_tracks`. With `dedup` off, repeated ids do not grow the set. The
  emission count is then capped only by `mix_tracks`, so `MixTracks` bounds its
  output while `NextTrack` bounds `emitted` only when `dedup` is on.
- For sources `[[A1, A2], [B1]]` with artists a, a and b, a window of 4, and
  `dedup` and `fail_fast` on, the output is `[A1, B1]`. The third call rejects
  A2 because a is still in the window, finds the second source empty, and
  returns `None`. `[A1, B1, A2]` would break the separation rule
  (`RepeatInsideWindow`) that `MixTracks` guarantees. `WorkedTrace` builds
  such a mixer and proves that the three calls return `A1`, `B1` and `None`.
  `WorkedMixTracks` proves that the whole run returns `[A1, B1]`.

## Model

| member | source | states |
|---|---|---|
| MixerSpec.AppendTrack | spotify_mixer.py:134-137 | Recording a track adds its id to the list and the set of ids, and puts its artist at the end of the artist list. |
| MixerSpec.NegSlice | spotify_mixer.py:139-140 | The slice `h[-k:]` has k entries, or all of `h` when k is 0, and ends with the last entry of `h`. |
| MixerSpec.Recent | spotify_mixer.py:134-140 | The window holds at most k artists, and exactly k once k have been emitted. With k = 0 it holds every artist ever emitted. |
| MixerSpec.RecentStep | spotify_mixer.py:137-140 | Appending an artist to the window and cutting it back to k entries gives the window of the history extended by that artist. |
| MixerSpec.InRecent | spotify_mixer.py:160-163 | An artist is in the window exactly when it is among the last k emitted artists, or among all of them when k = 0. |
| MixerSpec.SeparatedExtend | spotify_mixer.py:160-164 | Emitting artist x keeps the output separated exactly when it was separated before and x is not in the window. |
| MixerSpec.DistinctExtend | spotify_mixer.py:158-159 | Emitting an id keeps the ids free of repeats exactly when they had none and the id is new. |
| MixerSpec.DistinctCardinality | spotify_mixer.py:115 | With no repeated ids, the id set has one element per emitted track, so the cap on the set caps the emissions. |
| MixerSpec.RepeatInsideWindow | spotify_mixer.py:157-164 | With a window of 4, artists a, b, a are not separated, so `[A1, B1, A2]` is not a possible mix of `[[A1, A2], [B1]]`. |
| MixerSpec.Rotated | spotify_mixer.py:142-145 | Turning the channel forward round n sources stays below n. |
| MixerSpec.RotatedIsMod | spotify_mixer.py:142-145 | Within one lap, turning the channel k steps from c reaches `(c + k) mod n`. |
| MixerSpec.ElementsBound | spotify_mixer.py:115 | The id set never has more elements than the id list. |
| MixerSpec.Ahead | spotify_mixer.py:142-145 | How many turns from channel c reach channel ch, below n. It is 0 exactly when ch is c. |
| MixerSpec.AheadNext | spotify_mixer.py:142-145 | After one turn, every other channel is one turn nearer, and the channel just left is n - 1 turns away. |
| MixerRun.AcceptableMeans | spotify_mixer.py:157-164 | For an output that obeys the rules, a track is `Acceptable` exactly when, with `dedup`, its id was not emitted and its artist is not in the window. |
| MixerRun.Step | spotify_mixer.py:118-131 | One attempt keeps the cursors in range. It adds to the history the accepted track and nothing else. |
| MixerRun.StepMeans | spotify_mixer.py:118-131 | One attempt turns the channel once and moves only the current cursor, forward by one exactly when a candidate was under it. It accepts exactly when that candidate is `Acceptable`, and the accepted track is that candidate. |
| MixerRun.Pull | spotify_mixer.py:112-132 | A call keeps the cursors in range, makes no more than N attempts, and makes at least one before accepting. It adds only the accepted track to the history. |
| MixerRun.PullRound | spotify_mixer.py:114-131 | Each attempt turns the channel once. A call that returns `None` below the cap made exactly N attempts. |
| MixerRun.PullTrace | spotify_mixer.py:114-131 | Per channel, following the rotation: a channel reached before the last attempt was empty, or had its head consumed and rejected. On success the last channel reached yielded its head. Unreached channels are untouched. |
| MixerRun.PullCall | spotify_mixer.py:112-132 | A whole call: with no source or the cap reached it changes nothing. Otherwise the channel turned once per attempt, no cursor went back, and every channel's fate is as `PullTrace` says. A `None` means every channel was tried and was exhausted or had its head rejected. |
| MixerRun.Mix | spotify_mixer.py:171-185 | The run never collects more than `max_tracks` tracks, and only appends to what it had. |
| MixerRun.WorkedCalls | spotify_mixer.py:112-168 | For `[[A1, A2], [B1]]` with a window of 4 and `dedup` on, the first three calls return A1, then B1, then `None` after rejecting A2 and finding the second source empty. |
| MixerRun.WorkedMix | spotify_mixer.py:171-185 | For the same sources, the run picks `[A1, B1]`. |
| SpotifyMixer.Mixer.constructor | spotify_mixer.py:97-110 | Stores the configuration. Starts with empty histories, channel 0, not prepped, and every cursor at 0, which is the reference run's `Start`. The invariant and the output rules hold. |
| SpotifyMixer.Mixer.NextTrack | spotify_mixer.py:112-132 | Its result and the new cursors, channel and history are exactly what `Pull` gives from the old state. The invariant and the output rules are kept, and `prepped` is set. With no source or the cap reached, it returns `None` and moves nothing. Otherwise it makes at most N attempts, one channel per attempt from the current one. Every channel reached before the last attempt had its head consumed and rejected, or was empty. On success, the last channel reached yielded the returned track: the candidate under its cursor, which passed the check and is now the only newly recorded track. On `None`, all N channels were tried, each had its head rejected or was exhausted, and the history is unchanged. Channels not reached are untouched. With `dedup`, the emission count is within the cap. |
| SpotifyMixer.Mixer.TryChannels | spotify_mixer.py:114-132 | The loop of `next_track`: its accepted track and new state are exactly `Pull` of the state before the loop. On `None` the history is unchanged. The invariant and the rules are kept. |
| SpotifyMixer.Mixer.Attempt | spotify_mixer.py:118-131 | One pass of the loop. Its result and new state are exactly `Step` of the old state. The current cursor moves forward by one exactly when a candidate was under it. A track is accepted exactly when there was a candidate and it passed the candidate check. On rejection the history is unchanged. The invariant and the rules are kept. |
| SpotifyMixer.Mixer.DedupCap | spotify_mixer.py:115 | With `dedup` on, the number of emitted tracks is within `max_tracks`. |
| SpotifyMixer.Mixer.AcceptPreservesRules | spotify_mixer.py:124-128 | Recording a track that passed the candidate check, from a source, below the cap, keeps separation, distinctness, the cap and provenance. |
| SpotifyMixer.Mixer.AddToHistory | spotify_mixer.py:134-140 | Records the track: the id joins the set and the artist joins the window. Afterwards the window has at most k entries when k > 0, is the old window plus the artist when k = 0, and ends with that artist. The id set and the window stay what the extended history makes of them. |
| SpotifyMixer.Mixer.NextChannel | spotify_mixer.py:142-145 | The channel becomes `(channel + 1) mod N` and stays in range. |
| SpotifyMixer.Mixer.GetNextCandidate | spotify_mixer.py:147-155 | At the end of the current source, returns `None` and changes no cursor. Otherwise returns the track under the cursor, and advances that cursor alone, by one. The cursor bounds are kept. |
| SpotifyMixer.Mixer.GoodCandidate | spotify_mixer.py:157-164 | A candidate is accepted exactly when it is `Acceptable`: emitting it keeps the artists separated and, with `dedup`, the ids free of repeats. |
| SpotifyMixer.Mixer.Prep | spotify_mixer.py:166-168 | Afterwards the mixer is prepped. |
| SpotifyMixer.WorkedTrace | spotify_mixer.py:112-168 | A mixer built over the worked example returns A1, then B1, then `None`. |
| SpotifyMixer.WorkedMixTracks | spotify_mixer.py:171-185 | `mix_tracks` over the worked example returns `[A1, B1]`. |
| SpotifyMixer.MixTracks | spotify_mixer.py:171-185 | The tracks picked are exactly the reference run `Mix` from the start state: repeated `next_track` calls, stopping at the first `None` or once `max_tracks` ids are collected. The ids returned are those tracks' ids, at most `max_tracks` of them. The tracks are separated by artist and each comes from some source. With `dedup` the ids are pairwise distinct. |

## Left out

- The Spotify API, authentication, playlist lookup, paging, playlist creation, and the `__main__` block are not part of this model. They are network I/O through spotipy.
- `random.shuffle` and the playlist-fetching helpers are not part of this model. Sources are given as already-shuffled sequences.
- The progress bar and the prints in `mix_tracks` are not part of this model.
- `extend_playlist.py`, `shuffle_script.py` and `main.py` are not part of this model. They are remote calls, floating-point averaging and subprocess launching.
- SpotifyMixer.Mixer.NextTrack: modelled only with `fail_fast` on (`requires failFast`). With it off, once every source is exhausted below the cap, the loop at spotify_mixer.py:115-131 never exits, so no termination is claimed for that case.
- SpotifyMixer.MixTracks: requires `failFast` for the same reason.
- SpotifyMixer.Mixer.TryChannels: requires `failFast`, for the same reason.
- MixerRun.Pull: the reference run models `fail_fast` on only. `Mix` is built on it, so it does too.
- Negative `min_artist_separation` and `max_tracks` are not modelled. Both are `nat`.
- Sources are an immutable snapshot. A caller mutating its own lists while the mixer holds them (aliasing in Python) is not modelled.
- Python dicts with missing keys are not modelled. A track is a record with both fields present.
