/** Values and specification functions for the track mixer: track references,
    the recent-artist window, the rules an emitted sequence obeys, and the
    round-robin channel arithmetic. */
module MixerSpec {

  type TrackId = string
  type ArtistId = string

  /** One entry of a source: `{"track_id": ..., "artist_id": ...}`. */
  datatype Track = Track(trackId: TrackId, artistId: ArtistId)

  /** Python's `None` or a value. */
  datatype Option<T> = None | Some(value: T)

  function TrackIds(s: seq<Track>): seq<TrackId>
  {
    seq(|s|, i requires 0 <= i < |s| => s[i].trackId)
  }

  function ArtistIds(s: seq<Track>): seq<ArtistId>
  {
    seq(|s|, i requires 0 <= i < |s| => s[i].artistId)
  }

  function Elements<T>(s: seq<T>): set<T>
  {
    set x | x in s
  }

  /** Accepting one more track adds its id to the id set and its artist to
      the end of the artist list. */
  lemma AppendTrack(s: seq<Track>, t: Track)
    ensures TrackIds(s + [t]) == TrackIds(s) + [t.trackId]
    ensures ArtistIds(s + [t]) == ArtistIds(s) + [t.artistId]
    ensures Elements(TrackIds(s + [t])) == Elements(TrackIds(s)) + {t.trackId}
  {
    assert TrackIds(s + [t]) == TrackIds(s) + [t.trackId];
  }

  // ---------------------------------------------------------------------------
  // The recent-artist window
  // ---------------------------------------------------------------------------

  /** Python's slice `h[-k:]` for `0 <= k <= |h|`. Because `-0 == 0`, the slice
      with `k == 0` is `h[0:]`, the whole list, not the empty one. */
  function NegSlice(h: seq<ArtistId>, k: nat): (r: seq<ArtistId>)
    requires k <= |h|
    ensures |r| == (if k == 0 then |h| else k)
    ensures r != [] ==> r[|r| - 1] == h[|h| - 1]
  {
    if k == 0 then h else h[|h| - k..]
  }

  /** The window that remains after every artist of `all` has been appended in
      turn and cut back to `k` entries: the last `k` artists when `k > 0`, and
      (the `h[-0:]` quirk) every artist ever appended when `k == 0`. */
  function Recent(all: seq<ArtistId>, k: nat): (r: seq<ArtistId>)
    ensures k > 0 ==> |r| <= k
    ensures k > 0 && |all| >= k ==> |r| == k
    ensures k == 0 ==> r == all
    ensures |r| <= |all|
  {
    if k > 0 && |all| > k then all[|all| - k..] else all
  }

  /** Appending one artist to the window and cutting it back as
      `add_to_history` does gives the window of the longer history. */
  lemma {:induction false} RecentStep(all: seq<ArtistId>, x: ArtistId, k: nat)
    ensures var h := Recent(all, k) + [x];
            (if |h| > k then NegSlice(h, k) else h) == Recent(all + [x], k)
  {
    var h := Recent(all, k) + [x];
    var full := all + [x];
    if k > 0 && |h| > k {
      assert |h| == k + 1 && |all| >= k;
      assert NegSlice(h, k) == h[1..];
      assert Recent(full, k) == full[|full| - k..];
      forall i | 0 <= i < k
        ensures h[1..][i] == full[|full| - k..][i]
      {
        if i < k - 1 {
          assert h[1 + i] == Recent(all, k)[1 + i] == all[|all| - k + 1 + i];
        }
      }
    } else if k > 0 {
      assert |Recent(all, k)| < k;
      assert Recent(all, k) == all;
    }
  }

  /** An artist is in the window exactly when it is among the last `k`
      artists (among all of them when `k == 0`). */
  lemma {:induction false} InRecent(all: seq<ArtistId>, k: nat, x: ArtistId)
    ensures x in Recent(all, k) <==>
            exists i :: 0 <= i < |all| && (k == 0 || |all| - i <= k) && all[i] == x
  {
    var r := Recent(all, k);
    var lo := |all| - |r|;
    if x in r {
      var j :| 0 <= j < |r| && r[j] == x;
      assert all[lo + j] == x;
    }
    if i :| 0 <= i < |all| && (k == 0 || |all| - i <= k) && all[i] == x {
      assert lo <= i;
      assert r[i - lo] == x;
    }
  }

  // ---------------------------------------------------------------------------
  // The rules an emitted sequence obeys
  // ---------------------------------------------------------------------------

  /** No artist appears twice among `k + 1` consecutive entries; with `k == 0`
      no artist appears twice at all. */
  ghost predicate Separated(artists: seq<ArtistId>, k: nat)
  {
    forall i, j :: 0 <= i < j < |artists| && (k == 0 || j - i <= k) ==> artists[i] != artists[j]
  }

  /** The track is an entry of one of the sources. */
  ghost predicate FromSources(sources: seq<seq<Track>>, t: Track)
  {
    exists c :: 0 <= c < |sources| && t in sources[c]
  }

  ghost predicate Distinct<T>(s: seq<T>)
  {
    forall i, j :: 0 <= i < j < |s| ==> s[i] != s[j]
  }

  /** One more artist keeps the sequence separated exactly when it was
      separated before and that artist is not in the window. */
  lemma {:induction false} SeparatedExtend(artists: seq<ArtistId>, x: ArtistId, k: nat)
    ensures Separated(artists + [x], k) <==> Separated(artists, k) && x !in Recent(artists, k)
  {
    var a := artists + [x];
    InRecent(artists, k, x);
    if Separated(a, k) {
      forall i, j | 0 <= i < j < |artists| && (k == 0 || j - i <= k)
        ensures artists[i] != artists[j]
      {
        assert a[i] == artists[i] && a[j] == artists[j];
      }
    }
    if !Separated(artists, k) {
    } else if x !in Recent(artists, k) {
      forall i, j | 0 <= i < j < |a| && (k == 0 || j - i <= k)
        ensures a[i] != a[j]
      {
        if j == |artists| {
          assert a[i] == artists[i];
        } else {
          assert a[i] == artists[i] && a[j] == artists[j];
        }
      }
    } else {
      var i :| 0 <= i < |artists| && (k == 0 || |artists| - i <= k) && artists[i] == x;
      assert a[i] == a[|artists|];
    }
  }

  /** One more element keeps a sequence free of repeats exactly when it had
      none before and the element is new. */
  lemma {:induction false} DistinctExtend<T>(s: seq<T>, x: T)
    ensures Distinct(s + [x]) <==> Distinct(s) && x !in s
  {
    var a := s + [x];
    if Distinct(a) {
      forall i, j | 0 <= i < j < |s|
        ensures s[i] != s[j]
      {
        assert a[i] == s[i] && a[j] == s[j];
      }
    }
    if !Distinct(s) {
    } else if x in s {
      var i :| 0 <= i < |s| && s[i] == x;
      assert a[i] == a[|s|];
    } else {
      forall i, j | 0 <= i < j < |a|
        ensures a[i] != a[j]
      {
        assert a[i] == s[i];
        if j < |s| {
          assert a[j] == s[j];
        }
      }
    }
  }

  /** A sequence without repeats has as many distinct elements as entries. */
  lemma {:induction false} DistinctCardinality<T>(s: seq<T>)
    requires Distinct(s)
    ensures |Elements(s)| == |s|
  {
    if s != [] {
      var init := s[..|s| - 1];
      var x := s[|s| - 1];
      assert s == init + [x];
      assert Distinct(init) by {
        forall i, j | 0 <= i < j < |init|
          ensures init[i] != init[j]
        {
          assert init[i] == s[i] && init[j] == s[j];
        }
      }
      DistinctCardinality(init);
      DistinctExtend(init, x);
      assert Elements(s) == Elements(init) + {x};
    }
  }

  /** With a window of 4 the artists a, b, a are not separated, so two
      sources `[[A1, A2], [B1]]` by artists a, a and b cannot be mixed into
      `[A1, B1, A2]`: the third track is rejected while a is in the window. */
  lemma RepeatInsideWindow()
    ensures !Separated(ArtistIds([Track("A1", "a"), Track("B1", "b"), Track("A2", "a")]), 4)
  {
    var artists := ArtistIds([Track("A1", "a"), Track("B1", "b"), Track("A2", "a")]);
    assert artists[0] == artists[2];
  }

  /** A sequence has at most as many distinct elements as entries. */
  lemma {:induction false} ElementsBound<T>(s: seq<T>)
    ensures |Elements(s)| <= |s|
  {
    if s != [] {
      var init := s[..|s| - 1];
      assert s == init + [s[|s| - 1]];
      assert Elements(s) == Elements(init) + {s[|s| - 1]};
      ElementsBound(init);
    }
  }

  // ---------------------------------------------------------------------------
  // Channel arithmetic
  // ---------------------------------------------------------------------------

  /** The channel reached from channel `c` after `k` steps round `n`
      channels, for at most one lap. */
  function Rotated(c: nat, k: nat, n: nat): (r: nat)
    requires c < n && k <= n
    ensures r < n
  {
    if c + k < n then c + k else c + k - n
  }

  /** Within one lap, rotating is adding modulo the number of channels. */
  lemma RotatedIsMod(c: nat, k: nat, n: nat)
    requires c < n && k <= n
    ensures Rotated(c, k, n) == (c + k) % n
  {
    if c + k < n {
      assert (c + k) % n == c + k;
    } else {
      assert (c + k) % n == c + k - n;
    }
  }

  /** One more step from a rotated channel is one step of the rotation. */
  lemma RotatedStep(c: nat, k: nat, n: nat)
    requires c < n && k < n
    ensures Rotated(c, k + 1, n) == Rotated(Rotated(c, k, n), 1, n)
  {
  }

  /** How many steps forward channel `ch` lies from channel `c`, round `n`
      channels: the order in which a round starting at `c` visits them. */
  function Ahead(c: nat, ch: nat, n: nat): (d: nat)
    requires c < n && ch < n
    ensures d < n && Rotated(c, d, n) == ch
    ensures d == 0 <==> ch == c
  {
    if c <= ch then ch - c else ch + n - c
  }

  /** Seen from the next channel, every other channel is one step nearer and
      the channel just left is the farthest. */
  lemma AheadNext(c: nat, ch: nat, n: nat)
    requires c < n && ch < n
    ensures Ahead(Rotated(c, 1, n), ch, n) == if ch == c then n - 1 else Ahead(c, ch, n) - 1
  {
  }
}
