/** The top-tracks screen of TopTrackScreen.js: an artist's top tracks are loaded,
    the ones the profile has already rated are filtered out, and a track picked from
    the rest is written to the song table and dropped from the list. The artist
    search, the top-track request and the rated-song query are results handed in. */
module TopTracks {
  import opened Wrappers
  import opened Database

  const NotFoundError: string := "Interpret nicht gefunden"
  const AllRatedError: string := "Alle Top-Tracks wurden bereits bewertet!"
  const AddError: string := "Fehler beim Hinzufügen des Songs"

  /** The artist the search found. */
  datatype ArtistResult = ArtistResult(id: string, name: string)

  /** A top track as the track request returns it. */
  datatype TopTrack = TopTrack(id: string, name: string, albumName: string,
                               durationMs: int, albumImages: seq<string>)

  /** What the screen hands to the rating screen after adding a track. */
  datatype RateRoute = RateRoute(songId: string, title: string, artist: string,
                                 album: string, image: string)

  /** `track.album.images[0]?.url`, with an empty string for a track without
      images. */
  function Cover(t: TopTrack): (url: string)
    ensures t.albumImages != [] ==> url == t.albumImages[0]
    ensures t.albumImages == [] ==> url == ""
  {
    if t.albumImages == [] then "" else t.albumImages[0]
  }

  /** `tracks.filter(t => !ids.some(id => id === t.id))`: the tracks whose id is none
      of `ids`, in their original order. */
  function Without(tracks: seq<TopTrack>, ids: seq<string>): (r: seq<TopTrack>)
    ensures |r| <= |tracks|
    ensures forall t :: t in r <==> t in tracks && t.id !in ids
  {
    if tracks == [] then []
    else (if tracks[0].id in ids then [] else [tracks[0]]) + Without(tracks[1..], ids)
  }

  /** Filtering distributes over concatenation. */
  lemma {:induction false} WithoutAppend(a: seq<TopTrack>, b: seq<TopTrack>, ids: seq<string>)
    ensures Without(a + b, ids) == Without(a, ids) + Without(b, ids)
  {
    if a == [] {
      assert a + b == b;
    } else {
      assert (a + b)[0] == a[0];
      assert (a + b)[1..] == a[1..] + b;
      WithoutAppend(a[1..], b, ids);
    }
  }

  /** `idx` lists, in increasing order, exactly the positions of `tracks` whose id is
      none of `ids`, and `r` holds the tracks at those positions. */
  ghost predicate KeptPositions(r: seq<TopTrack>, tracks: seq<TopTrack>, ids: seq<string>, idx: seq<nat>) {
    |idx| == |r|
    && (forall i :: 0 <= i < |idx| ==> idx[i] < |tracks| && tracks[idx[i]] == r[i])
    && (forall i, j :: 0 <= i < j < |idx| ==> idx[i] < idx[j])
    && (forall p :: 0 <= p < |tracks| ==> (p in idx <==> tracks[p].id !in ids))
  }

  /** Every position moved one place on. */
  function Shift(idx: seq<nat>): (r: seq<nat>)
    ensures |r| == |idx|
    ensures forall i :: 0 <= i < |idx| ==> r[i] == idx[i] + 1
  {
    seq(|idx|, i requires 0 <= i < |idx| => idx[i] + 1)
  }

  lemma ShiftMembership(idx: seq<nat>)
    ensures 0 !in Shift(idx)
    ensures forall p: nat :: p + 1 in Shift(idx) <==> p in idx
  {
    forall p: nat | p in idx
      ensures p + 1 in Shift(idx)
    {
      var i :| 0 <= i < |idx| && idx[i] == p;
      assert Shift(idx)[i] == p + 1;
    }
  }

  /** The step of `WithoutKeepsOrder` for a first track that is dropped. */
  lemma DropFirstKeepsPositions(tracks: seq<TopTrack>, ids: seq<string>, rest: seq<nat>)
    requires tracks != [] && tracks[0].id in ids
    requires KeptPositions(Without(tracks[1..], ids), tracks[1..], ids, rest)
    ensures KeptPositions(Without(tracks, ids), tracks, ids, Shift(rest))
  {
    var s := Shift(rest);
    assert Without(tracks, ids) == Without(tracks[1..], ids);
    ShiftMembership(rest);
    forall p | 0 <= p < |tracks|
      ensures p in s <==> tracks[p].id !in ids
    {
      if p > 0 {
        assert tracks[p] == tracks[1..][p - 1];
        assert p in s <==> p - 1 in rest;
      }
    }
  }

  /** Positions that increase still increase after a 0 is put in front of their
      shift. */
  lemma ConsShiftIncreasing(rest: seq<nat>)
    requires forall i, j :: 0 <= i < j < |rest| ==> rest[i] < rest[j]
    ensures forall i, j :: 0 <= i < j < |rest| + 1 ==> ([0] + Shift(rest))[i] < ([0] + Shift(rest))[j]
  {
    var idx := [0] + Shift(rest);
    forall i, j | 0 <= i < j < |idx|
      ensures idx[i] < idx[j]
    {
      assert idx[j] == rest[j - 1] + 1;
      if i > 0 {
        assert idx[i] == rest[i - 1] + 1;
      }
    }
  }

  /** The kept tracks sit at the positions listed, once the first one is kept. */
  lemma ConsShiftContents(tracks: seq<TopTrack>, ids: seq<string>, rest: seq<nat>)
    requires tracks != [] && tracks[0].id !in ids
    requires |rest| == |Without(tracks[1..], ids)|
    requires forall i :: 0 <= i < |rest| ==>
      rest[i] < |tracks[1..]| && tracks[1..][rest[i]] == Without(tracks[1..], ids)[i]
    ensures |[0] + Shift(rest)| == |Without(tracks, ids)|
    ensures forall i :: 0 <= i < |rest| + 1 ==>
      ([0] + Shift(rest))[i] < |tracks| && tracks[([0] + Shift(rest))[i]] == Without(tracks, ids)[i]
  {
    var idx := [0] + Shift(rest);
    var tail := tracks[1..];
    var r, rr := Without(tracks, ids), Without(tail, ids);
    assert r == [tracks[0]] + rr;
    forall i | 0 <= i < |idx|
      ensures idx[i] < |tracks| && tracks[idx[i]] == r[i]
    {
      if i == 0 {
        assert idx[0] == 0 && r[0] == tracks[0];
      } else {
        var q := rest[i - 1];
        assert idx[i] == q + 1 && q < |tail|;
        assert r[i] == rr[i - 1] == tail[q];
        assert tracks[q + 1] == tail[q];
      }
    }
  }

  /** The positions listed are exactly those of kept tracks, once the first one is
      kept. */
  lemma ConsShiftMembership(tracks: seq<TopTrack>, ids: seq<string>, rest: seq<nat>)
    requires tracks != [] && tracks[0].id !in ids
    requires forall p :: 0 <= p < |tracks[1..]| ==> (p in rest <==> tracks[1..][p].id !in ids)
    ensures forall p :: 0 <= p < |tracks| ==> (p in [0] + Shift(rest) <==> tracks[p].id !in ids)
  {
    var s := Shift(rest);
    ShiftMembership(rest);
    forall p | 0 <= p < |tracks|
      ensures p in [0] + s <==> tracks[p].id !in ids
    {
      if p > 0 {
        assert tracks[p] == tracks[1..][p - 1];
        assert p in s <==> p - 1 in rest;
        assert p in [0] + s <==> p in s;
      }
    }
  }

  /** The step of `WithoutKeepsOrder` for a first track that is kept. */
  lemma KeepFirstKeepsPositions(tracks: seq<TopTrack>, ids: seq<string>, rest: seq<nat>)
    requires tracks != [] && tracks[0].id !in ids
    requires KeptPositions(Without(tracks[1..], ids), tracks[1..], ids, rest)
    ensures KeptPositions(Without(tracks, ids), tracks, ids, [0] + Shift(rest))
  {
    ConsShiftContents(tracks, ids, rest);
    ConsShiftIncreasing(rest);
    ConsShiftMembership(tracks, ids, rest);
  }

  /** The filter keeps every track it should, drops every other one, and keeps the
      survivors in their original order. */
  lemma {:induction false} WithoutKeepsOrder(tracks: seq<TopTrack>, ids: seq<string>) returns (idx: seq<nat>)
    ensures KeptPositions(Without(tracks, ids), tracks, ids, idx)
  {
    if tracks == [] {
      return [];
    }
    var rest := WithoutKeepsOrder(tracks[1..], ids);
    if tracks[0].id in ids {
      DropFirstKeepsPositions(tracks, ids, rest);
      idx := Shift(rest);
    } else {
      KeepFirstKeepsPositions(tracks, ids, rest);
      idx := [0] + Shift(rest);
    }
  }

  /** Filtering twice by the same ids changes nothing more. */
  lemma {:induction false} WithoutIdempotent(tracks: seq<TopTrack>, ids: seq<string>)
    ensures Without(Without(tracks, ids), ids) == Without(tracks, ids)
  {
    if tracks != [] {
      WithoutIdempotent(tracks[1..], ids);
      if tracks[0].id in ids {
        assert Without(tracks, ids) == Without(tracks[1..], ids);
      } else {
        var w := Without(tracks, ids);
        assert w == [tracks[0]] + Without(tracks[1..], ids);
        assert w[0] == tracks[0] && w[1..] == Without(tracks[1..], ids);
        assert Without(w, ids) == [w[0]] + Without(w[1..], ids);
      }
    }
  }

  /** The screen's state slots, over the rating store `handleAddTrack` writes to. */
  class TopTrackScreen {
    const artist: string
    const store: RatingStore
    var loading: bool
    var error: string
    var tracks: seq<TopTrack>
    var unratedTracks: seq<TopTrack>
    var artistData: Option<ArtistResult>

    ghost predicate Valid()
      reads this, store
    {
      store.Valid()
    }

    /** The screen opened for the artist name of the route. */
    constructor(artist: string, store: RatingStore)
      requires store.Valid()
      ensures Valid() && this.artist == artist && this.store == store
      ensures loading && error == "" && tracks == [] && unratedTracks == [] && artistData == None
    {
      this.artist := artist;
      this.store := store;
      loading := true;
      error := "";
      tracks, unratedTracks := [], [];
      artistData := None;
    }

    /** `loadData` with the search result, the artist's top tracks and the song ids
        the profile has rated for that artist. */
    method LoadData(found: Option<ArtistResult>, topTracks: seq<TopTrack>, ratedIds: seq<string>)
      requires Valid()
      modifies this
      ensures Valid() && !loading
      ensures found.None? ==> (error == NotFoundError
        && tracks == old(tracks) && unratedTracks == old(unratedTracks) && artistData == old(artistData))
      ensures found.Some? ==> (artistData == found && tracks == topTracks
        && unratedTracks == Without(topTracks, ratedIds)
        && (error == AllRatedError <==> unratedTracks == [])
        && (unratedTracks != [] ==> error == ""))
    {
      loading := true;
      error := "";
      if found.None? {
        error := NotFoundError;
      } else {
        artistData := found;
        var unrated := Without(topTracks, ratedIds);
        tracks := topTracks;
        unratedTracks := unrated;
        if |unrated| == 0 {
          error := AllRatedError;
        }
      }
      loading := false;
    }

    /** `handleAddTrack`: the track is written to `songs` under the found artist's
        name, the rating screen is opened for it, and it leaves the unrated list.
        Before an artist was found, reading its name fails and only the error is
        set. */
    method HandleAddTrack(track: TopTrack) returns (route: Option<RateRoute>)
      requires Valid()
      modifies this, store
      ensures Valid()
      ensures artistData.None? ==> (route == None && error == AddError && unchanged(store)
        && unratedTracks == old(unratedTracks))
      ensures artistData.Some? ==>
        (var song := Song(track.id, track.name, artistData.value.name, track.albumName,
                          track.durationMs, Cover(track));
         store.songs == old(store.songs)[track.id := song]
         && store.ratings == old(store.ratings) && store.lastRowId == old(store.lastRowId)
         && route == Some(RateRoute(track.id, track.name, artistData.value.name, track.albumName, Cover(track)))
         && unratedTracks == Without(old(unratedTracks), [track.id])
         && error == old(error))
      ensures unchanged(this`loading, this`tracks, this`artistData)
    {
      if artistData.None? {
        error := AddError;
        return None;
      }
      var name := artistData.value.name;
      store.AddSong(Song(track.id, track.name, name, track.albumName, track.durationMs, Cover(track)));
      route := Some(RateRoute(track.id, track.name, name, track.albumName, Cover(track)));
      unratedTracks := Without(unratedTracks, [track.id]);
    }
  }
}
