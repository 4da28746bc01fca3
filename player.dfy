/**
 * The play handler of the track viewer window (ViewTracksWindow.play_selected_track
 * in track_player.py). It is user-interface code, not part of the library; only its
 * effect on the library and the link it opens are modelled.
 */
module Player {
  import opened Wrappers
  import opened Tracks
  import opened Library

  /** Why playing fails: the selected key names no track of the library. */
  datatype PlayError = UnknownTrack(id: string)

  /** A track after one more play: its play count goes up by one and nothing else changes. */
  function Played(t: Track): (u: Track)
    ensures u.playCount == t.playCount + 1
    ensures u.(playCount := t.playCount) == t
  {
    t.(playCount := t.playCount + 1)
  }

  /** A track after n plays in a row. */
  function PlayedTimes(t: Track, n: nat): Track
  {
    if n == 0 then t else Played(PlayedTimes(t, n - 1))
  }

  /** Playing a track n times raises its play count by exactly n and leaves its
      name, artist, link and rating as they were. */
  lemma {:induction false} PlayedTimesCount(t: Track, n: nat)
    ensures PlayedTimes(t, n).playCount == t.playCount + n
    ensures PlayedTimes(t, n).(playCount := t.playCount) == t
  {
    if n > 0 {
      PlayedTimesCount(t, n - 1);
    }
  }

  /**
   * Plays the track stored under trackId: its play count in the library goes up
   * by one and its link is returned for the browser to open. A key the library
   * does not hold fails and changes nothing.
   */
  method PlaySelectedTrack(lib: TrackLibrary, trackId: string) returns (r: Result<string, PlayError>)
    modifies lib
    ensures trackId !in old(lib.tracks) ==> r == Err(UnknownTrack(trackId)) && lib.tracks == old(lib.tracks)
    ensures trackId in old(lib.tracks) ==>
      && r == Ok(old(lib.tracks)[trackId].youtubeUrl)
      && lib.tracks == old(lib.tracks)[trackId := Played(old(lib.tracks)[trackId])]
  {
    if trackId !in lib.tracks {
      return Err(UnknownTrack(trackId));
    }
    var track := lib.tracks[trackId];
    lib.tracks := lib.tracks[trackId := Played(track)];
    r := Ok(track.youtubeUrl);
  }
}
