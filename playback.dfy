/** The search inside `getCurrentlyPlayingIndex`: `tracksInfo.findIndex` with a callback
    that accepts position `index` when it is at or after the remembered position and holds
    the track the player reports. The player's answer is the parameter `currentId`. */
module Playback {
  import opened Tracks

  /** Position `k` is one the `findIndex` callback accepts. */
  predicate Accepts(tracks: seq<TrackInfo>, currentId: string, previousSongIndex: int, k: int)
  {
    0 <= k < |tracks| && k >= previousSongIndex && tracks[k].trackId == currentId
  }

  /** `findIndex` from position `k` on. */
  function FindAt(tracks: seq<TrackInfo>, currentId: string, previousSongIndex: int, k: nat): (r: int)
    ensures -1 <= r < |tracks|
    ensures r != -1 ==> k <= r && Accepts(tracks, currentId, previousSongIndex, r)
    ensures forall j :: k <= j && (r == -1 || j < r) ==> !Accepts(tracks, currentId, previousSongIndex, j)
    decreases |tracks| - k
  {
    if k >= |tracks| then -1
    else if k >= previousSongIndex && tracks[k].trackId == currentId then k
    else FindAt(tracks, currentId, previousSongIndex, k + 1)
  }

  /** The playing position: the first accepted position, or `-1` when there is none. */
  function FindFrom(tracks: seq<TrackInfo>, currentId: string, previousSongIndex: int): (r: int)
    ensures -1 <= r < |tracks|
    ensures r != -1 ==> Accepts(tracks, currentId, previousSongIndex, r)
    ensures forall j :: 0 <= j && (r == -1 || j < r) ==> !Accepts(tracks, currentId, previousSongIndex, j)
  {
    FindAt(tracks, currentId, previousSongIndex, 0)
  }

  /** The search answers `-1` exactly when no position at or after the remembered one holds
      the playing track. */
  lemma NotFoundIffAbsent(tracks: seq<TrackInfo>, currentId: string, previousSongIndex: int)
    ensures FindFrom(tracks, currentId, previousSongIndex) == -1 <==>
      forall j :: 0 <= j < |tracks| && j >= previousSongIndex ==> tracks[j].trackId != currentId
  {
    var r := FindFrom(tracks, currentId, previousSongIndex);
    if r != -1 {
      assert Accepts(tracks, currentId, previousSongIndex, r);
    } else {
      forall j | 0 <= j < |tracks| && j >= previousSongIndex ensures tracks[j].trackId != currentId {
        assert !Accepts(tracks, currentId, previousSongIndex, j);
      }
    }
  }
}
