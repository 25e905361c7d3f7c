/**
 * The older playlist slice (react-app/src/store/playlist.js): playlists
 * keyed by id, each holding its embedded `tracks` list.
 */
module LegacyPlaylistStore {
  import opened Wrappers
  import opened Js
  import opened EntityStore

  datatype Action =
    | UpdatePlaylistAction(playlist: Value)
    | RemovePlaylistAction(playlistId: Value)
    | RemoveTrackFromPlaylistAction(playlistId: Value, trackId: Value)
    | OtherAction

  /** Whether `track.id !== trackId` keeps the track. */
  predicate Kept(track: Value, trackId: Value) {
    !StrictEquals(Get(track, "id"), trackId)
  }

  /**
   * `tracks.filter(track => track.id !== trackId)`, or `None` when a null or
   * undefined element makes reading `.id` throw.
   */
  function WithoutTrack(tracks: seq<Value>, trackId: Value): (r: Option<seq<Value>>)
    ensures r.Some? <==> Keyable(tracks)
    ensures r.Some? ==> forall i :: 0 <= i < |r.value| ==> Kept(r.value[i], trackId)
    ensures r.Some? ==> forall t :: t in tracks && Kept(t, trackId) <==> t in r.value
  {
    if tracks == [] then Some([])
    else if Nullish(tracks[0]) then None
    else
      match WithoutTrack(tracks[1..], trackId)
      case None => None
      case Some(rest) =>
        assert forall t :: t in tracks <==> t == tracks[0] || t in tracks[1..];
        Some(if Kept(tracks[0], trackId) then [tracks[0]] + rest else rest)
  }

  /** The filter keeps the surviving tracks in their original order: it distributes over concatenation. */
  lemma {:induction false} WithoutTrackAppend(a: seq<Value>, b: seq<Value>, trackId: Value)
    requires Keyable(a) && Keyable(b)
    ensures WithoutTrack(a + b, trackId).Some?
    ensures WithoutTrack(a + b, trackId).value == WithoutTrack(a, trackId).value + WithoutTrack(b, trackId).value
    decreases |a|
  {
    assert Keyable(a + b) by {
      forall i | 0 <= i < |a + b| ensures !Nullish((a + b)[i]) {
        if i < |a| { assert (a + b)[i] == a[i]; } else { assert (a + b)[i] == b[i - |a|]; }
      }
    }
    if a == [] {
      assert a + b == b;
    } else {
      assert (a + b)[1..] == a[1..] + b;
      assert Keyable(a[1..]) by {
        forall i | 0 <= i < |a[1..]| ensures !Nullish(a[1..][i]) { assert a[1..][i] == a[i + 1]; }
      }
      WithoutTrackAppend(a[1..], b, trackId);
    }
  }

  /**
   * The REMOVE_TRACK_FROM_PLAYLIST case: the playlist at `playlistId` becomes
   * `{ ...playlist, tracks: playlist.tracks.filter(...) }`. It throws (`None`)
   * when the playlist is missing, its `tracks` is not an array, or one of
   * its tracks is null or undefined (reading `track.id`).
   */
  function RemoveTrack(state: State, playlistId: Value, trackId: Value): (r: Option<State>)
    ensures r.Some? <==>
      PropertyKey(playlistId) in state &&
      Get(state[PropertyKey(playlistId)], "tracks").Arr? &&
      Keyable(Get(state[PropertyKey(playlistId)], "tracks").items)
    ensures r.Some? ==> r.value.Keys == state.Keys
    ensures r.Some? ==> forall k :: k in state && k != PropertyKey(playlistId) ==> r.value[k] == state[k]
    ensures r.Some? ==>
      var before := state[PropertyKey(playlistId)];
      var after := r.value[PropertyKey(playlistId)];
      && after.Obj?
      && (forall key :: key != "tracks" ==> Get(after, key) == Get(before, key))
      && Get(after, "tracks") == Arr(WithoutTrack(Get(before, "tracks").items, trackId).value)
  {
    var key := PropertyKey(playlistId);
    if key !in state then None
    else
      var playlist := state[key];
      var tracks := Get(playlist, "tracks");
      if !tracks.Arr? then None
      else
        match WithoutTrack(tracks.items, trackId)
        case None => None
        case Some(kept) => Some(state[key := Obj(Put(playlist.members, "tracks", Arr(kept)))])
  }

  /** After REMOVE_TRACK_FROM_PLAYLIST no track of the playlist has an id strictly equal to `trackId`. */
  lemma NoRemovedTrackRemains(state: State, playlistId: Value, trackId: Value)
    requires RemoveTrack(state, playlistId, trackId).Some?
    ensures
      var tracks := Get(RemoveTrack(state, playlistId, trackId).value[PropertyKey(playlistId)], "tracks").items;
      forall i :: 0 <= i < |tracks| ==> !StrictEquals(Get(tracks[i], "id"), trackId)
  {
  }

  /** `playlistReducer`; `None` when it throws. */
  method Reduce(state: State, action: Action) returns (r: Option<State>)
    ensures action.UpdatePlaylistAction? ==> r == Upsert(state, action.playlist)
    ensures action.RemovePlaylistAction? ==>
      r.Some? && r.value.Keys == state.Keys - {PropertyKey(action.playlistId)} &&
      (forall k :: k in r.value ==> r.value[k] == state[k])
    ensures action.RemovePlaylistAction? && PropertyKey(action.playlistId) !in state ==> r == Some(state)
    ensures action.RemoveTrackFromPlaylistAction? ==> r == RemoveTrack(state, action.playlistId, action.trackId)
    ensures action.OtherAction? ==> r == Some(state)
  {
    if action.UpdatePlaylistAction? {
      r := Upsert(state, action.playlist);
    } else if action.RemovePlaylistAction? {
      var newState := RemoveKey(state, PropertyKey(action.playlistId));
      r := Some(newState);
    } else if action.RemoveTrackFromPlaylistAction? {
      r := RemoveTrack(state, action.playlistId, action.trackId);
    } else {
      r := Some(state);
    }
  }

  /**
   * `updatePlaylist`: on an ok response the returned playlist replaces the
   * cached one and is what the promise resolves with.
   */
  method UpdatePlaylist(state: State, response: Response) returns (run: Run)
    ensures !response.ok ==> run == Run(state, Resolves(Undefined))
    ensures response.ok && Nullish(response.body) ==> run == Run(state, Rejects)
    ensures response.ok && !Nullish(response.body) ==>
      run == Run(Upsert(state, response.body).value, Resolves(response.body))
  {
    if !response.ok {
      return Run(state, Resolves(Undefined));
    }
    var playlist := response.body;
    var next := Reduce(state, UpdatePlaylistAction(playlist));
    if next.None? {
      return Run(state, Rejects);
    }
    run := Run(next.value, Resolves(playlist));
  }

  /** `deletePlaylist`: on an ok response the key is dropped and the promise resolves with `true`. */
  method DeletePlaylist(state: State, playlistId: Value, ok: bool) returns (run: Run)
    ensures ok ==> run.settled == Resolves(Bool(true))
    ensures ok ==> run.state.Keys == state.Keys - {PropertyKey(playlistId)} &&
                   forall k :: k in run.state ==> run.state[k] == state[k]
    ensures !ok ==> run == Run(state, Resolves(Undefined))
  {
    if !ok {
      return Run(state, Resolves(Undefined));
    }
    var next := Reduce(state, RemovePlaylistAction(playlistId));
    run := Run(next.value, Resolves(Bool(true)));
  }

  /**
   * `removeTrackFromPlaylist`: on an ok response the track is filtered out of
   * the cached playlist and the promise resolves with `true`; when the
   * playlist is not cached the reducer throws and the promise rejects.
   */
  method RemoveTrackFromPlaylist(state: State, playlistId: Value, trackId: Value, ok: bool) returns (run: Run)
    ensures !ok ==> run == Run(state, Resolves(Undefined))
    ensures ok && RemoveTrack(state, playlistId, trackId).Some? ==>
      run == Run(RemoveTrack(state, playlistId, trackId).value, Resolves(Bool(true)))
    ensures ok && RemoveTrack(state, playlistId, trackId).None? ==> run == Run(state, Rejects)
  {
    if !ok {
      return Run(state, Resolves(Undefined));
    }
    var next := Reduce(state, RemoveTrackFromPlaylistAction(playlistId, trackId));
    if next.None? {
      return Run(state, Rejects);
    }
    run := Run(next.value, Resolves(Bool(true)));
  }
}
