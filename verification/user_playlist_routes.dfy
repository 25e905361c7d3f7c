/**
 * The signed-in user's playlist endpoints (app/api/user_playlist_routes.py).
 * Every handler that names a playlist first looks it up (404), then checks
 * ownership (403), then validates and mutates. `currentUser` is the id
 * flask-login's `current_user` carries; request fields arrive already
 * decoded, `None` standing for a missing key or a JSON null.
 */
module UserPlaylistRoutes {
  import opened Wrappers
  import opened Py
  import opened Models
  import opened Db
  import opened ApiErrors

  /** `playlist.to_dict()` with the playlist's track rows looked up. */
  function PlaylistDict(tracks: seq<Track>, p: Playlist): PyValue
    requires forall id :: id in p.trackIds ==> id in TrackIds(tracks)
  {
    PlaylistToDict(p, TracksOf(tracks, p.trackIds))
  }

  /**
   * The lookup-then-ownership preamble: 404 when no playlist has the id
   * (whoever asks), 403 when someone else owns it, else the playlist.
   */
  function OwnedPlaylist(playlists: seq<Playlist>, currentUser: int, playlistId: int): (r: Result<Playlist, ApiError>)
    ensures FindPlaylist(playlists, playlistId).None? <==> r == Err(ResourceNotFoundError("Playlist"))
    ensures r == Err(AuthorizationError("Access denied")) <==>
      FindPlaylist(playlists, playlistId).Some? && FindPlaylist(playlists, playlistId).value.userId != currentUser
    ensures r.Ok? ==> r.value in playlists && r.value.id == playlistId && r.value.userId == currentUser
    ensures FindPlaylist(playlists, playlistId).Some? && FindPlaylist(playlists, playlistId).value.userId == currentUser ==>
      r == Ok(FindPlaylist(playlists, playlistId).value)
  {
    match FindPlaylist(playlists, playlistId)
    case None => Err(ResourceNotFoundError("Playlist"))
    case Some(p) => if p.userId != currentUser then Err(AuthorizationError("Access denied")) else Ok(p)
  }

  /** Whether a JSON id is truthy: present, and not 0. */
  predicate Truthy(id: Option<int>) {
    id.Some? && id.value != 0
  }

  /**
   * `create_playlist`: a missing or empty name is a 400 naming `name`;
   * otherwise a playlist owned by the caller is inserted, holding the
   * requested track if (and only if) that track exists.
   */
  method CreatePlaylist(db: Database, currentUser: int, name: Option<string>, trackId: Option<int>, now: DateTime)
    returns (o: Outcome)
    requires db.Valid()
    modifies db`playlists, db`nextPlaylistId
    ensures db.Valid()
    ensures name.None? || name.value == "" ==>
      o == Raised(ValidationError("Playlist name is required", FieldErrors("name", "Required field"))) && unchanged(db)
    ensures name.Some? && name.value != "" ==>
      var p := Playlist(old(db.nextPlaylistId), name.value, currentUser, now,
                        if Truthy(trackId) && trackId.value in TrackIds(old(db.tracks)) then [trackId.value] else []);
      && db.playlists == old(db.playlists) + [p]
      && db.nextPlaylistId == old(db.nextPlaylistId) + 1
      && db.tracks == old(db.tracks) && db.comments == old(db.comments) && db.likes == old(db.likes)
      && db.nextTrackId == old(db.nextTrackId) && db.nextCommentId == old(db.nextCommentId)
      && o == Replied(SuccessReply(PlaylistDict(db.tracks, p), Some("Playlist created"), 201))
  {
    if name.None? || name.value == "" {
      return Raised(ValidationError("Playlist name is required", FieldErrors("name", "Required field")));
    }
    var playlist := Playlist(db.nextPlaylistId, name.value, currentUser, now, []);
    if Truthy(trackId) {
      var track := FindTrack(db.tracks, trackId.value);
      if track.Some? {
        playlist := playlist.(trackIds := [track.value.id]);
      }
    }
    db.AddPlaylist(playlist);
    var reply := ApiSuccess(PlaylistDict(db.tracks, playlist), Some("Playlist created"), 201);
    o := Replied(reply);
  }

  /** `get_playlist`: the owner gets the playlist with its tracks. */
  method GetPlaylist(db: Database, currentUser: int, playlistId: int) returns (o: Outcome)
    requires db.Valid()
    ensures OwnedPlaylist(db.playlists, currentUser, playlistId).Err? ==>
      o == Raised(OwnedPlaylist(db.playlists, currentUser, playlistId).error)
    ensures OwnedPlaylist(db.playlists, currentUser, playlistId).Ok? ==>
      o == Replied(SuccessReply(PlaylistDict(db.tracks, OwnedPlaylist(db.playlists, currentUser, playlistId).value), None, 200))
  {
    var found := FindPlaylist(db.playlists, playlistId);
    if found.None? {
      return Raised(ResourceNotFoundError("Playlist"));
    }
    var playlist := found.value;
    if playlist.userId != currentUser {
      return Raised(AuthorizationError("Access denied"));
    }
    var reply := ApiSuccess(PlaylistDict(db.tracks, playlist));
    o := Replied(reply);
  }

  /**
   * `update_playlist`: the name changes only when the request carries a
   * `name` key (`name` is `None` without the key and `Some(None)` for a JSON
   * null). A null name cannot be stored in the NOT NULL column, so the commit
   * fails and the request ends in a 500 with nothing stored.
   */
  method UpdatePlaylist(db: Database, currentUser: int, playlistId: int, name: Option<Option<string>>) returns (o: Outcome)
    requires db.Valid()
    modifies db`playlists
    ensures db.Valid()
    ensures OwnedPlaylist(old(db.playlists), currentUser, playlistId).Err? ==>
      o == Raised(OwnedPlaylist(old(db.playlists), currentUser, playlistId).error) && unchanged(db)
    ensures OwnedPlaylist(old(db.playlists), currentUser, playlistId).Ok? && name == Some(None) ==>
      o == Crashed && unchanged(db)
    ensures OwnedPlaylist(old(db.playlists), currentUser, playlistId).Ok? && name != Some(None) ==>
      var p := OwnedPlaylist(old(db.playlists), currentUser, playlistId).value;
      var updated := if name.Some? then p.(name := name.value.value) else p;
      && db.playlists == ReplacePlaylist(old(db.playlists), updated)
      && (name.None? ==> db.playlists == old(db.playlists))
      && db.tracks == old(db.tracks) && db.comments == old(db.comments) && db.likes == old(db.likes)
      && db.nextPlaylistId == old(db.nextPlaylistId)
      && o == Replied(SuccessReply(PlaylistDict(db.tracks, updated), Some("Playlist updated"), 200))
  {
    var found := FindPlaylist(db.playlists, playlistId);
    if found.None? {
      return Raised(ResourceNotFoundError("Playlist"));
    }
    var playlist := found.value;
    if playlist.userId != currentUser {
      return Raised(AuthorizationError("Access denied"));
    }
    if name == Some(None) {
      // The NOT NULL constraint rejects the row at commit time.
      return Crashed;
    }
    if name.Some? {
      playlist := playlist.(name := name.value.value);
    }
    assert name.None? ==> ReplacePlaylist(db.playlists, playlist) == db.playlists by {
      ReplaceWithStoredRow(db.playlists, found.value);
    }
    db.SavePlaylist(playlist);
    var reply := ApiSuccess(PlaylistDict(db.tracks, playlist), Some("Playlist updated"));
    o := Replied(reply);
  }

  /**
   * `add_track_to_playlist`: after the playlist checks, a missing `track_id`
   * is a 400, an unknown track a 404 and a track already present a 400;
   * otherwise the track is appended, so the list grows by exactly one.
   */
  method AddTrackToPlaylist(db: Database, currentUser: int, playlistId: int, trackId: Option<int>) returns (o: Outcome)
    requires db.Valid()
    modifies db`playlists
    ensures db.Valid()
    ensures o.Raised? ==> unchanged(db)
    ensures OwnedPlaylist(old(db.playlists), currentUser, playlistId).Err? ==>
      o == Raised(OwnedPlaylist(old(db.playlists), currentUser, playlistId).error)
    ensures OwnedPlaylist(old(db.playlists), currentUser, playlistId).Ok? ==>
      var p := OwnedPlaylist(old(db.playlists), currentUser, playlistId).value;
      && (!Truthy(trackId) ==>
            o == Raised(ValidationError("track_id is required", FieldErrors("track_id", "Required field"))))
      && (Truthy(trackId) && trackId.value !in TrackIds(old(db.tracks)) ==> o == Raised(ResourceNotFoundError("Track")))
      && (Truthy(trackId) && trackId.value in TrackIds(old(db.tracks)) && trackId.value in p.trackIds ==>
            o == Raised(ValidationError("Track already in playlist")))
      && (Truthy(trackId) && trackId.value in TrackIds(old(db.tracks)) && trackId.value !in p.trackIds ==>
            var updated := p.(trackIds := p.trackIds + [trackId.value]);
            && db.playlists == ReplacePlaylist(old(db.playlists), updated)
            && |updated.trackIds| == |p.trackIds| + 1
            && db.tracks == old(db.tracks) && db.comments == old(db.comments) && db.likes == old(db.likes)
            && db.nextPlaylistId == old(db.nextPlaylistId)
            && o == Replied(SuccessReply(PlaylistDict(db.tracks, updated), Some("Track added to playlist"), 200)))
  {
    var found := FindPlaylist(db.playlists, playlistId);
    if found.None? {
      return Raised(ResourceNotFoundError("Playlist"));
    }
    var playlist := found.value;
    if playlist.userId != currentUser {
      return Raised(AuthorizationError("Access denied"));
    }
    if !Truthy(trackId) {
      return Raised(ValidationError("track_id is required", FieldErrors("track_id", "Required field")));
    }
    var track := FindTrack(db.tracks, trackId.value);
    if track.None? {
      return Raised(ResourceNotFoundError("Track"));
    }
    if track.value.id in playlist.trackIds {
      return Raised(ValidationError("Track already in playlist"));
    }
    DistinctAppend(playlist.trackIds, track.value.id);
    playlist := playlist.(trackIds := playlist.trackIds + [track.value.id]);
    db.SavePlaylist(playlist);
    var reply := ApiSuccess(PlaylistDict(db.tracks, playlist), Some("Track added to playlist"), 200);
    o := Replied(reply);
  }

  /** `[playlist.to_dict() for playlist in playlists]` */
  function PlaylistDicts(tracks: seq<Track>, playlists: seq<Playlist>): (r: seq<PyValue>)
    requires forall p :: p in playlists ==> forall id :: id in p.trackIds ==> id in TrackIds(tracks)
    ensures |r| == |playlists|
    ensures forall i :: 0 <= i < |r| ==> r[i] == PlaylistDict(tracks, playlists[i])
  {
    seq(|playlists|, i requires 0 <= i < |playlists| => PlaylistDict(tracks, playlists[i]))
  }

  /** `get_all_playlists`: exactly the caller's playlists, under `data.playlists`. */
  method GetAllPlaylists(db: Database, currentUser: int) returns (o: Outcome)
    requires db.Valid()
    ensures o == Replied(SuccessReply(
      PyDict(map["playlists" := PyList(PlaylistDicts(db.tracks, PlaylistsOf(db.playlists, currentUser)))]), None, 200))
    ensures forall p :: p in PlaylistsOf(db.playlists, currentUser) <==> p in db.playlists && p.userId == currentUser
  {
    var playlists := PlaylistsOf(db.playlists, currentUser);
    var reply := ApiSuccess(PyDict(map["playlists" := PyList(PlaylistDicts(db.tracks, playlists))]));
    o := Replied(reply);
  }

  /**
   * `remove_track_from_playlist`: after the playlist checks, an unknown track
   * is a 404 and a track not in the playlist a 400; otherwise exactly that
   * track leaves the playlist.
   */
  method RemoveTrackFromPlaylist(db: Database, currentUser: int, playlistId: int, trackId: int) returns (o: Outcome)
    requires db.Valid()
    modifies db`playlists
    ensures db.Valid()
    ensures o.Raised? ==> unchanged(db)
    ensures OwnedPlaylist(old(db.playlists), currentUser, playlistId).Err? ==>
      o == Raised(OwnedPlaylist(old(db.playlists), currentUser, playlistId).error)
    ensures OwnedPlaylist(old(db.playlists), currentUser, playlistId).Ok? ==>
      var p := OwnedPlaylist(old(db.playlists), currentUser, playlistId).value;
      && (trackId !in TrackIds(old(db.tracks)) ==> o == Raised(ResourceNotFoundError("Track")))
      && (trackId in TrackIds(old(db.tracks)) && trackId !in p.trackIds ==>
            o == Raised(ValidationError("Track not in playlist")))
      && (trackId in TrackIds(old(db.tracks)) && trackId in p.trackIds ==>
            var updated := p.(trackIds := RemoveFirst(p.trackIds, trackId));
            && db.playlists == ReplacePlaylist(old(db.playlists), updated)
            && |updated.trackIds| == |p.trackIds| - 1
            && (forall id :: id in updated.trackIds <==> id in p.trackIds && id != trackId)
            && db.tracks == old(db.tracks) && db.comments == old(db.comments) && db.likes == old(db.likes)
            && db.nextPlaylistId == old(db.nextPlaylistId)
            && o == Replied(SuccessReply(PlaylistDict(db.tracks, updated), Some("Track removed from playlist"), 200)))
  {
    var found := FindPlaylist(db.playlists, playlistId);
    if found.None? {
      return Raised(ResourceNotFoundError("Playlist"));
    }
    var playlist := found.value;
    if playlist.userId != currentUser {
      return Raised(AuthorizationError("Access denied"));
    }
    var track := FindTrack(db.tracks, trackId);
    if track.None? {
      return Raised(ResourceNotFoundError("Track"));
    }
    if track.value.id !in playlist.trackIds {
      return Raised(ValidationError("Track not in playlist"));
    }
    RemoveFirstOfDistinct(playlist.trackIds, trackId);
    playlist := playlist.(trackIds := RemoveFirst(playlist.trackIds, trackId));
    db.SavePlaylist(playlist);
    var reply := ApiSuccess(PlaylistDict(db.tracks, playlist), Some("Track removed from playlist"), 200);
    o := Replied(reply);
  }

  /** `delete_playlist`: the owner's playlist row (and its `playlist_tracks` rows) go. */
  method DeletePlaylist(db: Database, currentUser: int, playlistId: int) returns (o: Outcome)
    requires db.Valid()
    modifies db`playlists
    ensures db.Valid()
    ensures OwnedPlaylist(old(db.playlists), currentUser, playlistId).Err? ==>
      o == Raised(OwnedPlaylist(old(db.playlists), currentUser, playlistId).error) && unchanged(db)
    ensures OwnedPlaylist(old(db.playlists), currentUser, playlistId).Ok? ==>
      && db.playlists == WithoutPlaylist(old(db.playlists), playlistId)
      && (forall p :: p in db.playlists ==> p.id != playlistId)
      && db.tracks == old(db.tracks) && db.comments == old(db.comments) && db.likes == old(db.likes)
      && db.nextPlaylistId == old(db.nextPlaylistId)
      && o == Replied(SuccessReply(PyNone, Some("Playlist deleted successfully"), 200))
  {
    var found := FindPlaylist(db.playlists, playlistId);
    if found.None? {
      return Raised(ResourceNotFoundError("Playlist"));
    }
    if found.value.userId != currentUser {
      return Raised(AuthorizationError("Access denied"));
    }
    db.playlists := WithoutPlaylist(db.playlists, playlistId);
    var reply := ApiSuccess(message := Some("Playlist deleted successfully"), statusCode := 200);
    o := Replied(reply);
  }
}
