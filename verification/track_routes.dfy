/**
 * Track upload and maintenance (app/api/track_routes.py). These handlers
 * answer with a bare `jsonify` of the record rather than the success
 * envelope, and use `get_or_404` and `abort(403)` instead of the API error
 * classes. The uploaded file's `secure_filename` and the path it is saved
 * under are an input: `savedPath`.
 */
module TrackRoutes {
  import opened Wrappers
  import opened Py
  import opened Models
  import opened Db
  import opened ApiErrors

  /** The 400 body `create_track` answers a form without a title or a file with. */
  const MissingFieldsReply: Reply :=
    Reply(PyDict(map["error" := PyStr("Title and audio file are required.")]), 400)

  /**
   * `create_track`: a missing or empty title, or no file (or one with an
   * empty filename, which is falsy), is a 400 and creates nothing; otherwise
   * a track owned by the caller and pointing at the saved file is inserted.
   */
  method CreateTrack(db: Database, currentUser: int, title: Option<string>, genre: Option<string>,
                     duration: Option<int>, audioFilename: Option<string>, savedPath: string, now: DateTime)
    returns (o: Outcome)
    requires db.Valid()
    modifies db`tracks, db`nextTrackId
    ensures db.Valid()
    ensures title.None? || title.value == "" || audioFilename.None? || audioFilename.value == "" ==>
      o == Replied(MissingFieldsReply) && unchanged(db)
    ensures title.Some? && title.value != "" && audioFilename.Some? && audioFilename.value != "" ==>
      var t := Track(old(db.nextTrackId), title.value, savedPath, currentUser, duration, genre, now);
      && db.tracks == old(db.tracks) + [t]
      && db.nextTrackId == old(db.nextTrackId) + 1
      && db.playlists == old(db.playlists) && db.comments == old(db.comments) && db.likes == old(db.likes)
      && o == Replied(Reply(TrackToDict(t), 201))
  {
    if title.None? || title.value == "" || audioFilename.None? || audioFilename.value == "" {
      return Replied(MissingFieldsReply);
    }
    var track := Track(db.nextTrackId, title.value, savedPath, currentUser, duration, genre, now);
    db.AddTrack(track);
    o := Replied(Reply(TrackToDict(track), 201));
  }

  /** `get_track`: the track's dict, or a 404 abort. */
  method GetTrack(db: Database, trackId: int) returns (o: Outcome)
    requires db.Valid()
    ensures trackId !in TrackIds(db.tracks) <==> o == Aborted(404)
    ensures trackId in TrackIds(db.tracks) ==> o == Replied(Reply(TrackToDict(FindTrack(db.tracks, trackId).value), 200))
  {
    var track := FindTrack(db.tracks, trackId);
    if track.None? {
      return Aborted(404);
    }
    o := Replied(Reply(TrackToDict(track.value), 200));
  }

  /**
   * The fields of an update body: each is `None` when its key is absent and
   * `Some(None)` when it is sent as null.
   */
  datatype TrackUpdate = TrackUpdate(title: Option<Option<string>>, genre: Option<Option<string>>, duration: Option<Option<int>>)

  /**
   * The track with exactly the sent fields overwritten. A null title is left
   * out: the NOT NULL column never stores it (`UpdateTrack` ends in a 500).
   */
  function Updated(t: Track, u: TrackUpdate): (r: Track)
    requires u.title != Some(None)
    ensures r.id == t.id && r.audioUrl == t.audioUrl && r.userId == t.userId && r.createdAt == t.createdAt
    ensures r.title == if u.title.Some? then u.title.value.value else t.title
    ensures r.genre == if u.genre.Some? then u.genre.value else t.genre
    ensures r.duration == if u.duration.Some? then u.duration.value else t.duration
    ensures u == TrackUpdate(None, None, None) ==> r == t
  {
    var t1 := if u.title.Some? then t.(title := u.title.value.value) else t;
    var t2 := if u.genre.Some? then t1.(genre := u.genre.value) else t1;
    if u.duration.Some? then t2.(duration := u.duration.value) else t2
  }

  /**
   * `update_track`: 404, then 403 for anyone but the owner, then the sent
   * fields change; a null title fails the NOT NULL constraint at commit time,
   * a 500 with nothing stored.
   */
  method UpdateTrack(db: Database, currentUser: int, trackId: int, update: TrackUpdate) returns (o: Outcome)
    requires db.Valid()
    modifies db`tracks
    ensures db.Valid()
    ensures trackId !in TrackIds(old(db.tracks)) ==> o == Aborted(404) && unchanged(db)
    ensures trackId in TrackIds(old(db.tracks)) && FindTrack(old(db.tracks), trackId).value.userId != currentUser ==>
      o == Aborted(403) && unchanged(db)
    ensures (trackId in TrackIds(old(db.tracks)) && FindTrack(old(db.tracks), trackId).value.userId == currentUser
      && update.title == Some(None)) ==> o == Crashed && unchanged(db)
    ensures (trackId in TrackIds(old(db.tracks)) && FindTrack(old(db.tracks), trackId).value.userId == currentUser
      && update.title != Some(None)) ==>
      var t := Updated(FindTrack(old(db.tracks), trackId).value, update);
      && db.tracks == ReplaceTrack(old(db.tracks), t)
      && db.playlists == old(db.playlists) && db.comments == old(db.comments) && db.likes == old(db.likes)
      && db.nextTrackId == old(db.nextTrackId)
      && o == Replied(Reply(TrackToDict(t), 200))
  {
    var found := FindTrack(db.tracks, trackId);
    if found.None? {
      return Aborted(404);
    }
    var track := found.value;
    if track.userId != currentUser {
      return Aborted(403);
    }
    if update.title == Some(None) {
      // The NOT NULL constraint rejects the row at commit time.
      return Crashed;
    }
    track := Updated(track, update);
    assert found.value in db.tracks && found.value.id == track.id;
    db.SaveTrack(track);
    o := Replied(Reply(TrackToDict(track), 200));
  }

  /**
   * `delete_track`: 404, then 403 for anyone but the owner; the owner's
   * delete removes the track together with its comments, its likes and its
   * `playlist_tracks` rows.
   */
  method DeleteTrack(db: Database, currentUser: int, trackId: int) returns (o: Outcome)
    requires db.Valid()
    modifies db`tracks, db`comments, db`likes, db`playlists
    ensures db.Valid()
    ensures trackId !in TrackIds(old(db.tracks)) ==> o == Aborted(404) && unchanged(db)
    ensures trackId in TrackIds(old(db.tracks)) && FindTrack(old(db.tracks), trackId).value.userId != currentUser ==>
      o == Aborted(403) && unchanged(db)
    ensures trackId in TrackIds(old(db.tracks)) && FindTrack(old(db.tracks), trackId).value.userId == currentUser ==>
      && db.tracks == WithoutTrack(old(db.tracks), trackId)
      && TrackIds(db.tracks) == TrackIds(old(db.tracks)) - {trackId}
      && db.comments == CommentsNotOn(old(db.comments), trackId)
      && db.likes == LikesNotOn(old(db.likes), trackId)
      && db.playlists == UnlinkTrack(old(db.playlists), trackId)
      && (forall c :: c in db.comments ==> c.trackId != trackId)
      && (forall k :: k in db.likes ==> k.1 != trackId)
      && (forall p :: p in db.playlists ==> trackId !in p.trackIds)
      && o == Replied(Reply(PyDict(map["message" := PyStr("Track deleted successfully")]), 200))
  {
    var found := FindTrack(db.tracks, trackId);
    if found.None? {
      return Aborted(404);
    }
    if found.value.userId != currentUser {
      return Aborted(403);
    }
    db.RemoveTrack(trackId);
    forall p | p in db.playlists ensures trackId !in p.trackIds {
      var i :| 0 <= i < |db.playlists| && db.playlists[i] == p;
    }
    o := Replied(Reply(PyDict(map["message" := PyStr("Track deleted successfully")]), 200));
  }
}
