/**
 * Liking and unliking a track (app/api/like_routes.py). A like is the
 * (user_id, track_id) primary key of the `likes` table, so the stored
 * likes are a map from that pair to the row's `created_at`: at most one
 * like per pair holds by construction.
 */
module LikeRoutes {
  import opened Wrappers
  import opened Py
  import opened Models
  import opened Db
  import opened ApiErrors

  /**
   * `like_track` as written: after the commit it reads `like.id`, a column
   * the `Like` model does not declare, so the request ends in an uncaught
   * AttributeError (a 500) with the like already stored.
   */
  method LikeTrackAsWritten(db: Database, currentUser: int, trackId: int, now: DateTime) returns (o: Outcome)
    requires db.Valid()
    modifies db`likes
    ensures db.Valid()
    ensures trackId !in TrackIds(old(db.tracks)) ==> o == Raised(ResourceNotFoundError("Track")) && unchanged(db)
    ensures trackId in TrackIds(old(db.tracks)) && (currentUser, trackId) in old(db.likes) ==>
      o == Raised(ValidationError("Track already liked")) && unchanged(db)
    ensures trackId in TrackIds(old(db.tracks)) && (currentUser, trackId) !in old(db.likes) ==>
      && db.likes == old(db.likes)[(currentUser, trackId) := now]
      && db.tracks == old(db.tracks) && db.playlists == old(db.playlists) && db.comments == old(db.comments)
      && o == Crashed
  {
    var track := FindTrack(db.tracks, trackId);
    if track.None? {
      return Raised(ResourceNotFoundError("Track"));
    }
    if (currentUser, trackId) in db.likes {
      return Raised(ValidationError("Track already liked"));
    }
    db.likes := db.likes[(currentUser, trackId) := now];
    // `like.id` does not exist on the committed row.
    o := Crashed;
  }

  /**
   * The discrepancy: a first like on a fresh pair is stored yet answered
   * with a 500, so the client's ok-gated thunk never records it, and the
   * retry the user then makes is refused as a duplicate.
   */
  method LikeRetryAsWritten(db: Database, currentUser: int, trackId: int, now: DateTime) returns (first: Outcome, retry: Outcome)
    requires db.Valid()
    requires trackId in TrackIds(db.tracks) && (currentUser, trackId) !in db.likes
    modifies db`likes
    ensures first == Crashed
    ensures retry == Raised(ValidationError("Track already liked"))
    ensures (currentUser, trackId) in db.likes
  {
    first := LikeTrackAsWritten(db, currentUser, trackId, now);
    retry := LikeTrackAsWritten(db, currentUser, trackId, now);
  }

  /**
   * `like_track` as intended: 404 for an unknown track, 400 for a pair
   * already liked, otherwise exactly the pair (current user, track) is
   * added and the new like is returned with 201.
   */
  method LikeTrack(db: Database, currentUser: int, trackId: int, now: DateTime) returns (o: Outcome)
    requires db.Valid()
    modifies db`likes
    ensures db.Valid()
    ensures trackId !in TrackIds(old(db.tracks)) ==> o == Raised(ResourceNotFoundError("Track")) && unchanged(db)
    ensures trackId in TrackIds(old(db.tracks)) && (currentUser, trackId) in old(db.likes) ==>
      o == Raised(ValidationError("Track already liked")) && unchanged(db)
    ensures trackId in TrackIds(old(db.tracks)) && (currentUser, trackId) !in old(db.likes) ==>
      && db.likes == old(db.likes)[(currentUser, trackId) := now]
      && db.likes.Keys == old(db.likes).Keys + {(currentUser, trackId)}
      && db.tracks == old(db.tracks) && db.playlists == old(db.playlists) && db.comments == old(db.comments)
      && o == Replied(SuccessReply(LikeToDict(Like(currentUser, trackId, now)), Some("Track liked successfully"), 201))
  {
    var track := FindTrack(db.tracks, trackId);
    if track.None? {
      return Raised(ResourceNotFoundError("Track"));
    }
    if (currentUser, trackId) in db.likes {
      return Raised(ValidationError("Track already liked"));
    }
    db.likes := db.likes[(currentUser, trackId) := now];
    var reply := ApiSuccess(LikeToDict(Like(currentUser, trackId, now)), Some("Track liked successfully"), 201);
    o := Replied(reply);
  }

  /** After the corrected like, a retry is refused and the client may treat 201 as stored. */
  method LikeRetry(db: Database, currentUser: int, trackId: int, now: DateTime) returns (first: Outcome, retry: Outcome)
    requires db.Valid()
    requires trackId in TrackIds(db.tracks) && (currentUser, trackId) !in db.likes
    modifies db`likes
    ensures first.Replied? && first.reply.status == 201
    ensures retry == Raised(ValidationError("Track already liked"))
    ensures (currentUser, trackId) in db.likes
  {
    first := LikeTrack(db, currentUser, trackId, now);
    assert SuccessReply(LikeToDict(Like(currentUser, trackId, now)), Some("Track liked successfully"), 201).status == 201;
    retry := LikeTrack(db, currentUser, trackId, now);
  }

  /**
   * `unlike_track`: 404 when the caller has not liked the track (whether or
   * not the track exists); otherwise exactly that pair is removed.
   */
  method UnlikeTrack(db: Database, currentUser: int, trackId: int) returns (o: Outcome)
    requires db.Valid()
    modifies db`likes
    ensures db.Valid()
    ensures (currentUser, trackId) !in old(db.likes) ==> o == Raised(ResourceNotFoundError("Like")) && unchanged(db)
    ensures (currentUser, trackId) in old(db.likes) ==>
      && db.likes == old(db.likes) - {(currentUser, trackId)}
      && db.tracks == old(db.tracks) && db.playlists == old(db.playlists) && db.comments == old(db.comments)
      && o == Replied(SuccessReply(PyNone, Some("Track unliked successfully"), 200))
  {
    if (currentUser, trackId) !in db.likes {
      return Raised(ResourceNotFoundError("Like"));
    }
    db.likes := db.likes - {(currentUser, trackId)};
    var reply := ApiSuccess(message := Some("Track unliked successfully"), statusCode := 200);
    o := Replied(reply);
  }

  /** Unliking what was just liked restores the stored likes. */
  lemma UnlikeUndoesLike(likes: map<LikeKey, DateTime>, key: LikeKey, now: DateTime)
    requires key !in likes
    ensures likes[key := now] - {key} == likes
  {
    assert (likes[key := now] - {key}).Keys == likes.Keys;
  }
}
