/**
 * Comments on tracks (app/api/comment_routes.py): create and list by track,
 * update and delete by the comment's author only.
 */
module CommentRoutes {
  import opened Wrappers
  import opened Py
  import opened Models
  import opened Db
  import opened ApiErrors
  import opened Pagination

  /**
   * `create_comment`: 404 for an unknown track (checked before the body),
   * 400 naming `text` for a missing or empty text, else a comment by the
   * caller on the path's track is inserted and returned with 201.
   */
  method CreateComment(db: Database, currentUser: int, trackId: int, text: Option<string>, now: DateTime)
    returns (o: Outcome)
    requires db.Valid()
    modifies db`comments, db`nextCommentId
    ensures db.Valid()
    ensures trackId !in TrackIds(old(db.tracks)) ==> o == Raised(ResourceNotFoundError("Track")) && unchanged(db)
    ensures trackId in TrackIds(old(db.tracks)) && (text.None? || text.value == "") ==>
      o == Raised(ValidationError("Comment text is required", FieldErrors("text", "Required field"))) && unchanged(db)
    ensures trackId in TrackIds(old(db.tracks)) && text.Some? && text.value != "" ==>
      var c := Comment(old(db.nextCommentId), text.value, currentUser, trackId, Some(now));
      && db.comments == old(db.comments) + [c]
      && db.nextCommentId == old(db.nextCommentId) + 1
      && db.tracks == old(db.tracks) && db.playlists == old(db.playlists) && db.likes == old(db.likes)
      && o == Replied(SuccessReply(CommentToDict(c), Some("Comment created"), 201))
  {
    var track := FindTrack(db.tracks, trackId);
    if track.None? {
      return Raised(ResourceNotFoundError("Track"));
    }
    if text.None? || text.value == "" {
      return Raised(ValidationError("Comment text is required", FieldErrors("text", "Required field")));
    }
    var comment := Comment(db.nextCommentId, text.value, currentUser, trackId, Some(now));
    db.AddComment(comment);
    var reply := ApiSuccess(CommentToDict(comment), Some("Comment created"), 201);
    o := Replied(reply);
  }

  /** The `data` of a comment listing: the page's comments and its metadata. */
  function CommentPageData(p: Page<Comment>): (d: PyValue)
    ensures d.PyDict? && d.entries.Keys == {"comments", "pagination"}
    ensures d.entries["comments"] == PyList(CommentDicts(p.items))
    ensures d.entries["pagination"] == PaginationDict(p)
  {
    PyDict(map["comments" := PyList(CommentDicts(p.items)), "pagination" := PaginationDict(p)])
  }

  /**
   * `list_comments`: 404 for an unknown track; otherwise one page (default
   * page 1 of 10) of exactly the comments on that track.
   */
  method ListComments(db: Database, trackId: int, page: Option<int>, perPage: Option<int>) returns (o: Outcome)
    requires db.Valid()
    ensures trackId !in TrackIds(db.tracks) ==> o == Raised(ResourceNotFoundError("Track"))
    ensures trackId in TrackIds(db.tracks) ==>
      var p := Paginate(CommentsOn(db.comments, trackId), ArgOr(page, 1), ArgOr(perPage, 10));
      && o == Replied(SuccessReply(CommentPageData(p), None, 200))
      && (forall c :: c in p.items ==> c in db.comments && c.trackId == trackId)
      && p.total == |CommentsOn(db.comments, trackId)|
  {
    var pageNumber := ArgOr(page, 1);
    var pageSize := ArgOr(perPage, 10);
    var track := FindTrack(db.tracks, trackId);
    if track.None? {
      return Raised(ResourceNotFoundError("Track"));
    }
    var all := CommentsOn(db.comments, trackId);
    var p := Paginate(all, pageNumber, pageSize);
    var reply := ApiSuccess(CommentPageData(p));
    o := Replied(reply);
  }

  /**
   * `update_comment`: only the caller's own comment is found; `text` changes
   * only when sent (`Some(None)` is a JSON null, which the NOT NULL column
   * rejects at commit time: a 500 with nothing stored).
   */
  method UpdateComment(db: Database, currentUser: int, commentId: int, text: Option<Option<string>>) returns (o: Outcome)
    requires db.Valid()
    modifies db`comments
    ensures db.Valid()
    ensures FindOwnComment(old(db.comments), commentId, currentUser).None? ==>
      o == Raised(ResourceNotFoundError("Comment")) && unchanged(db)
    ensures FindOwnComment(old(db.comments), commentId, currentUser).Some? && text == Some(None) ==>
      o == Crashed && unchanged(db)
    ensures FindOwnComment(old(db.comments), commentId, currentUser).Some? && text != Some(None) ==>
      var c := FindOwnComment(old(db.comments), commentId, currentUser).value;
      var updated := if text.Some? then c.(text := text.value.value) else c;
      && db.comments == ReplaceComment(old(db.comments), updated)
      && (forall x :: x in db.comments <==> x == updated || (x in old(db.comments) && x.id != commentId))
      && db.tracks == old(db.tracks) && db.playlists == old(db.playlists) && db.likes == old(db.likes)
      && db.nextCommentId == old(db.nextCommentId)
      && o == Replied(SuccessReply(CommentToDict(updated), Some("Comment updated"), 200))
  {
    var found := FindOwnComment(db.comments, commentId, currentUser);
    if found.None? {
      return Raised(ResourceNotFoundError("Comment"));
    }
    var comment := found.value;
    if text == Some(None) {
      // The NOT NULL constraint rejects the row at commit time.
      return Crashed;
    }
    if text.Some? {
      comment := comment.(text := text.value.value);
    }
    assert found.value in db.comments && found.value.id == comment.id && found.value.trackId == comment.trackId;
    db.SaveComment(comment);
    var reply := ApiSuccess(CommentToDict(comment), Some("Comment updated"), 200);
    o := Replied(reply);
  }

  /** `delete_comment`: only the caller's own comment is found, and exactly it is removed. */
  method DeleteComment(db: Database, currentUser: int, commentId: int) returns (o: Outcome)
    requires db.Valid()
    modifies db`comments
    ensures db.Valid()
    ensures FindOwnComment(old(db.comments), commentId, currentUser).None? ==>
      o == Raised(ResourceNotFoundError("Comment")) && unchanged(db)
    ensures FindOwnComment(old(db.comments), commentId, currentUser).Some? ==>
      && db.comments == WithoutComment(old(db.comments), commentId)
      && (forall x :: x in db.comments <==> x in old(db.comments) && x.id != commentId)
      && db.tracks == old(db.tracks) && db.playlists == old(db.playlists) && db.likes == old(db.likes)
      && o == Replied(SuccessReply(PyNone, Some("Comment deleted successfully"), 200))
  {
    var found := FindOwnComment(db.comments, commentId, currentUser);
    if found.None? {
      return Raised(ResourceNotFoundError("Comment"));
    }
    db.comments := WithoutComment(db.comments, commentId);
    var reply := ApiSuccess(message := Some("Comment deleted successfully"));
    o := Replied(reply);
  }
}
