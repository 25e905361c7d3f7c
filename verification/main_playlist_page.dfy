/**
 * The main player page: skipping through the feed's tracks, adding the
 * current track to a playlist, posting or editing a comment on it, and
 * showing the comments that belong to it.
 */
module MainPlaylistPage {
  import opened Wrappers
  import opened Text
  import opened Js
  import opened PlaylistMenu

  /** `handleSkip`: the next index, wrapping from the last track to the first; no tracks, no move. */
  function Skip(current: nat, count: nat): (r: nat)
    ensures count == 0 ==> r == current
    ensures count > 0 ==> r < count
    ensures count > 0 && current < count ==> r == if current == count - 1 then 0 else current + 1
  {
    if count > 0 then (current + 1) % count else current
  }

  function SkipTimes(current: nat, count: nat, times: nat): nat {
    if times == 0 then current else Skip(SkipTimes(current, count, times - 1), count)
  }

  /** Skipping `k <= count - current` times from a valid index moves `k` places, wrapping once at the end. */
  lemma {:induction false} SkipTimesAdvances(current: nat, count: nat, k: nat)
    requires current < count && k <= count
    ensures SkipTimes(current, count, k) == if current + k < count then current + k else current + k - count
  {
    if k > 0 {
      SkipTimesAdvances(current, count, k - 1);
    }
  }

  /** Skipping as many times as there are tracks comes back to the track one started on. */
  lemma SkipCycles(current: nat, count: nat)
    requires current < count
    ensures SkipTimes(current, count, count) == current
    ensures forall k :: 0 < k < count ==> SkipTimes(current, count, k) != current
  {
    SkipTimesAdvances(current, count, count);
    forall k | 0 < k < count ensures SkipTimes(current, count, k) != current {
      SkipTimesAdvances(current, count, k);
    }
  }

  /**
   * `handleAddToPlaylist`: nothing without a current track; otherwise the
   * playlist dialogue for that track's id.
   */
  method HandleAddToPlaylist(current: Value, playlists: seq<PlaylistView>, selection: Selection, namePrompt: Option<string>)
    returns (action: PlaylistAction)
    ensures !Truthy(current) ==> action == NoAction
    ensures Truthy(current) ==> action == ChooseAction(Get(current, "id"), playlists, selection, namePrompt)
  {
    if !Truthy(current) {
      return NoAction;
    }
    action := RunDialogue(Get(current, "id"), playlists, selection, namePrompt);
  }

  /** What posting a comment dispatches. */
  datatype CommentAction =
    | NoPost
    | UpdateComment(commentId: Value, text: string)  // thunkUpdateComment(editingCommentId, commentText)
    | CreateComment(trackId: Value, text: string)    // thunkCreateComment(currentTrack.id, commentText)

  /** The comment box: the text typed so far and the id of the comment being edited, if any. */
  class CommentComposer {
    var editingCommentId: Value
    var text: string

    constructor()
      ensures editingCommentId == Null && text == ""
    {
      editingCommentId := Null;
      text := "";
    }

    /** `handleEditComment`: load a comment's id and text into the box. */
    method Edit(commentId: Value, commentText: string)
      modifies this
      ensures editingCommentId == commentId && text == commentText
    {
      editingCommentId := commentId;
      text := commentText;
    }

    /**
     * `handlePostComment`: with a current track and non-blank text, update
     * the comment being edited (and stop editing) or create one on the
     * current track, then empty the box; otherwise nothing changes.
     */
    method Post(current: Value) returns (action: CommentAction)
      modifies this
      ensures !Truthy(current) || Blank(old(text)) ==> action == NoPost && unchanged(this)
      ensures Truthy(current) && !Blank(old(text)) && Truthy(old(editingCommentId)) ==>
        action == UpdateComment(old(editingCommentId), old(text)) && editingCommentId == Null && text == ""
      ensures Truthy(current) && !Blank(old(text)) && !Truthy(old(editingCommentId)) ==>
        action == CreateComment(Get(current, "id"), old(text)) && editingCommentId == old(editingCommentId) && text == ""
      ensures action != NoPost ==> action.text != ""
    {
      if !Truthy(current) || Blank(text) {
        return NoPost;
      }
      if Truthy(editingCommentId) {
        action := UpdateComment(editingCommentId, text);
        editingCommentId := Null;
      } else {
        action := CreateComment(Get(current, "id"), text);
      }
      text := "";
    }
  }

  /** `comment.track_id === currentTrack.id` */
  predicate OnTrack(comment: Value, current: Value) {
    StrictEquals(Get(comment, "track_id"), Get(current, "id"))
  }

  /**
   * `comments.filter(c => currentTrack && c.track_id === currentTrack.id)`:
   * `None` when reading `track_id` of a null or undefined entry throws.
   */
  function CurrentTrackComments(comments: seq<Value>, current: Value): Option<seq<Value>> {
    if comments == [] then Some([])
    else if !Truthy(current) then CurrentTrackComments(comments[1..], current)
    else if Nullish(comments[0]) then None
    else
      match CurrentTrackComments(comments[1..], current)
      case None => None
      case Some(rest) => Some(if OnTrack(comments[0], current) then [comments[0]] + rest else rest)
  }

  /**
   * Without a current track nothing is shown; with one, the list is shown
   * exactly when no entry is null or undefined, and then holds exactly the
   * comments on that track, each as many times as the list holds it.
   */
  lemma {:induction false} CurrentTrackCommentsMeaning(comments: seq<Value>, current: Value)
    ensures !Truthy(current) ==> CurrentTrackComments(comments, current) == Some([])
    ensures Truthy(current) ==>
      (CurrentTrackComments(comments, current).Some? <==> forall i :: 0 <= i < |comments| ==> !Nullish(comments[i]))
    ensures CurrentTrackComments(comments, current).Some? ==>
      var shown := CurrentTrackComments(comments, current).value;
      && |shown| <= |comments|
      && (forall c :: c in shown <==> c in comments && Truthy(current) && OnTrack(c, current))
      && (forall c :: OnTrack(c, current) && Truthy(current) ==> multiset(shown)[c] == multiset(comments)[c])
  {
    if comments != [] {
      var tail := comments[1..];
      CurrentTrackCommentsMeaning(tail, current);
      assert comments == [comments[0]] + tail;
      if Truthy(current) && CurrentTrackComments(comments, current).None? && !Nullish(comments[0]) {
        var i :| 0 <= i < |tail| && Nullish(tail[i]);
        assert comments[i + 1] == tail[i];
      }
      if Truthy(current) && CurrentTrackComments(comments, current).Some? {
        forall i | 0 <= i < |comments| ensures !Nullish(comments[i]) {
          if i > 0 { assert comments[i] == tail[i - 1]; }
        }
      }
    }
  }
}
