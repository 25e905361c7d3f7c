/**
 * The signed-in user's home page: besides the upload form and the playlist
 * dialogue it shares with the main page, it edits a track's title, genre
 * and duration in place.
 */
module HomePage {
  import opened Js

  /** The `FormData` of `thunkUpdateTrack(trackId, formData)`: each field as text. */
  datatype EditRequest = EditRequest(trackId: Value, title: string, genre: string, duration: string)

  /** `formData.append(key, v)` stores `String(v)`. */
  function FormText(v: Value): string {
    ToJsString(v)
  }

  /** The inline editor: which track is being edited and the three inputs' values. */
  class TrackEditor {
    var editingTrackId: Value
    var title: Value
    var genre: Value
    var duration: Value

    /** No track is being edited and the inputs are empty. */
    predicate Idle()
      reads this
    {
      editingTrackId == Null && title == Str("") && genre == Str("") && duration == Str("")
    }

    constructor()
      ensures Idle()
    {
      editingTrackId := Null;
      title := Str("");
      genre := Str("");
      duration := Str("");
    }

    /** `startEditing(track)`: copy the track's id, title, genre and duration into the editor. */
    method StartEditing(track: Value)
      requires !Nullish(track)
      modifies this
      ensures editingTrackId == Get(track, "id")
      ensures title == Get(track, "title") && genre == Get(track, "genre") && duration == Get(track, "duration")
    {
      editingTrackId := Get(track, "id");
      title := Get(track, "title");
      genre := Get(track, "genre");
      duration := Get(track, "duration");
    }

    /** `cancelEditing`: back to idle. */
    method CancelEditing()
      modifies this
      ensures Idle()
    {
      editingTrackId := Null;
      title := Str("");
      genre := Str("");
      duration := Str("");
    }

    /**
     * `handleUpdate(trackId)`: send the three inputs as text, then stop
     * editing. An input still holding a track's null genre or duration is
     * sent as the text "null".
     */
    method SubmitUpdate(trackId: Value) returns (request: EditRequest)
      modifies this
      ensures request == EditRequest(trackId, FormText(old(title)), FormText(old(genre)), FormText(old(duration)))
      ensures old(genre) == Null ==> request.genre == "null"
      ensures Idle()
    {
      request := EditRequest(trackId, FormText(title), FormText(genre), FormText(duration));
      CancelEditing();
    }
  }
}
