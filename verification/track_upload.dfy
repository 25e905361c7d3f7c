/**
 * The upload form both pages show: an audio file, a title, a genre and a
 * duration typed as text. Submitting without a file does nothing; otherwise
 * the empty fields fall back to their defaults, the form data goes to
 * `thunkCreateTrack`, and the form is cleared once that thunk has resolved.
 */
module TrackUpload {
  import opened Wrappers

  /** The `FormData` sent to `POST /api/tracks/`; every field is text. */
  datatype UploadRequest = UploadRequest(audioFile: string, title: string, genre: string, duration: string)

  const DefaultTitle := "New Track"
  const DefaultGenre := "Unknown"
  /** `uploadDuration || 180`: the number 180, turned into text by `FormData.append`. */
  const DefaultDuration := "180"

  /** `value || fallback` for a text field */
  function OrDefault(value: string, fallback: string): string {
    if value != "" then value else fallback
  }

  /**
   * The request a submit sends, if any: none without a file; with one, each
   * field keeps the text typed into it, or its default when left empty, so
   * no field is ever empty.
   */
  function UploadFor(file: Option<string>, title: string, genre: string, duration: string): (r: Option<UploadRequest>)
    ensures r.None? <==> file.None?
    ensures r.Some? ==> r.value.audioFile == file.value
    ensures r.Some? ==> r.value.title != "" && r.value.genre != "" && r.value.duration != ""
    ensures r.Some? && title != "" ==> r.value.title == title
    ensures r.Some? && title == "" ==> r.value.title == DefaultTitle
    ensures r.Some? && genre != "" ==> r.value.genre == genre
    ensures r.Some? && genre == "" ==> r.value.genre == DefaultGenre
    ensures r.Some? && duration != "" ==> r.value.duration == duration
    ensures r.Some? && duration == "" ==> r.value.duration == DefaultDuration
  {
    match file
    case None => None
    case Some(f) =>
      Some(UploadRequest(f, OrDefault(title, DefaultTitle), OrDefault(genre, DefaultGenre), OrDefault(duration, DefaultDuration)))
  }

  /** The form's state: the chosen file (by name) and the three text inputs. */
  class UploadForm {
    var file: Option<string>
    var title: string
    var genre: string
    var duration: string

    predicate Cleared()
      reads this
    {
      file.None? && title == "" && genre == "" && duration == ""
    }

    constructor()
      ensures Cleared()
    {
      file := None;
      title := "";
      genre := "";
      duration := "";
    }

    /**
     * `handleUpload`: sends `UploadFor` of the current inputs; the form is
     * cleared after `await dispatch(thunkCreateTrack(...))` only when that
     * promise resolves (`resolved`), since a rejection ends the handler there.
     * Without a file nothing happens.
     */
    method Submit(resolved: bool) returns (request: Option<UploadRequest>)
      modifies this
      ensures request == UploadFor(old(file), old(title), old(genre), old(duration))
      ensures request.Some? && resolved ==> Cleared()
      ensures request.None? || !resolved ==> unchanged(this)
    {
      if file.None? {
        return None;
      }
      request := Some(UploadRequest(file.value, OrDefault(title, DefaultTitle), OrDefault(genre, DefaultGenre),
                                    OrDefault(duration, DefaultDuration)));
      if resolved {
        file := None;
        title := "";
        genre := "";
        duration := "";
      }
    }
  }
}
