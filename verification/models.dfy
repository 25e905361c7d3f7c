/**
 * The server's records (the files under app/models) and their `to_dict` serialisers.
 * A playlist's `tracks` relationship is held as the ordered list of the
 * track ids in its `playlist_tracks` rows.
 */
module Models {
  import opened Wrappers
  import opened Py

  /** A `tracks` row: title, audio_url and user_id are NOT NULL; duration and genre may be NULL. */
  datatype Track = Track(
    id: int, title: string, audioUrl: string, userId: int,
    duration: Option<int>, genre: Option<string>, createdAt: DateTime)

  /** A `playlists` row with its `playlist_tracks` rows. */
  datatype Playlist = Playlist(id: int, name: string, userId: int, createdAt: DateTime, trackIds: seq<int>)

  /** A `comments` row; `created_at` may be NULL. */
  datatype Comment = Comment(id: int, text: string, userId: int, trackId: int, createdAt: Option<DateTime>)

  /** A `likes` row: no surrogate id; (user_id, track_id) is its identity. */
  datatype Like = Like(userId: int, trackId: int, createdAt: DateTime)

  function IntOrNone(v: Option<int>): (r: PyValue)
    ensures v.None? <==> r == PyNone
    ensures v.Some? ==> r == PyInt(v.value)
  {
    if v.Some? then PyInt(v.value) else PyNone
  }

  function StrOrNone(v: Option<string>): (r: PyValue)
    ensures v.None? <==> r == PyNone
    ensures v.Some? ==> r == PyStr(v.value)
  {
    if v.Some? then PyStr(v.value) else PyNone
  }

  const TrackKeys: set<string> := {"id", "title", "audio_url", "user_id", "duration", "genre", "created_at"}

  /** `Track.to_dict`: the seven columns and nothing else; `created_at` stays a datetime. */
  function TrackToDict(t: Track): (d: PyValue)
    ensures d.PyDict? && d.entries.Keys == TrackKeys
    ensures d.entries["id"] == PyInt(t.id) && d.entries["user_id"] == PyInt(t.userId)
    ensures d.entries["title"] == PyStr(t.title) && d.entries["audio_url"] == PyStr(t.audioUrl)
    ensures d.entries["duration"] == PyNone <==> t.duration.None?
    ensures d.entries["genre"] == PyNone <==> t.genre.None?
    ensures t.duration.Some? ==> d.entries["duration"] == PyInt(t.duration.value)
    ensures t.genre.Some? ==> d.entries["genre"] == PyStr(t.genre.value)
    ensures d.entries["created_at"] == PyDateTime(t.createdAt)
  {
    PyDict(map[
      "id" := PyInt(t.id),
      "title" := PyStr(t.title),
      "audio_url" := PyStr(t.audioUrl),
      "user_id" := PyInt(t.userId),
      "duration" := IntOrNone(t.duration),
      "genre" := StrOrNone(t.genre),
      "created_at" := PyDateTime(t.createdAt)])
  }

  /** Distinct tracks serialise to distinct dicts: `to_dict` loses nothing. */
  lemma TrackToDictInjective(a: Track, b: Track)
    requires TrackToDict(a) == TrackToDict(b)
    ensures a == b
  {
    var da, db := TrackToDict(a).entries, TrackToDict(b).entries;
    assert da["duration"] == db["duration"] && da["genre"] == db["genre"];
    if a.duration.Some? {
      assert da["duration"] == PyInt(a.duration.value);
    }
    if a.genre.Some? {
      assert da["genre"] == PyStr(a.genre.value);
    }
  }

  /** `[track.to_dict() for track in tracks]` */
  function TrackDicts(tracks: seq<Track>): (r: seq<PyValue>)
    ensures |r| == |tracks|
    ensures forall i :: 0 <= i < |r| ==> r[i] == TrackToDict(tracks[i])
  {
    seq(|tracks|, i requires 0 <= i < |tracks| => TrackToDict(tracks[i]))
  }

  const PlaylistKeys: set<string> := {"id", "name", "user_id", "created_at", "tracks"}

  /** `Playlist.to_dict`, given the playlist's track rows in relationship order. */
  function PlaylistToDict(p: Playlist, tracks: seq<Track>): (d: PyValue)
    ensures d.PyDict? && d.entries.Keys == PlaylistKeys
    ensures d.entries["id"] == PyInt(p.id) && d.entries["name"] == PyStr(p.name)
    ensures d.entries["user_id"] == PyInt(p.userId) && d.entries["created_at"] == PyDateTime(p.createdAt)
    ensures d.entries["tracks"].PyList? && |d.entries["tracks"].items| == |tracks|
    ensures forall i :: 0 <= i < |tracks| ==> d.entries["tracks"].items[i] == TrackToDict(tracks[i])
  {
    PyDict(map[
      "id" := PyInt(p.id),
      "name" := PyStr(p.name),
      "user_id" := PyInt(p.userId),
      "created_at" := PyDateTime(p.createdAt),
      "tracks" := PyList(TrackDicts(tracks))])
  }

  const LikeKeys: set<string> := {"user_id", "track_id", "created_at"}

  /** `Like.to_dict` */
  function LikeToDict(l: Like): (d: PyValue)
    ensures d.PyDict? && d.entries.Keys == LikeKeys
    ensures d.entries["user_id"] == PyInt(l.userId) && d.entries["track_id"] == PyInt(l.trackId)
    ensures d.entries["created_at"] == PyDateTime(l.createdAt)
  {
    PyDict(map["user_id" := PyInt(l.userId), "track_id" := PyInt(l.trackId), "created_at" := PyDateTime(l.createdAt)])
  }

  const CommentKeys: set<string> := {"id", "text", "user_id", "track_id", "created_at"}

  /**
   * `Comment.to_dict`: `created_at` as an ISO-8601 string when set, `None`
   * otherwise; `Py.IsoFormatRoundTrip` shows the string keeps the whole stamp.
   */
  function CommentToDict(c: Comment): (d: PyValue)
    ensures d.PyDict? && d.entries.Keys == CommentKeys
    ensures d.entries["id"] == PyInt(c.id) && d.entries["text"] == PyStr(c.text)
    ensures d.entries["user_id"] == PyInt(c.userId) && d.entries["track_id"] == PyInt(c.trackId)
    ensures c.createdAt.None? ==> d.entries["created_at"] == PyNone
    ensures c.createdAt.Some? ==>
      d.entries["created_at"] == PyStr(IsoFormat(c.createdAt.value)) && IsoShaped(d.entries["created_at"].s)
  {
    PyDict(map[
      "id" := PyInt(c.id),
      "text" := PyStr(c.text),
      "user_id" := PyInt(c.userId),
      "track_id" := PyInt(c.trackId),
      "created_at" := if c.createdAt.Some? then PyStr(IsoFormat(c.createdAt.value)) else PyNone])
  }

  /** `[comment.to_dict() for comment in comments]` */
  function CommentDicts(comments: seq<Comment>): (r: seq<PyValue>)
    ensures |r| == |comments|
    ensures forall i :: 0 <= i < |r| ==> r[i] == CommentToDict(comments[i])
  {
    seq(|comments|, i requires 0 <= i < |comments| => CommentToDict(comments[i]))
  }
}
