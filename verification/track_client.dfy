/**
 * Uploading a track, end to end: `POST /api/tracks/` (app/api/track_routes.py)
 * answers 201 with the bare `to_dict()` of the new track, while the
 * `thunkCreateTrack` of both track slices reads `responseData.data`.
 */
module TrackClient {
  import opened Wrappers
  import opened Js
  import opened Text
  import opened EntityStore
  import opened Py
  import opened Models
  import UserTracksStore
  import TracksStore

  /**
   * `members` is the object the client parses from `jsonify(d)`: the same
   * keys, once each, and the integer `id` carried over.
   */
  predicate ParsedFrom(members: seq<Member>, d: PyValue) {
    && d.PyDict?
    && (forall i :: 0 <= i < |members| ==> members[i].key in d.entries)
    && (forall k :: k in d.entries ==> exists i :: 0 <= i < |members| && members[i].key == k)
    && (forall i, j :: 0 <= i < j < |members| ==> members[i].key != members[j].key)
    && ("id" in d.entries && d.entries["id"].PyInt? ==> Lookup(members, "id") == Num(d.entries["id"].i))
  }

  /** A created track's reply has no `data` member, and its key in a store is its id. */
  lemma TrackReplyShape(t: Track, members: seq<Member>)
    requires ParsedFrom(members, TrackToDict(t))
    ensures Get(Obj(members), "data") == Undefined
    ensures KeyOf(Obj(members)) == IntToString(t.id)
  {
    assert "data" !in TrackKeys;
  }

  /** As written, an upload the server accepted rejects in both slices and stores nothing. */
  method UploadAsWritten(userTracks: State, tracks: State, t: Track, members: seq<Member>)
    returns (userRun: Run, tracksRun: Run)
    requires ParsedFrom(members, TrackToDict(t))
    ensures userRun == Run(userTracks, Rejects)
    ensures tracksRun == Run(tracks, Rejects)
  {
    TrackReplyShape(t, members);
    userRun := UserTracksStore.ThunkCreateTrack(userTracks, Response(true, Obj(members)));
    tracksRun := TracksStore.ThunkCreateTrack(tracks, Response(true, Obj(members)));
  }

  /**
   * Reading the reply itself, an accepted upload is stored in both slices
   * under the new track's id, and nothing else in them changes.
   */
  method Upload(userTracks: State, tracks: State, t: Track, members: seq<Member>)
    returns (userRun: Run, tracksRun: Run)
    requires ParsedFrom(members, TrackToDict(t))
    ensures userRun.settled == Resolves(Obj(members)) && tracksRun.settled == Resolves(Obj(members))
    ensures userRun.state == userTracks[IntToString(t.id) := Obj(members)]
    ensures tracksRun.state == tracks[IntToString(t.id) := Obj(members)]
  {
    TrackReplyShape(t, members);
    userRun := UserTracksStore.ThunkCreateTrackFromReply(userTracks, Response(true, Obj(members)));
    tracksRun := TracksStore.ThunkCreateTrackFromReply(tracks, Response(true, Obj(members)));
  }
}
