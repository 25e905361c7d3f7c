/**
 * The `playlists` slice of the client store and the thunks that feed it
 * (react-vite/src/redux/playlists.js). The slice maps each playlist's id to
 * the playlist object the server returned.
 */
module PlaylistsStore {
  import opened Wrappers
  import opened Js
  import opened EntityStore

  datatype Action =
    | LoadPlaylists(payload: Value)
    | AddPlaylist(payload: Value)
    | UpdatePlaylist(payload: Value)
    | AddTrackToPlaylist(payload: Value)
    | RemovePlaylist(playlistId: Value)
    | OtherAction

  /** The reducer's envelope choice: `payload?.data?.playlists || payload?.playlists || payload || []`. */
  function Envelope(payload: Value): Value {
    Or(Get(Get(payload, "data"), "playlists"), Or(Get(payload, "playlists"), Or(payload, Arr([]))))
  }

  /** The list LOAD keys: the envelope's content, or its `Object.values` when it is not an array. */
  function LoadedList(payload: Value): seq<Value> {
    var playlists := Envelope(payload);
    if playlists.Arr? then playlists.items else ObjectValues(playlists)
  }

  /** The playlist an upsert stores: `payload?.data || payload`. */
  function Unwrapped(payload: Value): Value {
    Or(Get(payload, "data"), payload)
  }

  /** `playlistsReducer`; `None` when the reducer throws a TypeError. */
  method Reduce(state: State, action: Action) returns (r: Option<State>)
    ensures action.LoadPlaylists? ==> r == Assigned(map[], LoadedList(action.payload))
    ensures action.LoadPlaylists? ==>
      (r.Some? <==> Keyable(LoadedList(action.payload))) &&
      (r.Some? ==> r.value.Keys == IdsOf(LoadedList(action.payload)))
    ensures action.AddPlaylist? || action.UpdatePlaylist? || action.AddTrackToPlaylist? ==>
      r == Upsert(state, Unwrapped(action.payload))
    ensures action.RemovePlaylist? ==>
      r.Some? && r.value.Keys == state.Keys - {PropertyKey(action.playlistId)} &&
      (forall k :: k in r.value ==> r.value[k] == state[k])
    ensures action.RemovePlaylist? && PropertyKey(action.playlistId) !in state ==> r == Some(state)
    ensures action.OtherAction? ==> r == Some(state)
  {
    if action.LoadPlaylists? {
      var playlists := Envelope(action.payload);
      var playlistsArray := if playlists.Arr? then playlists.items else ObjectValues(playlists);
      AssignedFacts(map[], playlistsArray);
      r := FillKeyed(map[], playlistsArray);
    } else if action.AddPlaylist? || action.UpdatePlaylist? || action.AddTrackToPlaylist? {
      r := Upsert(state, Unwrapped(action.payload));
    } else if action.RemovePlaylist? {
      var newState := RemoveKey(state, PropertyKey(action.playlistId));
      r := Some(newState);
    } else {
      r := Some(state);
    }
  }

  /**
   * The three envelopes the server has used for a playlist list,
   * `{data: {playlists: L}}`, `{playlists: L}` and a bare `L`, all load `L`.
   */
  lemma EnvelopeShapesAgree(list: seq<Value>)
    ensures LoadedList(Obj([Member("data", Obj([Member("playlists", Arr(list))]))])) == list
    ensures LoadedList(Obj([Member("playlists", Arr(list))])) == list
    ensures LoadedList(Arr(list)) == list
  {
  }

  /** A payload that is a plain object without a truthy `data.playlists` or `playlists` loads its values. */
  lemma ObjectPayloadLoadsValues(members: seq<Member>)
    requires !Truthy(Get(Get(Obj(members), "data"), "playlists"))
    requires !Truthy(Lookup(members, "playlists"))
    ensures |LoadedList(Obj(members))| == |members|
    ensures forall i :: 0 <= i < |members| ==> LoadedList(Obj(members))[i] == members[i].value
  {
  }

  /** What `thunkFetchPlaylists` dispatches: `data.data?.playlists || data.playlists || data.data || data`. */
  function FetchPayload(data: Value): Value
    requires !Nullish(data)
  {
    Or(Get(Get(data, "data"), "playlists"), Or(Get(data, "playlists"), Or(Get(data, "data"), data)))
  }

  /**
   * `thunkFetchPlaylists`. Every failure (a non-ok status, a null body, a
   * reducer that throws) is caught and logged: the promise resolves with
   * `undefined` and the slice is untouched.
   */
  method ThunkFetchPlaylists(state: State, response: Response) returns (run: Run)
    ensures response.ok && !Nullish(response.body) &&
            Assigned(map[], LoadedList(FetchPayload(response.body))).Some? ==>
      run == Run(Assigned(map[], LoadedList(FetchPayload(response.body))).value, Resolves(response.body))
    ensures !(response.ok && !Nullish(response.body) &&
              Assigned(map[], LoadedList(FetchPayload(response.body))).Some?) ==>
      run == Run(state, Resolves(Undefined))
  {
    if !response.ok {
      return Run(state, Resolves(Undefined));
    }
    var data := response.body;
    if Nullish(data) {
      return Run(state, Resolves(Undefined));
    }
    var next := Reduce(state, LoadPlaylists(FetchPayload(data)));
    if next.None? {
      return Run(state, Resolves(Undefined));
    }
    run := Run(next.value, Resolves(data));
  }

  /** Through the thunk as well, the three envelopes of the same list load the same slice. */
  lemma FetchEnvelopesAgree(list: seq<Value>)
    ensures LoadedList(FetchPayload(Obj([Member("data", Obj([Member("playlists", Arr(list))]))]))) == list
    ensures LoadedList(FetchPayload(Obj([Member("playlists", Arr(list))]))) == list
    ensures LoadedList(FetchPayload(Arr(list))) == list
  {
  }

  /**
   * The shared body of `thunkCreatePlaylist`, `thunkAddTrackToPlaylist` and
   * `thunkDeleteTrackFromPlaylist`: on an ok response, upsert
   * `body.data || body` and resolve with the body; any failure is caught,
   * logged, and leaves the slice untouched.
   */
  method UpsertFromResponse(state: State, response: Response, action: Value -> Action) returns (run: Run)
    requires forall v :: action(v) == AddPlaylist(v) || action(v) == UpdatePlaylist(v) || action(v) == AddTrackToPlaylist(v)
    ensures response.ok && !Nullish(response.body) && Upsert(state, Unwrapped(Unwrapped(response.body))).Some? ==>
      run == Run(Upsert(state, Unwrapped(Unwrapped(response.body))).value, Resolves(response.body))
    ensures !(response.ok && !Nullish(response.body) && Upsert(state, Unwrapped(Unwrapped(response.body))).Some?) ==>
      run == Run(state, Resolves(Undefined))
  {
    if !response.ok || Nullish(response.body) {
      return Run(state, Resolves(Undefined));
    }
    var playlist := Or(Get(response.body, "data"), response.body);
    var next := Reduce(state, action(playlist));
    if next.None? {
      return Run(state, Resolves(Undefined));
    }
    run := Run(next.value, Resolves(response.body));
  }

  /** `thunkCreatePlaylist`: the created playlist is stored at its id on an ok response. */
  method ThunkCreatePlaylist(state: State, response: Response) returns (run: Run)
    ensures response.ok && !Nullish(response.body) && !Nullish(Unwrapped(Unwrapped(response.body))) ==>
      var p := Unwrapped(Unwrapped(response.body));
      run.settled == Resolves(response.body) && KeyOf(p) in run.state && run.state[KeyOf(p)] == p &&
      forall k :: k != KeyOf(p) ==> (k in run.state <==> k in state) && (k in state ==> run.state[k] == state[k])
    ensures !(response.ok && !Nullish(response.body) && !Nullish(Unwrapped(Unwrapped(response.body)))) ==>
      run == Run(state, Resolves(Undefined))
  {
    run := UpsertFromResponse(state, response, v => AddPlaylist(v));
  }

  /** `thunkAddTrackToPlaylist`: the returned playlist replaces the cached one on an ok response. */
  method ThunkAddTrackToPlaylist(state: State, response: Response) returns (run: Run)
    ensures response.ok && !Nullish(response.body) && !Nullish(Unwrapped(Unwrapped(response.body))) ==>
      var p := Unwrapped(Unwrapped(response.body));
      run.settled == Resolves(response.body) && KeyOf(p) in run.state && run.state[KeyOf(p)] == p &&
      forall k :: k != KeyOf(p) ==> (k in run.state <==> k in state) && (k in state ==> run.state[k] == state[k])
    ensures !(response.ok && !Nullish(response.body) && !Nullish(Unwrapped(Unwrapped(response.body)))) ==>
      run == Run(state, Resolves(Undefined))
  {
    run := UpsertFromResponse(state, response, v => AddTrackToPlaylist(v));
  }

  /** `thunkDeleteTrackFromPlaylist`: the returned playlist replaces the cached one on an ok response. */
  method ThunkDeleteTrackFromPlaylist(state: State, response: Response) returns (run: Run)
    ensures response.ok && !Nullish(response.body) && !Nullish(Unwrapped(Unwrapped(response.body))) ==>
      var p := Unwrapped(Unwrapped(response.body));
      run.settled == Resolves(response.body) && KeyOf(p) in run.state && run.state[KeyOf(p)] == p &&
      forall k :: k != KeyOf(p) ==> (k in run.state <==> k in state) && (k in state ==> run.state[k] == state[k])
    ensures !(response.ok && !Nullish(response.body) && !Nullish(Unwrapped(Unwrapped(response.body)))) ==>
      run == Run(state, Resolves(Undefined))
  {
    run := UpsertFromResponse(state, response, v => UpdatePlaylist(v));
  }

  /**
   * `thunkDeletePlaylist`: on an ok status the playlist's key is removed and
   * the promise resolves with `{success: true}`; otherwise it resolves with
   * `{success: false, error}` and the slice is untouched.
   */
  method ThunkDeletePlaylist(state: State, playlistId: Value, ok: bool) returns (run: Run)
    ensures ok ==> run.settled == Resolves(Obj([Member("success", Bool(true))]))
    ensures ok ==> run.state.Keys == state.Keys - {PropertyKey(playlistId)} &&
                   forall k :: k in run.state ==> run.state[k] == state[k]
    ensures !ok ==> run == Run(state, ResolvesFailure)
  {
    if !ok {
      return Run(state, ResolvesFailure);
    }
    var next := Reduce(state, RemovePlaylist(playlistId));
    run := Run(next.value, Resolves(Obj([Member("success", Bool(true))])));
  }
}
