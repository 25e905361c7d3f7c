/**
 * The `userTracks` slice (react-vite/src/redux/userTracks.js): the signed-in
 * user's own tracks, keyed by id and replaced wholesale by each LOAD.
 */
module UserTracksStore {
  import opened Wrappers
  import opened Js
  import opened EntityStore

  datatype Action =
    | LoadUserTracks(payload: Value)
    | AddUserTrack(payload: Value)
    | UpdateUserTrack(payload: Value)
    | RemoveUserTrack(trackId: Value)
    | OtherAction

  /** `userTracksReducer`; `None` when it throws. */
  method Reduce(state: State, action: Action) returns (r: Option<State>)
    ensures action.LoadUserTracks? ==>
      r == (if action.payload.Arr? then Assigned(map[], action.payload.items) else None)
    ensures action.LoadUserTracks? ==> (r.Some? <==> action.payload.Arr? && Keyable(action.payload.items))
    ensures action.LoadUserTracks? && r.Some? ==>
      && r.value.Keys == IdsOf(action.payload.items)
      && (forall i :: 0 <= i < |action.payload.items| && LastOfKey(action.payload.items, i) ==>
            r.value[KeyOf(action.payload.items[i])] == action.payload.items[i])
    ensures action.AddUserTrack? || action.UpdateUserTrack? ==> r == Upsert(state, action.payload)
    ensures action.RemoveUserTrack? ==>
      r.Some? && r.value.Keys == state.Keys - {PropertyKey(action.trackId)} &&
      (forall k :: k in r.value ==> r.value[k] == state[k])
    ensures action.RemoveUserTrack? && PropertyKey(action.trackId) !in state ==> r == Some(state)
    ensures action.OtherAction? ==> r == Some(state)
  {
    if action.LoadUserTracks? {
      if !action.payload.Arr? {
        return None;
      }
      AssignedFacts(map[], action.payload.items);
      r := FillKeyed(map[], action.payload.items);
    } else if action.AddUserTrack? || action.UpdateUserTrack? {
      r := Upsert(state, action.payload);
    } else if action.RemoveUserTrack? {
      var newState := RemoveKey(state, PropertyKey(action.trackId));
      r := Some(newState);
    } else {
      r := Some(state);
    }
  }

  /**
   * `thunkCreateTrack`, which does not look at `response.ok`: the body's
   * `data` is stored at its id whatever the status. An error envelope has no
   * `data`, so a failed upload makes the reducer throw and the promise reject.
   */
  method ThunkCreateTrack(state: State, response: Response) returns (run: Run)
    ensures !Nullish(response.body) && !Nullish(Get(response.body, "data")) ==>
      run == Run(Upsert(state, Get(response.body, "data")).value, Resolves(Get(response.body, "data")))
    ensures Nullish(response.body) || Nullish(Get(response.body, "data")) ==> run == Run(state, Rejects)
  {
    var responseData := response.body;
    var newTrack := Read(responseData, "data");
    if newTrack.None? {
      return Run(state, Rejects);
    }
    var next := Reduce(state, AddUserTrack(newTrack.value));
    if next.None? {
      return Run(state, Rejects);
    }
    run := Run(next.value, Resolves(newTrack.value));
  }

  /**
   * `thunkCreateTrack` reading the created track from the body itself, which
   * is what `POST /api/tracks/` replies with, and storing it only on an ok
   * status: the new track is stored at its id.
   */
  method ThunkCreateTrackFromReply(state: State, response: Response) returns (run: Run)
    ensures !response.ok ==> run == Run(state, Resolves(Undefined))
    ensures response.ok && Nullish(response.body) ==> run == Run(state, Rejects)
    ensures response.ok && !Nullish(response.body) ==>
      run == Run(Upsert(state, response.body).value, Resolves(response.body))
  {
    if !response.ok {
      return Run(state, Resolves(Undefined));
    }
    var newTrack := response.body;
    var next := Reduce(state, AddUserTrack(newTrack));
    if next.None? {
      return Run(state, Rejects);
    }
    run := Run(next.value, Resolves(newTrack));
  }

  /** `thunkUpdateTrack`: an ok response replaces the cached track with the body. */
  method ThunkUpdateTrack(state: State, response: Response) returns (run: Run)
    ensures !response.ok ==> run == Run(state, Resolves(Undefined))
    ensures response.ok && Nullish(response.body) ==> run == Run(state, Rejects)
    ensures response.ok && !Nullish(response.body) ==>
      run == Run(Upsert(state, response.body).value, Resolves(response.body))
  {
    if !response.ok {
      return Run(state, Resolves(Undefined));
    }
    var updatedTrack := response.body;
    var next := Reduce(state, UpdateUserTrack(updatedTrack));
    if next.None? {
      return Run(state, Rejects);
    }
    run := Run(next.value, Resolves(updatedTrack));
  }

  /** `thunkFetchUserTracks`: an ok response replaces the slice with `responseData.data.tracks`. */
  method ThunkFetchUserTracks(state: State, response: Response) returns (run: Run)
    ensures !response.ok ==> run == Run(state, Resolves(Undefined))
    ensures response.ok && !Nullish(response.body) && !Nullish(Get(response.body, "data")) &&
            Get(Get(response.body, "data"), "tracks").Arr? &&
            Assigned(map[], Get(Get(response.body, "data"), "tracks").items).Some? ==>
      run == Run(Assigned(map[], Get(Get(response.body, "data"), "tracks").items).value, Resolves(response.body))
    ensures response.ok && !(!Nullish(response.body) && !Nullish(Get(response.body, "data")) &&
                             Get(Get(response.body, "data"), "tracks").Arr? &&
                             Assigned(map[], Get(Get(response.body, "data"), "tracks").items).Some?) ==>
      run == Run(state, Rejects)
  {
    if !response.ok {
      return Run(state, Resolves(Undefined));
    }
    var responseData := response.body;
    var data := Read(responseData, "data");
    if data.None? {
      return Run(state, Rejects);
    }
    var tracks := Read(data.value, "tracks");
    if tracks.None? {
      return Run(state, Rejects);
    }
    var next := Reduce(state, LoadUserTracks(tracks.value));
    if next.None? {
      return Run(state, Rejects);
    }
    run := Run(next.value, Resolves(responseData));
  }

  /** `thunkDeleteTrack`: the key is dropped only on an ok response. */
  method ThunkDeleteTrack(state: State, trackId: Value, ok: bool) returns (run: Run)
    ensures run.settled == Resolves(Undefined)
    ensures ok ==> run.state.Keys == state.Keys - {PropertyKey(trackId)} &&
                   forall k :: k in run.state ==> run.state[k] == state[k]
    ensures !ok ==> run.state == state
  {
    if ok {
      var next := Reduce(state, RemoveUserTrack(trackId));
      return Run(next.value, Resolves(Undefined));
    }
    run := Run(state, Resolves(Undefined));
  }
}
