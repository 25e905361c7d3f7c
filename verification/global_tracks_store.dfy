/**
 * The `globalTracks` slice (react-vite/src/redux/globalTracks.js): the feed
 * page of tracks, keyed by id and replaced wholesale by each LOAD.
 */
module GlobalTracksStore {
  import opened Wrappers
  import opened Js
  import opened EntityStore

  datatype Action =
    | LoadGlobalTracks(payload: Value)
    | AddGlobalTrack(payload: Value)
    | UpdateGlobalTrack(payload: Value)
    | RemoveGlobalTrack(trackId: Value)
    | OtherAction

  /**
   * `globalTracksReducer`; `None` when it throws. LOAD's result does not
   * depend on the prior state, so loading the same list twice gives the same
   * map as loading it once.
   */
  method Reduce(state: State, action: Action) returns (r: Option<State>)
    ensures action.LoadGlobalTracks? ==>
      r == (if action.payload.Arr? then Assigned(map[], action.payload.items) else None)
    ensures action.LoadGlobalTracks? ==> (r.Some? <==> action.payload.Arr? && Keyable(action.payload.items))
    ensures action.LoadGlobalTracks? && r.Some? ==>
      && r.value.Keys == IdsOf(action.payload.items)
      && (forall i :: 0 <= i < |action.payload.items| && LastOfKey(action.payload.items, i) ==>
            r.value[KeyOf(action.payload.items[i])] == action.payload.items[i])
    ensures action.AddGlobalTrack? || action.UpdateGlobalTrack? ==> r == Upsert(state, action.payload)
    ensures action.RemoveGlobalTrack? ==>
      r.Some? && r.value.Keys == state.Keys - {PropertyKey(action.trackId)} &&
      (forall k :: k in r.value ==> r.value[k] == state[k])
    ensures action.RemoveGlobalTrack? && PropertyKey(action.trackId) !in state ==> r == Some(state)
    ensures action.OtherAction? ==> r == Some(state)
  {
    if action.LoadGlobalTracks? {
      if !action.payload.Arr? {
        return None;
      }
      AssignedFacts(map[], action.payload.items);
      r := FillKeyed(map[], action.payload.items);
    } else if action.AddGlobalTrack? || action.UpdateGlobalTrack? {
      r := Upsert(state, action.payload);
    } else if action.RemoveGlobalTrack? {
      var newState := RemoveKey(state, PropertyKey(action.trackId));
      r := Some(newState);
    } else {
      r := Some(state);
    }
  }

  /**
   * `thunkFetchGlobalTracks`: on an ok response LOAD is dispatched with
   * `responseData.data.tracks` and the promise resolves with the body; a
   * non-ok response changes nothing. A body without `data`, or whose
   * `data.tracks` is not a list of objects, makes the promise reject.
   */
  method ThunkFetchGlobalTracks(state: State, response: Response) returns (run: Run)
    ensures !response.ok ==> run == Run(state, Resolves(Undefined))
    ensures response.ok && !Nullish(response.body) && !Nullish(Get(response.body, "data")) &&
            Get(Get(response.body, "data"), "tracks").Arr? &&
            Assigned(map[], Get(Get(response.body, "data"), "tracks").items).Some? ==>
      run == Run(Assigned(map[], Get(Get(response.body, "data"), "tracks").items).value, Resolves(response.body))
    ensures response.ok && !(!Nullish(response.body) && !Nullish(Get(response.body, "data")) &&
                             Get(Get(response.body, "data"), "tracks").Arr? &&
                             Assigned(map[], Get(Get(response.body, "data"), "tracks").items).Some?) ==>
      run == Run(state, Rejects)
  {
    if !response.ok {
      return Run(state, Resolves(Undefined));
    }
    var responseData := response.body;
    var data := Read(responseData, "data");
    if data.None? {
      return Run(state, Rejects);
    }
    var tracks := Read(data.value, "tracks");
    if tracks.None? {
      return Run(state, Rejects);
    }
    var next := Reduce(state, LoadGlobalTracks(tracks.value));
    if next.None? {
      return Run(state, Rejects);
    }
    run := Run(next.value, Resolves(responseData));
  }

  /**
   * `thunkFetchGlobalTracks` reading the list where the feed puts it,
   * `responseData.tracks`: an ok reply of the feed loads its page.
   */
  method ThunkFetchGlobalTracksFromFeed(state: State, response: Response) returns (run: Run)
    ensures !response.ok ==> run == Run(state, Resolves(Undefined))
    ensures response.ok && !Nullish(response.body) && Get(response.body, "tracks").Arr? &&
            Assigned(map[], Get(response.body, "tracks").items).Some? ==>
      run == Run(Assigned(map[], Get(response.body, "tracks").items).value, Resolves(response.body))
    ensures response.ok && !(!Nullish(response.body) && Get(response.body, "tracks").Arr? &&
                             Assigned(map[], Get(response.body, "tracks").items).Some?) ==>
      run == Run(state, Rejects)
  {
    if !response.ok {
      return Run(state, Resolves(Undefined));
    }
    var responseData := response.body;
    var tracks := Read(responseData, "tracks");
    if tracks.None? {
      return Run(state, Rejects);
    }
    var next := Reduce(state, LoadGlobalTracks(tracks.value));
    if next.None? {
      return Run(state, Rejects);
    }
    run := Run(next.value, Resolves(responseData));
  }
}
