/**
 * The `likes` slice (react-vite/src/redux/likes.js): the set of track ids the
 * user has liked, held as an object whose every value is `true`.
 */
module LikesStore {
  import opened Js
  import opened EntityStore

  datatype Action =
    | AddLike(trackId: Value)
    | RemoveLike(trackId: Value)
    | OtherAction

  /** The slice's invariant: it stores nothing but `true`. */
  predicate OnlyTrue(state: State) {
    forall k :: k in state ==> state[k] == Bool(true)
  }

  /** The track ids the slice marks as liked. */
  function Liked(state: State): set<string> {
    set k | k in state && state[k] == Bool(true)
  }

  /** `{ ...state, [trackId]: true }` */
  function WithLike(state: State, trackId: Value): (r: State)
    ensures r.Keys == state.Keys + {PropertyKey(trackId)}
    ensures Liked(r) == Liked(state) + {PropertyKey(trackId)}
    ensures OnlyTrue(state) ==> OnlyTrue(r)
  {
    state[PropertyKey(trackId) := Bool(true)]
  }

  /** `likesReducer`; it never throws, since any value can serve as a key. */
  method Reduce(state: State, action: Action) returns (r: State)
    ensures action.AddLike? ==> r == WithLike(state, action.trackId)
    ensures action.RemoveLike? ==> r == state - {PropertyKey(action.trackId)}
    ensures action.RemoveLike? ==> Liked(r) == Liked(state) - {PropertyKey(action.trackId)}
    ensures action.OtherAction? ==> r == state
    ensures OnlyTrue(state) ==> OnlyTrue(r)
  {
    if action.AddLike? {
      r := WithLike(state, action.trackId);
    } else if action.RemoveLike? {
      r := RemoveKey(state, PropertyKey(action.trackId));
      assert r == state - {PropertyKey(action.trackId)};
    } else {
      r := state;
    }
  }

  /** Liking an already-liked track changes nothing. */
  lemma AddLikeIdempotent(state: State, trackId: Value)
    ensures WithLike(WithLike(state, trackId), trackId) == WithLike(state, trackId)
  {
  }

  /** Unliking a track that was not liked before the like restores the original slice. */
  lemma UnlikeUndoesLike(state: State, trackId: Value)
    requires PropertyKey(trackId) !in state
    ensures WithLike(state, trackId) - {PropertyKey(trackId)} == state
  {
    assert (WithLike(state, trackId) - {PropertyKey(trackId)}).Keys == state.Keys;
  }

  /**
   * `thunkLikeTrack`: on an ok response the track is marked liked and the
   * promise resolves with the response itself; otherwise it resolves with
   * the parsed error body and the slice is untouched.
   */
  method ThunkLikeTrack(state: State, trackId: Value, response: Response) returns (run: Run)
    ensures response.ok ==> run == Run(WithLike(state, trackId), ResolvesResponse)
    ensures !response.ok ==> run == Run(state, Resolves(response.body))
  {
    if response.ok {
      var next := Reduce(state, AddLike(trackId));
      return Run(next, ResolvesResponse);
    }
    var error := response.body;
    run := Run(state, Resolves(error));
  }

  /**
   * `thunkUnlikeTrack`: on an ok response the track id is dropped; otherwise
   * the promise resolves with the parsed error body and the slice is untouched.
   */
  method ThunkUnlikeTrack(state: State, trackId: Value, response: Response) returns (run: Run)
    ensures response.ok ==> run == Run(state - {PropertyKey(trackId)}, ResolvesResponse)
    ensures !response.ok ==> run == Run(state, Resolves(response.body))
  {
    if response.ok {
      var next := Reduce(state, RemoveLike(trackId));
      return Run(next, ResolvesResponse);
    }
    var error := response.body;
    run := Run(state, Resolves(error));
  }
}
