/**
 * The `comments` slice (react-vite/src/redux/comments.js): comments keyed by
 * id. Unlike the other slices, LOAD merges into what is already cached, so
 * the comments of several tracks live side by side.
 */
module CommentsStore {
  import opened Wrappers
  import opened Js
  import opened EntityStore

  datatype Action =
    | LoadComments(payload: Value)
    | AddComment(payload: Value)
    | UpdateComment(payload: Value)
    | RemoveComment(commentId: Value)
    | OtherAction

  /**
   * `commentsReducer`; `None` when it throws (a LOAD payload that is not an
   * array has no `forEach`; a null comment has no `id`).
   */
  method Reduce(state: State, action: Action) returns (r: Option<State>)
    ensures action.LoadComments? ==>
      r == (if action.payload.Arr? then Assigned(state, action.payload.items) else None)
    ensures action.LoadComments? ==> (r.Some? <==> action.payload.Arr? && Keyable(action.payload.items))
    ensures action.LoadComments? && r.Some? ==>
      && r.value.Keys == state.Keys + IdsOf(action.payload.items)
      && (forall k :: k in state && k !in IdsOf(action.payload.items) ==> r.value[k] == state[k])
      && (forall i :: 0 <= i < |action.payload.items| && LastOfKey(action.payload.items, i) ==>
            r.value[KeyOf(action.payload.items[i])] == action.payload.items[i])
    ensures action.AddComment? || action.UpdateComment? ==> r == Upsert(state, action.payload)
    ensures action.RemoveComment? ==>
      r.Some? && r.value.Keys == state.Keys - {PropertyKey(action.commentId)} &&
      (forall k :: k in r.value ==> r.value[k] == state[k])
    ensures action.RemoveComment? && PropertyKey(action.commentId) !in state ==> r == Some(state)
    ensures action.OtherAction? ==> r == Some(state)
  {
    if action.LoadComments? {
      if !action.payload.Arr? {
        return None;
      }
      AssignedFacts(state, action.payload.items);
      r := FillKeyed(state, action.payload.items);
    } else if action.AddComment? || action.UpdateComment? {
      r := Upsert(state, action.payload);
    } else if action.RemoveComment? {
      var newState := RemoveKey(state, PropertyKey(action.commentId));
      r := Some(newState);
    } else {
      r := Some(state);
    }
  }

  /** Loading the same list of comments twice leaves what loading it once left. */
  lemma LoadTwiceIsLoadOnce(state: State, comments: seq<Value>)
    requires Keyable(comments)
    ensures Assigned(state, comments).Some?
    ensures Assigned(Assigned(state, comments).value, comments) == Assigned(state, comments)
  {
    AssignedFacts(state, comments);
    AssignedIdempotent(state, comments);
  }

  /**
   * `thunkFetchComments`: on an ok response the body's `comments` list is
   * merged in and the promise resolves with the body; a non-ok response
   * resolves with `undefined` and changes nothing. Nothing is caught, so a
   * body without a comments array makes the promise reject.
   */
  method ThunkFetchComments(state: State, response: Response) returns (run: Run)
    ensures !response.ok ==> run == Run(state, Resolves(Undefined))
    ensures response.ok && !Nullish(response.body) && Get(response.body, "comments").Arr? &&
            Assigned(state, Get(response.body, "comments").items).Some? ==>
      run == Run(Assigned(state, Get(response.body, "comments").items).value, Resolves(response.body))
    ensures response.ok && !(!Nullish(response.body) && Get(response.body, "comments").Arr? &&
                             Assigned(state, Get(response.body, "comments").items).Some?) ==>
      run == Run(state, Rejects)
  {
    if !response.ok {
      return Run(state, Resolves(Undefined));
    }
    var data := response.body;
    var comments := Read(data, "comments");
    if comments.None? {
      return Run(state, Rejects);
    }
    var next := Reduce(state, LoadComments(comments.value));
    if next.None? {
      return Run(state, Rejects);
    }
    run := Run(next.value, Resolves(data));
  }

  /**
   * The shared body of `thunkCreateComment` and `thunkUpdateComment`: on an ok
   * response the returned comment is stored at its id and is what the promise
   * resolves with; a null body makes the reducer throw.
   */
  method StoreReturnedComment(state: State, response: Response, action: Value -> Action) returns (run: Run)
    requires forall v :: action(v) == AddComment(v) || action(v) == UpdateComment(v)
    ensures !response.ok ==> run == Run(state, Resolves(Undefined))
    ensures response.ok && Nullish(response.body) ==> run == Run(state, Rejects)
    ensures response.ok && !Nullish(response.body) ==>
      run == Run(Upsert(state, response.body).value, Resolves(response.body))
  {
    if !response.ok {
      return Run(state, Resolves(Undefined));
    }
    var comment := response.body;
    var next := Reduce(state, action(comment));
    if next.None? {
      return Run(state, Rejects);
    }
    run := Run(next.value, Resolves(comment));
  }

  /** `thunkCreateComment`: an ok response stores the new comment at its id. */
  method ThunkCreateComment(state: State, response: Response) returns (run: Run)
    ensures !response.ok ==> run == Run(state, Resolves(Undefined))
    ensures response.ok && Nullish(response.body) ==> run == Run(state, Rejects)
    ensures response.ok && !Nullish(response.body) ==>
      run.settled == Resolves(response.body) &&
      KeyOf(response.body) in run.state && run.state[KeyOf(response.body)] == response.body &&
      forall k :: k != KeyOf(response.body) ==> (k in run.state <==> k in state) && (k in state ==> run.state[k] == state[k])
  {
    run := StoreReturnedComment(state, response, v => AddComment(v));
  }

  /** `thunkUpdateComment`: an ok response replaces the cached comment wholesale. */
  method ThunkUpdateComment(state: State, response: Response) returns (run: Run)
    ensures !response.ok ==> run == Run(state, Resolves(Undefined))
    ensures response.ok && Nullish(response.body) ==> run == Run(state, Rejects)
    ensures response.ok && !Nullish(response.body) ==>
      run.settled == Resolves(response.body) &&
      KeyOf(response.body) in run.state && run.state[KeyOf(response.body)] == response.body &&
      forall k :: k != KeyOf(response.body) ==> (k in run.state <==> k in state) && (k in state ==> run.state[k] == state[k])
  {
    run := StoreReturnedComment(state, response, v => UpdateComment(v));
  }

  /** `thunkDeleteComment`: the key is dropped only on an ok response. */
  method ThunkDeleteComment(state: State, commentId: Value, ok: bool) returns (run: Run)
    ensures run.settled == Resolves(Undefined)
    ensures ok ==> run.state.Keys == state.Keys - {PropertyKey(commentId)} &&
                   forall k :: k in run.state ==> run.state[k] == state[k]
    ensures !ok ==> run.state == state
  {
    if ok {
      var next := Reduce(state, RemoveComment(commentId));
      return Run(next.value, Resolves(Undefined));
    }
    run := Run(state, Resolves(Undefined));
  }
}
