/**
 * The feed as the two track slices fetch it (react-vite/src/redux/globalTracks.js
 * and react-vite/src/redux/tracks.js against app/api/playlist_routes.py).
 * The feed answers `{tracks, pagination}` with no `data` envelope, while
 * both fetch thunks read `responseData.data.tracks`; and tracks.js appends
 * a '/' to the `sort_by` argument.
 */
module FeedClient {
  import opened Wrappers
  import opened Js
  import opened EntityStore
  import opened Models
  import opened Py
  import opened Db
  import opened Sorting
  import GlobalTracksStore
  import TracksStore
  import FeedRoutes

  /** The feed's JSON body as the client parses it: exactly the keys `tracks` and `pagination`. */
  function FeedBody(tracks: seq<Value>, pagination: Value): (body: Value)
    ensures body.Obj? && Get(body, "data") == Undefined
    ensures Get(body, "tracks") == Arr(tracks) && Get(body, "pagination") == pagination
  {
    var members := [Member("tracks", Arr(tracks)), Member("pagination", pagination)];
    assert members[1..] == [Member("pagination", pagination)];
    assert "tracks"[0] != "pagination"[0] && "tracks"[0] != "data"[0] && "pagination"[0] != "data"[0];
    assert Lookup(members, "pagination") == Lookup(members[1..], "pagination") == pagination;
    Obj(members)
  }

  /** globalTracks.js as written: every ok feed reply makes the fetch reject, and nothing is loaded. */
  method FetchGlobalFeedAsWritten(state: State, tracks: seq<Value>, pagination: Value) returns (run: Run)
    ensures run == Run(state, Rejects)
  {
    run := GlobalTracksStore.ThunkFetchGlobalTracks(state, Response(true, FeedBody(tracks, pagination)));
  }

  /** Reading `responseData.tracks`, an ok feed reply replaces the slice with exactly its page. */
  method FetchGlobalFeed(state: State, tracks: seq<Value>, pagination: Value) returns (run: Run)
    ensures Keyable(tracks) ==>
      && Assigned(map[], tracks).Some?
      && run == Run(Assigned(map[], tracks).value, Resolves(FeedBody(tracks, pagination)))
      && run.state.Keys == IdsOf(tracks)
    ensures !Keyable(tracks) ==> run == Run(state, Rejects)
  {
    AssignedFacts(map[], tracks);
    run := GlobalTracksStore.ThunkFetchGlobalTracksFromFeed(state, Response(true, FeedBody(tracks, pagination)));
  }

  /** tracks.js as written: the same envelope mismatch, so its fetch rejects too. */
  method FetchTracksFeedAsWritten(state: State, tracks: seq<Value>, pagination: Value) returns (run: Run)
    ensures run == Run(state, Rejects)
  {
    run := TracksStore.ThunkFetchTracks(state, Response(true, FeedBody(tracks, pagination)));
  }

  method FetchTracksFeed(state: State, tracks: seq<Value>, pagination: Value) returns (run: Run)
    ensures Keyable(tracks) ==>
      && Assigned(map[], tracks).Some?
      && run == Run(Assigned(map[], tracks).value, Resolves(FeedBody(tracks, pagination)))
      && run.state.Keys == IdsOf(tracks)
    ensures !Keyable(tracks) ==> run == Run(state, Rejects)
  {
    AssignedFacts(map[], tracks);
    run := TracksStore.ThunkFetchTracksFromFeed(state, Response(true, FeedBody(tracks, pagination)));
  }

  /** The `sort_by` value tracks.js sends: the caller's choice with a '/' appended. */
  function SortParamAsWritten(sortBy: string): (r: string)
    ensures r != "likes"
  {
    var r := sortBy + "/";
    assert r[|r| - 1] == '/';
    r
  }

  /** The `sort_by` value globalTracks.js sends: the caller's choice unchanged. */
  function SortParam(sortBy: string): (r: string)
    ensures r == "likes" <==> sortBy == "likes"
  {
    sortBy
  }

  /** As written, asking tracks.js for the most-liked order yields the newest-first order. */
  lemma MostLikedRequestAsWritten(tracks: seq<Track>, likes: map<LikeKey, DateTime>, genre: Option<string>)
    ensures FeedRoutes.Ranked(tracks, likes, SortParamAsWritten("likes"), genre)
         == FeedRoutes.Ranked(tracks, likes, "created_at", genre)
  {
  }

  /** Sending the choice unchanged, the most-liked request is served in like order. */
  lemma MostLikedRequest(tracks: seq<Track>, likes: map<LikeKey, DateTime>, genre: Option<string>)
    ensures SortedDesc(FeedRoutes.Ranked(tracks, likes, SortParam("likes"), genre), FeedRoutes.LikesKey(likes))
  {
    var selected := if genre.Some? && genre.value != "" then FeedRoutes.WithGenre(tracks, genre.value) else tracks;
    SortDescSorted(selected, FeedRoutes.LikesKey(likes));
  }
}
