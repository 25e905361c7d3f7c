# LemonChord in Dafny

LemonChord is a music-sharing web application. It has two halves:

- A Flask back end holds tracks, playlists, comments and likes in a relational database.
  Every route handler follows the same pattern: look the resource up, check ownership, validate the request, then mutate the database or raise a typed error (400, 403 or 404).
- A React/Redux front end caches those entities in normalized stores: objects keyed by id that reducers replace, merge into or delete from.
  The two page components (the home page and the "boom box" main playlist page) hold the decision logic for playlists, uploads and comments.

This project models both halves and proves what each operation promises.

**Back end.** `Db.Database` is a class whose fields are the four tables: sequences of rows in id order, plus a map from `(user_id, track_id)` to the like's timestamp.
- `Valid()` states the schema's invariants:
  - ids are unique and below the next id;
  - a playlist lists each track at most once, and only tracks that exist;
  - comments and likes refer to existing tracks.
- Each route handler is a method that `modifies` the database. It returns an `Outcome`:
  - a reply (JSON body and status);
  - a raised `APIError` (rendered by the error handler);
  - a Flask `abort`;
  - or an unhandled exception.
- The `to_dict` serialisers produce `Py.PyValue` dictionaries.

**Front end.** A JavaScript value is `Js.Value` (undefined, null, booleans, integers, strings, arrays and objects with ordered members).
- A store slice is a `map<string, Value>` keyed the way JavaScript turns an id into a property key.
- Each reducer is a method that returns `None` where the JavaScript would throw a `TypeError`: reading `.id` of `null`, or calling `.forEach` on a non-array.
- A LOAD action's `forEach` is a loop proved against the recursive specification `EntityStore.Assigned`.
- A thunk is a method that takes the server's response (ok flag and parsed body) and returns the new slice together with how the thunk's promise settles.
- The page handlers are functions and small classes over the values the user entered. Prompt answers are parameters.

The model follows the code where it differs from the documented design:
- Upserts replace an entry wholesale rather than shallow-merging it.
- There is no `like_count` anywhere: the like routes reply with a message (and the like route reads a `like.id` that the model lacks), and the likes slice stores only `true` per liked track.
- The comment thunks read `data.comments` and store the reply body itself, while the comment routes wrap their data in the `api_success` envelope. The model states these thunks as written, over whatever body they receive.
- The home page's track edit sends multipart form data, while `update_track` reads only a JSON body. The model states what each side does separately.

## Model

| member | source | states |
|---|---|---|
| ApiErrors.ErrorClassReplies | app/utils/errors.py:52-70 | the reply `handle_api_error` sends for each subclass: ValidationError 400 (default "Invalid input data"), AuthorizationError 403 and ResourceNotFoundError 404 "<type> not found" with exactly the keys success and error, FileUploadError 422; "errors" appears only when the field errors are truthy |
| ApiErrors.ErrorReply | app/utils/errors.py:15-23 | the error body has `success: False` and `error: message`, plus `errors` exactly when errors is truthy; the status is the given one |
| ApiErrors.SuccessReply | app/utils/errors.py:34-41 | the success body has `success: True`, plus `data` exactly when data is not None and `message` exactly when the message is not None |
| ApiErrors.ApiErrorResponse | app/utils/errors.py:6-23 | `api_error` builds the dictionary step by step into the error reply, status 400 by default |
| ApiErrors.ApiSuccess | app/utils/errors.py:25-41 | `api_success` builds the dictionary step by step into the success reply, status 200 by default |
| ApiErrors.HandleApiError | app/utils/errors.py:117-119 | a raised APIError becomes an error reply with that error's message, status and errors |
| ApiErrors.LastDot | app/utils/errors.py:106 | finds the last '.' of a name: none exactly when there is no dot, and no dot follows the one found |
| ApiErrors.LastDotUnique | app/utils/errors.py:106 | any dot with no dot after it is the one `rsplit('.', 1)` splits at |
| ApiErrors.ValidateFileExtension | app/utils/errors.py:98-113 | no dot gives "Invalid file"/"No file extension"; otherwise the file is accepted (True) exactly when the lower-cased extension is in the allowed list, and rejected with the list of allowed types |
| ApiErrors.ExtensionAfterLastDot | app/utils/errors.py:106-107 | acceptance holds exactly when some dot with no later dot is followed by text whose lower-case form is allowed |
| ApiErrors.UppercaseExtensionPasses | app/utils/errors.py:106 | an example of `ExtensionAfterLastDot`: "song.MP3" passes the upload form's extension list, because the extension is lower-cased |
| ApiErrors.LastExtensionCounts | app/utils/errors.py:106 | an example of `ExtensionAfterLastDot`: "song.mp3.exe" is refused: only the text after the last dot counts |
| ApiErrors.UploadedFile.Tell | app/utils/errors.py:85 | `tell` returns the current position |
| ApiErrors.UploadedFile.Seek | app/utils/errors.py:88 | `seek` sets the position and nothing else |
| ApiErrors.ValidateFileSize | app/utils/errors.py:73-96 | accepted exactly when neither the declared content length nor the measured size exceeds `max_size_mb*1024*1024` (equal passes); rejected with "File too large"; the file position is restored |
| Models.IntOrNone | app/models/track.py:15 | a nullable integer column serialises to None exactly when it is unset, and otherwise to its integer |
| Models.StrOrNone | app/models/track.py:16 | a nullable string column serialises to None exactly when it is unset, and otherwise to its string |
| Models.TrackToDict | app/models/track.py:28-37 | the track dictionary has exactly the keys id, title, audio_url, user_id, duration, genre and created_at (no like count), each holding the stored value; duration and genre are None exactly when unset |
| Models.TrackToDictInjective | app/models/track.py:28-37 | two tracks with the same dictionary are the same track: `to_dict` loses nothing |
| Models.TrackDicts | app/api/playlist_routes.py:39 | the comprehension maps `to_dict` over the tracks in order |
| Models.PlaylistToDict | app/models/playlist.py:22-29 | exactly the keys id, name, user_id, created_at and tracks; `tracks` is the track `to_dict` of each linked track, in order and of the same length |
| Models.LikeToDict | app/models/like.py:21-26 | exactly the keys user_id, track_id and created_at; there is no id |
| Models.CommentToDict | app/models/comment.py:19-26 | exactly the keys id, text, user_id, track_id and created_at holding the stored values; created_at is None when unset and otherwise `isoformat()` of the stamp |
| Models.CommentDicts | app/api/comment_routes.py:37 | the comprehension maps `to_dict` over the page's comments in order |
| Py.IsoFormat | app/models/comment.py:25 | `isoformat()` is 19 characters (26 with microseconds), digit fields with separators `-`, `-`, `T`, `:`, `:` (and `.` before the fraction) |
| Py.IsoFormatRoundTrip | app/models/comment.py:25 | the year, month, day, hour, minute, second and microsecond fields can all be read back from the `isoformat()` string, so it loses nothing |
| Py.OrdinalIsChronological | app/api/playlist_routes.py:33 | the integer key used to order by created_at is smaller exactly when the timestamp is earlier |
| Db.FindTrack | app/api/comment_routes.py:12-14 | `Track.query.get` finds a stored track with that id, and finds none exactly when no track has it |
| Db.FindPlaylist | app/api/user_playlist_routes.py:40-42 | `Playlist.query.get` finds a stored playlist with that id, or none exists |
| Db.FindOwnComment | app/api/comment_routes.py:53-55 | `filter_by(id, user_id).first()` finds a stored comment with that id owned by that user, or none exists |
| Db.TracksOf | app/models/playlist.py:16-20 | a playlist's linked ids resolve to stored tracks with exactly those ids, in order |
| Db.WithoutPlaylist | app/api/user_playlist_routes.py:126 | deleting keeps exactly the other playlists |
| Db.WithoutComment | app/api/comment_routes.py:71 | deleting keeps exactly the other comments |
| Db.WithoutTrack | app/api/track_routes.py:89 | deleting keeps exactly the other tracks; the id set loses exactly that id |
| Db.CommentsOn | app/api/comment_routes.py:36 | `filter_by(track_id=…)` keeps exactly the comments on that track |
| Db.CommentsNotOn | app/models/track.py:20 | the cascade keeps exactly the comments on other tracks |
| Db.PlaylistsOf | app/api/user_playlist_routes.py:93 | `filter_by(user_id=…)` keeps exactly that user's playlists |
| Db.ReplacePlaylist | app/api/user_playlist_routes.py:59 | an in-place update leaves every row except the one with that id as it was |
| Db.ReplacePlaylistMembers | app/api/user_playlist_routes.py:59 | after the update the table holds the new row and the other rows, nothing else |
| Db.ReplaceKeepsPlaylistsValid | app/api/user_playlist_routes.py:85 | replacing a playlist with one whose track list is duplicate-free and refers to stored tracks keeps the playlist invariant |
| Db.InsertKeepsPlaylistsValid | app/api/user_playlist_routes.py:24-25 | adding a playlist with the next id keeps the playlist invariant |
| Db.InsertKeepsCommentsValid | app/api/comment_routes.py:21-22 | adding a comment with the next id on a stored track keeps the comment invariant |
| Db.InsertKeepsTracksValid | app/api/track_routes.py:36 | adding a track with the next id keeps ids unique and adds exactly that id |
| Db.ReplaceWithStoredRow | app/api/user_playlist_routes.py:57-60 | rewriting a stored playlist unchanged leaves the table unchanged |
| Db.ReplaceComment | app/api/comment_routes.py:58-59 | an in-place update leaves every comment except the one with that id as it was |
| Db.ReplaceCommentMembers | app/api/comment_routes.py:58-59 | after the update the table holds the new comment and the other comments |
| Db.ReplaceTrack | app/api/track_routes.py:60-65 | an in-place update leaves every track except the one with that id as it was |
| Db.ReplaceTrackMembers | app/api/track_routes.py:60-65 | after the update the table holds the new track and the other tracks, with the same id set |
| Db.ReplaceKeepsTracksValid | app/api/track_routes.py:60-65 | updating a track's fields keeps the track invariant and the id set |
| Db.WithoutId | app/models/track.py:22-26 | removing a track from the association keeps exactly the other linked ids |
| Db.WithoutIdDistinct | app/models/associations.py:5-6 | removing an id from a duplicate-free track list leaves it duplicate-free |
| Db.IndexOf | app/api/user_playlist_routes.py:112 | `list.remove` acts at the first occurrence of the track |
| Db.RemoveFirst | app/api/user_playlist_routes.py:112 | `list.remove(x)` removes exactly one element: putting `x` back at a position before which `x` does not occur gives the original list |
| Db.RemoveFirstOfDistinct | app/api/user_playlist_routes.py:112 | in a duplicate-free list, `remove` drops exactly that track and keeps the list duplicate-free |
| Db.UnlinkTrack | app/models/track.py:22-26 | deleting a track unlinks it from every playlist and changes nothing else in them |
| Db.LikesNotOn | app/models/track.py:21 | the cascade keeps exactly the likes on other tracks, with their timestamps |
| Db.Database.AddTrack | app/api/track_routes.py:36-37 | the commit appends the new track under the next id and advances the sequence, keeping every table invariant |
| Db.Database.AddPlaylist | app/api/user_playlist_routes.py:25-33 | the commit appends the new playlist (duplicate-free, stored tracks only) under the next id, keeping every invariant |
| Db.Database.AddComment | app/api/comment_routes.py:22-23 | the commit appends the new comment on a stored track under the next id, keeping every invariant |
| Db.Database.SaveTrack | app/api/track_routes.py:76 | the commit rewrites exactly the row with that id; the id set and every invariant are kept |
| Db.Database.SavePlaylist | app/api/user_playlist_routes.py:60 | the commit rewrites exactly the playlist with that id, keeping every invariant |
| Db.Database.SaveComment | app/api/comment_routes.py:60 | the commit rewrites exactly the comment with that id on the same track; the table holds it and the other comments |
| Db.Database.RemoveTrack | app/api/track_routes.py:89-90 | the delete with its cascades removes the track, its comments, its likes and its playlist links, keeping every invariant |
| Db.DeleteTrackKeepsValid | app/models/track.py:20-26 | deleting a track together with its comments, likes and playlist links keeps every table invariant |
| Pagination.CeilDiv | app/api/comment_routes.py:44 | `pages` is the least page count that covers all items |
| Pagination.Paginate | app/api/playlist_routes.py:36 | with `error_out=False`, page and per_page below 1 become 1 and 20; the page holds the items from `(page-1)*per_page`, at most per_page of them, and is empty beyond the end; total is the item count and pages covers it; every item on a page is one of the listed items |
| Pagination.EveryItemOnItsPage | app/api/playlist_routes.py:36 | every item appears on page `i / per_page + 1`, at position `i % per_page`, and that page is within `pages` |
| Pagination.PaginationDict | app/api/playlist_routes.py:44-49 | the metadata has exactly page, per_page, total_pages and total_items, taken from the page |
| Sorting.InsertDesc | app/api/playlist_routes.py:24-33 | inserting into the ordered list adds exactly that element |
| Sorting.InsertDescSorted | app/api/playlist_routes.py:24-33 | inserting keeps the list in descending key order |
| Sorting.SortDesc | app/api/playlist_routes.py:24-33 | `order_by(desc(...))` is a permutation of its input |
| Sorting.SortDescSorted | app/api/playlist_routes.py:24-33 | the result is in descending key order |
| Sorting.SortKeepsElements | app/api/playlist_routes.py:24-33 | sorting neither drops nor adds a track |
| FeedRoutes.WithGenre | app/api/playlist_routes.py:20-21 | the genre filter keeps exactly the tracks whose genre contains the filter, ignoring case |
| FeedRoutes.FeedReply | app/api/playlist_routes.py:42-50 | the feed body has exactly `tracks` (the page's track dictionaries) and `pagination`, with status 200 and no envelope |
| FeedRoutes.UltimatePlaylist | app/api/playlist_routes.py:9-50 | defaults are page 1, per_page 10 and created_at; an empty genre filters nothing; the ordered tracks are exactly the matching stored ones, including unliked tracks, by like count descending for "likes" and by created_at descending otherwise |
| FeedRoutes.NewestFirst | app/api/playlist_routes.py:31-33 | in the default order no track is older than a later one |
| FeedRoutes.MostLikedFirst | app/api/playlist_routes.py:24-30 | in the "likes" order every track has at least as many likes as any later one |
| UserPlaylistRoutes.OwnedPlaylist | app/api/user_playlist_routes.py:40-44 | a missing playlist gives 404 before ownership is checked; another user's playlist gives 403; the current user's own playlist is returned as stored |
| UserPlaylistRoutes.CreatePlaylist | app/api/user_playlist_routes.py:14-34 | a missing or empty name gives 400 with a `name` error and stores nothing; otherwise a playlist owned by the current user is appended, holding the track exactly when `trackId` is truthy and names a stored track; 201 with its dictionary; only the playlists table and its id counter may change |
| UserPlaylistRoutes.GetPlaylist | app/api/user_playlist_routes.py:37-45 | 404/403 as for ownership, otherwise the playlist's dictionary |
| UserPlaylistRoutes.UpdatePlaylist | app/api/user_playlist_routes.py:48-61 | 404/403 change nothing; a null name fails the NOT NULL column and gives a 500 storing nothing; otherwise the name changes only when given, and only the playlists table may change (the id counters stay) |
| UserPlaylistRoutes.AddTrackToPlaylist | app/api/user_playlist_routes.py:64-87 | after the ownership checks, a missing track_id gives 400, an unknown track 404, a track already present 400, all changing nothing; otherwise the track is appended and the list grows by one; only the playlists table may change |
| UserPlaylistRoutes.PlaylistDicts | app/api/user_playlist_routes.py:94 | the comprehension serialises each playlist in order |
| UserPlaylistRoutes.GetAllPlaylists | app/api/user_playlist_routes.py:90-94 | the reply lists, under `playlists`, exactly the current user's playlists |
| UserPlaylistRoutes.RemoveTrackFromPlaylist | app/api/user_playlist_routes.py:97-114 | after the ownership checks, an unknown track gives 404 and a track not in the playlist 400, changing nothing; otherwise exactly that track leaves the list, which shrinks by one; only the playlists table may change |
| UserPlaylistRoutes.DeletePlaylist | app/api/user_playlist_routes.py:117-128 | 404/403 change nothing; otherwise exactly that playlist is removed and the other tables are untouched, and the id counters stay |
| LikeRoutes.LikeTrackAsWritten | app/api/like_routes.py:8-23 | unknown track gives 404 and a repeated like 400, changing nothing; otherwise the like is committed and then reading `like.id` fails, so the request ends in an unhandled error; only the likes table may change |
| LikeRoutes.LikeRetryAsWritten | app/api/like_routes.py:16-23 | the failed first like is stored anyway, so retrying it is refused as "Track already liked" |
| LikeRoutes.LikeTrack | app/api/like_routes.py:8-23 | unknown track 404, repeated like 400; otherwise exactly the pair (user, track) is added and the reply is 201; only the likes table may change |
| LikeRoutes.LikeRetry | app/api/like_routes.py:16-23 | a first like succeeds with 201 and a second is refused with 400 |
| LikeRoutes.UnlikeTrack | app/api/like_routes.py:26-35 | no like gives 404 and changes nothing, whether or not the track exists; otherwise exactly that pair is removed; only the likes table may change |
| LikeRoutes.UnlikeUndoesLike | app/api/like_routes.py:20-35 | liking then unliking a pair restores the like table |
| CommentRoutes.CreateComment | app/api/comment_routes.py:9-24 | unknown track 404; missing or empty text 400 with a `text` error; otherwise a comment by the current user on the path's track is appended; 201; only the comments table and its id counter may change |
| CommentRoutes.CommentPageData | app/api/comment_routes.py:39-47 | the data has exactly `comments` (the page's dictionaries) and `pagination` |
| CommentRoutes.ListComments | app/api/comment_routes.py:27-47 | unknown track 404; otherwise the page (defaults 1 and 10) of comments on exactly that track, with the total count of them |
| CommentRoutes.UpdateComment | app/api/comment_routes.py:50-61 | a comment that is missing or owned by someone else gives 404; a null text gives a 500 storing nothing; otherwise the text changes only when given, and only the comments table may change |
| CommentRoutes.DeleteComment | app/api/comment_routes.py:64-73 | a comment that is missing or owned by someone else gives 404; otherwise exactly that comment is removed; only the comments table may change |
| TrackRoutes.CreateTrack | app/api/track_routes.py:10-39 | a missing title or file gives 400 and creates nothing; otherwise a track owned by the current user, whose audio_url is the saved path, is appended and returned with 201; only the tracks table and its id counter may change |
| TrackRoutes.GetTrack | app/api/track_routes.py:42-45 | 404 exactly when the track does not exist, otherwise its dictionary |
| TrackRoutes.Updated | app/api/track_routes.py:60-65 | title, genre and duration change exactly when their key is present, and id, audio_url, owner and created_at never change |
| TrackRoutes.UpdateTrack | app/api/track_routes.py:48-77 | 404, then 403 for a non-owner, both changing nothing; a null title gives a 500 storing nothing; otherwise only that track's given fields change and the id counters stay |
| TrackRoutes.DeleteTrack | app/api/track_routes.py:80-91 | 404, then 403 for a non-owner; the owner's delete removes the track, its comments and likes, and its playlist links, and nothing else; the id counters stay |
| EntityStore.AssignedFacts | react-vite/src/redux/playlists.js:134-136 | the `forEach` assignment fails exactly when some element is null or undefined; otherwise the keys are the old ones plus the loaded ids, untouched keys keep their entries, and for a repeated id the later element wins |
| EntityStore.AssignedIdempotent | react-vite/src/redux/comments.js:85-91 | assigning the same list twice gives the same state as once |
| EntityStore.FreshFillKeys | react-vite/src/redux/globalTracks.js:54-58 | filling an empty object gives exactly the loaded ids as keys |
| EntityStore.FillKeyed | react-vite/src/redux/comments.js:87-89 | the `forEach` loop computes the assignment specification |
| EntityStore.Upsert | react-vite/src/redux/comments.js:94 | `{...state, [p.id]: p}` throws exactly for a null or undefined payload; otherwise it stores the payload at its id, replacing the entry wholesale, and leaves every other key as it was |
| EntityStore.RemoveKey | react-vite/src/redux/comments.js:97-99 | `delete` on a copy drops exactly that key, and leaves an absent key's state equal to before |
| PlaylistsStore.Reduce | react-vite/src/redux/playlists.js:121-154 | LOAD replaces the state with exactly the loaded playlists' ids; ADD, UPDATE and ADD_TRACK upsert the `.data`-unwrapped payload; REMOVE deletes the key, and is a no-op when it is absent; other actions change nothing |
| PlaylistsStore.EnvelopeShapesAgree | react-vite/src/redux/playlists.js:126-129 | `{data:{playlists:L}}`, `{playlists:L}` and a bare `L` all load the list `L` |
| PlaylistsStore.ObjectPayloadLoadsValues | react-vite/src/redux/playlists.js:132 | a non-array object payload loads its member values, in order |
| PlaylistsStore.ThunkFetchPlaylists | react-vite/src/redux/playlists.js:35-47 | an ok response loads the normalised list and resolves with the body; a failure, or a load that throws, is caught: the state is unchanged and the promise resolves to undefined |
| PlaylistsStore.FetchEnvelopesAgree | react-vite/src/redux/playlists.js:42 | the thunk's own unwrapping plus the reducer's load the same list for all three envelopes |
| PlaylistsStore.UpsertFromResponse | react-vite/src/redux/playlists.js:139-145 | an ok body is unwrapped by the thunk and again by the reducer and stored at its id; anything else is caught and the state is unchanged |
| PlaylistsStore.ThunkCreatePlaylist | react-vite/src/redux/playlists.js:50-65 | an ok response with a body stores the unwrapped new playlist at its id, keeps every other key and resolves with the body; a failed response or a null body changes nothing and resolves to undefined |
| PlaylistsStore.ThunkAddTrackToPlaylist | react-vite/src/redux/playlists.js:68-83 | an ok response with a body replaces exactly the returned playlist's entry and resolves with the body; a failed response or a null body changes nothing and resolves to undefined |
| PlaylistsStore.ThunkDeleteTrackFromPlaylist | react-vite/src/redux/playlists.js:86-99 | an ok response with a body replaces exactly the returned playlist's entry and resolves with the body; a failed response or a null body changes nothing and resolves to undefined |
| PlaylistsStore.ThunkDeletePlaylist | react-vite/src/redux/playlists.js:102-116 | REMOVE is dispatched only on ok, returning `{success:true}`; a failure returns `{success:false, error}` and leaves the store untouched |
| LegacyPlaylistStore.WithoutTrack | react-app/src/store/playlist.js:77-79 | the `filter` throws exactly on a null or undefined track; otherwise it keeps exactly the tracks whose id is not strictly equal to the given one |
| LegacyPlaylistStore.WithoutTrackAppend | react-app/src/store/playlist.js:77-79 | filtering distributes over concatenation, so the kept tracks stay in their original order |
| LegacyPlaylistStore.RemoveTrack | react-app/src/store/playlist.js:72-81 | succeeds exactly when the playlist is in the state with a `tracks` array none of whose tracks is null or undefined; then only that playlist changes, and only in its `tracks` |
| LegacyPlaylistStore.NoRemovedTrackRemains | react-app/src/store/playlist.js:72-81 | afterwards no track of that playlist has the removed id |
| LegacyPlaylistStore.Reduce | react-app/src/store/playlist.js:61-85 | UPDATE stores the playlist at its id; REMOVE deletes the key, a no-op when absent; REMOVE_TRACK filters the track list; other actions change nothing |
| LegacyPlaylistStore.UpdatePlaylist | react-app/src/store/playlist.js:24-36 | only an ok response dispatches, storing the body at its id |
| LegacyPlaylistStore.DeletePlaylist | react-app/src/store/playlist.js:38-47 | only an ok response removes the key and resolves to true |
| LegacyPlaylistStore.RemoveTrackFromPlaylist | react-app/src/store/playlist.js:49-58 | only an ok response filters the track out, and the promise rejects when the reducer throws |
| CommentsStore.Reduce | react-vite/src/redux/comments.js:83-104 | LOAD merges: old keys stay, loaded ids take the last loaded comment, and other keys keep their entries; ADD and UPDATE upsert; REMOVE deletes, a no-op when absent; other actions change nothing |
| CommentsStore.LoadTwiceIsLoadOnce | react-vite/src/redux/comments.js:85-91 | loading the same list twice equals loading it once |
| CommentsStore.ThunkFetchComments | react-vite/src/redux/comments.js:31-39 | only an ok response dispatches, loading `body.comments`; a body without a comments array makes the promise reject with the state unchanged |
| CommentsStore.StoreReturnedComment | react-vite/src/redux/comments.js:48-52 | only an ok response stores the returned body at its id; a null body rejects |
| CommentsStore.ThunkCreateComment | react-vite/src/redux/comments.js:42-53 | an ok body is stored at its id and every other key is unchanged; a failure changes nothing; an ok reply with a null body rejects and changes nothing |
| CommentsStore.ThunkUpdateComment | react-vite/src/redux/comments.js:56-67 | an ok body replaces the entry at its id and every other key is unchanged; a failure changes nothing; an ok reply with a null body rejects and changes nothing |
| CommentsStore.ThunkDeleteComment | react-vite/src/redux/comments.js:70-77 | only an ok response removes exactly that key |
| GlobalTracksStore.Reduce | react-vite/src/redux/globalTracks.js:51-72 | LOAD replaces the state with exactly the loaded tracks by id, the later element winning; ADD and UPDATE upsert; REMOVE deletes, a no-op when absent; other actions change nothing |
| GlobalTracksStore.ThunkFetchGlobalTracks | react-vite/src/redux/globalTracks.js:31-45 | only an ok response loads `responseData.data.tracks`; a body without that array rejects and leaves the state unchanged |
| GlobalTracksStore.ThunkFetchGlobalTracksFromFeed | react-vite/src/redux/globalTracks.js:39-43 | reading `responseData.tracks` instead, an ok feed body loads its tracks |
| UserTracksStore.Reduce | react-vite/src/redux/userTracks.js:79-100 | LOAD replaces the state with exactly the loaded tracks by id; ADD and UPDATE upsert; REMOVE deletes, a no-op when absent; other actions change nothing |
| UserTracksStore.ThunkCreateTrack | react-vite/src/redux/userTracks.js:29-39 | without looking at `response.ok`, `responseData.data` is stored at its id; when it is missing the reducer throws and the promise rejects |
| UserTracksStore.ThunkCreateTrackFromReply | react-vite/src/redux/userTracks.js:29-39 | storing the reply body on an ok response puts the created track at its id |
| UserTracksStore.ThunkUpdateTrack | react-vite/src/redux/userTracks.js:42-52 | only an ok response replaces the entry at the body's id |
| UserTracksStore.ThunkFetchUserTracks | react-vite/src/redux/userTracks.js:55-63 | only an ok response loads `responseData.data.tracks`; a body without it rejects |
| UserTracksStore.ThunkDeleteTrack | react-vite/src/redux/userTracks.js:66-73 | only an ok response removes exactly that key |
| TracksStore.Reduce | react-vite/src/redux/tracks.js:87-108 | LOAD replaces the state with exactly the loaded tracks by id; ADD and UPDATE upsert; REMOVE deletes, a no-op when absent; other actions change nothing |
| TracksStore.ThunkCreateTrack | react-vite/src/redux/tracks.js:48-58 | regardless of status, `responseData.data` is stored at its id; when it is missing the promise rejects |
| TracksStore.ThunkCreateTrackFromReply | react-vite/src/redux/tracks.js:48-58 | storing the reply body on an ok response puts the created track at its id |
| TracksStore.ThunkUpdateTrack | react-vite/src/redux/tracks.js:61-71 | only an ok response replaces the entry at the body's id |
| TracksStore.ThunkFetchTracks | react-vite/src/redux/tracks.js:29-44 | only an ok response loads `responseData.data.tracks`; a body without it rejects |
| TracksStore.ThunkDeleteTrack | react-vite/src/redux/tracks.js:74-81 | only an ok response removes exactly that key |
| TracksStore.ThunkFetchTracksFromFeed | react-vite/src/redux/tracks.js:37-43 | reading `responseData.tracks` instead, an ok feed body loads its tracks |
| LikesStore.WithLike | react-vite/src/redux/likes.js:52-54 | ADD_LIKE adds exactly that track id to the liked set, and the slice still maps only to `true` |
| LikesStore.Reduce | react-vite/src/redux/likes.js:50-63 | ADD_LIKE marks the track; REMOVE_LIKE removes exactly it, a no-op when absent; other actions change nothing; only `true` is ever stored |
| LikesStore.AddLikeIdempotent | react-vite/src/redux/likes.js:52-54 | liking twice equals liking once |
| LikesStore.UnlikeUndoesLike | react-vite/src/redux/likes.js:52-59 | unliking a track that was not liked before the like restores the state |
| LikesStore.ThunkLikeTrack | react-vite/src/redux/likes.js:19-30 | ok marks the track and resolves with the response; a failure resolves with the parsed error body and changes nothing |
| LikesStore.ThunkUnlikeTrack | react-vite/src/redux/likes.js:33-44 | ok removes the mark; a failure resolves with the error body and changes nothing |
| FeedClient.FeedBody | app/api/playlist_routes.py:42-50 | the parsed feed body has `tracks` and `pagination` and no `data` |
| FeedClient.FetchGlobalFeedAsWritten | react-vite/src/redux/globalTracks.js:42 | on every feed reply the thunk reads `data.tracks` of a body without `data`, and rejects with the slice unchanged |
| FeedClient.FetchGlobalFeed | react-vite/src/redux/globalTracks.js:42 | reading `tracks`, the feed's tracks become exactly the slice's keys |
| FeedClient.FetchTracksFeedAsWritten | react-vite/src/redux/tracks.js:41 | the same rejection for the tracks slice |
| FeedClient.FetchTracksFeed | react-vite/src/redux/tracks.js:41 | reading `tracks`, the feed's tracks become exactly the slice's keys |
| FeedClient.SortParamAsWritten | react-vite/src/redux/tracks.js:35 | the appended '/' means the server never sees `sort_by == "likes"` |
| FeedClient.SortParam | react-vite/src/redux/globalTracks.js:37 | without the '/', the server sees "likes" exactly when it was asked for |
| FeedClient.MostLikedRequestAsWritten | react-vite/src/redux/tracks.js:35 | asking the tracks slice for "likes" yields the newest-first order |
| FeedClient.MostLikedRequest | react-vite/src/redux/globalTracks.js:37 | asking for "likes" yields the feed ordered by like count, descending |
| TrackClient.TrackReplyShape | app/api/track_routes.py:39 | the created-track reply is the bare track dictionary: it has no `data`, and its key in a store is the track id |
| TrackClient.UploadAsWritten | react-vite/src/redux/userTracks.js:35-38 | every accepted upload makes both create thunks reject, with both slices unchanged |
| TrackClient.Upload | react-vite/src/redux/tracks.js:54-57 | reading the body itself, both slices gain the new track at its id and both promises resolve with it |
| Forms.SignupValidationFields | react-vite/src/components/SignupFormModal/SignupFormModal.jsx:18-40 | the error map has a field's key exactly when that field's rule fails, carrying that rule's message, and no other keys |
| Forms.SignUpButtonAgreesWithValidation | react-vite/src/components/SignupFormModal/SignupFormModal.jsx:63-71 | a disabled button implies a validation error; an enabled one can still fail validation only by the email pattern, an email-like username, or an all-space password, never by a mismatch |
| Forms.SignupErrors | react-vite/src/components/SignupFormModal/SignupFormModal.jsx:16-40 | `handleSubmit` fills `newErrors` step by step into the validation map |
| Forms.FillErrors | react-vite/src/components/SignupFormModal/SignupFormModal.jsx:18-41 | starting from `{}`, each field's message is set exactly when there is one; with `Forms.FilledFields`, no other key appears |
| Forms.SignupSubmit | react-vite/src/components/SignupFormModal/SignupFormModal.jsx:42-60 | any error stops the signup; otherwise a server error map is shown, no answer closes the modal, and a throw from the thunk is not caught |
| Forms.LoginValidation | react-vite/src/components/LoginFormModal/LoginFormModal.jsx:19-25 | the email error exactly for a blank or non-matching email, and the password error exactly for a blank password |
| Forms.LoginButtonAgreesWithValidation | react-vite/src/components/LoginFormModal/LoginFormModal.jsx:47-49 | the button is disabled exactly when validation would report an error |
| Forms.LoginErrors | react-vite/src/components/LoginFormPage/LoginFormPage.jsx:19-27 | `handleSubmit` fills `newErrors` step by step into the validation map, empty exactly when the button is enabled |
| Forms.LoginModalSubmit | react-vite/src/components/LoginFormModal/LoginFormModal.jsx:27-44 | any error stops the login; a truthy answer becomes the error map, otherwise the modal closes; a thrown error sets only `general` |
| Forms.LoginPageSubmit | react-vite/src/components/LoginFormPage/LoginFormPage.jsx:15-40 | a session user redirects before any form logic; any error stops the login; otherwise the answer becomes the error map or the page navigates to "/"; a thrown error is not caught |
| Text.TrimStart | react-vite/src/components/HomePage/HomePage.jsx:107 | `trim` drops exactly the leading white space |
| Text.TrimEnd | react-vite/src/components/HomePage/HomePage.jsx:107 | `trim` drops exactly the trailing white space |
| Text.BlankIffAllSpace | react-vite/src/components/SignupFormModal/SignupFormModal.jsx:20 | `!s.trim()` holds exactly when the string is all white space |
| Text.ToLower | react-vite/src/components/HomePage/HomePage.jsx:111 | `toLowerCase` keeps the length, maps each upper-case letter to its lower-case letter and changes nothing else |
| Text.NatToString | react-vite/src/redux/comments.js:88 | a numeric id becomes a non-empty decimal property key without a leading zero whose digits denote that id |
| Text.NatToStringInjective | react-vite/src/redux/comments.js:88 | two different ids never give the same property key |
| Js.Or | react-vite/src/redux/playlists.js:126-129 | `a || b` is one of its operands: `a` when it is truthy, otherwise `b`; it is truthy exactly when one of them is |
| Js.Lookup | react-vite/src/redux/playlists.js:143 | a property read that is not undefined gives the value of some member with that key |
| Js.LookupFirstMatch | react-vite/src/redux/playlists.js:143 | a property read gives the value of the first member with that key, and undefined when no member has it |
| Js.ReadAfterPut | react-vite/src/redux/userTracks.js:36 | reading a key just written with a spread gives the written value, and every other key reads as before |
| Js.ObjectValues | react-vite/src/redux/playlists.js:132 | `Object.values` gives an object's member values in order, an array's elements, a string's characters as one-character strings, and nothing for other values |
| Js.Put | react-app/src/store/playlist.js:75-80 | a spread with an override sets that key and keeps every other key's value |
| PlaylistMenu.TrimIsIdempotent | react-vite/src/components/HomePage/HomePage.jsx:107 | trimming twice equals trimming once |
| PlaylistMenu.CleanNameIsTrimmed | react-vite/src/components/HomePage/HomePage.jsx:107 | the cleaned name is the trimmed prompt, or "My Playlist" when that is empty; it is never blank and is already trimmed |
| PlaylistMenu.ListHasTrackMeaning | react-vite/src/components/HomePage/HomePage.jsx:207 | `some(track => track.id === trackId)` is true exactly when a track before any null one matches, and false exactly when none is null and none matches; otherwise it throws |
| PlaylistMenu.TrackListed | react-vite/src/components/MainPlaylistPage/MainPlaylist.jsx:227 | `tracks?.some(...)` is false for missing tracks, the `some` result for an array, and throws for anything else |
| PlaylistMenu.NewPlaylist | react-vite/src/components/HomePage/HomePage.jsx:99-117 | a cancelled prompt does nothing; a cleaned name equal, ignoring case, to an existing one is refused; otherwise exactly that name is created, and it clashes with no existing name |
| PlaylistMenu.AddTo | react-vite/src/components/HomePage/HomePage.jsx:202-215 | a track already in the chosen playlist is refused; a new one is added to that playlist's id; tracks that make `some` throw give an error |
| PlaylistMenu.SelectionMeaning | react-vite/src/components/HomePage/HomePage.jsx:130-175 | with no playlists a name prompt creates one seeded with the track; a dismissed menu does nothing; a selection outside 1..n+1 is refused; 1 creates; k+2 adds to the k-th playlist |
| PlaylistMenu.CreatedPlaylistIsSound | react-vite/src/components/MainPlaylistPage/MainPlaylist.jsx:195-217 | every created playlist is seeded with the track, has a non-blank trimmed name, and clashes with no existing name |
| PlaylistMenu.AddedTrackIsNew | react-vite/src/components/MainPlaylistPage/MainPlaylist.jsx:221-234 | every add goes to a listed playlist that does not already hold the track |
| PlaylistMenu.BuildOptions | react-vite/src/components/MainPlaylistPage/MainPlaylist.jsx:151-156 | the menu is "Create New Playlist" followed by one "Add to: <name>" per playlist, in order |
| PlaylistMenu.RunDialogue | react-vite/src/components/HomePage/HomePage.jsx:130-217 | the dialogue's step-by-step branching computes the menu decision |
| MainPlaylistPage.Skip | react-vite/src/components/MainPlaylistPage/MainPlaylist.jsx:81-86 | with no tracks the index stays; otherwise the next index is in range and wraps from the last track to 0 |
| MainPlaylistPage.SkipTimesAdvances | react-vite/src/components/MainPlaylistPage/MainPlaylist.jsx:81-86 | k skips advance the index by k, wrapping once |
| MainPlaylistPage.SkipCycles | react-vite/src/components/MainPlaylistPage/MainPlaylist.jsx:81-86 | n skips return to the starting track, and no fewer do: every track is reached |
| MainPlaylistPage.HandleAddToPlaylist | react-vite/src/components/MainPlaylistPage/MainPlaylist.jsx:147-237 | without a current track nothing happens; otherwise the menu decision for the current track's id |
| MainPlaylistPage.CommentComposer.constructor | react-vite/src/components/MainPlaylistPage/MainPlaylist.jsx:43-44 | the composer starts with empty text and no comment being edited |
| MainPlaylistPage.CommentComposer.Edit | react-vite/src/components/MainPlaylistPage/MainPlaylist.jsx:251-254 | editing loads the comment's id and text |
| MainPlaylistPage.CommentComposer.Post | react-vite/src/components/MainPlaylistPage/MainPlaylist.jsx:239-249 | without a current track or with blank text nothing changes; with an edit id the comment is updated and the id cleared, otherwise one is created on the current track; the text is cleared; posted text is never empty |
| MainPlaylistPage.CurrentTrackCommentsMeaning | react-vite/src/components/MainPlaylistPage/MainPlaylist.jsx:312-314 | without a current track nothing is shown; otherwise (when no entry is null) exactly the comments whose track_id is the current id are shown, each as often as it is stored |
| HomePage.TrackEditor.constructor | react-vite/src/components/HomePage/HomePage.jsx:36-39 | the editor starts idle: no track id and empty fields |
| HomePage.TrackEditor.StartEditing | react-vite/src/components/HomePage/HomePage.jsx:219-224 | the track's id, title, genre and duration are copied into the form |
| HomePage.TrackEditor.CancelEditing | react-vite/src/components/HomePage/HomePage.jsx:226-231 | the edit id becomes null and the three fields "" |
| HomePage.TrackEditor.SubmitUpdate | react-vite/src/components/HomePage/HomePage.jsx:233-240 | the form sends the three fields as strings (a null genre as "null") and the editor ends idle |
| TrackUpload.UploadFor | react-vite/src/components/MainPlaylistPage/MainPlaylist.jsx:121-127 | nothing is uploaded without a file; empty title, genre and duration become "New Track", "Unknown" and 180, and given ones are sent as typed |
| TrackUpload.UploadForm.Submit | react-vite/src/components/HomePage/HomePage.jsx:57-80 | the request is the one for the form's fields; when it is sent and the create resolves the form is cleared, otherwise the form is unchanged |

## Left out

- HTTP, `fetch`, `response.json()` and the ordering of concurrent thunks: a thunk receives the response (ok flag and parsed body) as a parameter, and concurrent completion is not modelled.
- The session and authentication thunks, `app/api/auth_routes.py`, flask-login, CSRF and WTForms validation are not part of this model; the current user is an input id.
- `prompt`, `alert`, `confirm`, `parseInt`, the audio element and its listeners, the `setTimeout` upload progress, `setShowUploadForm` and JSX rendering: prompt answers and the parsed selection are parameters, and the rest is left out.
- Rendering of `Aborted` and `Crashed` outcomes: `app/__init__.py`, which calls `register_error_handlers`, is not part of this model. When the catch-all handler of `app/utils/errors.py:121-128` is registered and `app.debug` is off, it also receives the `HTTPException` raised by `abort(403)` and `get_or_404`, and both outcomes become `api_error("Internal server error", 500)`. In debug mode the exception propagates. The model keeps `Aborted(code)` and `Crashed` as outcomes and does not render them as replies.
- Werkzeug `secure_filename` and saving the file to disk: the saved path is a parameter of `TrackRoutes.CreateTrack`.
- Flask-SQLAlchemy internals: `paginate` is modelled by its visible result (defaults, offset, item count, page count). Of transactions only this is modelled: a commit the database refuses stores nothing and the request ends in a 500. Rows are held in id order.
- TrackRoutes.CreateTrack: takes the form's `duration` as an already parsed optional integer. The form sends it as text into an INTEGER column; text that is not a number may be refused with a 500 or stored as text, depending on the database engine, and neither outcome is modelled.
- TrackRoutes.UpdateTrack, UserPlaylistRoutes.UpdatePlaylist and CommentRoutes.UpdateComment: take each field as absent, null or a value of the column's type. JSON values of another type (a number for a name, say) are not modelled.
- The likes table's primary key on (user_id, track_id) is declared only in the development schema of `app/models/like.py`; the production branch declares no primary key. The model keeps one like per pair in both, so duplicate likes that a production database could hold are not modelled. The handlers refuse a second like of the same pair in either schema.
- String lengths: JavaScript's `.length` counts UTF-16 code units, while the model counts characters. The two differ only for characters outside the Basic Multilingual Plane, such as emoji.
- MainPlaylistPage.CommentComposer.Post and HomePage.TrackEditor.SubmitUpdate always clear their inputs, because the thunks they await (`thunkCreateComment`, `thunkUpdateComment`, `thunkUpdateTrack`) resolve on every reply the server sends. They reject only on a network failure or an ok reply with a null body, and neither is modelled. `UploadForm.Submit` takes `resolved` as a parameter, because `thunkCreateTrack` rejects on every accepted upload.
- FeedRoutes.WithGenre: `ILIKE` wildcards such as `%` and `_` inside the filter are not interpreted, and case folding covers ASCII only.
- Text.ToLower: ASCII letters only. `Text.TrimStart`/`Text.TrimEnd` treat the ASCII white space characters as space, not the whole Unicode set.
- The regular expression `\S+@\S+\.\S+` is modelled as a substring search (`Text.EmailLike`), which is what `test` does for an unanchored pattern.
- Js.ObjectValues: enumeration order follows member order; JavaScript's placing of integer-like keys first is not modelled.
- PlaylistMenu.NewPlaylist: a playlist's `name` is taken to be a string; a non-string name would make `toLowerCase` throw.
- HomePage.TrackEditor.SubmitUpdate: multipart form data is sent to `update_track`, which reads only a JSON body; how Flask answers such a request depends on its version, and the link between the two is not modelled.
- The delete handlers of the home page (`handleDelete`, `handleDeleteFromPlaylist`, `handleDeletePlaylist`) only dispatch thunks, which are modelled in the stores; the `confirm` guard is UI.
- `react-vite/src/redux/store.js` wiring, `app/config.py`, the seeds and `Navigation.jsx` are not part of this model.
- Numbers are integers: JavaScript's floating-point values and `NaN` are not modelled.

## Findings

| source | as written | input that shows it | evidently intended | confidence | as-written member | corrected member |
|---|---|---|---|---|---|---|
| app/api/like_routes.py:23 | the success reply reads `like.id`, but a Like has no id column; the like is already committed | liking any existing, not yet liked track | reply 201 with the like | not executed | LikeRoutes.LikeTrackAsWritten | LikeRoutes.LikeTrack |
| react-vite/src/redux/globalTracks.js:42 | reads `responseData.data.tracks`, but the feed replies `{tracks, pagination}` | any ok feed reply | load `responseData.tracks` | not executed | FeedClient.FetchGlobalFeedAsWritten | FeedClient.FetchGlobalFeed |
| react-vite/src/redux/tracks.js:41 | the same `data.tracks` read on the feed reply | any ok feed reply | load `responseData.tracks` | not executed | FeedClient.FetchTracksFeedAsWritten | FeedClient.FetchTracksFeed |
| react-vite/src/redux/tracks.js:35 | appends '/' to the `sort_by` argument | `sort_by = 'likes'` | the server sees "likes" and orders by like count | not executed | FeedClient.MostLikedRequestAsWritten | FeedClient.MostLikedRequest |
| react-vite/src/redux/userTracks.js:36 | the create thunks read `responseData.data`, but `create_track` replies with the bare track dictionary | any accepted upload | store the created track at its id | not executed | TrackClient.UploadAsWritten | TrackClient.Upload |
