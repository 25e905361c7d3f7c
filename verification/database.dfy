/**
 * The database the route handlers read and write: the `tracks`,
 * `playlists` (with their `playlist_tracks` rows), `comments` and `likes`
 * tables, and the invariants the schema keeps (unique primary keys, foreign
 * keys into `tracks`, the composite keys of `playlist_tracks` and `likes`).
 */
module Db {
  import opened Wrappers
  import opened Py
  import opened Models

  /** The primary key (user_id, track_id) of a `likes` row. */
  type LikeKey = (int, int)

  predicate Distinct(ids: seq<int>) {
    forall i, j :: 0 <= i < j < |ids| ==> ids[i] != ids[j]
  }

  function TrackIds(tracks: seq<Track>): set<int> {
    set t | t in tracks :: t.id
  }

  /** Unique primary keys below the next one the sequence hands out. */
  predicate TracksValid(tracks: seq<Track>, nextId: int) {
    && (forall a, b :: a in tracks && b in tracks && a.id == b.id ==> a == b)
    && (forall t :: t in tracks ==> 1 <= t.id < nextId)
  }

  /** Unique keys, and `playlist_tracks` rows that are distinct and name existing tracks. */
  predicate PlaylistsValid(playlists: seq<Playlist>, nextId: int, trackIds: set<int>) {
    && (forall a, b :: a in playlists && b in playlists && a.id == b.id ==> a == b)
    && (forall p :: p in playlists ==> 1 <= p.id < nextId)
    && (forall p :: p in playlists ==> Distinct(p.trackIds))
    && (forall p :: p in playlists ==> forall id :: id in p.trackIds ==> id in trackIds)
  }

  predicate CommentsValid(comments: seq<Comment>, nextId: int, trackIds: set<int>) {
    && (forall a, b :: a in comments && b in comments && a.id == b.id ==> a == b)
    && (forall c :: c in comments ==> 1 <= c.id < nextId)
    && (forall c :: c in comments ==> c.trackId in trackIds)
  }

  predicate LikesValid(likes: map<LikeKey, DateTime>, trackIds: set<int>) {
    forall k :: k in likes ==> k.1 in trackIds
  }

  class Database {
    var tracks: seq<Track>
    var playlists: seq<Playlist>
    var comments: seq<Comment>
    var likes: map<LikeKey, DateTime>
    var nextTrackId: int
    var nextPlaylistId: int
    var nextCommentId: int

    predicate Valid()
      reads this
    {
      && TracksValid(tracks, nextTrackId)
      && PlaylistsValid(playlists, nextPlaylistId, TrackIds(tracks))
      && CommentsValid(comments, nextCommentId, TrackIds(tracks))
      && LikesValid(likes, TrackIds(tracks))
      && 1 <= nextTrackId && 1 <= nextPlaylistId && 1 <= nextCommentId
    }

    /** An empty database whose sequences start at 1. */
    constructor ()
      ensures Valid()
      ensures tracks == [] && playlists == [] && comments == [] && likes == map[]
    {
      tracks, playlists, comments, likes := [], [], [], map[];
      nextTrackId, nextPlaylistId, nextCommentId := 1, 1, 1;
    }

    /** The UPDATE a commit issues for a changed `tracks` row: only that row changes. */
    method SaveTrack(t: Track)
      requires Valid()
      requires exists q :: q in tracks && q.id == t.id
      modifies this`tracks
      ensures Valid()
      ensures tracks == ReplaceTrack(old(tracks), t)
      ensures TrackIds(tracks) == TrackIds(old(tracks))
    {
      ReplaceKeepsTracksValid(tracks, nextTrackId, t);
      tracks := ReplaceTrack(tracks, t);
    }

    /** The INSERT of a new `tracks` row under the next key of the sequence. */
    method AddTrack(t: Track)
      requires Valid()
      requires t.id == nextTrackId
      modifies this`tracks, this`nextTrackId
      ensures Valid()
      ensures tracks == old(tracks) + [t] && nextTrackId == old(nextTrackId) + 1
    {
      InsertKeepsTracksValid(tracks, nextTrackId, t);
      tracks := tracks + [t];
      nextTrackId := nextTrackId + 1;
    }

    /** The INSERT of a new `playlists` row, with its `playlist_tracks` rows, under the next key. */
    method AddPlaylist(p: Playlist)
      requires Valid()
      requires p.id == nextPlaylistId
      requires Distinct(p.trackIds) && forall id :: id in p.trackIds ==> id in TrackIds(tracks)
      modifies this`playlists, this`nextPlaylistId
      ensures Valid()
      ensures playlists == old(playlists) + [p] && nextPlaylistId == old(nextPlaylistId) + 1
    {
      InsertKeepsPlaylistsValid(playlists, nextPlaylistId, TrackIds(tracks), p);
      playlists := playlists + [p];
      nextPlaylistId := nextPlaylistId + 1;
    }

    /** The INSERT of a new `comments` row on an existing track, under the next key. */
    method AddComment(c: Comment)
      requires Valid()
      requires c.id == nextCommentId && c.trackId in TrackIds(tracks)
      modifies this`comments, this`nextCommentId
      ensures Valid()
      ensures comments == old(comments) + [c] && nextCommentId == old(nextCommentId) + 1
    {
      InsertKeepsCommentsValid(comments, nextCommentId, TrackIds(tracks), c);
      comments := comments + [c];
      nextCommentId := nextCommentId + 1;
    }

    /** The UPDATE a commit issues for a changed `comments` row that stays on its track. */
    method SaveComment(c: Comment)
      requires Valid()
      requires exists q :: q in comments && q.id == c.id && q.trackId == c.trackId
      modifies this`comments
      ensures Valid()
      ensures comments == ReplaceComment(old(comments), c)
      ensures forall x :: x in comments <==> x == c || (x in old(comments) && x.id != c.id)
    {
      ReplaceCommentMembers(comments, c);
      comments := ReplaceComment(comments, c);
    }

    /** The DELETE of a `tracks` row with its cascades: its comments, likes and `playlist_tracks` rows. */
    method RemoveTrack(id: int)
      requires Valid()
      modifies this`tracks, this`comments, this`likes, this`playlists
      ensures Valid()
      ensures tracks == WithoutTrack(old(tracks), id) && comments == CommentsNotOn(old(comments), id)
      ensures likes == LikesNotOn(old(likes), id) && playlists == UnlinkTrack(old(playlists), id)
    {
      DeleteTrackKeepsValid(this, id);
      tracks := WithoutTrack(tracks, id);
      comments := CommentsNotOn(comments, id);
      likes := LikesNotOn(likes, id);
      playlists := UnlinkTrack(playlists, id);
    }

    /** The UPDATE a commit issues for a changed `playlists` row and its `playlist_tracks` rows. */
    method SavePlaylist(p: Playlist)
      requires Valid()
      requires exists q :: q in playlists && q.id == p.id
      requires Distinct(p.trackIds) && forall id :: id in p.trackIds ==> id in TrackIds(tracks)
      modifies this`playlists
      ensures Valid()
      ensures playlists == ReplacePlaylist(old(playlists), p)
    {
      ReplaceKeepsPlaylistsValid(playlists, nextPlaylistId, TrackIds(tracks), p);
      playlists := ReplacePlaylist(playlists, p);
    }
  }

  /** `Track.query.get(id)` */
  function FindTrack(tracks: seq<Track>, id: int): (r: Option<Track>)
    ensures r.Some? ==> r.value in tracks && r.value.id == id
    ensures r.None? <==> id !in TrackIds(tracks)
  {
    if tracks == [] then None
    else if tracks[0].id == id then Some(tracks[0])
    else
      assert TrackIds(tracks) == {tracks[0].id} + TrackIds(tracks[1..]) by {
        assert forall t :: t in tracks <==> t == tracks[0] || t in tracks[1..];
      }
      FindTrack(tracks[1..], id)
  }

  /** `Playlist.query.get(id)` */
  function FindPlaylist(playlists: seq<Playlist>, id: int): (r: Option<Playlist>)
    ensures r.Some? ==> r.value in playlists && r.value.id == id
    ensures r.None? ==> forall p :: p in playlists ==> p.id != id
  {
    if playlists == [] then None
    else if playlists[0].id == id then Some(playlists[0])
    else FindPlaylist(playlists[1..], id)
  }

  /** `Comment.query.filter_by(id=id, user_id=userId).first()` */
  function FindOwnComment(comments: seq<Comment>, id: int, userId: int): (r: Option<Comment>)
    ensures r.Some? ==> r.value in comments && r.value.id == id && r.value.userId == userId
    ensures r.None? ==> forall c :: c in comments ==> c.id != id || c.userId != userId
  {
    if comments == [] then None
    else if comments[0].id == id && comments[0].userId == userId then Some(comments[0])
    else FindOwnComment(comments[1..], id, userId)
  }

  /** The track rows of `playlist.tracks`, in `playlist_tracks` order. */
  function TracksOf(tracks: seq<Track>, ids: seq<int>): (r: seq<Track>)
    requires forall id :: id in ids ==> id in TrackIds(tracks)
    ensures |r| == |ids|
    ensures forall i :: 0 <= i < |r| ==> r[i] in tracks && r[i].id == ids[i]
  {
    seq(|ids|, i requires 0 <= i < |ids| => FindTrack(tracks, ids[i]).value)
  }

  /** The rows of `table` whose key differs from `id`, in order (a DELETE). */
  function WithoutPlaylist(playlists: seq<Playlist>, id: int): (r: seq<Playlist>)
    ensures forall p :: p in r <==> p in playlists && p.id != id
  {
    if playlists == [] then []
    else
      assert forall p :: p in playlists <==> p == playlists[0] || p in playlists[1..];
      (if playlists[0].id != id then [playlists[0]] else []) + WithoutPlaylist(playlists[1..], id)
  }

  function WithoutComment(comments: seq<Comment>, id: int): (r: seq<Comment>)
    ensures forall c :: c in r <==> c in comments && c.id != id
  {
    if comments == [] then []
    else
      assert forall c :: c in comments <==> c == comments[0] || c in comments[1..];
      (if comments[0].id != id then [comments[0]] else []) + WithoutComment(comments[1..], id)
  }

  function WithoutTrack(tracks: seq<Track>, id: int): (r: seq<Track>)
    ensures forall t :: t in r <==> t in tracks && t.id != id
    ensures TrackIds(r) == TrackIds(tracks) - {id}
  {
    if tracks == [] then []
    else
      assert forall t :: t in tracks <==> t == tracks[0] || t in tracks[1..];
      (if tracks[0].id != id then [tracks[0]] else []) + WithoutTrack(tracks[1..], id)
  }

  /** The comments on track `trackId`, in table order (`filter_by(track_id=...)`). */
  function CommentsOn(comments: seq<Comment>, trackId: int): (r: seq<Comment>)
    ensures forall c :: c in r <==> c in comments && c.trackId == trackId
  {
    if comments == [] then []
    else
      assert forall c :: c in comments <==> c == comments[0] || c in comments[1..];
      (if comments[0].trackId == trackId then [comments[0]] else []) + CommentsOn(comments[1..], trackId)
  }

  /** The comments not on track `trackId` (what the cascade of a track delete leaves). */
  function CommentsNotOn(comments: seq<Comment>, trackId: int): (r: seq<Comment>)
    ensures forall c :: c in r <==> c in comments && c.trackId != trackId
  {
    if comments == [] then []
    else
      assert forall c :: c in comments <==> c == comments[0] || c in comments[1..];
      (if comments[0].trackId != trackId then [comments[0]] else []) + CommentsNotOn(comments[1..], trackId)
  }

  /** The playlists owned by `userId`, in table order (`filter_by(user_id=...)`). */
  function PlaylistsOf(playlists: seq<Playlist>, userId: int): (r: seq<Playlist>)
    ensures forall p :: p in r <==> p in playlists && p.userId == userId
  {
    if playlists == [] then []
    else
      assert forall p :: p in playlists <==> p == playlists[0] || p in playlists[1..];
      (if playlists[0].userId == userId then [playlists[0]] else []) + PlaylistsOf(playlists[1..], userId)
  }

  /** Each playlist with row `p.id` replaced by `p`. */
  function ReplacePlaylist(playlists: seq<Playlist>, p: Playlist): (r: seq<Playlist>)
    ensures |r| == |playlists|
    ensures forall i :: 0 <= i < |r| ==> r[i] == if playlists[i].id == p.id then p else playlists[i]
  {
    seq(|playlists|, i requires 0 <= i < |playlists| => if playlists[i].id == p.id then p else playlists[i])
  }

  function ReplaceComment(comments: seq<Comment>, c: Comment): (r: seq<Comment>)
    ensures |r| == |comments|
    ensures forall i :: 0 <= i < |r| ==> r[i] == if comments[i].id == c.id then c else comments[i]
  {
    seq(|comments|, i requires 0 <= i < |comments| => if comments[i].id == c.id then c else comments[i])
  }

  function ReplaceTrack(tracks: seq<Track>, t: Track): (r: seq<Track>)
    ensures |r| == |tracks|
    ensures forall i :: 0 <= i < |r| ==> r[i] == if tracks[i].id == t.id then t else tracks[i]
  {
    seq(|tracks|, i requires 0 <= i < |tracks| => if tracks[i].id == t.id then t else tracks[i])
  }

  /** The rows after an UPDATE of row `p.id`: `p` itself and every row with another key. */
  lemma ReplacePlaylistMembers(playlists: seq<Playlist>, p: Playlist)
    requires exists q :: q in playlists && q.id == p.id
    ensures forall x :: x in ReplacePlaylist(playlists, p) <==> x == p || (x in playlists && x.id != p.id)
  {
    var r := ReplacePlaylist(playlists, p);
    var q :| q in playlists && q.id == p.id;
    var k :| 0 <= k < |playlists| && playlists[k] == q;
    assert r[k] == p;
    forall x | x in playlists && x.id != p.id ensures x in r {
      var i :| 0 <= i < |playlists| && playlists[i] == x;
      assert r[i] == x;
    }
  }

  /** An UPDATE that keeps the key, and keeps the playlist's tracks distinct and existing, keeps the table valid. */
  lemma ReplaceKeepsPlaylistsValid(playlists: seq<Playlist>, nextId: int, trackIds: set<int>, p: Playlist)
    requires PlaylistsValid(playlists, nextId, trackIds)
    requires exists q :: q in playlists && q.id == p.id
    requires Distinct(p.trackIds) && forall id :: id in p.trackIds ==> id in trackIds
    ensures PlaylistsValid(ReplacePlaylist(playlists, p), nextId, trackIds)
  {
    ReplacePlaylistMembers(playlists, p);
  }

  /** An insert with the next id keeps the table valid and advances its sequence. */
  lemma InsertKeepsPlaylistsValid(playlists: seq<Playlist>, nextId: int, trackIds: set<int>, p: Playlist)
    requires PlaylistsValid(playlists, nextId, trackIds)
    requires p.id == nextId && 1 <= nextId
    requires Distinct(p.trackIds) && forall id :: id in p.trackIds ==> id in trackIds
    ensures PlaylistsValid(playlists + [p], nextId + 1, trackIds)
  {
    assert forall x :: x in playlists + [p] <==> x in playlists || x == p;
  }

  lemma InsertKeepsCommentsValid(comments: seq<Comment>, nextId: int, trackIds: set<int>, c: Comment)
    requires CommentsValid(comments, nextId, trackIds)
    requires c.id == nextId && 1 <= nextId && c.trackId in trackIds
    ensures CommentsValid(comments + [c], nextId + 1, trackIds)
  {
    assert forall x :: x in comments + [c] <==> x in comments || x == c;
  }

  lemma InsertKeepsTracksValid(tracks: seq<Track>, nextId: int, t: Track)
    requires TracksValid(tracks, nextId)
    requires t.id == nextId && 1 <= nextId
    ensures TracksValid(tracks + [t], nextId + 1)
    ensures TrackIds(tracks + [t]) == TrackIds(tracks) + {t.id}
  {
    assert forall x :: x in tracks + [t] <==> x in tracks || x == t;
  }

  /** A row that is already stored replaces itself: the table does not change. */
  lemma ReplaceWithStoredRow(playlists: seq<Playlist>, p: Playlist)
    requires p in playlists
    requires forall a, b :: a in playlists && b in playlists && a.id == b.id ==> a == b
    ensures ReplacePlaylist(playlists, p) == playlists
  {
  }

  lemma ReplaceCommentMembers(comments: seq<Comment>, c: Comment)
    requires exists q :: q in comments && q.id == c.id
    ensures forall x :: x in ReplaceComment(comments, c) <==> x == c || (x in comments && x.id != c.id)
  {
    var r := ReplaceComment(comments, c);
    var q :| q in comments && q.id == c.id;
    var k :| 0 <= k < |comments| && comments[k] == q;
    assert r[k] == c;
    forall x | x in comments && x.id != c.id ensures x in r {
      var i :| 0 <= i < |comments| && comments[i] == x;
      assert r[i] == x;
    }
  }

  lemma ReplaceTrackMembers(tracks: seq<Track>, t: Track)
    requires exists q :: q in tracks && q.id == t.id
    ensures forall x :: x in ReplaceTrack(tracks, t) <==> x == t || (x in tracks && x.id != t.id)
    ensures TrackIds(ReplaceTrack(tracks, t)) == TrackIds(tracks)
  {
    var r := ReplaceTrack(tracks, t);
    var q :| q in tracks && q.id == t.id;
    var k :| 0 <= k < |tracks| && tracks[k] == q;
    assert r[k] == t;
    forall x | x in tracks && x.id != t.id ensures x in r {
      var i :| 0 <= i < |tracks| && tracks[i] == x;
      assert r[i] == x;
    }
  }

  lemma ReplaceKeepsTracksValid(tracks: seq<Track>, nextId: int, t: Track)
    requires TracksValid(tracks, nextId)
    requires exists q :: q in tracks && q.id == t.id
    ensures TracksValid(ReplaceTrack(tracks, t), nextId)
    ensures TrackIds(ReplaceTrack(tracks, t)) == TrackIds(tracks)
    ensures forall x :: x in ReplaceTrack(tracks, t) <==> x == t || (x in tracks && x.id != t.id)
  {
    ReplaceTrackMembers(tracks, t);
  }

  lemma DistinctAppend(s: seq<int>, x: int)
    requires Distinct(s) && x !in s
    ensures Distinct(s + [x])
  {
    forall i, j | 0 <= i < j < |s + [x]| ensures (s + [x])[i] != (s + [x])[j] {
      assert (s + [x])[i] == s[i];
      if j < |s| {
        assert (s + [x])[j] == s[j];
      }
    }
  }

  /** `ids` without any occurrence of `x` (the `playlist_tracks` rows a DELETE leaves). */
  function WithoutId(ids: seq<int>, x: int): (r: seq<int>)
    ensures forall y :: y in r <==> y in ids && y != x
  {
    if ids == [] then []
    else
      assert forall y :: y in ids <==> y == ids[0] || y in ids[1..];
      (if ids[0] != x then [ids[0]] else []) + WithoutId(ids[1..], x)
  }

  lemma {:induction false} WithoutIdDistinct(ids: seq<int>, x: int)
    requires Distinct(ids)
    ensures Distinct(WithoutId(ids, x))
  {
    if ids != [] {
      assert Distinct(ids[1..]) by {
        forall i, j | 0 <= i < j < |ids[1..]| ensures ids[1..][i] != ids[1..][j] {
          assert ids[1..][i] == ids[i + 1] && ids[1..][j] == ids[j + 1];
        }
      }
      WithoutIdDistinct(ids[1..], x);
      if ids[0] != x {
        DistinctCons(ids[0], WithoutId(ids[1..], x));
      }
    }
  }

  /** The position of the first occurrence of `x`. */
  function IndexOf(ids: seq<int>, x: int): (k: nat)
    requires x in ids
    ensures k < |ids| && ids[k] == x && x !in ids[..k]
  {
    if ids[0] == x then 0
    else
      var k := IndexOf(ids[1..], x);
      assert ids[..k + 1] == [ids[0]] + ids[1..][..k];
      k + 1
  }

  /** `list.remove(x)`: the first occurrence of `x` goes, the rest keeps its order. */
  function RemoveFirst(ids: seq<int>, x: int): (r: seq<int>)
    requires x in ids
    ensures |r| == |ids| - 1
    ensures exists k :: 0 <= k <= |r| && x !in r[..k] && ids == r[..k] + [x] + r[k..]
  {
    var k := IndexOf(ids, x);
    var r := ids[..k] + ids[k + 1..];
    assert r[..k] == ids[..k] && r[k..] == ids[k + 1..];
    assert ids == r[..k] + [x] + r[k..];
    r
  }

  lemma DistinctCons(x: int, s: seq<int>)
    requires x !in s && Distinct(s)
    ensures Distinct([x] + s)
  {
    forall i, j | 0 <= i < j < |[x] + s| ensures ([x] + s)[i] != ([x] + s)[j] {
      if i > 0 {
        assert ([x] + s)[i] == s[i - 1] && ([x] + s)[j] == s[j - 1];
      } else {
        assert ([x] + s)[j] == s[j - 1];
      }
    }
  }

  /** Removing an element of a duplicate-free list leaves exactly the other elements, still without duplicates. */
  lemma RemoveFirstOfDistinct(ids: seq<int>, x: int)
    requires x in ids && Distinct(ids)
    ensures Distinct(RemoveFirst(ids, x))
    ensures forall y :: y in RemoveFirst(ids, x) <==> y in ids && y != x
  {
    var k := IndexOf(ids, x);
    var r := RemoveFirst(ids, x);
    assert forall i :: 0 <= i < |r| ==> r[i] == ids[if i < k then i else i + 1];
    forall y ensures y in r <==> y in ids && y != x {
      if y in ids && y != x {
        var i :| 0 <= i < |ids| && ids[i] == y;
        assert r[if i < k then i else i - 1] == y;
      }
    }
  }

  /** How many `likes` rows name `trackId` (the feed's `count(Like.user_id)`). */
  function LikeCount(likes: map<LikeKey, DateTime>, trackId: int): nat {
    |set k | k in likes && k.1 == trackId|
  }

  /** The `playlist_tracks` rows of a deleted track removed from every playlist. */
  function UnlinkTrack(playlists: seq<Playlist>, trackId: int): (r: seq<Playlist>)
    ensures |r| == |playlists|
    ensures forall i :: 0 <= i < |r| ==>
      r[i] == playlists[i].(trackIds := WithoutId(playlists[i].trackIds, trackId))
  {
    seq(|playlists|, i requires 0 <= i < |playlists| =>
      playlists[i].(trackIds := WithoutId(playlists[i].trackIds, trackId)))
  }

  /** The `likes` rows that survive deleting a track. */
  function LikesNotOn(likes: map<LikeKey, DateTime>, trackId: int): (r: map<LikeKey, DateTime>)
    ensures r.Keys == set k | k in likes && k.1 != trackId
    ensures forall k :: k in r ==> r[k] == likes[k]
  {
    map k | k in likes && k.1 != trackId :: likes[k]
  }

  /** Deleting a track with its cascades leaves every table valid. */
  lemma DeleteTrackKeepsValid(db: Database, trackId: int)
    requires db.Valid()
    ensures var ids := TrackIds(WithoutTrack(db.tracks, trackId));
      && TracksValid(WithoutTrack(db.tracks, trackId), db.nextTrackId)
      && PlaylistsValid(UnlinkTrack(db.playlists, trackId), db.nextPlaylistId, ids)
      && CommentsValid(CommentsNotOn(db.comments, trackId), db.nextCommentId, ids)
      && LikesValid(LikesNotOn(db.likes, trackId), ids)
  {
    var ps := UnlinkTrack(db.playlists, trackId);
    var ids := TrackIds(WithoutTrack(db.tracks, trackId));
    forall p | p in ps
      ensures Distinct(p.trackIds) && forall id :: id in p.trackIds ==> id in ids
    {
      var i :| 0 <= i < |ps| && ps[i] == p;
      WithoutIdDistinct(db.playlists[i].trackIds, trackId);
    }
    forall a, b | a in ps && b in ps && a.id == b.id ensures a == b {
      var i :| 0 <= i < |ps| && ps[i] == a;
      var j :| 0 <= j < |ps| && ps[j] == b;
      assert db.playlists[i] in db.playlists && db.playlists[j] in db.playlists;
    }
    forall p | p in ps ensures 1 <= p.id < db.nextPlaylistId {
      var i :| 0 <= i < |ps| && ps[i] == p;
      assert db.playlists[i] in db.playlists;
    }
  }
}
