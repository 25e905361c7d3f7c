/**
 * The public feed (app/api/playlist_routes.py, `ultimate_playlist`): all
 * tracks, optionally narrowed by genre, ordered by like count or by
 * recency, one page at a time. The reply is a bare `jsonify` of
 * `{tracks, pagination}`, without the success envelope.
 */
module FeedRoutes {
  import opened Wrappers
  import opened Text
  import opened Py
  import opened Models
  import opened Db
  import opened ApiErrors
  import opened Pagination
  import opened Sorting

  /**
   * `Track.genre.ilike("%" + filter + "%")`: a case-insensitive substring
   * match; a NULL genre matches nothing.
   */
  predicate GenreMatches(genre: Option<string>, filter: string) {
    genre.Some? && Contains(ToLower(genre.value), ToLower(filter))
  }

  /** The tracks the genre filter keeps, in table order. */
  function WithGenre(tracks: seq<Track>, filter: string): (r: seq<Track>)
    ensures forall t :: t in r <==> t in tracks && GenreMatches(t.genre, filter)
    ensures |r| <= |tracks|
  {
    if tracks == [] then []
    else
      var rest := WithGenre(tracks[1..], filter);
      assert forall t :: t in tracks <==> t == tracks[0] || t in tracks[1..];
      if GenreMatches(tracks[0].genre, filter) then [tracks[0]] + rest else rest
  }

  /** `count(Like.user_id)` over the outer join: 0 for a track nobody liked. */
  function LikesKey(likes: map<LikeKey, DateTime>): Track -> int {
    (t: Track) => LikeCount(likes, t.id)
  }

  /** `Track.created_at` as a number that orders like the stamp itself. */
  function CreatedKey(t: Track): int {
    Ordinal(t.createdAt)
  }

  /** The tracks the query selects, in the order it returns them, before paging. */
  function Ranked(tracks: seq<Track>, likes: map<LikeKey, DateTime>, sortBy: string, genre: Option<string>): seq<Track> {
    var selected := if genre.Some? && genre.value != "" then WithGenre(tracks, genre.value) else tracks;
    if sortBy == "likes" then SortDesc(selected, LikesKey(likes)) else SortDesc(selected, CreatedKey)
  }

  /** The JSON the feed answers with. */
  function FeedReply(p: Page<Track>): (r: Reply)
    ensures r.status == 200 && r.body.PyDict? && r.body.entries.Keys == {"tracks", "pagination"}
    ensures r.body.entries["tracks"] == PyList(TrackDicts(p.items))
    ensures r.body.entries["pagination"] == PaginationDict(p)
  {
    Reply(PyDict(map["tracks" := PyList(TrackDicts(p.items)), "pagination" := PaginationDict(p)]), 200)
  }

  /**
   * `ultimate_playlist`: defaults page 1, 10 per page and `created_at`
   * order. The listed tracks are exactly those the genre filter keeps (all
   * of them without a filter, and with zero likes too), sorted by the
   * chosen key, newest or most liked first; a page past the end is empty.
   */
  method UltimatePlaylist(db: Database, page: Option<int>, perPage: Option<int>, sortBy: Option<string>, genre: Option<string>)
    returns (o: Outcome)
    requires db.Valid()
    ensures var ordered := Ranked(db.tracks, db.likes, if sortBy.Some? then sortBy.value else "created_at", genre);
      && o == Replied(FeedReply(Paginate(ordered, ArgOr(page, 1), ArgOr(perPage, 10))))
      && (forall t :: t in ordered <==> t in db.tracks && (genre.None? || genre.value == "" || GenreMatches(t.genre, genre.value)))
      && (sortBy == Some("likes") ==> SortedDesc(ordered, LikesKey(db.likes)))
      && (sortBy != Some("likes") ==> SortedDesc(ordered, CreatedKey))
  {
    var pageNumber := ArgOr(page, 1);
    var pageSize := ArgOr(perPage, 10);
    var sort := if sortBy.Some? then sortBy.value else "created_at";
    var query := db.tracks;
    if genre.Some? && genre.value != "" {
      query := WithGenre(query, genre.value);
    }
    var selected := query;
    if sort == "likes" {
      SortDescSorted(query, LikesKey(db.likes));
      query := SortDesc(query, LikesKey(db.likes));
    } else {
      SortDescSorted(query, CreatedKey);
      query := SortDesc(query, CreatedKey);
    }
    forall t ensures t in query <==> t in selected {
      if sort == "likes" {
        SortKeepsElements(selected, LikesKey(db.likes), t);
      } else {
        SortKeepsElements(selected, CreatedKey, t);
      }
    }
    var paginated := Paginate(query, pageNumber, pageSize);
    o := Replied(FeedReply(paginated));
  }

  /** In `created_at` order no listed track was created after one listed before it. */
  lemma NewestFirst(ordered: seq<Track>)
    requires SortedDesc(ordered, CreatedKey)
    ensures forall i, j :: 0 <= i < j < |ordered| ==> !Before(ordered[i].createdAt, ordered[j].createdAt)
  {
    forall i, j | 0 <= i < j < |ordered| ensures !Before(ordered[i].createdAt, ordered[j].createdAt) {
      OrdinalIsChronological(ordered[i].createdAt, ordered[j].createdAt);
      assert CreatedKey(ordered[i]) >= CreatedKey(ordered[j]);
    }
  }

  /** In `likes` order no listed track has more likes than one listed before it. */
  lemma MostLikedFirst(ordered: seq<Track>, likes: map<LikeKey, DateTime>)
    requires SortedDesc(ordered, LikesKey(likes))
    ensures forall i, j :: 0 <= i < j < |ordered| ==> LikeCount(likes, ordered[i].id) >= LikeCount(likes, ordered[j].id)
  {
    forall i, j | 0 <= i < j < |ordered| ensures LikeCount(likes, ordered[i].id) >= LikeCount(likes, ordered[j].id) {
      assert LikesKey(likes)(ordered[i]) >= LikesKey(likes)(ordered[j]);
    }
  }
}
