/**
 * The "add to playlist" dialogue the main page and the home page both run:
 * the name prompt with its default, the case-insensitive duplicate-name
 * check, the numbered menu of options, and the guard against adding a track
 * a playlist already holds. Prompt answers are inputs; what the dialogue
 * decides is the thunk it dispatches (or the alert it shows instead).
 */
module PlaylistMenu {
  import opened Wrappers
  import opened Text
  import opened Js

  /** What the pages read of an entry of `Object.values(state.playlists)`. */
  datatype PlaylistView = PlaylistView(id: Value, name: string, tracks: Value)

  /** The answer to the numbered-menu prompt: dismissed or empty, or the result of `parseInt` (`None` for NaN). */
  datatype Selection = Dismissed | Entered(number: Option<int>)

  /** What the dialogue ends in. */
  datatype PlaylistAction =
    | NoAction                                     // a prompt was cancelled
    | RefusedSelection                             // "Invalid selection"
    | RefusedDuplicate                             // "Playlist name already exists!"
    | RefusedAlreadyIn                             // "This track is already in the selected playlist!"
    | Create(name: string, seed: Option<Value>)    // thunkCreatePlaylist({name[, trackId]})
    | AddTrack(playlistId: Value, trackId: Value)  // thunkAddTrackToPlaylist(playlist.id, trackId)
    | Threw                                        // a TypeError while reading the playlist's tracks

  const DefaultName := "My Playlist"
  const CreateOption := "Create New Playlist"

  lemma TrimIsIdempotent(s: string)
    ensures Trim(Trim(s)) == Trim(s)
  {
    var t := Trim(s);
    var u := TrimStart(s);
    if t != [] {
      assert t == u[..|t|];
      assert !IsSpace(t[0]);
      assert TrimStart(t) == t;
    }
  }

  /** `name.trim() || "My Playlist"` */
  function CleanName(name: string): string {
    var t := Trim(name);
    if t == "" then DefaultName else t
  }

  /** A cleaned name is never blank and is already trimmed; a name with text keeps its trimmed text. */
  lemma CleanNameIsTrimmed(name: string)
    ensures !Blank(CleanName(name)) && Trim(CleanName(name)) == CleanName(name)
    ensures !Blank(name) ==> CleanName(name) == Trim(name)
    ensures Blank(name) ==> CleanName(name) == DefaultName
  {
    TrimIsIdempotent(name);
    DefaultNameIsTrimmed();
  }

  lemma DefaultNameIsTrimmed()
    ensures Trim(DefaultName) == DefaultName
  {
    var s := DefaultName;
    assert !IsSpace(s[0]);
    assert TrimStart(s) == s;
    assert !IsSpace(s[|s| - 1]);
    assert TrimEnd(s) == s;
  }

  /** `playlists.some(p => p.name.toLowerCase() === name.toLowerCase())` */
  predicate NameTaken(playlists: seq<PlaylistView>, name: string) {
    exists p | p in playlists :: SameIgnoringCase(p.name, name)
  }

  /**
   * `items.some(track => track.id === trackId)`: stops at the first element
   * with the id, and throws (`None`) at a null or undefined element reached
   * before one.
   */
  function ListHasTrack(items: seq<Value>, trackId: Value): Option<bool> {
    if items == [] then Some(false)
    else if Nullish(items[0]) then None
    else if StrictEquals(Get(items[0], "id"), trackId) then Some(true)
    else ListHasTrack(items[1..], trackId)
  }

  /**
   * `Some(true)` exactly when some element has the id and neither it nor an
   * element before it is null or undefined; `Some(false)` exactly when every element is
   * object-like and none has it.
   */
  lemma {:induction false} ListHasTrackMeaning(items: seq<Value>, trackId: Value)
    ensures ListHasTrack(items, trackId) == Some(true) <==>
      exists i :: 0 <= i < |items| && StrictEquals(Get(items[i], "id"), trackId) && NoNullishBefore(items, i + 1)
    ensures ListHasTrack(items, trackId) == Some(false) <==>
      forall i :: 0 <= i < |items| ==> !Nullish(items[i]) && !StrictEquals(Get(items[i], "id"), trackId)
  {
    if items == [] || Nullish(items[0]) {
    } else if StrictEquals(Get(items[0], "id"), trackId) {
      assert NoNullishBefore(items, 1);
    } else {
      var tail := items[1..];
      ListHasTrackMeaning(tail, trackId);
      if exists i :: 0 <= i < |tail| && StrictEquals(Get(tail[i], "id"), trackId) && NoNullishBefore(tail, i + 1) {
        var i :| 0 <= i < |tail| && StrictEquals(Get(tail[i], "id"), trackId) && NoNullishBefore(tail, i + 1);
        assert NoNullishBefore(items, i + 2) by {
          forall j | 0 <= j < i + 2 ensures !Nullish(items[j]) {
            if j > 0 { assert items[j] == tail[j - 1]; }
          }
        }
        assert items[i + 1] == tail[i];
      }
      if exists i :: 0 <= i < |items| && StrictEquals(Get(items[i], "id"), trackId) && NoNullishBefore(items, i + 1) {
        var i :| 0 <= i < |items| && StrictEquals(Get(items[i], "id"), trackId) && NoNullishBefore(items, i + 1);
        assert i > 0;
        assert NoNullishBefore(tail, i) by {
          forall j | 0 <= j < i ensures !Nullish(tail[j]) {
            assert tail[j] == items[j + 1];
          }
        }
        assert tail[i - 1] == items[i];
      }
      if forall i :: 0 <= i < |tail| ==> !Nullish(tail[i]) && !StrictEquals(Get(tail[i], "id"), trackId) {
        forall i | 0 <= i < |items| ensures !Nullish(items[i]) && !StrictEquals(Get(items[i], "id"), trackId) {
          if i > 0 { assert items[i] == tail[i - 1]; }
        }
      }
      if forall i :: 0 <= i < |items| ==> !Nullish(items[i]) && !StrictEquals(Get(items[i], "id"), trackId) {
        forall i | 0 <= i < |tail| ensures !Nullish(tail[i]) && !StrictEquals(Get(tail[i], "id"), trackId) {
          assert tail[i] == items[i + 1];
        }
      }
    }
  }

  predicate NoNullishBefore(items: seq<Value>, i: int) {
    forall j :: 0 <= j < i && j < |items| ==> !Nullish(items[j])
  }

  /**
   * `playlist.tracks?.some(track => track.id === trackId)`: a missing track
   * list counts as "not there"; a present value that is not an array has no
   * `some` method and throws.
   */
  function TrackListed(tracks: Value, trackId: Value): (r: Option<bool>)
    ensures Nullish(tracks) ==> r == Some(false)
    ensures !Nullish(tracks) && !tracks.Arr? ==> r.None?
    ensures tracks.Arr? ==> r == ListHasTrack(tracks.items, trackId)
  {
    if Nullish(tracks) then Some(false)
    else if tracks.Arr? then ListHasTrack(tracks.items, trackId)
    else None
  }

  /**
   * The name prompt of "Create New Playlist": a cancelled prompt does
   * nothing, a name equal to an existing one up to case is refused, and
   * otherwise a playlist with the cleaned name is created, seeded with
   * `seed` when there is one.
   */
  function NewPlaylist(playlists: seq<PlaylistView>, namePrompt: Option<string>, seed: Option<Value>): (r: PlaylistAction)
    ensures namePrompt.None? ==> r == NoAction
    ensures namePrompt.Some? ==>
      (NameTaken(playlists, CleanName(namePrompt.value)) <==> r == RefusedDuplicate)
    ensures r.Create? <==> namePrompt.Some? && !NameTaken(playlists, CleanName(namePrompt.value))
    ensures r.Create? ==> r.name == CleanName(namePrompt.value) && r.seed == seed
    ensures r.Create? ==> forall p :: p in playlists ==> ToLower(p.name) != ToLower(r.name)
    ensures r.NoAction? || r.RefusedDuplicate? || r.Create?
  {
    match namePrompt
    case None => NoAction
    case Some(name) =>
      var clean := CleanName(name);
      if NameTaken(playlists, clean) then RefusedDuplicate else Create(clean, seed)
  }

  /** Adding to a chosen playlist: refused when the playlist already lists the track. */
  function AddTo(p: PlaylistView, trackId: Value): (r: PlaylistAction)
    ensures r == RefusedAlreadyIn <==> TrackListed(p.tracks, trackId) == Some(true)
    ensures r.AddTrack? <==> TrackListed(p.tracks, trackId) == Some(false)
    ensures r.AddTrack? ==> r.playlistId == p.id && r.trackId == trackId
    ensures r == Threw <==> TrackListed(p.tracks, trackId).None?
  {
    match TrackListed(p.tracks, trackId)
    case None => Threw
    case Some(true) => RefusedAlreadyIn
    case Some(false) => AddTrack(p.id, trackId)
  }

  /**
   * The whole dialogue for one track once the menu has `|playlists| + 1`
   * options: with no playlist it goes straight to a name prompt and seeds
   * the new playlist with the track; otherwise option 1 is "Create New
   * Playlist" and option `k + 2` adds to the `k`-th playlist.
   */
  function ChooseAction(trackId: Value, playlists: seq<PlaylistView>, selection: Selection, namePrompt: Option<string>): PlaylistAction
  {
    if |playlists| == 0 then
      NewPlaylist(playlists, namePrompt, Some(trackId))
    else
      match selection
      case Dismissed => NoAction
      case Entered(None) => RefusedSelection
      case Entered(Some(n)) =>
        var index := n - 1;
        if index < 0 || index >= |playlists| + 1 then RefusedSelection
        else if index == 0 then NewPlaylist(playlists, namePrompt, Some(trackId))
        else AddTo(playlists[index - 1], trackId)
  }

  /**
   * How the menu answer is read: with no playlist the name prompt comes
   * straight away; otherwise a dismissed menu does nothing, anything but
   * 1..|playlists|+1 is refused, 1 creates, and `k + 2` adds to playlist `k`.
   */
  lemma SelectionMeaning(trackId: Value, playlists: seq<PlaylistView>, selection: Selection, namePrompt: Option<string>)
    ensures |playlists| == 0 ==>
      ChooseAction(trackId, playlists, selection, namePrompt) == NewPlaylist(playlists, namePrompt, Some(trackId))
    ensures |playlists| > 0 && selection.Dismissed? ==> ChooseAction(trackId, playlists, selection, namePrompt) == NoAction
    ensures |playlists| > 0 && selection.Entered? ==>
      (ChooseAction(trackId, playlists, selection, namePrompt) == RefusedSelection <==>
       selection.number.None? || !(1 <= selection.number.value <= |playlists| + 1))
    ensures |playlists| > 0 && selection == Entered(Some(1)) ==>
      ChooseAction(trackId, playlists, selection, namePrompt) == NewPlaylist(playlists, namePrompt, Some(trackId))
    ensures forall k :: 0 <= k < |playlists| && selection == Entered(Some(k + 2)) ==>
      ChooseAction(trackId, playlists, selection, namePrompt) == AddTo(playlists[k], trackId)
  {
    if |playlists| > 0 && selection.Entered? && selection.number.Some? {
      var n := selection.number.value;
      if 2 <= n <= |playlists| + 1 {
        assert ChooseAction(trackId, playlists, selection, namePrompt) == AddTo(playlists[n - 2], trackId);
      }
    }
  }

  /**
   * A playlist the dialogue creates has a non-blank, trimmed name that no
   * existing playlist has up to case, and is seeded with the track.
   */
  lemma CreatedPlaylistIsSound(trackId: Value, playlists: seq<PlaylistView>, selection: Selection, namePrompt: Option<string>)
    requires ChooseAction(trackId, playlists, selection, namePrompt).Create?
    ensures var r := ChooseAction(trackId, playlists, selection, namePrompt);
      r.seed == Some(trackId) && !Blank(r.name) && Trim(r.name) == r.name && !NameTaken(playlists, r.name)
  {
    var r := ChooseAction(trackId, playlists, selection, namePrompt);
    assert r == NewPlaylist(playlists, namePrompt, Some(trackId)) by {
      if |playlists| > 0 {
        var n := selection.number.value;
        if n != 1 {
          AddToNeverCreates(playlists[n - 2], trackId);
          assert false;
        }
      }
    }
    CleanNameIsTrimmed(namePrompt.value);
  }

  /** Choosing a listed playlist never creates one. */
  lemma AddToNeverCreates(p: PlaylistView, trackId: Value)
    ensures !AddTo(p, trackId).Create?
  {
  }

  /** A track the dialogue adds goes to a listed playlist that does not yet hold it. */
  lemma AddedTrackIsNew(trackId: Value, playlists: seq<PlaylistView>, selection: Selection, namePrompt: Option<string>)
    requires ChooseAction(trackId, playlists, selection, namePrompt).AddTrack?
    ensures var r := ChooseAction(trackId, playlists, selection, namePrompt);
      && r.trackId == trackId
      && exists k :: 0 <= k < |playlists| && r.playlistId == playlists[k].id && TrackListed(playlists[k].tracks, trackId) == Some(false)
  {
    var k := selection.number.value - 2;
    assert ChooseAction(trackId, playlists, selection, namePrompt) == AddTo(playlists[k], trackId);
  }

  /** `options`, built by `forEach`/`push`: "Create New Playlist", then "Add to: <name>" per playlist. */
  method BuildOptions(playlists: seq<PlaylistView>) returns (options: seq<string>)
    ensures |options| == |playlists| + 1
    ensures options[0] == CreateOption
    ensures forall k :: 0 <= k < |playlists| ==> options[k + 1] == "Add to: " + playlists[k].name
  {
    options := [CreateOption];
    var i := 0;
    while i < |playlists|
      invariant 0 <= i <= |playlists|
      invariant |options| == i + 1 && options[0] == CreateOption
      invariant forall k :: 0 <= k < i ==> options[k + 1] == "Add to: " + playlists[k].name
    {
      options := options + ["Add to: " + playlists[i].name];
      i := i + 1;
    }
  }

  /**
   * The dialogue as the components run it: build the menu, read the
   * selection against its length, then prompt for a name or check the
   * chosen playlist.
   */
  method RunDialogue(trackId: Value, playlists: seq<PlaylistView>, selection: Selection, namePrompt: Option<string>)
    returns (action: PlaylistAction)
    ensures action == ChooseAction(trackId, playlists, selection, namePrompt)
  {
    if |playlists| == 0 {
      if namePrompt.None? {
        return NoAction;
      }
      return Create(CleanName(namePrompt.value), Some(trackId));
    }
    var options := BuildOptions(playlists);
    if selection.Dismissed? {
      return NoAction;
    }
    if selection.number.None? {
      return RefusedSelection;
    }
    var selectedIndex := selection.number.value - 1;
    if selectedIndex < 0 || selectedIndex >= |options| {
      return RefusedSelection;
    }
    if selectedIndex == 0 {
      if namePrompt.None? {
        return NoAction;
      }
      var cleanName := CleanName(namePrompt.value);
      if NameTaken(playlists, cleanName) {
        return RefusedDuplicate;
      }
      return Create(cleanName, Some(trackId));
    }
    var selected := playlists[selectedIndex - 1];
    var already := TrackListed(selected.tracks, trackId);
    if already.None? {
      return Threw;
    }
    if already.value {
      return RefusedAlreadyIn;
    }
    action := AddTrack(selected.id, trackId);
  }
}
