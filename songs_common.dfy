/**
 * Sort keys and the store query of the song list, and the two lookups that
 * connect a stored Song with its media item (SongsCommon.swift).
 */
module SongsCommon {
  import opened Wrappers
  import opened Media
  import opened Records
  import opened FetchRequests

  /** `SongSorts`. */
  datatype SongSorts = ByTitle | ByComposer | ByArtist {
    /** `fieldName`. */
    function FieldName(): (r: string)
      ensures r in ["title", "composer", "artist"]
    {
      match this
      case ByTitle => "title"
      case ByComposer => "composer"
      case ByArtist => "artist"
    }
  }

  lemma SongFieldNamesDistinct(a: SongSorts, b: SongSorts)
    ensures a.FieldName() == b.FieldName() <==> a == b
  {
  }

  /** A Song's string attributes by name. */
  function SongAttribute(s: Song, key: string): Option<string> {
    if key == "title" then s.title
    else if key == "composer" then s.composer
    else if key == "artist" then s.artist
    else if key == "duration" then s.duration
    else None
  }

  /**
   * `Song.sortField`: a list sorts on the attribute its query filters on,
   * its value when present, otherwise "[sine nomine]", "[anon]" or "".
   */
  function SongSortField(s: Song, sort: SongSorts): (r: string)
    ensures var v := SongAttribute(s, sort.FieldName());
      && (v.Some? ==> r == v.value)
      && (v.None? ==> r == match sort
                         case ByTitle => "[sine nomine]"
                         case ByComposer => "[anon]"
                         case ByArtist => "")
  {
    match sort
    case ByTitle => s.title.GetOr("[sine nomine]")
    case ByComposer => s.composer.GetOr("[anon]")
    case ByArtist => s.artist.GetOr("")
  }

  function SongSortKey(sort: SongSorts): Song -> string {
    s => SongSortField(s, sort)
  }

  /**
   * `songsFetchRequest(filter:sort:in:)`: the query filters on the attribute
   * the list sorts by; sorting is deferred to the view.
   */
  function SongsFetchRequest(filter: string, sort: SongSorts): (r: FetchRequest)
    ensures r.entityName == "Song" && r.sortDescriptors == [] && !r.returnsDistinctResults
    ensures (r.filter.ContainsCD? || r.filter.NotEqual?) && r.filter.key == sort.FieldName()
    ensures r.filter.ContainsCD? <==> |filter| > 0
  {
    FetchRequest(
      "Song",
      if |filter| > 0 then ContainsCD(sort.FieldName(), filter) else NotEqual(sort.FieldName(), ""),
      [],
      false)
  }

  lemma SongsFetchRequestSelects(filter: string, sort: SongSorts, s: Song)
    ensures var r := SongsFetchRequest(filter, sort);
      Holds(r.filter, k => SongAttribute(s, k)) <==> FilterSelects(filter, SongAttribute(s, sort.FieldName()))
  {
  }

  /**
   * `trackFor(song:)`: the first playable track the persistent-ID query yields.
   * `songsWithID` stands for `MPMediaQuery.songs()` filtered on the persistent
   * ID, which is the stored ID converted back to the media library's form.
   */
  method TrackFor(song: Song, songsWithID: UInt64 -> Option<seq<seq<MediaItem>>>)
    returns (track: Option<MediaItem>)
    ensures var found := songsWithID(FromCoreData(song.persistentID));
      var tracks := if found.Some? then PlayableFirstItems(found.value) else [];
      && (track.None? <==> tracks == [])
      && (track.Some? ==> track.value == tracks[0] && track.value.playable)
  {
    var trackData: seq<MediaItem> := [];
    var found := songsWithID(FromCoreData(song.persistentID));
    if found.Some? {
      var collections := found.value;
      for i := 0 to |collections|
        invariant trackData == PlayableFirstItems(collections[..i])
      {
        var collection := collections[i];
        if |collection| > 0 {
          var item := collection[0];
          if item.playable {
            trackData := trackData + [item];
          }
        }
        assert collections[..i + 1][..i] == collections[..i];
      }
      assert collections[..|collections|] == collections;
    }
    track := if trackData == [] then None else Some(trackData[0]);
  }

  /** The position of the first of `songs[from..]` whose persistent ID is `id`. */
  function FirstWithID(songs: seq<Song>, id: Int64, from: nat): (r: Option<nat>)
    requires from <= |songs|
    decreases |songs| - from
    ensures r.Some? ==> from <= r.value < |songs| && songs[r.value].persistentID == id
    ensures r.Some? ==> forall j :: from <= j < r.value ==> songs[j].persistentID != id
    ensures r.None? ==> forall j :: from <= j < |songs| ==> songs[j].persistentID != id
  {
    if from == |songs| then None
    else if songs[from].persistentID == id then Some(from)
    else FirstWithID(songs, id, from + 1)
  }

  /**
   * `songFor(track:in:)`: the first stored Song with the track's persistent ID,
   * or none when there is no such Song or the fetch throws (`stored` is `Err`).
   * The result is the Song's position in the store's Song records.
   */
  function SongFor(track: MediaItem, stored: Result<seq<Song>>): (r: Option<nat>)
    ensures stored.Err? ==> r.None?
    ensures r.Some? ==> stored.Ok? && r.value < |stored.value|
                        && stored.value[r.value].persistentID == ToCoreData(track.persistentID)
                        && FromCoreData(stored.value[r.value].persistentID) == track.persistentID
    ensures r.Some? ==> forall j :: 0 <= j < r.value ==> stored.value[j].persistentID != ToCoreData(track.persistentID)
    ensures stored.Ok? && r.None? ==>
              forall j :: 0 <= j < |stored.value| ==> stored.value[j].persistentID != ToCoreData(track.persistentID)
  {
    FromCoreDataAfterToCoreData(track.persistentID);
    if stored.Err? then None else FirstWithID(stored.value, ToCoreData(track.persistentID), 0)
  }
}
