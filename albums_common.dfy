/**
 * Sort keys and the store query of the album list, and the tracks of an album
 * in the media library (AlbumsCommon.swift).
 */
module AlbumsCommon {
  import opened Wrappers
  import opened Media
  import opened Records
  import opened FetchRequests

  /** `AlbumSorts`. */
  datatype AlbumSorts = ByTitle | ByComposer | ByArtist | ByGenre {
    /** `fieldName`. */
    function FieldName(): (r: string)
      ensures r in ["title", "composer", "artist", "genre"]
    {
      match this
      case ByTitle => "title"
      case ByComposer => "composer"
      case ByArtist => "artist"
      case ByGenre => "genre"
    }
  }

  lemma AlbumFieldNamesDistinct(a: AlbumSorts, b: AlbumSorts)
    ensures a.FieldName() == b.FieldName() <==> a == b
  {
  }

  /** An Album's string attributes by name. */
  function AlbumAttribute(a: Album, key: string): Option<string> {
    if key == "title" then a.title
    else if key == "composer" then a.composer
    else if key == "artist" then a.artist
    else if key == "genre" then a.genre
    else None
  }

  /**
   * `Album.sortField`: a list sorts on the attribute its query filters on,
   * its value when present, otherwise "[sine nomine]", "[anon]", "" or "".
   */
  function AlbumSortField(a: Album, sort: AlbumSorts): (r: string)
    ensures var v := AlbumAttribute(a, sort.FieldName());
      && (v.Some? ==> r == v.value)
      && (v.None? ==> r == match sort
                         case ByTitle => "[sine nomine]"
                         case ByComposer => "[anon]"
                         case ByArtist => ""
                         case ByGenre => "")
  {
    match sort
    case ByTitle => a.title.GetOr("[sine nomine]")
    case ByComposer => a.composer.GetOr("[anon]")
    case ByArtist => a.artist.GetOr("")
    case ByGenre => a.genre.GetOr("")
  }

  function AlbumSortKey(sort: AlbumSorts): Album -> string {
    a => AlbumSortField(a, sort)
  }

  /**
   * `albumsFetchRequest(filter:sort:in:)`: the query filters on the attribute
   * the list sorts by, by containment for a filter text and by non-emptiness
   * otherwise; sorting is deferred to the view.
   */
  function AlbumsFetchRequest(filter: string, sort: AlbumSorts): (r: FetchRequest)
    ensures r.entityName == "Album" && r.sortDescriptors == [] && !r.returnsDistinctResults
    ensures (r.filter.ContainsCD? || r.filter.NotEqual?) && r.filter.key == sort.FieldName()
    ensures r.filter.ContainsCD? <==> |filter| > 0
  {
    FetchRequest(
      "Album",
      if |filter| > 0 then ContainsCD(sort.FieldName(), filter) else NotEqual(sort.FieldName(), ""),
      [],
      false)
  }

  lemma AlbumsFetchRequestSelects(filter: string, sort: AlbumSorts, a: Album)
    ensures var r := AlbumsFetchRequest(filter, sort);
      Holds(r.filter, k => AlbumAttribute(a, k)) <==> FilterSelects(filter, AlbumAttribute(a, sort.FieldName()))
  {
  }

  /**
   * `tracksFor(album:)`. `songsOfAlbum` stands for `MPMediaQuery.songs()`
   * filtered on the album persistent ID: its `collections`, possibly nil.
   */
  method TracksFor(album: UInt64, songsOfAlbum: UInt64 -> Option<seq<seq<MediaItem>>>)
    returns (trackData: seq<MediaItem>)
    ensures songsOfAlbum(album).None? ==> trackData == []
    ensures songsOfAlbum(album).Some? ==> trackData == PlayableFirstItems(songsOfAlbum(album).value)
  {
    trackData := [];
    var found := songsOfAlbum(album);
    if found.Some? {
      var collections := found.value;
      for i := 0 to |collections|
        invariant trackData == PlayableFirstItems(collections[..i])
      {
        var collection := collections[i];
        if |collection| > 0 {
          var item := collection[0];
          if item.playable {
            trackData := trackData + [item];
          }
        }
        assert collections[..i + 1][..i] == collections[..i];
      }
      assert collections[..|collections|] == collections;
    }
  }
}
