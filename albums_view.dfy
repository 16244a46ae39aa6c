/**
 * The album list's state and its refresh (AlbumsView.swift): fetch the albums
 * the filter selects, sort them article-insensitively on the chosen field,
 * and index the sorted list with section markers.
 */
module AlbumsViews {
  import opened Wrappers
  import opened Text
  import opened Records
  import opened FetchRequests
  import opened Sorting
  import opened SectionIndex
  import opened AlbumsCommon

  class AlbumsView {
    var sort: AlbumSorts
    var albums: seq<Album>
    var sectionMarkers: seq<Marker<Album>>
    var showingError: bool
    var errorMessage: string

    constructor ()
      ensures sort == ByTitle && albums == [] && sectionMarkers == []
      ensures !showingError && errorMessage == ""
    {
      sort := ByTitle;
      albums := [];
      sectionMarkers := [];
      showingError := false;
      errorMessage := "";
    }

    /**
     * `updateUI(filterText:in:)`. `fetch` answers a store query with the
     * matching records or with the description of the error it throws.
     */
    method UpdateUI(filterText: string, fetch: FetchRequest -> Result<seq<Album>>)
      modifies this
      ensures sort == old(sort)
      ensures match fetch(AlbumsFetchRequest(filterText, sort))
        case Err(e) =>
          && albums == old(albums) && sectionMarkers == old(sectionMarkers)
          && showingError && errorMessage == FetchErrorMessage("AlbumsView.swift updateUI(filterText:in:)", e)
        case Ok(fetched) =>
          && multiset(albums) == multiset(fetched)
          && AnarthrousSorted(albums, AlbumSortKey(sort))
          && MarkersFor(sectionMarkers, albums, AlbumSortKey(sort), 6)
          && showingError == old(showingError) && errorMessage == old(errorMessage)
    {
      var response := fetch(AlbumsFetchRequest(filterText, sort));
      if response.Err? {
        errorMessage := FetchErrorMessage("AlbumsView.swift updateUI(filterText:in:)", response.message);
        showingError := true;
        return;
      }
      albums := SortAnarthrous(response.value, AlbumSortKey(sort));
      UpdateSectionMarkers();
    }

    /** The marker part of `updateUI`: none for a short list, else one per section. */
    method UpdateSectionMarkers()
      modifies this`sectionMarkers
      ensures MarkersFor(sectionMarkers, albums, AlbumSortKey(sort), 6)
    {
      if |albums| < SectionCount * 2 {
        sectionMarkers := [];
        return;
      }
      var sectionSize := |albums| / SectionCount;
      sectionMarkers := [];
      for i := 0 to SectionCount
        invariant |sectionMarkers| == i && MarkersSoFar(sectionMarkers, albums, AlbumSortKey(sort), 6)
      {
        assert i * sectionSize < |albums| by {
          PositionInBounds(|albums|, i);
        }
        var album := albums[i * sectionSize];
        var text := Prefix(AlbumSortField(album, sort), 6);
        assert MarkersSoFar(sectionMarkers + [Marker(text, album)], albums, AlbumSortKey(sort), 6) by {
          MarkersSoFarAppend(sectionMarkers, albums, AlbumSortKey(sort), 6);
          assert AlbumSortKey(sort)(album) == AlbumSortField(album, sort);
        }
        sectionMarkers := sectionMarkers + [Marker(text, album)];
      }
    }
  }
}
