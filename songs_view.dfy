/**
 * The song list's state and its refresh (SongsView.swift). The work runs on a
 * background context and publishes its results on the main queue; here it
 * runs in line, so the progress flag is raised on entry and lowered on both
 * ways out.
 */
module SongsViews {
  import opened Wrappers
  import opened Text
  import opened Records
  import opened FetchRequests
  import opened Sorting
  import opened SectionIndex
  import opened SongsCommon

  class SongsView {
    var sort: SongSorts
    var songs: seq<Song>
    /** Markers of this list hold list positions, not songs. */
    var sectionMarkers: seq<Marker<int>>
    var showingError: bool
    var errorMessage: string
    var showingProgress: bool

    constructor ()
      ensures sort == ByTitle && songs == [] && sectionMarkers == []
      ensures !showingError && errorMessage == "" && !showingProgress
    {
      sort := ByTitle;
      songs := [];
      sectionMarkers := [];
      showingError := false;
      errorMessage := "";
      showingProgress := false;
    }

    /** `updateUI(filterText:)`. */
    method UpdateUI(filterText: string, fetch: FetchRequest -> Result<seq<Song>>)
      modifies this
      ensures sort == old(sort) && !showingProgress
      ensures match fetch(SongsFetchRequest(filterText, sort))
        case Err(e) =>
          && songs == old(songs) && sectionMarkers == old(sectionMarkers)
          && showingError && errorMessage == FetchErrorMessage("SongsView.swift updateUI(filterText:)", e)
        case Ok(fetched) =>
          && multiset(songs) == multiset(fetched)
          && AnarthrousSorted(songs, SongSortKey(sort))
          && IndexMarkersFor(sectionMarkers, songs, SongSortKey(sort), 3)
          && showingError == old(showingError) && errorMessage == old(errorMessage)
    {
      showingProgress := true;
      var response := fetch(SongsFetchRequest(filterText, sort));
      if response.Err? {
        showingProgress := false;
        errorMessage := FetchErrorMessage("SongsView.swift updateUI(filterText:)", response.message);
        showingError := true;
        return;
      }
      var sorted := SortAnarthrous(response.value, SongSortKey(sort));
      var markers := SectionMarkers(sorted);
      showingProgress := false;
      songs := sorted;
      sectionMarkers := markers;
    }

    /** The markers `updateUI` builds for the sorted list: labels of 3 Characters, positions as ids. */
    method SectionMarkers(sorted: seq<Song>) returns (markers: seq<Marker<int>>)
      ensures IndexMarkersFor(markers, sorted, SongSortKey(sort), 3)
    {
      if |sorted| < SectionCount * 2 {
        return [];
      }
      var sectionSize := |sorted| / SectionCount;
      markers := [];
      for i := 0 to SectionCount
        invariant |markers| == i && IndexMarkersSoFar(markers, sorted, SongSortKey(sort), 3)
      {
        assert i * sectionSize < |sorted| by {
          PositionInBounds(|sorted|, i);
        }
        var song := sorted[i * sectionSize];
        var text := Prefix(SongSortField(song, sort), 3);
        assert IndexMarkersSoFar(markers + [Marker(text, i * sectionSize)], sorted, SongSortKey(sort), 3) by {
          IndexMarkersSoFarAppend(markers, sorted, SongSortKey(sort), 3);
          assert SongSortKey(sort)(song) == SongSortField(song, sort);
        }
        markers := markers + [Marker(text, i * sectionSize)];
      }
    }
  }
}
