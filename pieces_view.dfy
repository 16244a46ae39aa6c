/**
 * The list of all pieces, sorted on a field fixed by the parent view, and its
 * refresh (PiecesView.swift).
 */
module PiecesViews {
  import opened Wrappers
  import opened Text
  import opened Records
  import opened FetchRequests
  import opened Sorting
  import opened SectionIndex
  import opened ComposersCommon

  class PiecesView {
    const sort: PieceSorts
    var pieces: seq<Piece>
    var sectionMarkers: seq<Marker<Piece>>
    var showingError: bool
    var errorMessage: string

    constructor (sort: PieceSorts)
      ensures this.sort == sort && pieces == [] && sectionMarkers == []
      ensures !showingError && errorMessage == ""
    {
      this.sort := sort;
      pieces := [];
      sectionMarkers := [];
      showingError := false;
      errorMessage := "";
    }

    /** `updateUI(filterText:in:)`. */
    method UpdateUI(filterText: string, fetch: FetchRequest -> Result<seq<Piece>>)
      modifies this
      ensures match fetch(PiecesFetchRequest(filterText, sort))
        case Err(e) =>
          && pieces == old(pieces) && sectionMarkers == old(sectionMarkers)
          && showingError && errorMessage == FetchErrorMessage("PiecesView.swift updateUI(filterText:in:)", e)
        case Ok(fetched) =>
          && multiset(pieces) == multiset(fetched)
          && AnarthrousSorted(pieces, PieceSortKey(sort))
          && MarkersFor(sectionMarkers, pieces, PieceSortKey(sort), 6)
          && showingError == old(showingError) && errorMessage == old(errorMessage)
    {
      var response := fetch(PiecesFetchRequest(filterText, sort));
      if response.Err? {
        errorMessage := FetchErrorMessage("PiecesView.swift updateUI(filterText:in:)", response.message);
        showingError := true;
        return;
      }
      pieces := SortAnarthrous(response.value, PieceSortKey(sort));
      UpdateSectionMarkers();
    }

    /** The marker part of `updateUI`: none for a short list, else one per section. */
    method UpdateSectionMarkers()
      modifies this`sectionMarkers
      ensures MarkersFor(sectionMarkers, pieces, PieceSortKey(sort), 6)
    {
      if |pieces| < SectionCount * 2 {
        sectionMarkers := [];
        return;
      }
      var sectionSize := |pieces| / SectionCount;
      sectionMarkers := [];
      for i := 0 to SectionCount
        invariant |sectionMarkers| == i && MarkersSoFar(sectionMarkers, pieces, PieceSortKey(sort), 6)
      {
        assert i * sectionSize < |pieces| by {
          PositionInBounds(|pieces|, i);
        }
        var piece := pieces[i * sectionSize];
        var text := Prefix(PieceSortField(piece, sort), 6);
        assert MarkersSoFar(sectionMarkers + [Marker(text, piece)], pieces, PieceSortKey(sort), 6) by {
          MarkersSoFarAppend(sectionMarkers, pieces, PieceSortKey(sort), 6);
          assert PieceSortKey(sort)(piece) == PieceSortField(piece, sort);
        }
        sectionMarkers := sectionMarkers + [Marker(text, piece)];
      }
    }
  }
}
