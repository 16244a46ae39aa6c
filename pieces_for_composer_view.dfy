/**
 * The pieces of one composer, always sorted on the title, and the store query
 * that selects them (PiecesForComposerView.swift).
 */
module PiecesForComposerViews {
  import opened Wrappers
  import opened Text
  import opened Records
  import opened FetchRequests
  import opened Sorting
  import opened SectionIndex
  import opened ComposersCommon

  /**
   * `piecesForComposerFetchRequest(filter:composer:in:)`: the title filter of
   * the piece list and'ed with equality of the composer.
   */
  function PiecesForComposerFetchRequest(filter: string, composer: string): (r: FetchRequest)
    ensures r.entityName == "Piece" && r.sortDescriptors == [] && !r.returnsDistinctResults
    ensures r.filter.And? && r.filter.right == EqualTo("composer", composer)
    ensures (r.filter.left.ContainsCD? || r.filter.left.NotEqual?) && r.filter.left.key == "title"
    ensures r.filter.left.ContainsCD? <==> |filter| > 0
  {
    FetchRequest(
      "Piece",
      And(if |filter| > 0 then ContainsCD("title", filter) else NotEqual("title", ""),
          EqualTo("composer", composer)),
      [],
      false)
  }

  /** The query selects exactly the pieces of that composer whose title passes the filter. */
  lemma PiecesForComposerFetchRequestSelects(filter: string, composer: string, p: Piece)
    ensures var r := PiecesForComposerFetchRequest(filter, composer);
      Holds(r.filter, k => PieceAttribute(p, k)) <==> FilterSelects(filter, p.title) && p.composer == Some(composer)
  {
  }

  class PiecesForComposerCView {
    const sort: PieceSorts := ByTitle
    const composerName: string
    var pieces: seq<Piece>
    var sectionMarkers: seq<Marker<Piece>>
    var showingError: bool
    var errorMessage: string

    constructor (composerName: string)
      ensures sort == ByTitle && this.composerName == composerName
      ensures pieces == [] && sectionMarkers == [] && !showingError && errorMessage == ""
    {
      this.composerName := composerName;
      pieces := [];
      sectionMarkers := [];
      showingError := false;
      errorMessage := "";
    }

    /** `updateUI(filterText:in:)`: the pieces end in title order, articles ignored. */
    method UpdateUI(filterText: string, fetch: FetchRequest -> Result<seq<Piece>>)
      modifies this
      ensures match fetch(PiecesForComposerFetchRequest(filterText, composerName))
        case Err(e) =>
          && pieces == old(pieces) && sectionMarkers == old(sectionMarkers)
          && showingError
          && errorMessage == FetchErrorMessage("PiecesForComposerView.swift updateUI(filterText:in:)", e)
        case Ok(fetched) =>
          && multiset(pieces) == multiset(fetched)
          && AnarthrousSorted(pieces, PieceSortKey(ByTitle))
          && MarkersFor(sectionMarkers, pieces, PieceSortKey(ByTitle), 6)
          && showingError == old(showingError) && errorMessage == old(errorMessage)
    {
      var response := fetch(PiecesForComposerFetchRequest(filterText, composerName));
      if response.Err? {
        errorMessage := FetchErrorMessage("PiecesForComposerView.swift updateUI(filterText:in:)", response.message);
        showingError := true;
        return;
      }
      pieces := SortAnarthrous(response.value, PieceSortKey(sort));
      UpdateSectionMarkers();
    }

    /** The marker part of `updateUI`: none for a short list, else one per section. */
    method UpdateSectionMarkers()
      modifies this`sectionMarkers
      ensures MarkersFor(sectionMarkers, pieces, PieceSortKey(sort), 6)
    {
      if |pieces| < SectionCount * 2 {
        sectionMarkers := [];
        return;
      }
      var sectionSize := |pieces| / SectionCount;
      sectionMarkers := [];
      for i := 0 to SectionCount
        invariant |sectionMarkers| == i && MarkersSoFar(sectionMarkers, pieces, PieceSortKey(sort), 6)
      {
        assert i * sectionSize < |pieces| by {
          PositionInBounds(|pieces|, i);
        }
        var piece := pieces[i * sectionSize];
        var text := Prefix(PieceSortField(piece, sort), 6);
        assert MarkersSoFar(sectionMarkers + [Marker(text, piece)], pieces, PieceSortKey(sort), 6) by {
          MarkersSoFarAppend(sectionMarkers, pieces, PieceSortKey(sort), 6);
          assert PieceSortKey(sort)(piece) == PieceSortField(piece, sort);
        }
        sectionMarkers := sectionMarkers + [Marker(text, piece)];
      }
    }
  }
}
