/**
 * The composer list of the compact layout and the link that opens one
 * composer's pieces (ComposersCView.swift).
 */
module ComposersViews {
  import opened Wrappers
  import opened Text
  import opened Anarthrous
  import opened Records
  import opened FetchRequests
  import opened Sorting
  import opened SectionIndex
  import opened ComposersCommon

  /** The label source of a composer marker: the name, or "[no name]". */
  function ComposerMarkerField(): Composer -> string {
    (c: Composer) => c.name.GetOr("[no name]")
  }

  class ComposersCView {
    var composers: seq<Composer>
    var sectionMarkers: seq<Marker<Composer>>
    var showingError: bool
    var errorMessage: string

    constructor ()
      ensures composers == [] && sectionMarkers == [] && !showingError && errorMessage == ""
    {
      composers := [];
      sectionMarkers := [];
      showingError := false;
      errorMessage := "";
    }

    /** `updateUI(filterText:in:)`: the composers stay in the order the query returns them. */
    method UpdateUI(filterText: string, fetch: FetchRequest -> Result<seq<Composer>>)
      modifies this
      ensures match fetch(ComposersFetchRequest(filterText))
        case Err(e) =>
          && composers == old(composers) && sectionMarkers == old(sectionMarkers)
          && showingError && errorMessage == FetchErrorMessage("ComposersCView.swift updateUI(filterText:in:)", e)
        case Ok(fetched) =>
          && composers == fetched
          && MarkersFor(sectionMarkers, composers, ComposerMarkerField(), 3)
          && showingError == old(showingError) && errorMessage == old(errorMessage)
    {
      var response := fetch(ComposersFetchRequest(filterText));
      if response.Err? {
        errorMessage := FetchErrorMessage("ComposersCView.swift updateUI(filterText:in:)", response.message);
        showingError := true;
        return;
      }
      composers := response.value;
      UpdateSectionMarkers();
    }

    /** The marker part of `updateUI`: none for a short list, else one per section. */
    method UpdateSectionMarkers()
      modifies this`sectionMarkers
      ensures MarkersFor(sectionMarkers, composers, ComposerMarkerField(), 3)
    {
      if |composers| < SectionCount * 2 {
        sectionMarkers := [];
        return;
      }
      var sectionSize := |composers| / SectionCount;
      sectionMarkers := [];
      for i := 0 to SectionCount
        invariant |sectionMarkers| == i && MarkersSoFar(sectionMarkers, composers, ComposerMarkerField(), 3)
      {
        assert i * sectionSize < |composers| by {
          PositionInBounds(|composers|, i);
        }
        var composer := composers[i * sectionSize];
        var text := Prefix(composer.name.GetOr("[no name]"), 3);
        assert MarkersSoFar(sectionMarkers + [Marker(text, composer)], composers, ComposerMarkerField(), 3) by {
          MarkersSoFarAppend(sectionMarkers, composers, ComposerMarkerField(), 3);
          assert ComposerMarkerField()(composer) == composer.name.GetOr("[no name]");
        }
        sectionMarkers := sectionMarkers + [Marker(text, composer)];
      }
    }
  }

  /** `ComposersCompactLink`: one row of the composer list. */
  class ComposersCompactLink {
    const composer: Composer
    var showingError: bool
    var errorMessage: string

    constructor (composer: Composer)
      ensures this.composer == composer && !showingError && errorMessage == ""
    {
      this.composer := composer;
      showingError := false;
      errorMessage := "";
    }

    /** The query `piecesForComposer(composer:)` runs: distinct pieces whose composer is `composer`. */
    static function PiecesOfComposerRequest(composer: string): (r: FetchRequest)
      ensures r.entityName == "Piece" && r.sortDescriptors == [] && r.returnsDistinctResults
      ensures r.filter == EqualTo("composer", composer)
      ensures forall p: Piece :: Holds(r.filter, k => PieceAttribute(p, k)) <==> p.composer == Some(composer)
    {
      FetchRequest("Piece", EqualTo("composer", composer), [], true)
    }

    /**
     * `piecesForComposer(composer:)`: the composer's pieces sorted by
     * `anarthrousTitlePredicate`, or none (and the error shown) when the fetch throws.
     */
    method PiecesForComposer(composer: string, fetch: FetchRequest -> Result<seq<Piece>>)
      returns (pieces: seq<Piece>)
      modifies this
      ensures match fetch(PiecesOfComposerRequest(composer))
        case Err(e) =>
          && pieces == [] && showingError
          && errorMessage == FetchErrorMessage("ComposersCView.swift piecesForComposer(composer:)", e)
        case Ok(fetched) =>
          && multiset(pieces) == multiset(fetched)
          && (forall i, j :: 0 <= i < j < |pieces| ==> !AnarthrousTitlePredicate(pieces[j], pieces[i]))
          && showingError == old(showingError) && errorMessage == old(errorMessage)
    {
      pieces := [];
      var response := fetch(PiecesOfComposerRequest(composer));
      if response.Err? {
        var message := FetchErrorMessage("ComposersCView.swift piecesForComposer(composer:)", response.message);
        errorMessage := message;
        showingError := true;
        return;
      }
      pieces := SortAnarthrous(response.value, (p: Piece) => p.title.GetOr(""));
    }
  }
}
