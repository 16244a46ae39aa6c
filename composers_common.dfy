/**
 * Sort keys and store queries for the composer and piece lists
 * (ComposersCommon.swift).
 */
module ComposersCommon {
  import opened Wrappers
  import opened Records
  import opened FetchRequests

  /** `PieceSorts`: the field a piece list is sorted and filtered by. */
  datatype PieceSorts = ByTitle | ByComposer | ByArtist {
    /** `fieldName`: the attribute name the store predicate refers to. */
    function FieldName(): (r: string)
      ensures r in ["title", "composer", "artist"]
    {
      match this
      case ByTitle => "title"
      case ByComposer => "composer"
      case ByArtist => "artist"
    }
  }

  /** Different sorts filter on different attributes, each one a Piece attribute. */
  lemma PieceFieldNamesDistinct(a: PieceSorts, b: PieceSorts)
    ensures a.FieldName() == b.FieldName() <==> a == b
  {
  }

  /** A Piece's string attributes by name, as a store predicate sees them. */
  function PieceAttribute(p: Piece, key: string): Option<string> {
    if key == "title" then p.title
    else if key == "composer" then p.composer
    else if key == "artist" then p.artist
    else if key == "genre" then p.genre
    else None
  }

  /**
   * `Piece.sortField`: a list sorts on the attribute its query filters on,
   * its value when present, otherwise "[sine nom.]", "[anon]" or "".
   */
  function PieceSortField(p: Piece, sort: PieceSorts): (r: string)
    ensures var a := PieceAttribute(p, sort.FieldName());
      && (a.Some? ==> r == a.value)
      && (a.None? ==> r == match sort
                         case ByTitle => "[sine nom.]"
                         case ByComposer => "[anon]"
                         case ByArtist => "")
  {
    match sort
    case ByTitle => p.title.GetOr("[sine nom.]")
    case ByComposer => p.composer.GetOr("[anon]")
    case ByArtist => p.artist.GetOr("")
  }

  /** The same sort, as a key function. */
  function PieceSortKey(sort: PieceSorts): Piece -> string {
    p => PieceSortField(p, sort)
  }

  /** A Composer's string attributes by name. */
  function ComposerAttribute(c: Composer, key: string): Option<string> {
    if key == "name" then c.name else None
  }

  /**
   * `composersFetchRequest(filter:in:)`: filters on the name and orders by
   * it, ascending and case-insensitively.
   */
  function ComposersFetchRequest(filter: string): (r: FetchRequest)
    ensures r.entityName == "Composer" && !r.returnsDistinctResults
    ensures r.sortDescriptors == [SortDescriptor("name", true, LocalizedCaseInsensitiveCompare)]
    ensures (r.filter.ContainsCD? || r.filter.NotEqual?) && r.filter.key == "name"
    ensures r.filter.ContainsCD? <==> |filter| > 0
  {
    FetchRequest(
      "Composer",
      if |filter| > 0 then ContainsCD("name", filter) else NotEqual("name", ""),
      [SortDescriptor("name", true, LocalizedCaseInsensitiveCompare)],
      false)
  }

  /**
   * The composer query selects the composers whose name is non-empty (empty
   * filter) or contains the filter text, and orders them by that same name,
   * ascending, case-insensitively.
   */
  lemma ComposersFetchRequestSelects(filter: string, c: Composer)
    ensures var r := ComposersFetchRequest(filter);
      Holds(r.filter, k => ComposerAttribute(c, k)) <==> FilterSelects(filter, c.name)
  {
  }

  /**
   * `piecesFetchRequest(filter:sort:in:)`: filters on the attribute the sort
   * names; no sort descriptors, the views sort afterwards.
   */
  function PiecesFetchRequest(filter: string, sort: PieceSorts): (r: FetchRequest)
    ensures r.entityName == "Piece" && r.sortDescriptors == [] && !r.returnsDistinctResults
    ensures (r.filter.ContainsCD? || r.filter.NotEqual?) && r.filter.key == sort.FieldName()
    ensures r.filter.ContainsCD? <==> |filter| > 0
  {
    FetchRequest(
      "Piece",
      if |filter| > 0 then ContainsCD(sort.FieldName(), filter) else NotEqual(sort.FieldName(), ""),
      [],
      false)
  }

  /** The piece query selects on the attribute the sort names, and leaves the order to the caller. */
  lemma PiecesFetchRequestSelects(filter: string, sort: PieceSorts, p: Piece)
    ensures var r := PiecesFetchRequest(filter, sort);
      Holds(r.filter, k => PieceAttribute(p, k)) <==> FilterSelects(filter, PieceAttribute(p, sort.FieldName()))
  {
  }
}
