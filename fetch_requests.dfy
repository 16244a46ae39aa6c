/**
 * The store queries the list views build, as values: an entity name, a
 * predicate over the record's string attributes, and sort descriptors. What a
 * predicate selects is given by `Holds`; the store that answers a request is
 * not modelled, each view is handed the answer (or the error) instead.
 */
module FetchRequests {
  import opened Wrappers
  import opened Text

  /** The `NSPredicate` forms used by the core. */
  datatype Predicate =
    | NotEqual(key: string, value: string)      // "%K <> %@"
    | ContainsCD(key: string, value: string)    // "%K CONTAINS[cd] %@"
    | EqualTo(key: string, value: string)       // "%K = %@", "%K == %@"
    | And(left: Predicate, right: Predicate)    // NSCompoundPredicate(type: .and)

  /** The comparison selector of a sort descriptor. */
  datatype Selector = LocalizedCaseInsensitiveCompare

  datatype SortDescriptor = SortDescriptor(key: string, ascending: bool, selector: Selector)

  datatype FetchRequest = FetchRequest(
    entityName: string,
    filter: Predicate,
    sortDescriptors: seq<SortDescriptor>,
    returnsDistinctResults: bool)

  /**
   * Does a record whose attribute named `k` is `attribute(k)` satisfy `p`? A
   * missing (nil) attribute satisfies neither `<>` nor `CONTAINS`, as in SQL.
   * Over ASCII there are no diacritics, so `[cd]` reduces to case-insensitivity.
   */
  predicate Holds(p: Predicate, attribute: string -> Option<string>) {
    match p
    case NotEqual(k, v) => attribute(k).Some? && attribute(k).value != v
    case ContainsCD(k, v) => attribute(k).Some? && ContainsCaseInsensitive(attribute(k).value, v)
    case EqualTo(k, v) => attribute(k) == Some(v)
    case And(l, r) => Holds(l, attribute) && Holds(r, attribute)
  }

  /**
   * What the filter of a list view selects on the field `key`: a non-empty
   * field when the filter text is empty, otherwise a field containing the text.
   */
  predicate FilterSelects(filter: string, value: Option<string>) {
    value.Some? && if |filter| > 0 then ContainsCaseInsensitive(value.value, filter) else value.value != ""
  }

  /** The message a view shows when its fetch throws: where, then the error's description. */
  function FetchErrorMessage(place: string, description: string): (r: string)
    ensures |r| > |place| + |description|
    ensures r[..|place|] == place && r[|r| - |description|..] == description
  {
    place + " error fetching: " + description
  }
}
