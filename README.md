# ClassicalPlayer2 core, modelled in Dafny

ClassicalPlayer2 is an iOS music player for classical music. It mirrors the
device media library into its own Core Data store (albums, songs, pieces with
their movements, playlists, composers and one info record holding the
library's modification date and counters), and then presents that store in
list views that sort titles while ignoring a leading article and that carry a
15-entry section index beside every long list.

This project models that core and proves what it promises:

- **Library synchronisation** (`ClassicalMediaLibraries`, `LibraryImport`,
  `Stores`, `Records`, `Media`). The singleton `ClassicalMediaLibrary` is a
  class with the status, flags and the six cached counters of the source. The
  store is a class `Store` holding one sequence of records per entity, with
  relationships as indices into those sequences. The device media library is an
  input value. The import is specified by functions over store values
  (`ImportAlbums`, `RecordEvents`, `ImportPlaylists`, ...), and the methods that
  walk the albums, tracks, parser events and playlists are proved against them.
  The store calls that can throw are named by a `Step`, and a map `faults`
  says which of them throw in one run and with what description (the Song
  lookup of each track of each playlist is a step of its own), so every
  error path of the change check, the import, the clear-and-reload and the
  final save is modelled.
- **Composer index** (`ComposersInLibrary`): the set that `findComposers`
  fills and the fuzzy membership test `composersContains`.
- **Article-insensitive ordering** (`Anarthrous`, `Text`, `Sorting`): the
  regular expression `^(A|An|The)\s+` (case-insensitive), the comparison of
  what remains, and the sort the views run with it. The removal the rest of
  the model uses drops exactly the match; the source's own offset arithmetic,
  which counts the match's UTF-16 length in Swift Characters, is modelled
  beside it and differs on CR LF and joining marks (see Findings).
- **Sort keys, store queries and list views** (`ComposersCommon`,
  `AlbumsCommon`, `SongsCommon`, `FetchRequests`, `SectionIndex` and the five
  `*Views` modules). A store query is a value (`FetchRequest`) whose predicate
  has a meaning (`Holds`). Each view is a class with the `@State` fields of the
  source; its `UpdateUI` receives the store's answer to the query (records or
  an error description) as a function parameter.

All files verify together; there are no axioms and no assumptions.

## Model

| member | source | states |
|---|---|---|
| Anarthrous.SpaceRun | ClassicalPlayer2/ClassicalMediaLibrary/Anarthrous.swift:31-33 | `\s+` takes the whole leading run of white space: every character counted is white space and the next one is not |
| Anarthrous.ArticleMatchLength | ClassicalPlayer2/ClassicalMediaLibrary/Anarthrous.swift:31-33 | the match of the article expression never reaches past the end of the title |
| Anarthrous.RemoveArticle | ClassicalPlayer2/ClassicalMediaLibrary/Anarthrous.swift:21-29 | the result is a suffix of the title and never longer than it |
| Anarthrous.ArticlesExclusive | ClassicalPlayer2/ClassicalMediaLibrary/Anarthrous.swift:31-33 | at most one of "A", "An", "The" followed by white space can open a title, so the alternation picks a unique match |
| Anarthrous.RemoveArticleUnchanged | ClassicalPlayer2/ClassicalMediaLibrary/Anarthrous.swift:21-33 | the title comes back unchanged if and only if it does not open, in any case, with an article followed by white space |
| Anarthrous.RemoveArticleStrips | ClassicalPlayer2/ClassicalMediaLibrary/Anarthrous.swift:25-33 | when an article matches, the result is what follows the article and the whole run of white space after it, so it never opens with white space |
| Anarthrous.RemoveArticleExampleAn | ClassicalPlayer2/ClassicalMediaLibrary/Anarthrous.swift:21-33 | "an  apple" becomes "apple" |
| Anarthrous.RemoveArticleThe | ClassicalPlayer2/ClassicalMediaLibrary/Anarthrous.swift:21-33 | "The " in front of any title that does not open with white space is removed exactly |
| Anarthrous.RemoveArticleExampleOnce | ClassicalPlayer2/ClassicalMediaLibrary/Anarthrous.swift:21-33 | only one article goes: "The A Cat" becomes "A Cat" |
| Anarthrous.RemoveArticleExampleWords | ClassicalPlayer2/ClassicalMediaLibrary/Anarthrous.swift:31-33 | words that merely begin like an article ("Another", "Theme") are untouched |
| Anarthrous.RemoveArticleExamplePlanets | ClassicalPlayer2/ClassicalMediaLibrary/Anarthrous.swift:21-33 | "The Planets" becomes "Planets" |
| Anarthrous.AnarthrousCompare | ClassicalPlayer2/ClassicalMediaLibrary/Anarthrous.swift:14-18 | two titles compare the same exactly when their lower-cased, article-stripped forms are equal |
| Anarthrous.AnarthrousCompareByKey | ClassicalPlayer2/ClassicalMediaLibrary/Anarthrous.swift:14-18 | comparing two titles is comparing their lower-cased, article-stripped forms in character order |
| Anarthrous.AnarthrousCompareIsOrder | ClassicalPlayer2/ClassicalMediaLibrary/Anarthrous.swift:14-18 | the comparison is a total preorder: swapping the operands flips it, it says "same" exactly for equal keys, and "ascending" is transitive |
| Anarthrous.ArticleIgnored | ClassicalPlayer2/ClassicalMediaLibrary/Anarthrous.swift:14-18 | a title with and without a leading "The " compare the same |
| Anarthrous.AnarthrousTitlePredicate | ClassicalPlayer2/ClassicalMediaLibrary/Anarthrous.swift:36-40 | with a missing title read as "", a goes before b exactly when comparing b with a gives "descending", and never when their sort keys agree |
| Anarthrous.AnarthrousTitlePredicateStrict | ClassicalPlayer2/ClassicalMediaLibrary/Anarthrous.swift:36-40 | the title predicate, with a missing title read as "", is irreflexive, asymmetric and transitive, as a sort predicate must be |
| Text.ExtendRun | ClassicalPlayer2/ClassicalMediaLibrary/Anarthrous.swift:26-27 | the run of joining marks that opens a string lies inside it and holds only joining marks |
| Text.CharacterEnd | ClassicalPlayer2/ClassicalMediaLibrary/Anarthrous.swift:26-27 | a Swift Character starting at a position covers at least that character and stays inside the string |
| Text.CharactersEnd | ClassicalPlayer2/AlbumsView.swift:140 | n Characters from a position end inside the string, at least n characters further on unless they reach its end |
| Text.Prefix | ClassicalPlayer2/AlbumsView.swift:140 | `String(s.prefix(n))` is an opening of the string ending on a Character boundary, and it is at least n characters long unless it is the whole string |
| Text.CharactersEndSingle | ClassicalPlayer2/AlbumsView.swift:140 | where no Character is longer than one character, n Characters from a position are n characters, or the rest of the string |
| Text.PrefixSingle | ClassicalPlayer2/AlbumsView.swift:140 | on such strings `prefix(n)` is the first n characters, or the whole string when it is shorter |
| Text.PrefixJoinedExample | ClassicalPlayer2/AlbumsView.swift:140 | a joining mark stays with its Character: the one-Character prefix of "e\u{301}x" is "e\u{301}" |
| Anarthrous.OffsetByCharacters | ClassicalPlayer2/ClassicalMediaLibrary/Anarthrous.swift:26-27 | moving on by k Characters, when it does not run past the end, moves on by at least k characters |
| Anarthrous.RemoveArticleAsWritten | ClassicalPlayer2/ClassicalMediaLibrary/Anarthrous.swift:21-28 | the code as written, offsetting by the match length in Characters: when it does not trap, the result is a suffix of the title, and a title without an article comes back unchanged |
| Anarthrous.OffsetBySingleCharacters | ClassicalPlayer2/ClassicalMediaLibrary/Anarthrous.swift:26-27 | without a CR LF pair and without joining marks every Character is one character, so k Characters are k characters |
| Anarthrous.RemoveArticleAsWrittenAgrees | ClassicalPlayer2/ClassicalMediaLibrary/Anarthrous.swift:21-28 | on such titles the code as written and the intended removal give the same result |
| Anarthrous.MatchLengthTheCrLf | ClassicalPlayer2/ClassicalMediaLibrary/Anarthrous.swift:31-33 | "The" followed by CR LF and a non-space opens a five-character match |
| Anarthrous.SingleCharacter | ClassicalPlayer2/ClassicalMediaLibrary/Anarthrous.swift:26-27 | a printable character followed by a non-joining one is a Character of its own |
| Anarthrous.OffsetPastThe | ClassicalPlayer2/ClassicalMediaLibrary/Anarthrous.swift:26-27 | when the "e" of a leading "The" is not joined, "The" is three Characters |
| Anarthrous.RemoveArticleAsWrittenCrLf | ClassicalPlayer2/ClassicalMediaLibrary/Anarthrous.swift:21-28 | "The\r\n" before a title loses one character too many as written ("The\r\nPlanets" gives "lanets"), while the intended removal leaves the title |
| Anarthrous.RemoveArticleAsWrittenJoined | ClassicalPlayer2/ClassicalMediaLibrary/Anarthrous.swift:21-28 | "The " followed by a joining mark loses the mark too as written, while the intended removal keeps it |
| Anarthrous.RemoveArticleAsWrittenTraps | ClassicalPlayer2/ClassicalMediaLibrary/Anarthrous.swift:21-28 | "The\r\n" alone runs past the end as written (a trap), while the intended removal gives "" |
| Sorting.Sort | ClassicalPlayer2/AlbumsView.swift:129-131 | the sorted list is ordered by the key and is a permutation of the input |
| Sorting.SortAnarthrous | ClassicalPlayer2/AlbumsView.swift:129-131 | the sorted list is a permutation of the input in which no element is strictly before, article-insensitively, an element ahead of it |
| Sorting.InsertSorted | ClassicalPlayer2/AlbumsView.swift:129-131 | inserting into an ordered list keeps it ordered (the step of the sort) |
| ComposersInLibrary.ComposersOfMembers | ClassicalPlayer2/ClassicalMediaLibrary/ComposersInLibrary.swift:41-49 | a name is collected exactly when some item of some album kept by the fake-genre switch has it as composer |
| ComposersInLibrary.ProgressIncrement | ClassicalPlayer2/ClassicalMediaLibrary/ComposersInLibrary.swift:40 | the progress step is at least 1, so the modulo test is always defined, and never overshoots the count |
| ComposersInLibrary.BeforeFirstIs | ClassicalPlayer2/ClassicalMediaLibrary/ComposersInLibrary.swift:69 | the text before the first "(" is the prefix up to the position of the first "(" |
| ComposersInLibrary.RefinedCandidate | ClassicalPlayer2/ClassicalMediaLibrary/ComposersInLibrary.swift:68-70 | the refined candidate holds no "(" and neither opens nor ends with white space |
| ComposersInLibrary.StraussBeforeParen | ClassicalPlayer2/ClassicalMediaLibrary/ComposersInLibrary.swift:69 | the text before "(" of "Strauss (R)" is "Strauss " |
| ComposersInLibrary.StraussTrimmed | ClassicalPlayer2/ClassicalMediaLibrary/ComposersInLibrary.swift:70 | trimming "Strauss " gives "Strauss" |
| ComposersInLibrary.RefinedCandidateExample | ClassicalPlayer2/ClassicalMediaLibrary/ComposersInLibrary.swift:68-70 | "Strauss (R)" is looked up as "Strauss" |
| ComposersInLibrary.ContainsExample | ClassicalPlayer2/ClassicalMediaLibrary/ComposersInLibrary.swift:71-73 | "Brahms" is found in "Brahms, Johannes" |
| ComposersInLibrary.ComposerIndex.constructor | ClassicalPlayer2/ClassicalMediaLibrary/ComposersInLibrary.swift:13-14 | the index starts with no composers and an album count of 0 |
| ComposersInLibrary.ComposerIndex.ComposersCount | ClassicalPlayer2/ClassicalMediaLibrary/ComposersInLibrary.swift:20-22 | the count is zero exactly when no composer is stored |
| ComposersInLibrary.ComposerIndex.FindComposers | ClassicalPlayer2/ClassicalMediaLibrary/ComposersInLibrary.swift:33-58 | afterwards the album count is the number of collections (0 without any) and the set is exactly the composers of the kept albums, whatever it held before |
| ComposersInLibrary.ComposerIndex.GetAlbumCount | ClassicalPlayer2/ClassicalMediaLibrary/ComposersInLibrary.swift:24-26 | returns the stored album count, which FindComposers leaves at the number of album collections |
| ComposersInLibrary.ComposerIndex.ComposersInLibrary | ClassicalPlayer2/ClassicalMediaLibrary/ComposersInLibrary.swift:16-18 | every stored composer appears exactly once and nothing else, so the length is the count |
| ComposersInLibrary.ComposerIndex.ComposersContains | ClassicalPlayer2/ClassicalMediaLibrary/ComposersInLibrary.swift:67-75 | true exactly when some stored composer contains the refined candidate case-insensitively (so never for an empty set) |
| Media.PlayableFirstItems | ClassicalPlayer2/AlbumsCommon.swift:74-84 | at most one track per collection, each playable and the first item of its collection |
| Media.PlayableFirstItemsComplete | ClassicalPlayer2/AlbumsCommon.swift:74-84 | every playable first item of a collection is among the tracks |
| Media.ToCoreData | ClassicalPlayer2/ClassicalMediaLibrary/ClassicalMediaLibrary.swift:652-654 | the stored ID equals the media ID modulo 2^64 and is negative exactly when the media ID's top bit is set |
| Media.FromCoreData | ClassicalPlayer2/ClassicalMediaLibrary/ClassicalMediaLibrary.swift:656-658 | the media ID equals the stored ID modulo 2^64 and has its top bit set exactly when the stored ID is negative |
| Media.FromCoreDataAfterToCoreData | ClassicalPlayer2/ClassicalMediaLibrary/ClassicalMediaLibrary.swift:652-658 | converting a media ID to the store and back gives it back, for every UInt64 |
| Media.ToCoreDataAfterFromCoreData | ClassicalPlayer2/ClassicalMediaLibrary/ClassicalMediaLibrary.swift:652-658 | converting a stored ID to the media library and back gives it back, for every Int64 |
| Media.ToCoreDataInjective | ClassicalPlayer2/ClassicalMediaLibrary/ClassicalMediaLibrary.swift:652-654 | distinct media IDs stay distinct in the store |
| Media.TwoDigits | ClassicalPlayer2/ClassicalMediaLibrary/ClassicalMediaLibrary.swift:623-627 | the seconds field is always two decimal digits |
| Media.DurationAsString | ClassicalPlayer2/ClassicalMediaLibrary/ClassicalMediaLibrary.swift:623-627 | the text has the form "m:ss": digits, a colon, then exactly two digits |
| Media.DurationRoundTrip | ClassicalPlayer2/ClassicalMediaLibrary/ClassicalMediaLibrary.swift:623-627 | the "m:ss" text of a whole number of seconds reads back as that number, so no two durations print alike |
| FetchRequests.FetchErrorMessage | ClassicalPlayer2/AlbumsView.swift:143-147 | the message opens with the place of the failure and ends with the error's description |
| SectionIndex.PositionInBounds | ClassicalPlayer2/AlbumsView.swift:136-140 | for a list of at least 30 entries, every position `i * (count / 15)` with `i < 15` is an index of the list |
| SectionIndex.MarkersSoFarAppend | ClassicalPlayer2/AlbumsView.swift:136-141 | the marker after the first k is the entry at position `k * (count / 15)`, which is in bounds, labelled with the first Characters of its label |
| SectionIndex.IndexMarkersSoFarAppend | ClassicalPlayer2/SongsView.swift:123-128 | the index marker after the first k is the position `k * (count / 15)` itself, in bounds, labelled with the first Characters of that entry's label |
| SectionIndex.MarkerPositionsSpread | ClassicalPlayer2/AlbumsView.swift:132-142 | no marker below 30 entries, otherwise exactly 15, the first at 0, all in bounds, `count / 15` (at least 2) apart and strictly increasing |
| ComposersCommon.PieceSorts.FieldName | ClassicalPlayer2/Composers/ComposersCommon.swift:17-26 | every piece sort names one of the Piece attributes "title", "composer", "artist" |
| ComposersCommon.PieceFieldNamesDistinct | ClassicalPlayer2/Composers/ComposersCommon.swift:17-26 | the three piece sorts name three distinct attributes |
| ComposersCommon.PieceSortField | ClassicalPlayer2/Composers/ComposersCommon.swift:30-39 | the sort field is the attribute the query filters on when present, else "[sine nom.]", "[anon]" or "" |
| ComposersCommon.ComposersFetchRequest | ClassicalPlayer2/Composers/ComposersCommon.swift:78-90 | the composer query filters on the name, by containment exactly when there is filter text, and orders by name ascending, case-insensitively |
| ComposersCommon.ComposersFetchRequestSelects | ClassicalPlayer2/Composers/ComposersCommon.swift:78-90 | the composer query selects exactly the composers whose name is non-empty (empty filter) or contains the filter |
| ComposersCommon.PiecesFetchRequest | ClassicalPlayer2/Composers/ComposersCommon.swift:92-109 | the piece query filters on the attribute the sort names, by containment exactly when there is filter text, and sets no order |
| ComposersCommon.PiecesFetchRequestSelects | ClassicalPlayer2/Composers/ComposersCommon.swift:92-109 | the piece query selects exactly the pieces whose sort attribute is non-empty (empty filter) or contains the filter |
| AlbumsCommon.AlbumSorts.FieldName | ClassicalPlayer2/AlbumsCommon.swift:18-29 | every album sort names one of the Album attributes "title", "composer", "artist", "genre" |
| AlbumsCommon.AlbumFieldNamesDistinct | ClassicalPlayer2/AlbumsCommon.swift:18-29 | the four album sorts name four distinct attributes |
| AlbumsCommon.AlbumSortField | ClassicalPlayer2/AlbumsCommon.swift:33-44 | the sort field is the filtered attribute when present, else "[sine nomine]", "[anon]", "" or "" |
| AlbumsCommon.AlbumsFetchRequest | ClassicalPlayer2/AlbumsCommon.swift:51-67 | the album query filters on the attribute the sort names, by containment exactly when there is filter text, and sets no order |
| AlbumsCommon.AlbumsFetchRequestSelects | ClassicalPlayer2/AlbumsCommon.swift:51-67 | the album query selects exactly the albums whose sort attribute is non-empty or contains the filter |
| AlbumsCommon.TracksFor | ClassicalPlayer2/AlbumsCommon.swift:69-85 | the tracks are the playable first items of the query's collections, none when the query yields no collections |
| SongsCommon.SongSorts.FieldName | ClassicalPlayer2/SongsCommon.swift:17-26 | every song sort names one of the Song attributes "title", "composer", "artist" |
| SongsCommon.SongFieldNamesDistinct | ClassicalPlayer2/SongsCommon.swift:17-26 | the three song sorts name three distinct attributes |
| SongsCommon.SongSortField | ClassicalPlayer2/SongsCommon.swift:30-39 | the sort field is the filtered attribute when present, else "[sine nomine]", "[anon]" or "" |
| SongsCommon.SongsFetchRequest | ClassicalPlayer2/SongsCommon.swift:46-57 | the song query filters on the attribute the sort names, by containment exactly when there is filter text, and sets no order |
| SongsCommon.SongsFetchRequestSelects | ClassicalPlayer2/SongsCommon.swift:46-57 | the song query selects exactly the songs whose sort attribute is non-empty or contains the filter |
| SongsCommon.TrackFor | ClassicalPlayer2/SongsCommon.swift:59-74 | the result is the first playable first item of the persistent-ID query, and none exactly when there is no such item |
| SongsCommon.FirstWithID | ClassicalPlayer2/SongsCommon.swift:76-90 | the result is the first position from the start with the ID, or none when no position has it |
| SongsCommon.SongFor | ClassicalPlayer2/SongsCommon.swift:76-90 | the first stored Song whose persistent ID is the track's converted ID; none when no Song has it or the fetch throws |
| AlbumsViews.AlbumsView.constructor | ClassicalPlayer2/AlbumsView.swift:21-25 | the view starts sorted by title, with no albums, no markers and no error |
| AlbumsViews.AlbumsView.UpdateUI | ClassicalPlayer2/AlbumsView.swift:121-148 | on success the albums are a permutation of the fetched ones in article-insensitive sort-field order, with the markers for them; on a fetch error the lists are kept and the error is shown with its message |
| AlbumsViews.AlbumsView.UpdateSectionMarkers | ClassicalPlayer2/AlbumsView.swift:132-142 | the markers label and point at the albums at the marker positions, with labels that are the first 6 Characters of the sort field |
| SongsViews.SongsView.constructor | ClassicalPlayer2/SongsView.swift:20-26 | the view starts sorted by title, empty, without error or progress |
| SongsViews.SongsView.UpdateUI | ClassicalPlayer2/SongsView.swift:102-144 | the progress flag is down on every way out; on success the songs are a sorted permutation of the fetched ones with position markers; on error the lists are kept and the error is shown |
| SongsViews.SongsView.SectionMarkers | ClassicalPlayer2/SongsView.swift:115-129 | the markers hold the positions `i * (count / 15)` themselves, labelled with the first 3 Characters of the sort field |
| PiecesViews.PiecesView.constructor | ClassicalPlayer2/Composers/PiecesView.swift:25-29 | the view keeps the sort it is given and starts empty without error |
| PiecesViews.PiecesView.UpdateUI | ClassicalPlayer2/Composers/PiecesView.swift:62-86 | on success the pieces are a sorted permutation of the fetched ones with their markers; on error the lists are kept and the error is shown |
| PiecesViews.PiecesView.UpdateSectionMarkers | ClassicalPlayer2/Composers/PiecesView.swift:70-80 | the markers point at the pieces at the marker positions, labelled with the first 6 Characters of the sort field |
| PiecesForComposerViews.PiecesForComposerFetchRequest | ClassicalPlayer2/Composers/PiecesForComposerView.swift:141-154 | the query is the title filter (containment exactly when there is filter text) and'ed with equality of the composer, with no order |
| PiecesForComposerViews.PiecesForComposerFetchRequestSelects | ClassicalPlayer2/Composers/PiecesForComposerView.swift:141-154 | the query selects exactly the pieces of that composer whose title passes the filter |
| PiecesForComposerViews.PiecesForComposerCView.constructor | ClassicalPlayer2/Composers/PiecesForComposerView.swift:19-23 | the view always sorts by title and starts empty without error |
| PiecesForComposerViews.PiecesForComposerCView.UpdateUI | ClassicalPlayer2/Composers/PiecesForComposerView.swift:56-80 | on success the pieces are a permutation of the fetched ones in article-insensitive title order with their markers; on error the lists are kept and the error is shown |
| PiecesForComposerViews.PiecesForComposerCView.UpdateSectionMarkers | ClassicalPlayer2/Composers/PiecesForComposerView.swift:64-74 | the markers point at the pieces at the marker positions, labelled with the first 6 Characters of the sort field |
| ComposersViews.ComposersCView.constructor | ClassicalPlayer2/Composers/ComposersCView.swift:26-29 | the view starts empty without error |
| ComposersViews.ComposersCView.UpdateUI | ClassicalPlayer2/Composers/ComposersCView.swift:70-90 | on success the composers are exactly the fetched ones in fetch order, with their markers; on error the lists are kept and the error is shown |
| ComposersViews.ComposersCView.UpdateSectionMarkers | ClassicalPlayer2/Composers/ComposersCView.swift:74-84 | the markers point at the composers at the marker positions, labelled with the first 3 Characters of the name or of "[no name]" |
| ComposersViews.ComposersCompactLink.constructor | ClassicalPlayer2/Composers/ComposersCView.swift:135-139 | the link holds its composer and starts without error |
| ComposersViews.ComposersCompactLink.PiecesOfComposerRequest | ClassicalPlayer2/Composers/ComposersCView.swift:158-163 | the query asks for distinct Pieces, unsorted, and selects a Piece exactly when its composer is the given name |
| ComposersViews.ComposersCompactLink.PiecesForComposer | ClassicalPlayer2/Composers/ComposersCView.swift:154-173 | on success a permutation of the fetched pieces with no inversion under the title predicate; on error no pieces and the error shown |
| Records.StoreState.Without | ClassicalPlayer2/ClassicalMediaLibrary/ClassicalMediaLibrary.swift:557-566 | a batch delete empties its entity type and leaves the records of every other type, and the info record, exactly as they were |
| Stores.Store.InsertAlbum | ClassicalPlayer2/ClassicalMediaLibrary/ClassicalMediaLibrary.swift:326-339 | the new Album is appended and nothing else changes; its index is returned |
| Stores.Store.InsertSong | ClassicalPlayer2/ClassicalMediaLibrary/ClassicalMediaLibrary.swift:341-359 | the new Song is appended and nothing else changes |
| Stores.Store.InsertPiece | ClassicalPlayer2/ClassicalMediaLibrary/ClassicalMediaLibrary.swift:464-485 | the new Piece is appended and nothing else changes |
| Stores.Store.InsertMovement | ClassicalPlayer2/ClassicalMediaLibrary/ClassicalMediaLibrary.swift:448-461 | the new Movement is appended and nothing else changes |
| Stores.Store.InsertPlaylist | ClassicalPlayer2/ClassicalMediaLibrary/ClassicalMediaLibrary.swift:369-377 | the new Playlist is appended and nothing else changes |
| Stores.Store.InsertComposer | ClassicalPlayer2/ClassicalMediaLibrary/ClassicalMediaLibrary.swift:487-505 | the new Composer is appended and nothing else changes |
| Stores.Store.Link | ClassicalPlayer2/ClassicalMediaLibrary/ClassicalMediaLibrary.swift:379-384 | the Song and the Playlist are linked in both directions |
| Stores.Store.PutInfo | ClassicalPlayer2/ClassicalMediaLibrary/ClassicalMediaLibrary.swift:180-196 | the first info record is replaced, or one is inserted into an empty list |
| Stores.Store.DeleteAll | ClassicalPlayer2/ClassicalMediaLibrary/ClassicalMediaLibrary.swift:557-566 | every record of one type goes and the deletion is logged |
| LibraryImport.Playable | ClassicalPlayer2/ClassicalMediaLibrary/ClassicalMediaLibrary.swift:281 | dropping unplayable items never lengthens the collection |
| LibraryImport.PlayableKeeps | ClassicalPlayer2/ClassicalMediaLibrary/ClassicalMediaLibrary.swift:281 | the kept items are exactly the playable ones |
| LibraryImport.SomeItemsMissingMedia | ClassicalPlayer2/ClassicalMediaLibrary/ClassicalMediaLibrary.swift:320-324 | true exactly when some item reports missing media |
| LibraryImport.MissingAfterFilter | ClassicalPlayer2/ClassicalMediaLibrary/ClassicalMediaLibrary.swift:281-282 | after the filter, media are missing exactly when some playable item reports missing media |
| LibraryImport.AnyMissingMeans | ClassicalPlayer2/ClassicalMediaLibrary/ClassicalMediaLibrary.swift:278-305 | the album loop sees missing media exactly when some playable item of some collection reports it |
| LibraryImport.SongsOf | ClassicalPlayer2/ClassicalMediaLibrary/ClassicalMediaLibrary.swift:341-359 | at most one Song per item |
| LibraryImport.SongsOfAlbum | ClassicalPlayer2/ClassicalMediaLibrary/ClassicalMediaLibrary.swift:341-359 | every new Song belongs to the Album just made and to no playlist |
| LibraryImport.SongsOfExactly | ClassicalPlayer2/ClassicalMediaLibrary/ClassicalMediaLibrary.swift:341-359 | the Songs are made exactly from the playable items the fake-genre switch keeps |
| LibraryImport.EventsNeedTracks | ClassicalPlayer2/ClassicalMediaLibrary/ClassicalMediaLibrary.swift:423-446 | an empty collection produces no events, so it records nothing |
| LibraryImport.PieceCount | ClassicalPlayer2/ClassicalMediaLibrary/ClassicalMediaLibrary.swift:423-446 | at most one piece per event, and at least one once the first event (a piece) has passed |
| LibraryImport.RecordEvents | ClassicalPlayer2/ClassicalMediaLibrary/ClassicalMediaLibrary.swift:423-485 | each piece event adds one Piece and each movement event one Movement |
| LibraryImport.RecordEventsKeeps | ClassicalPlayer2/ClassicalMediaLibrary/ClassicalMediaLibrary.swift:423-485 | recording events only appends Pieces and Movements; all other records stay |
| LibraryImport.RecordEventsLinks | ClassicalPlayer2/ClassicalMediaLibrary/ClassicalMediaLibrary.swift:448-485 | each new Piece belongs to the album; each new Movement belongs to a new Piece, and in event order they never go back to an earlier Piece |
| LibraryImport.ImportedCount | ClassicalPlayer2/ClassicalMediaLibrary/ClassicalMediaLibrary.swift:278-305 | no more Albums are made than collections enumerated |
| LibraryImport.ImportAlbumsAdds | ClassicalPlayer2/ClassicalMediaLibrary/ClassicalMediaLibrary.swift:278-305 | the album loop appends one Album per imported collection, only appends Songs, each of a new Album, and leaves playlists, composers and the info record alone |
| LibraryImport.ImportCollectionAdds | ClassicalPlayer2/ClassicalMediaLibrary/ClassicalMediaLibrary.swift:296-304 | an empty or filtered-out collection adds nothing; any other adds one Album and its Songs |
| LibraryImport.ImportAlbumAdds | ClassicalPlayer2/ClassicalMediaLibrary/ClassicalMediaLibrary.swift:326-339 | one kept collection adds its Album and exactly its Songs |
| LibraryImport.AddOrdered | ClassicalPlayer2/ClassicalMediaLibrary/ClassicalMediaLibrary.swift:381 | adding a Song to the ordered relationship makes it a member, keeps the others, and never adds it twice |
| LibraryImport.Linked | ClassicalPlayer2/ClassicalMediaLibrary/ClassicalMediaLibrary.swift:380-383 | the Song lists the Playlist and the Playlist lists the Song; no other Song or Playlist changes |
| LibraryImport.LinkTrack | ClassicalPlayer2/ClassicalMediaLibrary/ClassicalMediaLibrary.swift:379-384 | linking one track, whose lookup may fail on its own, keeps the numbers of Songs and Playlists and every Song's ID |
| LibraryImport.LinkTracks | ClassicalPlayer2/ClassicalMediaLibrary/ClassicalMediaLibrary.swift:379-384 | linking the tracks, each with its own lookup outcome, keeps the numbers of Songs and Playlists and every Song's ID |
| LibraryImport.FirstWithIDSameIDs | ClassicalPlayer2/SongsCommon.swift:76-90 | the lookup by ID only depends on the Songs' IDs, so linking (which keeps IDs) does not change what later lookups find |
| LibraryImport.LinkTrackAgrees | ClassicalPlayer2/ClassicalMediaLibrary/ClassicalMediaLibrary.swift:379-384 | after one track the links still agree both ways and old links stay; a failing lookup links nothing; a new link is to the Song the lookup finds, and a Song the lookup finds is linked both ways |
| LibraryImport.LinkTrackFinds | ClassicalPlayer2/ClassicalMediaLibrary/ClassicalMediaLibrary.swift:379-384 | one track keeps the Playlist's songs and adds the Song the lookup finds when it does not fail |
| LibraryImport.LinkTracksKeepLinks | ClassicalPlayer2/ClassicalMediaLibrary/ClassicalMediaLibrary.swift:379-384 | after all tracks the links agree both ways and old links stay |
| LibraryImport.LinkTracksNewFound | ClassicalPlayer2/ClassicalMediaLibrary/ClassicalMediaLibrary.swift:379-384 | every new link is to a Song found by the lookup of some track whose lookup did not fail |
| LibraryImport.LinkTracksFoundLinked | ClassicalPlayer2/ClassicalMediaLibrary/ClassicalMediaLibrary.swift:379-384 | the Song found by the lookup of a track whose lookup did not fail is in the Playlist's songs |
| LibraryImport.LinkTracksAgree | ClassicalPlayer2/ClassicalMediaLibrary/ClassicalMediaLibrary.swift:379-384 | after all tracks the links agree both ways and old links stay; every new link is to a Song found by the lookup of some track whose lookup did not fail, and every Song so found is linked both ways |
| LibraryImport.ImportPlaylist | ClassicalPlayer2/ClassicalMediaLibrary/ClassicalMediaLibrary.swift:367-385 | each playlist adds exactly one Playlist and no Song |
| LibraryImport.ImportPlaylists | ClassicalPlayer2/ClassicalMediaLibrary/ClassicalMediaLibrary.swift:361-393 | one Playlist per media playlist and no Song |
| LibraryImport.ImportPlaylistAgrees | ClassicalPlayer2/ClassicalMediaLibrary/ClassicalMediaLibrary.swift:367-385 | the new Playlist carries the converted ID, has an album ID exactly when the playlist has a representative item, its links agree both ways, and it holds a Song exactly when the lookup of some track, not failing, finds that Song |
| LibraryImport.FoundSameIDs | ClassicalPlayer2/SongsCommon.swift:76-90 | which Songs the tracks of a playlist find depends only on the Songs' IDs |
| LibraryImport.ImportPlaylistKeepsEarlier | ClassicalPlayer2/ClassicalMediaLibrary/ClassicalMediaLibrary.swift:367-385 | importing one more playlist leaves the earlier Playlists and their agreeing links as they were, and Songs still only name existing Playlists |
| LibraryImport.ImportPlaylistsKeepIDs | ClassicalPlayer2/ClassicalMediaLibrary/ClassicalMediaLibrary.swift:361-393 | the playlist stage keeps every Song's ID |
| LibraryImport.ImportPlaylistsAgree | ClassicalPlayer2/ClassicalMediaLibrary/ClassicalMediaLibrary.swift:361-393 | after the playlist stage every new Playlist's links agree both ways and Songs only name existing Playlists |
| LibraryImport.ImportPlaylistsLinkFound | ClassicalPlayer2/ClassicalMediaLibrary/ClassicalMediaLibrary.swift:361-393 | the m-th new Playlist holds a Song exactly when the lookup of one of the m-th media playlist's tracks, not failing, finds that Song in the store as it was before the stage |
| LibraryImport.LinkTracksKeepsOthers | ClassicalPlayer2/ClassicalMediaLibrary/ClassicalMediaLibrary.swift:379-384 | linking tracks changes only the songs of the Playlist, not its other attributes nor other Playlists, and changes Songs' links only to that Playlist |
| LibraryImport.DistinctComposers | ClassicalPlayer2/ClassicalMediaLibrary/ClassicalMediaLibrary.swift:487-505 | the names are distinct, non-empty, and each is the composer of some Piece |
| LibraryImport.DistinctComposersComplete | ClassicalPlayer2/ClassicalMediaLibrary/ClassicalMediaLibrary.swift:487-505 | every non-empty Piece composer is among the names |
| LibraryImport.ComposerRecords | ClassicalPlayer2/ClassicalMediaLibrary/ClassicalMediaLibrary.swift:487-505 | one Composer per name, with that name |
| LibraryImport.UpsertInfo | ClassicalPlayer2/ClassicalMediaLibrary/ClassicalMediaLibrary.swift:180-196 | the first info record becomes the new one and the others stay; an empty list gets exactly it |
| ClassicalMediaLibraries.SaveErrorMessage | ClassicalPlayer2/ClassicalMediaLibrary/ClassicalMediaLibrary.swift:536-541 | the status message is the fixed "save error in replaceAppLibraryWithMedia: " prefix followed by the error's description |
| ClassicalMediaLibraries.DeletedBeforeFault | ClassicalPlayer2/ClassicalMediaLibrary/ClassicalMediaLibrary.swift:547-555 | the deletions that run are a prefix of the order, none of them throws, and the next one (if any) throws |
| ClassicalMediaLibraries.ClearOutcomeMeans | ClassicalPlayer2/ClassicalMediaLibrary/ClassicalMediaLibrary.swift:547-555 | clearing passes exactly when no deletion and not the save throws, and then runs every deletion; otherwise it fails with the first deletion in Movement, Piece, Album, Song, Composer, Playlist order that throws |
| ClassicalMediaLibraries.WithoutAllClears | ClassicalPlayer2/ClassicalMediaLibrary/ClassicalMediaLibrary.swift:557-566 | after the batch deletes no record of a deleted type remains, other types and the info record are untouched |
| ClassicalMediaLibraries.ClearOrderCoversEntities | ClassicalPlayer2/ClassicalMediaLibrary/ClassicalMediaLibrary.swift:547-555 | a full clear empties every entity type except the info record |
| ClassicalMediaLibraries.FinalStatus | ClassicalPlayer2/ClassicalMediaLibrary/ClassicalMediaLibrary.swift:216-241 | data is available exactly when the load returned and the save passed; otherwise the status is a store error with the save-error message |
| ClassicalMediaLibraries.LoadCheckpoints | ClassicalPlayer2/ClassicalMediaLibrary/ClassicalMediaLibrary.swift:306-317 | a load that throws nowhere leaves a first info record with the media library's date and the import's counters, so the next change check against the same library finds no change |
| ClassicalMediaLibraries.LoadedInfoCounts | ClassicalPlayer2/ClassicalMediaLibrary/ClassicalMediaLibrary.swift:270-306 | the album counter counts every collection enumerated, including empty and filtered ones; Albums grow by the imported ones; counts are non-negative; the playlist counter counts the playlists; every new Song belongs to a new Album |
| ClassicalMediaLibraries.ImportedStateIs | ClassicalPlayer2/ClassicalMediaLibrary/ClassicalMediaLibrary.swift:276-306 | the import is the album loop followed by the playlists, and its counters are the differences each stage made |
| ClassicalMediaLibraries.ImportPlaylistsKeeps | ClassicalPlayer2/ClassicalMediaLibrary/ClassicalMediaLibrary.swift:361-393 | the playlist stage changes only playlists and the Songs' playlist links |
| ClassicalMediaLibraries.LinkTracksKeepsRecords | ClassicalPlayer2/ClassicalMediaLibrary/ClassicalMediaLibrary.swift:379-384 | linking tracks changes only playlists and the Songs' playlist links |
| ClassicalMediaLibraries.ClassicalMediaLibrary.constructor | ClassicalPlayer2/ClassicalMediaLibrary/ClassicalMediaLibrary.swift:33-49 | the library starts in the initial status with all flags down and all counters zero |
| ClassicalMediaLibraries.ClassicalMediaLibrary.UpdateAppDelegateLibraryInfo | ClassicalPlayer2/ClassicalMediaLibrary/ClassicalMediaLibrary.swift:148-156 | the cache takes all six values of the record |
| ClassicalMediaLibraries.ClassicalMediaLibrary.CheckLibraryChanged | ClassicalPlayer2/ClassicalMediaLibrary/ClassicalMediaLibrary.swift:114-146 | four outcomes: a failing fetch is a store error; no info record loads the library; a record without date is a store error; otherwise data is available with all six counters from the record, and the change flag is raised exactly when the media library is newer; the change flag never changes otherwise, and when nothing is loaded the missing-data and progress flags and the composer index are untouched; a load also leaves the progress flag and index of `loadAppFromMediaLibrary` |
| ClassicalMediaLibraries.ClassicalMediaLibrary.LoadMediaLibraryInitially | ClassicalPlayer2/ClassicalMediaLibrary/ClassicalMediaLibrary.swift:216-241 | nothing is deleted; the store and counters are those of the load; the status is data available (and missing data flagged) or the save-error message; the change flag is untouched; the progress flag stays up exactly when a save or the composer fetch threw, and the index holds the albums and composers found |
| ClassicalMediaLibraries.ClassicalMediaLibrary.PublishLoad | ClassicalPlayer2/ClassicalMediaLibrary/ClassicalMediaLibrary.swift:219-239 | data available, with missing data flagged when the load reported it, or the save-error status |
| ClassicalMediaLibraries.ClassicalMediaLibrary.ReplaceAppLibraryWithMedia | ClassicalPlayer2/ClassicalMediaLibrary/ClassicalMediaLibrary.swift:519-545 | when clearing fails, the deletions before the fault are done, nothing is loaded and the status is the save-error message; otherwise the load runs on the emptied store as in the initial load, with its progress flag and index; the change flag never changes, and a failed clear leaves the missing-data and progress flags and the composer index untouched |
| ClassicalMediaLibraries.ClassicalMediaLibrary.ClearOldData | ClassicalPlayer2/ClassicalMediaLibrary/ClassicalMediaLibrary.swift:547-555 | the deletions run in the fixed order up to the first that throws, and the outcome is the clear's outcome |
| ClassicalMediaLibraries.ClassicalMediaLibrary.DeleteInOrder | ClassicalPlayer2/ClassicalMediaLibrary/ClassicalMediaLibrary.swift:547-553 | the batch deletes run in order until one throws, and say whether all ran |
| ClassicalMediaLibraries.ClassicalMediaLibrary.LoadAppFromMediaLibrary | ClassicalPlayer2/ClassicalMediaLibrary/ClassicalMediaLibrary.swift:259-318 | the result is the first throwing step's error or normal/missing data; the composer index is rebuilt; the store and counters are those of the load; progress stays up only when a step throws |
| ClassicalMediaLibraries.ClassicalMediaLibrary.ImportMedia | ClassicalPlayer2/ClassicalMediaLibrary/ClassicalMediaLibrary.swift:270-306 | counters reset then count the import; the store holds the album loop and the playlists; the media flag is down exactly when some playable item misses media |
| ClassicalMediaLibraries.ClassicalMediaLibrary.LoadAlbums | ClassicalPlayer2/ClassicalMediaLibrary/ClassicalMediaLibrary.swift:278-305 | the album counter grows by every collection, the store holds the album loop's records and the other counters follow them |
| ClassicalMediaLibraries.ClassicalMediaLibrary.LoadNextCollection | ClassicalPlayer2/ClassicalMediaLibrary/ClassicalMediaLibrary.swift:279-304 | one more collection of the loop is imported and checked |
| ClassicalMediaLibraries.ClassicalMediaLibrary.LoadCollection | ClassicalPlayer2/ClassicalMediaLibrary/ClassicalMediaLibrary.swift:279-304 | one collection is counted, checked for missing media after the playable filter, and imported unless empty or filtered out |
| ClassicalMediaLibraries.ClassicalMediaLibrary.LoadAlbum | ClassicalPlayer2/ClassicalMediaLibrary/ClassicalMediaLibrary.swift:301-304 | a kept collection gets its Album, Songs, Pieces and Movements, and the counters follow |
| ClassicalMediaLibraries.ClassicalMediaLibrary.MakeAndFillAlbum | ClassicalPlayer2/ClassicalMediaLibrary/ClassicalMediaLibrary.swift:326-339 | one new Album from the first item, then its Songs; the song counter grows by their number |
| ClassicalMediaLibraries.ClassicalMediaLibrary.LoadSongs | ClassicalPlayer2/ClassicalMediaLibrary/ClassicalMediaLibrary.swift:341-359 | exactly the Songs of the playable, kept items are appended and the song counter grows by their number |
| ClassicalMediaLibraries.ClassicalMediaLibrary.LoadParsedPieces | ClassicalPlayer2/ClassicalMediaLibrary/ClassicalMediaLibrary.swift:423-446 | the parser's events for the titles are recorded in order; the piece and movement counters grow by the records made |
| ClassicalMediaLibraries.ClassicalMediaLibrary.StoreParseEvents | ClassicalPlayer2/ClassicalMediaLibrary/ClassicalMediaLibrary.swift:429-445 | the events are recorded in order, each movement on the last stored piece |
| ClassicalMediaLibraries.ClassicalMediaLibrary.StoreParseEvent | ClassicalPlayer2/ClassicalMediaLibrary/ClassicalMediaLibrary.swift:448-485 | a piece event adds one Piece and becomes the current piece; a movement event adds one Movement of the current piece |
| ClassicalMediaLibraries.ClassicalMediaLibrary.LoadPlaylists | ClassicalPlayer2/ClassicalMediaLibrary/ClassicalMediaLibrary.swift:361-393 | the store becomes ImportPlaylists of the media playlists, with a lookup fault per (playlist, track) step, so by ImportPlaylistsLinkFound each new Playlist holds exactly the Songs its tracks' lookups find; the playlist counter grows by their number |
| ClassicalMediaLibraries.ClassicalMediaLibrary.LinkPlaylistTracks | ClassicalPlayer2/ClassicalMediaLibrary/ClassicalMediaLibrary.swift:379-384 | the store becomes LinkTracks of the playlist's tracks: each track, unless its own lookup throws, is linked both ways to the Song `songFor` finds; nothing is deleted |
| ClassicalMediaLibraries.LookupFaultsOf | ClassicalPlayer2/ClassicalMediaLibrary/ClassicalMediaLibrary.swift:379-384 | the lookup of track k of playlist q fails exactly when its step is among the run's faults, with that step's description |
| ClassicalMediaLibraries.ClassicalMediaLibrary.StoreComposersFromPieces | ClassicalPlayer2/ClassicalMediaLibrary/ClassicalMediaLibrary.swift:487-505 | a failing fetch changes nothing; otherwise one Composer per distinct non-empty Piece composer is added |
| ClassicalMediaLibraries.ClassicalMediaLibrary.StoreMediaLibraryInfo | ClassicalPlayer2/ClassicalMediaLibrary/ClassicalMediaLibrary.swift:180-196 | a failing fetch changes nothing; otherwise the info record is upserted with the media library's date and the six counters |

## Left out

- The platform calls (MediaPlayer authorisation in `checkMediaLibraryAccess`, `MPMediaQuery`, Core Data fetch, save, insert and batch delete) are not modelled. The media library is an input value, the store is the `Store` class, and each throwing store call is a named step in the `faults` map.
- Background tasks, `DispatchQueue.main.async` and `@Published` publishing are concurrency and UI plumbing; the model writes the fields directly and in program order.
- The progress fractions (`albumsProgress`, `playlistsProgress`, `composersProgress`) are floating point and are not modelled. Only the progress step `max(1, count / parts)` is.
- `localizedCaseInsensitiveCompare` and `CONTAINS[cd]` are modelled by ASCII lower-casing and character order. Locale rules and diacritic folding are not modelled.
- The regular expression's `\s` is the ASCII white space (space, tab, newline, return, form feed). Trimming in `composersContains` uses space and tab. Unicode white space is not modelled.
- ComposersInLibrary.ComposerIndex.ComposersContains: an empty refined candidate (as from "(R)") never matches, as Foundation's `range(of: "")` answers nil; this is an assumption about Foundation, not something the files show.
- The batch-delete predicate that `clearEntities` assigns after wrapping the fetch request has a Core Data effect that cannot be seen here; a batch delete removes every record of its type.
- The title parser (`parsePieces`, `ParseResult`) is not part of this model. The import takes it as a parameter that maps track titles to piece and movement events; the only demand on it is that event indices name tracks and the first event is a piece, which the source's `piece!` needs.
- `isPlayable()` and `playabilityCategory()` are not part of this model. Each media item carries the two answers as fields.
- Error messages are built from the error's description. The `NSError` text with `userInfo` and the full `#file` path are not modelled; the place of a fetch error is a fixed string naming the file and function.
- LibraryImport.DistinctComposers: the distinct-values fetch returns names in an order the store chooses; the model takes the order of first appearance among the Pieces.
- ComposersInLibrary.ComposerIndex.FindComposers: with `loadOnlyFake` set, the source reads the first item of every album without checking for one, so the model requires every album to have one.
- The debug printing behind `showParses` and `showPieces` is switched off by constants and is not modelled; `loadOnlyFake` is a parameter.
- The `Int32` counters are unbounded integers; the source traps on overflow rather than wrapping.
- Sorting.Sort: Swift's library `sort(by:)` is stood for by an insertion sort; the views rely only on the result being ordered and a permutation, not on stability.
- Media.DurationAsString: only whole, non-negative numbers of seconds are modelled; the source's `TimeInterval` arithmetic on fractions and negative values is floating point.
- `logCurrentNumberOfAlbums` only logs; the model keeps its fetch as the step `AlbumLogFetch` that may throw. `retrieveMediaLibraryInfo` is not called by the modelled operations and is not modelled.
- Artwork (`artworkFor`, `makeAudioBars`), the audio session (`initializeAudio`) and `albumsFor(track:)` are outside the modelled core.
- The search-field entry points `updateUI(filterText:)` that only pick the view context are not modelled separately; each modelled `UpdateUI` is the variant that takes the context.
- FetchRequests.Holds: a record whose attribute is nil satisfies neither `%K <> %@` nor `%K CONTAINS[cd] %@`. This follows SQL comparison with NULL in the store's SQLite back end; it is an assumption about Core Data, not something the files show.
- Anarthrous.RemoveArticleAsWritten: Swift's Character boundaries are modelled only for CR LF, control characters and the joining marks U+0300 to U+036F and U+200D. The other grapheme rules (prepended marks, spacing marks, Hangul syllables, emoji sequences, regional-indicator pairs) are not modelled. The match is counted in `char`s, which equals its `NSRange` length in UTF-16 units because every match is ASCII.
- Text.Prefix: `prefix(n)` counts Characters with the same partial grapheme rules (CR LF, control characters, joining marks U+0300 to U+036F and U+200D), so the marker labels of AlbumsViews.AlbumsView.UpdateSectionMarkers, SongsViews.SongsView.SectionMarkers, PiecesViews.PiecesView.UpdateSectionMarkers, PiecesForComposerViews.PiecesForComposerCView.UpdateSectionMarkers and ComposersViews.ComposersCView.UpdateSectionMarkers are exact only for text the other grapheme rules do not touch.
- LibraryImport.NewAlbum: the album's `year` is an unbounded integer; the source's `value(forProperty: "year") as! Int32` traps when the year is missing or not an `Int32`, and `Int32(albumTrackCount)` traps above `Int32.max`. Neither trap is modelled.
- ClassicalMediaLibraries.ClassicalMediaLibrary.MakeAndFillAlbum: builds its Album with LibraryImport.NewAlbum, so the same two `Int32` traps (the forced cast of `year` and the conversion of `albumTrackCount`) are not modelled.
- ComposersViews.ComposersCompactLink: `showingError` and `errorMessage` are `@Binding`s to the list view's own state in the source; the model gives the link fields of its own, so an error shown by the link is not seen on ComposersViews.ComposersCView. No caller of `piecesForComposer(composer:)` appears in the source files; it is modelled as the link's method.

## Findings

| source | as written | input that shows it | evidently intended | confidence | as-written member | corrected member |
|---|---|---|---|---|---|---|
| ClassicalPlayer2/ClassicalMediaLibrary/Anarthrous.swift:25-28 | the `NSRange` of the match, counted in UTF-16 units, is used as a count of Swift Characters in `index(_:offsetBy:)`; CR LF is one Character but two units, and a joining mark merges into the space before it | "The\r\nPlanets" gives "lanets"; "The\r\n" runs past the end and traps; "The \u{301}x" gives "x" | drop exactly the matched article and white space: "Planets", "", "\u{301}x" | not executed | Anarthrous.RemoveArticleAsWrittenCrLf | Anarthrous.RemoveArticleStrips |
