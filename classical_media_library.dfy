/**
 * The library singleton of ClassicalMediaLibrary.swift: the status the app
 * shows, the cached counters of the last import, and the three store
 * operations that keep the store in step with the device media library —
 * the change check, the import, and the clear-and-reload.
 *
 * The device library is an input value (`MediaLibrary`); the store is a
 * `Store`; the title parser is a function from track titles to the events
 * it reports. Every store call that can throw is named by a `Step`; the map
 * `faults` says which of them throw in one run, and with what description.
 */
module ClassicalMediaLibraries {
  import opened Wrappers
  import opened Media
  import opened Records
  import opened SongsCommon
  import opened LibraryImport
  import opened Stores
  import opened ComposersInLibrary

  /** What the app shows: the authorisation outcome, data available, or a store error. */
  datatype Status =
    | Initial
    | Authorized
    | Restricted(message: string)
    | Denied(message: string)
    | DataAvailable
    | CoreDataError(message: string)

  /** Whether the import saw a playable item without its media. */
  datatype LoadReturn = Normal | MissingData

  /** The store calls that can throw. */
  datatype Step =
    | CheckInfoFetch   // getMediaLibraryInfo in checkLibraryChanged
    | AlbumLogFetch    // logCurrentNumberOfAlbums
    | Delete(entity: Entity)  // one batch delete of clearOldData
    | ClearSave        // the save ending clearOldData
    | ImportSave       // the save after the album and playlist loops
    | ComposerFetch    // the distinct-composer fetch of storeComposersFromPieces
    | ComposerSave     // the save after storeComposersFromPieces
    | StoreInfoFetch   // getMediaLibraryInfo in storeMediaLibraryInfo
    | LoadSave         // the save after loadAppFromMediaLibrary returns
    | SongLookup(playlist: nat, track: nat)  // the fetch in songFor(track:in:) for one track of one playlist

  const NoDateMessage: string := "Last modification date not set in media library info"
  const SaveErrorPrefix: string := "save error in replaceAppLibraryWithMedia: "

  /** The message both background loads show for an error. */
  function SaveErrorMessage(description: string): (m: string)
    ensures |m| == |SaveErrorPrefix| + |description|
    ensures m[..|SaveErrorPrefix|] == SaveErrorPrefix && m[|SaveErrorPrefix|..] == description
  {
    SaveErrorPrefix + description
  }

  /** Which `songFor` fetches of `loadPlaylists` throw, and with what description. */
  function LookupFaultsOf(faults: map<Step, string>): (r: LookupFaults)
    ensures forall q: nat, k: nat :: r(q, k).Some? <==> SongLookup(q, k) in faults
    ensures forall q: nat, k: nat :: r(q, k).Some? ==> r(q, k).value == faults[SongLookup(q, k)]
  {
    (q: nat, k: nat) => if SongLookup(q, k) in faults then Some(faults[SongLookup(q, k)]) else None
  }

  /** The entity types `clearOldData` deletes, in its order. */
  const ClearOrder: seq<Entity> :=
    [MovementEntity, PieceEntity, AlbumEntity, SongEntity, ComposerEntity, PlaylistEntity]

  /** The deletions that run: those of `order` before the first one that throws. */
  function DeletedBeforeFault(faults: map<Step, string>, order: seq<Entity>): (r: seq<Entity>)
    ensures |r| <= |order| && r == order[..|r|]
    ensures forall e :: e in r ==> Delete(e) !in faults
    ensures |r| < |order| ==> Delete(order[|r|]) in faults
  {
    if order == [] || Delete(order[0]) in faults then []
    else [order[0]] + DeletedBeforeFault(faults, order[1..])
  }

  /** How `clearOldData` ends: the first deletion that throws, else the save. */
  function ClearOutcome(faults: map<Step, string>): Outcome {
    var done := DeletedBeforeFault(faults, ClearOrder);
    if |done| < |ClearOrder| then Fail(faults[Delete(ClearOrder[|done|])])
    else if ClearSave in faults then Fail(faults[ClearSave])
    else Pass
  }

  /**
   * The clear passes exactly when no deletion and not the save throws; it
   * fails with the message of the first deletion in `ClearOrder` that throws,
   * and runs every deletion when it passes.
   */
  lemma ClearOutcomeMeans(faults: map<Step, string>)
    ensures ClearOutcome(faults).Pass? <==>
      (forall e :: e in ClearOrder ==> Delete(e) !in faults) && ClearSave !in faults
    ensures ClearOutcome(faults).Pass? ==> DeletedBeforeFault(faults, ClearOrder) == ClearOrder
    ensures forall i :: 0 <= i < |ClearOrder| && Delete(ClearOrder[i]) in faults
                        && (forall j :: 0 <= j < i ==> Delete(ClearOrder[j]) !in faults) ==>
      ClearOutcome(faults) == Fail(faults[Delete(ClearOrder[i])])
  {
    var done := DeletedBeforeFault(faults, ClearOrder);
    forall i | 0 <= i < |ClearOrder| && Delete(ClearOrder[i]) in faults
               && (forall j :: 0 <= j < i ==> Delete(ClearOrder[j]) !in faults)
      ensures ClearOutcome(faults) == Fail(faults[Delete(ClearOrder[i])])
    {
      assert |done| == i;
    }
    if |done| == |ClearOrder| {
      assert done == ClearOrder[..|ClearOrder|] == ClearOrder;
    } else {
      assert Delete(ClearOrder[|done|]) in faults;
    }
  }

  /** The store after the batch deletes of `es`, in order. */
  function WithoutAll(s: StoreState, es: seq<Entity>): StoreState {
    if es == [] then s else WithoutAll(s, es[..|es| - 1]).Without(es[|es| - 1])
  }

  /**
   * A full clear leaves no record of any cleared type, and it keeps the info
   * record: the checkpoint survives a reload until the import overwrites it.
   */
  lemma {:induction false} WithoutAllClears(s: StoreState, es: seq<Entity>)
    ensures forall e :: e in es ==> WithoutAll(s, es).Count(e) == 0
    ensures forall e :: e !in es ==> WithoutAll(s, es).Count(e) == s.Count(e)
    ensures WithoutAll(s, es).infos == s.infos
  {
    if es != [] {
      WithoutAllClears(s, es[..|es| - 1]);
      forall e | e in es ensures WithoutAll(s, es).Count(e) == 0 {
        if e != es[|es| - 1] {
          assert e in es[..|es| - 1];
        }
      }
    }
  }

  /** `clearOldData` clears every entity type except the info record. */
  lemma ClearOrderCoversEntities(s: StoreState)
    ensures forall e :: WithoutAll(s, ClearOrder).Count(e) == 0
    ensures WithoutAll(s, ClearOrder).infos == s.infos
  {
    WithoutAllClears(s, ClearOrder);
    forall e ensures e in ClearOrder {
      match e
      case MovementEntity => assert ClearOrder[0] == e;
      case PieceEntity => assert ClearOrder[1] == e;
      case AlbumEntity => assert ClearOrder[2] == e;
      case SongEntity => assert ClearOrder[3] == e;
      case ComposerEntity => assert ClearOrder[4] == e;
      case PlaylistEntity => assert ClearOrder[5] == e;
    }
  }

  // ---------------------------------------------------------------- what one import does

  /** The store after the album loop and `loadPlaylists`; both run only when the album query has collections. */
  ghost function ImportedState(s0: StoreState, media: MediaLibrary, parse: seq<string> -> seq<ParseEvent>,
                               loadOnlyFake: bool, faults: map<Step, string>): StoreState
    requires ParserWellFormed(parse)
  {
    match media.albums
    case None => s0
    case Some(collections) =>
      var s := ImportAlbums(s0, collections, |collections|, parse, loadOnlyFake);
      if media.playlists.Some? then ImportPlaylists(s, media.playlists.value, |media.playlists.value|, LookupFaultsOf(faults))
      else s
  }

  /** The counters an import leaves: the library date, every collection, and the records it made. */
  ghost function LoadedInfo(s0: StoreState, media: MediaLibrary, parse: seq<string> -> seq<ParseEvent>,
                            loadOnlyFake: bool, faults: map<Step, string>): MediaLibraryInfo
    requires ParserWellFormed(parse)
  {
    var s1 := ImportedState(s0, media, parse, loadOnlyFake, faults);
    MediaLibraryInfo(Some(media.lastModifiedDate),
                     if media.albums.Some? then |media.albums.value| else 0,
                     |s1.songs| - |s0.songs|, |s1.pieces| - |s0.pieces|,
                     |s1.movements| - |s0.movements|, |s1.playlists| - |s0.playlists|)
  }

  /** The store after `loadAppFromMediaLibrary`, up to the first step that throws. */
  ghost function LoadedState(s0: StoreState, media: MediaLibrary, parse: seq<string> -> seq<ParseEvent>,
                             loadOnlyFake: bool, faults: map<Step, string>): StoreState
    requires ParserWellFormed(parse)
  {
    var s1 := ImportedState(s0, media, parse, loadOnlyFake, faults);
    var s2 := s1.(composers := s1.composers + ComposerRecords(DistinctComposers(s1.pieces)));
    if ImportSave in faults || ComposerFetch in faults then s1
    else if ComposerSave in faults || StoreInfoFetch in faults then s2
    else s2.(infos := UpsertInfo(s2.infos, LoadedInfo(s0, media, parse, loadOnlyFake, faults)))
  }

  /** What `loadAppFromMediaLibrary` returns or throws. */
  ghost function LoadResult(media: MediaLibrary, faults: map<Step, string>): Result<LoadReturn> {
    if ImportSave in faults then Err(faults[ImportSave])
    else if ComposerFetch in faults then Err(faults[ComposerFetch])
    else if ComposerSave in faults then Err(faults[ComposerSave])
    else if StoreInfoFetch in faults then Err(faults[StoreInfoFetch])
    else if media.albums.Some? && AnyMissing(media.albums.value, |media.albums.value|) then Ok(MissingData)
    else Ok(Normal)
  }

  /** The status a background load ends with, after the final save. */
  function FinalStatus(r: Result<LoadReturn>, faults: map<Step, string>): (st: Status)
    ensures st == DataAvailable <==> r.Ok? && LoadSave !in faults
    ensures st != DataAvailable ==> st.CoreDataError? && SaveErrorPrefix <= st.message
  {
    if r.Err? then CoreDataError(SaveErrorMessage(r.message))
    else if LoadSave in faults then CoreDataError(SaveErrorMessage(faults[LoadSave]))
    else DataAvailable
  }

  /**
   * An import that throws nowhere checkpoints itself: the first info record
   * then holds the media library's date and the import's counters, so the
   * next change check against the same library finds nothing new.
   */
  lemma LoadCheckpoints(s0: StoreState, media: MediaLibrary, parse: seq<string> -> seq<ParseEvent>,
                        loadOnlyFake: bool, faults: map<Step, string>)
    requires ParserWellFormed(parse)
    requires ImportSave !in faults && ComposerFetch !in faults && ComposerSave !in faults && StoreInfoFetch !in faults
    ensures var s := LoadedState(s0, media, parse, loadOnlyFake, faults);
      && |s.infos| >= 1
      && s.infos[0] == LoadedInfo(s0, media, parse, loadOnlyFake, faults)
      && s.infos[0].lastModifiedDate == Some(media.lastModifiedDate)
  {
  }

  /**
   * The counters an import leaves describe it: one per collection enumerated,
   * one Album per collection imported, and every count at least zero; every
   * new Song belongs to a new Album, and the import adds no Composer before
   * `storeComposersFromPieces`.
   */
  lemma LoadedInfoCounts(s0: StoreState, media: MediaLibrary, parse: seq<string> -> seq<ParseEvent>,
                         loadOnlyFake: bool, faults: map<Step, string>)
    requires ParserWellFormed(parse)
    ensures var info := LoadedInfo(s0, media, parse, loadOnlyFake, faults);
      var s1 := ImportedState(s0, media, parse, loadOnlyFake, faults);
      && info.albumCount == (if media.albums.Some? then |media.albums.value| else 0)
      && |s1.albums| == |s0.albums| + (if media.albums.Some? then ImportedCount(media.albums.value, |media.albums.value|, loadOnlyFake) else 0)
      && info.songCount >= 0 && info.pieceCount >= 0 && info.movementCount >= 0
      && info.playlistCount == (if media.albums.Some? && media.playlists.Some? then |media.playlists.value| else 0)
      && s1.composers == s0.composers && s1.infos == s0.infos
      && (forall k :: |s0.songs| <= k < |s1.songs| ==>
            s1.songs[k].album.Some? && |s0.albums| <= s1.songs[k].album.value < |s1.albums|)
  {
    if media.albums.Some? {
      var collections := media.albums.value;
      ImportAlbumsAdds(s0, collections, |collections|, parse, loadOnlyFake);
      var s := ImportAlbums(s0, collections, |collections|, parse, loadOnlyFake);
      if media.playlists.Some? {
        ImportPlaylistsKeeps(s, media.playlists.value, |media.playlists.value|, LookupFaultsOf(faults));
      }
    }
  }

  /**
   * The import in two stages: the album loop leaves `s1`, the playlists then
   * leave `s2`; the counters are the differences each stage made.
   */
  lemma ImportedStateIs(s0: StoreState, media: MediaLibrary, parse: seq<string> -> seq<ParseEvent>,
                        loadOnlyFake: bool, faults: map<Step, string>, collections: seq<seq<MediaItem>>,
                        s1: StoreState, s2: StoreState)
    requires ParserWellFormed(parse) && media.albums == Some(collections)
    requires s1 == ImportAlbums(s0, collections, |collections|, parse, loadOnlyFake)
    requires s2 == match media.playlists
                   case Some(lists) => ImportPlaylists(s1, lists, |lists|, LookupFaultsOf(faults))
                   case None => s1
    ensures ImportedState(s0, media, parse, loadOnlyFake, faults) == s2
    ensures LoadedInfo(s0, media, parse, loadOnlyFake, faults)
         == MediaLibraryInfo(Some(media.lastModifiedDate), |collections|,
                             |s1.songs| - |s0.songs|, |s1.pieces| - |s0.pieces|, |s1.movements| - |s0.movements|,
                             |s2.playlists| - |s1.playlists|)
  {
    ImportAlbumsAdds(s0, collections, |collections|, parse, loadOnlyFake);
    match media.playlists
    case Some(lists) => ImportPlaylistsKeeps(s1, lists, |lists|, LookupFaultsOf(faults));
    case None =>
  }

  /** What the playlist stage may change, from `s` to `r`: playlists and the Songs' playlist links, nothing else. */
  ghost predicate LinksOnly(s: StoreState, r: StoreState) {
    && |r.songs| == |s.songs|
    && r.albums == s.albums && r.pieces == s.pieces && r.movements == s.movements
    && r.composers == s.composers && r.infos == s.infos
    && (forall k :: 0 <= k < |s.songs| ==> r.songs[k].album == s.songs[k].album)
  }

  /** `loadPlaylists` changes playlists and the songs' playlist links, nothing else. */
  lemma {:induction false} ImportPlaylistsKeeps(s: StoreState, lists: seq<MediaPlaylist>, n: nat, faults: LookupFaults)
    requires n <= |lists|
    ensures LinksOnly(s, ImportPlaylists(s, lists, n, faults))
  {
    if n > 0 {
      ImportPlaylistsKeeps(s, lists, n - 1, faults);
      var prior := ImportPlaylists(s, lists, n - 1, faults);
      var list := lists[n - 1];
      var withList := prior.(playlists := prior.playlists + [NewPlaylist(list)]);
      var r := ImportPlaylists(s, lists, n, faults);
      assert r == LinkTracks(withList, |prior.playlists|, list.items, |list.items|, n - 1, faults);
      LinkTracksKeepsRecords(withList, |prior.playlists|, list.items, |list.items|, n - 1, faults);
      assert LinksOnly(prior, withList);
    }
  }

  /** Linking tracks changes playlists and the songs' playlist links, nothing else. */
  lemma {:induction false} LinkTracksKeepsRecords(s: StoreState, p: nat, tracks: seq<MediaItem>, n: nat, q: nat,
                                                 faults: LookupFaults)
    requires p < |s.playlists| && n <= |tracks|
    ensures LinksOnly(s, LinkTracks(s, p, tracks, n, q, faults))
  {
    if n > 0 {
      LinkTracksKeepsRecords(s, p, tracks, n - 1, q, faults);
      var prior := LinkTracks(s, p, tracks, n - 1, q, faults);
      var r := LinkTracks(s, p, tracks, n, q, faults);
      assert r == LinkTrack(prior, p, tracks[n - 1], faults(q, n - 1));
      assert LinksOnly(prior, r);
    }
  }

  // ---------------------------------------------------------------- the library object

  class ClassicalMediaLibrary {
    var status: Status
    var dataMissing: bool
    var libraryChanged: bool
    var showingProgress: bool
    var libraryDate: Option<int>
    var libraryAlbumCount: int
    var librarySongCount: int
    var libraryPieceCount: int
    var libraryMovementCount: int
    var libraryPlaylistCount: int
    /** The app's store. */
    const store: Store
    /** The composer index of ComposersInLibrary.swift. */
    const index: ComposerIndex

    constructor (store: Store, index: ComposerIndex)
      ensures this.store == store && this.index == index
      ensures status == Initial && !dataMissing && !libraryChanged && !showingProgress
      ensures CountersInfo() == MediaLibraryInfo(None, 0, 0, 0, 0, 0)
    {
      this.store := store;
      this.index := index;
      status := Initial;
      dataMissing, libraryChanged, showingProgress := false, false, false;
      libraryDate := None;
      libraryAlbumCount, librarySongCount, libraryPieceCount := 0, 0, 0;
      libraryMovementCount, libraryPlaylistCount := 0, 0;
    }

    /** The cached date and counters, in the shape of the info record. */
    function CountersInfo(): MediaLibraryInfo
      reads this
    {
      MediaLibraryInfo(libraryDate, libraryAlbumCount, librarySongCount, libraryPieceCount,
                       libraryMovementCount, libraryPlaylistCount)
    }

    /**
     * The song, piece and movement counters have grown by exactly the records
     * the store gained since the counters were `info` and the store was `s`.
     */
    ghost predicate CountsFollow(info: MediaLibraryInfo, s: StoreState)
      reads this, store
    {
      && librarySongCount - |store.songs| == info.songCount - |s.songs|
      && libraryPieceCount - |store.pieces| == info.pieceCount - |s.pieces|
      && libraryMovementCount - |store.movements| == info.movementCount - |s.movements|
    }

    /** The store holds what the album loop and the playlists import into `s0`, and the counters count it. */
    ghost predicate Imports(s0: StoreState, media: MediaLibrary, parse: seq<string> -> seq<ParseEvent>,
                            loadOnlyFake: bool, faults: map<Step, string>)
      requires ParserWellFormed(parse)
      reads this, store
    {
      && store.State() == ImportedState(s0, media, parse, loadOnlyFake, faults)
      && CountersInfo() == LoadedInfo(s0, media, parse, loadOnlyFake, faults)
    }

    /** The store holds what a whole load leaves in `s0`, up to the first step that throws, and the counters count the import. */
    ghost predicate Loads(s0: StoreState, media: MediaLibrary, parse: seq<string> -> seq<ParseEvent>,
                          loadOnlyFake: bool, faults: map<Step, string>)
      requires ParserWellFormed(parse)
      reads this, store
    {
      && store.State() == LoadedState(s0, media, parse, loadOnlyFake, faults)
      && CountersInfo() == LoadedInfo(s0, media, parse, loadOnlyFake, faults)
    }

    /** `updateAppDelegateLibraryInfo(from:)`: the cache takes all six values of the record. */
    method UpdateAppDelegateLibraryInfo(info: MediaLibraryInfo)
      modifies this`libraryDate, this`libraryAlbumCount, this`librarySongCount, this`libraryPieceCount,
               this`libraryMovementCount, this`libraryPlaylistCount
      ensures CountersInfo() == info
    {
      libraryDate := info.lastModifiedDate;
      libraryAlbumCount := info.albumCount;
      librarySongCount := info.songCount;
      libraryPieceCount := info.pieceCount;
      libraryMovementCount := info.movementCount;
      libraryPlaylistCount := info.playlistCount;
    }

    /**
     * `checkLibraryChanged()`: load the library when the store has no info
     * record; report a missing date; otherwise take the cached counters from
     * the record and flag a change when the media library is newer.
     */
    method CheckLibraryChanged(media: MediaLibrary, parse: seq<string> -> seq<ParseEvent>, loadOnlyFake: bool,
                               faults: map<Step, string>)
      requires ParserWellFormed(parse)
      requires loadOnlyFake && media.albums.Some? ==> forall a :: a in media.albums.value ==> |a| > 0
      modifies this, store, index
      ensures store.deletions == old(store.deletions)
      ensures CheckInfoFetch in faults ==>
        && status == CoreDataError(faults[CheckInfoFetch])
        && store.State() == old(store.State()) && CountersInfo() == old(CountersInfo())
        && libraryChanged == old(libraryChanged)
      ensures CheckInfoFetch !in faults && old(store.infos) == [] ==>
        var r := LoadResult(media, faults);
        && status == FinalStatus(r, faults)
        && dataMissing == (old(dataMissing) || (status == DataAvailable && r == Ok(MissingData)))
        && libraryChanged == old(libraryChanged)
        && showingProgress == (ImportSave in faults || ComposerFetch in faults || ComposerSave in faults)
        && index.GetAlbumCount() == (if media.albums.Some? then |media.albums.value| else 0)
        && index.composersFound == (if media.albums.Some? then ComposersOf(media.albums.value, loadOnlyFake) else {})
        && Loads(old(store.State()), media, parse, loadOnlyFake, faults)
      ensures CheckInfoFetch in faults || old(store.infos) != [] ==>
        dataMissing == old(dataMissing) && showingProgress == old(showingProgress) && unchanged(index)
      ensures CheckInfoFetch !in faults && old(store.infos) != [] && old(store.infos[0].lastModifiedDate).None? ==>
        && status == CoreDataError(NoDateMessage)
        && store.State() == old(store.State()) && CountersInfo() == old(CountersInfo())
        && libraryChanged == old(libraryChanged)
      ensures CheckInfoFetch !in faults && old(store.infos) != [] && old(store.infos[0].lastModifiedDate).Some? ==>
        var stored := old(store.infos[0]);
        && store.State() == old(store.State())
        && (AlbumLogFetch in faults ==>
              status == CoreDataError(faults[AlbumLogFetch]) && CountersInfo() == old(CountersInfo())
              && libraryChanged == old(libraryChanged))
        && (AlbumLogFetch !in faults ==>
              && status == DataAvailable && CountersInfo() == stored
              && libraryChanged == (old(libraryChanged) || media.lastModifiedDate > stored.lastModifiedDate.value))
    {
      if CheckInfoFetch in faults {
        status := CoreDataError(faults[CheckInfoFetch]);
        return;
      }
      var libraryInfos := store.infos;
      if |libraryInfos| < 1 {
        LoadMediaLibraryInitially(media, parse, loadOnlyFake, faults);
        return;
      }
      var mediaLibraryInfo := libraryInfos[0];
      if mediaLibraryInfo.lastModifiedDate.Some? {
        var storedLastModDate := mediaLibraryInfo.lastModifiedDate.value;
        if AlbumLogFetch in faults {
          status := CoreDataError(faults[AlbumLogFetch]);
          return;
        }
        UpdateAppDelegateLibraryInfo(mediaLibraryInfo);
        status := DataAvailable;
        if media.lastModifiedDate > storedLastModDate {
          libraryChanged := true;
        }
      } else {
        status := CoreDataError(NoDateMessage);
      }
    }

    /** `loadMediaLibraryInitially()`: import without clearing, then save and publish. */
    method LoadMediaLibraryInitially(media: MediaLibrary, parse: seq<string> -> seq<ParseEvent>, loadOnlyFake: bool,
                                     faults: map<Step, string>)
      requires ParserWellFormed(parse)
      requires loadOnlyFake && media.albums.Some? ==> forall a :: a in media.albums.value ==> |a| > 0
      modifies this, store, index
      ensures store.deletions == old(store.deletions)
      ensures var r := LoadResult(media, faults);
        && status == FinalStatus(r, faults)
        && dataMissing == (old(dataMissing) || (status == DataAvailable && r == Ok(MissingData)))
      ensures libraryChanged == old(libraryChanged)
      ensures showingProgress == (ImportSave in faults || ComposerFetch in faults || ComposerSave in faults)
      ensures index.GetAlbumCount() == (if media.albums.Some? then |media.albums.value| else 0)
      ensures index.composersFound == (if media.albums.Some? then ComposersOf(media.albums.value, loadOnlyFake) else {})
      ensures Loads(old(store.State()), media, parse, loadOnlyFake, faults)
    {
      var loadReturn := LoadAppFromMediaLibrary(media, parse, loadOnlyFake, faults);
      PublishLoad(loadReturn, faults);
    }

    /**
     * The tail of both background loads: the save, then data available
     * (and missing data flagged) or the save-error status.
     */
    method PublishLoad(loadReturn: Result<LoadReturn>, faults: map<Step, string>)
      modifies this`status, this`dataMissing
      ensures status == FinalStatus(loadReturn, faults)
      ensures dataMissing == (old(dataMissing) || (status == DataAvailable && loadReturn == Ok(MissingData)))
    {
      if loadReturn.Err? {
        status := CoreDataError(SaveErrorMessage(loadReturn.message));
        return;
      }
      if LoadSave in faults {
        status := CoreDataError(SaveErrorMessage(faults[LoadSave]));
        return;
      }
      match loadReturn.value
      case Normal =>
        status := DataAvailable;
      case MissingData =>
        status := DataAvailable;
        dataMissing := true;
    }

    /**
     * `replaceAppLibraryWithMedia()`: clear the store; when a deletion or
     * the save after them throws, report it and load nothing; otherwise
     * import, save and publish exactly as `loadMediaLibraryInitially` does.
     */
    method ReplaceAppLibraryWithMedia(media: MediaLibrary, parse: seq<string> -> seq<ParseEvent>, loadOnlyFake: bool,
                                      faults: map<Step, string>)
      requires ParserWellFormed(parse)
      requires loadOnlyFake && media.albums.Some? ==> forall a :: a in media.albums.value ==> |a| > 0
      modifies this, store, index
      ensures store.deletions == old(store.deletions) + DeletedBeforeFault(faults, ClearOrder)
      ensures libraryChanged == old(libraryChanged)
      ensures ClearOutcome(faults).Fail? ==>
        && status == CoreDataError(SaveErrorMessage(ClearOutcome(faults).message))
        && store.State() == WithoutAll(old(store.State()), DeletedBeforeFault(faults, ClearOrder))
        && CountersInfo() == old(CountersInfo())
        && dataMissing == old(dataMissing) && showingProgress == old(showingProgress) && unchanged(index)
      ensures ClearOutcome(faults).Pass? ==>
        var r := LoadResult(media, faults);
        && status == FinalStatus(r, faults)
        && dataMissing == (old(dataMissing) || (status == DataAvailable && r == Ok(MissingData)))
        && showingProgress == (ImportSave in faults || ComposerFetch in faults || ComposerSave in faults)
        && index.GetAlbumCount() == (if media.albums.Some? then |media.albums.value| else 0)
        && index.composersFound == (if media.albums.Some? then ComposersOf(media.albums.value, loadOnlyFake) else {})
        && Loads(WithoutAll(old(store.State()), ClearOrder), media, parse, loadOnlyFake, faults)
    {
      var cleared := ClearOldData(faults);
      if cleared.Fail? {
        status := CoreDataError(SaveErrorMessage(cleared.message));
        return;
      }
      assert DeletedBeforeFault(faults, ClearOrder) == ClearOrder[..|ClearOrder|] == ClearOrder;
      LoadMediaLibraryInitially(media, parse, loadOnlyFake, faults);
    }

    /** `clearOldData(from:)`: the batch deletes in order, then the save; the first failure ends it. */
    method ClearOldData(faults: map<Step, string>) returns (outcome: Outcome)
      modifies store
      ensures var done := DeletedBeforeFault(faults, ClearOrder);
        && store.deletions == old(store.deletions) + done
        && store.State() == WithoutAll(old(store.State()), done)
        && outcome == ClearOutcome(faults)
    {
      var deleted := DeleteInOrder(ClearOrder, faults);
      if !deleted {
        var done := DeletedBeforeFault(faults, ClearOrder);
        return Fail(faults[Delete(ClearOrder[|done|])]);
      }
      if ClearSave in faults {
        return Fail(faults[ClearSave]);
      }
      return Pass;
    }

    /**
     * The batch deletes of `order`, one after the other, until one throws;
     * `deleted` says whether all of them ran.
     */
    method DeleteInOrder(order: seq<Entity>, faults: map<Step, string>) returns (deleted: bool)
      modifies store
      ensures var done := DeletedBeforeFault(faults, order);
        && store.deletions == old(store.deletions) + done
        && store.State() == WithoutAll(old(store.State()), done)
        && (deleted <==> |done| == |order|)
    {
      ghost var s0 := store.State();
      ghost var done := DeletedBeforeFault(faults, order);
      for i := 0 to |order|
        invariant i <= |done| && done[..i] == order[..i]
        invariant store.deletions == old(store.deletions) + order[..i]
        invariant store.State() == WithoutAll(s0, order[..i])
      {
        if Delete(order[i]) in faults {
          assert done == order[..i];
          return false;
        }
        assert i < |done|;
        store.DeleteAll(order[i]);
        assert order[..i + 1] == order[..i] + [order[i]];
        assert done[..i + 1] == done[..i] + [done[i]];
      }
      assert done == order[..|order|];
      return true;
    }

    /**
     * `loadAppFromMediaLibrary(context:)`: rebuild the composer index, reset
     * the counters, import every album collection and then the playlists,
     * save, derive the composers, save, and checkpoint the counters.
     */
    method LoadAppFromMediaLibrary(media: MediaLibrary, parse: seq<string> -> seq<ParseEvent>, loadOnlyFake: bool,
                                   faults: map<Step, string>)
      returns (r: Result<LoadReturn>)
      requires ParserWellFormed(parse)
      requires loadOnlyFake && media.albums.Some? ==> forall a :: a in media.albums.value ==> |a| > 0
      modifies this, store, index
      ensures r == LoadResult(media, faults)
      ensures store.deletions == old(store.deletions)
      ensures showingProgress == (ImportSave in faults || ComposerFetch in faults || ComposerSave in faults)
      ensures index.GetAlbumCount() == (if media.albums.Some? then |media.albums.value| else 0)
      ensures index.composersFound == (if media.albums.Some? then ComposersOf(media.albums.value, loadOnlyFake) else {})
      ensures status == old(status) && dataMissing == old(dataMissing) && libraryChanged == old(libraryChanged)
      ensures Loads(old(store.State()), media, parse, loadOnlyFake, faults)
    {
      ghost var s0 := store.State();
      showingProgress := true;
      index.FindComposers(media.albums, loadOnlyFake);
      var allMediaDataPresent := ImportMedia(media, parse, loadOnlyFake, faults);
      if ImportSave in faults {
        return Err(faults[ImportSave]);
      }
      var stored := StoreComposersFromPieces(faults);
      if stored.Fail? {
        return Err(stored.message);
      }
      if ComposerSave in faults {
        return Err(faults[ComposerSave]);
      }
      showingProgress := false;
      var checkpoint := StoreMediaLibraryInfo(media, faults);
      if checkpoint.Fail? {
        return Err(checkpoint.message);
      }
      r := Ok(if allMediaDataPresent then Normal else MissingData);
    }

    /**
     * The import part of `loadAppFromMediaLibrary`: take the library date,
     * reset the counters, and, when the album query has collections, run the
     * album loop and then `loadPlaylists`.
     */
    method ImportMedia(media: MediaLibrary, parse: seq<string> -> seq<ParseEvent>, loadOnlyFake: bool,
                       faults: map<Step, string>)
      returns (allMediaDataPresent: bool)
      requires ParserWellFormed(parse)
      modifies this`libraryDate, this`libraryAlbumCount, this`librarySongCount, this`libraryPieceCount
      modifies this`libraryMovementCount, this`libraryPlaylistCount, store
      ensures allMediaDataPresent == !(media.albums.Some? && AnyMissing(media.albums.value, |media.albums.value|))
      ensures store.deletions == old(store.deletions)
      ensures Imports(old(store.State()), media, parse, loadOnlyFake, faults)
    {
      libraryDate := Some(media.lastModifiedDate);
      libraryAlbumCount, libraryPieceCount, librarySongCount := 0, 0, 0;
      libraryMovementCount, libraryPlaylistCount := 0, 0;
      allMediaDataPresent := true;
      if media.albums.None? {
        return;
      }
      var collections := media.albums.value;
      ghost var s0 := store.State();
      allMediaDataPresent := LoadAlbums(collections, parse, loadOnlyFake);
      ghost var s1 := store.State();
      LoadPlaylists(media.playlists, faults);
      ImportedStateIs(s0, media, parse, loadOnlyFake, faults, collections, s1, store.State());
    }

    /**
     * The album loop: each collection without its unplayable items is
     * counted, checked for missing media, and imported unless it is empty or
     * the fake-genre switch drops it.
     */
    method LoadAlbums(collections: seq<seq<MediaItem>>, parse: seq<string> -> seq<ParseEvent>, loadOnlyFake: bool)
      returns (allMediaDataPresent: bool)
      requires ParserWellFormed(parse)
      modifies this`libraryAlbumCount, this`librarySongCount, this`libraryPieceCount, this`libraryMovementCount, store
      ensures allMediaDataPresent == !AnyMissing(collections, |collections|)
      ensures store.State() == ImportAlbums(old(store.State()), collections, |collections|, parse, loadOnlyFake)
      ensures store.deletions == old(store.deletions)
      ensures libraryAlbumCount == old(libraryAlbumCount) + |collections|
      ensures CountsFollow(old(CountersInfo()), old(store.State()))
    {
      ghost var s0 := store.State();
      allMediaDataPresent := true;
      for k := 0 to |collections|
        invariant allMediaDataPresent == !AnyMissing(collections, k)
        invariant store.State() == ImportAlbums(s0, collections, k, parse, loadOnlyFake)
        invariant store.deletions == old(store.deletions)
        invariant libraryAlbumCount == old(libraryAlbumCount) + k
        invariant CountsFollow(old(CountersInfo()), s0)
      {
        var missing := LoadNextCollection(collections, k, parse, loadOnlyFake, s0, old(CountersInfo()));
        if missing {
          allMediaDataPresent := false;
        }
      }
    }

    /** Pass `k` of the album loop: the store moves from the first `k` collections imported to the first `k + 1`. */
    method LoadNextCollection(collections: seq<seq<MediaItem>>, k: nat, parse: seq<string> -> seq<ParseEvent>,
                              loadOnlyFake: bool, ghost s0: StoreState, ghost info0: MediaLibraryInfo)
      returns (missing: bool)
      requires k < |collections| && ParserWellFormed(parse)
      requires store.State() == ImportAlbums(s0, collections, k, parse, loadOnlyFake)
      requires CountsFollow(info0, s0)
      modifies this`libraryAlbumCount, this`librarySongCount, this`libraryPieceCount, this`libraryMovementCount, store
      ensures AnyMissing(collections, k + 1) <==> AnyMissing(collections, k) || missing
      ensures store.State() == ImportAlbums(s0, collections, k + 1, parse, loadOnlyFake)
      ensures store.deletions == old(store.deletions)
      ensures libraryAlbumCount == old(libraryAlbumCount) + 1
      ensures CountsFollow(info0, s0)
    {
      missing := LoadCollection(collections[k], parse, loadOnlyFake);
    }

    /**
     * One pass of the album loop: count the collection, report whether its
     * playable items miss media, and import it unless it is empty or the
     * fake-genre switch drops it.
     */
    method LoadCollection(collection: seq<MediaItem>, parse: seq<string> -> seq<ParseEvent>, loadOnlyFake: bool)
      returns (missing: bool)
      requires ParserWellFormed(parse)
      modifies this`libraryAlbumCount, this`librarySongCount, this`libraryPieceCount, this`libraryMovementCount, store
      ensures missing == SomeItemsMissingMedia(Playable(collection))
      ensures store.State() == ImportCollection(old(store.State()), collection, parse, loadOnlyFake)
      ensures store.deletions == old(store.deletions)
      ensures libraryAlbumCount == old(libraryAlbumCount) + 1
      ensures CountsFollow(old(CountersInfo()), old(store.State()))
    {
      var mediaAlbumItems := Playable(collection);
      missing := SomeItemsMissingMedia(mediaAlbumItems);
      libraryAlbumCount := libraryAlbumCount + 1;
      if mediaAlbumItems == [] {
        return;
      }
      if loadOnlyFake && mediaAlbumItems[0].genre != Some(FakeGenre) {
        return;
      }
      LoadAlbum(mediaAlbumItems, parse, loadOnlyFake);
    }

    /** The import of one kept collection: `makeAndFillAlbum`, then `loadParsedPieces`. */
    method LoadAlbum(items: seq<MediaItem>, parse: seq<string> -> seq<ParseEvent>, loadOnlyFake: bool)
      requires ParserWellFormed(parse) && |items| > 0
      modifies this`librarySongCount, this`libraryPieceCount, this`libraryMovementCount, store
      ensures store.State() == ImportAlbum(old(store.State()), items, parse(Titles(items)), loadOnlyFake)
      ensures store.deletions == old(store.deletions)
      ensures CountsFollow(old(CountersInfo()), old(store.State()))
    {
      var album := MakeAndFillAlbum(items, loadOnlyFake);
      ghost var filled := store.State();
      LoadParsedPieces(album, items, parse);
      ghost var events := parse(Titles(items));
      RecordEventsKeeps(filled, items, events, |events|, album);
    }

    /** `makeAndFillAlbum(from:into:)`: the Album from the first item, then its Songs. */
    method MakeAndFillAlbum(items: seq<MediaItem>, loadOnlyFake: bool) returns (album: nat)
      requires |items| > 0
      modifies this`librarySongCount, store
      ensures album == |old(store.albums)|
      ensures store.State() == old(store.State()).(albums := old(store.albums) + [NewAlbum(items)],
                                                   songs := old(store.songs) + SongsOf(items, album, loadOnlyFake))
      ensures store.deletions == old(store.deletions)
      ensures librarySongCount == old(librarySongCount) + |SongsOf(items, album, loadOnlyFake)|
    {
      album := store.InsertAlbum(NewAlbum(items));
      LoadSongs(items, album, loadOnlyFake);
    }

    /** `load(songs:album:into:)`: one Song of the album per playable item the fake-genre switch keeps. */
    method LoadSongs(items: seq<MediaItem>, album: nat, loadOnlyFake: bool)
      modifies this`librarySongCount, store
      ensures store.State() == old(store.State()).(songs := old(store.songs) + SongsOf(items, album, loadOnlyFake))
      ensures store.deletions == old(store.deletions)
      ensures librarySongCount == old(librarySongCount) + |SongsOf(items, album, loadOnlyFake)|
    {
      ghost var s0 := store.State();
      for k := 0 to |items|
        invariant store.State() == s0.(songs := s0.songs + SongsOf(items[..k], album, loadOnlyFake))
        invariant store.deletions == old(store.deletions)
        invariant librarySongCount == old(librarySongCount) + |SongsOf(items[..k], album, loadOnlyFake)|
      {
        assert items[..k + 1][..k] == items[..k];
        var item := items[k];
        if !item.playable {
          continue;
        }
        if loadOnlyFake && item.genre != Some(FakeGenre) {
          continue;
        }
        librarySongCount := librarySongCount + 1;
        var _ := store.InsertSong(NewSong(item, album));
      }
      assert items[..|items|] == items;
    }

    /**
     * `loadParsedPieces(for:from:into:)`: the parser's events for the track
     * titles, each stored as it comes; `piece` is the Piece last stored.
     */
    method LoadParsedPieces(album: nat, items: seq<MediaItem>, parse: seq<string> -> seq<ParseEvent>)
      requires ParserWellFormed(parse)
      modifies this`libraryPieceCount, this`libraryMovementCount, store
      ensures store.State() == RecordEvents(old(store.State()), items, parse(Titles(items)), |parse(Titles(items))|, album)
      ensures store.deletions == old(store.deletions)
      ensures libraryPieceCount == old(libraryPieceCount) + |store.pieces| - |old(store.pieces)|
      ensures libraryMovementCount == old(libraryMovementCount) + |store.movements| - |old(store.movements)|
    {
      var trackTitles := Titles(items);
      var events := parse(trackTitles);
      EventsNeedTracks(events, |trackTitles|);
      if |items| < 1 {
        return;
      }
      StoreParseEvents(events, items, album);
    }

    /** The events of one collection, stored in order. */
    method StoreParseEvents(events: seq<ParseEvent>, items: seq<MediaItem>, album: nat)
      requires WellFormedEvents(events, |items|)
      modifies this`libraryPieceCount, this`libraryMovementCount, store
      ensures store.State() == RecordEvents(old(store.State()), items, events, |events|, album)
      ensures store.deletions == old(store.deletions)
      ensures libraryPieceCount == old(libraryPieceCount) + |store.pieces| - |old(store.pieces)|
      ensures libraryMovementCount == old(libraryMovementCount) + |store.movements| - |old(store.movements)|
    {
      ghost var s0 := store.State();
      var piece: Option<nat> := None;
      for k := 0 to |events|
        invariant store.State() == RecordEvents(s0, items, events, k, album)
        invariant store.deletions == old(store.deletions)
        invariant k > 0 ==> piece == Some(|store.pieces| - 1)
        invariant libraryPieceCount == old(libraryPieceCount) + |store.pieces| - |s0.pieces|
        invariant libraryMovementCount == old(libraryMovementCount) + |store.movements| - |s0.movements|
      {
        if k > 0 {
          assert PieceCount(events, k) >= 1;
        }
        piece := StoreParseEvent(events[k], items, album, piece);
      }
    }

    /**
     * One callback of the parser: `storePiece` for a piece, whose index
     * becomes `piece`; `storeMovement` on the last stored piece for a movement.
     */
    method StoreParseEvent(e: ParseEvent, items: seq<MediaItem>, album: nat, piece: Option<nat>)
      returns (newPiece: Option<nat>)
      requires e.index < |items|
      requires e.MovementFound? ==> |store.pieces| > 0 && piece == Some(|store.pieces| - 1)
      modifies this`libraryPieceCount, this`libraryMovementCount, store
      ensures store.State() == RecordEvent(old(store.State()), items, e, album)
      ensures store.deletions == old(store.deletions)
      ensures newPiece == (if e.PieceFound? then Some(|old(store.pieces)|) else piece)
      ensures |store.pieces| == |old(store.pieces)| + (if e.PieceFound? then 1 else 0)
      ensures libraryPieceCount == old(libraryPieceCount) + |store.pieces| - |old(store.pieces)|
      ensures libraryMovementCount == old(libraryMovementCount) + |store.movements| - |old(store.movements)|
    {
      match e
      case PieceFound(i, title) =>
        var stored := store.InsertPiece(NewPiece(items[i], title, album));
        newPiece := Some(stored);
        libraryPieceCount := libraryPieceCount + 1;
      case MovementFound(i, title) =>
        store.InsertMovement(NewMovement(items[i], title, piece.value));
        newPiece := piece;
        libraryMovementCount := libraryMovementCount + 1;
    }

    /**
     * `loadPlaylists(into:)`: a Playlist per media playlist, each track
     * linked both ways to the Song `songFor` finds.
     */
    method LoadPlaylists(playlists: Option<seq<MediaPlaylist>>, faults: map<Step, string>)
      modifies this`libraryPlaylistCount, store
      ensures store.State() == (if playlists.Some? then ImportPlaylists(old(store.State()), playlists.value, |playlists.value|, LookupFaultsOf(faults))
                                else old(store.State()))
      ensures store.deletions == old(store.deletions)
      ensures libraryPlaylistCount == old(libraryPlaylistCount) + |store.playlists| - |old(store.playlists)|
    {
      if playlists.None? {
        return;
      }
      var lists, lookup := playlists.value, LookupFaultsOf(faults);
      ghost var s0 := store.State();
      for n := 0 to |lists|
        invariant store.State() == ImportPlaylists(s0, lists, n, lookup)
        invariant store.deletions == old(store.deletions)
        invariant libraryPlaylistCount == old(libraryPlaylistCount) + |store.playlists| - |s0.playlists|
      {
        var list := lists[n];
        libraryPlaylistCount := libraryPlaylistCount + 1;
        var p := store.InsertPlaylist(NewPlaylist(list));
        LinkPlaylistTracks(p, list.items, n, lookup);
      }
    }

    /**
     * The inner loop of `loadPlaylists(into:)`: each track of media playlist
     * `q` linked both ways to the Song `songFor` finds for it, unless that
     * track's lookup throws.
     */
    method LinkPlaylistTracks(p: nat, tracks: seq<MediaItem>, q: nat, lookup: LookupFaults)
      requires p < |store.playlists|
      modifies store
      ensures store.State() == LinkTracks(old(store.State()), p, tracks, |tracks|, q, lookup)
      ensures store.deletions == old(store.deletions)
    {
      ghost var s0 := store.State();
      for j := 0 to |tracks|
        invariant p < |store.playlists| && |store.playlists| == |s0.playlists|
        invariant store.State() == LinkTracks(s0, p, tracks, j, q, lookup)
        invariant store.deletions == old(store.deletions)
      {
        var fault := lookup(q, j);
        var stored := if fault.Some? then Err(fault.value) else Ok(store.songs);
        var song := SongFor(tracks[j], stored);
        if song.Some? {
          store.Link(song.value, p);
        }
      }
    }

    /** `storeComposersFromPieces(into:)`: one Composer per distinct non-empty piece composer. */
    method StoreComposersFromPieces(faults: map<Step, string>) returns (outcome: Outcome)
      modifies store
      ensures store.deletions == old(store.deletions)
      ensures ComposerFetch in faults ==> outcome == Fail(faults[ComposerFetch]) && store.State() == old(store.State())
      ensures ComposerFetch !in faults ==>
        && outcome == Pass
        && store.State() == old(store.State()).(composers := old(store.composers)
                                                            + ComposerRecords(DistinctComposers(old(store.pieces))))
    {
      if ComposerFetch in faults {
        return Fail(faults[ComposerFetch]);
      }
      var composerObjects := DistinctComposers(store.pieces);
      ghost var s0 := store.State();
      for k := 0 to |composerObjects|
        invariant store.State() == s0.(composers := s0.composers + ComposerRecords(composerObjects[..k]))
        invariant store.deletions == old(store.deletions)
      {
        assert ComposerRecords(composerObjects[..k + 1]) == ComposerRecords(composerObjects[..k]) + [Composer(Some(composerObjects[k]))];
        store.InsertComposer(Composer(Some(composerObjects[k])));
      }
      assert composerObjects[..|composerObjects|] == composerObjects;
      return Pass;
    }

    /** `storeMediaLibraryInfo(into:)`: the media library's date and the counters, upserted. */
    method StoreMediaLibraryInfo(media: MediaLibrary, faults: map<Step, string>) returns (outcome: Outcome)
      modifies store
      ensures store.deletions == old(store.deletions)
      ensures StoreInfoFetch in faults ==> outcome == Fail(faults[StoreInfoFetch]) && store.State() == old(store.State())
      ensures StoreInfoFetch !in faults ==>
        var info := CountersInfo().(lastModifiedDate := Some(media.lastModifiedDate));
        && outcome == Pass
        && store.State() == old(store.State()).(infos := UpsertInfo(old(store.infos), info))
    {
      if StoreInfoFetch in faults {
        return Fail(faults[StoreInfoFetch]);
      }
      store.PutInfo(MediaLibraryInfo(Some(media.lastModifiedDate), libraryAlbumCount, librarySongCount,
                                     libraryPieceCount, libraryMovementCount, libraryPlaylistCount));
      return Pass;
    }
  }
}
