/**
 * What one import of the media library adds to the store, as functions of the
 * store before it and of the media library: the records made from each album
 * collection, from the title parser's events, from the playlists, the
 * composers derived from the pieces, and the info checkpoint. The imperative
 * import in ClassicalMediaLibrary.swift is proved to produce exactly these.
 */
module LibraryImport {
  import opened Wrappers
  import opened Text
  import opened Media
  import opened Records
  import opened SongsCommon

  // ---------------------------------------------------------------- items

  /** `removeAll(where: { !$0.isPlayable() })`: the playable items, in order. */
  function Playable(items: seq<MediaItem>): (r: seq<MediaItem>)
    ensures |r| <= |items|
  {
    if items == [] then []
    else
      var last := items[|items| - 1];
      Playable(items[..|items| - 1]) + (if last.playable then [last] else [])
  }

  /** The filter keeps exactly the playable items. */
  lemma {:induction false} PlayableKeeps(items: seq<MediaItem>)
    ensures forall t :: t in Playable(items) <==> t in items && t.playable
  {
    if items != [] {
      var init := items[..|items| - 1];
      PlayableKeeps(init);
      assert items == init + [items[|items| - 1]];
    }
  }

  /** `someItemsMissingMedia(from:)`: the `reduce` over the items. */
  function SomeItemsMissingMedia(items: seq<MediaItem>): (r: bool)
    ensures r <==> exists i :: 0 <= i < |items| && items[i].missingMedia
  {
    if items == [] then false
    else SomeItemsMissingMedia(items[..|items| - 1]) || items[|items| - 1].missingMedia
  }

  /** The album loop's missing-media flag after the first `n` collections: some collection's playable items miss media. */
  predicate AnyMissing(collections: seq<seq<MediaItem>>, n: nat)
    requires n <= |collections|
  {
    n > 0 && (AnyMissing(collections, n - 1) || SomeItemsMissingMedia(Playable(collections[n - 1])))
  }

  /** An album's missing-media test after the playable filter looks at playable items only. */
  lemma MissingAfterFilter(items: seq<MediaItem>)
    ensures SomeItemsMissingMedia(Playable(items)) <==> exists t :: t in items && t.playable && t.missingMedia
  {
    var p := Playable(items);
    PlayableKeeps(items);
    if SomeItemsMissingMedia(p) {
      var i :| 0 <= i < |p| && p[i].missingMedia;
      assert p[i] in p;
    }
    if exists t :: t in items && t.playable && t.missingMedia {
      var t: MediaItem :| t in items && t.playable && t.missingMedia;
      assert t in p;
      var i :| 0 <= i < |p| && p[i] == t;
    }
  }

  /** The titles handed to the parser: a missing title is empty. */
  function Titles(items: seq<MediaItem>): seq<string> {
    seq(|items|, i requires 0 <= i < |items| => items[i].title.GetOr(""))
  }

  // ---------------------------------------------------------------- albums and songs

  /** `makeAndFillAlbum`: the Album record made from the first item of the collection. */
  function NewAlbum(items: seq<MediaItem>): Album
    requires |items| > 0
  {
    var first := items[0];
    Album(first.albumArtist, first.albumTitle,
          Some(Trim(first.composer.GetOr(""), WhitespacesAndNewlines)),
          first.genre, first.albumTrackCount, ToCoreData(first.albumPersistentID), first.year)
  }

  /** The Song record `load(songs:album:into:)` makes from one item. */
  function NewSong(item: MediaItem, album: nat): Song {
    Song(ToCoreData(item.persistentID), ToCoreData(item.albumPersistentID), item.artist,
         Some(DurationAsString(item.playbackSeconds)), item.title, item.assetURL, item.composer,
         Some(album), {})
  }

  /** Does `load(songs:)` make a Song of the item? Playable, and of the fake genre when asked. */
  predicate MakesSong(item: MediaItem, loadOnlyFake: bool) {
    item.playable && (!loadOnlyFake || item.genre == Some(FakeGenre))
  }

  /** The Songs `load(songs:)` makes for the album at index `album`. */
  function SongsOf(items: seq<MediaItem>, album: nat, loadOnlyFake: bool): (r: seq<Song>)
    ensures |r| <= |items|
  {
    if items == [] then []
    else
      var last := items[|items| - 1];
      SongsOf(items[..|items| - 1], album, loadOnlyFake)
        + (if MakesSong(last, loadOnlyFake) then [NewSong(last, album)] else [])
  }

  /** Every Song made belongs to the album and to no playlist yet. */
  lemma {:induction false} SongsOfAlbum(items: seq<MediaItem>, album: nat, loadOnlyFake: bool)
    ensures var r := SongsOf(items, album, loadOnlyFake);
      forall k :: 0 <= k < |r| ==> r[k].album == Some(album) && r[k].playlists == {}
  {
    if items != [] {
      var init := items[..|items| - 1];
      SongsOfAlbum(init, album, loadOnlyFake);
      var r := SongsOf(items, album, loadOnlyFake);
      forall k | 0 <= k < |r| ensures r[k].album == Some(album) && r[k].playlists == {} {
        if k < |SongsOf(init, album, loadOnlyFake)| {
          assert r[k] == SongsOf(init, album, loadOnlyFake)[k];
        }
      }
    }
  }

  /**
   * One Song per item that passes the filters, and no other: every song comes
   * from such an item, and every such item has its song.
   */
  lemma {:induction false} SongsOfExactly(items: seq<MediaItem>, album: nat, loadOnlyFake: bool)
    ensures var r := SongsOf(items, album, loadOnlyFake);
      && (forall s :: s in r ==> exists t :: t in items && MakesSong(t, loadOnlyFake) && s == NewSong(t, album))
      && (forall t :: t in items && MakesSong(t, loadOnlyFake) ==> NewSong(t, album) in r)
  {
    if items != [] {
      var init := items[..|items| - 1];
      SongsOfExactly(init, album, loadOnlyFake);
      forall t | t in items && MakesSong(t, loadOnlyFake)
        ensures NewSong(t, album) in SongsOf(items, album, loadOnlyFake)
      {
        if t != items[|items| - 1] {
          var i :| 0 <= i < |items| && items[i] == t;
          assert init[i] == t;
        }
      }
      forall s | s in SongsOf(items, album, loadOnlyFake)
        ensures exists t :: t in items && MakesSong(t, loadOnlyFake) && s == NewSong(t, album)
      {
        if s !in SongsOf(init, album, loadOnlyFake) {
          assert s == NewSong(items[|items| - 1], album);
        } else {
          var t :| t in init && MakesSong(t, loadOnlyFake) && s == NewSong(t, album);
          assert t in items;
        }
      }
    }
  }

  // ---------------------------------------------------------------- pieces and movements

  /**
   * One call of the title parser's callbacks: `recordPiece` or
   * `recordMovement`, with the collection index of the track and the title.
   */
  datatype ParseEvent = PieceFound(index: nat, title: string) | MovementFound(index: nat, title: string)

  /**
   * Events the import can take for a collection of `n` tracks: indices within
   * the collection, and no movement before the first piece (`piece!`).
   */
  predicate WellFormedEvents(events: seq<ParseEvent>, n: nat) {
    && (forall k :: 0 <= k < |events| ==> events[k].index < n)
    && (events != [] ==> events[0].PieceFound?)
  }

  /** Every event names a track, so a collection without tracks has no events. */
  lemma EventsNeedTracks(events: seq<ParseEvent>, n: nat)
    requires WellFormedEvents(events, n)
    ensures events != [] ==> n > 0
  {
    if events != [] {
      assert events[0].index < n;
    }
  }

  /** What the import requires of the title parser, which is not part of this model. */
  ghost predicate ParserWellFormed(parse: seq<string> -> seq<ParseEvent>) {
    forall titles :: EventsFor(titles, parse(titles))
  }

  /** Events the parser may report for these titles, one title per track. */
  predicate EventsFor(titles: seq<string>, events: seq<ParseEvent>) {
    WellFormedEvents(events, |titles|)
  }

  /** `storePiece`: the Piece record for a piece event. */
  function NewPiece(item: MediaItem, title: string, album: nat): Piece {
    Piece(ToCoreData(item.albumPersistentID),
          Some(Trim(item.composer.GetOr(""), WhitespacesAndNewlines)),
          Some(item.artist.GetOr("")), ToCoreData(item.artistPersistentID),
          Some(item.genre.GetOr("")), Some(title), Some(album),
          ToCoreData(item.persistentID), item.assetURL)
  }

  /** `storeMovement`: the Movement record for a movement event of piece `piece`. */
  function NewMovement(item: MediaItem, title: string, piece: nat): Movement {
    Movement(Some(title), ToCoreData(item.persistentID), item.assetURL,
             Some(DurationAsString(item.playbackSeconds)), Some(piece))
  }

  /** The number of piece events among the first `n`. */
  function PieceCount(events: seq<ParseEvent>, n: nat): (c: nat)
    requires n <= |events|
    ensures c <= n
    ensures n > 0 && events[0].PieceFound? ==> c >= 1
  {
    if n == 0 then 0
    else PieceCount(events, n - 1) + (if events[n - 1].PieceFound? then 1 else 0)
  }

  /**
   * One event: a piece event adds a Piece of album `album`; a movement event
   * adds a Movement of the most recently recorded Piece, the last one.
   */
  function RecordEvent(s: StoreState, items: seq<MediaItem>, e: ParseEvent, album: nat): StoreState
    requires e.index < |items|
    requires e.MovementFound? ==> |s.pieces| > 0
  {
    match e
    case PieceFound(i, t) => s.(pieces := s.pieces + [NewPiece(items[i], t, album)])
    case MovementFound(i, t) => s.(movements := s.movements + [NewMovement(items[i], t, |s.pieces| - 1)])
  }

  /** `loadParsedPieces`: the first `n` events, in order. */
  function RecordEvents(s: StoreState, items: seq<MediaItem>, events: seq<ParseEvent>, n: nat, album: nat): (r: StoreState)
    requires WellFormedEvents(events, |items|) && n <= |events|
    ensures |r.pieces| == |s.pieces| + PieceCount(events, n)
    ensures |r.movements| == |s.movements| + n - PieceCount(events, n)
  {
    if n == 0 then s
    else RecordEvent(RecordEvents(s, items, events, n - 1, album), items, events[n - 1], album)
  }

  /** The events add Pieces and Movements after the existing ones and touch nothing else. */
  lemma {:induction false} RecordEventsKeeps(s: StoreState, items: seq<MediaItem>, events: seq<ParseEvent>, n: nat, album: nat)
    requires WellFormedEvents(events, |items|) && n <= |events|
    ensures var r := RecordEvents(s, items, events, n, album);
      && r.pieces[..|s.pieces|] == s.pieces && r.movements[..|s.movements|] == s.movements
      && r.albums == s.albums && r.songs == s.songs && r.playlists == s.playlists
      && r.composers == s.composers && r.infos == s.infos
  {
    if n > 0 {
      RecordEventsKeeps(s, items, events, n - 1, album);
      var prior := RecordEvents(s, items, events, n - 1, album);
      var r := RecordEvents(s, items, events, n, album);
      assert r.pieces[..|prior.pieces|] == prior.pieces;
      assert r.movements[..|prior.movements|] == prior.movements;
    }
  }

  /** The Pieces from position `from` on all belong to Album `album`. */
  ghost predicate PiecesOfAlbum(pieces: seq<Piece>, from: nat, album: nat) {
    forall k :: from <= k < |pieces| ==> pieces[k].album == Some(album)
  }

  /** The Movements from position `from` on all belong to a Piece in `lo..hi`. */
  ghost predicate MovementsOfPieces(movements: seq<Movement>, from: nat, lo: nat, hi: nat) {
    forall k :: from <= k < |movements| ==> movements[k].piece.Some? && lo <= movements[k].piece.value < hi
  }

  /** The Movements from position `from` on follow the order of their Pieces. */
  ghost predicate MovementsInPieceOrder(movements: seq<Movement>, from: nat) {
    forall k, l :: from <= k < l < |movements| ==>
      movements[k].piece.Some? && movements[l].piece.Some? && movements[k].piece.value <= movements[l].piece.value
  }

  /** A Piece of the album appended keeps the Pieces those of the album. */
  lemma PiecesOfAlbumAppend(pieces: seq<Piece>, from: nat, album: nat, piece: Piece)
    requires PiecesOfAlbum(pieces, from, album) && piece.album == Some(album)
    ensures PiecesOfAlbum(pieces + [piece], from, album)
  {
    forall k | from <= k < |pieces| + 1
      ensures (pieces + [piece])[k].album == Some(album)
    {
      if k < |pieces| {
        assert (pieces + [piece])[k] == pieces[k];
      }
    }
  }

  /** A Movement of the last Piece appended keeps the Movements linked and in Piece order. */
  lemma MovementsAppend(movements: seq<Movement>, from: nat, lo: nat, hi: nat, movement: Movement)
    requires MovementsOfPieces(movements, from, lo, hi) && MovementsInPieceOrder(movements, from)
    requires lo < hi && movement.piece == Some(hi - 1)
    ensures MovementsOfPieces(movements + [movement], from, lo, hi)
    ensures MovementsInPieceOrder(movements + [movement], from)
  {
    var r := movements + [movement];
    forall k | from <= k < |r|
      ensures r[k].piece.Some? && lo <= r[k].piece.value < hi
    {
      if k < |movements| {
        assert r[k] == movements[k];
      }
    }
    forall k, l | from <= k < l < |r|
      ensures r[k].piece.Some? && r[l].piece.Some? && r[k].piece.value <= r[l].piece.value
    {
      assert r[k] == movements[k];
      if l < |movements| {
        assert r[l] == movements[l];
      }
    }
  }

  /**
   * Every piece recorded belongs to the album, and every movement recorded
   * belongs to a piece recorded by the same call; the movements follow their
   * pieces in event order, so a piece's movements sit together.
   */
  lemma {:induction false} RecordEventsLinks(s: StoreState, items: seq<MediaItem>, events: seq<ParseEvent>, n: nat, album: nat)
    requires WellFormedEvents(events, |items|) && n <= |events|
    ensures var r := RecordEvents(s, items, events, n, album);
      && PiecesOfAlbum(r.pieces, |s.pieces|, album)
      && MovementsOfPieces(r.movements, |s.movements|, |s.pieces|, |r.pieces|)
      && MovementsInPieceOrder(r.movements, |s.movements|)
  {
    if n > 0 {
      RecordEventsLinks(s, items, events, n - 1, album);
      var prior := RecordEvents(s, items, events, n - 1, album);
      var r := RecordEvents(s, items, events, n, album);
      var e := events[n - 1];
      if n > 1 {
        assert PieceCount(events, n - 1) >= 1;
      }
      if e.PieceFound? {
        var piece := NewPiece(items[e.index], e.title, album);
        assert r.pieces == prior.pieces + [piece] && r.movements == prior.movements;
        PiecesOfAlbumAppend(prior.pieces, |s.pieces|, album, piece);
      } else {
        var movement := NewMovement(items[e.index], e.title, |prior.pieces| - 1);
        assert r.pieces == prior.pieces && r.movements == prior.movements + [movement];
        MovementsAppend(prior.movements, |s.movements|, |s.pieces|, |prior.pieces|, movement);
      }
    }
  }

  // ---------------------------------------------------------------- one album collection

  /**
   * `makeAndFillAlbum` then `loadParsedPieces` for the playable items of one
   * collection: the Album, its Songs, then the Pieces and Movements the parser
   * finds in its titles.
   */
  function ImportAlbum(s: StoreState, items: seq<MediaItem>, events: seq<ParseEvent>, loadOnlyFake: bool): StoreState
    requires |items| > 0 && WellFormedEvents(events, |items|)
  {
    var a := |s.albums|;
    RecordEvents(s.(albums := s.albums + [NewAlbum(items)], songs := s.songs + SongsOf(items, a, loadOnlyFake)),
                 items, events, |events|, a)
  }

  /** Is a collection imported? Some item is playable, and the fake-genre switch keeps it. */
  predicate Imported(collection: seq<MediaItem>, loadOnlyFake: bool) {
    var items := Playable(collection);
    items != [] && KeptByFakeFilter(items, loadOnlyFake)
  }

  /** One pass of the album loop: an empty or filtered-out collection adds nothing. */
  function ImportCollection(s: StoreState, collection: seq<MediaItem>, parse: seq<string> -> seq<ParseEvent>,
                            loadOnlyFake: bool): StoreState
    requires ParserWellFormed(parse)
  {
    var items := Playable(collection);
    if Imported(collection, loadOnlyFake) then ImportAlbum(s, items, parse(Titles(items)), loadOnlyFake) else s
  }

  /** The album loop over the first `n` collections, in order. */
  function ImportAlbums(s: StoreState, collections: seq<seq<MediaItem>>, n: nat, parse: seq<string> -> seq<ParseEvent>,
                        loadOnlyFake: bool): StoreState
    requires n <= |collections| && ParserWellFormed(parse)
  {
    if n == 0 then s
    else ImportCollection(ImportAlbums(s, collections, n - 1, parse, loadOnlyFake), collections[n - 1], parse, loadOnlyFake)
  }

  /** The number of the first `n` collections that become an Album. */
  function ImportedCount(collections: seq<seq<MediaItem>>, n: nat, loadOnlyFake: bool): (c: nat)
    requires n <= |collections|
    ensures c <= n
  {
    if n == 0 then 0
    else ImportedCount(collections, n - 1, loadOnlyFake) + (if Imported(collections[n - 1], loadOnlyFake) then 1 else 0)
  }

  /**
   * What the album loop may do to the store, from `s` to `r`: append `added`
   * Albums, append Songs of those Albums only, append Pieces and Movements,
   * and leave the rest alone.
   */
  ghost predicate AlbumsExtend(s: StoreState, r: StoreState, added: nat) {
    && |r.albums| == |s.albums| + added && r.albums[..|s.albums|] == s.albums
    && |r.songs| >= |s.songs| && r.songs[..|s.songs|] == s.songs
    && |r.pieces| >= |s.pieces| && |r.movements| >= |s.movements|
    && r.playlists == s.playlists && r.composers == s.composers && r.infos == s.infos
    && (forall k :: |s.songs| <= k < |r.songs| ==>
          r.songs[k].album.Some? && |s.albums| <= r.songs[k].album.value < |r.albums|)
  }

  /** Two stretches of the album loop make one. */
  lemma AlbumsExtendTrans(a: StoreState, b: StoreState, c: StoreState, x: nat, y: nat)
    requires AlbumsExtend(a, b, x) && AlbumsExtend(b, c, y)
    ensures AlbumsExtend(a, c, x + y)
  {
    assert c.albums[..|a.albums|] == c.albums[..|b.albums|][..|a.albums|];
    assert c.songs[..|a.songs|] == c.songs[..|b.songs|][..|a.songs|];
    forall k | |a.songs| <= k < |c.songs|
      ensures c.songs[k].album.Some? && |a.albums| <= c.songs[k].album.value < |c.albums|
    {
      if k < |b.songs| {
        assert c.songs[k] == b.songs[k];
      }
    }
  }

  /**
   * The album loop adds one Album per imported collection, keeps the records
   * that were there, never touches playlists, composers or the info record,
   * and every Song it adds belongs to an Album it added.
   */
  lemma {:induction false} ImportAlbumsAdds(s: StoreState, collections: seq<seq<MediaItem>>, n: nat,
                                           parse: seq<string> -> seq<ParseEvent>, loadOnlyFake: bool)
    requires n <= |collections| && ParserWellFormed(parse)
    ensures AlbumsExtend(s, ImportAlbums(s, collections, n, parse, loadOnlyFake), ImportedCount(collections, n, loadOnlyFake))
  {
    if n == 0 {
      assert s.albums[..|s.albums|] == s.albums;
      assert s.songs[..|s.songs|] == s.songs;
    } else {
      ImportAlbumsAdds(s, collections, n - 1, parse, loadOnlyFake);
      var prior := ImportAlbums(s, collections, n - 1, parse, loadOnlyFake);
      ImportCollectionAdds(prior, collections[n - 1], parse, loadOnlyFake);
      AlbumsExtendTrans(s, prior, ImportAlbums(s, collections, n, parse, loadOnlyFake),
                        ImportedCount(collections, n - 1, loadOnlyFake),
                        if Imported(collections[n - 1], loadOnlyFake) then 1 else 0);
    }
  }

  /** One pass of the album loop adds an Album exactly when the collection is imported, with Songs of it only. */
  lemma ImportCollectionAdds(s: StoreState, collection: seq<MediaItem>, parse: seq<string> -> seq<ParseEvent>,
                             loadOnlyFake: bool)
    requires ParserWellFormed(parse)
    ensures AlbumsExtend(s, ImportCollection(s, collection, parse, loadOnlyFake),
                         if Imported(collection, loadOnlyFake) then 1 else 0)
  {
    var r := ImportCollection(s, collection, parse, loadOnlyFake);
    if Imported(collection, loadOnlyFake) {
      var items := Playable(collection);
      ImportAlbumAdds(s, items, parse(Titles(items)), loadOnlyFake);
      var added := SongsOf(items, |s.albums|, loadOnlyFake);
      SongsOfAlbum(items, |s.albums|, loadOnlyFake);
      assert r.albums[..|s.albums|] == s.albums;
      assert r.songs[..|s.songs|] == s.songs;
      forall k | |s.songs| <= k < |r.songs|
        ensures r.songs[k].album.Some? && |s.albums| <= r.songs[k].album.value < |r.albums|
      {
        assert r.songs[k] == added[k - |s.songs|];
      }
    } else {
      assert r.albums[..|s.albums|] == s.albums;
      assert r.songs[..|s.songs|] == s.songs;
    }
  }

  /** One imported collection adds one Album, and Songs of that Album only. */
  lemma ImportAlbumAdds(s: StoreState, items: seq<MediaItem>, events: seq<ParseEvent>, loadOnlyFake: bool)
    requires |items| > 0 && WellFormedEvents(events, |items|)
    ensures var r := ImportAlbum(s, items, events, loadOnlyFake);
      && r.albums == s.albums + [NewAlbum(items)]
      && r.songs == s.songs + SongsOf(items, |s.albums|, loadOnlyFake)
      && |r.pieces| >= |s.pieces| && |r.movements| >= |s.movements|
      && r.playlists == s.playlists && r.composers == s.composers && r.infos == s.infos
  {
    var a := |s.albums|;
    RecordEventsKeeps(s.(albums := s.albums + [NewAlbum(items)], songs := s.songs + SongsOf(items, a, loadOnlyFake)),
                      items, events, |events|, a);
  }

  /**
   * The flag reports exactly a playable item with missing media in one of the
   * first `n` collections, imported or not.
   */
  lemma {:induction false} AnyMissingMeans(collections: seq<seq<MediaItem>>, n: nat)
    requires n <= |collections|
    ensures AnyMissing(collections, n) <==>
      exists a, t :: 0 <= a < n && t in collections[a] && t.playable && t.missingMedia
  {
    if n > 0 {
      AnyMissingMeans(collections, n - 1);
      MissingAfterFilter(collections[n - 1]);
      if exists a, t :: 0 <= a < n && t in collections[a] && t.playable && t.missingMedia {
        var a, t :| 0 <= a < n && t in collections[a] && t.playable && t.missingMedia;
        if a < n - 1 {
          assert exists a', t' :: 0 <= a' < n - 1 && t' in collections[a'] && t'.playable && t'.missingMedia;
        }
      }
    }
  }

  // ---------------------------------------------------------------- playlists

  /** The Playlist record for one media playlist, before its tracks are linked. */
  function NewPlaylist(list: MediaPlaylist): Playlist {
    Playlist(ToCoreData(list.persistentID), list.name, list.descriptionText, list.authorDisplayName,
             if list.representativeItem.Some? then Some(ToCoreData(list.representativeItem.value.albumPersistentID))
             else None,
             [])
  }

  /** `addToSongs` on the ordered to-many relationship: an index already there is not added again. */
  function AddOrdered(xs: seq<nat>, x: nat): (r: seq<nat>)
    ensures x in r && (forall y :: y in r <==> y in xs || y == x)
    ensures x in xs ==> r == xs
    ensures x !in xs ==> r == xs + [x]
  {
    if x in xs then xs else xs + [x]
  }

  /** `playlist.addToSongs(song)` and `song.addToPlaylists(playlist)`: Song `i` and playlist `p` linked both ways. */
  function Linked(s: StoreState, i: nat, p: nat): (r: StoreState)
    requires i < |s.songs| && p < |s.playlists|
    ensures |r.songs| == |s.songs| && |r.playlists| == |s.playlists|
    ensures i in r.playlists[p].songs && p in r.songs[i].playlists
    ensures forall j :: 0 <= j < |s.songs| ==> r.songs[j].persistentID == s.songs[j].persistentID
    ensures forall j :: 0 <= j < |s.songs| && j != i ==> r.songs[j] == s.songs[j]
    ensures forall q :: 0 <= q < |s.playlists| && q != p ==> r.playlists[q] == s.playlists[q]
  {
    s.(playlists := s.playlists[p := s.playlists[p].(songs := AddOrdered(s.playlists[p].songs, i))],
       songs := s.songs[i := s.songs[i].(playlists := s.songs[i].playlists + {p})])
  }

  /**
   * Which `songFor` fetches throw during `loadPlaylists`: the fetch for track
   * `k` of media playlist `q` fails with the description `faults(q, k)` when
   * that is `Some`. Every fetch fails or succeeds on its own.
   */
  type LookupFaults = (nat, nat) -> Option<string>

  /** Two stores whose Songs carry the same persistent IDs give the same `songFor` answers. */
  lemma {:induction false} FirstWithIDSameIDs(a: seq<Song>, b: seq<Song>, id: Int64, from: nat)
    requires |a| == |b| && from <= |a|
    requires forall j :: 0 <= j < |a| ==> a[j].persistentID == b[j].persistentID
    ensures FirstWithID(a, id, from) == FirstWithID(b, id, from)
    decreases |a| - from
  {
    if from < |a| && a[from].persistentID != id {
      FirstWithIDSameIDs(a, b, id, from + 1);
    }
  }

  /**
   * One track of playlist `p`: `songFor` looks the track up among the stored
   * Songs (or its fetch fails with `fault`); a Song found is linked both ways.
   */
  function LinkTrack(s: StoreState, p: nat, track: MediaItem, fault: Option<string>): (r: StoreState)
    requires p < |s.playlists|
    ensures |r.songs| == |s.songs| && |r.playlists| == |s.playlists|
    ensures forall i :: 0 <= i < |s.songs| ==> r.songs[i].persistentID == s.songs[i].persistentID
  {
    var stored := if fault.Some? then Err(fault.value) else Ok(s.songs);
    match SongFor(track, stored)
    case None => s
    case Some(i) => Linked(s, i, p)
  }

  /**
   * The track loop of playlist `p`, made from media playlist `q`, over its
   * first `n` tracks, in order.
   */
  function LinkTracks(s: StoreState, p: nat, tracks: seq<MediaItem>, n: nat, q: nat, faults: LookupFaults): (r: StoreState)
    requires p < |s.playlists| && n <= |tracks|
    ensures |r.songs| == |s.songs| && |r.playlists| == |s.playlists|
    ensures forall i :: 0 <= i < |s.songs| ==> r.songs[i].persistentID == s.songs[i].persistentID
  {
    if n == 0 then s
    else LinkTrack(LinkTracks(s, p, tracks, n - 1, q, faults), p, tracks[n - 1], faults(q, n - 1))
  }

  /**
   * The links of playlist `p` agree in both directions: a Song is in the
   * playlist's songs exactly when the playlist is in the Song's playlists;
   * the playlist lists each Song once and only Songs that exist.
   */
  ghost predicate LinksAgree(s: StoreState, p: nat)
    requires p < |s.playlists|
  {
    && (forall i :: 0 <= i < |s.songs| ==> (i in s.playlists[p].songs <==> p in s.songs[i].playlists))
    && (forall i :: i in s.playlists[p].songs ==> i < |s.songs|)
    && (forall k, l :: 0 <= k < l < |s.playlists[p].songs| ==> s.playlists[p].songs[k] != s.playlists[p].songs[l])
  }

  /**
   * One track: the links of `p` keep agreeing and links already there stay;
   * a Song is newly linked only if it is the one `songFor` finds, and the
   * Song `songFor` finds is linked both ways; a failed fetch links nothing.
   */
  lemma LinkTrackAgrees(s: StoreState, p: nat, track: MediaItem, fault: Option<string>)
    requires p < |s.playlists| && LinksAgree(s, p)
    ensures var r := LinkTrack(s, p, track, fault);
      && LinksAgree(r, p)
      && (fault.Some? ==> r == s)
      && (forall i :: i in s.playlists[p].songs ==> i in r.playlists[p].songs)
      && (forall i :: i in r.playlists[p].songs && i !in s.playlists[p].songs ==>
            fault.None? && SongFor(track, Ok(s.songs)) == Some(i))
      && (fault.None? && SongFor(track, Ok(s.songs)).Some? ==>
            var i := SongFor(track, Ok(s.songs)).value;
            i in r.playlists[p].songs && p in r.songs[i].playlists)
  {
    var stored := if fault.Some? then Err(fault.value) else Ok(s.songs);
    match SongFor(track, stored)
    case None =>
    case Some(j) =>
      var r := LinkTrack(s, p, track, fault);
      assert r == Linked(s, j, p);
      assert r.playlists[p].songs == AddOrdered(s.playlists[p].songs, j);
  }

  /** Linking the tracks of `p` keeps its links agreeing and keeps the links already there. */
  lemma {:induction false} LinkTracksKeepLinks(s: StoreState, p: nat, tracks: seq<MediaItem>, n: nat, q: nat,
                                              faults: LookupFaults)
    requires p < |s.playlists| && n <= |tracks| && LinksAgree(s, p)
    ensures var r := LinkTracks(s, p, tracks, n, q, faults);
      LinksAgree(r, p) && forall i :: i in s.playlists[p].songs ==> i in r.playlists[p].songs
  {
    if n > 0 {
      LinkTracksKeepLinks(s, p, tracks, n - 1, q, faults);
      LinkTrackAgrees(LinkTracks(s, p, tracks, n - 1, q, faults), p, tracks[n - 1], faults(q, n - 1));
    }
  }

  /** A Song newly linked to `p` is the one `songFor` finds for a track whose fetch does not fail. */
  lemma {:induction false} LinkTracksNewFound(s: StoreState, p: nat, tracks: seq<MediaItem>, n: nat, q: nat,
                                             faults: LookupFaults)
    requires p < |s.playlists| && n <= |tracks| && LinksAgree(s, p)
    ensures var r := LinkTracks(s, p, tracks, n, q, faults);
      forall i :: i in r.playlists[p].songs && i !in s.playlists[p].songs ==>
        exists k :: 0 <= k < n && faults(q, k).None? && SongFor(tracks[k], Ok(s.songs)) == Some(i)
  {
    if n > 0 {
      var prior := LinkTracks(s, p, tracks, n - 1, q, faults);
      var r := LinkTracks(s, p, tracks, n, q, faults);
      var fault := faults(q, n - 1);
      forall i | i in r.playlists[p].songs && i !in s.playlists[p].songs
        ensures exists k :: 0 <= k < n && faults(q, k).None? && SongFor(tracks[k], Ok(s.songs)) == Some(i)
      {
        if i in prior.playlists[p].songs {
          LinkTracksNewFound(s, p, tracks, n - 1, q, faults);
          var k :| 0 <= k < n - 1 && faults(q, k).None? && SongFor(tracks[k], Ok(s.songs)) == Some(i);
        } else {
          LinkTracksKeepLinks(s, p, tracks, n - 1, q, faults);
          LinkTrackAgrees(prior, p, tracks[n - 1], fault);
          FirstWithIDSameIDs(prior.songs, s.songs, ToCoreData(tracks[n - 1].persistentID), 0);
          assert fault.None? && SongFor(tracks[n - 1], Ok(prior.songs)) == Some(i);
        }
      }
    }
  }

  /** One track keeps the songs already in `p` and adds the one `songFor` finds, if its fetch does not fail. */
  lemma LinkTrackFinds(s: StoreState, p: nat, track: MediaItem, fault: Option<string>)
    requires p < |s.playlists|
    ensures var r := LinkTrack(s, p, track, fault);
      && (forall i :: i in s.playlists[p].songs ==> i in r.playlists[p].songs)
      && (fault.None? && SongFor(track, Ok(s.songs)).Some? ==> SongFor(track, Ok(s.songs)).value in r.playlists[p].songs)
  {
  }

  /** The Song `songFor` finds for track `k`, whose fetch does not fail, is in the songs of `p`. */
  lemma {:induction false} LinkTracksFoundLinked(s: StoreState, p: nat, tracks: seq<MediaItem>, n: nat, q: nat,
                                                faults: LookupFaults, k: nat)
    requires p < |s.playlists| && n <= |tracks|
    requires k < n && faults(q, k).None? && SongFor(tracks[k], Ok(s.songs)).Some?
    ensures SongFor(tracks[k], Ok(s.songs)).value in LinkTracks(s, p, tracks, n, q, faults).playlists[p].songs
  {
    var prior := LinkTracks(s, p, tracks, n - 1, q, faults);
    var x := SongFor(tracks[k], Ok(s.songs)).value;
    LinkTrackFinds(prior, p, tracks[n - 1], faults(q, n - 1));
    if k < n - 1 {
      LinkTracksFoundLinked(s, p, tracks, n - 1, q, faults, k);
      assert x in prior.playlists[p].songs;
    } else {
      assert SongFor(tracks[k], Ok(prior.songs)) == SongFor(tracks[k], Ok(s.songs)) by {
        FirstWithIDSameIDs(prior.songs, s.songs, ToCoreData(tracks[n - 1].persistentID), 0);
      }
    }
  }

  /**
   * Linking the tracks of `p` keeps its links agreeing and keeps the links
   * already there. A Song is newly linked exactly when it is the Song
   * `songFor` finds for one of the tracks whose fetch does not fail: every
   * such Song is linked both ways, and no other Song is.
   */
  lemma LinkTracksAgree(s: StoreState, p: nat, tracks: seq<MediaItem>, n: nat, q: nat, faults: LookupFaults)
    requires p < |s.playlists| && n <= |tracks| && LinksAgree(s, p)
    ensures var r := LinkTracks(s, p, tracks, n, q, faults);
      && LinksAgree(r, p)
      && (forall i :: i in s.playlists[p].songs ==> i in r.playlists[p].songs)
      && (forall i :: i in r.playlists[p].songs && i !in s.playlists[p].songs ==>
            exists k :: 0 <= k < n && faults(q, k).None? && SongFor(tracks[k], Ok(s.songs)) == Some(i))
      && (forall k :: 0 <= k < n && faults(q, k).None? && SongFor(tracks[k], Ok(s.songs)).Some? ==>
            var i := SongFor(tracks[k], Ok(s.songs)).value;
            i in r.playlists[p].songs && p in r.songs[i].playlists)
  {
    LinkTracksKeepLinks(s, p, tracks, n, q, faults);
    LinkTracksNewFound(s, p, tracks, n, q, faults);
    forall k | 0 <= k < n && faults(q, k).None? && SongFor(tracks[k], Ok(s.songs)).Some? {
      LinkTracksFoundLinked(s, p, tracks, n, q, faults, k);
    }
  }

  /** `loadPlaylists` for media playlist number `q`: a new Playlist record, then its tracks. */
  function ImportPlaylist(s: StoreState, list: MediaPlaylist, q: nat, faults: LookupFaults): (r: StoreState)
    ensures |r.playlists| == |s.playlists| + 1 && |r.songs| == |s.songs|
  {
    LinkTracks(s.(playlists := s.playlists + [NewPlaylist(list)]), |s.playlists|, list.items, |list.items|, q, faults)
  }

  /** `loadPlaylists`: the first `n` media playlists, in order. */
  function ImportPlaylists(s: StoreState, lists: seq<MediaPlaylist>, n: nat, faults: LookupFaults): (r: StoreState)
    requires n <= |lists|
    ensures |r.playlists| == |s.playlists| + n && |r.songs| == |s.songs|
  {
    if n == 0 then s
    else ImportPlaylist(ImportPlaylists(s, lists, n - 1, faults), lists[n - 1], n - 1, faults)
  }

  /**
   * Song `i` is the one `songFor` finds among `songs` for some track of
   * `list`, made from media playlist `q`, whose fetch does not fail.
   */
  ghost predicate FoundForSomeTrack(songs: seq<Song>, list: MediaPlaylist, q: nat, faults: LookupFaults, i: nat) {
    exists k :: 0 <= k < |list.items| && faults(q, k).None? && SongFor(list.items[k], Ok(songs)) == Some(i)
  }

  /** Which Songs the tracks find depends only on the Songs' persistent IDs. */
  lemma FoundSameIDs(a: seq<Song>, b: seq<Song>, list: MediaPlaylist, q: nat, faults: LookupFaults)
    requires |a| == |b| && forall j :: 0 <= j < |a| ==> a[j].persistentID == b[j].persistentID
    ensures forall i :: FoundForSomeTrack(a, list, q, faults, i) <==> FoundForSomeTrack(b, list, q, faults, i)
  {
    forall k | 0 <= k < |list.items|
      ensures SongFor(list.items[k], Ok(a)) == SongFor(list.items[k], Ok(b))
    {
      FirstWithIDSameIDs(a, b, ToCoreData(list.items[k].persistentID), 0);
    }
  }

  /** Every playlist a Song names is a stored Playlist. */
  ghost predicate SongsNameExistingPlaylists(s: StoreState) {
    forall i, x :: 0 <= i < |s.songs| && x in s.songs[i].playlists ==> x < |s.playlists|
  }

  /**
   * A new playlist starts with its links agreeing, provided no Song names a
   * playlist beyond the existing ones; so after its tracks are linked, its
   * Songs and their playlists agree, and its Songs are exactly those
   * `songFor` finds for the tracks whose fetch does not fail.
   */
  lemma ImportPlaylistAgrees(s: StoreState, list: MediaPlaylist, q: nat, faults: LookupFaults)
    requires SongsNameExistingPlaylists(s)
    ensures var r := ImportPlaylist(s, list, q, faults);
      && LinksAgree(r, |s.playlists|)
      && r.playlists[|s.playlists|].persistentID == ToCoreData(list.persistentID)
      && (r.playlists[|s.playlists|].albumID.Some? <==> list.representativeItem.Some?)
      && (forall i :: i in r.playlists[|s.playlists|].songs <==> FoundForSomeTrack(s.songs, list, q, faults, i))
  {
    var p := |s.playlists|;
    var s1 := s.(playlists := s.playlists + [NewPlaylist(list)]);
    assert LinksAgree(s1, p);
    LinkTracksAgree(s1, p, list.items, |list.items|, q, faults);
    LinkTracksKeepsOthers(s1, p, list.items, |list.items|, q, faults);
    var r := ImportPlaylist(s, list, q, faults);
    forall i | FoundForSomeTrack(s.songs, list, q, faults, i)
      ensures i in r.playlists[p].songs
    {
      var k :| 0 <= k < |list.items| && faults(q, k).None? && SongFor(list.items[k], Ok(s.songs)) == Some(i);
      assert SongFor(list.items[k], Ok(s1.songs)).Some?;
    }
  }

  /**
   * Linking the tracks of `p` changes nothing of the playlist but its songs,
   * leaves every other Playlist as it was, and adds no playlist but `p` to
   * any Song.
   */
  lemma {:induction false} LinkTracksKeepsOthers(s: StoreState, p: nat, tracks: seq<MediaItem>, n: nat, q: nat,
                                                faults: LookupFaults)
    requires p < |s.playlists| && n <= |tracks|
    ensures var r := LinkTracks(s, p, tracks, n, q, faults);
      && r.playlists[p].(songs := s.playlists[p].songs) == s.playlists[p]
      && (forall x :: 0 <= x < |s.playlists| && x != p ==> r.playlists[x] == s.playlists[x])
      && (forall i, x :: 0 <= i < |s.songs| && x != p ==> (x in r.songs[i].playlists <==> x in s.songs[i].playlists))
  {
    if n > 0 {
      LinkTracksKeepsOthers(s, p, tracks, n - 1, q, faults);
    }
  }

  /** `loadPlaylists` keeps every Song's persistent ID. */
  lemma {:induction false} ImportPlaylistsKeepIDs(s: StoreState, lists: seq<MediaPlaylist>, n: nat, faults: LookupFaults)
    requires n <= |lists|
    ensures var r := ImportPlaylists(s, lists, n, faults);
      forall i :: 0 <= i < |s.songs| ==> r.songs[i].persistentID == s.songs[i].persistentID
  {
    if n > 0 {
      ImportPlaylistsKeepIDs(s, lists, n - 1, faults);
    }
  }

  /**
   * Importing one more playlist leaves the Playlists already stored as they
   * were, keeps their links agreeing, and keeps the Songs naming only stored
   * Playlists.
   */
  lemma ImportPlaylistKeepsEarlier(s: StoreState, list: MediaPlaylist, q: nat, faults: LookupFaults)
    ensures var r := ImportPlaylist(s, list, q, faults);
      && (SongsNameExistingPlaylists(s) ==> SongsNameExistingPlaylists(r))
      && (forall x :: 0 <= x < |s.playlists| ==> r.playlists[x] == s.playlists[x])
      && (forall x :: 0 <= x < |s.playlists| && LinksAgree(s, x) ==> LinksAgree(r, x))
  {
    var p := |s.playlists|;
    var s1 := s.(playlists := s.playlists + [NewPlaylist(list)]);
    LinkTracksKeepsOthers(s1, p, list.items, |list.items|, q, faults);
    var r := ImportPlaylist(s, list, q, faults);
    forall x | 0 <= x < p
      ensures r.playlists[x] == s.playlists[x]
    {
      assert s1.playlists[x] == s.playlists[x];
    }
  }

  /**
   * `loadPlaylists` over the first `n` media playlists keeps the Songs naming
   * only stored Playlists, and the links of every Playlist it makes agree
   * both ways.
   */
  lemma {:induction false} ImportPlaylistsAgree(s: StoreState, lists: seq<MediaPlaylist>, n: nat, faults: LookupFaults)
    requires n <= |lists| && SongsNameExistingPlaylists(s)
    ensures var r := ImportPlaylists(s, lists, n, faults);
      && SongsNameExistingPlaylists(r)
      && (forall x :: |s.playlists| <= x < |r.playlists| ==> LinksAgree(r, x))
  {
    if n > 0 {
      var prior := ImportPlaylists(s, lists, n - 1, faults);
      var r := ImportPlaylist(prior, lists[n - 1], n - 1, faults);
      assert r == ImportPlaylists(s, lists, n, faults);
      assert SongsNameExistingPlaylists(prior) by {
        ImportPlaylistsAgree(s, lists, n - 1, faults);
      }
      assert SongsNameExistingPlaylists(r) by {
        ImportPlaylistKeepsEarlier(prior, lists[n - 1], n - 1, faults);
      }
      forall x | |s.playlists| <= x < |r.playlists|
        ensures LinksAgree(r, x)
      {
        if x == |prior.playlists| {
          ImportPlaylistAgrees(prior, lists[n - 1], n - 1, faults);
        } else {
          ImportPlaylistsAgree(s, lists, n - 1, faults);
          ImportPlaylistKeepsEarlier(prior, lists[n - 1], n - 1, faults);
        }
      }
    }
  }

  /**
   * `loadPlaylists` over the first `n` media playlists: the Playlist made from
   * media playlist `m` holds exactly the Songs `songFor` finds for its tracks
   * whose fetch does not fail.
   */
  lemma {:induction false} ImportPlaylistsLinkFound(s: StoreState, lists: seq<MediaPlaylist>, n: nat, faults: LookupFaults)
    requires n <= |lists| && SongsNameExistingPlaylists(s)
    ensures var r := ImportPlaylists(s, lists, n, faults);
      forall m, i :: 0 <= m < n ==>
        (i in r.playlists[|s.playlists| + m].songs <==> FoundForSomeTrack(s.songs, lists[m], m, faults, i))
  {
    if n > 0 {
      var prior := ImportPlaylists(s, lists, n - 1, faults);
      var list := lists[n - 1];
      var r := ImportPlaylist(prior, list, n - 1, faults);
      assert r == ImportPlaylists(s, lists, n, faults);
      forall m, i | 0 <= m < n - 1
        ensures i in r.playlists[|s.playlists| + m].songs <==> FoundForSomeTrack(s.songs, lists[m], m, faults, i)
      {
        ImportPlaylistsLinkFound(s, lists, n - 1, faults);
        ImportPlaylistKeepsEarlier(prior, list, n - 1, faults);
        assert r.playlists[|s.playlists| + m] == prior.playlists[|s.playlists| + m];
      }
      forall i
        ensures i in r.playlists[|prior.playlists|].songs <==> FoundForSomeTrack(s.songs, list, n - 1, faults, i)
      {
        ImportPlaylistsAgree(s, lists, n - 1, faults);
        ImportPlaylistAgrees(prior, list, n - 1, faults);
        ImportPlaylistsKeepIDs(s, lists, n - 1, faults);
        FoundSameIDs(prior.songs, s.songs, list, n - 1, faults);
      }
    }
  }

  // ---------------------------------------------------------------- composers and info

  /**
   * The names `storeComposersFromPieces` fetches: the distinct non-empty
   * composers of the pieces, here in first-occurrence order.
   */
  function DistinctComposers(pieces: seq<Piece>): (r: seq<string>)
    ensures forall k, l :: 0 <= k < l < |r| ==> r[k] != r[l]
    ensures forall c :: c in r ==> c != "" && exists k :: 0 <= k < |pieces| && pieces[k].composer == Some(c)
  {
    if pieces == [] then []
    else
      var prior := DistinctComposers(pieces[..|pieces| - 1]);
      var last := pieces[|pieces| - 1];
      if last.composer.Some? && last.composer.value != "" && last.composer.value !in prior
      then prior + [last.composer.value]
      else prior
  }

  /** Every non-empty composer of a piece gets its Composer record. */
  lemma {:induction false} DistinctComposersComplete(pieces: seq<Piece>, k: nat)
    requires k < |pieces| && pieces[k].composer.Some? && pieces[k].composer.value != ""
    ensures pieces[k].composer.value in DistinctComposers(pieces)
  {
    if k < |pieces| - 1 {
      var init := pieces[..|pieces| - 1];
      assert init[k] == pieces[k];
      DistinctComposersComplete(init, k);
    }
  }

  /** The Composer records made from the names. */
  function ComposerRecords(names: seq<string>): (r: seq<Composer>)
    ensures |r| == |names|
    ensures forall k :: 0 <= k < |names| ==> r[k].name == Some(names[k])
  {
    seq(|names|, k requires 0 <= k < |names| => Composer(Some(names[k])))
  }

  /**
   * `storeMediaLibraryInfo`: the first info record gets the new values, or a
   * record is added when there is none; any further records are untouched.
   */
  function UpsertInfo(infos: seq<MediaLibraryInfo>, info: MediaLibraryInfo): (r: seq<MediaLibraryInfo>)
    ensures |r| >= 1 && r[0] == info
    ensures |infos| >= 1 ==> |r| == |infos| && r[1..] == infos[1..]
    ensures infos == [] ==> r == [info]
  {
    if |infos| >= 1 then infos[0 := info] else [info]
  }
}
