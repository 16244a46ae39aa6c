/**
 * The entities of the app's own store, one datatype per entity. Attributes the
 * store declares optional are `Option`s; a to-one relationship is the index of
 * the target record in its entity's sequence, a to-many relationship the
 * indices of its targets. The whole store is the value `StoreState`.
 */
module Records {
  import opened Wrappers
  import opened Media

  datatype Album = Album(
    artist: Option<string>,
    title: Option<string>,
    composer: Option<string>,
    genre: Option<string>,
    trackCount: int,
    albumID: Int64,
    year: int)

  /** `album` is the to-one relationship to Album; `playlists` the to-many to Playlist. */
  datatype Song = Song(
    persistentID: Int64,
    albumID: Int64,
    artist: Option<string>,
    duration: Option<string>,
    title: Option<string>,
    trackURL: Option<string>,
    composer: Option<string>,
    album: Option<nat>,
    playlists: set<nat>)

  /** `album` is the to-one relationship whose inverse is Album.pieces. */
  datatype Piece = Piece(
    albumID: Int64,
    composer: Option<string>,
    artist: Option<string>,
    artistID: Int64,
    genre: Option<string>,
    title: Option<string>,
    album: Option<nat>,
    trackID: Int64,
    trackURL: Option<string>)

  /**
   * `piece` is the to-one relationship whose inverse is the ordered Piece.movements;
   * a piece's movements are the movements naming it, in store order.
   */
  datatype Movement = Movement(
    title: Option<string>,
    trackID: Int64,
    trackURL: Option<string>,
    duration: Option<string>,
    piece: Option<nat>)

  /** `songs` is the ordered to-many relationship to Song (no index twice). */
  datatype Playlist = Playlist(
    persistentID: Int64,
    name: Option<string>,
    descriptionText: Option<string>,
    authorDisplayName: Option<string>,
    albumID: Option<Int64>,
    songs: seq<nat>)

  datatype Composer = Composer(name: Option<string>)

  /** The single checkpoint record: when the library was last read, and what was found. */
  datatype MediaLibraryInfo = MediaLibraryInfo(
    lastModifiedDate: Option<int>,
    albumCount: int,
    songCount: int,
    pieceCount: int,
    movementCount: int,
    playlistCount: int)

  /** The entity types a full reload clears. */
  datatype Entity = MovementEntity | PieceEntity | AlbumEntity | SongEntity | ComposerEntity | PlaylistEntity

  datatype StoreState = StoreState(
    albums: seq<Album>,
    songs: seq<Song>,
    pieces: seq<Piece>,
    movements: seq<Movement>,
    playlists: seq<Playlist>,
    composers: seq<Composer>,
    infos: seq<MediaLibraryInfo>)
  {
    /** The records of one entity type. */
    function Count(e: Entity): nat {
      match e
      case MovementEntity => |movements|
      case PieceEntity => |pieces|
      case AlbumEntity => |albums|
      case SongEntity => |songs|
      case ComposerEntity => |composers|
      case PlaylistEntity => |playlists|
    }

    /** The store with every record of type `e` removed, the rest untouched. */
    function Without(e: Entity): (r: StoreState)
      ensures r.Count(e) == 0
      ensures forall f :: f != e ==> r.Count(f) == Count(f)
      ensures e != AlbumEntity ==> r.albums == albums
      ensures e != SongEntity ==> r.songs == songs
      ensures e != PieceEntity ==> r.pieces == pieces
      ensures e != MovementEntity ==> r.movements == movements
      ensures e != PlaylistEntity ==> r.playlists == playlists
      ensures e != ComposerEntity ==> r.composers == composers
      ensures r.infos == infos
    {
      match e
      case MovementEntity => this.(movements := [])
      case PieceEntity => this.(pieces := [])
      case AlbumEntity => this.(albums := [])
      case SongEntity => this.(songs := [])
      case ComposerEntity => this.(composers := [])
      case PlaylistEntity => this.(playlists := [])
    }
  }
}
