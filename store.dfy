/**
 * The app's own store (the Core Data context the import writes into), as one
 * sequence of records per entity. Inserting appends a record and answers its
 * index, which the to-one and to-many relationships use; a batch delete
 * empties one entity and is logged, so that the order of deletions is visible.
 */
module Stores {
  import opened Records
  import opened LibraryImport

  class Store {
    var albums: seq<Album>
    var songs: seq<Song>
    var pieces: seq<Piece>
    var movements: seq<Movement>
    var playlists: seq<Playlist>
    var composers: seq<Composer>
    var infos: seq<MediaLibraryInfo>
    /** The entity types batch-deleted so far, in order. */
    var deletions: seq<Entity>

    /** The records, as a value. */
    function State(): StoreState
      reads this
    {
      StoreState(albums, songs, pieces, movements, playlists, composers, infos)
    }

    constructor ()
      ensures State() == StoreState([], [], [], [], [], [], []) && deletions == []
    {
      albums, songs, pieces, movements := [], [], [], [];
      playlists, composers, infos := [], [], [];
      deletions := [];
    }

    method InsertAlbum(a: Album) returns (index: nat)
      modifies this
      ensures State() == old(State()).(albums := old(albums) + [a]) && deletions == old(deletions)
      ensures index == |old(albums)| && albums[index] == a
    {
      index := |albums|;
      albums := albums + [a];
    }

    method InsertSong(s: Song) returns (index: nat)
      modifies this
      ensures State() == old(State()).(songs := old(songs) + [s]) && deletions == old(deletions)
      ensures index == |old(songs)| && songs[index] == s
    {
      index := |songs|;
      songs := songs + [s];
    }

    method InsertPiece(p: Piece) returns (index: nat)
      modifies this
      ensures State() == old(State()).(pieces := old(pieces) + [p]) && deletions == old(deletions)
      ensures index == |old(pieces)| && pieces[index] == p
    {
      index := |pieces|;
      pieces := pieces + [p];
    }

    method InsertMovement(m: Movement)
      modifies this
      ensures State() == old(State()).(movements := old(movements) + [m]) && deletions == old(deletions)
    {
      movements := movements + [m];
    }

    method InsertPlaylist(p: Playlist) returns (index: nat)
      modifies this
      ensures State() == old(State()).(playlists := old(playlists) + [p]) && deletions == old(deletions)
      ensures index == |old(playlists)| && playlists[index] == p
    {
      index := |playlists|;
      playlists := playlists + [p];
    }

    method InsertComposer(c: Composer)
      modifies this
      ensures State() == old(State()).(composers := old(composers) + [c]) && deletions == old(deletions)
    {
      composers := composers + [c];
    }

    /** Both sides of the Song–Playlist relationship. */
    method Link(song: nat, playlist: nat)
      requires song < |songs| && playlist < |playlists|
      modifies this
      ensures State() == Linked(old(State()), song, playlist) && deletions == old(deletions)
    {
      playlists := playlists[playlist := playlists[playlist].(songs := AddOrdered(playlists[playlist].songs, song))];
      songs := songs[song := songs[song].(playlists := songs[song].playlists + {playlist})];
    }

    /** The info record written: the first one updated, or one inserted. */
    method PutInfo(info: MediaLibraryInfo)
      modifies this
      ensures State() == old(State()).(infos := UpsertInfo(old(infos), info)) && deletions == old(deletions)
    {
      if |infos| >= 1 {
        infos := infos[0 := info];
      } else {
        infos := infos + [info];
      }
    }

    /** A batch delete of every record of one entity type. */
    method DeleteAll(e: Entity)
      modifies this
      ensures State() == old(State()).Without(e) && deletions == old(deletions) + [e]
    {
      deletions := deletions + [e];
      match e
      case MovementEntity => movements := [];
      case PieceEntity => pieces := [];
      case AlbumEntity => albums := [];
      case SongEntity => songs := [];
      case ComposerEntity => composers := [];
      case PlaylistEntity => playlists := [];
    }
  }
}
