/**
 * The device media library as the core sees it: album collections of items,
 * playlists, and the library's last-modification date. These are inputs; the
 * core never changes them. Also the two value conversions the import applies to
 * every item: persistent IDs into the store's signed 64-bit integers, and
 * playback durations into "m:ss" strings.
 */
module Media {
  import opened Wrappers
  import opened Text

  const TwoTo63: int := 0x8000_0000_0000_0000
  const TwoTo64: int := 0x1_0000_0000_0000_0000

  /** `MPMediaEntityPersistentID`. */
  newtype UInt64 = x: int | 0 <= x < 0x1_0000_0000_0000_0000

  /** The store's `Int64` attributes. */
  newtype Int64 = x: int | -0x8000_0000_0000_0000 <= x < 0x8000_0000_0000_0000

  /** The genre that the screenshot-only `loadOnlyFake` switch keeps. */
  const FakeGenre: string := "fake"

  /**
   * One `MPMediaItem`. `playable` stands for the `isPlayable()` extension and
   * `missingMedia` for `playabilityCategory() == .missingMedia`; neither is
   * defined in the files modelled, so both are given per item.
   */
  datatype MediaItem = MediaItem(
    persistentID: UInt64,
    albumPersistentID: UInt64,
    artistPersistentID: UInt64,
    title: Option<string>,
    composer: Option<string>,
    artist: Option<string>,
    albumTitle: Option<string>,
    albumArtist: Option<string>,
    genre: Option<string>,
    albumTrackCount: int,
    year: int,
    playbackSeconds: nat,
    assetURL: Option<string>,
    playable: bool,
    missingMedia: bool)

  /** One `MPMediaPlaylist`. */
  datatype MediaPlaylist = MediaPlaylist(
    persistentID: UInt64,
    name: Option<string>,
    descriptionText: Option<string>,
    authorDisplayName: Option<string>,
    representativeItem: Option<MediaItem>,
    items: seq<MediaItem>)

  /**
   * `MPMediaLibrary.default()` as queried by the import: the modification date
   * (seconds), the album collections of `MPMediaQuery.albums()` and the
   * playlists of `MPMediaQuery.playlists()`; either query may yield no
   * collections at all (`nil`).
   */
  datatype MediaLibrary = MediaLibrary(
    lastModifiedDate: int,
    albums: Option<seq<seq<MediaItem>>>,
    playlists: Option<seq<MediaPlaylist>>)

  /**
   * Does the screenshot switch keep an album? With `loadOnlyFake` set, only an
   * album whose first item has the fake genre; a missing genre is not it.
   */
  predicate KeptByFakeFilter(items: seq<MediaItem>, loadOnlyFake: bool) {
    !loadOnlyFake || (|items| > 0 && items[0].genre == Some(FakeGenre))
  }

  /**
   * The tracks a one-property `MPMediaQuery.songs()` yields: the first item of
   * each result collection, kept only when it is playable, in collection order.
   */
  function PlayableFirstItems(collections: seq<seq<MediaItem>>): (r: seq<MediaItem>)
    ensures |r| <= |collections|
    ensures forall t :: t in r ==> t.playable && exists c :: c in collections && |c| > 0 && c[0] == t
  {
    if collections == [] then []
    else
      var c := collections[|collections| - 1];
      PlayableFirstItems(collections[..|collections| - 1]) + (if |c| > 0 && c[0].playable then [c[0]] else [])
  }

  /** Every playable first item is among the tracks, so nothing playable is lost. */
  lemma {:induction false} PlayableFirstItemsComplete(collections: seq<seq<MediaItem>>, c: seq<MediaItem>)
    requires c in collections && |c| > 0 && c[0].playable
    ensures c[0] in PlayableFirstItems(collections)
  {
    var last := collections[|collections| - 1];
    if c != last {
      var i :| 0 <= i < |collections| && collections[i] == c;
      assert collections[..|collections| - 1][i] == c;
      PlayableFirstItemsComplete(collections[..|collections| - 1], c);
    }
  }

  // ---------------------------------------------------------------- IDs

  /**
   * `Int64(bitPattern:)`: the signed integer with the same 64-bit pattern. It
   * keeps the value modulo 2^64, and the stored ID is negative exactly when
   * the top bit of the media ID is set.
   */
  function ToCoreData(id: UInt64): (r: Int64)
    ensures (r as int - id as int) % TwoTo64 == 0
    ensures r < 0 <==> id as int >= TwoTo63
  {
    if id as int < TwoTo63 then id as int as Int64 else (id as int - TwoTo64) as Int64
  }

  /**
   * `UInt64(bitPattern:)`: the unsigned integer with the same 64-bit pattern,
   * again equal modulo 2^64, with the top bit set exactly for a negative ID.
   */
  function FromCoreData(id: Int64): (r: UInt64)
    ensures (r as int - id as int) % TwoTo64 == 0
    ensures r as int >= TwoTo63 <==> id < 0
  {
    if id >= 0 then id as int as UInt64 else (id as int + TwoTo64) as UInt64
  }

  lemma FromCoreDataAfterToCoreData(id: UInt64)
    ensures FromCoreData(ToCoreData(id)) == id
  {
  }

  lemma ToCoreDataAfterFromCoreData(id: Int64)
    ensures ToCoreData(FromCoreData(id)) == id
  {
  }

  /** Distinct media IDs stay distinct in the store, so lookups by stored ID are exact. */
  lemma ToCoreDataInjective(a: UInt64, b: UInt64)
    requires ToCoreData(a) == ToCoreData(b)
    ensures a == b
  {
    FromCoreDataAfterToCoreData(a);
    FromCoreDataAfterToCoreData(b);
  }

  // ---------------------------------------------------------------- durations

  function TwoDigits(n: nat): (r: string)
    requires n < 100
    ensures |r| == 2 && AllDigits(r)
  {
    [DigitChar(n / 10), DigitChar(n % 10)]
  }

  /**
   * `durationAsString` for a whole, non-negative number of seconds:
   * `String(format: "%d:%02d", minutes, seconds)`.
   */
  function DurationAsString(seconds: nat): (r: string)
    ensures |r| >= 4 && r[|r| - 3] == ':'
    ensures AllDigits(r[..|r| - 3]) && AllDigits(r[|r| - 2..])
  {
    var mins, secs := Decimal(seconds / 60), TwoDigits(seconds % 60);
    assert (mins + ":" + secs)[..|mins|] == mins;
    assert (mins + ":" + secs)[|mins| + 1..] == secs;
    mins + ":" + secs
  }

  /** Reads an "m:ss" string back into seconds; the inverse of `DurationAsString`. */
  function ParseDuration(s: string): Option<nat> {
    if |s| >= 4 && s[|s| - 3] == ':' && AllDigits(s[..|s| - 3]) && AllDigits(s[|s| - 2..])
       && DecimalValue(s[|s| - 2..]) < 60
    then Some(DecimalValue(s[..|s| - 3]) * 60 + DecimalValue(s[|s| - 2..]))
    else None
  }

  /** No two durations print alike: the printed form determines the seconds. */
  lemma {:induction false} DurationRoundTrip(seconds: nat)
    ensures ParseDuration(DurationAsString(seconds)) == Some(seconds)
  {
    var m, sec := seconds / 60, seconds % 60;
    var r := DurationAsString(seconds);
    var mins := Decimal(m);
    assert r[..|r| - 3] == mins;
    assert r[|r| - 2..] == TwoDigits(sec);
    DecimalRoundTrip(m);
    assert DecimalValue(TwoDigits(sec)) == sec by {
      var t := TwoDigits(sec);
      assert t[..1] == [DigitChar(sec / 10)];
      assert DecimalValue(t[..1]) == DecimalValue([]) * 10 + sec / 10;
    }
  }
}
