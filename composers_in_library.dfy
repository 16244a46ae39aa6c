/**
 * The set of composer names found in the media library, kept between calls,
 * and the fuzzy membership test the title parser asks of it
 * (ComposersInLibrary.swift).
 */
module ComposersInLibrary {
  import opened Wrappers
  import opened Text
  import opened Media

  /** The composers named by the items of one album collection. */
  function ItemComposers(items: seq<MediaItem>): set<string> {
    set i | 0 <= i < |items| && items[i].composer.Some? :: items[i].composer.value
  }

  /** The composers `findComposers` collects from the collections, album by album. */
  function ComposersOf(albums: seq<seq<MediaItem>>, loadOnlyFake: bool): set<string> {
    if albums == [] then {}
    else
      var last := albums[|albums| - 1];
      ComposersOf(albums[..|albums| - 1], loadOnlyFake)
        + (if KeptByFakeFilter(last, loadOnlyFake) then ItemComposers(last) else {})
  }

  /**
   * A name is collected exactly when some item of some album the fake-genre
   * switch keeps has it as its composer.
   */
  lemma {:induction false} ComposersOfMembers(albums: seq<seq<MediaItem>>, loadOnlyFake: bool, c: string)
    ensures c in ComposersOf(albums, loadOnlyFake) <==>
            exists a, i :: 0 <= a < |albums| && KeptByFakeFilter(albums[a], loadOnlyFake)
                           && 0 <= i < |albums[a]| && albums[a][i].composer == Some(c)
  {
    if albums != [] {
      var n := |albums| - 1;
      var init := albums[..n];
      ComposersOfMembers(init, loadOnlyFake, c);
      if c in ComposersOf(albums, loadOnlyFake) && c !in ComposersOf(init, loadOnlyFake) {
        var i :| 0 <= i < |albums[n]| && albums[n][i].composer.Some? && albums[n][i].composer.value == c;
        assert albums[n][i].composer == Some(c);
      }
      if exists a, i :: 0 <= a < |albums| && KeptByFakeFilter(albums[a], loadOnlyFake)
                        && 0 <= i < |albums[a]| && albums[a][i].composer == Some(c) {
        var a, i :| 0 <= a < |albums| && KeptByFakeFilter(albums[a], loadOnlyFake)
                    && 0 <= i < |albums[a]| && albums[a][i].composer == Some(c);
        if a < n {
          assert init[a] == albums[a];
        } else {
          assert c in ItemComposers(albums[n]);
        }
      }
    }
  }

  /** `max(1, count / parts)`: how many steps pass between progress reports; never zero. */
  function ProgressIncrement(count: nat, parts: nat): (r: nat)
    requires parts > 0
    ensures r >= 1
    ensures count >= parts ==> r * parts <= count
  {
    var q := count / parts;
    assert q * parts + count % parts == count;
    if q > 1 then q else 1
  }

  /** The text before the first `c` is everything before any position that holds the first `c`. */
  lemma {:induction false} BeforeFirstIs(s: string, c: char, i: nat)
    requires i < |s| && s[i] == c && c !in s[..i]
    ensures BeforeFirst(s, c) == s[..i]
  {
    if i > 0 {
      assert s[1..][..i - 1] == s[..i][1..];
      BeforeFirstIs(s[1..], c, i - 1);
      assert s[..i] == [s[0]] + s[1..][..i - 1];
    }
  }

  /** `candidate` up to its first "(", with blanks trimmed: "Strauss (R)" asks for "Strauss". */
  function RefinedCandidate(candidate: string): (r: string)
    ensures '(' !in r
    ensures r == [] || (!IsBlank(r[0]) && !IsBlank(r[|r| - 1]))
  {
    var b := BeforeFirst(candidate, '(');
    TrimTrims(b, Whitespaces);
    TrimLeadingSuffix(b, Whitespaces);
    TrimTrailingPrefix(TrimLeading(b, Whitespaces), Whitespaces);
    Trim(BeforeFirst(candidate, '('), Whitespaces)
  }

  predicate IsBlank(c: char) {
    Whitespaces.Contains(c)
  }

  lemma StraussBeforeParen()
    ensures BeforeFirst("Strauss (R)", '(') == "Strauss "
  {
    var s := "Strauss (R)";
    assert s[..8] == "Strauss ";
    BeforeFirstIs(s, '(', 8);
  }

  lemma StraussTrimmed()
    ensures Trim("Strauss ", Whitespaces) == "Strauss"
  {
    var b := "Strauss ";
    assert TrimLeading(b, Whitespaces) == b;
    assert b[..7] == "Strauss";
  }

  lemma RefinedCandidateExample()
    ensures RefinedCandidate("Strauss (R)") == "Strauss"
  {
    StraussBeforeParen();
    StraussTrimmed();
  }

  /** A surname finds the stored full name: "Brahms" is in "Brahms, Johannes". */
  lemma ContainsExample()
    ensures ContainsCaseInsensitive("Brahms, Johannes", "Brahms")
  {
    assert MatchesAt("Brahms, Johannes", "Brahms", 0);
  }

  /**
   * The state `findComposers` fills: the composer names and the number of
   * album collections it saw (`fileprivate` globals in the source).
   */
  class ComposerIndex {
    var composersFound: set<string>
    var albumCount: int

    constructor ()
      ensures composersFound == {} && albumCount == 0
    {
      composersFound := {};
      albumCount := 0;
    }

    /** `composersCount()`. */
    function ComposersCount(): (n: nat)
      reads this
      ensures n == 0 <==> composersFound == {}
    {
      |composersFound|
    }

    /** `getAlbumCount()`: the number of album collections the last search saw. */
    function GetAlbumCount(): (r: int)
      reads this
      ensures r == albumCount
    {
      albumCount
    }

    /**
     * `findComposers()`. `mediaAlbums` is what `MPMediaQuery.albums()` yields.
     * With `loadOnlyFake` set the source reads the first item of every album
     * unchecked, so every album must then have one.
     */
    method FindComposers(mediaAlbums: Option<seq<seq<MediaItem>>>, loadOnlyFake: bool)
      requires loadOnlyFake && mediaAlbums.Some? ==> forall a :: a in mediaAlbums.value ==> |a| > 0
      modifies this
      ensures GetAlbumCount() == if mediaAlbums.Some? then |mediaAlbums.value| else 0
      ensures composersFound == if mediaAlbums.Some? then ComposersOf(mediaAlbums.value, loadOnlyFake) else {}
    {
      albumCount := 0;
      composersFound := {};
      if mediaAlbums.Some? {
        var collections := mediaAlbums.value;
        albumCount := |collections|;
        for a := 0 to |collections|
          invariant albumCount == |collections|
          invariant composersFound == ComposersOf(collections[..a], loadOnlyFake)
        {
          var mediaAlbumItems := collections[a];
          assert collections[..a + 1][..a] == collections[..a];
          if loadOnlyFake && mediaAlbumItems[0].genre != Some(FakeGenre) {
            continue;
          }
          for i := 0 to |mediaAlbumItems|
            invariant albumCount == |collections|
            invariant composersFound == ComposersOf(collections[..a], loadOnlyFake) + ItemComposers(mediaAlbumItems[..i])
          {
            var item := mediaAlbumItems[i];
            if item.composer.Some? {
              composersFound := composersFound + {item.composer.value};
            }
            assert mediaAlbumItems[..i + 1][i] == item;
            assert forall k :: 0 <= k < i ==> mediaAlbumItems[..i + 1][k] == mediaAlbumItems[..i][k];
          }
          assert mediaAlbumItems[..|mediaAlbumItems|] == mediaAlbumItems;
        }
        assert collections[..|collections|] == collections;
      }
    }

    /** `composersInLibrary()`: every stored composer, each exactly once, in no set order. */
    method ComposersInLibrary() returns (r: seq<string>)
      ensures forall c :: c in r <==> c in composersFound
      ensures forall i, j :: 0 <= i < j < |r| ==> r[i] != r[j]
      ensures |r| == ComposersCount()
    {
      r := [];
      var rest := composersFound;
      while rest != {}
        invariant rest <= composersFound
        invariant forall c :: c in r <==> c in composersFound && c !in rest
        invariant forall i, j :: 0 <= i < j < |r| ==> r[i] != r[j]
        invariant |r| + |rest| == |composersFound|
        decreases |rest|
      {
        var c :| c in rest;
        r := r + [c];
        rest := rest - {c};
      }
    }

    /**
     * `composersContains(candidate:)`: does some stored composer contain the
     * refined candidate, ignoring case? Never for an empty refined candidate.
     */
    method ComposersContains(candidate: string) returns (found: bool)
      ensures found <==> exists c :: c in composersFound && ContainsCaseInsensitive(c, RefinedCandidate(candidate))
    {
      var refinedCandidate := RefinedCandidate(candidate);
      var rest := composersFound;
      while rest != {}
        invariant rest <= composersFound
        invariant forall c :: c in composersFound && c !in rest ==> !ContainsCaseInsensitive(c, refinedCandidate)
        decreases |rest|
      {
        var composer :| composer in rest;
        if ContainsCaseInsensitive(composer, refinedCandidate) {
          return true;
        }
        rest := rest - {composer};
      }
      return false;
    }
  }
}
