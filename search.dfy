/**
 * The catalogue search of music/src/components/Search.tsx: the query is
 * trimmed and lowercased, an empty query clears the results, and otherwise
 * three filters over the fixed catalogue pick the artists, albums and songs
 * that mention it. Clicking an artist or album name toggles its expansion.
 */
module Search {
  import opened Wrappers
  import opened Seqs
  import opened Text

  datatype Kind = Song | Artist | Album

  /** `ResultItem`; `artist` and `album` are the optional fields. */
  datatype ResultItem = ResultItem(
    id: int,
    kind: Kind,
    name: string,
    artist: Option<string>,
    album: Option<string>,
    image: string)

  function Picsum(n: string): string {
    "https://picsum.photos/200/200?random=" + n
  }

  /** `allResults`, the fixed catalogue the search runs over. */
  const AllResults: seq<ResultItem> := [
    ResultItem(1, Artist, "투어스", None, None, Picsum("1")),
    ResultItem(2, Artist, "tws", None, None, Picsum("2")),
    ResultItem(3, Album, "투어스 1집", Some("투어스"), None, Picsum("3")),
    ResultItem(4, Album, "투어스 2집", Some("투어스"), None, Picsum("4")),
    ResultItem(5, Album, "투어스 3집", Some("투어스"), None, Picsum("5")),
    ResultItem(6, Album, "tws album", Some("tws"), None, Picsum("6")),
    ResultItem(7, Song, "Plot Twist", Some("투어스"), Some("투어스 1집"), Picsum("7")),
    ResultItem(8, Song, "unplugged boy", Some("투어스"), Some("투어스 1집"), Picsum("8")),
    ResultItem(9, Song, "first hooky", Some("투어스"), Some("투어스 1집"), Picsum("9")),
    ResultItem(10, Song, "BFF", Some("투어스"), Some("투어스 1집"), Picsum("10")),
    ResultItem(11, Song, "Oh Mymy : 7s", Some("투어스"), Some("투어스 1집"), Picsum("11")),
    ResultItem(12, Song, "Hey! Hey!", Some("투어스"), Some("투어스 2집"), Picsum("12")),
    ResultItem(13, Song, "Double Take", Some("투어스"), Some("투어스 2집"), Picsum("13")),
    ResultItem(14, Song, "Fire Confetti", Some("투어스"), Some("투어스 2집"), Picsum("14")),
    ResultItem(15, Song, "Last Festival", Some("투어스"), Some("투어스 3집"), Picsum("15")),
    ResultItem(16, Song, "Highlight", Some("투어스"), Some("투어스 3집"), Picsum("16")),
    ResultItem(17, Song, "Comma,", Some("투어스"), Some("투어스 3집"), Picsum("17")),
    ResultItem(18, Song, "투어스 노래", Some("tws"), Some("tws album"), Picsum("18"))
  ]

  datatype SearchResults = SearchResults(artists: seq<ResultItem>, albums: seq<ResultItem>, songs: seq<ResultItem>)

  /** `query.trim().toLowerCase()`. */
  function Normalize(query: string): string {
    Lower(Trim(query))
  }

  /**
   * `field && field.toLowerCase().includes(q)`: an absent or empty field is
   * falsy and matches nothing.
   */
  predicate Mentions(field: Option<string>, q: string) {
    field.Some? && field.value != [] && Contains(Lower(field.value), q)
  }

  /** The artist filter: an artist whose name contains the query. */
  function MatchesArtist(q: string): ResultItem -> bool {
    (item: ResultItem) => item.kind == Artist && Contains(Lower(item.name), q)
  }

  /** The album filter: an album whose name or artist contains the query. */
  function MatchesAlbum(q: string): ResultItem -> bool {
    (item: ResultItem) => item.kind == Album && (Contains(Lower(item.name), q) || Mentions(item.artist, q))
  }

  /** The song filter: a song whose name, artist or album contains the query. */
  function MatchesSong(q: string): ResultItem -> bool {
    (item: ResultItem) =>
      item.kind == Song && (Contains(Lower(item.name), q) || Mentions(item.artist, q) || Mentions(item.album, q))
  }

  /**
   * `handleSearch` over a catalogue: a query that is empty once normalised
   * clears all three lists; otherwise each list holds exactly the catalogue
   * items of its kind that mention the normalised query.
   */
  function Search(catalogue: seq<ResultItem>, query: string): (r: SearchResults)
    ensures Normalize(query) == [] ==> r == SearchResults([], [], [])
    ensures forall item :: item in r.artists <==>
              Normalize(query) != [] && item in catalogue && item.kind == Artist &&
              Contains(Lower(item.name), Normalize(query))
    ensures forall item :: item in r.albums <==>
              Normalize(query) != [] && item in catalogue && item.kind == Album &&
              (Contains(Lower(item.name), Normalize(query)) || Mentions(item.artist, Normalize(query)))
    ensures forall item :: item in r.songs <==>
              Normalize(query) != [] && item in catalogue && item.kind == Song &&
              (Contains(Lower(item.name), Normalize(query)) || Mentions(item.artist, Normalize(query)) ||
               Mentions(item.album, Normalize(query)))
  {
    var q := Normalize(query);
    if q == [] then SearchResults([], [], [])
    else SearchResults(Filter(catalogue, MatchesArtist(q)), Filter(catalogue, MatchesAlbum(q)), Filter(catalogue, MatchesSong(q)))
  }

  /** `handleSearch` itself: the search over `allResults`. */
  function HandleSearch(query: string): SearchResults {
    Search(AllResults, query)
  }

  /** Each result list keeps the catalogue's order and repeats no entry more often than the catalogue does. */
  lemma SearchKeepsCatalogueOrder(catalogue: seq<ResultItem>, query: string)
    ensures IsSubsequence(Search(catalogue, query).artists, catalogue)
    ensures IsSubsequence(Search(catalogue, query).albums, catalogue)
    ensures IsSubsequence(Search(catalogue, query).songs, catalogue)
  {
    var q := Normalize(query);
    if q != [] {
      FilterIsSubsequence(catalogue, MatchesArtist(q));
      FilterIsSubsequence(catalogue, MatchesAlbum(q));
      FilterIsSubsequence(catalogue, MatchesSong(q));
    }
  }

  /** Whitespace around the query does not change the results. */
  lemma SearchIgnoresSurroundingWhitespace(catalogue: seq<ResultItem>, before: string, query: string, after: string)
    requires AllWhitespace(before) && AllWhitespace(after)
    ensures Search(catalogue, before + query + after) == Search(catalogue, query)
  {
    TrimIgnoresSurroundingWhitespace(before, query, after);
  }

  /** Searching for the normalised query gives the same results as the query. */
  lemma SearchOfNormalized(catalogue: seq<ResultItem>, query: string)
    ensures Search(catalogue, Normalize(query)) == Search(catalogue, query)
  {
    var q := Normalize(query);
    TrimIdempotent(query);
    LowerOfTrimmed(Trim(query));
  }

  /** Lowercasing a trimmed string leaves it trimmed, and lowercasing twice is lowercasing once. */
  lemma LowerOfTrimmed(t: string)
    requires Trim(t) == t
    ensures Trim(Lower(t)) == Lower(t)
    ensures Lower(Lower(t)) == Lower(t)
  {
    var l := Lower(t);
    if l != [] {
      assert !IsWhitespace(t[0]) && !IsWhitespace(t[|t| - 1]);
      assert !IsWhitespace(l[0]) && !IsWhitespace(l[|l| - 1]);
      assert LeadingWhitespace(l) == 0;
      assert TrailingWhitespace(l) == 0;
      assert l[0..] == l;
    }
    assert forall i :: 0 <= i < |l| ==> LowerChar(l[i]) == l[i];
  }

  /**
   * The expand toggle: clicking the expanded name collapses it, clicking any
   * other name expands that one.
   */
  function ToggleExpanded(expanded: Option<string>, name: string): (r: Option<string>)
    ensures r == None <==> expanded == Some(name)
    ensures r != None ==> r == Some(name)
  {
    if expanded == Some(name) then None else Some(name)
  }

  /** The filter `song.album === album.name`. */
  function OnAlbum(albumName: string): ResultItem -> bool {
    (song: ResultItem) => song.album == Some(albumName)
  }

  /** The songs shown under an expanded album: the song results on that album, in order. */
  function AlbumTracks(songs: seq<ResultItem>, albumName: string): (r: seq<ResultItem>)
    ensures forall s :: s in r <==> s in songs && s.album == Some(albumName)
  {
    Filter(songs, OnAlbum(albumName))
  }
}
