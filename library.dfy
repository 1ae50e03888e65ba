/**
 * The playlist library of music/src/components/Library.tsx: adding a
 * playlist under a non-blank name and deleting playlists by id. Each
 * operation replaces the whole state value; `Date.now()` is passed in.
 */
module Library {
  import opened Seqs
  import opened Text

  /** A playlist; `songs` holds track ids. */
  datatype Playlist = Playlist(id: int, name: string, songs: seq<string>, thumbnail: string)

  /** The component's state: the playlists and the text of the name input. */
  datatype LibraryState = LibraryState(playlists: seq<Playlist>, newPlaylistName: string)

  const InitialState := LibraryState([], "")

  /** The character of a decimal digit. */
  function DigitChar(d: nat): (c: char)
    requires d < 10
    ensures '0' <= c <= '9'
  {
    ('0' as int + d) as char
  }

  /** The template interpolation of a non-negative integer: its decimal digits, most significant first. */
  function DecimalString(n: nat): (s: string)
    ensures s != []
    ensures forall i :: 0 <= i < |s| ==> '0' <= s[i] <= '9'
  {
    if n < 10 then [DigitChar(n)] else DecimalString(n / 10) + [DigitChar(n % 10)]
  }

  /** The value of a string of decimal digits. */
  function DecimalValue(s: string): nat
    requires forall i :: 0 <= i < |s| ==> '0' <= s[i] <= '9'
  {
    if s == [] then 0
    else DecimalValue(s[..|s| - 1]) * 10 + (s[|s| - 1] as int - '0' as int)
  }

  /** Reading the digits back gives the number. */
  lemma {:induction false} DecimalRoundTrip(n: nat)
    ensures DecimalValue(DecimalString(n)) == n
  {
    var s := DecimalString(n);
    if n >= 10 {
      DecimalRoundTrip(n / 10);
      assert s[..|s| - 1] == DecimalString(n / 10);
    }
  }

  const ThumbnailPrefix := "https://picsum.photos/200/200?random="

  /** The thumbnail url, made unique by the clock reading. */
  function Thumbnail(now: nat): string {
    ThumbnailPrefix + DecimalString(now)
  }

  /** The clock reading can be read back from the thumbnail url. */
  lemma ThumbnailCarriesClock(now: nat)
    ensures |ThumbnailPrefix| < |Thumbnail(now)|
    ensures Thumbnail(now)[..|ThumbnailPrefix|] == ThumbnailPrefix
    ensures DecimalValue(Thumbnail(now)[|ThumbnailPrefix|..]) == now
  {
    assert Thumbnail(now)[|ThumbnailPrefix|..] == DecimalString(now);
    DecimalRoundTrip(now);
  }

  /**
   * `addPlaylist`: a name that is blank once trimmed changes nothing;
   * otherwise a playlist with the untrimmed name, no songs, the id
   * `idClock` and a thumbnail made from `imageClock` is appended and the
   * input is cleared. (`Date.now()` is read twice, hence two readings.)
   */
  function AddPlaylist(st: LibraryState, idClock: nat, imageClock: nat): (r: LibraryState)
    ensures Trim(st.newPlaylistName) == [] ==> r == st
    ensures Trim(st.newPlaylistName) != [] ==>
              r.newPlaylistName == [] &&
              |r.playlists| == |st.playlists| + 1 &&
              r.playlists[..|st.playlists|] == st.playlists &&
              r.playlists[|st.playlists|] == Playlist(idClock, st.newPlaylistName, [], Thumbnail(imageClock))
  {
    if Trim(st.newPlaylistName) == [] then st
    else
      var added := Playlist(idClock, st.newPlaylistName, [], Thumbnail(imageClock));
      LibraryState(st.playlists + [added], "")
  }

  /** The filter predicate `playlist => playlist.id !== id`. */
  function OtherThan(id: int): Playlist -> bool {
    (p: Playlist) => p.id != id
  }

  /** `deletePlaylist(id)`: the playlists whose id differs, in their order. */
  function DeletePlaylist(playlists: seq<Playlist>, id: int): (r: seq<Playlist>)
    ensures forall p :: p in r <==> p in playlists && p.id != id
  {
    Filter(playlists, OtherThan(id))
  }

  /** Deleting keeps every other playlist as often as it was there, in order. */
  lemma DeletePlaylistExact(playlists: seq<Playlist>, id: int)
    ensures forall p :: multiset(DeletePlaylist(playlists, id))[p] == if p.id == id then 0 else multiset(playlists)[p]
    ensures IsSubsequence(DeletePlaylist(playlists, id), playlists)
  {
    FilterCounts(playlists, OtherThan(id));
    FilterIsSubsequence(playlists, OtherThan(id));
  }

  /** Deleting an id that no playlist has changes nothing. */
  lemma DeleteAbsentIsNoOp(playlists: seq<Playlist>, id: int)
    requires forall i :: 0 <= i < |playlists| ==> playlists[i].id != id
    ensures DeletePlaylist(playlists, id) == playlists
  {
    FilterKeepsAll(playlists, OtherThan(id));
  }

  /** Deleting a playlist just added under a fresh id restores the earlier list. */
  lemma DeleteUndoesAdd(st: LibraryState, idClock: nat, imageClock: nat)
    requires Trim(st.newPlaylistName) != []
    requires forall i :: 0 <= i < |st.playlists| ==> st.playlists[i].id != idClock
    ensures DeletePlaylist(AddPlaylist(st, idClock, imageClock).playlists, idClock) == st.playlists
  {
    var added := Playlist(idClock, st.newPlaylistName, [], Thumbnail(imageClock));
    FilterAppend(st.playlists, [added], OtherThan(idClock));
    DeleteAbsentIsNoOp(st.playlists, idClock);
    assert Filter([added], OtherThan(idClock)) == [];
    assert st.playlists + [added] == AddPlaylist(st, idClock, imageClock).playlists;
  }

  /** Adding twice without retyping a name adds once: the input was cleared. */
  lemma AddClearsInput(st: LibraryState, idClock: nat, imageClock: nat, idClock2: nat, imageClock2: nat)
    ensures var once := AddPlaylist(st, idClock, imageClock);
      Trim(st.newPlaylistName) != [] ==> AddPlaylist(once, idClock2, imageClock2) == once
  {
    var once := AddPlaylist(st, idClock, imageClock);
    if Trim(st.newPlaylistName) != [] {
      assert Trim(once.newPlaylistName) == [];
    }
  }
}
