# goldenvinyl playback and list logic in Dafny

This project models the logic of the goldenvinyl music front end: the
playback session controller and four list/filter routines in its
components. Every remote call, store query, clock reading and random draw
becomes a parameter of the operation, so each operation is one
sequential step. The properties the code promises are proved about that
model.

- `History` (history.dfy) holds the track shape and the pure list
  operations of the player context. They cover recording a play into the
  newest-first history (drop the same id, prepend the track stamped with
  the time, keep 50), removing an entry, finding an entry's index, and
  choosing the next, previous and shuffle targets.
- `PlayerContext` (player.dfy) is the controller as a class. Its fields
  are `currentTrack`, `isPlaying`, `playedTracks` and `updateHistory`,
  the "record the next play" flag. Its methods are `playTrack`,
  `togglePlayPause`, `nextTrack`, `prevTrack`, `shuffleTrack`,
  `repeatTrack`, `removeFromHistory` and the history effect. A remote call
  is replaced by how it ended: no token, no device, threw, or sent.
- `RecentTopArtists` (top_artists.dfy) covers the following:
  - the frequency count of artist credits, a loop over a map, proved to
    compute `TallyMap`;
  - the stable descending sort and the top-3 cut;
  - the per-artist top tracks, which are empty after a failed request,
    while a request that throws drops the whole batch;
  - the duplicate check before adding to a playlist;
  - the conversion of a top track into the player's track.
- `Search` (search.dfy) holds the fixed catalogue. It also models query
  normalisation (trim, then lowercase), the three type-restricted
  substring filters, the expand toggle and the album track list.
- `Library` (library.dfy) models adding a playlist under a non-blank name
  and deleting playlists by id.
- `HeartPlayed` (heart_played.dfy) has these parts:
  - an in-place Fisher–Yates shuffle on an `array`, proved equal to the
    specification function `Shuffled`, which is proved to be a
    permutation;
  - the take-4 selection of liked rows;
  - the row-to-track conversion;
  - the choice between toggling and starting playback.
- `Seqs`, `Text` and `Wrappers` are shared building blocks:
  - `Seqs` has `Array.prototype.filter`, `slice(0, n)` and the
    subsequence relation.
  - `Text` has `trim` over the ECMAScript whitespace set, `toLowerCase`
    and `includes`.
  - `Wrappers` has `Option`.

Navigation and playback in music/src/contexts/PlayerContext.tsx work as
follows:
- `nextTrack` moves to index + 1, the next older play, because the history
  is newest-first. `prevTrack` moves to index − 1, the next newer play, and
  at index 0 it does nothing. `PlayerContext.SessionScenario` walks through
  one such session.
- Nothing stops playback at a history boundary.
- `togglePlayPause` flips `isPlaying` only after the pause or resume
  request was sent. A request that throws leaves it unchanged. There is
  no optimistic flip and no rollback.
- PlayerContext.tsx has no like toggle, history hydration, seek or volume
  operation.

## Model

| member | source | states |
|---|---|---|
| History.RecordPlay | music/src/contexts/PlayerContext.tsx:50-62 | a recorded play puts the track, stamped with the time, at the head; no later entry has its id; the history holds at most 50 entries; the rest is the filtered old history, cut to fit |
| History.RecordPlayKeepsUniqueIds | music/src/contexts/PlayerContext.tsx:54-55 | distinct ids before a recorded play stay distinct after it |
| History.RecordPlayKeepsOrder | music/src/contexts/PlayerContext.tsx:54-55 | the entries after the head are old entries in their old relative order |
| History.RecordPlayEvictsOldest | music/src/contexts/PlayerContext.tsx:55-58 | a remaining older entry survives exactly when fewer than 49 remaining entries are newer, so only the tail is dropped |
| History.RemoveFromHistory | music/src/contexts/PlayerContext.tsx:179-181 | an entry survives removal exactly when it was there and has another id |
| History.RemoveFromHistoryExact | music/src/contexts/PlayerContext.tsx:180 | removal drops every entry with the id, keeps each other entry as often as before, and keeps their order |
| History.RemoveAbsentIsNoOp | music/src/contexts/PlayerContext.tsx:180 | removing an id no entry has changes nothing |
| History.RemoveIdempotent | music/src/contexts/PlayerContext.tsx:180 | removing twice equals removing once |
| History.RemoveKeepsUniqueIds | music/src/contexts/PlayerContext.tsx:180 | removal keeps the ids distinct |
| History.FindIndex | music/src/contexts/PlayerContext.tsx:145 | `findIndex` gives the first index with the id, or -1 exactly when no entry has it |
| History.FindIndexOfEntry | music/src/contexts/PlayerContext.tsx:145 | with distinct ids, the index found for an entry's id is its position |
| History.NextTarget | music/src/contexts/PlayerContext.tsx:143-151 | `nextTrack` has a target exactly when there is a current track found before the last index; the target is the entry after its first occurrence |
| History.PrevTarget | music/src/contexts/PlayerContext.tsx:153-160 | `prevTrack` has no target when there is no current track, when the current track is absent, or when it is at index 0; otherwise the target is the entry before it |
| History.NextThenPrev | music/src/contexts/PlayerContext.tsx:143-160 | with distinct ids, going to the next entry and then back returns to the current track's entry |
| History.PrevThenNext | music/src/contexts/PlayerContext.tsx:143-160 | with distinct ids, going to the previous entry and then forward returns to the current track's entry |
| History.ShufflePool | music/src/contexts/PlayerContext.tsx:162-168 | the shuffle pool is the history without the current track's id whenever another track exists, and the whole history otherwise; it is non-empty for a non-empty history |
| PlayerContext.Player.constructor | music/src/contexts/PlayerContext.tsx:44-48 | the session starts with no track, not playing, an empty history and recording armed |
| PlayerContext.Player.HistoryEffect | music/src/contexts/PlayerContext.tsx:50-62 | the effect records the current track when the flag allows it, re-arms the flag, and keeps the history valid |
| PlayerContext.Player.PlayTrack | music/src/contexts/PlayerContext.tsx:95-141 | without a token nothing changes; with no device, or when a request throws, only the flag changes, to `!isNavigation`; a sent play makes the track current and playing, and records it unless this is navigation |
| PlayerContext.Player.TogglePlayPause | music/src/contexts/PlayerContext.tsx:64-92 | `isPlaying` flips exactly when the request was sent; without a token, or when the request throws, it is unchanged |
| PlayerContext.Player.NextTrack | music/src/contexts/PlayerContext.tsx:143-151 | the history is unchanged; with no target nothing changes; a successful play makes the next older entry current |
| PlayerContext.Player.PrevTrack | music/src/contexts/PlayerContext.tsx:153-160 | the history is unchanged; at index 0, or with no target, nothing changes; a successful play makes the next newer entry current |
| PlayerContext.Player.ShuffleTrack | music/src/contexts/PlayerContext.tsx:162-171 | an empty history changes nothing; otherwise the chosen pool entry, which is in the history, is played and recorded |
| PlayerContext.Player.RepeatTrack | music/src/contexts/PlayerContext.tsx:173-177 | with no current track nothing changes; otherwise the current track is played again as a recorded play |
| PlayerContext.Player.RemoveFromHistory | music/src/contexts/PlayerContext.tsx:179-181 | the history becomes the filtered history, and its ids stay distinct |
| PlayerContext.SessionScenario | music/src/contexts/PlayerContext.tsx:143-160 | from [a, b, c], playing d gives [d, a, b, c]; `prevTrack` from d does nothing; `nextTrack` from d goes to a; `prevTrack` from a returns to d |
| Text.Trim | music/src/components/Search.tsx:167 | the trimmed query neither starts nor ends with whitespace |
| Text.TrimRemovesOnlyWhitespace | music/src/components/Search.tsx:167 | `trim` keeps a middle slice of the string and removes only whitespace before and after it |
| Text.TrimIgnoresSurroundingWhitespace | music/src/components/Search.tsx:167 | whitespace added around a string does not change its trim |
| Text.TrimIdempotent | music/src/components/Search.tsx:167 | trimming twice equals trimming once |
| Text.LeadingWhitespaceIsLongest | music/src/components/Search.tsx:167 | the leading whitespace counted is the longest whitespace prefix |
| Text.TrailingWhitespaceIsLongest | music/src/components/Search.tsx:167 | the trailing whitespace counted is the longest whitespace suffix |
| Text.Lower | music/src/components/Search.tsx:167 | lowercasing keeps the length and lowercases character by character |
| Text.LowerChar | music/src/components/Search.tsx:167 | a lowercased character is not an upper-case letter and is whitespace exactly when the original is |
| Search.Search | music/src/components/Search.tsx:166-206 | an empty normalised query clears all lists; otherwise each list holds exactly the catalogue items of its kind that mention the normalised query in the fields that kind is searched by |
| Search.SearchKeepsCatalogueOrder | music/src/components/Search.tsx:176-196 | each result list is a subsequence of the catalogue, in catalogue order |
| Search.SearchIgnoresSurroundingWhitespace | music/src/components/Search.tsx:167 | queries that differ only in surrounding whitespace give identical results |
| Search.SearchOfNormalized | music/src/components/Search.tsx:167 | searching for the normalised query gives the same results as the query itself |
| Search.LowerOfTrimmed | music/src/components/Search.tsx:167 | lowercasing a trimmed string keeps it trimmed, and lowercasing is idempotent on it |
| Search.ToggleExpanded | music/src/components/Search.tsx:246-249 | clicking the expanded name collapses it; clicking any other name expands that name |
| Search.AlbumTracks | music/src/components/Search.tsx:309-311 | an expanded album lists exactly the song results whose album is that album |
| Library.AddPlaylist | music/src/components/Library.tsx:21-33 | a name that is blank after trimming changes nothing; otherwise exactly one playlist is appended, with the untrimmed name, no songs and the clock-based id and thumbnail; the earlier playlists are kept in order and the input is cleared |
| Library.AddClearsInput | music/src/components/Library.tsx:21-33 | after a successful add, adding again without a new name changes nothing |
| Library.DeletePlaylist | music/src/components/Library.tsx:36-38 | a playlist survives deletion exactly when its id differs |
| Library.DeletePlaylistExact | music/src/components/Library.tsx:37 | deletion keeps each other playlist as often as before and keeps their order |
| Library.DeleteAbsentIsNoOp | music/src/components/Library.tsx:37 | deleting an id no playlist has changes nothing |
| Library.DeleteUndoesAdd | music/src/components/Library.tsx:21-38 | deleting a playlist just added under a fresh id restores the earlier list |
| Library.DecimalString | music/src/components/Library.tsx:28 | the interpolated clock reading is a non-empty string of decimal digits |
| Library.DecimalRoundTrip | music/src/components/Library.tsx:28 | reading the digits back gives the clock reading |
| Library.ThumbnailCarriesClock | music/src/components/Library.tsx:28 | the thumbnail url is the picsum prefix followed by the clock reading |
| RecentTopArtists.Count | music/src/components/RecentTopArtists.tsx:89-99 | an artist's count is positive exactly when some credit carries its id, and is at most the number of credits |
| RecentTopArtists.FirstNameIsFirstCredit | music/src/components/RecentTopArtists.tsx:91-96 | the name kept for an artist is the one on its first credit |
| RecentTopArtists.DistinctIds | music/src/components/RecentTopArtists.tsx:89-99 | the map's key order lists every credited id exactly once |
| RecentTopArtists.TallyMap | music/src/components/RecentTopArtists.tsx:85-99 | the expected map has a key exactly for each credited id |
| RecentTopArtists.ExtendCredits | music/src/components/RecentTopArtists.tsx:91-96 | one more credit increases only that artist's count and keeps earlier first names |
| RecentTopArtists.TallyMapStep | music/src/components/RecentTopArtists.tsx:91-96 | one more credit increases a known artist's frequency, or enters a new artist with its name and 1 |
| RecentTopArtists.CountArtistFrequencies | music/src/components/RecentTopArtists.tsx:85-99 | the nested loops build exactly the expected map, with keys in first-seen order |
| RecentTopArtists.Insert | music/src/components/RecentTopArtists.tsx:103 | inserting into a sorted list keeps it sorted by descending frequency, adds one entry, and loses none |
| RecentTopArtists.SortByFrequency | music/src/components/RecentTopArtists.tsx:102-103 | the sort keeps the length and the members and orders by descending frequency |
| RecentTopArtists.SortIsPermutation | music/src/components/RecentTopArtists.tsx:103 | the sort is a permutation of the entries |
| RecentTopArtists.SortIsStable | music/src/components/RecentTopArtists.tsx:103 | entries of equal frequency keep the map's order |
| RecentTopArtists.SortKeepsDistinct | music/src/components/RecentTopArtists.tsx:103 | the sort keeps artist ids distinct |
| RecentTopArtists.EntriesAreTallies | music/src/components/RecentTopArtists.tsx:102 | the map's entries are the credited artists, once each, with first name and count |
| RecentTopArtists.TopArtistsLength | music/src/components/RecentTopArtists.tsx:102-104 | three artists are ranked, or all of them when fewer are credited |
| RecentTopArtists.TopArtistsAreTallies | music/src/components/RecentTopArtists.tsx:102-104 | the ranked artists are distinct credited artists with their true counts and names, in non-increasing frequency |
| RecentTopArtists.TopArtistsAreMostFrequent | music/src/components/RecentTopArtists.tsx:102-104 | no artist left out has a higher count than the last one ranked |
| RecentTopArtists.RankRecentArtists | music/src/components/RecentTopArtists.tsx:84-104 | counting, listing the entries, sorting and cutting to 3 compute `TopArtists` |
| RecentTopArtists.CollectArtistData | music/src/components/RecentTopArtists.tsx:107-132 | the batch fails exactly when one artist's request throws; otherwise each artist keeps its id, name and frequency, with its tracks, or none after a non-OK reply |
| RecentTopArtists.LoadRecentTopArtists | music/src/components/RecentTopArtists.tsx:65-139 | without a token, after a failed or throwing request, or when the batch throws, `artistData` is unchanged; otherwise it becomes the ranked artists with their tracks |
| RecentTopArtists.AddTrackDecision | music/src/components/RecentTopArtists.tsx:195-220 | without a token the add stops for login; a listed uri stops it as a duplicate; the add is posted exactly when the listing was not OK, or did not include the uri |
| RecentTopArtists.ToPlayerTrack | music/src/components/RecentTopArtists.tsx:174-184 | id, name, uri and duration are copied; artists become their names and images their urls, in order; `liked` is false and there is no play time |
| RecentTopArtists.HandlePlay | music/src/components/RecentTopArtists.tsx:174-186 | the converted track is played as a new, recorded play |
| HeartPlayed.Swap | music/src/components/HeartPlayed.tsx:59 | the two positions are exchanged and every other position is kept |
| HeartPlayed.SwapsDownFromPermutes | music/src/components/HeartPlayed.tsx:56-62 | the remaining swaps are a permutation |
| HeartPlayed.ShuffledPermutes | music/src/components/HeartPlayed.tsx:56-62 | the shuffle keeps the length and each element's multiplicity |
| HeartPlayed.ShuffleArray | music/src/components/HeartPlayed.tsx:56-62 | swapping down from the last index, with indices in 0..i, leaves the array equal to `Shuffled` of its old contents |
| HeartPlayed.SelectionFromRows | music/src/components/HeartPlayed.tsx:46-48 | at most four tracks are shown, each a fetched row, none more often than fetched |
| HeartPlayed.FetchLikedTracks | music/src/components/HeartPlayed.tsx:27-50 | without a user id, after an error or without data, the list is unchanged; otherwise it is the first four shuffled rows |
| HeartPlayed.ToPlayerTrack | music/src/components/HeartPlayed.tsx:65-76 | the row gives one image and one artist, its ids, uri and duration, and the play time; `liked` is true exactly when `heart` is true |
| HeartPlayed.ChooseAction | music/src/components/HeartPlayed.tsx:78-83 | a click toggles playback exactly when the current track's uri is the row's; otherwise it starts the row's track |
| HeartPlayed.HandlePlay | music/src/components/HeartPlayed.tsx:65-84 | a toggle flips only `isPlaying`, when sent; a start plays the converted row as a recorded play; a start whose play fails keeps the track, the playing flag and the history |

## Left out

- The network, storage and alerts are left out. This covers every
  `fetch` to the streaming API, `localStorage`, the store (Supabase)
  queries, `alert` and `console`. Each operation instead takes the outcome
  it met as a parameter. Responses are not inspected beyond what the code
  inspects.
- Asynchrony is left out. Each operation is one atomic step, and
  interleaved or stale requests are not modelled. `Promise.all` is
  modelled by its result only: all replies, or nothing when one request
  throws.
- `Math.random()` is not modelled. The shuffle pick and the Fisher–Yates
  swap indices are parameters, bounded as the draws are.
- `Date.now()` is not modelled. Each reading is a parameter. `addPlaylist`
  reads the clock twice, so it takes two readings.
- PlayerContext.Player.HistoryEffect: the history effect runs inline
  after a successful play. React's scheduling and its bail-out when
  `currentTrack` is the same object are not modelled.
- PlayerContext.Player.RepeatTrack: replaying the current track is
  recorded here. React would probably skip the effect, because the same
  object is set again.
- The raw `setCurrentTrack` and `setIsPlaying` setters exposed by the
  context are plain assignments and are not modelled separately.
- Text.Lower: only the letters A to Z are lowercased. Full Unicode case
  mapping is not modelled. The query is user input, and some non-ASCII
  characters lowercase to ASCII letters (U+212A KELVIN SIGN becomes `k`).
  For such queries the model's results can differ from the program's.
- Library: the thumbnail url's digits (`DecimalString`, `DecimalRoundTrip`,
  `ThumbnailCarriesClock`) only describe a cosmetic image link. They are
  kept to fix the appended playlist exactly, not as core behaviour.
- HeartPlayed.ToPlayerTrack: the parsed `new Date(played_at).getTime()`
  is a parameter. Date parsing, and its NaN result, are not modelled.
- The store query's filters (`user_id`, `heart = true`) are applied by the
  store. The rows are taken as given.
- The track's constant `type: "track"` and the unused optional `images`
  field are not represented. Album images are kept as their urls, which
  is all any producer copies.
- RecentTopArtists: the playlist-loading effect, which only stores names
  for the modal menu, is not modelled. Neither is the modal's open and
  close state, or the outcome of the add request after it is posted.
- Search: no lemma evaluates a concrete query against the 18-item
  catalogue. The catalogue is modelled as the constant `AllResults`.
- Rendering, routing, authentication and the token exchange are left out.
