/**
 * The liked-tracks panel of music/src/components/HeartPlayed.tsx: load the
 * user's liked rows, shuffle them in place with Fisher-Yates and keep four;
 * turn a row into the player's track shape; a click on the track already
 * loaded toggles play/pause, any other starts it.
 *
 * The store query is replaced by its outcome, `Math.random()` by the chosen
 * swap indices, and `new Date(played_at).getTime()` by its value.
 */
module HeartPlayed {
  import opened Wrappers
  import opened Seqs
  import History
  import PlayerContext

  /** A `play_history` row; `heart` is optional. */
  datatype LikedTrack = LikedTrack(
    userId: string,
    trackId: string,
    trackName: string,
    albumImage: string,
    artist: string,
    trackUri: string,
    durationMs: int,
    playedAt: string,
    heart: Option<bool>)

  /** How many liked tracks are shown. */
  const ShownLiked: nat := 4

  /** `s` with the elements at `i` and `j` exchanged. */
  function Swap<T>(s: seq<T>, i: nat, j: nat): (r: seq<T>)
    requires i < |s| && j < |s|
    ensures |r| == |s|
    ensures r[i] == s[j] && r[j] == s[i]
    ensures forall k :: 0 <= k < |s| && k != i && k != j ==> r[k] == s[k]
  {
    s[i := s[j]][j := s[i]]
  }

  lemma SwapPermutes<T>(s: seq<T>, i: nat, j: nat)
    requires i < |s| && j < |s|
    ensures multiset(Swap(s, i, j)) == multiset(s)
  {
  }

  /** The swap indices are valid Fisher-Yates choices: the one for position `i` is at most `i`. */
  predicate ValidPicks(picks: seq<nat>, n: nat) {
    |picks| == n && forall i :: 0 < i < n ==> picks[i] <= i
  }

  /** The swaps still to do at positions `i`, `i - 1`, ..., 1. */
  function SwapsDownFrom<T>(s: seq<T>, picks: seq<nat>, i: nat): (r: seq<T>)
    requires ValidPicks(picks, |s|) && i < |s|
    ensures |r| == |s|
    decreases i
  {
    if i == 0 then s else SwapsDownFrom(Swap(s, i, picks[i]), picks, i - 1)
  }

  /** The array `shuffleArray` leaves behind. */
  function Shuffled<T>(s: seq<T>, picks: seq<nat>): (r: seq<T>)
    requires ValidPicks(picks, |s|)
    ensures |r| == |s|
  {
    if s == [] then s else SwapsDownFrom(s, picks, |s| - 1)
  }

  lemma {:induction false} SwapsDownFromPermutes<T>(s: seq<T>, picks: seq<nat>, i: nat)
    requires ValidPicks(picks, |s|) && i < |s|
    ensures multiset(SwapsDownFrom(s, picks, i)) == multiset(s)
    decreases i
  {
    if i > 0 {
      SwapPermutes(s, i, picks[i]);
      SwapsDownFromPermutes(Swap(s, i, picks[i]), picks, i - 1);
    }
  }

  /** The shuffle is a permutation: same length, same elements as often. */
  lemma ShuffledPermutes<T>(s: seq<T>, picks: seq<nat>)
    requires ValidPicks(picks, |s|)
    ensures |Shuffled(s, picks)| == |s|
    ensures multiset(Shuffled(s, picks)) == multiset(s)
  {
    if s != [] {
      SwapsDownFromPermutes(s, picks, |s| - 1);
    }
  }

  /**
   * `shuffleArray`: for `i` from the last index down to 1, swap `a[i]` with
   * `a[picks[i]]`, where `picks[i]` is the index in `0..i` the random draw chose.
   */
  method ShuffleArray<T>(a: array<T>, picks: seq<nat>)
    requires ValidPicks(picks, a.Length)
    modifies a
    ensures a[..] == Shuffled(old(a[..]), picks)
  {
    ghost var target := Shuffled(a[..], picks);
    var i := a.Length - 1;
    while i > 0
      invariant 0 <= i + 1 <= a.Length || (a.Length == 0 && i == -1)
      invariant a.Length > 0 ==> 0 <= i < a.Length && SwapsDownFrom(a[..], picks, i) == target
      invariant a.Length == 0 ==> a[..] == target
    {
      var j := picks[i];
      ghost var before := a[..];
      a[i], a[j] := a[j], a[i];
      assert a[..] == Swap(before, i, j);
      i := i - 1;
    }
  }

  /** The outcome of the liked-tracks query. */
  datatype LikedQuery =
    | QueryError             // the store reported an error: logged, nothing changes
    | QueryNoData            // no data came back: nothing changes
    | QueryRows(rows: seq<LikedTrack>)

  /** The four (or fewer) liked tracks shown after a successful load. */
  function Selection(rows: seq<LikedTrack>, picks: seq<nat>): seq<LikedTrack>
    requires ValidPicks(picks, |rows|)
  {
    Take(Shuffled(rows, picks), ShownLiked)
  }

  /** At most four tracks are shown, each a fetched row, none more often than it was fetched. */
  lemma SelectionFromRows(rows: seq<LikedTrack>, picks: seq<nat>)
    requires ValidPicks(picks, |rows|)
    ensures |Selection(rows, picks)| == if |rows| < ShownLiked then |rows| else ShownLiked
    ensures multiset(Selection(rows, picks)) <= multiset(rows)
    ensures forall t :: t in Selection(rows, picks) ==> t in rows
  {
    var sh := Shuffled(rows, picks);
    var sel := Selection(rows, picks);
    ShuffledPermutes(rows, picks);
    assert sh == sel + sh[|sel|..];
    assert multiset(sh) == multiset(sel) + multiset(sh[|sel|..]);
    forall t | t in sel ensures t in rows {
      assert multiset(sel)[t] > 0;
      assert multiset(rows)[t] > 0;
    }
  }

  /**
   * `fetchLikedTracks`: without a stored user id, after an error or without
   * data the list stays as it was; otherwise it becomes the shuffled rows'
   * first four.
   */
  method FetchLikedTracks(liked: seq<LikedTrack>, userId: Option<string>, reply: LikedQuery, picks: seq<nat>)
    returns (next: seq<LikedTrack>)
    requires reply.QueryRows? ==> ValidPicks(picks, |reply.rows|)
    ensures userId.None? || userId == Some("") || !reply.QueryRows? ==> next == liked
    ensures userId.Some? && userId.value != "" && reply.QueryRows? ==> next == Selection(reply.rows, picks)
  {
    if userId.None? || userId.value == "" {
      return liked;
    }
    match reply {
      case QueryError =>
        next := liked;
      case QueryNoData =>
        next := liked;
      case QueryRows(rows) =>
        var arr := new LikedTrack[|rows|](i requires 0 <= i < |rows| => rows[i]);
        assert arr[..] == rows;
        ShuffleArray(arr, picks);
        next := Take(arr[..], ShownLiked);
    }
  }

  /**
   * `handlePlay`'s conversion of a row: one album image, one artist, the
   * parsed play time, and `liked` from `heart`, false when it is absent.
   */
  function ToPlayerTrack(row: LikedTrack, playedAtMs: int): (t: History.Track)
    ensures t.id == row.trackId && t.name == row.trackName && t.uri == row.trackUri
    ensures t.durationMs == row.durationMs
    ensures t.albumImages == [row.albumImage] && t.artists == [row.artist]
    ensures t.playedAt == Some(playedAtMs)
    ensures t.liked.Some? && (t.liked.value <==> row.heart == Some(true))
  {
    History.Track(row.trackId, row.trackName, [row.albumImage], row.trackUri, row.durationMs, [row.artist],
                  Some(playedAtMs), Some(if row.heart.Some? then row.heart.value else false))
  }

  datatype PlayAction = TogglePlayback | StartTrack(track: History.Track)

  /** A click on the track already loaded toggles play/pause; any other click starts the row's track. */
  function ChooseAction(current: Option<History.Track>, row: LikedTrack, playedAtMs: int): (r: PlayAction)
    ensures r.TogglePlayback? <==> current.Some? && current.value.uri == row.trackUri
    ensures r.StartTrack? ==> r.track == ToPlayerTrack(row, playedAtMs)
  {
    if current.Some? && current.value.uri == row.trackUri then TogglePlayback
    else StartTrack(ToPlayerTrack(row, playedAtMs))
  }

  /** `handlePlay` on the player. */
  method HandlePlay(player: PlayerContext.Player, row: LikedTrack, playedAtMs: int,
                    command: PlayerContext.CommandOutcome, outcome: PlayerContext.PlayOutcome, now: int)
    requires player.Valid()
    modifies player
    ensures player.Valid()
    ensures ChooseAction(old(player.currentTrack), row, playedAtMs).TogglePlayback? ==>
              player.currentTrack == old(player.currentTrack) &&
              player.playedTracks == old(player.playedTracks) &&
              player.updateHistory == old(player.updateHistory) &&
              player.isPlaying == (if command == PlayerContext.CommandSent then !old(player.isPlaying) else old(player.isPlaying))
    ensures ChooseAction(old(player.currentTrack), row, playedAtMs).StartTrack? && outcome == PlayerContext.Ok ==>
              player.currentTrack == Some(ToPlayerTrack(row, playedAtMs)) && player.isPlaying &&
              player.playedTracks == History.RecordPlay(old(player.playedTracks), ToPlayerTrack(row, playedAtMs), now)
    ensures ChooseAction(old(player.currentTrack), row, playedAtMs).StartTrack? && outcome != PlayerContext.Ok ==>
              player.currentTrack == old(player.currentTrack) && player.isPlaying == old(player.isPlaying) &&
              player.playedTracks == old(player.playedTracks) &&
              player.updateHistory == (if outcome == PlayerContext.NoToken then old(player.updateHistory) else true)
  {
    var action := ChooseAction(player.currentTrack, row, playedAtMs);
    match action {
      case TogglePlayback =>
        player.TogglePlayPause(command);
      case StartTrack(t) =>
        player.PlayTrack(t, false, outcome, now);
    }
  }
}
