/**
 * The playback session controller of music/src/contexts/PlayerContext.tsx:
 * the current track, the play/pause flag, the newest-first history and the
 * "record the next play" flag, changed by the controller's operations.
 *
 * Every remote call is replaced by the outcome it had; `Date.now()` and
 * `Math.random()` are parameters.
 */
module PlayerContext {
  import opened Wrappers
  import opened History
  import Seqs

  /** How a `playTrack` call ended. */
  datatype PlayOutcome =
    | NoToken   // no access token stored: the call returns before anything else
    | NoDevice  // the device list came back empty
    | Throws    // a request threw; the error is only logged
    | Ok        // the play request was sent (its response is not inspected)

  /** How the single request of `togglePlayPause` ended; it lists no devices. */
  datatype CommandOutcome =
    | Unauthenticated  // no access token stored
    | CommandThrows    // the pause or resume request threw
    | CommandSent      // the request was sent (its response is not inspected)

  class Player {
    var currentTrack: Option<Track>
    var isPlaying: bool
    var playedTracks: seq<Track>
    /** `updateHistoryRef.current`: whether the next change of track is recorded. */
    var updateHistory: bool

    /** The history keeps at most 50 entries with distinct ids. */
    ghost predicate Valid()
      reads this
    {
      |playedTracks| <= HistoryCap && UniqueIds(playedTracks)
    }

    constructor ()
      ensures Valid()
      ensures currentTrack == None && !isPlaying && playedTracks == [] && updateHistory
    {
      currentTrack := None;
      isPlaying := false;
      playedTracks := [];
      updateHistory := true;
    }

    /**
     * The history effect that follows a change of `currentTrack`: record the
     * track when the flag allows it, then re-arm the flag.
     *
     * React runs it only when `currentTrack` changes by reference; the model
     * runs it after every successful play, so replaying the same object (as
     * `repeatTrack` does) is recorded here.
     */
    method HistoryEffect(now: int)
      requires Valid()
      modifies this`playedTracks, this`updateHistory
      ensures Valid()
      ensures updateHistory
      ensures playedTracks == if currentTrack.Some? && old(updateHistory)
                              then RecordPlay(old(playedTracks), currentTrack.value, now)
                              else old(playedTracks)
    {
      if currentTrack.Some? && updateHistory {
        RecordPlayKeepsUniqueIds(playedTracks, currentTrack.value, now);
        playedTracks := RecordPlay(playedTracks, currentTrack.value, now);
      }
      updateHistory := true;
    }

    /**
     * `playTrack(track, isNavigation)`. Without a token nothing changes. The
     * flag is set before the device check, so a failed call leaves it at
     * `!isNavigation`. A sent play request makes `track` current and playing,
     * and records it unless the call is navigation.
     */
    method PlayTrack(track: Track, isNavigation: bool, outcome: PlayOutcome, now: int)
      requires Valid()
      modifies this
      ensures Valid()
      ensures outcome == NoToken ==>
                currentTrack == old(currentTrack) && isPlaying == old(isPlaying) &&
                playedTracks == old(playedTracks) && updateHistory == old(updateHistory)
      ensures (outcome == NoDevice || outcome == Throws) ==>
                currentTrack == old(currentTrack) && isPlaying == old(isPlaying) &&
                playedTracks == old(playedTracks) && updateHistory == !isNavigation
      ensures outcome == Ok ==>
                currentTrack == Some(track) && isPlaying && updateHistory &&
                playedTracks == if isNavigation then old(playedTracks) else RecordPlay(old(playedTracks), track, now)
    {
      if outcome == NoToken {
        return;
      }
      updateHistory := !isNavigation;
      if outcome == NoDevice || outcome == Throws {
        return;
      }
      currentTrack := Some(track);
      isPlaying := true;
      HistoryEffect(now);
    }

    /**
     * `togglePlayPause`: pause when playing, resume otherwise; the flag flips
     * only when the request was sent.
     */
    method TogglePlayPause(outcome: CommandOutcome)
      modifies this`isPlaying
      ensures isPlaying == if outcome == CommandSent then !old(isPlaying) else old(isPlaying)
    {
      if outcome == Unauthenticated {
        return;
      }
      if outcome == CommandSent {
        if isPlaying {
          isPlaying := false;
        } else {
          isPlaying := true;
        }
      }
    }

    /** `nextTrack`: play the next older history entry as navigation, if there is one. */
    method NextTrack(outcome: PlayOutcome, now: int)
      requires Valid()
      modifies this
      ensures Valid()
      ensures playedTracks == old(playedTracks)
      ensures NextTarget(old(playedTracks), old(currentTrack)).None? ==>
                currentTrack == old(currentTrack) && isPlaying == old(isPlaying) && updateHistory == old(updateHistory)
      ensures NextTarget(old(playedTracks), old(currentTrack)).Some? && outcome == Ok ==>
                currentTrack == NextTarget(old(playedTracks), old(currentTrack)) && isPlaying
      ensures outcome != Ok ==> currentTrack == old(currentTrack) && isPlaying == old(isPlaying)
    {
      if currentTrack.None? {
        return;
      }
      var index := FindIndex(playedTracks, currentTrack.value.id);
      if 0 <= index < |playedTracks| - 1 {
        PlayTrack(playedTracks[index + 1], true, outcome, now);
      }
    }

    /** `prevTrack`: play the next newer history entry as navigation; nothing at index 0. */
    method PrevTrack(outcome: PlayOutcome, now: int)
      requires Valid()
      modifies this
      ensures Valid()
      ensures playedTracks == old(playedTracks)
      ensures PrevTarget(old(playedTracks), old(currentTrack)).None? ==>
                currentTrack == old(currentTrack) && isPlaying == old(isPlaying) && updateHistory == old(updateHistory)
      ensures PrevTarget(old(playedTracks), old(currentTrack)).Some? && outcome == Ok ==>
                currentTrack == PrevTarget(old(playedTracks), old(currentTrack)) && isPlaying
      ensures outcome != Ok ==> currentTrack == old(currentTrack) && isPlaying == old(isPlaying)
    {
      if currentTrack.None? {
        return;
      }
      var index := FindIndex(playedTracks, currentTrack.value.id);
      if index > 0 {
        PlayTrack(playedTracks[index - 1], true, outcome, now);
      }
    }

    /**
     * `shuffleTrack`: play, as a recorded play, the entry of the shuffle pool
     * at `pick`, the index that `Math.floor(Math.random() * length)` chose.
     */
    method ShuffleTrack(pick: nat, outcome: PlayOutcome, now: int)
      requires Valid()
      requires playedTracks != [] ==> pick < |ShufflePool(playedTracks, currentTrack)|
      modifies this
      ensures Valid()
      ensures old(playedTracks) == [] ==>
                currentTrack == old(currentTrack) && isPlaying == old(isPlaying) &&
                playedTracks == old(playedTracks) && updateHistory == old(updateHistory)
      ensures old(playedTracks) != [] && outcome == Ok ==>
                var chosen := ShufflePool(old(playedTracks), old(currentTrack))[pick];
                currentTrack == Some(chosen) && isPlaying && chosen in old(playedTracks) &&
                playedTracks == RecordPlay(old(playedTracks), chosen, now)
      ensures outcome != Ok ==> currentTrack == old(currentTrack) && isPlaying == old(isPlaying) &&
                                playedTracks == old(playedTracks)
    {
      if |playedTracks| == 0 {
        return;
      }
      var filtered := playedTracks;
      if currentTrack.Some? {
        filtered := History.RemoveFromHistory(playedTracks, currentTrack.value.id);
      }
      if |filtered| == 0 {
        filtered := playedTracks;
      }
      var randomTrack := filtered[pick];
      PlayTrack(randomTrack, false, outcome, now);
    }

    /** `repeatTrack`: play the current track again, as a recorded play. */
    method RepeatTrack(outcome: PlayOutcome, now: int)
      requires Valid()
      modifies this
      ensures Valid()
      ensures old(currentTrack).None? ==>
                currentTrack == None && isPlaying == old(isPlaying) &&
                playedTracks == old(playedTracks) && updateHistory == old(updateHistory)
      ensures old(currentTrack).Some? && outcome == Ok ==>
                currentTrack == old(currentTrack) && isPlaying &&
                playedTracks == RecordPlay(old(playedTracks), old(currentTrack).value, now)
      ensures outcome != Ok ==> currentTrack == old(currentTrack) && isPlaying == old(isPlaying) &&
                                playedTracks == old(playedTracks)
    {
      if currentTrack.Some? {
        PlayTrack(currentTrack.value, false, outcome, now);
      }
    }

    /** `removeFromHistory(trackId)`: drop the entries with that id. */
    method RemoveFromHistory(trackId: string)
      requires Valid()
      modifies this`playedTracks
      ensures Valid()
      ensures playedTracks == History.RemoveFromHistory(old(playedTracks), trackId)
    {
      RemoveKeepsUniqueIds(playedTracks, trackId);
      playedTracks := History.RemoveFromHistory(playedTracks, trackId);
    }
  }

  /**
   * A short session: with the history [a, b, c], playing `d` records it at
   * the head; `prevTrack` then does nothing (d is the newest entry),
   * `nextTrack` moves to `a`, and `prevTrack` from `a` moves back to the
   * recorded `d`. Navigation leaves the history as it is (the methods'
   * contracts), so these targets are what the methods play.
   */
  lemma SessionScenario(a: Track, b: Track, c: Track, d: Track, now: int)
    requires a.id != b.id && a.id != c.id && b.id != c.id
    requires d.id != a.id && d.id != b.id && d.id != c.id
    ensures RecordPlay([a, b, c], d, now) == [d.(playedAt := Some(now)), a, b, c]
    ensures PrevTarget(RecordPlay([a, b, c], d, now), Some(d)) == None
    ensures NextTarget(RecordPlay([a, b, c], d, now), Some(d)) == Some(a)
    ensures PrevTarget(RecordPlay([a, b, c], d, now), Some(a)) == Some(d.(playedAt := Some(now)))
  {
    var h := [d.(playedAt := Some(now)), a, b, c];
    RemoveAbsentIsNoOp([a, b, c], d.id);
    assert [d.(playedAt := Some(now))] + [a, b, c] == h;
    assert RecordPlay([a, b, c], d, now) == Seqs.Take(h, HistoryCap) == h;
    assert FindIndex(h, d.id) == 0;
    assert FindIndex(h, a.id) == 1;
  }
}
