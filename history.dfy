/**
 * The track shape and the pure list operations of the player context
 * (music/src/contexts/PlayerContext.tsx): recording a play into the
 * newest-first history, removing an entry, and choosing the target of
 * next / previous / shuffle navigation.
 */
module History {
  import opened Wrappers
  import opened Seqs

  /** Only the 50 most recent plays are kept. */
  const HistoryCap: nat := 50

  /**
   * `SpotifyTrack`: album images are kept as their urls and artists as their
   * names. `playedAt` is stamped when the play is recorded; `liked` is the
   * optional flag that callers set although the interface does not declare it.
   */
  datatype Track = Track(
    id: string,
    name: string,
    albumImages: seq<string>,
    uri: string,
    durationMs: int,
    artists: seq<string>,
    playedAt: Option<int>,
    liked: Option<bool>)

  /** No two history entries share a track id. */
  predicate UniqueIds(h: seq<Track>) {
    forall i, j :: 0 <= i < j < |h| ==> h[i].id != h[j].id
  }

  /** The filter predicate `t => t.id !== id`. */
  function OtherThan(id: string): Track -> bool {
    (t: Track) => t.id != id
  }

  /** `removeFromHistory`: `prev.filter(track => track.id !== trackId)`. */
  function RemoveFromHistory(h: seq<Track>, id: string): (r: seq<Track>)
    ensures forall t :: t in r <==> t in h && t.id != id
  {
    Filter(h, OtherThan(id))
  }

  /**
   * Removal drops exactly the entries with that id, keeps every other entry
   * as often as it occurred, and keeps their order.
   */
  lemma RemoveFromHistoryExact(h: seq<Track>, id: string)
    ensures forall t :: multiset(RemoveFromHistory(h, id))[t] == if t.id == id then 0 else multiset(h)[t]
    ensures IsSubsequence(RemoveFromHistory(h, id), h)
  {
    FilterCounts(h, OtherThan(id));
    FilterIsSubsequence(h, OtherThan(id));
  }

  /**
   * The history effect: drop the entry with the same id, prepend the track
   * stamped with `playedAt = now`, keep the first 50.
   */
  function RecordPlay(h: seq<Track>, t: Track, now: int): (r: seq<Track>)
    ensures 0 < |r| <= HistoryCap
    ensures r[0] == t.(playedAt := Some(now))
    ensures forall i :: 1 <= i < |r| ==> r[i].id != t.id
    ensures |r| == if |RemoveFromHistory(h, t.id)| < HistoryCap then 1 + |RemoveFromHistory(h, t.id)| else HistoryCap
    ensures r[1..] == RemoveFromHistory(h, t.id)[..|r| - 1]
  {
    Take([t.(playedAt := Some(now))] + RemoveFromHistory(h, t.id), HistoryCap)
  }

  /** `findIndex(t => t.id === id)`: the first index holding `id`, or -1. */
  function FindIndex(h: seq<Track>, id: string): (r: int)
    ensures -1 <= r < |h|
    ensures r == -1 <==> forall k :: 0 <= k < |h| ==> h[k].id != id
    ensures 0 <= r ==> h[r].id == id && forall k :: 0 <= k < r ==> h[k].id != id
  {
    if h == [] then -1
    else if h[0].id == id then 0
    else
      var k := FindIndex(h[1..], id);
      if k == -1 then -1 else k + 1
  }

  /**
   * The entry `nextTrack` plays: the one after the current track's first
   * occurrence, that is the next OLDER play (the history is newest-first).
   */
  function NextTarget(h: seq<Track>, current: Option<Track>): (r: Option<Track>)
    ensures r.None? <==> current.None? || forall i :: 0 <= i < |h| - 1 ==> h[i].id != current.value.id
    ensures r.Some? ==> exists i :: 0 <= i < |h| - 1 && h[i].id == current.value.id &&
                                    (forall k :: 0 <= k < i ==> h[k].id != current.value.id) && r.value == h[i + 1]
  {
    if current.None? then None
    else
      var index := FindIndex(h, current.value.id);
      if 0 <= index < |h| - 1 then Some(h[index + 1]) else None
  }

  /**
   * The entry `prevTrack` plays: the one before the current track's first
   * occurrence, that is the next NEWER play; nothing at index 0.
   */
  function PrevTarget(h: seq<Track>, current: Option<Track>): (r: Option<Track>)
    ensures r.None? <==> current.None? || (forall i :: 1 <= i < |h| ==> h[i].id != current.value.id) ||
                         (|h| > 0 && h[0].id == current.value.id)
    ensures r.Some? ==> exists i :: 0 < i < |h| && h[i].id == current.value.id &&
                                    (forall k :: 0 <= k < i ==> h[k].id != current.value.id) && r.value == h[i - 1]
  {
    if current.None? then None
    else
      var index := FindIndex(h, current.value.id);
      if index > 0 then Some(h[index - 1]) else None
  }

  /**
   * The entries `shuffleTrack` chooses among: the history without the
   * current track, or the whole history when that leaves nothing.
   */
  function ShufflePool(h: seq<Track>, current: Option<Track>): (r: seq<Track>)
    ensures |h| > 0 ==> |r| > 0
    ensures forall t :: t in r ==> t in h
    ensures current.Some? && (exists t :: t in h && t.id != current.value.id) ==>
              forall t :: t in r ==> t.id != current.value.id
    ensures current.Some? && (exists t :: t in h && t.id != current.value.id) ==>
              r == RemoveFromHistory(h, current.value.id)
    ensures current.None? || (forall t :: t in h ==> t.id == current.value.id) ==> r == h
  {
    var filtered := if current.Some? then RemoveFromHistory(h, current.value.id) else h;
    assert filtered != [] ==> filtered[0] in filtered;
    if |filtered| == 0 then h else filtered
  }

  /** Filtering keeps the ids of a history distinct. */
  lemma {:induction false} FilterKeepsUniqueIds(h: seq<Track>, p: Track -> bool)
    requires UniqueIds(h)
    ensures UniqueIds(Filter(h, p))
  {
    if h != [] {
      FilterKeepsUniqueIds(h[1..], p);
      var rest := Filter(h[1..], p);
      if p(h[0]) {
        forall j | 0 <= j < |rest| ensures rest[j].id != h[0].id {
          assert rest[j] in h[1..];
        }
      }
    }
  }

  /** Removing entries keeps the ids distinct. */
  lemma RemoveKeepsUniqueIds(h: seq<Track>, id: string)
    requires UniqueIds(h)
    ensures UniqueIds(RemoveFromHistory(h, id))
  {
    FilterKeepsUniqueIds(h, OtherThan(id));
  }

  /** Recording a play keeps the ids distinct (and the cap holds by the contract). */
  lemma RecordPlayKeepsUniqueIds(h: seq<Track>, t: Track, now: int)
    requires UniqueIds(h)
    ensures UniqueIds(RecordPlay(h, t, now))
  {
    var r := RecordPlay(h, t, now);
    var rest := RemoveFromHistory(h, t.id);
    RemoveKeepsUniqueIds(h, t.id);
    forall i, j | 0 <= i < j < |r| ensures r[i].id != r[j].id {
      if i > 0 {
        assert r[i] == rest[i - 1] && r[j] == rest[j - 1];
      }
    }
  }

  /** The entries after the head are older plays of `h`, in their old order. */
  lemma RecordPlayKeepsOrder(h: seq<Track>, t: Track, now: int)
    ensures IsSubsequence(RecordPlay(h, t, now)[1..], h)
  {
    var r := RecordPlay(h, t, now);
    var rest := RemoveFromHistory(h, t.id);
    RemoveFromHistoryExact(h, t.id);
    PrefixIsSubsequence(rest, h, |r| - 1);
  }

  /**
   * Only the oldest entries are evicted: the k-th remaining older entry
   * survives exactly when fewer than 49 remaining entries are newer than it.
   */
  lemma RecordPlayEvictsOldest(h: seq<Track>, t: Track, now: int, k: nat)
    requires UniqueIds(h)
    requires k < |RemoveFromHistory(h, t.id)|
    ensures RemoveFromHistory(h, t.id)[k] in RecordPlay(h, t, now) <==> k < HistoryCap - 1
  {
    var r := RecordPlay(h, t, now);
    var rest := RemoveFromHistory(h, t.id);
    RemoveKeepsUniqueIds(h, t.id);
    if k < HistoryCap - 1 {
      assert r[k + 1] == rest[k];
    }
  }

  /** Removing an id that is not in the history changes nothing. */
  lemma RemoveAbsentIsNoOp(h: seq<Track>, id: string)
    requires forall i :: 0 <= i < |h| ==> h[i].id != id
    ensures RemoveFromHistory(h, id) == h
  {
    FilterKeepsAll(h, OtherThan(id));
  }

  /** Removing the same id twice is the same as removing it once. */
  lemma RemoveIdempotent(h: seq<Track>, id: string)
    ensures RemoveFromHistory(RemoveFromHistory(h, id), id) == RemoveFromHistory(h, id)
  {
    FilterIdempotent(h, OtherThan(id));
  }

  /** In a history with distinct ids, the index of an entry's id is its position. */
  lemma FindIndexOfEntry(h: seq<Track>, i: nat)
    requires UniqueIds(h) && i < |h|
    ensures FindIndex(h, h[i].id) == i
  {
  }

  /** Going to the next (older) entry and then back returns to the current track's entry. */
  lemma NextThenPrev(h: seq<Track>, current: Track)
    requires UniqueIds(h)
    requires NextTarget(h, Some(current)).Some?
    ensures PrevTarget(h, NextTarget(h, Some(current))).Some?
    ensures PrevTarget(h, NextTarget(h, Some(current))).value.id == current.id
  {
    var i := FindIndex(h, current.id);
    FindIndexOfEntry(h, i + 1);
  }

  /** Going to the previous (newer) entry and then forward returns to the current track's entry. */
  lemma PrevThenNext(h: seq<Track>, current: Track)
    requires UniqueIds(h)
    requires PrevTarget(h, Some(current)).Some?
    ensures NextTarget(h, PrevTarget(h, Some(current))).Some?
    ensures NextTarget(h, PrevTarget(h, Some(current))).value.id == current.id
  {
    var i := FindIndex(h, current.id);
    FindIndexOfEntry(h, i - 1);
  }
}
