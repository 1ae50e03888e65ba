/**
 * The logic of music/src/components/RecentTopArtists.tsx: count how often
 * each artist is credited on the user's top tracks, rank the three most
 * frequent, attach each one's top tracks (empty when that request fails),
 * add a track to a playlist unless it is already there, and hand a top
 * track to the player in the player's track shape.
 */
module RecentTopArtists {
  import opened Wrappers
  import opened Seqs
  import History
  import PlayerContext

  datatype ArtistRef = ArtistRef(id: string, name: string)
  datatype ImageInfo = ImageInfo(url: string, height: int, width: int)

  /** A track of the top-tracks and artist-top-tracks responses. */
  datatype TopTrack = TopTrack(
    id: string,
    name: string,
    artists: seq<ArtistRef>,
    albumImages: seq<ImageInfo>,
    uri: string,
    durationMs: int,
    popularity: int,
    previewUrl: Option<string>)

  /** A value of the frequency map: the artist's name and how often it was credited. */
  datatype ArtistInfo = ArtistInfo(name: string, frequency: nat)

  /** An `[artistId, info]` entry of the frequency map. */
  datatype RankedArtist = RankedArtist(id: string, name: string, frequency: nat)

  /** `ArtistData`: a ranked artist with its top tracks. */
  datatype ArtistData = ArtistData(id: string, name: string, frequency: nat, topTracks: seq<TopTrack>)

  // ---------------------------------------------------------------------
  // Counting
  // ---------------------------------------------------------------------

  /** Every (track, artist) credit, in the order the two `forEach` loops visit them. */
  function Credits(items: seq<TopTrack>): seq<ArtistRef> {
    if items == [] then [] else Credits(items[..|items| - 1]) + items[|items| - 1].artists
  }

  predicate Credited(refs: seq<ArtistRef>, id: string) {
    exists i :: 0 <= i < |refs| && refs[i].id == id
  }

  /** How many credits carry `id`. */
  function Count(refs: seq<ArtistRef>, id: string): (n: nat)
    ensures n <= |refs|
    ensures n > 0 <==> Credited(refs, id)
  {
    if refs == [] then 0
    else
      var init := refs[..|refs| - 1];
      assert forall i :: 0 <= i < |init| ==> init[i] == refs[i];
      Count(init, id) + if refs[|refs| - 1].id == id then 1 else 0
  }

  /** The name on the first credit that carries `id`. */
  function FirstName(refs: seq<ArtistRef>, id: string): string
    requires Credited(refs, id)
  {
    var init := refs[..|refs| - 1];
    assert forall i :: 0 <= i < |init| ==> init[i] == refs[i];
    if Credited(init, id) then FirstName(init, id) else refs[|refs| - 1].name
  }

  /** The name kept for an artist is the one on its first credit. */
  lemma {:induction false} FirstNameIsFirstCredit(refs: seq<ArtistRef>, id: string)
    requires Credited(refs, id)
    ensures exists k :: 0 <= k < |refs| && refs[k].id == id && refs[k].name == FirstName(refs, id) &&
                        forall m :: 0 <= m < k ==> refs[m].id != id
  {
    var init := refs[..|refs| - 1];
    assert forall i :: 0 <= i < |init| ==> init[i] == refs[i];
    if Credited(init, id) {
      FirstNameIsFirstCredit(init, id);
      var k :| 0 <= k < |init| && init[k].id == id && init[k].name == FirstName(init, id) &&
               forall m :: 0 <= m < k ==> init[m].id != id;
      assert refs[k] == init[k];
    } else {
      var k := |refs| - 1;
      assert refs[k].id == id;
    }
  }

  /** The credited ids, each once, in the order they were first seen (the map's key order). */
  function DistinctIds(refs: seq<ArtistRef>): (ids: seq<string>)
    ensures forall id :: id in ids <==> Credited(refs, id)
    ensures forall i, j :: 0 <= i < j < |ids| ==> ids[i] != ids[j]
  {
    if refs == [] then []
    else
      var init := refs[..|refs| - 1];
      var last := refs[|refs| - 1];
      assert forall i :: 0 <= i < |init| ==> init[i] == refs[i];
      if Credited(init, last.id) then DistinctIds(init) else DistinctIds(init) + [last.id]
  }

  /** The frequency map the counting builds: each credited id with its first name and its count. */
  function TallyMap(refs: seq<ArtistRef>): (m: map<string, ArtistInfo>)
    ensures forall id :: id in m <==> Credited(refs, id)
  {
    map id | id in DistinctIds(refs) :: ArtistInfo(FirstName(refs, id), Count(refs, id))
  }

  /** How one more credit changes what is known about `id`. */
  lemma ExtendCredits(seen: seq<ArtistRef>, a: ArtistRef, id: string)
    ensures Credited(seen + [a], id) <==> Credited(seen, id) || id == a.id
    ensures Count(seen + [a], id) == Count(seen, id) + if id == a.id then 1 else 0
    ensures Credited(seen, id) ==> FirstName(seen + [a], id) == FirstName(seen, id)
    ensures !Credited(seen, id) && id == a.id ==> FirstName(seen + [a], id) == a.name
  {
    var s := seen + [a];
    assert s[..|s| - 1] == seen;
    assert s[|s| - 1] == a;
    if Credited(s, id) && id != a.id {
      var i :| 0 <= i < |s| && s[i].id == id;
      assert seen[i].id == id;
    }
    if Credited(seen, id) {
      var i :| 0 <= i < |seen| && seen[i].id == id;
      assert s[i].id == id;
    }
  }

  /** One more credit adds its id to the key order when the id is new. */
  lemma ExtendOrder(seen: seq<ArtistRef>, a: ArtistRef)
    ensures DistinctIds(seen + [a]) == if Credited(seen, a.id) then DistinctIds(seen) else DistinctIds(seen) + [a.id]
  {
    var s := seen + [a];
    assert s[..|s| - 1] == seen;
  }

  /** The entry of `id` in the map after one more credit. */
  lemma TallyMapAt(seen: seq<ArtistRef>, a: ArtistRef, id: string)
    ensures id in TallyMap(seen + [a]) <==> id in TallyMap(seen) || id == a.id
    ensures id in TallyMap(seen + [a]) ==>
              TallyMap(seen + [a])[id] ==
              if id != a.id then TallyMap(seen)[id]
              else if id in TallyMap(seen) then TallyMap(seen)[id].(frequency := TallyMap(seen)[id].frequency + 1)
              else ArtistInfo(a.name, 1)
  {
    ExtendCredits(seen, a, id);
  }

  /**
   * One more credit increases the frequency of a known artist and enters a
   * new one with its name and 1.
   */
  lemma TallyMapStep(seen: seq<ArtistRef>, a: ArtistRef)
    ensures TallyMap(seen + [a]) ==
            if a.id in TallyMap(seen)
            then TallyMap(seen)[a.id := TallyMap(seen)[a.id].(frequency := TallyMap(seen)[a.id].frequency + 1)]
            else TallyMap(seen)[a.id := ArtistInfo(a.name, 1)]
  {
    var m := TallyMap(seen);
    var next := TallyMap(seen + [a]);
    var expected := if a.id in m then m[a.id := m[a.id].(frequency := m[a.id].frequency + 1)]
                    else m[a.id := ArtistInfo(a.name, 1)];
    forall id | true
      ensures (id in next <==> id in expected) && (id in expected ==> next[id] == expected[id])
    {
      TallyMapAt(seen, a, id);
    }
  }

  /** Extending a slice by one element. */
  lemma AppendNext<T>(prefix: seq<T>, s: seq<T>, j: nat)
    requires j < |s|
    ensures prefix + s[..j + 1] == prefix + s[..j] + [s[j]]
  {
    assert s[..j + 1] == s[..j] + [s[j]];
  }

  /**
   * The frequency count of the two nested `forEach` loops: a new artist id
   * enters the map (and its key order) with its name and 1, a known one has
   * its frequency increased.
   */
  method CountArtistFrequencies(items: seq<TopTrack>) returns (order: seq<string>, freq: map<string, ArtistInfo>)
    ensures order == DistinctIds(Credits(items))
    ensures freq == TallyMap(Credits(items))
  {
    order, freq := [], map[];
    for i := 0 to |items|
      invariant order == DistinctIds(Credits(items[..i]))
      invariant freq == TallyMap(Credits(items[..i]))
    {
      ghost var before := Credits(items[..i]);
      var artists := items[i].artists;
      assert before + artists[..0] == before;
      for j := 0 to |artists|
        invariant order == DistinctIds(before + artists[..j])
        invariant freq == TallyMap(before + artists[..j])
      {
        var a := artists[j];
        TallyMapStep(before + artists[..j], a);
        ExtendOrder(before + artists[..j], a);
        ExtendCredits(before + artists[..j], a, a.id);
        if a.id in freq {
          var entry := freq[a.id];
          freq := freq[a.id := entry.(frequency := entry.frequency + 1)];
        } else {
          freq := freq[a.id := ArtistInfo(a.name, 1)];
          order := order + [a.id];
        }
        AppendNext(before, artists, j);
      }
      CreditsOfPrefix(items, i);
    }
    assert items[..|items|] == items;
  }

  /** The credits of one more track are the earlier credits followed by its artists. */
  lemma CreditsOfPrefix(items: seq<TopTrack>, i: nat)
    requires i < |items|
    ensures Credits(items[..i + 1]) == Credits(items[..i]) + items[i].artists[..|items[i].artists|]
  {
    assert items[..i + 1][..i] == items[..i];
    assert items[i].artists[..|items[i].artists|] == items[i].artists;
  }

  // ---------------------------------------------------------------------
  // Ranking
  // ---------------------------------------------------------------------

  predicate NonIncreasing(s: seq<RankedArtist>) {
    forall i, j :: 0 <= i < j < |s| ==> s[i].frequency >= s[j].frequency
  }

  /** No artist id occurs twice. */
  predicate DistinctArtists(s: seq<RankedArtist>) {
    forall i, j :: 0 <= i < j < |s| ==> s[i].id != s[j].id
  }

  /** `e` goes in front of the first entry that is not more frequent. */
  function Insert(e: RankedArtist, s: seq<RankedArtist>): (r: seq<RankedArtist>)
    requires NonIncreasing(s)
    ensures |r| == |s| + 1
    ensures forall x :: x in r <==> x == e || x in s
    ensures NonIncreasing(r)
  {
    if s == [] || s[0].frequency <= e.frequency then [e] + s
    else
      var tail := Insert(e, s[1..]);
      assert forall x :: x in s[1..] ==> x.frequency <= s[0].frequency by {
        forall x | x in s[1..] ensures x.frequency <= s[0].frequency {
          var k :| 0 <= k < |s[1..]| && s[1..][k] == x;
          assert s[k + 1] == x;
        }
      }
      [s[0]] + tail
  }

  /**
   * `sort(([, a], [, b]) => b.frequency - a.frequency)`: the entries by
   * descending frequency. The sort is stable, as `Array.prototype.sort` is.
   */
  function SortByFrequency(s: seq<RankedArtist>): (r: seq<RankedArtist>)
    ensures |r| == |s|
    ensures forall x :: x in r <==> x in s
    ensures NonIncreasing(r)
  {
    if s == [] then []
    else
      assert forall x :: x in s <==> x == s[0] || x in s[1..] by {
        assert s == [s[0]] + s[1..];
      }
      Insert(s[0], SortByFrequency(s[1..]))
  }

  lemma {:induction false} InsertCounts(e: RankedArtist, s: seq<RankedArtist>)
    requires NonIncreasing(s)
    ensures multiset(Insert(e, s)) == multiset(s) + multiset{e}
  {
    if !(s == [] || s[0].frequency <= e.frequency) {
      InsertCounts(e, s[1..]);
      assert s == [s[0]] + s[1..];
    }
  }

  /** The sort is a permutation of its input. */
  lemma {:induction false} SortIsPermutation(s: seq<RankedArtist>)
    ensures multiset(SortByFrequency(s)) == multiset(s)
  {
    if s != [] {
      SortIsPermutation(s[1..]);
      InsertCounts(s[0], SortByFrequency(s[1..]));
      assert s == [s[0]] + s[1..];
    }
  }

  lemma {:induction false} InsertKeepsDistinct(e: RankedArtist, s: seq<RankedArtist>)
    requires NonIncreasing(s) && DistinctArtists(s)
    requires forall x :: x in s ==> x.id != e.id
    ensures DistinctArtists(Insert(e, s))
  {
    if !(s == [] || s[0].frequency <= e.frequency) {
      InsertKeepsDistinct(e, s[1..]);
      var tail := Insert(e, s[1..]);
      forall j | 0 <= j < |tail| ensures tail[j].id != s[0].id {
        assert tail[j] in tail;
        if tail[j] != e {
          var k :| 0 <= k < |s[1..]| && s[1..][k] == tail[j];
          assert s[k + 1] == tail[j];
        }
      }
    }
  }

  /** Sorting keeps the artist ids distinct. */
  lemma {:induction false} SortKeepsDistinct(s: seq<RankedArtist>)
    requires DistinctArtists(s)
    ensures DistinctArtists(SortByFrequency(s))
  {
    if s != [] {
      SortKeepsDistinct(s[1..]);
      forall x | x in SortByFrequency(s[1..]) ensures x.id != s[0].id {
        var k :| 0 <= k < |s[1..]| && s[1..][k] == x;
        assert s[k + 1] == x;
      }
      InsertKeepsDistinct(s[0], SortByFrequency(s[1..]));
    }
  }

  function HasFrequency(f: nat): RankedArtist -> bool {
    (e: RankedArtist) => e.frequency == f
  }

  lemma {:induction false} InsertIsStable(e: RankedArtist, s: seq<RankedArtist>, f: nat)
    requires NonIncreasing(s)
    ensures Filter(Insert(e, s), HasFrequency(f)) ==
            if e.frequency == f then [e] + Filter(s, HasFrequency(f)) else Filter(s, HasFrequency(f))
  {
    if s == [] || s[0].frequency <= e.frequency {
      assert ([e] + s)[1..] == s;
    } else {
      InsertIsStable(e, s[1..], f);
      assert ([s[0]] + Insert(e, s[1..]))[1..] == Insert(e, s[1..]);
    }
  }

  /** Entries of equal frequency keep their map order. */
  lemma {:induction false} SortIsStable(s: seq<RankedArtist>, f: nat)
    ensures Filter(SortByFrequency(s), HasFrequency(f)) == Filter(s, HasFrequency(f))
  {
    if s != [] {
      SortIsStable(s[1..], f);
      InsertIsStable(s[0], SortByFrequency(s[1..]), f);
    }
  }

  /** `Array.from(frequencyMap.entries())` for the tally of `refs`, in key order. */
  function ArtistEntries(refs: seq<ArtistRef>): seq<RankedArtist> {
    var ids := DistinctIds(refs);
    seq(|ids|, i requires 0 <= i < |ids| => RankedArtist(ids[i], FirstName(refs, ids[i]), Count(refs, ids[i])))
  }

  /**
   * The map's entries are the credited artists, once each, with their first
   * name and their count.
   */
  lemma EntriesAreTallies(refs: seq<ArtistRef>)
    ensures |ArtistEntries(refs)| == |DistinctIds(refs)|
    ensures DistinctArtists(ArtistEntries(refs))
    ensures forall e :: e in ArtistEntries(refs) ==>
              Credited(refs, e.id) && e.name == FirstName(refs, e.id) && e.frequency == Count(refs, e.id)
    ensures forall id :: Credited(refs, id) ==>
              RankedArtist(id, FirstName(refs, id), Count(refs, id)) in ArtistEntries(refs)
  {
    var ids := DistinctIds(refs);
    var entries := ArtistEntries(refs);
    forall id | Credited(refs, id)
      ensures RankedArtist(id, FirstName(refs, id), Count(refs, id)) in entries
    {
      var k :| 0 <= k < |ids| && ids[k] == id;
      assert entries[k] == RankedArtist(id, FirstName(refs, id), Count(refs, id));
    }
  }

  /** The ranking: the three most frequently credited artists, most frequent first. */
  function TopArtists(items: seq<TopTrack>): seq<RankedArtist> {
    Take(SortByFrequency(ArtistEntries(Credits(items))), 3)
  }

  /** Three artists are ranked, or every credited artist when there are fewer. */
  lemma TopArtistsLength(items: seq<TopTrack>)
    ensures |TopArtists(items)| == if |DistinctIds(Credits(items))| < 3 then |DistinctIds(Credits(items))| else 3
  {
    EntriesAreTallies(Credits(items));
  }

  /**
   * Each ranked artist is a credited artist with its true count and
   * first-seen name; no artist is ranked twice; the most frequent comes first.
   */
  lemma TopArtistsAreTallies(items: seq<TopTrack>)
    ensures NonIncreasing(TopArtists(items))
    ensures DistinctArtists(TopArtists(items))
    ensures forall e :: e in TopArtists(items) ==>
              Credited(Credits(items), e.id) &&
              e.name == FirstName(Credits(items), e.id) && e.frequency == Count(Credits(items), e.id)
  {
    var entries := ArtistEntries(Credits(items));
    var sorted := SortByFrequency(entries);
    EntriesAreTallies(Credits(items));
    SortKeepsDistinct(entries);
    var r := TopArtists(items);
    assert r == sorted[..|r|];
    forall e | e in r ensures e in entries {
      var k :| 0 <= k < |r| && r[k] == e;
      assert sorted[k] == e;
    }
  }

  /** No artist left out is credited more often than the last one ranked. */
  lemma TopArtistsAreMostFrequent(items: seq<TopTrack>, id: string)
    requires Credited(Credits(items), id)
    requires forall e :: e in TopArtists(items) ==> e.id != id
    ensures |TopArtists(items)| == 3
    ensures Count(Credits(items), id) <= TopArtists(items)[2].frequency
  {
    var refs := Credits(items);
    var entries := ArtistEntries(refs);
    var sorted := SortByFrequency(entries);
    var r := TopArtists(items);
    EntriesAreTallies(refs);
    var e := RankedArtist(id, FirstName(refs, id), Count(refs, id));
    assert e in sorted;
    assert forall k :: 0 <= k < |r| ==> sorted[k] == r[k] && r[k] in r;
    var p :| 0 <= p < |sorted| && sorted[p] == e;
    assert r[2] == sorted[2];
  }

  /**
   * The counting and ranking steps: count the credits, list the map's
   * entries in key order, sort them and keep the first three.
   */
  method RankRecentArtists(items: seq<TopTrack>) returns (ranked: seq<RankedArtist>)
    ensures ranked == TopArtists(items)
  {
    var order, freq := CountArtistFrequencies(items);
    var entries := seq(|order|, i requires 0 <= i < |order| => RankedArtist(order[i], freq[order[i]].name, freq[order[i]].frequency));
    ghost var refs := Credits(items);
    assert entries == ArtistEntries(refs) by {
      forall i | 0 <= i < |entries| ensures entries[i] == ArtistEntries(refs)[i] {
        assert order[i] in DistinctIds(refs);
      }
    }
    ranked := Take(SortByFrequency(entries), 3);
  }

  // ---------------------------------------------------------------------
  // Top tracks per artist
  // ---------------------------------------------------------------------

  /** The outcome of one `/v1/artists/{id}/top-tracks` request. */
  datatype TopTracksReply =
    | TracksOk(tracks: seq<TopTrack>)
    | TracksNotOk   // a non-OK response: logged, and the artist gets no tracks
    | TracksThrow   // the request threw: `Promise.all` rejects and nothing is stored

  /**
   * `Promise.all` over the ranked artists: each keeps its id, name and
   * frequency, with its fetched tracks or none after a non-OK response. One
   * request that throws rejects the whole batch.
   */
  function CollectArtistData(ranked: seq<RankedArtist>, fetch: string -> TopTracksReply): (r: Option<seq<ArtistData>>)
    ensures r.None? <==> exists i :: 0 <= i < |ranked| && fetch(ranked[i].id).TracksThrow?
    ensures r.Some? ==> |r.value| == |ranked|
    ensures r.Some? ==>
              forall i :: 0 <= i < |ranked| ==>
                r.value[i].id == ranked[i].id && r.value[i].name == ranked[i].name &&
                r.value[i].frequency == ranked[i].frequency &&
                r.value[i].topTracks == (if fetch(ranked[i].id).TracksOk? then fetch(ranked[i].id).tracks else [])
  {
    if ranked == [] then Some([])
    else
      var a := ranked[0];
      var reply := fetch(a.id);
      var rest := CollectArtistData(ranked[1..], fetch);
      if reply.TracksThrow? || rest.None? then None
      else
        var tracks := if reply.TracksOk? then reply.tracks else [];
        Some([ArtistData(a.id, a.name, a.frequency, tracks)] + rest.value)
  }

  /** The outcome of the `/v1/me/top/tracks` request. */
  datatype TopItemsReply = ItemsOk(items: seq<TopTrack>) | ItemsNotOk | ItemsThrow

  /**
   * The loading effect: without a token, after a failed or throwing request,
   * or when an artist request throws, `artistData` stays as it was;
   * otherwise it becomes the ranked artists with their top tracks.
   */
  method LoadRecentTopArtists(artistData: seq<ArtistData>, hasToken: bool, reply: TopItemsReply,
                              fetch: string -> TopTracksReply)
    returns (next: seq<ArtistData>)
    ensures !hasToken || !reply.ItemsOk? ==> next == artistData
    ensures hasToken && reply.ItemsOk? ==>
              next == match CollectArtistData(TopArtists(reply.items), fetch)
                      case None => artistData
                      case Some(data) => data
  {
    if !hasToken {
      return artistData;
    }
    if !reply.ItemsOk? {
      return artistData;
    }
    var ranked := RankRecentArtists(reply.items);
    var collected := CollectArtistData(ranked, fetch);
    next := if collected.Some? then collected.value else artistData;
  }

  // ---------------------------------------------------------------------
  // Adding to a playlist, playing a top track
  // ---------------------------------------------------------------------

  /** The outcome of listing a playlist's track uris. */
  datatype PlaylistTracksReply = ListedUris(uris: seq<string>) | ListNotOk | ListThrows

  datatype AddDecision =
    | LoginRequired       // no token: alert and stop
    | AlreadyInPlaylist   // the uri is listed: alert and stop
    | PostTrack           // issue the add request
    | Abandoned           // the listing threw: the error is logged, nothing is added

  /**
   * `addTrackToPlaylist`: the add is issued unless the listed uris already
   * include the track's uri; a failed (non-OK) listing does not stop it.
   */
  function AddTrackDecision(hasToken: bool, listing: PlaylistTracksReply, uri: string): (d: AddDecision)
    ensures d == LoginRequired <==> !hasToken
    ensures d == AlreadyInPlaylist <==> hasToken && listing.ListedUris? && uri in listing.uris
    ensures d == PostTrack <==> hasToken && (listing.ListNotOk? || (listing.ListedUris? && uri !in listing.uris))
  {
    if !hasToken then LoginRequired
    else match listing
      case ListThrows => Abandoned
      case ListNotOk => PostTrack
      case ListedUris(uris) => if uri in uris then AlreadyInPlaylist else PostTrack
  }

  /** `handlePlay`'s conversion of a top track into the player's track shape. */
  function ToPlayerTrack(t: TopTrack): (r: History.Track)
    ensures r.id == t.id && r.name == t.name && r.uri == t.uri && r.durationMs == t.durationMs
    ensures |r.artists| == |t.artists| && forall i :: 0 <= i < |t.artists| ==> r.artists[i] == t.artists[i].name
    ensures |r.albumImages| == |t.albumImages| &&
            forall i :: 0 <= i < |t.albumImages| ==> r.albumImages[i] == t.albumImages[i].url
    ensures r.liked == Some(false) && r.playedAt.None?
  {
    History.Track(
      t.id, t.name,
      seq(|t.albumImages|, i requires 0 <= i < |t.albumImages| => t.albumImages[i].url),
      t.uri, t.durationMs,
      seq(|t.artists|, i requires 0 <= i < |t.artists| => t.artists[i].name),
      None, Some(false))
  }

  /** `handlePlay`: play the converted track as a new (recorded) play. */
  method HandlePlay(player: PlayerContext.Player, t: TopTrack, outcome: PlayerContext.PlayOutcome, now: int)
    requires player.Valid()
    modifies player
    ensures player.Valid()
    ensures outcome == PlayerContext.Ok ==>
              player.currentTrack == Some(ToPlayerTrack(t)) && player.isPlaying &&
              player.playedTracks == History.RecordPlay(old(player.playedTracks), ToPlayerTrack(t), now)
    ensures outcome != PlayerContext.Ok ==>
              player.currentTrack == old(player.currentTrack) && player.isPlaying == old(player.isPlaying) &&
              player.playedTracks == old(player.playedTracks)
  {
    player.PlayTrack(ToPlayerTrack(t), false, outcome, now);
  }
}
