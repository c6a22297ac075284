/**
 * The agent's local episodic memory: `SimpleMemory`, a dictionary of
 * episodes with a chronological id list bounded at 1000 entries, read back
 * newest first or by keyword overlap; and the part of
 * `MemoryModule.store_episode` that cleans the caller's metadata down to
 * scalar values and always writes the episode to that local memory.
 */
module Memory {
  import opened Wrappers
  import opened PyStr
  import opened PyValue
  import opened Levels
  import opened Bounded
  import opened Ordering
  import opened Seqs
  import opened Dicts
  import opened Words

  /** `SimpleMemory` keeps the ids of its last 1000 stores. */
  const EpisodeCap: nat := 1000
  /** Non-scalar metadata values are kept as the first 100 characters of their `str`. */
  const MetadataTextCap: nat := 100

  datatype Episode = Episode(content: string, metadata: seq<(string, Value)>, timestamp: Time)

  /** One result of `retrieve_recent`: the episode's id, content and metadata. */
  datatype Recalled = Recalled(id: string, content: string, metadata: seq<(string, Value)>)

  function RecalledOf(id: string, e: Episode): Recalled {
    Recalled(id, e.content, e.metadata)
  }

  // ---------------------------------------------------------------------------
  // Storing
  // ---------------------------------------------------------------------------

  /** `store`'s effect on the episode dictionary: the new episode, minus the evicted oldest id. */
  function StoredEpisodes(episodes: map<string, Episode>, list: seq<string>, id: string, e: Episode): map<string, Episode> {
    if |list| + 1 > EpisodeCap then episodes[id := e] - {list[0]} else episodes[id := e]
  }

  /** `store`'s effect on the dictionary's insertion order: a new key goes last, an evicted key leaves. */
  function StoredOrder(order: seq<string>, episodes: map<string, Episode>, list: seq<string>, id: string): seq<string> {
    var added := if id in episodes then order else order + [id];
    if |list| + 1 > EpisodeCap && (list[0] in episodes || list[0] == id) then RemoveFirst(added, list[0]) else added
  }

  /**
   * The memory's invariant: `order` lists the dictionary's keys once each, the
   * id list holds at most 1000 ids, and every stored episode is still listed.
   */
  ghost predicate MemoryOk(episodes: map<string, Episode>, order: seq<string>, list: seq<string>) {
    && NoDup(order) && (forall k :: k in order <==> k in episodes)
    && |list| <= EpisodeCap
    && (forall k :: k in episodes ==> k in list)
  }

  /** `store` keeps `order` listing the dictionary's keys once each. */
  lemma StoreKeepsOrder(episodes: map<string, Episode>, order: seq<string>, list: seq<string>, id: string, e: Episode)
    requires NoDup(order) && (forall k :: k in order <==> k in episodes)
    ensures var order' := StoredOrder(order, episodes, list, id);
      var episodes' := StoredEpisodes(episodes, list, id, e);
      NoDup(order') && (forall k :: k in order' <==> k in episodes')
  {
    var added := if id in episodes then order else order + [id];
    assert NoDup(added);
    assert forall k :: k in added <==> k in episodes[id := e];
    if |list| + 1 > EpisodeCap {
      forall k
        ensures k in RemoveFirst(added, list[0]) <==> k in added && k != list[0]
      {
        RemoveFirstMembers(added, list[0], k);
      }
    }
  }

  /** `store` keeps the id list bounded and every stored episode listed. */
  lemma StoreKeepsListed(episodes: map<string, Episode>, list: seq<string>, id: string, e: Episode)
    requires |list| <= EpisodeCap && (forall k :: k in episodes ==> k in list)
    ensures var list' := AppendBounded(list, id, EpisodeCap);
      |list'| <= EpisodeCap && forall k :: k in StoredEpisodes(episodes, list, id, e) ==> k in list'
  {
    var list' := AppendBounded(list, id, EpisodeCap);
    forall k | k in StoredEpisodes(episodes, list, id, e)
      ensures k in list'
    {
      if k != id {
        var p :| 0 <= p < |list| && list[p] == k;
        if |list| + 1 > EpisodeCap {
          assert p != 0;
          assert list'[p - 1] == k;
        } else {
          assert list'[p] == k;
        }
      } else {
        assert list'[|list'| - 1] == id;
      }
    }
  }

  /** A `store` into a full list: the oldest listed id is evicted. */
  lemma StoreEvicting(episodes: map<string, Episode>, order: seq<string>, list: seq<string>, id: string, e: Episode)
    requires |list| + 1 > EpisodeCap && |list| <= EpisodeCap
    ensures var list' := list + [id];
      var added := if id !in episodes then order + [id] else order;
      && StoredEpisodes(episodes, list, id, e) == episodes[id := e] - {list'[0]}
      && StoredOrder(order, episodes, list, id)
         == (if list'[0] in episodes[id := e] then RemoveFirst(added, list'[0]) else added)
      && AppendBounded(list, id, EpisodeCap) == list'[1..]
  {
    assert (list + [id])[0] == list[0];
  }

  /** A `store` into a list with room: nothing is evicted. */
  lemma StoreNotEvicting(episodes: map<string, Episode>, order: seq<string>, list: seq<string>, id: string, e: Episode)
    requires |list| + 1 <= EpisodeCap
    ensures StoredEpisodes(episodes, list, id, e) == episodes[id := e]
    ensures StoredOrder(order, episodes, list, id) == if id !in episodes then order + [id] else order
    ensures AppendBounded(list, id, EpisodeCap) == list + [id]
  {
  }

  /** `store` keeps the invariant. */
  lemma StoreKeepsMemoryOk(episodes: map<string, Episode>, order: seq<string>, list: seq<string>, id: string, e: Episode)
    requires MemoryOk(episodes, order, list)
    ensures MemoryOk(StoredEpisodes(episodes, list, id, e), StoredOrder(order, episodes, list, id),
                     AppendBounded(list, id, EpisodeCap))
  {
    StoreKeepsOrder(episodes, order, list, id, e);
    StoreKeepsListed(episodes, list, id, e);
  }

  /**
   * Right after `store(id, ...)`, `retrieve_recent(n)` with `n >= 1` starts
   * with that episode, unless the store evicted `id` itself: re-storing the
   * id that is oldest in a full list deletes the episode just written.
   */
  lemma StoreThenRecall(episodes: map<string, Episode>, list: seq<string>, id: string, e: Episode, count: int)
    requires count >= 1
    requires |list| < EpisodeCap || list[0] != id
    ensures var r := RecallNewestFirst(RecentIds(AppendBounded(list, id, EpisodeCap), count),
                                      StoredEpisodes(episodes, list, id, e));
      r != [] && r[0] == RecalledOf(id, e)
  {
    var list' := AppendBounded(list, id, EpisodeCap);
    var ids := RecentIds(list', count);
    assert ids[|ids| - 1] == id;
  }

  /** Re-storing the oldest id of a full list loses the episode: nothing under that id remains. */
  lemma RestoringOldestLosesIt(episodes: map<string, Episode>, list: seq<string>, id: string, e: Episode)
    requires |list| >= EpisodeCap && list[0] == id
    ensures id !in StoredEpisodes(episodes, list, id, e)
  {
  }

  // ---------------------------------------------------------------------------
  // Reading back
  // ---------------------------------------------------------------------------

  /** `episode_list[-count:] if count > 0 else episode_list`. */
  function RecentIds(list: seq<string>, count: int): (r: seq<string>)
    ensures count > 0 ==> |r| == if count < |list| then count else |list|
    ensures count <= 0 ==> r == list
    ensures r == list[|list| - |r|..]
  {
    if count > 0 && count < |list| then list[|list| - count..] else list
  }

  /** The listed ids newest first, skipping those no longer stored, with their episodes. */
  function RecallNewestFirst(ids: seq<string>, episodes: map<string, Episode>): (r: seq<Recalled>)
    ensures |r| <= |ids|
    ensures forall i :: 0 <= i < |r| ==> r[i].id in episodes && r[i] == RecalledOf(r[i].id, episodes[r[i].id])
    ensures (forall j :: 0 <= j < |ids| ==> ids[j] in episodes) ==>
      |r| == |ids| && forall i :: 0 <= i < |r| ==> r[i].id == ids[|ids| - 1 - i]
  {
    if ids == [] then []
    else
      var last := ids[|ids| - 1];
      var rest := RecallNewestFirst(ids[..|ids| - 1], episodes);
      (if last in episodes then [RecalledOf(last, episodes[last])] else []) + rest
  }

  // ---------------------------------------------------------------------------
  // Keyword search
  // ---------------------------------------------------------------------------

  /** `len(query_words & content_words) / len(query_words) if query_words else 0`. */
  function Relevance(query: string, content: string): (r: real)
    ensures 0.0 <= r <= 1.0
    ensures WordSet(query) == {} ==> r == 0.0
    ensures r > 0.0 <==> WordSet(query) * WordSet(content) != {}
  {
    var q := WordSet(query);
    var c := WordSet(content);
    if |q| == 0 then 0.0
    else
      SubsetCardinality(q * c, q);
      var r := Ratio(|q * c|, |q|);
      assert |q * c| > 0 ==> r > 0.0;
      r
  }

  /** The episodes, in dictionary order, that share a word with the query, each with its relevance. */
  function Candidates(keys: seq<string>, episodes: map<string, Episode>, query: string): (r: seq<(Recalled, real)>)
    ensures |r| <= |keys|
    ensures forall i :: 0 <= i < |r| ==> 0.0 < r[i].1 <= 1.0
    ensures forall i :: 0 <= i < |r| ==>
      (r[i].0.id in episodes && r[i].0 == RecalledOf(r[i].0.id, episodes[r[i].0.id])
       && r[i].1 == Relevance(query, episodes[r[i].0.id].content))
  {
    if keys == [] then []
    else
      var k := keys[|keys| - 1];
      Candidates(keys[..|keys| - 1], episodes, query)
        + (if k in episodes && Relevance(query, episodes[k].content) > 0.0
           then [(RecalledOf(k, episodes[k]), Relevance(query, episodes[k].content))] else [])
  }

  /** A query without words matches nothing. */
  lemma {:induction false} EmptyQueryFindsNothing(keys: seq<string>, episodes: map<string, Episode>, query: string)
    requires WordSet(query) == {}
    ensures Candidates(keys, episodes, query) == []
  {
    if keys != [] {
      EmptyQueryFindsNothing(keys[..|keys| - 1], episodes, query);
    }
  }

  /** A stored episode sharing a word with the query is a candidate. */
  lemma {:induction false} CandidatesComplete(keys: seq<string>, episodes: map<string, Episode>, query: string, k: string)
    requires k in keys && k in episodes && Relevance(query, episodes[k].content) > 0.0
    ensures (RecalledOf(k, episodes[k]), Relevance(query, episodes[k].content)) in Candidates(keys, episodes, query)
  {
    if keys[|keys| - 1] != k {
      assert k in keys[..|keys| - 1];
      CandidatesComplete(keys[..|keys| - 1], episodes, query, k);
    }
  }

  /**
   * With a limit of at least the number of stored episodes, the search
   * returns every stored episode that shares a word with the query.
   */
  lemma SearchFindsEveryMatch(order: seq<string>, episodes: map<string, Episode>, query: string, limit: int, k: string)
    requires |order| <= limit
    requires k in order && k in episodes && Relevance(query, episodes[k].content) > 0.0
    ensures (RecalledOf(k, episodes[k]), Relevance(query, episodes[k].content))
      in SliceTo(SortDesc(Candidates(order, episodes, query)), limit)
  {
    var c := Candidates(order, episodes, query);
    CandidatesComplete(order, episodes, query, k);
    SortedPrefix(c, |c|);
  }

  /**
   * When the limit cuts the sorted matches, a matching episode left out is no
   * more relevant than any result kept.
   */
  lemma {:induction false} SearchKeepsMostRelevant(order: seq<string>, episodes: map<string, Episode>, query: string, limit: int, k: string)
    requires k in order && k in episodes && Relevance(query, episodes[k].content) > 0.0
    ensures var r := SliceTo(SortDesc(Candidates(order, episodes, query)), limit);
      (forall i :: 0 <= i < |r| ==> r[i].0.id != k) ==>
        forall i :: 0 <= i < |r| ==> Relevance(query, episodes[k].content) <= r[i].1
  {
    CandidatesComplete(order, episodes, query, k);
    CutKeepsMostRelevant(Candidates(order, episodes, query), limit, RecalledOf(k, episodes[k]), Relevance(query, episodes[k].content));
  }

  /** A candidate whose id the cut leaves out is no more relevant than any result kept. */
  lemma CutKeepsMostRelevant(c: seq<(Recalled, real)>, limit: int, x: Recalled, v: real)
    requires (x, v) in c
    ensures var r := SliceTo(SortDesc(c), limit);
      (forall i :: 0 <= i < |r| ==> r[i].0.id != x.id) ==> forall i :: 0 <= i < |r| ==> v <= r[i].1
  {
    var r := SliceTo(SortDesc(c), limit);
    if forall i :: 0 <= i < |r| ==> r[i].0.id != x.id {
      assert (x, v) !in r by {
        forall i | 0 <= i < |r|
          ensures r[i] != (x, v)
        {
          assert r[i].0.id != x.id;
        }
      }
      LeftOutNotLarger(c, |r|, (x, v));
    }
  }

  /** The same, for every matching episode at once. */
  lemma SearchLeavesOutLessRelevant(order: seq<string>, episodes: map<string, Episode>, query: string, limit: int)
    ensures var r := SliceTo(SortDesc(Candidates(order, episodes, query)), limit);
      forall k :: (k in order && k in episodes && Relevance(query, episodes[k].content) > 0.0
          && forall i :: 0 <= i < |r| ==> r[i].0.id != k) ==>
        forall i :: 0 <= i < |r| ==> Relevance(query, episodes[k].content) <= r[i].1
  {
    forall k | k in order && k in episodes && Relevance(query, episodes[k].content) > 0.0 {
      SearchKeepsMostRelevant(order, episodes, query, limit, k);
    }
  }

  // ---------------------------------------------------------------------------
  // SimpleMemory
  // ---------------------------------------------------------------------------

  /** `SimpleMemory`: the episode dictionary and the chronological list of stored ids. */
  class SimpleMemory {
    var episodes: map<string, Episode>
    /** The keys of `episodes` in the dictionary's insertion order. */
    var order: seq<string>
    var episodeList: seq<string>

    ghost predicate Valid()
      reads this
    {
      MemoryOk(episodes, order, episodeList)
    }

    constructor ()
      ensures Valid()
      ensures episodes == map[] && order == [] && episodeList == []
    {
      episodes := map[];
      order := [];
      episodeList := [];
    }

    /**
     * `store`: the episode goes under `id` and `id` at the end of the list;
     * past 1000 ids the oldest leaves the list and its episode is deleted.
     */
    method Store(id: string, content: string, metadata: seq<(string, Value)>, now: Time)
      requires Valid()
      modifies this
      ensures episodes == StoredEpisodes(old(episodes), old(episodeList), id, Episode(content, metadata, now))
      ensures order == StoredOrder(old(order), old(episodes), old(episodeList), id)
      ensures episodeList == AppendBounded(old(episodeList), id, EpisodeCap)
      ensures Valid()
    {
      var e := Episode(content, metadata, now);
      ghost var (episodes0, order0, list0) := (episodes, order, episodeList);
      if id !in episodes {
        order := order + [id];
      }
      episodes := episodes[id := e];
      episodeList := episodeList + [id];
      if |episodeList| > EpisodeCap {
        DropOldest();
        StoreEvicting(episodes0, order0, list0, id, e);
      } else {
        StoreNotEvicting(episodes0, order0, list0, id, e);
      }
      StoreKeepsMemoryOk(episodes0, order0, list0, id, e);
    }

    /** The eviction step of `store`: the oldest id leaves the list, and its episode is deleted. */
    method DropOldest()
      requires episodeList != []
      modifies this
      ensures episodeList == old(episodeList)[1..]
      ensures episodes == old(episodes) - {old(episodeList)[0]}
      ensures order == if old(episodeList)[0] in old(episodes) then RemoveFirst(old(order), old(episodeList)[0]) else old(order)
    {
      var oldId := episodeList[0];
      episodeList := episodeList[1..];
      if oldId in episodes {
        episodes := episodes - {oldId};
        order := RemoveFirst(order, oldId);
      } else {
        assert episodes - {oldId} == episodes;
      }
    }

    /**
     * `retrieve_recent`: the last `count` listed ids (all of them for
     * `count <= 0`), newest first, with their episodes; ids whose episode was
     * deleted are skipped.
     */
    function RetrieveRecent(count: int): (r: seq<Recalled>)
      reads this
      ensures count > 0 ==> |r| <= count
      ensures |r| <= |episodeList|
      ensures forall i :: 0 <= i < |r| ==> r[i].id in episodes && r[i] == RecalledOf(r[i].id, episodes[r[i].id])
    {
      RecallNewestFirst(RecentIds(episodeList, count), episodes)
    }

    /**
     * `search_simple`: the stored episodes sharing a word with the query, each
     * with its relevance, most relevant first (dictionary order among equals),
     * cut at `limit`.
     */
    method SearchSimple(query: string, limit: int) returns (r: seq<(Recalled, real)>)
      ensures r == SliceTo(SortDesc(Candidates(order, episodes, query)), limit)
      ensures 0 <= limit ==> |r| <= limit
      ensures SortedDesc(r)
      ensures forall i :: 0 <= i < |r| ==> 0.0 < r[i].1 <= 1.0 && r[i].0.id in episodes
      ensures WordSet(query) == {} ==> r == []
      ensures forall k :: (k in order && k in episodes && Relevance(query, episodes[k].content) > 0.0
          && forall i :: 0 <= i < |r| ==> r[i].0.id != k) ==>
        forall i :: 0 <= i < |r| ==> Relevance(query, episodes[k].content) <= r[i].1
    {
      var results := Matches(query);
      r := SliceTo(SortDesc(results), limit);
      SortedPrefix(results, |r|);
      SearchLeavesOutLessRelevant(order, episodes, query, limit);
      if WordSet(query) == {} {
        EmptyQueryFindsNothing(order, episodes, query);
      }
    }

    /** The scan of `search_simple`: each stored episode sharing a word with the query, in dictionary order. */
    method Matches(query: string) returns (results: seq<(Recalled, real)>)
      ensures results == Candidates(order, episodes, query)
    {
      results := [];
      var i := 0;
      while i < |order|
        invariant 0 <= i <= |order|
        invariant results == Candidates(order[..i], episodes, query)
      {
        var id := order[i];
        assert order[..i + 1][..i] == order[..i];
        if id in episodes {
          var relevance := Relevance(query, episodes[id].content);
          if relevance > 0.0 {
            results := results + [(RecalledOf(id, episodes[id]), relevance)];
          }
        }
        i := i + 1;
      }
      assert order[..i] == order;
    }
  }

  // ---------------------------------------------------------------------------
  // store_episode
  // ---------------------------------------------------------------------------

  /** The keys `store_episode` always starts from. */
  function BaseMetadata(timestamp: string, episodeType: string, episodeId: string): seq<(string, Value)> {
    [("timestamp", VStr(timestamp)), ("type", VStr(episodeType)), ("episode_id", VStr(episodeId))]
  }

  /** What one metadata entry writes: a scalar as is, anything else as `key_str` holding `str(value)[:100]`. */
  function CleanWrite(entry: (string, Value)): (w: (string, Value))
    ensures IsScalar(w.1)
    ensures IsScalar(entry.1) ==> w == entry
    ensures !IsScalar(entry.1) ==> w.0 == entry.0 + "_str" && w.1.VStr? && |w.1.s| <= MetadataTextCap
  {
    if IsScalar(entry.1) then entry else (entry.0 + "_str", VStr(Take(Str(entry.1), MetadataTextCap)))
  }

  function CleanWrites(metadata: seq<(string, Value)>): (ws: seq<(string, Value)>)
    ensures |ws| == |metadata|
    ensures forall i :: 0 <= i < |ws| ==> ws[i] == CleanWrite(metadata[i])
  {
    seq(|metadata|, i requires 0 <= i < |metadata| => CleanWrite(metadata[i]))
  }

  /** The metadata `store_episode` stores: the base keys, then each entry's write in order. */
  function CleanMetadata(timestamp: string, episodeType: string, episodeId: string,
                         metadata: Option<seq<(string, Value)>>): seq<(string, Value)> {
    AssignAll(BaseMetadata(timestamp, episodeType, episodeId), CleanWrites(if metadata.Some? then metadata.value else []))
  }

  predicate AllScalar(d: seq<(string, Value)>) {
    forall i :: 0 <= i < |d| ==> IsScalar(d[i].1)
  }

  lemma {:induction false} AssignKeepsScalar(d: seq<(string, Value)>, key: string, v: Value)
    requires AllScalar(d) && IsScalar(v)
    ensures AllScalar(Assign(d, key, v))
  {
    if d != [] && d[0].0 != key {
      AssignKeepsScalar(d[1..], key, v);
    }
  }

  lemma {:induction false} AssignAllKeepsScalar(d: seq<(string, Value)>, ws: seq<(string, Value)>)
    requires AllScalar(d) && AllScalar(ws)
    ensures AllScalar(AssignAll(d, ws))
  {
    if ws != [] {
      AssignAllKeepsScalar(d, ws[..|ws| - 1]);
      AssignKeepsScalar(AssignAll(d, ws[..|ws| - 1]), ws[|ws| - 1].0, ws[|ws| - 1].1);
    }
  }

  /** The cleaned metadata holds only scalar values: strings, integers and booleans. */
  lemma CleanMetadataIsScalar(timestamp: string, episodeType: string, episodeId: string,
                              metadata: Option<seq<(string, Value)>>)
    ensures AllScalar(CleanMetadata(timestamp, episodeType, episodeId, metadata))
  {
    AssignAllKeepsScalar(BaseMetadata(timestamp, episodeType, episodeId),
                         CleanWrites(if metadata.Some? then metadata.value else []));
  }

  /** The three base keys are always there, and no key appears twice. */
  lemma CleanMetadataHasBaseKeys(timestamp: string, episodeType: string, episodeId: string,
                                 metadata: Option<seq<(string, Value)>>)
    ensures var clean := CleanMetadata(timestamp, episodeType, episodeId, metadata);
      && NoDup(Keys(clean))
      && "timestamp" in Keys(clean) && "type" in Keys(clean) && "episode_id" in Keys(clean)
  {
    var ks := Keys(BaseMetadata(timestamp, episodeType, episodeId));
    assert |ks| == 3 && ks[0] == "timestamp" && ks[1] == "type" && ks[2] == "episode_id";
    assert ks[0][1] == 'i' && ks[1][1] == 'y' && ks[0][0] == 't' && ks[1][0] == 't' && ks[2][0] == 'e';
    assert NoDup(ks);
  }

  /**
   * Each key reads the last write to it, or its base value: a caller's
   * `timestamp`, `type` or `episode_id` entry overrides the base one.
   */
  lemma CleanMetadataLastWriteWins(timestamp: string, episodeType: string, episodeId: string,
                                   metadata: Option<seq<(string, Value)>>, key: string)
    ensures Get(CleanMetadata(timestamp, episodeType, episodeId, metadata), key)
      == var ws := CleanWrites(if metadata.Some? then metadata.value else []);
         if LastWrite(ws, key).Some? then LastWrite(ws, key) else Get(BaseMetadata(timestamp, episodeType, episodeId), key)
  {
    LastWriteWins(BaseMetadata(timestamp, episodeType, episodeId),
                  CleanWrites(if metadata.Some? then metadata.value else []), key);
  }

  /** No metadata at all leaves exactly the base keys. */
  lemma NoMetadataIsBase(timestamp: string, episodeType: string, episodeId: string)
    ensures CleanMetadata(timestamp, episodeType, episodeId, None) == BaseMetadata(timestamp, episodeType, episodeId)
  {
    assert CleanWrites([]) == [];
  }

  /** `MemoryModule`, reduced to its local memory: the vector store is not part of this model. */
  class MemoryModule {
    const simpleMemory: SimpleMemory
    /** Set when the vector store could not be initialised; the local write does not depend on it. */
    const useFallback: bool

    constructor (useFallback: bool)
      ensures fresh(simpleMemory) && simpleMemory.Valid()
      ensures simpleMemory.episodes == map[] && simpleMemory.episodeList == []
      ensures this.useFallback == useFallback
    {
      simpleMemory := new SimpleMemory();
      this.useFallback := useFallback;
    }

    /**
     * `store_episode`: cleans the metadata and stores the episode under the
     * fresh id `episodeId` in the local memory, whether or not the vector
     * store is in use; returns that id.
     */
    method StoreEpisode(content: string, episodeType: string, metadata: Option<seq<(string, Value)>>,
                        episodeId: string, timestamp: string, now: Time) returns (id: string)
      requires simpleMemory.Valid()
      modifies simpleMemory
      ensures simpleMemory.Valid()
      ensures id == episodeId
      ensures simpleMemory.episodes == StoredEpisodes(old(simpleMemory.episodes), old(simpleMemory.episodeList), id,
                                                      Episode(content, CleanMetadata(timestamp, episodeType, id, metadata), now))
      ensures simpleMemory.order == StoredOrder(old(simpleMemory.order), old(simpleMemory.episodes), old(simpleMemory.episodeList), id)
      ensures simpleMemory.episodeList == AppendBounded(old(simpleMemory.episodeList), id, EpisodeCap)
    {
      id := episodeId;
      var md := if metadata.Some? then metadata.value else [];
      var clean := BaseMetadata(timestamp, episodeType, id);
      var i := 0;
      while i < |md|
        invariant 0 <= i <= |md|
        invariant clean == AssignAll(BaseMetadata(timestamp, episodeType, id), CleanWrites(md[..i]))
      {
        var (key, value) := md[i];
        assert CleanWrites(md[..i + 1]) == CleanWrites(md[..i]) + [CleanWrite(md[i])];
        assert CleanWrites(md[..i + 1])[..i] == CleanWrites(md[..i]);
        if IsScalar(value) {
          clean := Assign(clean, key, value);
        } else {
          clean := Assign(clean, key + "_str", VStr(Take(Str(value), MetadataTextCap)));
        }
        i := i + 1;
      }
      assert md[..i] == md;
      simpleMemory.Store(id, content, clean, now);
    }
  }
}
