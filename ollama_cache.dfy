/**
 * `OllamaCache`: language-model results kept under a key derived from the
 * prompt, the model name and the request context, bounded in size with
 * oldest-first eviction, and expiring after a time to live.
 *
 * Expiry looks only at the seconds component of the entry's age (Python's
 * `timedelta.seconds`, which drops whole days), so an entry more than a day
 * old can read as fresh again; `ExpiryIgnoresWholeDays` and
 * `DayOldEntryLooksFresh` state this.
 */
module OllamaCache {
  import opened Wrappers
  import opened PyValue
  import opened Ordering
  import opened Seqs
  import opened Dicts

  /** Clock readings, in microseconds. */
  type Instant = int

  const MicrosPerSecond: int := 1000000
  const SecondsPerDay: int := 86400

  /** What `_generate_key` hashes: the prompt, the model and the context (`None` read as `{}`). */
  datatype Request = Request(prompt: string, model: string, context: map<string, Value>)

  function RequestOf(prompt: string, model: string, context: Option<map<string, Value>>): (r: Request)
    ensures r.prompt == prompt && r.model == model
    ensures r.context == if context.Some? then context.value else map[]
  {
    Request(prompt, model, if context.Some? then context.value else map[])
  }

  datatype CacheEntry = CacheEntry(
    content: string, modelUsed: string, processingTime: real, tokensUsed: int,
    confidence: real, timestamp: Instant, ttl: int)

  // ---------------------------------------------------------------------------
  // Expiry
  // ---------------------------------------------------------------------------

  /** `timedelta.seconds` of an age: whole seconds, without the whole days (floor division, as Python's). */
  function SecondsComponent(age: Instant): (s: int)
    ensures 0 <= s < SecondsPerDay
  {
    (age / MicrosPerSecond) % SecondsPerDay
  }

  /** `_is_expired`: the seconds component of the entry's age exceeds its time to live. */
  predicate Expired(e: CacheEntry, now: Instant) {
    SecondsComponent(now - e.timestamp) > e.ttl
  }

  /** Within its first day, an entry is expired exactly when more than `ttl` whole seconds have passed. */
  lemma ExpiredWithinADay(e: CacheEntry, now: Instant)
    requires 0 <= now - e.timestamp < SecondsPerDay * MicrosPerSecond
    ensures Expired(e, now) <==> (now - e.timestamp) / MicrosPerSecond > e.ttl
  {
    var secs := (now - e.timestamp) / MicrosPerSecond;
    assert 0 <= secs < SecondsPerDay;
  }

  /** Whole days of age make no difference to expiry. */
  lemma ExpiryIgnoresWholeDays(e: CacheEntry, now: Instant, days: int)
    ensures Expired(e, now + days * SecondsPerDay * MicrosPerSecond) == Expired(e, now)
  {
    var age := now - e.timestamp;
    var later := age + days * SecondsPerDay * MicrosPerSecond;
    assert later / MicrosPerSecond == age / MicrosPerSecond + days * SecondsPerDay by {
      assert later == (age / MicrosPerSecond + days * SecondsPerDay) * MicrosPerSecond + age % MicrosPerSecond;
    }
    assert (age / MicrosPerSecond + days * SecondsPerDay) % SecondsPerDay == (age / MicrosPerSecond) % SecondsPerDay by {
      var q := age / MicrosPerSecond;
      assert q + days * SecondsPerDay == (q / SecondsPerDay + days) * SecondsPerDay + q % SecondsPerDay;
    }
  }

  /** An entry with the default hour to live, a day and a second old, is not expired. */
  lemma DayOldEntryLooksFresh(e: CacheEntry)
    requires e.ttl == 3600
    ensures !Expired(e, e.timestamp + (SecondsPerDay + 1) * MicrosPerSecond)
  {
    ExpiryIgnoresWholeDays(e, e.timestamp + MicrosPerSecond, 1);
  }

  /** A time to live of 86399 seconds or more never expires. */
  lemma LongTtlNeverExpires(e: CacheEntry, now: Instant)
    requires e.ttl >= SecondsPerDay - 1
    ensures !Expired(e, now)
  {
  }

  // ---------------------------------------------------------------------------
  // The dictionary of entries
  // ---------------------------------------------------------------------------

  type Entries = seq<(string, CacheEntry)>

  /** `del cache[k]` for every `k` in `ks`: the other entries stay, in order. */
  function Delete(d: Entries, ks: set<string>): (r: Entries)
    ensures |r| <= |d|
    ensures forall i :: 0 <= i < |r| ==> r[i] in d && r[i].0 !in ks
    ensures forall i :: 0 <= i < |d| && d[i].0 !in ks ==> d[i] in r
  {
    if d == [] then []
    else
      var last := d[|d| - 1];
      var rest := Delete(d[..|d| - 1], ks);
      assert forall i :: 0 <= i < |d| - 1 ==> d[..|d| - 1][i] == d[i];
      rest + (if last.0 in ks then [] else [last])
  }

  lemma {:induction false} DeleteTwice(d: Entries, a: set<string>, b: set<string>)
    ensures Delete(Delete(d, a), b) == Delete(d, a + b)
  {
    if d != [] {
      var last := d[|d| - 1];
      DeleteTwice(d[..|d| - 1], a, b);
      var once := Delete(d, a);
      var rest := Delete(d[..|d| - 1], a);
      if last.0 !in a {
        assert once[..|once| - 1] == rest;
      } else {
        assert once == rest;
      }
    }
  }

  lemma {:induction false} DeleteNothing(d: Entries)
    ensures Delete(d, {}) == d
  {
    if d != [] {
      DeleteNothing(d[..|d| - 1]);
    }
  }

  /** The state of the deletion loop after its first `j` keys. */
  ghost predicate Deleting(d: Entries, ks: seq<string>, j: int, e: Entries) {
    0 <= j <= |ks| && e == Delete(d, Elems(ks[..j]))
  }

  /** Before the deletion loop nothing is deleted. */
  lemma DeletingStarts(d: Entries, ks: seq<string>)
    ensures Deleting(d, ks, 0, d)
  {
    DeleteNothing(d);
    assert Elems(ks[..0]) == {};
  }

  /** After the deletion loop every listed key is deleted. */
  lemma DeletingEnds(d: Entries, ks: seq<string>, e: Entries)
    requires Deleting(d, ks, |ks|, e)
    ensures e == Delete(d, Elems(ks))
  {
    assert ks[..|ks|] == ks;
  }

  /** One round of the deletion loop: `del cache[ks[j]]`. */
  method DeleteNext(d: Entries, ks: seq<string>, j: int, e: Entries) returns (e': Entries)
    requires Deleting(d, ks, j, e) && j < |ks|
    ensures Deleting(d, ks, j + 1, e')
  {
    DeleteStep(d, ks, j);
    e' := Delete(e, {ks[j]});
  }

  /** Deleting the keys of a list one at a time: the next key joins the deleted set. */
  lemma DeleteStep(d: Entries, ks: seq<string>, j: int)
    requires 0 <= j < |ks|
    ensures Delete(Delete(d, Elems(ks[..j])), {ks[j]}) == Delete(d, Elems(ks[..j + 1]))
  {
    DeleteTwice(d, Elems(ks[..j]), {ks[j]});
    assert ks[..j + 1] == ks[..j] + [ks[j]];
    assert Elems(ks[..j + 1]) == Elems(ks[..j]) + {ks[j]};
  }

  lemma {:induction false} DeleteAbsent(d: Entries, ks: set<string>, k: string)
    requires k !in Keys(d)
    ensures Delete(d, ks + {k}) == Delete(d, ks)
  {
    if d != [] {
      assert Keys(d)[|d| - 1] == d[|d| - 1].0;
      assert Keys(d[..|d| - 1]) == Keys(d)[..|d| - 1];
      DeleteAbsent(d[..|d| - 1], ks, k);
    }
  }

  /** Deleting a key that is stored once removes exactly one entry. */
  lemma {:induction false} DeleteOne(d: Entries, k: string)
    requires NoDup(Keys(d)) && k in Keys(d)
    ensures |Delete(d, {k})| == |d| - 1
  {
    var d' := d[..|d| - 1];
    assert Keys(d') == Keys(d)[..|d| - 1];
    if d[|d| - 1].0 == k {
      assert k !in Keys(d') by {
        forall i | 0 <= i < |d'| ensures Keys(d')[i] != k {
          assert Keys(d)[i] != Keys(d)[|d| - 1];
        }
      }
      DeleteNone(d', k);
    } else {
      assert k in Keys(d') by {
        var i :| 0 <= i < |d| && Keys(d)[i] == k;
        assert i < |d| - 1;
        assert Keys(d')[i] == k;
      }
      DeleteOne(d', k);
    }
  }

  /** Deleting an absent key changes nothing. */
  lemma {:induction false} DeleteNone(d: Entries, k: string)
    requires k !in Keys(d)
    ensures Delete(d, {k}) == d
  {
    if d != [] {
      var d' := d[..|d| - 1];
      assert Keys(d') == Keys(d)[..|d| - 1];
      assert Keys(d)[|d| - 1] == d[|d| - 1].0;
      DeleteNone(d', k);
    }
  }

  lemma DeleteKeepsNoDup(d: Entries, ks: set<string>)
    requires NoDup(Keys(d))
    ensures NoDup(Keys(Delete(d, ks)))
  {
    var r := Delete(d, ks);
    forall i, j | 0 <= i < j < |r| ensures Keys(r)[i] != Keys(r)[j] {
      DeleteOrdered(d, ks, i, j);
    }
  }

  /** Two entries that survive a deletion keep their relative order, so distinct positions hold distinct keys. */
  lemma {:induction false} DeleteOrdered(d: Entries, ks: set<string>, i: int, j: int)
    requires NoDup(Keys(d))
    requires 0 <= i < j < |Delete(d, ks)|
    ensures Delete(d, ks)[i].0 != Delete(d, ks)[j].0
  {
    var d' := d[..|d| - 1];
    var last := d[|d| - 1];
    var rest := Delete(d', ks);
    assert Keys(d') == Keys(d)[..|d| - 1];
    assert NoDup(Keys(d'));
    if j < |rest| {
      DeleteOrdered(d', ks, i, j);
    } else {
      assert Delete(d, ks)[j] == last;
      var p :| 0 <= p < |d'| && d'[p] == rest[i];
      assert Keys(d)[p] != Keys(d)[|d| - 1];
    }
  }

  // ---------------------------------------------------------------------------
  // Eviction and clean-up
  // ---------------------------------------------------------------------------

  function Timestamps(d: Entries): (ts: seq<Instant>)
    ensures |ts| == |d|
    ensures forall i :: 0 <= i < |d| ==> ts[i] == d[i].1.timestamp
  {
    seq(|d|, i requires 0 <= i < |d| => d[i].1.timestamp)
  }

  /**
   * `_evict_oldest`: deletes the key of the first entry with the earliest
   * timestamp; nothing happens to an empty cache.
   */
  function EvictOldest(d: Entries): (r: Entries)
    ensures d == [] ==> r == []
    ensures d != [] ==> exists p :: (0 <= p < |d| && r == Delete(d, {d[p].0})
      && (forall i :: 0 <= i < |d| ==> d[p].1.timestamp <= d[i].1.timestamp)
      && (forall i :: 0 <= i < p ==> d[p].1.timestamp < d[i].1.timestamp))
  {
    if d == [] then []
    else
      var oldest := ArgMinFirst(Timestamps(d));
      Delete(d, {d[oldest].0})
  }

  /** On a non-empty dictionary eviction removes exactly one entry. */
  lemma EvictOldestRemovesOne(d: Entries)
    requires NoDup(Keys(d)) && d != []
    ensures |EvictOldest(d)| == |d| - 1 && NoDup(Keys(EvictOldest(d)))
  {
    var oldest := ArgMinFirst(Timestamps(d));
    assert Keys(d)[oldest] == d[oldest].0;
    DeleteOne(d, d[oldest].0);
    DeleteKeepsNoDup(d, {d[oldest].0});
  }

  /** The keys of the expired entries, in dictionary order. */
  function ExpiredKeys(d: Entries, now: Instant): (ks: seq<string>)
    ensures forall k :: k in ks ==> k in Keys(d)
  {
    if d == [] then []
    else
      var last := d[|d| - 1];
      var rest := ExpiredKeys(d[..|d| - 1], now);
      assert Keys(d[..|d| - 1]) == Keys(d)[..|d| - 1];
      assert Keys(d)[|d| - 1] == last.0;
      rest + (if Expired(last.1, now) then [last.0] else [])
  }

  /** The unexpired entries, in dictionary order. */
  function FreshOnly(d: Entries, now: Instant): (r: Entries)
    ensures forall i :: 0 <= i < |r| ==> r[i] in d && !Expired(r[i].1, now)
    ensures forall i :: 0 <= i < |d| && !Expired(d[i].1, now) ==> d[i] in r
  {
    if d == [] then []
    else
      var last := d[|d| - 1];
      assert forall i :: 0 <= i < |d| - 1 ==> d[..|d| - 1][i] == d[i];
      FreshOnly(d[..|d| - 1], now) + (if Expired(last.1, now) then [] else [last])
  }

  function Elems(ks: seq<string>): set<string> {
    set k | k in ks
  }

  /** In a dictionary, deleting the expired keys leaves exactly the unexpired entries, in order. */
  lemma {:induction false} DeleteExpiredIsFreshOnly(d: Entries, now: Instant)
    requires NoDup(Keys(d))
    ensures Delete(d, Elems(ExpiredKeys(d, now))) == FreshOnly(d, now)
  {
    if d != [] {
      var d' := d[..|d| - 1];
      var last := d[|d| - 1];
      assert Keys(d') == Keys(d)[..|d| - 1];
      assert NoDup(Keys(d'));
      assert last.0 !in Keys(d') by {
        forall i | 0 <= i < |d'| ensures Keys(d')[i] != last.0 {
          assert Keys(d)[i] != Keys(d)[|d| - 1];
        }
      }
      var before := Elems(ExpiredKeys(d', now));
      DeleteExpiredIsFreshOnly(d', now);
      assert last.0 !in before;
      if Expired(last.1, now) {
        assert Elems(ExpiredKeys(d, now)) == before + {last.0};
        DeleteAbsent(d', before, last.0);
      } else {
        assert Elems(ExpiredKeys(d, now)) == before;
      }
    }
  }

  // ---------------------------------------------------------------------------
  // The cache
  // ---------------------------------------------------------------------------

  /** The size the cache stays within: `max_size`, or one entry when `max_size` is below one. */
  function Capacity(maxSize: int): nat {
    if maxSize >= 1 then maxSize else 1
  }

  /** `ttl or self.default_ttl`: an omitted or zero time to live takes the default. */
  function ResolvedTtl(ttl: Option<int>, defaultTtl: int): (r: int)
    ensures ttl.Some? && ttl.value != 0 ==> r == ttl.value
    ensures ttl.None? || ttl.value == 0 ==> r == defaultTtl
  {
    if ttl.None? || ttl.value == 0 then defaultTtl else ttl.value
  }

  /** `set`'s effect: evict the oldest entry when full, then store the new entry under its key. */
  function AfterSet(d: Entries, maxSize: int, key: string, e: CacheEntry): Entries {
    Assign(if |d| >= maxSize then EvictOldest(d) else d, key, e)
  }

  /** `get`'s answer: the stored entry, if there is one and it has not expired. */
  function Lookup(d: Entries, key: string, now: Instant): (r: Option<CacheEntry>)
    ensures r.Some? ==> Get(d, key) == r && !Expired(r.value, now)
    ensures Get(d, key).Some? && !Expired(Get(d, key).value, now) ==> r.Some?
  {
    match Get(d, key)
    case Some(e) => if Expired(e, now) then None else Some(e)
    case None => None
  }

  /** `get`'s effect: an expired entry found under the key is deleted. */
  function AfterGet(d: Entries, key: string, now: Instant): Entries {
    match Get(d, key)
    case Some(e) => if Expired(e, now) then Delete(d, {key}) else d
    case None => d
  }

  ghost predicate CacheOk(d: Entries, maxSize: int) {
    NoDup(Keys(d)) && |d| <= Capacity(maxSize)
  }

  /** `set` keeps the cache a dictionary within its capacity. */
  lemma SetKeepsCacheOk(d: Entries, maxSize: int, key: string, e: CacheEntry)
    requires CacheOk(d, maxSize)
    ensures CacheOk(AfterSet(d, maxSize, key, e), maxSize)
  {
    var d' := if |d| >= maxSize then EvictOldest(d) else d;
    if |d| >= maxSize && d != [] {
      EvictOldestRemovesOne(d);
    }
    assert NoDup(Keys(d')) && |d'| < Capacity(maxSize);
    AssignUnique(d', key, e);
  }

  /** `get` keeps the cache a dictionary within its capacity. */
  lemma GetKeepsCacheOk(d: Entries, maxSize: int, key: string, now: Instant)
    requires CacheOk(d, maxSize)
    ensures CacheOk(AfterGet(d, key, now), maxSize)
  {
    DeleteKeepsNoDup(d, {key});
  }

  /** Right after a `set`, a `get` of the same request at the same moment returns the new entry, if its time to live is not negative. */
  lemma SetThenGet(d: Entries, maxSize: int, key: string, e: CacheEntry)
    requires e.ttl >= 0
    ensures Lookup(AfterSet(d, maxSize, key, e), key, e.timestamp) == Some(e)
  {
    AssignThenGet(if |d| >= maxSize then EvictOldest(d) else d, key, e, key);
  }

  /** A `set` leaves every other key's entry alone unless eviction removed it. */
  lemma SetKeepsOthers(d: Entries, maxSize: int, key: string, e: CacheEntry, other: string)
    requires other != key
    requires |d| < maxSize
    ensures Get(AfterSet(d, maxSize, key, e), other) == Get(d, other)
  {
    AssignThenGet(d, key, e, other);
  }

  class Cache {
    const maxSize: int
    const defaultTtl: int
    /** `_generate_key`: the digest of the request; any function of the request stands for it here. */
    const keyOf: Request -> string
    var entries: Entries

    ghost predicate Valid()
      reads this
    {
      CacheOk(entries, maxSize)
    }

    constructor (maxSize: int, defaultTtl: int, keyOf: Request -> string)
      ensures Valid()
      ensures this.maxSize == maxSize && this.defaultTtl == defaultTtl && this.keyOf == keyOf
      ensures entries == []
    {
      this.maxSize := maxSize;
      this.defaultTtl := defaultTtl;
      this.keyOf := keyOf;
      entries := [];
    }

    /** `get`: the unexpired entry for the request, deleting it if it has expired. */
    method GetEntry(prompt: string, model: string, context: Option<map<string, Value>>, now: Instant)
      returns (r: Option<CacheEntry>)
      requires Valid()
      modifies this
      ensures Valid()
      ensures r == Lookup(old(entries), keyOf(RequestOf(prompt, model, context)), now)
      ensures entries == AfterGet(old(entries), keyOf(RequestOf(prompt, model, context)), now)
    {
      var key := keyOf(RequestOf(prompt, model, context));
      GetKeepsCacheOk(entries, maxSize, key, now);
      r := None;
      match Get(entries, key)
      case Some(entry) =>
        if !Expired(entry, now) {
          r := Some(entry);
        } else {
          entries := Delete(entries, {key});
        }
      case None =>
    }

    /** `set`: evicts the oldest entry when full, then stores the result stamped `now`. */
    method SetEntry(prompt: string, model: string, content: string, processingTime: real, tokensUsed: int,
                    confidence: real, context: Option<map<string, Value>>, ttl: Option<int>, now: Instant)
      requires Valid()
      modifies this
      ensures Valid()
      ensures entries == AfterSet(old(entries), maxSize, keyOf(RequestOf(prompt, model, context)),
        CacheEntry(content, model, processingTime, tokensUsed, confidence, now, ResolvedTtl(ttl, defaultTtl)))
    {
      var key := keyOf(RequestOf(prompt, model, context));
      var entry := CacheEntry(content, model, processingTime, tokensUsed, confidence, now, ResolvedTtl(ttl, defaultTtl));
      SetKeepsCacheOk(entries, maxSize, key, entry);
      if |entries| >= maxSize {
        entries := EvictOldest(entries);
      }
      entries := Assign(entries, key, entry);
    }

    /** `cleanup_expired`: lists the expired keys, then deletes them. */
    method CleanupExpired(now: Instant)
      requires Valid()
      modifies this
      ensures Valid()
      ensures entries == FreshOnly(old(entries), now)
    {
      var expiredKeys := ExpiredKeys(entries, now);
      DeleteExpiredIsFreshOnly(entries, now);
      DeleteKeepsNoDup(entries, Elems(expiredKeys));
      DeleteKeys(expiredKeys);
    }

    /** The deletion loop of `cleanup_expired`: `del self.cache[key]` for each listed key. */
    method DeleteKeys(ks: seq<string>)
      modifies this
      ensures entries == Delete(old(entries), Elems(ks))
    {
      var d0 := entries;
      var e := d0;
      DeletingStarts(d0, ks);
      var j := 0;
      while j < |ks|
        invariant j <= |ks| && Deleting(d0, ks, j, e)
      {
        e := DeleteNext(d0, ks, j, e);
        j := j + 1;
      }
      DeletingEnds(d0, ks, e);
      entries := e;
    }
  }
}
