/**
 * The two-tier TTL cache in front of the adapters: a process-wide memory map
 * checked first, then one JSON file per key under the cache directory, then
 * the producing function.  Expiry times are milliseconds; an entry is fresh
 * while its expiry lies strictly after the current time.
 */
module Cache {
  import opened Wrappers

  datatype Entry<T> = Entry(data: T, expiry: int)

  /** What a cache file holds: an entry, or text that does not parse as one. */
  datatype FileSlot<T> = Stored(entry: Entry<T>) | Corrupt

  /** The file system's behaviour during one call: whether reading and writing the file throw. */
  datatype FileAccess = FileAccess(readFails: bool, writeFails: bool)

  /** Both tiers: memory by key, files by path. */
  datatype Tiers<T> = Tiers(memory: map<string, Entry<T>>, files: map<string, FileSlot<T>>)

  /** What one lookup does: the new tiers, its result, and whether it called the producer. */
  datatype Outcome<T> = Outcome(tiers: Tiers<T>, result: Result<T>, fetched: bool)

  const CacheDir: string := "/tmp"

  /** The file of a key. */
  function FilePath(key: string): (path: string)
    ensures |path| == |key| + 16
  {
    CacheDir + "/cache_" + key + ".json"
  }

  /** Distinct keys have distinct files, so a call touches no other key's file. */
  lemma FilePathInjective(k1: string, k2: string)
    requires FilePath(k1) == FilePath(k2)
    ensures k1 == k2
  {
    var p := FilePath(k1);
    assert k1 == p[11..|p| - 5];
    assert k2 == FilePath(k2)[11..|FilePath(k2)| - 5];
  }

  predicate MemoryHit<T>(t: Tiers<T>, key: string, now: int) {
    key in t.memory && t.memory[key].expiry > now
  }

  /** The file exists, reads, parses, and holds an entry that has not expired. */
  predicate FileHit<T>(t: Tiers<T>, key: string, now: int, io: FileAccess) {
    && !io.readFails
    && FilePath(key) in t.files
    && t.files[FilePath(key)].Stored?
    && t.files[FilePath(key)].entry.expiry > now
  }

  /**
   * `getCachedData`: a fresh memory entry is returned as is; else a fresh
   * file entry is returned and copied into memory; else the producer runs
   * once, and its value is stored in memory and, unless writing fails, in
   * the file, expiring `ttlSeconds` after the call began.  A failing
   * producer fails the call and stores nothing.
   */
  function Lookup<T>(t: Tiers<T>, key: string, ttlSeconds: int, now: int, io: FileAccess,
                     fetchFn: () -> Result<T>): (o: Outcome<T>)
    ensures o.fetched <==> !MemoryHit(t, key, now) && !FileHit(t, key, now, io)
    ensures !o.fetched ==> o.result.Success? && o.tiers.files == t.files
    ensures o.result.Failure? ==> o.fetched && o.tiers == t
    ensures o.result.Success? ==> key in o.tiers.memory && o.tiers.memory[key].data == o.result.value
  {
    if MemoryHit(t, key, now) then
      Outcome(t, Success(t.memory[key].data), false)
    else if FileHit(t, key, now, io) then
      var e := t.files[FilePath(key)].entry;
      Outcome(Tiers(t.memory[key := e], t.files), Success(e.data), false)
    else
      match fetchFn()
      case Failure(err) => Outcome(t, Failure(err), true)
      case Success(v) =>
        var e := Entry(v, now + ttlSeconds * 1000);
        var files := if io.writeFails then t.files else t.files[FilePath(key) := Stored(e)];
        Outcome(Tiers(t.memory[key := e], files), Success(v), true)
  }

  class TwoTierCache<T> {
    var memory: map<string, Entry<T>>
    var files: map<string, FileSlot<T>>
    /** How often a producer has been called through this cache. */
    ghost var fetchCalls: nat

    constructor ()
      ensures memory == map[] && files == map[] && fetchCalls == 0
    {
      memory := map[];
      files := map[];
      fetchCalls := 0;
    }

    function State(): Tiers<T>
      reads this
    {
      Tiers(memory, files)
    }

    /** One call, tier by tier; the new state and the call count follow `Lookup`. */
    method GetCachedData(key: string, ttlSeconds: int, now: int, io: FileAccess, fetchFn: () -> Result<T>)
      returns (r: Result<T>)
      modifies this
      ensures var o := Lookup(old(State()), key, ttlSeconds, now, io, fetchFn);
        && State() == o.tiers && r == o.result
        && fetchCalls == old(fetchCalls) + (if o.fetched then 1 else 0)
    {
      if key in memory {
        var memEntry := memory[key];
        if memEntry.expiry > now {
          return Success(memEntry.data);
        }
      }

      var filePath := FilePath(key);
      if !io.readFails && filePath in files {
        var slot := files[filePath];
        if slot.Stored? && slot.entry.expiry > now {
          memory := memory[key := slot.entry];
          return Success(slot.entry.data);
        }
      }

      var fetched := fetchFn();
      fetchCalls := fetchCalls + 1;
      if fetched.Failure? {
        return Failure(fetched.error);
      }
      var data := fetched.value;
      var entry := Entry(data, now + ttlSeconds * 1000);
      memory := memory[key := entry];
      if !io.writeFails {
        files := files[filePath := Stored(entry)];
      }
      r := Success(data);
    }
  }

  // ---- what the cache promises ----

  /**
   * A hit in either tier never calls the producer and returns the stored
   * data; a file hit copies the stored entry, expiry included, into memory.
   */
  lemma HitNeverFetches<T>(t: Tiers<T>, key: string, ttl: int, now: int, io: FileAccess, fetchFn: () -> Result<T>)
    requires MemoryHit(t, key, now) || FileHit(t, key, now, io)
    ensures var o := Lookup(t, key, ttl, now, io, fetchFn);
      && !o.fetched
      && o.result == Success(if MemoryHit(t, key, now) then t.memory[key].data else t.files[FilePath(key)].entry.data)
      && o.tiers.files == t.files
      && (MemoryHit(t, key, now) ==> o.tiers == t)
      && (!MemoryHit(t, key, now) ==> o.tiers.memory == t.memory[key := t.files[FilePath(key)].entry])
  {
  }

  /**
   * A miss calls the producer exactly once and returns what it returns; a
   * failure leaves both tiers as they were.
   */
  lemma MissFetchesOnce<T>(t: Tiers<T>, key: string, ttl: int, now: int, io: FileAccess, fetchFn: () -> Result<T>)
    requires !MemoryHit(t, key, now) && !FileHit(t, key, now, io)
    ensures var o := Lookup(t, key, ttl, now, io, fetchFn);
      && o.fetched && o.result == fetchFn()
      && (o.result.Failure? ==> o.tiers == t)
      && (o.result.Success? ==>
            o.tiers.memory == t.memory[key := Entry(o.result.value, now + ttl * 1000)]
            && (io.writeFails ==> o.tiers.files == t.files)
            && (!io.writeFails ==> o.tiers.files == t.files[FilePath(key) := Stored(Entry(o.result.value, now + ttl * 1000))]))
  {
  }

  /**
   * Only the requested key's memory entry and file can change, and nothing
   * is ever removed: expired entries stay until overwritten.
   */
  lemma OnlyTheKeyChanges<T>(t: Tiers<T>, key: string, ttl: int, now: int, io: FileAccess, fetchFn: () -> Result<T>)
    ensures var o := Lookup(t, key, ttl, now, io, fetchFn);
      && t.memory.Keys <= o.tiers.memory.Keys <= t.memory.Keys + {key}
      && t.files.Keys <= o.tiers.files.Keys <= t.files.Keys + {FilePath(key)}
      && (forall k :: k in t.memory && k != key ==> o.tiers.memory[k] == t.memory[k])
      && (forall p :: p in t.files && p != FilePath(key) ==> o.tiers.files[p] == t.files[p])
  {
  }

  /** After a successful call the key's memory entry holds the returned data. */
  lemma SuccessFillsMemory<T>(t: Tiers<T>, key: string, ttl: int, now: int, io: FileAccess, fetchFn: () -> Result<T>)
    requires Lookup(t, key, ttl, now, io, fetchFn).result.Success?
    ensures var o := Lookup(t, key, ttl, now, io, fetchFn);
      && key in o.tiers.memory
      && o.tiers.memory[key].data == o.result.value
      && (!o.fetched || ttl > 0 ==> o.tiers.memory[key].expiry > now)
  {
  }

  /**
   * Within the lifetime of the entry a successful call leaves, a second call
   * for the same key is a memory hit returning the same data, whatever the
   * file system and the producer do then.
   */
  lemma RepeatWithinTtlHits<T>(t: Tiers<T>, key: string, ttl: int, now: int, io: FileAccess, fetchFn: () -> Result<T>,
                               ttl2: int, now2: int, io2: FileAccess, fetchFn2: () -> Result<T>)
    requires Lookup(t, key, ttl, now, io, fetchFn).result.Success?
    requires now2 < Lookup(t, key, ttl, now, io, fetchFn).tiers.memory[key].expiry
    ensures var o := Lookup(t, key, ttl, now, io, fetchFn);
      Lookup(o.tiers, key, ttl2, now2, io2, fetchFn2) == Outcome(o.tiers, o.result, false)
  {
    SuccessFillsMemory(t, key, ttl, now, io, fetchFn);
  }

  /** A fresh cache: the first call for a key calls the producer once. */
  lemma FirstCallFetches<T>(key: string, ttl: int, now: int, io: FileAccess, fetchFn: () -> Result<T>)
    ensures Lookup(Tiers(map[], map[]), key, ttl, now, io, fetchFn).fetched
  {
  }

  /** Expiry is strict: an entry whose expiry equals the current time is not a hit. */
  lemma ExpiryIsStrict<T>(t: Tiers<T>, key: string, now: int)
    requires key in t.memory && t.memory[key].expiry == now
    ensures !MemoryHit(t, key, now)
  {
  }
}
