/**
 * The key/value cache of server/cache/cache.go.
 *
 * The cache talks to one Redis keyspace, which the Cache class holds as a
 * map from key to value. Items written by Set, the statistics counters
 * (cache:stats:hits, cache:stats:misses, cache:stats:sets), the size hash
 * (cache:stats:size, one field per key prefix) and tag sets (tag:<tag>) all
 * live in that one keyspace, so a pattern or a tag can reach any of them,
 * and a command on a key of the wrong type fails (WRONGTYPE) without
 * changing anything. Each operation's pipeline of store commands is a
 * method; the pure function beside it gives the reply and the keyspace it
 * leaves, and the lemmas below are about those functions.
 *
 * Times are nanoseconds (time.Time); the payload of an item is the JSON
 * text of the value passed to Set.
 */
module Cache {
  import opened Wrappers
  import opened Text

  const NanosPerMinute := 60 * 1_000_000_000

  /** cache.CacheConfig; ttl in nanoseconds. EnableCompression and MaxSize are never read. */
  datatype CacheConfig = CacheConfig(ttl: int, keyPrefix: string, enableCompression: bool, maxSize: int)

  const UserCacheConfig := CacheConfig(30 * NanosPerMinute, "user", false, 1000)
  const SessionCacheConfig := CacheConfig(24 * 60 * NanosPerMinute, "session", false, 5000)
  const APIResponseCacheConfig := CacheConfig(5 * NanosPerMinute, "api_response", false, 10000)
  const DatabaseQueryCacheConfig := CacheConfig(15 * NanosPerMinute, "db_query", false, 2000)

  /** cache.CacheItem; data is the JSON text of the cached value. */
  datatype CacheItem = CacheItem(data: string, expiresAt: int, version: int, tags: seq<string>)

  /**
   * A value in the keyspace: the JSON of a CacheItem, a decimal integer, any
   * other string (neither an item nor an integer), a hash of integer
   * fields, or a set of member strings.
   */
  datatype Value =
    | Encoded(item: CacheItem)
    | Integer(n: int)
    | OtherString(raw: string)
    | Fields(fields: map<string, int>)
    | Members(members: set<string>)

  type Store = map<string, Value>

  /** Why an operation returned an error. NilReply is redis.Nil surfacing from a pipeline. */
  datatype CacheError =
    | MarshalError
    | StoreError
    | WrongTypeError
    | NilReply
    | ItemDecodeError
    | DestDecodeError

  /** The reply of Get: found with the payload, not found, or an error. */
  datatype Lookup = Hit(data: string) | Miss | Failed(error: CacheError)

  const HitsKey := "cache:stats:hits"
  const MissesKey := "cache:stats:misses"
  const SetsKey := "cache:stats:sets"
  const SizeKey := "cache:stats:size"

  function FullKey(config: CacheConfig, key: string): string {
    config.keyPrefix + ":" + key
  }

  // ------------------------------------------------------ store commands

  /** A key INCR accepts: absent (counts as 0) or holding an integer. */
  predicate IsCounter(st: Store, key: string) {
    key !in st || st[key].Integer?
  }

  /** A key HINCRBY and HLEN accept: absent or holding a hash. */
  predicate IsHash(st: Store, key: string) {
    key !in st || st[key].Fields?
  }

  /** The integer a counter key holds, 0 when it holds none. */
  function Count(st: Store, key: string): int {
    if key in st && st[key].Integer? then st[key].n else 0
  }

  function FieldsOf(st: Store, key: string): map<string, int> {
    if key in st && st[key].Fields? then st[key].fields else map[]
  }

  function HashField(st: Store, key: string, field: string): int {
    var f := FieldsOf(st, key);
    if field in f then f[field] else 0
  }

  /** INCR: adds one to a counter; on any other value fails and changes nothing. */
  function Incr(st: Store, key: string): (r: (bool, Store))
    ensures r.0 <==> IsCounter(st, key)
    ensures r.0 ==> key in r.1 && r.1[key] == Integer(Count(st, key) + 1)
    ensures forall k :: k != key ==> (k in r.1 <==> k in st) && (k in st ==> r.1[k] == st[k])
    ensures !r.0 ==> r.1 == st
  {
    if IsCounter(st, key) then (true, st[key := Integer(Count(st, key) + 1)]) else (false, st)
  }

  /** HINCRBY: adds d to one field of a hash; on any other value fails and changes nothing. */
  function HIncrBy(st: Store, key: string, field: string, d: int): (r: (bool, Store))
    ensures r.0 <==> IsHash(st, key)
    ensures r.0 ==> HashField(r.1, key, field) == HashField(st, key, field) + d
    ensures r.0 ==> key in r.1 && r.1[key].Fields?
    ensures r.0 ==> forall g :: g != field ==> HashField(r.1, key, g) == HashField(st, key, g)
    ensures forall k :: k != key ==> (k in r.1 <==> k in st) && (k in st ==> r.1[k] == st[k])
    ensures !r.0 ==> r.1 == st
  {
    if IsHash(st, key) then
      (true, st[key := Fields(FieldsOf(st, key)[field := HashField(st, key, field) + d])])
    else (false, st)
  }

  /** Keys outside `changed` are untouched between two keyspaces. */
  ghost predicate SameOutside(st: Store, st': Store, changed: set<string>) {
    forall k :: k !in changed ==> (k in st' <==> k in st) && (k in st ==> st'[k] == st[k])
  }

  // -------------------------------------------------- the operations, as values

  /**
   * Cache.Set: the item under prefix:key (expiring ttl from now, version 1,
   * no tags), then INCR cache:stats:sets and HINCRBY cache:stats:size
   * <prefix> 1. The pipeline runs every command; its error is the first one.
   * encoded is json.Marshal's result on the value (None when it fails).
   */
  function SetStep(st: Store, key: string, encoded: Option<string>, config: CacheConfig, now: int)
    : (r: (Option<CacheError>, Store))
  {
    match encoded
    case None => (Some(MarshalError), st)
    case Some(data) =>
      var st1 := st[FullKey(config, key) := Encoded(CacheItem(data, now + config.ttl, 1, []))];
      var (setsOk, st2) := Incr(st1, SetsKey);
      var (sizeOk, st3) := HIncrBy(st2, SizeKey, config.keyPrefix, 1);
      (if setsOk && sizeOk then None else Some(WrongTypeError), st3)
  }

  /** Cache.Delete: DEL prefix:key, then HINCRBY cache:stats:size <prefix> -1, whether or not the key existed. */
  function DeleteStep(st: Store, key: string, config: CacheConfig): (r: (Option<CacheError>, Store))
  {
    var (sizeOk, st2) := HIncrBy(st - {FullKey(config, key)}, SizeKey, config.keyPrefix, -1);
    (if sizeOk then None else Some(WrongTypeError), st2)
  }

  /**
   * Cache.Get. fits says whether the payload decodes into the caller's
   * destination. The counter updates' own errors are ignored.
   */
  function GetStep(st: Store, key: string, config: CacheConfig, now: int, fits: string -> bool): (r: (Lookup, Store))
  {
    var full := FullKey(config, key);
    if full !in st then (Miss, Incr(st, MissesKey).1)
    else
      match st[full]
      case Fields(_) => (Failed(WrongTypeError), st)
      case Members(_) => (Failed(WrongTypeError), st)
      case Integer(_) => (Failed(ItemDecodeError), st)
      case OtherString(_) => (Failed(ItemDecodeError), st)
      case Encoded(item) =>
        if now > item.expiresAt then (Miss, Incr(DeleteStep(st, key, config).1, MissesKey).1)
        else if !fits(item.data) then (Failed(DestDecodeError), st)
        else (Hit(item.data), Incr(st, HitsKey).1)
  }

  /** Cache.InvalidateByPattern: DEL of every key KEYS matches; glob is Redis's pattern matcher. */
  function InvalidateByPatternStep(st: Store, pattern: string, glob: (string, string) -> bool): (r: Store)
  {
    st - (set k | k in st && glob(pattern, k))
  }

  function TagKey(tag: string): string {
    "tag:" + tag
  }

  /** Cache.InvalidateByTag: SMEMBERS tag:<tag>; when there are members, DEL them and the tag key. */
  function InvalidateByTagStep(st: Store, tag: string): (r: (Option<CacheError>, Store))
  {
    var tagKey := TagKey(tag);
    if tagKey in st && !st[tagKey].Members? then (Some(WrongTypeError), st)
    else
      var members := if tagKey in st then st[tagKey].members else {};
      if members == {} then (None, st) else (None, st - members - {tagKey})
  }

  // --------------------------------------------------------------- lemmas

  /**
   * Set always leaves the item under prefix:key, expiring ttl after now,
   * with version 1 and no tags; it adds one to the sets counter and to the
   * prefix's size field when those keys have the right type (and are not
   * the item's own key), reports an error exactly when one of them has not,
   * and touches no other key.
   */
  lemma {:induction false} SetWritesItem(st: Store, key: string, data: string, config: CacheConfig, now: int)
    ensures var (err, st') := SetStep(st, key, Some(data), config, now);
            var full := FullKey(config, key);
            var st1 := st[full := Encoded(CacheItem(data, now + config.ttl, 1, []))];
            && full in st' && st'[full] == Encoded(CacheItem(data, now + config.ttl, 1, []))
            && (err.None? <==> IsCounter(st1, SetsKey) && IsHash(st1, SizeKey))
            && (err.Some? ==> err == Some(WrongTypeError))
            && (IsCounter(st1, SetsKey) ==> Count(st', SetsKey) == Count(st, SetsKey) + 1)
            && (IsHash(st1, SizeKey) ==>
                  HashField(st', SizeKey, config.keyPrefix) == HashField(st, SizeKey, config.keyPrefix) + 1)
            && SameOutside(st, st', {full, SetsKey, SizeKey})
  {
    var full := FullKey(config, key);
    var st1 := st[full := Encoded(CacheItem(data, now + config.ttl, 1, []))];
    var (setsOk, st2) := Incr(st1, SetsKey);
    if IsCounter(st1, SetsKey) {
      assert full != SetsKey;
    }
    if IsHash(st1, SizeKey) {
      assert full != SizeKey;
      assert FieldsOf(st2, SizeKey) == FieldsOf(st, SizeKey);
    }
  }

  /** A marshalling failure writes nothing. */
  lemma {:induction false} SetMarshalFailure(st: Store, key: string, config: CacheConfig, now: int)
    ensures SetStep(st, key, None, config, now) == (Some(MarshalError), st)
  {
  }

  /** Get of an absent key is a miss: misses goes up by one (when it is a counter), nothing else changes. */
  lemma {:induction false} GetAbsentIsMiss(st: Store, key: string, config: CacheConfig, now: int, fits: string -> bool)
    requires FullKey(config, key) !in st
    ensures var (res, st') := GetStep(st, key, config, now, fits);
            && res == Miss
            && (IsCounter(st, MissesKey) ==> Count(st', MissesKey) == Count(st, MissesKey) + 1)
            && Count(st', HitsKey) == Count(st, HitsKey)
            && SameOutside(st, st', {MissesKey})
  {
  }

  /**
   * An item whose expiry time has passed (now strictly after it) is deleted
   * and reported as a miss; the prefix's size field goes down by one and the
   * misses counter up by one.
   */
  lemma {:induction false} GetExpiredIsMiss(st: Store, key: string, config: CacheConfig, now: int, fits: string -> bool)
    requires var full := FullKey(config, key);
             full in st && st[full].Encoded? && now > st[full].item.expiresAt
    requires IsHash(st, SizeKey) && IsCounter(st, MissesKey)
    ensures var (res, st') := GetStep(st, key, config, now, fits);
            var full := FullKey(config, key);
            && res == Miss
            && full !in st'
            && Count(st', MissesKey) == Count(st, MissesKey) + 1
            && HashField(st', SizeKey, config.keyPrefix) == HashField(st, SizeKey, config.keyPrefix) - 1
            && SameOutside(st, st', {full, SizeKey, MissesKey})
  {
    var full := FullKey(config, key);
    assert full != SizeKey && full != MissesKey;
    var st1 := DeleteStep(st, key, config).1;
    assert IsCounter(st1, MissesKey);
  }

  /** At exactly its expiry time an item is still served. */
  lemma {:induction false} GetAtExpiryIsHit(st: Store, key: string, config: CacheConfig, fits: string -> bool)
    requires var full := FullKey(config, key);
             full in st && st[full].Encoded? && fits(st[full].item.data)
    ensures var full := FullKey(config, key);
            GetStep(st, key, config, st[full].item.expiresAt, fits).0 == Hit(st[full].item.data)
  {
  }

  /**
   * A payload that does not decode (the stored string is no CacheItem, or
   * the item's data does not fit the destination) is an error that changes
   * no counter and no key.
   */
  lemma {:induction false} GetDecodeFailure(st: Store, key: string, config: CacheConfig, now: int, fits: string -> bool)
    requires var full := FullKey(config, key);
             full in st && (st[full].Integer? || st[full].OtherString?
                            || (st[full].Encoded? && now <= st[full].item.expiresAt && !fits(st[full].item.data)))
    ensures var (res, st') := GetStep(st, key, config, now, fits);
            res.Failed? && (res.error == ItemDecodeError || res.error == DestDecodeError) && st' == st
  {
  }

  /**
   * Round trip: a Get with the same key and configuration, no later than
   * the expiry Set gave the item, returns the payload Set stored, and adds
   * one to the hits counter when that is a counter.
   */
  lemma {:induction false} SetThenGet(st: Store, key: string, data: string, config: CacheConfig, now: int, later: int, fits: string -> bool)
    requires now <= later <= now + config.ttl
    requires fits(data)
    ensures var st1 := SetStep(st, key, Some(data), config, now).1;
            var (res, st2) := GetStep(st1, key, config, later, fits);
            && res == Hit(data)
            && (IsCounter(st1, HitsKey) ==> Count(st2, HitsKey) == Count(st1, HitsKey) + 1)
            && Count(st2, MissesKey) == Count(st1, MissesKey)
  {
    SetWritesItem(st, key, data, config, now);
  }

  /**
   * Delete removes the key and takes one off the prefix's size field on
   * every call: deleting twice leaves the key absent and the field two lower,
   * although at most one item went.
   */
  lemma {:induction false} DeleteTwice(st: Store, key: string, config: CacheConfig)
    requires IsHash(st, SizeKey) && FullKey(config, key) != SizeKey
    ensures var st1 := DeleteStep(st, key, config).1;
            var st2 := DeleteStep(st1, key, config).1;
            && FullKey(config, key) !in st1 && FullKey(config, key) !in st2
            && HashField(st2, SizeKey, config.keyPrefix) == HashField(st, SizeKey, config.keyPrefix) - 2
            && SameOutside(st, st2, {FullKey(config, key), SizeKey})
  {
    var full := FullKey(config, key);
    var st1 := DeleteStep(st, key, config).1;
    assert HashField(st - {full}, SizeKey, config.keyPrefix) == HashField(st, SizeKey, config.keyPrefix);
    assert IsHash(st1, SizeKey);
    assert HashField(st1 - {full}, SizeKey, config.keyPrefix) == HashField(st1, SizeKey, config.keyPrefix);
  }

  /** InvalidateByPattern deletes exactly the keys the pattern matches. */
  lemma {:induction false} InvalidateByPatternExact(st: Store, pattern: string, glob: (string, string) -> bool)
    ensures var st' := InvalidateByPatternStep(st, pattern, glob);
            forall k :: (k in st' <==> k in st && !glob(pattern, k)) && (k in st' ==> st'[k] == st[k])
  {
  }

  /**
   * InvalidateByTag deletes exactly the tag's members and the tag key,
   * does nothing when the tag has no members, and fails without change
   * when the tag key holds no set.
   */
  lemma {:induction false} InvalidateByTagExact(st: Store, tag: string)
    ensures var (err, st') := InvalidateByTagStep(st, tag);
            var tagKey := TagKey(tag);
            && (err.Some? <==> tagKey in st && !st[tagKey].Members?)
            && (err.Some? || tagKey !in st || st[tagKey].members == {} ==> st' == st)
            && (err.None? && tagKey in st && st[tagKey].members != {} ==>
                  forall k :: (k in st' <==> k in st && k !in st[tagKey].members && k != tagKey)
                              && (k in st' ==> st'[k] == st[k]))
  {
  }

  /** Set never records tags, so invalidating by any tag never removes an item Set wrote. */
  lemma {:induction false} SetRecordsNoTags(st: Store, key: string, data: string, config: CacheConfig, now: int, tag: string)
    requires TagKey(tag) !in st
    requires FullKey(config, key) != TagKey(tag)
    ensures var st1 := SetStep(st, key, Some(data), config, now).1;
            InvalidateByTagStep(st1, tag) == (None, st1)
  {
    SetWritesItem(st, key, data, config, now);
    assert TagKey(tag)[0] == 't' && SetsKey[0] == 'c' && SizeKey[0] == 'c';
  }

  // ----------------------------------------------------------- statistics

  /** cache.CacheStats; the hit rate is a real number here, a float64 in the source. */
  datatype CacheStats = CacheStats(hits: int, misses: int, hitRate: real, size: int, memory: string)

  /** The hit rate: hits / (hits + misses), and 0 when there has been no lookup. */
  function HitRate(hits: int, misses: int): (rate: real)
    ensures hits + misses <= 0 ==> rate == 0.0
    ensures hits >= 0 && misses >= 0 ==> 0.0 <= rate <= 1.0
    ensures hits >= 0 && misses >= 0 && hits + misses > 0 ==> rate * (hits + misses) as real == hits as real
  {
    if hits + misses > 0 then hits as real / (hits + misses) as real else 0.0
  }

  /** What a GET of one statistics counter makes of a key: no error, redis.Nil, or WRONGTYPE. */
  function GetError(st: Store, key: string): Option<CacheError> {
    if key !in st then Some(NilReply)
    else if st[key].Fields? || st[key].Members? then Some(WrongTypeError)
    else None
  }

  /** The first error of the GetStats pipeline: GET hits, GET misses, HLEN size, INFO memory. */
  function StatsError(st: Store): Option<CacheError> {
    if GetError(st, HitsKey).Some? then GetError(st, HitsKey)
    else if GetError(st, MissesKey).Some? then GetError(st, MissesKey)
    else if !IsHash(st, SizeKey) then Some(WrongTypeError)
    else None
  }

  /** The value of the line "used_memory_human:..." first found among lines, else "Unknown". */
  function MemoryUsage(lines: seq<string>): string {
    if lines == [] then "Unknown"
    else if HasPrefix(lines[0], MemoryField) then TrimPrefix(lines[0], MemoryField)
    else MemoryUsage(lines[1..])
  }

  const MemoryField := "used_memory_human:"

  /**
   * MemoryUsage is the first line that starts with the field name, with the
   * name removed; when no line does, it is "Unknown".
   */
  lemma {:induction false} MemoryUsageFirstMatch(lines: seq<string>)
    ensures (forall i :: 0 <= i < |lines| ==> !HasPrefix(lines[i], MemoryField)) ==> MemoryUsage(lines) == "Unknown"
    ensures forall i :: 0 <= i < |lines| && HasPrefix(lines[i], MemoryField)
                        && (forall j :: 0 <= j < i ==> !HasPrefix(lines[j], MemoryField))
                        ==> MemoryField + MemoryUsage(lines) == lines[i]
  {
    if lines != [] {
      MemoryUsageFirstMatch(lines[1..]);
      forall i | 0 <= i < |lines| && HasPrefix(lines[i], MemoryField)
                 && (forall j :: 0 <= j < i ==> !HasPrefix(lines[j], MemoryField))
        ensures MemoryField + MemoryUsage(lines) == lines[i]
      {
        if i > 0 {
          assert lines[1..][i - 1] == lines[i];
          assert forall j :: 0 <= j < i - 1 ==> lines[1..][j] == lines[j + 1];
        }
      }
    }
  }

  /** extractMemoryUsage: scans the INFO text's \r\n-separated lines in order, returning at the first match. */
  method ExtractMemoryUsage(info: string) returns (usage: string)
    ensures usage == MemoryUsage(Split(info, "\r\n"))
  {
    var lines := Split(info, "\r\n");
    var i := 0;
    while i < |lines|
      invariant 0 <= i <= |lines|
      invariant MemoryUsage(lines) == MemoryUsage(lines[i..])
    {
      if HasPrefix(lines[i], MemoryField) {
        return TrimPrefix(lines[i], MemoryField);
      }
      assert lines[i..][1..] == lines[i + 1..];
      i := i + 1;
    }
    return "Unknown";
  }

  // ------------------------------------------------------ cache keys

  /** What fmt's %v prints for the kinds of argument a query takes. */
  datatype QueryArg = IntArg(i: int) | StringArg(s: string) | BoolArg(b: bool)

  function FormatArg(a: QueryArg): string {
    match a
    case IntArg(i) => IntToString(i)
    case StringArg(s) => s
    case BoolArg(b) => if b then "true" else "false"
  }

  /** Everything generateQueryKey feeds the hash: the query, then each argument's %v text, unseparated. */
  function QueryKeyInput(query: string, args: seq<QueryArg>): string {
    if args == [] then query else QueryKeyInput(query, args[..|args| - 1]) + FormatArg(args[|args| - 1])
  }

  /** generateQueryKey: the first 16 hex digits of the SHA-256 of the query and its arguments. */
  method GenerateQueryKey(query: string, args: seq<QueryArg>, sha: Sha256) returns (key: string)
    ensures key == HexEncode(sha(QueryKeyInput(query, args)))[..16]
    ensures |key| == 16 && forall k :: 0 <= k < 16 ==> IsHexDigit(key[k])
  {
    var written := query;
    var i := 0;
    while i < |args|
      invariant 0 <= i <= |args|
      invariant written == QueryKeyInput(query, args[..i])
    {
      assert args[..i + 1][..i] == args[..i];
      written := written + FormatArg(args[i]);
      i := i + 1;
    }
    assert args[..|args|] == args;
    key := HexEncode(sha(written))[..16];
  }

  /**
   * The arguments are not delimited, so different calls can share a key:
   * the query "a" with the argument "b" is keyed like the query "ab".
   */
  lemma {:induction false} QueryKeysCollide()
    ensures QueryKeyInput("a", [StringArg("b")]) == QueryKeyInput("ab", [])
  {
    assert QueryKeyInput("a", [StringArg("b")]) == QueryKeyInput("a", []) + "b";
  }

  /** The key CacheUser/GetCachedUser (and the session pair) use for an id: "id:<id>". */
  function IdKey(id: int): string {
    "id:" + IntToString(id)
  }

  /** A user's entry is "user:id:" followed by the decimal id. */
  lemma {:induction false} UserIdKeyShape(a: int)
    ensures var k := FullKey(UserCacheConfig, IdKey(a));
            |k| >= 8 && k[0] == 'u' && k[8..] == IntToString(a)
  {
  }

  /** A session's entry starts with "session:". */
  lemma {:induction false} SessionIdKeyShape(b: int)
    ensures var k := FullKey(SessionCacheConfig, IdKey(b));
            |k| >= 1 && k[0] == 's'
  {
  }

  /** Distinct ids map to distinct users' entries, and a user's entry is never a session's. */
  lemma {:induction false} IdKeysSeparate(a: int, b: int)
    ensures FullKey(UserCacheConfig, IdKey(a)) == FullKey(UserCacheConfig, IdKey(b)) ==> a == b
    ensures FullKey(UserCacheConfig, IdKey(a)) != FullKey(SessionCacheConfig, IdKey(b))
  {
    UserIdKeyShape(a);
    UserIdKeyShape(b);
    SessionIdKeyShape(b);
    if FullKey(UserCacheConfig, IdKey(a)) == FullKey(UserCacheConfig, IdKey(b)) {
      IntToStringInjective(a, b);
    }
  }

  /** The key CacheAPIResponse uses: all 64 hex digits of the hash of endpoint and parameters. */
  function APIResponseKey(endpoint: string, params: string, sha: Sha256): (key: string)
    ensures |key| == 64
  {
    HexEncode(sha(endpoint + params))
  }

  /** Nothing separates endpoint from params, so two requests can share one key. */
  lemma {:induction false} APIResponseKeysCollide(sha: Sha256)
    ensures APIResponseKey("/a", "b", sha) == APIResponseKey("/ab", "", sha)
  {
    assert "/a" + "b" == "/ab" + "";
  }

  // ------------------------------------------------------------ the store

  /**
   * A cache over one Redis keyspace. storeDown stands for the connection
   * failing: the call returns an error and the keyspace is untouched.
   */
  class Cache {
    var store: Store

    constructor (initial: Store)
      ensures store == initial
    {
      store := initial;
    }

    method Set(key: string, encoded: Option<string>, config: CacheConfig, now: int, storeDown: bool)
      returns (err: Option<CacheError>)
      modifies this
      ensures encoded.Some? && storeDown ==> err == Some(StoreError) && store == old(store)
      ensures encoded.None? || !storeDown ==> (err, store) == SetStep(old(store), key, encoded, config, now)
    {
      if encoded.None? {
        return Some(MarshalError);
      }
      if storeDown {
        return Some(StoreError);
      }
      store := store[FullKey(config, key) := Encoded(CacheItem(encoded.value, now + config.ttl, 1, []))];
      var sets := Incr(store, SetsKey);
      store := sets.1;
      var size := HIncrBy(store, SizeKey, config.keyPrefix, 1);
      store := size.1;
      err := if sets.0 && size.0 then None else Some(WrongTypeError);
    }

    method Delete(key: string, config: CacheConfig, storeDown: bool) returns (err: Option<CacheError>)
      modifies this
      ensures storeDown ==> err == Some(StoreError) && store == old(store)
      ensures !storeDown ==> (err, store) == DeleteStep(old(store), key, config)
    {
      if storeDown {
        return Some(StoreError);
      }
      store := store - {FullKey(config, key)};
      var size := HIncrBy(store, SizeKey, config.keyPrefix, -1);
      store := size.1;
      err := if size.0 then None else Some(WrongTypeError);
    }

    method Get(key: string, config: CacheConfig, now: int, fits: string -> bool, storeDown: bool)
      returns (res: Lookup)
      modifies this
      ensures storeDown ==> res == Failed(StoreError) && store == old(store)
      ensures !storeDown ==> (res, store) == GetStep(old(store), key, config, now, fits)
    {
      if storeDown {
        return Failed(StoreError);
      }
      var full := FullKey(config, key);
      if full !in store {
        store := Incr(store, MissesKey).1;
        return Miss;
      }
      var v := store[full];
      if v.Fields? || v.Members? {
        return Failed(WrongTypeError);
      }
      if !v.Encoded? {
        return Failed(ItemDecodeError);
      }
      if now > v.item.expiresAt {
        var _ := Delete(key, config, false);
        store := Incr(store, MissesKey).1;
        return Miss;
      }
      if !fits(v.item.data) {
        return Failed(DestDecodeError);
      }
      store := Incr(store, HitsKey).1;
      return Hit(v.item.data);
    }

    method InvalidateByPattern(pattern: string, glob: (string, string) -> bool, storeDown: bool)
      returns (err: Option<CacheError>)
      modifies this
      ensures storeDown ==> err == Some(StoreError) && store == old(store)
      ensures !storeDown ==> err == None && store == InvalidateByPatternStep(old(store), pattern, glob)
    {
      if storeDown {
        return Some(StoreError);
      }
      var keys := set k | k in store && glob(pattern, k);
      if keys != {} {
        store := store - keys;
      }
      return None;
    }

    method InvalidateByTag(tag: string, storeDown: bool) returns (err: Option<CacheError>)
      modifies this
      ensures storeDown ==> err == Some(StoreError) && store == old(store)
      ensures !storeDown ==> (err, store) == InvalidateByTagStep(old(store), tag)
    {
      if storeDown {
        return Some(StoreError);
      }
      var tagKey := TagKey(tag);
      if tagKey in store && !store[tagKey].Members? {
        return Some(WrongTypeError);
      }
      var keys := if tagKey in store then store[tagKey].members else {};
      if |keys| > 0 {
        store := store - keys;
        store := store - {tagKey};
      }
      return None;
    }

    /**
     * GetStats. The pipeline fails with its first command's error, and a
     * GET of an absent counter is an error (redis.Nil) there: until both
     * counters exist there are no statistics. A counter holding no integer
     * reads as 0.
     */
    method GetStats(info: string, storeDown: bool) returns (r: Result<CacheStats, CacheError>)
      ensures storeDown ==> r == Err(StoreError)
      ensures !storeDown && StatsError(store).Some? ==> r == Err(StatsError(store).value)
      ensures !storeDown && StatsError(store).None? ==>
                && r.Ok?
                && r.value.hits == Count(store, HitsKey)
                && r.value.misses == Count(store, MissesKey)
                && r.value.hitRate == HitRate(r.value.hits, r.value.misses)
                && r.value.size == |FieldsOf(store, SizeKey)|
                && r.value.memory == MemoryUsage(Split(info, "\r\n"))
    {
      if storeDown {
        return Err(StoreError);
      }
      var err := StatsError(store);
      if err.Some? {
        return Err(err.value);
      }
      var hits := Count(store, HitsKey);
      var misses := Count(store, MissesKey);
      var hitRate := 0.0;
      if hits + misses > 0 {
        hitRate := hits as real / (hits + misses) as real;
      }
      var memory := ExtractMemoryUsage(info);
      return Ok(CacheStats(hits, misses, hitRate, |FieldsOf(store, SizeKey)|, memory));
    }

    method CacheUser(userId: int, encoded: Option<string>, now: int, storeDown: bool) returns (err: Option<CacheError>)
      modifies this
      ensures encoded.Some? && storeDown ==> err == Some(StoreError) && store == old(store)
      ensures encoded.None? || !storeDown ==>
                (err, store) == SetStep(old(store), IdKey(userId), encoded, UserCacheConfig, now)
    {
      err := Set(IdKey(userId), encoded, UserCacheConfig, now, storeDown);
    }

    method GetCachedUser(userId: int, now: int, fits: string -> bool, storeDown: bool) returns (res: Lookup)
      modifies this
      ensures storeDown ==> res == Failed(StoreError) && store == old(store)
      ensures !storeDown ==> (res, store) == GetStep(old(store), IdKey(userId), UserCacheConfig, now, fits)
    {
      res := Get(IdKey(userId), UserCacheConfig, now, fits, storeDown);
    }

    method CacheSession(sessionId: int, encoded: Option<string>, now: int, storeDown: bool)
      returns (err: Option<CacheError>)
      modifies this
      ensures encoded.Some? && storeDown ==> err == Some(StoreError) && store == old(store)
      ensures encoded.None? || !storeDown ==>
                (err, store) == SetStep(old(store), IdKey(sessionId), encoded, SessionCacheConfig, now)
    {
      err := Set(IdKey(sessionId), encoded, SessionCacheConfig, now, storeDown);
    }

    method GetCachedSession(sessionId: int, now: int, fits: string -> bool, storeDown: bool) returns (res: Lookup)
      modifies this
      ensures storeDown ==> res == Failed(StoreError) && store == old(store)
      ensures !storeDown ==> (res, store) == GetStep(old(store), IdKey(sessionId), SessionCacheConfig, now, fits)
    {
      res := Get(IdKey(sessionId), SessionCacheConfig, now, fits, storeDown);
    }

    method CacheAPIResponse(endpoint: string, params: string, sha: Sha256, encoded: Option<string>, now: int,
                            storeDown: bool) returns (err: Option<CacheError>)
      modifies this
      ensures encoded.Some? && storeDown ==> err == Some(StoreError) && store == old(store)
      ensures encoded.None? || !storeDown ==>
                (err, store) == SetStep(old(store), APIResponseKey(endpoint, params, sha), encoded,
                                        APIResponseCacheConfig, now)
    {
      err := Set(APIResponseKey(endpoint, params, sha), encoded, APIResponseCacheConfig, now, storeDown);
    }

    method GetCachedAPIResponse(endpoint: string, params: string, sha: Sha256, now: int, fits: string -> bool,
                                storeDown: bool) returns (res: Lookup)
      modifies this
      ensures storeDown ==> res == Failed(StoreError) && store == old(store)
      ensures !storeDown ==>
                (res, store) == GetStep(old(store), APIResponseKey(endpoint, params, sha), APIResponseCacheConfig,
                                        now, fits)
    {
      res := Get(APIResponseKey(endpoint, params, sha), APIResponseCacheConfig, now, fits, storeDown);
    }

    method CacheQuery(query: string, args: seq<QueryArg>, sha: Sha256, encoded: Option<string>, now: int,
                      storeDown: bool) returns (err: Option<CacheError>)
      modifies this
      ensures var key := HexEncode(sha(QueryKeyInput(query, args)))[..16];
              && (encoded.Some? && storeDown ==> err == Some(StoreError) && store == old(store))
              && (encoded.None? || !storeDown ==>
                    (err, store) == SetStep(old(store), key, encoded, DatabaseQueryCacheConfig, now))
    {
      var key := GenerateQueryKey(query, args, sha);
      err := Set(key, encoded, DatabaseQueryCacheConfig, now, storeDown);
    }

    method GetCachedQuery(query: string, args: seq<QueryArg>, sha: Sha256, now: int, fits: string -> bool,
                          storeDown: bool) returns (res: Lookup)
      modifies this
      ensures var key := HexEncode(sha(QueryKeyInput(query, args)))[..16];
              && (storeDown ==> res == Failed(StoreError) && store == old(store))
              && (!storeDown ==> (res, store) == GetStep(old(store), key, DatabaseQueryCacheConfig, now, fits))
    {
      var key := GenerateQueryKey(query, args, sha);
      res := Get(key, DatabaseQueryCacheConfig, now, fits, storeDown);
    }
  }
}
