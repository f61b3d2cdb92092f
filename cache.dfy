/**
 * The local character-data cache (`characterCache.ts`): one optional record of
 * a user's stats and skills, tagged with a 32-bit rolling hash of its fields,
 * kept for five minutes and mirrored to the browser's local storage.
 *
 * The clock is a parameter (`now`, in milliseconds). `JSON.stringify` is a
 * function the cache is given (`stringify`), from the hashed fields to the
 * UTF-16 code units of their JSON text; the stored entry is kept as the record
 * it parses back to.
 */
module CharacterCacheModel {
  import opened Wrappers
  import opened MissionRecords

  /** How long a record stays valid: five minutes, in milliseconds. */
  const CacheDuration: int := 5 * 60 * 1000

  /** A UTF-16 code unit, as `charCodeAt` returns it. */
  type CodeUnit = x: int | 0 <= x < 0x1_0000

  datatype CachedCharacterData = CachedCharacterData(
    stats: Option<CharacterStats>,
    skills: seq<UserSkill>,
    lastUpdated: int,
    userId: string,
    version: string)

  /** The object that is hashed: `{ userId, stats, skills, lastUpdated }`, in that key order. */
  datatype HashInput = HashInput(
    userId: string, stats: Option<CharacterStats>, skills: seq<UserSkill>, lastUpdated: int)

  /** What `getCachedData` hands out. */
  datatype CharacterData = CharacterData(stats: Option<CharacterStats>, skills: seq<UserSkill>)

  // ---------------------------------------------------------------------------
  // 32-bit arithmetic

  const TwoTo32: int := 0x1_0000_0000
  const TwoTo31: int := 0x8000_0000

  predicate IsInt32(x: int) {
    -TwoTo31 <= x < TwoTo31
  }

  /** `ToInt32`: the signed 32-bit integer congruent to `x` modulo 2^32. */
  function Wrap32(x: int): (r: int)
    ensures IsInt32(r)
    ensures r % TwoTo32 == x % TwoTo32
  {
    var m := x % TwoTo32;
    if m >= TwoTo31 then m - TwoTo32 else m
  }

  /** Numbers congruent modulo 2^32 wrap to the same 32-bit integer. */
  lemma Wrap32Congruent(x: int, y: int)
    requires x % TwoTo32 == y % TwoTo32
    ensures Wrap32(x) == Wrap32(y)
  {
  }

  /** A 32-bit integer wraps to itself. */
  lemma Wrap32Identity(x: int)
    requires IsInt32(x)
    ensures Wrap32(x) == x
  {
  }

  /**
   * One step of the loop, `((hash << 5) - hash) + char` followed by `hash & hash`,
   * is `31 * hash + char` wrapped to 32 bits.
   */
  lemma ShiftSubtractStep(h: int, c: int)
    requires IsInt32(h)
    ensures Wrap32(Wrap32(h * 32) - h + c) == Wrap32(31 * h + c)
  {
    var w := Wrap32(h * 32);
    assert (w - h + c) % TwoTo32 == (31 * h + c) % TwoTo32 by {
      assert w % TwoTo32 == (h * 32) % TwoTo32;
      var k := (w - h * 32) / TwoTo32;
      assert w - h * 32 == k * TwoTo32;
      assert w - h + c == (31 * h + c) + k * TwoTo32;
    }
    Wrap32Congruent(w - h + c, 31 * h + c);
  }

  // ---------------------------------------------------------------------------
  // The integrity tag

  /** The rolling hash of a text: a left fold `h := wrap32(31 * h + unit)` from 0. */
  function RollingHash(units: seq<CodeUnit>): (h: int)
    ensures IsInt32(h)
  {
    if units == [] then 0
    else Wrap32(31 * RollingHash(units[..|units| - 1]) + units[|units| - 1])
  }

  function Abs(x: int): nat {
    if x < 0 then -x else x
  }

  predicate IsBase36Digit(c: char) {
    '0' <= c <= '9' || 'a' <= c <= 'z'
  }

  function Base36Digit(d: nat): (c: char)
    requires d < 36
    ensures IsBase36Digit(c)
  {
    if d < 10 then ('0' as int + d) as char else ('a' as int + d - 10) as char
  }

  function DigitValue(c: char): nat {
    if '0' <= c <= '9' then c as int - '0' as int
    else if 'a' <= c <= 'z' then c as int - 'a' as int + 10
    else 0
  }

  /** `n.toString(36)`: lower-case base-36 digits, most significant first. */
  function ToBase36(n: nat): (s: string)
    ensures |s| >= 1
    ensures forall i :: 0 <= i < |s| ==> IsBase36Digit(s[i])
    decreases n
  {
    if n < 36 then [Base36Digit(n)] else ToBase36(n / 36) + [Base36Digit(n % 36)]
  }

  /** The number a string of base-36 digits stands for. */
  function FromBase36(s: string): nat {
    if s == [] then 0 else 36 * FromBase36(s[..|s| - 1]) + DigitValue(s[|s| - 1])
  }

  /** Reading the digits back gives the number: distinct hash values give distinct tags. */
  lemma {:induction false} Base36RoundTrip(n: nat)
    ensures FromBase36(ToBase36(n)) == n
    decreases n
  {
    var s := ToBase36(n);
    if n >= 36 {
      Base36RoundTrip(n / 36);
      assert s[..|s| - 1] == ToBase36(n / 36);
    }
  }

  /** The tag `generateDataHash` computes for a JSON text. */
  function DataHash(json: seq<CodeUnit>): string {
    ToBase36(Abs(RollingHash(json)))
  }

  /** The tag is made of base-36 digits and reads back as the magnitude of the 32-bit hash. */
  lemma DataHashDecodes(json: seq<CodeUnit>)
    ensures var tag := DataHash(json);
      |tag| >= 1 && (forall i :: 0 <= i < |tag| ==> IsBase36Digit(tag[i]))
      && FromBase36(tag) == Abs(RollingHash(json)) && FromBase36(tag) <= TwoTo31
  {
    Base36RoundTrip(Abs(RollingHash(json)));
  }

  /** `generateDataHash(data)`. */
  method GenerateDataHash(stringify: HashInput -> seq<CodeUnit>, data: HashInput) returns (tag: string)
    ensures tag == DataHash(stringify(data))
  {
    var jsonString := stringify(data);
    var hash := 0;
    for i := 0 to |jsonString|
      invariant hash == RollingHash(jsonString[..i])
    {
      assert jsonString[..i + 1][..i] == jsonString[..i];
      var code := jsonString[i];
      ShiftSubtractStep(hash, code);
      hash := Wrap32(hash * 32) - hash + code;
      hash := Wrap32(hash);
    }
    assert jsonString[..|jsonString|] == jsonString;
    tag := ToBase36(Abs(hash));
  }

  /** The fields of a record that its tag covers. */
  function HashedFields(cached: CachedCharacterData): HashInput {
    HashInput(cached.userId, cached.stats, cached.skills, cached.lastUpdated)
  }

  /** The record's tag is the hash of its own fields. */
  predicate Intact(stringify: HashInput -> seq<CodeUnit>, cached: CachedCharacterData) {
    cached.version == DataHash(stringify(HashedFields(cached)))
  }

  /** `verifyDataIntegrity(cachedData)`. */
  method VerifyDataIntegrity(stringify: HashInput -> seq<CodeUnit>, cachedData: CachedCharacterData)
    returns (intact: bool)
    ensures intact <==> Intact(stringify, cachedData)
  {
    var expectedHash := GenerateDataHash(stringify, HashedFields(cachedData));
    intact := cachedData.version == expectedHash;
  }

  /** Changing a hashed field without changing the tag is caught whenever the JSON texts hash apart. */
  lemma TamperDetected(stringify: HashInput -> seq<CodeUnit>, cached: CachedCharacterData, tampered: CachedCharacterData)
    requires Intact(stringify, cached) && tampered.version == cached.version
    requires Abs(RollingHash(stringify(HashedFields(tampered)))) != Abs(RollingHash(stringify(HashedFields(cached))))
    ensures !Intact(stringify, tampered)
  {
    Base36RoundTrip(Abs(RollingHash(stringify(HashedFields(tampered)))));
    Base36RoundTrip(Abs(RollingHash(stringify(HashedFields(cached)))));
  }

  // ---------------------------------------------------------------------------
  // Expiry and lookup rules

  /** `isCacheValid`: a record is valid until it is more than five minutes old. */
  predicate IsCacheValid(cachedData: CachedCharacterData, now: int) {
    now - cachedData.lastUpdated <= CacheDuration
  }

  /** What `getCachedData(userId)` returns for a cache content at time `now`. */
  function Lookup(cache: Option<CachedCharacterData>, userId: string, now: int): Option<CharacterData> {
    if cache.None? || cache.value.userId != userId then None
    else if !IsCacheValid(cache.value, now) then None
    else Some(CharacterData(cache.value.stats, cache.value.skills))
  }

  /** `shouldRefresh(userId)` for a cache content at time `now`: after half the cache duration. */
  predicate NeedsRefresh(cache: Option<CachedCharacterData>, userId: string, now: int) {
    cache.None? || cache.value.userId != userId || now - cache.value.lastUpdated > CacheDuration / 2
  }

  /** A record exactly five minutes old is still served; one a millisecond older is not. */
  lemma ExpiryBoundary(cached: CachedCharacterData)
    ensures IsCacheValid(cached, cached.lastUpdated + 300000)
    ensures !IsCacheValid(cached, cached.lastUpdated + 300001)
  {
  }

  /**
   * When no refresh is needed, the cache serves the stored stats and skills:
   * refreshing starts at half the time after which data stops being served.
   */
  lemma NoRefreshMeansHit(cache: Option<CachedCharacterData>, userId: string, now: int)
    requires !NeedsRefresh(cache, userId, now)
    ensures Lookup(cache, userId, now) == Some(CharacterData(cache.value.stats, cache.value.skills))
  {
  }

  /** Data is served only to its own user, and only while it is valid. */
  lemma LookupServesOwner(cache: Option<CachedCharacterData>, userId: string, now: int)
    ensures Lookup(cache, userId, now).Some? <==>
      cache.Some? && cache.value.userId == userId && IsCacheValid(cache.value, now)
  {
  }

  /** Two serialisers that give the same text for every input. */
  ghost predicate SameSerialiser(f: HashInput -> seq<CodeUnit>, g: HashInput -> seq<CodeUnit>) {
    forall x :: f(x) == g(x)
  }

  /** What the local-storage entry holds: text `JSON.parse` rejects, or a parsed record. */
  datatype StoredEntry = Unparsable | Stored(data: CachedCharacterData)

  /** The browser's local storage, reduced to the one entry the cache uses. */
  class LocalStorage {
    var entry: Option<StoredEntry>

    constructor(entry: Option<StoredEntry>)
      ensures this.entry == entry
    {
      this.entry := entry;
    }
  }

  class CharacterCache {
    const stringify: HashInput -> seq<CodeUnit>
    const storage: LocalStorage
    var cache: Option<CachedCharacterData>

    /** Every record the cache holds carries the right tag. */
    predicate Valid()
      reads this
    {
      cache.Some? ==> Intact(stringify, cache.value)
    }

    /** The private constructor: start empty, then load from storage. */
    constructor(stringify: HashInput -> seq<CodeUnit>, storage: LocalStorage, now: int)
      modifies storage
      ensures SameSerialiser(this.stringify, stringify) && this.storage == storage
      ensures Valid()
      ensures old(storage.entry).None? ==> cache.None? && storage.entry.None?
      ensures old(storage.entry) == Some(Unparsable) ==> cache.None? && storage.entry.None?
      ensures old(storage.entry).Some? && old(storage.entry).value.Stored? ==>
        var d := old(storage.entry).value.data;
        if IsCacheValid(d, now) && Intact(this.stringify, d)
        then cache == Some(d) && storage.entry == old(storage.entry)
        else cache.None? && storage.entry.None?
    {
      this.stringify := stringify;
      this.storage := storage;
      cache := None;
      new;
      LoadFromStorage(now);
    }

    /** `loadFromStorage`: adopt the stored record if it is valid and intact, else clear. */
    method LoadFromStorage(now: int)
      requires Valid()
      modifies this, storage
      ensures Valid()
      ensures old(storage.entry).None? ==> cache == old(cache) && storage.entry.None?
      ensures old(storage.entry) == Some(Unparsable) ==> cache.None? && storage.entry.None?
      ensures old(storage.entry).Some? && old(storage.entry).value.Stored? ==>
        var d := old(storage.entry).value.data;
        if IsCacheValid(d, now) && Intact(stringify, d)
        then cache == Some(d) && storage.entry == old(storage.entry)
        else cache.None? && storage.entry.None?
    {
      var cached := storage.entry;
      if cached.Some? {
        match cached.value {
          case Unparsable =>
            ClearCache();
          case Stored(parsedCache) =>
            var intact := VerifyDataIntegrity(stringify, parsedCache);
            if IsCacheValid(parsedCache, now) && intact {
              cache := Some(parsedCache);
            } else {
              ClearCache();
            }
        }
      }
    }

    /** `saveToStorage`: write the record, if any, to storage. */
    method SaveToStorage()
      modifies storage
      ensures cache.Some? ==> storage.entry == Some(Stored(cache.value))
      ensures cache.None? ==> storage.entry == old(storage.entry)
    {
      if cache.Some? {
        storage.entry := Some(Stored(cache.value));
      }
    }

    /** `getCachedData(userId)`: the stored data for its owner while valid; an expired record is cleared. */
    method GetCachedData(userId: string, now: int) returns (result: Option<CharacterData>)
      requires Valid()
      modifies this, storage
      ensures Valid()
      ensures result == Lookup(old(cache), userId, now)
      ensures old(cache).None? || old(cache).value.userId != userId ==>
        cache == old(cache) && storage.entry == old(storage.entry)
      ensures old(cache).Some? && old(cache).value.userId == userId && !IsCacheValid(old(cache).value, now) ==>
        cache.None? && storage.entry.None?
      ensures result.Some? ==> cache == old(cache) && storage.entry == old(storage.entry)
    {
      if cache.None? || cache.value.userId != userId {
        return None;
      }
      if !IsCacheValid(cache.value, now) {
        ClearCache();
        return None;
      }
      result := Some(CharacterData(cache.value.stats, cache.value.skills));
    }

    /** `updateCache(userId, stats, skills)`: store a freshly tagged record and save it. */
    method UpdateCache(userId: string, stats: Option<CharacterStats>, skills: seq<UserSkill>, now: int)
      modifies this, storage
      ensures Valid()
      ensures cache == Some(CachedCharacterData(
        stats, skills, now, userId, DataHash(stringify(HashInput(userId, stats, skills, now)))))
      ensures storage.entry == Some(Stored(cache.value))
    {
      var dataToHash := HashInput(userId, stats, skills, now);
      var version := GenerateDataHash(stringify, dataToHash);
      cache := Some(CachedCharacterData(stats, skills, now, userId, version));
      SaveToStorage();
    }

    /** `clearCache`: drop the record and the stored entry. */
    method ClearCache()
      modifies this, storage
      ensures Valid()
      ensures cache.None? && storage.entry.None?
    {
      cache := None;
      storage.entry := None;
    }

    /** `invalidateCache(userId)`: clear only a record that belongs to `userId`. */
    method InvalidateCache(userId: string)
      requires Valid()
      modifies this, storage
      ensures Valid()
      ensures old(cache).Some? && old(cache).value.userId == userId ==> cache.None? && storage.entry.None?
      ensures old(cache).None? || old(cache).value.userId != userId ==>
        cache == old(cache) && storage.entry == old(storage.entry)
    {
      if cache.Some? && cache.value.userId == userId {
        ClearCache();
      }
    }

    /** `shouldRefresh(userId)`. */
    function ShouldRefresh(userId: string, now: int): bool
      reads this
    {
      NeedsRefresh(cache, userId, now)
    }
  }

  /** An updated record is intact and is served back to its user until it expires. */
  lemma UpdateThenLookup(
    stringify: HashInput -> seq<CodeUnit>, userId: string, stats: Option<CharacterStats>,
    skills: seq<UserSkill>, updated: int, now: int)
    requires now - updated <= CacheDuration
    ensures var record := CachedCharacterData(
      stats, skills, updated, userId, DataHash(stringify(HashInput(userId, stats, skills, updated))));
      Intact(stringify, record)
      && Lookup(Some(record), userId, now) == Some(CharacterData(stats, skills))
      && forall other :: other != userId ==> Lookup(Some(record), other, now).None?
  {
  }

  /** A cleared cache serves nobody and asks for a refresh for everybody. */
  lemma ClearedServesNobody(userId: string, now: int)
    ensures Lookup(None, userId, now).None? && NeedsRefresh(None, userId, now)
  {
  }

  /**
   * `getInstance` and the single static instance it creates on first use; the
   * instance is built with the shared storage and serialiser.
   */
  class CacheRegistry {
    const stringify: HashInput -> seq<CodeUnit>
    const storage: LocalStorage
    var instance: CharacterCache?

    ghost predicate Valid()
      reads this, instance
    {
      instance != null ==> instance.storage == storage && SameSerialiser(instance.stringify, stringify)
    }

    constructor(stringify: HashInput -> seq<CodeUnit>, storage: LocalStorage)
      ensures SameSerialiser(this.stringify, stringify) && this.storage == storage && instance == null
      ensures Valid()
    {
      this.stringify := stringify;
      this.storage := storage;
      instance := null;
    }

    method GetInstance(now: int) returns (c: CharacterCache)
      requires Valid()
      modifies this, storage
      ensures Valid()
      ensures instance == c
      ensures old(instance) != null ==> c == old(instance) && storage.entry == old(storage.entry)
      ensures old(instance) == null ==> fresh(c) && c.Valid()
      ensures old(instance) == null && old(storage.entry).None? ==> c.cache.None? && storage.entry.None?
      ensures old(instance) == null && old(storage.entry) == Some(Unparsable) ==>
        c.cache.None? && storage.entry.None?
      ensures old(instance) == null && old(storage.entry).Some? && old(storage.entry).value.Stored? ==>
        var d := old(storage.entry).value.data;
        if IsCacheValid(d, now) && Intact(c.stringify, d)
        then c.cache == Some(d) && storage.entry == old(storage.entry)
        else c.cache.None? && storage.entry.None?
      ensures c.storage == storage && SameSerialiser(c.stringify, stringify)
    {
      if instance == null {
        instance := new CharacterCache(stringify, storage, now);
      }
      c := instance;
    }
  }

  /** Asking twice for the instance gives the same object both times. */
  method GetInstanceTwice(registry: CacheRegistry, now: int, later: int) returns (first: CharacterCache, second: CharacterCache)
    requires registry.Valid()
    modifies registry, registry.storage
    ensures first == second
  {
    first := registry.GetInstance(now);
    second := registry.GetInstance(later);
  }
}
