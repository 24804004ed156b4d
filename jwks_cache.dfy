/**
 * The JWKS key cache (JwksCache): keys by key id, each with a time-to-live,
 * purged when found expired on `get` and all at once before every `put`, and
 * bounded by `maxKeys` with least-recently-used eviction.
 *
 * The source keeps the entries in a LinkedHashMap in access order with a
 * `removeEldestEntry` hook. Here the map is a sequence of entries, eldest
 * first: a lookup that finds a key moves its entry to the end, an insertion of
 * a new key appends it and then drops the first entry when the size exceeds
 * `maxKeys`, and a replacement of an existing key moves it to the end without
 * any eviction (LinkedHashMap consults the hook only on insertion).
 *
 * The clock is the parameter `nowSeconds` (Instant.now().getEpochSecond()).
 */
module KeyCache {
  import opened Common
  import opened Jose

  /** CachedKey: the key, when it was cached and when it expires. */
  datatype CachedKey = CachedKey(jwk: Jwk, cacheTime: int, expiryTime: int)

  /** CachedKey.isExpired: dead from the second `expiryTime` on. */
  predicate IsExpired(k: CachedKey, nowSeconds: int)
  {
    nowSeconds >= k.expiryTime
  }

  datatype Entry = Entry(keyId: string, key: CachedKey)

  // ---------------------------------------------------------------------
  // The access-ordered map as a sequence
  // ---------------------------------------------------------------------

  /** The position of the first entry for `k`. */
  function IndexOf(es: seq<Entry>, k: string): (r: Option<nat>)
    ensures r.Some? ==> r.value < |es| && es[r.value].keyId == k
    ensures r.Some? ==> forall j :: 0 <= j < r.value ==> es[j].keyId != k
    ensures r.None? <==> forall i :: 0 <= i < |es| ==> es[i].keyId != k
  {
    if es == [] then None
    else if es[0].keyId == k then Some(0)
    else
      var rest := IndexOf(es[1..], k);
      assert forall i :: 1 <= i < |es| ==> es[i] == es[1..][i - 1];
      if rest.None? then None else Some(rest.value + 1)
  }

  predicate HasKey(es: seq<Entry>, k: string)
  {
    IndexOf(es, k).Some?
  }

  /** Map.get without the reordering: the entry stored under `k`. */
  function Lookup(es: seq<Entry>, k: string): Option<CachedKey>
  {
    var i := IndexOf(es, k);
    if i.None? then None else Some(es[i.value].key)
  }

  /** Every key occurs at most once. */
  predicate DistinctKeys(es: seq<Entry>)
  {
    forall i, j :: 0 <= i < j < |es| ==> es[i].keyId != es[j].keyId
  }

  /** Map.remove: the entries for `k` are dropped, the others keep their order. */
  function RemoveKey(es: seq<Entry>, k: string): (r: seq<Entry>)
    ensures |r| <= |es|
  {
    if es == [] then []
    else
      assert es == [es[0]] + es[1..];
      (if es[0].keyId == k then [] else [es[0]]) + RemoveKey(es[1..], k)
  }

  /** What removal keeps: exactly the entries with another id. */
  lemma {:induction false} RemoveKeyMembers(es: seq<Entry>, k: string)
    ensures forall e :: e in RemoveKey(es, k) <==> e in es && e.keyId != k
  {
    if es != [] {
      RemoveKeyMembers(es[1..], k);
      assert es == [es[0]] + es[1..];
    }
  }

  /** Removing an absent key changes nothing. */
  lemma {:induction false} RemoveKeyAbsent(es: seq<Entry>, k: string)
    requires !HasKey(es, k)
    ensures RemoveKey(es, k) == es
  {
    if es != [] {
      assert forall i :: 0 <= i < |es[1..]| ==> es[1..][i] == es[i + 1];
      RemoveKeyAbsent(es[1..], k);
    }
  }

  /** Removal distributes over concatenation. */
  lemma {:induction false} RemoveKeyConcat(a: seq<Entry>, b: seq<Entry>, k: string)
    ensures RemoveKey(a + b, k) == RemoveKey(a, k) + RemoveKey(b, k)
  {
    if a == [] {
      assert a + b == b;
    } else {
      var t := a[1..];
      assert (a + b)[0] == a[0] && (a + b)[1..] == t + b;
      RemoveKeyConcat(t, b, k);
      var head := if a[0].keyId == k then [] else [a[0]];
      assert RemoveKey(a + b, k) == head + RemoveKey(t + b, k);
      assert RemoveKey(a, k) == head + RemoveKey(t, k);
    }
  }

  /** Removing a key that occurs only at position `i` is cutting position `i` out. */
  lemma {:induction false} RemoveKeyAt(es: seq<Entry>, i: nat)
    requires i < |es|
    requires forall j :: 0 <= j < |es| && j != i ==> es[j].keyId != es[i].keyId
    ensures RemoveKey(es, es[i].keyId) == es[..i] + es[i + 1..]
  {
    var k := es[i].keyId;
    var before, after := es[..i], es[i + 1..];
    assert es == before + ([es[i]] + after);
    RemoveKeyConcat(before, [es[i]] + after, k);
    RemoveKeyConcat([es[i]], after, k);
    assert !HasKey(before, k) by {
      assert forall j :: 0 <= j < |before| ==> before[j] == es[j];
    }
    assert !HasKey(after, k) by {
      assert forall j :: 0 <= j < |after| ==> after[j] == es[i + 1 + j];
    }
    RemoveKeyAbsent(before, k);
    RemoveKeyAbsent(after, k);
    assert RemoveKey([es[i]], k) == [];
  }

  /** A key that is present makes the removal shrink the sequence. */
  lemma {:induction false} RemoveKeyShrinks(es: seq<Entry>, k: string)
    requires HasKey(es, k)
    ensures |RemoveKey(es, k)| < |es|
  {
    if es[0].keyId != k {
      assert HasKey(es[1..], k) by {
        var i := IndexOf(es, k).value;
        assert es[1..][i - 1] == es[i];
      }
      RemoveKeyShrinks(es[1..], k);
    }
  }

  lemma {:induction false} RemoveKeyDistinct(es: seq<Entry>, k: string)
    requires DistinctKeys(es)
    ensures DistinctKeys(RemoveKey(es, k))
  {
    if es != [] {
      var tail := es[1..];
      assert DistinctKeys(tail) by {
        assert forall j :: 0 <= j < |tail| ==> tail[j] == es[j + 1];
      }
      RemoveKeyDistinct(tail, k);
      if es[0].keyId != k {
        var rest := RemoveKey(tail, k);
        RemoveKeyMembers(tail, k);
        assert forall e :: e in rest ==> e.keyId != es[0].keyId by {
          forall e | e in rest ensures e.keyId != es[0].keyId {
            assert e in tail;
            var j :| 0 <= j < |tail| && tail[j] == e;
            assert es[j + 1] == e;
          }
        }
        PrependDistinct(es[0], rest);
      }
    }
  }

  lemma PrependDistinct(e: Entry, es: seq<Entry>)
    requires DistinctKeys(es)
    requires forall x :: x in es ==> x.keyId != e.keyId
    ensures DistinctKeys([e] + es)
  {
    var r := [e] + es;
    forall i, j | 0 <= i < j < |r| ensures r[i].keyId != r[j].keyId {
      if i == 0 {
        assert r[j] == es[j - 1];
        assert r[j] in es;
      } else {
        assert r[i] == es[i - 1] && r[j] == es[j - 1];
      }
    }
  }

  lemma AppendDistinct(es: seq<Entry>, e: Entry)
    requires DistinctKeys(es)
    requires forall x :: x in es ==> x.keyId != e.keyId
    ensures DistinctKeys(es + [e])
  {
    var r := es + [e];
    forall i, j | 0 <= i < j < |r| ensures r[i].keyId != r[j].keyId {
      if j == |es| {
        assert r[i] == es[i];
        assert r[i] in es;
      } else {
        assert r[i] == es[i] && r[j] == es[j];
      }
    }
  }

  /** The `removeIf(isExpired)` sweep: the live entries, in their order. */
  function RemoveExpired(es: seq<Entry>, nowSeconds: int): (r: seq<Entry>)
    ensures |r| <= |es|
    ensures forall e :: e in r <==> e in es && !IsExpired(e.key, nowSeconds)
  {
    if es == [] then []
    else
      var last := es[|es| - 1];
      assert es == es[..|es| - 1] + [last];
      RemoveExpired(es[..|es| - 1], nowSeconds) + (if IsExpired(last.key, nowSeconds) then [] else [last])
  }

  lemma {:induction false} RemoveExpiredDistinct(es: seq<Entry>, nowSeconds: int)
    requires DistinctKeys(es)
    ensures DistinctKeys(RemoveExpired(es, nowSeconds))
  {
    if es != [] {
      var init := es[..|es| - 1];
      var last := es[|es| - 1];
      assert DistinctKeys(init);
      RemoveExpiredDistinct(init, nowSeconds);
      if !IsExpired(last.key, nowSeconds) {
        var live := RemoveExpired(init, nowSeconds);
        assert forall x :: x in live ==> x.keyId != last.keyId by {
          forall x | x in live ensures x.keyId != last.keyId {
            assert x in init;
            var j :| 0 <= j < |init| && init[j] == x;
            assert es[j] == x;
          }
        }
        AppendDistinct(live, last);
      }
    }
  }

  /** A live entry at the end stays at the end through the sweep. */
  lemma RemoveExpiredKeepsLiveLast(es: seq<Entry>, e: Entry, nowSeconds: int)
    requires !IsExpired(e.key, nowSeconds)
    ensures RemoveExpired(es + [e], nowSeconds) == RemoveExpired(es, nowSeconds) + [e]
  {
    assert (es + [e])[..|es + [e]| - 1] == es;
  }

  /** The number of expired entries, as getStats counts them. */
  function CountExpired(es: seq<Entry>, nowSeconds: int): (n: nat)
    ensures n <= |es|
  {
    if es == [] then 0
    else CountExpired(es[..|es| - 1], nowSeconds) + (if IsExpired(es[|es| - 1].key, nowSeconds) then 1 else 0)
  }

  /** Every entry is either counted as expired or survives the sweep. */
  lemma {:induction false} ExpiredPlusLive(es: seq<Entry>, nowSeconds: int)
    ensures CountExpired(es, nowSeconds) + |RemoveExpired(es, nowSeconds)| == |es|
  {
    if es != [] {
      ExpiredPlusLive(es[..|es| - 1], nowSeconds);
    }
  }

  // ---------------------------------------------------------------------
  // The operations as functions of the entries
  // ---------------------------------------------------------------------

  /** What `get` returns: nothing for a null or blank id, a missing key or an expired entry. */
  function GetValue(es: seq<Entry>, keyId: Option<string>, nowSeconds: int): Option<Jwk>
  {
    if IsNullOrBlank(keyId) then None
    else
      var found := Lookup(es, keyId.value);
      if found.None? || IsExpired(found.value, nowSeconds) then None else Some(found.value.jwk)
  }

  /**
   * The entries after `get`: unchanged for a null or blank id or a miss; the
   * found entry is dropped when expired and moved to the end otherwise.
   */
  function AfterGet(es: seq<Entry>, keyId: Option<string>, nowSeconds: int): seq<Entry>
  {
    if IsNullOrBlank(keyId) || !HasKey(es, keyId.value) then es
    else
      var k := keyId.value;
      var e := es[IndexOf(es, k).value];
      if IsExpired(e.key, nowSeconds) then RemoveKey(es, k) else RemoveKey(es, k) + [e]
  }

  /** LinkedHashMap.put in access order with the removeEldestEntry hook: replace and move, or append and evict. */
  function Insert(es: seq<Entry>, k: string, v: CachedKey, maxKeys: int): seq<Entry>
  {
    if HasKey(es, k) then RemoveKey(es, k) + [Entry(k, v)]
    else if |es| + 1 > maxKeys then (es + [Entry(k, v)])[1..]
    else es + [Entry(k, v)]
  }

  /** The entries after `put`: the sweep of expired entries, then the insertion of a key living `ttl` seconds. */
  function AfterPut(es: seq<Entry>, k: string, jwk: Jwk, nowSeconds: int, ttlSeconds: int, maxKeys: int)
    : seq<Entry>
  {
    Insert(RemoveExpired(es, nowSeconds), k, CachedKey(jwk, nowSeconds, nowSeconds + ttlSeconds), maxKeys)
  }

  /** Every entry has a non-blank id and lives exactly `ttl` seconds. */
  predicate WellFormed(e: Entry, ttlSeconds: int)
  {
    !IsBlank(e.keyId) && e.key.expiryTime == e.key.cacheTime + ttlSeconds
  }

  /** What the cache guarantees between operations. */
  predicate CacheInvariant(es: seq<Entry>, ttlSeconds: int, maxKeys: int)
  {
    && DistinctKeys(es)
    && |es| <= maxKeys
    && forall e :: e in es ==> WellFormed(e, ttlSeconds)
  }

  // ---------------------------------------------------------------------
  // Properties of the operations
  // ---------------------------------------------------------------------

  /** `get` never returns an expired key, and what it returns is the key stored under that id. */
  lemma GetNeverReturnsExpired(es: seq<Entry>, keyId: Option<string>, nowSeconds: int)
    requires GetValue(es, keyId, nowSeconds).Some?
    ensures keyId.Some? && Lookup(es, keyId.value).Some?
    ensures !IsExpired(Lookup(es, keyId.value).value, nowSeconds)
    ensures GetValue(es, keyId, nowSeconds) == Some(Lookup(es, keyId.value).value.jwk)
  {
  }

  /** An expired entry that `get` finds is dropped, and nothing else is. */
  lemma GetDropsExpired(es: seq<Entry>, k: string, nowSeconds: int)
    requires !IsBlank(k) && Lookup(es, k).Some? && IsExpired(Lookup(es, k).value, nowSeconds)
    ensures GetValue(es, Some(k), nowSeconds).None?
    ensures !HasKey(AfterGet(es, Some(k), nowSeconds), k)
    ensures forall e :: e in es && e.keyId != k ==> e in AfterGet(es, Some(k), nowSeconds)
  {
    RemoveKeyDropsKey(es, k);
    RemoveKeyMembers(es, k);
  }

  /** No entry for `k` is left once `k` is removed. */
  lemma RemoveKeyDropsKey(es: seq<Entry>, k: string)
    ensures !HasKey(RemoveKey(es, k), k)
  {
    var r := RemoveKey(es, k);
    RemoveKeyMembers(es, k);
    forall i | 0 <= i < |r| ensures r[i].keyId != k {
      assert r[i] in r;
    }
  }

  /** `get` with a null or blank id, or of an absent key, leaves the entries as they are. */
  lemma GetMissChangesNothing(es: seq<Entry>, keyId: Option<string>, nowSeconds: int)
    requires IsNullOrBlank(keyId) || !HasKey(es, keyId.value)
    ensures GetValue(es, keyId, nowSeconds).None?
    ensures AfterGet(es, keyId, nowSeconds) == es
  {
  }

  /** A live entry that `get` finds becomes the most recently used one. */
  lemma GetMovesToEnd(es: seq<Entry>, k: string, nowSeconds: int)
    requires DistinctKeys(es)
    requires !IsBlank(k) && GetValue(es, Some(k), nowSeconds).Some?
    ensures |AfterGet(es, Some(k), nowSeconds)| == |es|
    ensures AfterGet(es, Some(k), nowSeconds)[|es| - 1] == Entry(k, Lookup(es, k).value)
  {
    RemoveKeyBy1(es, k);
  }

  /** With distinct keys, removing a present key drops exactly one entry. */
  lemma RemoveKeyBy1(es: seq<Entry>, k: string)
    requires HasKey(es, k)
    ensures DistinctKeys(es) ==> |RemoveKey(es, k)| == |es| - 1
  {
    if DistinctKeys(es) {
      var i := IndexOf(es, k).value;
      RemoveKeyAt(es, i);
    }
  }

  /** `get` keeps the cache invariant. */
  lemma AfterGetInvariant(es: seq<Entry>, keyId: Option<string>, nowSeconds: int, ttlSeconds: int, maxKeys: int)
    requires CacheInvariant(es, ttlSeconds, maxKeys)
    ensures CacheInvariant(AfterGet(es, keyId, nowSeconds), ttlSeconds, maxKeys)
  {
    if !IsNullOrBlank(keyId) && HasKey(es, keyId.value) {
      var k := keyId.value;
      var e := es[IndexOf(es, k).value];
      assert e in es;
      RemoveKeyMembers(es, k);
      RemoveKeyDistinct(es, k);
      RemoveKeyBy1(es, k);
      if !IsExpired(e.key, nowSeconds) {
        AppendDistinct(RemoveKey(es, k), e);
      }
    }
  }

  /** `put` keeps the cache invariant: in particular the size never exceeds `maxKeys`. */
  lemma AfterPutInvariant(es: seq<Entry>, k: string, jwk: Jwk, nowSeconds: int, ttlSeconds: int, maxKeys: int)
    requires CacheInvariant(es, ttlSeconds, maxKeys) && maxKeys > 0 && !IsBlank(k)
    ensures CacheInvariant(AfterPut(es, k, jwk, nowSeconds, ttlSeconds, maxKeys), ttlSeconds, maxKeys)
  {
    var live := RemoveExpired(es, nowSeconds);
    var e := Entry(k, CachedKey(jwk, nowSeconds, nowSeconds + ttlSeconds));
    RemoveExpiredDistinct(es, nowSeconds);
    if HasKey(live, k) {
      RemoveKeyMembers(live, k);
      RemoveKeyDistinct(live, k);
      RemoveKeyShrinks(live, k);
      AppendDistinct(RemoveKey(live, k), e);
    } else {
      assert forall x :: x in live ==> x.keyId != k;
      AppendDistinct(live, e);
      var grown := live + [e];
      if |live| + 1 > maxKeys {
        assert DistinctKeys(grown[1..]) by {
          assert forall j :: 0 <= j < |grown[1..]| ==> grown[1..][j] == grown[j + 1];
        }
        assert forall x :: x in grown[1..] ==> x in grown;
      }
    }
  }

  /** A `put` followed by a `get` of the same id at the same second returns the key just stored. */
  lemma PutThenGet(es: seq<Entry>, k: string, jwk: Jwk, nowSeconds: int, ttlSeconds: int, maxKeys: int)
    requires ttlSeconds > 0 && maxKeys > 0 && !IsBlank(k)
    ensures GetValue(AfterPut(es, k, jwk, nowSeconds, ttlSeconds, maxKeys), Some(k), nowSeconds) == Some(jwk)
  {
    var live := RemoveExpired(es, nowSeconds);
    var e := Entry(k, CachedKey(jwk, nowSeconds, nowSeconds + ttlSeconds));
    var r := AfterPut(es, k, jwk, nowSeconds, ttlSeconds, maxKeys);
    assert |r| > 0 && r[|r| - 1] == e;
    assert forall j :: 0 <= j < |r| - 1 ==> r[j].keyId != k by {
      if HasKey(live, k) {
        RemoveKeyMembers(live, k);
        assert r == RemoveKey(live, k) + [e];
        forall j | 0 <= j < |r| - 1 ensures r[j].keyId != k {
          assert r[j] in RemoveKey(live, k);
        }
      } else {
        forall j | 0 <= j < |r| - 1 ensures r[j].keyId != k {
          assert r[j] in live;
        }
      }
    }
    assert IndexOf(r, k) == Some(|r| - 1);
  }

  /** After a `put` no entry is expired at that second. */
  lemma PutLeavesNothingExpired(es: seq<Entry>, k: string, jwk: Jwk, nowSeconds: int, ttlSeconds: int, maxKeys: int)
    requires ttlSeconds > 0
    ensures forall e :: e in AfterPut(es, k, jwk, nowSeconds, ttlSeconds, maxKeys) ==> !IsExpired(e.key, nowSeconds)
  {
    var live := RemoveExpired(es, nowSeconds);
    var e := Entry(k, CachedKey(jwk, nowSeconds, nowSeconds + ttlSeconds));
    if HasKey(live, k) {
      RemoveKeyMembers(live, k);
    } else if |live| + 1 > maxKeys {
      assert forall x :: x in (live + [e])[1..] ==> x in live + [e];
    }
  }

  /**
   * When the live entries fill the cache, a `put` of a new key evicts the
   * least recently used entry, and only that one.
   */
  lemma PutEvictsEldest(es: seq<Entry>, k: string, jwk: Jwk, nowSeconds: int, ttlSeconds: int, maxKeys: int)
    requires !HasKey(RemoveExpired(es, nowSeconds), k)
    requires |RemoveExpired(es, nowSeconds)| == maxKeys > 0
    ensures AfterPut(es, k, jwk, nowSeconds, ttlSeconds, maxKeys) ==
      RemoveExpired(es, nowSeconds)[1..] + [Entry(k, CachedKey(jwk, nowSeconds, nowSeconds + ttlSeconds))]
  {
    var live := RemoveExpired(es, nowSeconds);
    var e := Entry(k, CachedKey(jwk, nowSeconds, nowSeconds + ttlSeconds));
    assert (live + [e])[1..] == live[1..] + [e];
  }

  /** Replacing a key that is present evicts nothing: every other live entry stays. */
  lemma PutReplaceEvictsNothing(es: seq<Entry>, k: string, jwk: Jwk, nowSeconds: int, ttlSeconds: int, maxKeys: int)
    requires HasKey(RemoveExpired(es, nowSeconds), k)
    ensures forall x :: x in RemoveExpired(es, nowSeconds) && x.keyId != k ==>
      x in AfterPut(es, k, jwk, nowSeconds, ttlSeconds, maxKeys)
  {
    RemoveKeyMembers(RemoveExpired(es, nowSeconds), k);
  }

  /** An entry that is present gives its key a position. */
  lemma MemberHasKey(es: seq<Entry>, e: Entry)
    requires e in es
    ensures HasKey(es, e.keyId)
  {
    var j :| 0 <= j < |es| && es[j] == e;
  }

  /** Inserting another key into a cache with room for two keeps the most recently used entry. */
  lemma InsertKeepsNewest(live: seq<Entry>, e: Entry, k2: string, v: CachedKey, maxKeys: int)
    requires maxKeys >= 2 && e.keyId != k2
    ensures e in Insert(live + [e], k2, v, maxKeys)
  {
    var es := live + [e];
    if HasKey(es, k2) {
      RemoveKeyMembers(es, k2);
      assert e in RemoveKey(es, k2);
    } else if |es| + 1 > maxKeys {
      assert (es + [Entry(k2, v)])[1..][|es| - 2] == e;
    } else {
      assert (es + [Entry(k2, v)])[|es| - 1] == e;
    }
  }

  /**
   * A `get` counts as an access: the key just read is not the eldest, so a
   * following `put` of another key does not evict it while it is live (with
   * room for at least two keys).
   */
  lemma GetProtectsFromEviction(es: seq<Entry>, k: string, t1: int, k2: string, jwk: Jwk, t2: int,
                                ttlSeconds: int, maxKeys: int)
    requires maxKeys >= 2 && k2 != k && !IsBlank(k)
    requires GetValue(es, Some(k), t1).Some?
    requires !IsExpired(Lookup(es, k).value, t2)
    ensures HasKey(AfterPut(AfterGet(es, Some(k), t1), k2, jwk, t2, ttlSeconds, maxKeys), k)
  {
    var e := Entry(k, Lookup(es, k).value);
    var rest := RemoveKey(es, k);
    assert AfterGet(es, Some(k), t1) == rest + [e];
    RemoveExpiredKeepsLiveLast(rest, e, t2);
    var v := CachedKey(jwk, t2, t2 + ttlSeconds);
    InsertKeepsNewest(RemoveExpired(rest, t2), e, k2, v, maxKeys);
    MemberHasKey(AfterPut(AfterGet(es, Some(k), t1), k2, jwk, t2, ttlSeconds, maxKeys), e);
  }

  /** `remove` of a present key drops that key and leaves every other entry in place. */
  lemma RemoveOnlyRemovesThatKey(es: seq<Entry>, k: string, other: string)
    requires DistinctKeys(es) && other != k
    ensures !HasKey(RemoveKey(es, k), k)
    ensures Lookup(RemoveKey(es, k), other) == Lookup(es, other)
  {
    var r := RemoveKey(es, k);
    RemoveKeyDropsKey(es, k);
    RemoveKeyDistinct(es, k);
    if HasKey(es, other) {
      var x := es[IndexOf(es, other).value];
      assert x in es;
      assert x in r;
      var j :| 0 <= j < |r| && r[j] == x;
      var i := IndexOf(r, other).value;
      assert i == j;
    } else {
      forall i | 0 <= i < |r| ensures r[i].keyId != other {
        assert r[i] in r;
      }
    }
  }

  // ---------------------------------------------------------------------
  // The cache
  // ---------------------------------------------------------------------

  datatype CacheError = NonPositiveTtl(ttlSeconds: int) | NonPositiveMaxKeys(maxKeys: int) | BlankKeyId | NullJwk

  /** The statistics map of getStats. */
  datatype CacheStats = CacheStats(size: nat, ttlSeconds: int, maxKeys: int, expiredCount: nat, activeCount: int)

  class JwksCache {
    const ttlSeconds: int
    const maxKeys: int
    /** The map's entries, least recently used first. */
    var entries: seq<Entry>

    ghost predicate Valid()
      reads this
    {
      ttlSeconds > 0 && maxKeys > 0 && CacheInvariant(entries, ttlSeconds, maxKeys)
    }

    /** The constructor once its argument checks have passed; see Create. */
    constructor(ttl: int, max: int)
      requires ttl > 0 && max > 0
      ensures Valid() && ttlSeconds == ttl && maxKeys == max && entries == []
    {
      ttlSeconds := ttl;
      maxKeys := max;
      entries := [];
    }

    /** `new JwksCache(ttl, maxKeys)`: a non-positive TTL, then a non-positive capacity, is refused. */
    static method Create(ttl: int, max: int) returns (r: Result<JwksCache, CacheError>)
      ensures ttl <= 0 ==> r == Err(NonPositiveTtl(ttl))
      ensures ttl > 0 && max <= 0 ==> r == Err(NonPositiveMaxKeys(max))
      ensures ttl > 0 && max > 0 ==>
        && r.Ok? && fresh(r.value) && r.value.Valid()
        && r.value.ttlSeconds == ttl && r.value.maxKeys == max && r.value.entries == []
    {
      if ttl <= 0 {
        return Err(NonPositiveTtl(ttl));
      }
      if max <= 0 {
        return Err(NonPositiveMaxKeys(max));
      }
      var c := new JwksCache(ttl, max);
      return Ok(c);
    }

    /** get(keyId). */
    method Get(keyId: Option<string>, nowSeconds: int) returns (r: Option<Jwk>)
      requires Valid()
      modifies this
      ensures Valid()
      ensures r == GetValue(old(entries), keyId, nowSeconds)
      ensures entries == AfterGet(old(entries), keyId, nowSeconds)
    {
      if keyId.None? || IsBlank(keyId.value) {
        return None;
      }
      var idx := IndexOf(entries, keyId.value);
      if idx.None? {
        return None;
      }
      var i := idx.value;
      var found := entries[i];
      RemoveKeyAt(entries, i);
      AfterGetInvariant(entries, keyId, nowSeconds, ttlSeconds, maxKeys);
      // The access-ordered lookup moves the entry to the end ...
      entries := entries[..i] + entries[i + 1..] + [found];
      if IsExpired(found.key, nowSeconds) {
        // ... and the expired entry is then removed.
        entries := entries[..|entries| - 1];
        return None;
      }
      return Some(found.key.jwk);
    }

    /** cleanupExpiredEntries: the removeIf sweep. */
    method CleanupExpiredEntries(nowSeconds: int)
      requires Valid()
      modifies this
      ensures Valid()
      ensures entries == RemoveExpired(old(entries), nowSeconds)
    {
      var kept: seq<Entry> := [];
      var i := 0;
      while i < |entries|
        invariant 0 <= i <= |entries|
        invariant kept == RemoveExpired(entries[..i], nowSeconds)
      {
        assert entries[..i + 1][..i] == entries[..i];
        if !IsExpired(entries[i].key, nowSeconds) {
          kept := kept + [entries[i]];
        }
        i := i + 1;
      }
      assert entries[..i] == entries;
      RemoveExpiredDistinct(entries, nowSeconds);
      entries := kept;
    }

    /** put(keyId, jwk). */
    method Put(keyId: Option<string>, jwk: Option<Jwk>, nowSeconds: int) returns (r: Outcome<CacheError>)
      requires Valid()
      modifies this
      ensures Valid()
      ensures IsNullOrBlank(keyId) ==> r == Fail(BlankKeyId) && entries == old(entries)
      ensures !IsNullOrBlank(keyId) && jwk.None? ==> r == Fail(NullJwk) && entries == old(entries)
      ensures !IsNullOrBlank(keyId) && jwk.Some? ==>
        r == Pass && entries == AfterPut(old(entries), keyId.value, jwk.value, nowSeconds, ttlSeconds, maxKeys)
    {
      if keyId.None? || IsBlank(keyId.value) {
        return Fail(BlankKeyId);
      }
      if jwk.None? {
        return Fail(NullJwk);
      }
      ghost var before := entries;
      AfterPutInvariant(before, keyId.value, jwk.value, nowSeconds, ttlSeconds, maxKeys);
      var expiryTime := nowSeconds + ttlSeconds;
      CleanupExpiredEntries(nowSeconds);
      InsertEntry(keyId.value, CachedKey(jwk.value, nowSeconds, expiryTime));
      assert entries == AfterPut(before, keyId.value, jwk.value, nowSeconds, ttlSeconds, maxKeys);
      return Pass;
    }

    /** cache.put on the access-ordered map, with the removeEldestEntry hook. */
    method InsertEntry(k: string, v: CachedKey)
      requires DistinctKeys(entries)
      modifies this
      ensures entries == Insert(old(entries), k, v, maxKeys)
    {
      var e := Entry(k, v);
      var idx := IndexOf(entries, k);
      if idx.Some? {
        var i := idx.value;
        RemoveKeyAt(entries, i);
        entries := entries[..i] + entries[i + 1..] + [e];
      } else {
        entries := entries + [e];
        // removeEldestEntry
        if |entries| > maxKeys {
          entries := entries[1..];
        }
      }
    }

    /** remove(keyId): true exactly when the key was present. */
    method Remove(keyId: Option<string>) returns (removed: bool)
      requires Valid()
      modifies this
      ensures Valid()
      ensures IsNullOrBlank(keyId) ==> !removed && entries == old(entries)
      ensures !IsNullOrBlank(keyId) ==>
        removed == HasKey(old(entries), keyId.value) && entries == RemoveKey(old(entries), keyId.value)
    {
      if keyId.None? || IsBlank(keyId.value) {
        return false;
      }
      var idx := IndexOf(entries, keyId.value);
      RemoveKeyDistinct(entries, keyId.value);
      if idx.None? {
        RemoveKeyAbsent(entries, keyId.value);
        return false;
      }
      var i := idx.value;
      RemoveKeyAt(entries, i);
      entries := entries[..i] + entries[i + 1..];
      return true;
    }

    /** clear(). */
    method Clear()
      requires Valid()
      modifies this
      ensures Valid() && entries == []
    {
      entries := [];
    }

    /** size(): expired entries included. */
    method Size() returns (n: nat)
      ensures n == |entries|
    {
      return |entries|;
    }

    /** getStats(): the expired entries counted one by one, the active count being the rest. */
    method GetStats(nowSeconds: int) returns (stats: CacheStats)
      ensures stats.size == |entries| && stats.ttlSeconds == ttlSeconds && stats.maxKeys == maxKeys
      ensures stats.expiredCount == CountExpired(entries, nowSeconds)
      ensures stats.activeCount == |RemoveExpired(entries, nowSeconds)|
    {
      var expired: nat := 0;
      var i := 0;
      while i < |entries|
        invariant 0 <= i <= |entries|
        invariant expired == CountExpired(entries[..i], nowSeconds)
      {
        assert entries[..i + 1][..i] == entries[..i];
        if IsExpired(entries[i].key, nowSeconds) {
          expired := expired + 1;
        }
        i := i + 1;
      }
      assert entries[..i] == entries;
      ExpiredPlusLive(entries, nowSeconds);
      stats := CacheStats(|entries|, ttlSeconds, maxKeys, expired, |entries| - expired);
    }
  }
}
