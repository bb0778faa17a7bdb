/** BaseCacheConnector: key prefixing and the read-through policies every cache
    connector shares, over the connector's primitive Get/Set/Add/Delete. The cache
    server is a map from (prefixed) key to stored value; serialize/unserialize are an
    exact round trip, so an object is stored as the value itself. */
module CacheConnectors {
  import opened Strings
  import opened PhpValues
  import opened Exceptions

  // ---------------------------------------------------------------------------
  // Key mapping

  /** MapKey as written: the prefix is skipped when empty() holds for it, which is
      also the case for the prefix "0". */
  function MapKeyAsWritten(prefix: string, key: string): string
  {
    if IsEmptyText(prefix) then key else prefix + key
  }

  /** MapKey as intended: the key behind the prefix (nothing to add for the empty
      prefix). */
  function MapKey(prefix: string, key: string): (r: string)
    ensures IsPrefix(prefix, r) && |r| == |prefix| + |key|
    ensures r[|prefix|..] == key
  {
    prefix + key
  }

  /** UnmapKey: drops as many leading characters as the prefix has; substr past the
      end gives "". */
  function UnmapKey(prefix: string, key: string): (r: string)
    ensures |key| >= |prefix| ==> |r| == |key| - |prefix|
    ensures |key| < |prefix| ==> r == ""
  {
    if |key| >= |prefix| then key[|prefix|..] else ""
  }

  /** Unmapping a mapped key gives the key back, and distinct keys map to distinct
      cache entries. */
  lemma MapKeyRoundTrip(prefix: string, key: string, other: string)
    ensures UnmapKey(prefix, MapKey(prefix, key)) == key
    ensures MapKey(prefix, key) == MapKey(prefix, other) ==> key == other
  {
    if MapKey(prefix, key) == MapKey(prefix, other) {
      assert key == MapKey(prefix, key)[|prefix|..];
    }
  }

  /** The two mappings differ only for the prefix "0". */
  lemma MapKeyAsWrittenAgrees(prefix: string, key: string)
    requires prefix != "0"
    ensures MapKeyAsWritten(prefix, key) == MapKey(prefix, key)
  {
    if prefix == "" {
      assert prefix + key == key;
    }
  }

  /** With the prefix "0" the mapping as written does not add the prefix, but
      UnmapKey still strips one character: "ab" comes back as "b". */
  lemma MapKeyAsWrittenLosesCharacter()
    ensures UnmapKey("0", MapKeyAsWritten("0", "ab")) == "b"
    ensures UnmapKey("0", MapKey("0", "ab")) == "ab"
  {
    assert MapKey("0", "ab")[1..] == "ab";
  }

  // ---------------------------------------------------------------------------
  // Object cache keys

  const DefaultCreator := "GetObjectByID"

  /** The key of an object cached by type and id: "O.<type>_<id>" for the default
      creator, "O.<type>_<creator>_<id>" for any other. */
  function ObjectCacheKey(objectID: Value, objectType: string, callbackFunction: string): (r: string)
    ensures callbackFunction == DefaultCreator ==> r == "O." + objectType + "_" + ToText(objectID)
    ensures callbackFunction != DefaultCreator ==> r == "O." + objectType + "_" + callbackFunction + "_" + ToText(objectID)
  {
    "O." + objectType + "_" + (if callbackFunction == DefaultCreator then "" else callbackFunction + "_") + ToText(objectID)
  }

  /** For one type and creator, objects get the same key exactly when their ids read
      the same. */
  lemma ObjectCacheKeysDistinct(id1: Value, id2: Value, objectType: string, callbackFunction: string)
    ensures ObjectCacheKey(id1, objectType, callbackFunction) == ObjectCacheKey(id2, objectType, callbackFunction)
      <==> ToText(id1) == ToText(id2)
  {
    var head := "O." + objectType + "_" + (if callbackFunction == DefaultCreator then "" else callbackFunction + "_");
    var k1 := ObjectCacheKey(id1, objectType, callbackFunction);
    var k2 := ObjectCacheKey(id2, objectType, callbackFunction);
    assert k1 == head + ToText(id1) && k2 == head + ToText(id2);
    assert k1[|head|..] == ToText(id1) && k2[|head|..] == ToText(id2);
  }

  /** An id without "_" never shares its default-creator key with a key another
      creator makes for the same type. */
  lemma DefaultKeyNotCustom(id1: Value, id2: Value, objectType: string, other: string)
    requires other != DefaultCreator && '_' !in ToText(id1)
    ensures ObjectCacheKey(id1, objectType, DefaultCreator) != ObjectCacheKey(id2, objectType, other)
  {
    var head := "O." + objectType + "_";
    var t1 := ToText(id1);
    var tail := other + "_" + ToText(id2);
    var d := ObjectCacheKey(id1, objectType, DefaultCreator);
    var o := ObjectCacheKey(id2, objectType, other);
    assert d == head + t1;
    assert o == head + tail;
    DistinctTails(head, t1, tail, |other|);
  }

  /** Two strings with one head differ when their tails do at some position. */
  lemma DistinctTails(head: string, t1: string, t2: string, i: nat)
    requires i < |t2| && t2[i] == '_' && '_' !in t1
    ensures head + t1 != head + t2
  {
    if |t1| == |t2| {
      assert (head + t1)[|head| + i] == t1[i] != '_';
      assert (head + t2)[|head| + i] == '_';
    }
  }

  /** The key of an object cached by a custom creator: "O.<type>_<creator><yayinID>_<id>",
      the creator name and the publication id written with no separator. */
  function CustomCacheKey(yayinID: Value, objectID: Value, objectType: string, callbackFunction: string): (r: string)
    ensures IsPrefix("O." + objectType + "_" + callbackFunction, r)
    ensures IsSuffix("_" + ToText(objectID), r)
  {
    "O." + objectType + "_" + callbackFunction + ToText(yayinID) + "_" + ToText(objectID)
  }

  /** Without a separator two different (creator, publication) pairs can share a
      cache entry: creator "Get1" with publication 23 and creator "Get12" with
      publication 3. */
  lemma CustomCacheKeysCanCollide()
    ensures CustomCacheKey(Int(23), Int(5), "T", "Get1") == CustomCacheKey(Int(3), Int(5), "T", "Get12")
  {
    assert IntToString(23) == "23" by {
      assert NatToString(23) == NatToString(2) + [DigitChar(3)];
    }
    assert IntToString(3) == "3";
    assert IntToString(5) == "5";
  }

  // ---------------------------------------------------------------------------
  // Read-through specifications

  /** The value the cache holds for a key: FALSE when there is none (Get/GetObject
      report a miss as FALSE). */
  function Fetch(store: map<string, Value>, prefix: string, key: string): Value
  {
    var k := MapKey(prefix, key);
    if k in store then store[k] else Bool(false)
  }

  /** The result of a read-through: the new cache contents, the value returned, and
      whether the creator had to be called. */
  datatype ReadThroughResult = ReadThroughResult(store: map<string, Value>, value: Value, created: bool)

  /** The shared read-through policy: read the cache unless cacheTime <= 0; on a
      miss (FALSE) call the creator, whose result `made` is, and store that result
      when caching is on and it is not FALSE. */
  function ReadThrough(store: map<string, Value>, prefix: string, key: string, cacheTime: int, made: Value): ReadThroughResult
  {
    var cached := if cacheTime <= 0 then Bool(false) else Fetch(store, prefix, key);
    if cached != Bool(false) then ReadThroughResult(store, cached, false)
    else if cacheTime > 0 && made != Bool(false) then ReadThroughResult(store[MapKey(prefix, key) := made], made, true)
    else ReadThroughResult(store, made, true)
  }

  /** A hit returns the cached value without the creator and changes nothing. */
  lemma ReadThroughHit(store: map<string, Value>, prefix: string, key: string, cacheTime: int, made: Value)
    requires cacheTime > 0 && Fetch(store, prefix, key) != Bool(false)
    ensures ReadThrough(store, prefix, key, cacheTime, made) == ReadThroughResult(store, Fetch(store, prefix, key), false)
  {
  }

  /** With cacheTime <= 0 the cache is neither read nor written: the creator's
      result is returned. */
  lemma ReadThroughDisabled(store: map<string, Value>, prefix: string, key: string, cacheTime: int, made: Value)
    requires cacheTime <= 0
    ensures ReadThrough(store, prefix, key, cacheTime, made) == ReadThroughResult(store, made, true)
  {
  }

  /** FALSE is never stored: whenever FALSE is returned the cache is unchanged. */
  lemma ReadThroughNeverStoresFalse(store: map<string, Value>, prefix: string, key: string, cacheTime: int, made: Value)
    ensures ReadThrough(store, prefix, key, cacheTime, made).value == Bool(false) ==>
      ReadThrough(store, prefix, key, cacheTime, made).store == store
    ensures forall k :: k in ReadThrough(store, prefix, key, cacheTime, made).store ==>
      k in store || ReadThrough(store, prefix, key, cacheTime, made).store[k] != Bool(false)
  {
  }

  /** Read-through is idempotent: right after a call that cached its value, a second
      call with any creator returns the same value from the cache. */
  lemma ReadThroughTwice(store: map<string, Value>, prefix: string, key: string, cacheTime: int, made: Value, made2: Value)
    requires cacheTime > 0 && made != Bool(false)
    ensures var first := ReadThrough(store, prefix, key, cacheTime, made);
      ReadThrough(first.store, prefix, key, cacheTime, made2) == ReadThroughResult(first.store, first.value, false)
  {
  }

  /** GetCachedSimpleDataCallback: the same policy, except that a created array or
      object is refused with an exception before anything is cached. */
  function SimpleReadThrough(store: map<string, Value>, prefix: string, key: string, cacheTime: int, made: Value): (map<string, Value>, Outcome<Value>)
  {
    var cached := if cacheTime <= 0 then Bool(false) else Fetch(store, prefix, key);
    if cached != Bool(false) then (store, Ok(cached))
    else if made.Arr? then (store, Throws(RuntimeException("GetCachedSimpleDataCallback cannot return objects or arrays")))
    else if cacheTime > 0 && made != Bool(false) then (store[MapKey(prefix, key) := made], Ok(made))
    else (store, Ok(made))
  }

  /** The simple-data policy agrees with the object policy on scalars, and an array
      from the creator never reaches the cache. */
  lemma SimpleReadThroughMatches(store: map<string, Value>, prefix: string, key: string, cacheTime: int, made: Value)
    ensures !made.Arr? ==>
      var r := ReadThrough(store, prefix, key, cacheTime, made);
      SimpleReadThrough(store, prefix, key, cacheTime, made) == (r.store, Ok(r.value))
    ensures SimpleReadThrough(store, prefix, key, cacheTime, made).1.Throws? ==>
      made.Arr? && SimpleReadThrough(store, prefix, key, cacheTime, made).0 == store
  {
  }

  /** isset on the local data cache. */
  predicate LocalHit(local: map<string, Value>, key: string)
  {
    key in local && local[key] != Null
  }

  /** GetLocalCachedObject: a local hit is returned at once; otherwise the
      read-through result, which is also kept locally when it is not empty. */
  function LocalReadThrough(store: map<string, Value>, local: map<string, Value>, prefix: string, key: string, cacheTime: int, made: Value)
    : (map<string, Value>, map<string, Value>, Value)
  {
    if LocalHit(local, key) then (store, local, local[key])
    else
      var r := ReadThrough(store, prefix, key, cacheTime, made);
      (r.store, if IsEmpty(r.value) then local else local[key := r.value], r.value)
  }

  /** A local hit touches neither cache; only non-empty values are kept locally;
      once a non-empty value is kept, later calls return it with any creator. */
  lemma LocalReadThroughProperties(store: map<string, Value>, local: map<string, Value>, prefix: string, key: string, cacheTime: int, made: Value, made2: Value)
    ensures LocalHit(local, key) ==> LocalReadThrough(store, local, prefix, key, cacheTime, made) == (store, local, local[key])
    ensures var (_, local', v) := LocalReadThrough(store, local, prefix, key, cacheTime, made);
      forall k :: k in local' && k !in local ==> k == key && local'[k] == v && !IsEmpty(v)
    ensures var (store', local', v) := LocalReadThrough(store, local, prefix, key, cacheTime, made);
      !IsEmpty(v) ==> LocalReadThrough(store', local', prefix, key, cacheTime, made2) == (store', local', v)
  {
  }

  // ---------------------------------------------------------------------------
  // The connector object

  class CacheConnector {
    /** The prefix put in front of every key on the server. */
    const keyPrefix: string
    /** What the cache server holds, by prefixed key. */
    var store: map<string, Value>
    /** The per-request local data cache. */
    var localDataCache: map<string, Value>

    constructor(keyPrefix: string, store: map<string, Value>)
      ensures this.keyPrefix == keyPrefix && this.store == store && localDataCache == map[]
    {
      this.keyPrefix := keyPrefix;
      this.store := store;
      localDataCache := map[];
    }

    /** The primitive Get: the stored value, FALSE on a miss. */
    method Get(key: string) returns (r: Value)
      ensures r == Fetch(store, keyPrefix, key)
    {
      var k := MapKey(keyPrefix, key);
      if k in store {
        r := store[k];
      } else {
        r := Bool(false);
      }
    }

    /** The primitive Set: stores the value under the prefixed key. */
    method Set(key: string, variable: Value) returns (success: bool)
      modifies this
      ensures store == old(store)[MapKey(keyPrefix, key) := variable]
      ensures localDataCache == old(localDataCache) && success
    {
      store := store[MapKey(keyPrefix, key) := variable];
      success := true;
    }

    /** The primitive Add: stores only when the key is not there yet. */
    method Add(key: string, variable: Value) returns (added: bool)
      modifies this
      ensures added <==> MapKey(keyPrefix, key) !in old(store)
      ensures store == if added then old(store)[MapKey(keyPrefix, key) := variable] else old(store)
      ensures localDataCache == old(localDataCache)
    {
      var k := MapKey(keyPrefix, key);
      added := k !in store;
      if added {
        store := store[k := variable];
      }
    }

    /** The primitive Delete: true when an entry was removed. */
    method Delete(key: string) returns (deleted: bool)
      modifies this
      ensures deleted <==> MapKey(keyPrefix, key) in old(store)
      ensures store == old(store) - {MapKey(keyPrefix, key)}
      ensures localDataCache == old(localDataCache)
    {
      var k := MapKey(keyPrefix, key);
      deleted := k in store;
      store := store - {k};
    }

    method AddObject(key: string, obj: Value) returns (added: bool)
      modifies this
      ensures added <==> MapKey(keyPrefix, key) !in old(store)
      ensures store == if added then old(store)[MapKey(keyPrefix, key) := obj] else old(store)
      ensures localDataCache == old(localDataCache)
    {
      added := Add(key, obj);
    }

    method SetObject(key: string, obj: Value) returns (success: bool)
      modifies this
      ensures store == old(store)[MapKey(keyPrefix, key) := obj]
      ensures localDataCache == old(localDataCache) && success
    {
      success := Set(key, obj);
    }

    /** GetObject: the cached object, FALSE on a miss. */
    method GetObject(key: string) returns (r: Value)
      ensures r == Fetch(store, keyPrefix, key)
    {
      var objectData := Get(key);
      if objectData == Bool(false) {
        r := Bool(false);
      } else {
        r := objectData;
      }
    }

    /** GetObjectList: the cached objects of the keys that are present, by key. */
    method GetObjectList(keys: seq<string>) returns (r: seq<Entry>)
      ensures forall k :: k in keys && MapKey(keyPrefix, k) in store ==> Lookup(r, k) == store[MapKey(keyPrefix, k)]
      ensures forall k :: !(k in keys && MapKey(keyPrefix, k) in store) ==> Lookup(r, k) == Null
    {
      r := [];
      var i := 0;
      while i < |keys|
        invariant 0 <= i <= |keys|
        invariant forall k :: k in keys[..i] && MapKey(keyPrefix, k) in store ==> Lookup(r, k) == store[MapKey(keyPrefix, k)]
        invariant forall k :: !(k in keys[..i] && MapKey(keyPrefix, k) in store) ==> Lookup(r, k) == Null
      {
        var key := keys[i];
        var mapped := MapKey(keyPrefix, key);
        assert keys[..i + 1] == keys[..i] + [key];
        if mapped in store {
          r := Store(r, key, store[mapped]);
        }
        i := i + 1;
      }
      assert keys[..i] == keys;
    }

    /** InvalidateCachedObject: deletes the entry GetCachedObject uses. */
    method InvalidateCachedObject(objectID: Value, objectType: string, callbackFunction: string) returns (deleted: bool)
      modifies this
      ensures deleted <==> MapKey(keyPrefix, ObjectCacheKey(objectID, objectType, callbackFunction)) in old(store)
      ensures store == old(store) - {MapKey(keyPrefix, ObjectCacheKey(objectID, objectType, callbackFunction))}
      ensures localDataCache == old(localDataCache)
    {
      var cacheKey: string;
      if callbackFunction == DefaultCreator {
        cacheKey := "O." + objectType + "_" + ToText(objectID);
      } else {
        cacheKey := "O." + objectType + "_" + callbackFunction + "_" + ToText(objectID);
      }
      deleted := Delete(cacheKey);
    }

    /** The read-through shared by the object getters, for an already built key. */
    method ReadThroughKey(cacheKey: string, cacheTime: int, made: Value) returns (r: Value)
      modifies this
      ensures var res := ReadThrough(old(store), keyPrefix, cacheKey, cacheTime, made);
        store == res.store && r == res.value
      ensures localDataCache == old(localDataCache)
    {
      var cached := Bool(false);
      if cacheTime > 0 {
        cached := GetObject(cacheKey);
      }
      if cached == Bool(false) {
        r := made;
        if cacheTime > 0 && r != Bool(false) {
          var _ := SetObject(cacheKey, r);
        }
      } else {
        r := cached;
      }
    }

    /** GetCachedObject: the creator is the type's static function applied to the id. */
    method GetCachedObject(objectID: Value, objectType: string, cacheTime: int, callbackFunction: string, creator: Value -> Value)
      returns (r: Value)
      modifies this
      ensures var res := ReadThrough(old(store), keyPrefix, ObjectCacheKey(objectID, objectType, callbackFunction), cacheTime, creator(objectID));
        store == res.store && r == res.value
      ensures localDataCache == old(localDataCache)
    {
      var cacheKey: string;
      if callbackFunction == DefaultCreator {
        cacheKey := "O." + objectType + "_" + ToText(objectID);
      } else {
        cacheKey := "O." + objectType + "_" + callbackFunction + "_" + ToText(objectID);
      }
      r := ReadThroughKey(cacheKey, cacheTime, creator(objectID));
    }

    /** GetCachedObjectCustom: the creator takes the publication id and the object id. */
    method GetCachedObjectCustom(yayinID: Value, objectID: Value, objectType: string, callbackFunction: string, creator: (Value, Value) -> Value, cacheTime: int)
      returns (r: Value)
      modifies this
      ensures var res := ReadThrough(old(store), keyPrefix, CustomCacheKey(yayinID, objectID, objectType, callbackFunction), cacheTime, creator(yayinID, objectID));
        store == res.store && r == res.value
      ensures localDataCache == old(localDataCache)
    {
      var cacheKey := "O." + objectType + "_" + callbackFunction + ToText(yayinID) + "_" + ToText(objectID);
      r := ReadThroughKey(cacheKey, cacheTime, creator(yayinID, objectID));
    }

    method GetCachedObjectCallback(cacheKey: string, cacheTime: int, creator: () -> Value) returns (r: Value)
      modifies this
      ensures var res := ReadThrough(old(store), keyPrefix, cacheKey, cacheTime, creator());
        store == res.store && r == res.value
      ensures localDataCache == old(localDataCache)
    {
      r := ReadThroughKey(cacheKey, cacheTime, creator());
    }

    method GetLocalCachedObject(cacheKey: string, cacheTime: int, creator: () -> Value) returns (r: Value)
      modifies this
      ensures (store, localDataCache, r) == LocalReadThrough(old(store), old(localDataCache), keyPrefix, cacheKey, cacheTime, creator())
    {
      if cacheKey in localDataCache && localDataCache[cacheKey] != Null {
        return localDataCache[cacheKey];
      }
      r := GetCachedObjectCallback(cacheKey, cacheTime, creator);
      if !IsEmpty(r) {
        localDataCache := localDataCache[cacheKey := r];
      }
    }

    method GetCachedSimpleDataCallback(cacheKey: string, cacheTime: int, creator: () -> Value) returns (r: Outcome<Value>)
      modifies this
      ensures (store, r) == SimpleReadThrough(old(store), keyPrefix, cacheKey, cacheTime, creator())
      ensures localDataCache == old(localDataCache)
    {
      var cached := Bool(false);
      if cacheTime > 0 {
        cached := Get(cacheKey);
      }
      if cached == Bool(false) {
        var made := creator();
        if made.Arr? {
          return Throws(RuntimeException("GetCachedSimpleDataCallback cannot return objects or arrays"));
        }
        if cacheTime > 0 && made != Bool(false) {
          var _ := Set(cacheKey, made);
        }
        return Ok(made);
      }
      return Ok(cached);
    }
  }

  /** After InvalidateCachedObject, the next GetCachedObject for the same object
      misses and calls the creator. */
  lemma InvalidateForcesCreate(store: map<string, Value>, prefix: string, objectID: Value, objectType: string, callbackFunction: string, cacheTime: int, made: Value)
    ensures var key := ObjectCacheKey(objectID, objectType, callbackFunction);
      ReadThrough(store - {MapKey(prefix, key)}, prefix, key, cacheTime, made).created
  {
  }
}
