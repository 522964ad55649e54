/** The dedup cache of db.go: a bolt key/value file with two named buckets,
    each mapping a user ID to the year-stamped birthday token last notified. */
module Cache {
  import opened Wrappers

  /** One bucket. Bolt refuses empty keys, so a bucket never holds one. */
  type Bucket = m: map<string, string> | "" !in m witness map[]

  /** The contents of the store: bucket name to bucket. Equal names are the
      same bucket. */
  type Store = map<string, Bucket>

  function Quoted(s: string): string { "\"" + s + "\"" }

  /** `tx.CreateBucketIfNotExists(name)`: adds an empty bucket if none has that name. */
  function WithBucket(store: Store, name: string): (r: Store)
    ensures name in r && store.Keys <= r.Keys && r.Keys <= store.Keys + {name}
    ensures forall b :: b in store ==> r[b] == store[b]
    ensures name !in store ==> r[name] == map[]
  {
    if name in store then store else store[name := map[]]
  }

  /** The store after `SaveUserBDToCache(bucket, id, bd)`: the pair is written
      when the bucket is one of the two configured ones, exists, and `id` is
      not empty; otherwise nothing changes. */
  function Saved(store: Store, mBucket: string, cBucket: string, bucket: string, id: string, bd: string): Store {
    if (bucket == mBucket || bucket == cBucket) && bucket in store && id != ""
    then store[bucket := store[bucket][id := bd]]
    else store
  }

  /** What `CheckUserBDInCache(bucket, id, bd)` reports: the bucket is a
      configured one and holds exactly `bd` for `id`. */
  predicate Holds(store: Store, mBucket: string, cBucket: string, bucket: string, id: string, bd: string) {
    (bucket == mBucket || bucket == cBucket) && bucket in store && id in store[bucket] && store[bucket][id] == bd
  }

  /** `DB`: the two bucket names and the store behind them. */
  class DB {
    const managerBucketName: string
    const channelBucketName: string
    var buckets: Store

    /** Both buckets exist: what `openDB` establishes and every later
        operation keeps. */
    ghost predicate Valid()
      reads this
    {
      managerBucketName in buckets && channelBucketName in buckets
    }

    /** A handle over a store that has just been opened. */
    constructor (mBucket: string, cBucket: string, contents: Store)
      ensures managerBucketName == mBucket && channelBucketName == cBucket
      ensures buckets == contents
    {
      managerBucketName, channelBucketName := mBucket, cBucket;
      buckets := contents;
    }

    /** `newBucket`: create the bucket if it does not exist, keep it as it is if it does. */
    method NewBucket(name: string) returns (err: Outcome)
      modifies this
      ensures name == "" ==> err == Fail("bucket name required") && buckets == old(buckets)
      ensures name != "" ==> err == Pass && buckets == WithBucket(old(buckets), name)
      ensures old(Valid()) ==> Valid()
    {
      if name == "" {
        return Fail("bucket name required");
      }
      buckets := WithBucket(buckets, name);
      return Pass;
    }

    /** `put`: write one key in an existing bucket. */
    method Put(bucketName: string, key: string, value: string) returns (err: Outcome)
      modifies this
      ensures bucketName !in old(buckets) ==> err == Fail("bucket " + Quoted(bucketName) + " not found")
      ensures bucketName in old(buckets) && key == "" ==> err == Fail("key required")
      ensures err.Fail? ==> buckets == old(buckets)
      ensures err.Pass? <==> bucketName in old(buckets) && key != ""
      ensures err.Pass? ==> buckets == old(buckets)[bucketName := old(buckets)[bucketName][key := value]]
      ensures old(Valid()) ==> Valid()
    {
      if bucketName !in buckets {
        return Fail("bucket " + Quoted(bucketName) + " not found");
      }
      if key == "" {
        return Fail("key required");
      }
      buckets := buckets[bucketName := buckets[bucketName][key := value]];
      return Pass;
    }

    /** `get`: read one key in a read-only view; a missing key is no value and no error. */
    method Get(bucketName: string, key: string) returns (value: Option<string>, err: Outcome)
      ensures bucketName !in buckets ==> value == None && err == Fail("bucket " + Quoted(bucketName) + " not found")
      ensures bucketName in buckets ==> err == Pass
      ensures bucketName in buckets ==> value == if key in buckets[bucketName] then Some(buckets[bucketName][key]) else None
    {
      if bucketName !in buckets {
        return None, Fail("bucket " + Quoted(bucketName) + " not found");
      }
      if key in buckets[bucketName] {
        value := Some(buckets[bucketName][key]);
      } else {
        value := None;
      }
      err := Pass;
    }

    /** `SaveUserBDToCache`. */
    method SaveUserBDToCache(bucketName: string, id: string, bd: string) returns (err: Outcome)
      modifies this
      ensures buckets == Saved(old(buckets), managerBucketName, channelBucketName, bucketName, id, bd)
      ensures bucketName != managerBucketName && bucketName != channelBucketName
              ==> err == Fail("bucket " + Quoted(bucketName) + " does not exist")
      ensures err.Pass? <==> (bucketName == managerBucketName || bucketName == channelBucketName)
                             && bucketName in old(buckets) && id != ""
      ensures old(Valid()) ==> Valid()
    {
      if bucketName != managerBucketName && bucketName != channelBucketName {
        return Fail("bucket " + Quoted(bucketName) + " does not exist");
      }
      var e := Put(bucketName, id, bd);
      if e.Fail? {
        return Fail("unable to put value into DB: " + e.error);
      }
      return Pass;
    }

    /** `CheckUserBDInCache`: true exactly when the configured bucket holds
        `bd`, byte for byte, for `id`. Reads the store and changes nothing. */
    method CheckUserBDInCache(bucketName: string, id: string, bd: string) returns (ok: bool, err: Outcome)
      ensures ok <==> Holds(buckets, managerBucketName, channelBucketName, bucketName, id, bd)
      ensures bucketName != managerBucketName && bucketName != channelBucketName
              ==> err == Fail("bucket " + Quoted(bucketName) + " does not exist")
      ensures (bucketName == managerBucketName || bucketName == channelBucketName)
              ==> (err.Pass? <==> bucketName in buckets)
    {
      if bucketName != managerBucketName && bucketName != channelBucketName {
        return false, Fail("bucket " + Quoted(bucketName) + " does not exist");
      }
      var dbValue, e := Get(bucketName, id);
      if e.Fail? {
        return false, Fail("unable to get value from DB: " + e.error);
      }
      if dbValue.Some? && dbValue.value == bd {
        return true, Pass;
      }
      return false, Pass;
    }
  }

  /** The store after `openDB` has created both buckets. */
  function Opened(store: Store, mBucket: string, cBucket: string): Store {
    WithBucket(WithBucket(store, mBucket), cBucket)
  }

  /** `openDB`: open the store file (`file` is what `bolt.Open` yields) and
      create each bucket only if it is absent. */
  method OpenDB(mBucket: string, cBucket: string, file: Result<Store>) returns (db: DB?, err: Outcome)
    ensures file.Err? ==> db == null && err == Fail(file.error)
    ensures file.Ok? && (mBucket == "" || cBucket == "") ==> db == null && err == Fail("bucket name required")
    ensures err.Pass? <==> file.Ok? && mBucket != "" && cBucket != ""
    ensures err.Pass? ==> db != null && fresh(db) && db.Valid()
    ensures err.Pass? ==> db.managerBucketName == mBucket && db.channelBucketName == cBucket
    ensures err.Pass? ==> db.buckets == Opened(file.value, mBucket, cBucket)
  {
    if file.Err? {
      return null, Fail(file.error);
    }
    var d := new DB(mBucket, cBucket, file.value);
    var e := d.NewBucket(mBucket);
    if e.Fail? {
      return null, e;
    }
    e := d.NewBucket(cBucket);
    if e.Fail? {
      return null, e;
    }
    return d, Pass;
  }

  /** After a successful save, checking the same token for the same user succeeds,
      and checking any other token fails: a save overwrites. */
  lemma SaveThenCheck(store: Store, m: string, c: string, b: string, id: string, bd: string, other: string)
    requires (b == m || b == c) && b in store && id != ""
    ensures Holds(Saved(store, m, c, b, id, bd), m, c, b, id, bd)
    ensures Holds(Saved(store, m, c, b, id, bd), m, c, b, id, other) <==> other == bd
  {
  }

  /** A save touches one key of one bucket: every other user of that bucket,
      and every other bucket, reads as before. */
  lemma SaveFrame(store: Store, m: string, c: string, b: string, id: string, bd: string, b': string, id': string, v: string)
    requires b' != b || id' != id
    ensures Holds(Saved(store, m, c, b, id, bd), m, c, b', id', v) <==> Holds(store, m, c, b', id', v)
    ensures b' != b && b' in store ==> Saved(store, m, c, b, id, bd)[b'] == store[b']
  {
  }

  /** Opening creates both buckets, keeps every existing bucket as it was, and
      opening again changes nothing. */
  lemma OpenPreserves(store: Store, m: string, c: string)
    ensures m in Opened(store, m, c) && c in Opened(store, m, c)
    ensures forall b :: b in store ==> Opened(store, m, c)[b] == store[b]
    ensures Opened(Opened(store, m, c), m, c) == Opened(store, m, c)
  {
  }

  /** The pairs of `entries` that can be stored (a key may not be empty). */
  function Storable(entries: map<string, string>): Bucket {
    map id | id in entries && id != "" :: entries[id]
  }

  /** The store after saving `entries[id]` for each `id` of `entries` into
      `bucket`, in any order: distinct users are distinct keys, so the order
      does not matter. */
  function SavedEach(store: Store, m: string, c: string, bucket: string, entries: map<string, string>): Store {
    if (bucket == m || bucket == c) && bucket in store
    then store[bucket := store[bucket] + Storable(entries)]
    else store
  }

  /** One more save extends the entries saved so far. */
  lemma SavedEachStep(store: Store, m: string, c: string, bucket: string, entries: map<string, string>, id: string, bd: string)
    ensures Saved(SavedEach(store, m, c, bucket, entries), m, c, bucket, id, bd)
            == SavedEach(store, m, c, bucket, entries[id := bd])
  {
    if (bucket == m || bucket == c) && bucket in store && id != "" {
      assert Storable(entries)[id := bd] == Storable(entries[id := bd]);
      assert (store[bucket] + Storable(entries))[id := bd] == store[bucket] + Storable(entries[id := bd]);
    } else if (bucket == m || bucket == c) && bucket in store {
      assert Storable(entries) == Storable(entries[id := bd]);
    }
  }

  /** Saving nothing leaves the store as it was. */
  lemma SavedNothing(store: Store, m: string, c: string, bucket: string)
    ensures SavedEach(store, m, c, bucket, map[]) == store
  {
    if (bucket == m || bucket == c) && bucket in store {
      assert store[bucket] + Storable(map[]) == store[bucket];
    }
  }
}
