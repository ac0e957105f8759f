/** The in-memory API-key store: a map from ids to keys and an index from hashes to ids. */
module ApiKeyStore {
  import opened Common

  datatype Error =
    | Disabled | InvalidRequest | TooManyKeys | NoEntropy | KeyNotFound | InvalidKey | KeyRevoked | KeyExpired

  datatype Result<T> = Ok(value: T) | Err(error: Error)

  datatype Key = Key(id: string, tenant: string, user: string, name: string, hash: string, prefix: string,
                     scopes: seq<string>, expires: Option<int>, created: int, lastUsed: Option<int>,
                     revoked: Option<int>)

  predicate ExpiredAt(k: Key, now: int) {
    k.expires.Some? && now > k.expires.value
  }

  predicate ValidAt(k: Key, now: int) {
    k.revoked.None? && !ExpiredAt(k, now)
  }

  datatype Db = Db(keys: map<string, Key>, index: map<string, string>)

  function Put(db: Db, k: Key): Db {
    Db(db.keys[k.id := k], db.index[k.hash := k.id])
  }

  function Find(db: Db, id: string): Result<Key> {
    if id in db.keys then Ok(db.keys[id]) else Err(KeyNotFound)
  }

  function FindByHash(db: Db, hash: string): Result<Key> {
    if hash in db.index then Find(db, db.index[hash]) else Err(KeyNotFound)
  }

  function Replace(db: Db, k: Key): Db {
    if k.id in db.keys then db.(keys := db.keys[k.id := k]) else db
  }

  function Remove(db: Db, id: string): Db {
    if id in db.keys then Db(db.keys - {id}, db.index - {db.keys[id].hash}) else db
  }

  /** A clock read once for each key examined. */
  type Readings = string -> int

  predicate Active(k: Key, tenant: string, user: string, now: int) {
    k.tenant == tenant && k.user == user && ValidAt(k, now)
  }

  function Among(keys: map<string, Key>, ids: set<string>, tenant: string, user: string, clock: Readings): set<string> {
    set id | id in ids && id in keys && Active(keys[id], tenant, user, clock(id))
  }

  function Actives(db: Db, tenant: string, user: string, clock: Readings): set<string> {
    Among(db.keys, db.keys.Keys, tenant, user, clock)
  }

  lemma AmongOneMore(keys: map<string, Key>, ids: set<string>, id: string, tenant: string, user: string,
                     clock: Readings)
    requires id in keys && id !in ids
    ensures |Among(keys, ids + {id}, tenant, user, clock)|
         == |Among(keys, ids, tenant, user, clock)| + if Active(keys[id], tenant, user, clock(id)) then 1 else 0
  {
    var a, b := Among(keys, ids, tenant, user, clock), Among(keys, ids + {id}, tenant, user, clock);
    if Active(keys[id], tenant, user, clock(id)) {
      assert b == a + {id};
    } else {
      assert b == a;
    }
  }

  function ActiveCount(db: Db, tenant: string, user: string, clock: Readings): nat {
    |Actives(db, tenant, user, clock)|
  }

  class MemoryStore {
    var keys: map<string, Key>
    var hashIndex: map<string, string>

    constructor ()
      ensures View() == Db(map[], map[])
    {
      keys, hashIndex := map[], map[];
    }

    function View(): Db
      reads this
    {
      Db(keys, hashIndex)
    }

    method Create(k: Key)
      modifies this
      ensures View() == Put(old(View()), k)
    {
      keys := keys[k.id := k];
      hashIndex := hashIndex[k.hash := k.id];
    }

    method Get(id: string) returns (r: Result<Key>)
      ensures r.Ok? <==> id in keys
      ensures r == Find(View(), id)
    {
      r := if id in keys then Ok(keys[id]) else Err(KeyNotFound);
    }

    method GetByHash(hash: string) returns (r: Result<Key>)
      ensures r == FindByHash(View(), hash)
      ensures Consistent(View()) ==>
                (forall k :: r == Ok(k) <==> Scanned(View(), hash, k)) &&
                (r.Err? <==> r == Err(KeyNotFound))
    {
      assert Consistent(View()) ==> forall k :: FindByHash(View(), hash) == Ok(k) <==> Scanned(View(), hash, k) by {
        if Consistent(View()) {
          LookupIsScan(View(), hash);
        }
      }
      if hash !in hashIndex {
        return Err(KeyNotFound);
      }
      r := Get(hashIndex[hash]);
    }

    method Update(k: Key) returns (r: Result<()>)
      modifies this
      ensures View() == Replace(old(View()), k)
      ensures r == if k.id in old(keys) then Ok(()) else Err(KeyNotFound)
    {
      if k.id !in keys {
        return Err(KeyNotFound);
      }
      keys := keys[k.id := k];
      r := Ok(());
    }

    method Delete(id: string) returns (r: Result<()>)
      modifies this
      ensures View() == Remove(old(View()), id)
      ensures r == if id in old(keys) then Ok(()) else Err(KeyNotFound)
    {
      if id !in keys {
        return Err(KeyNotFound);
      }
      hashIndex := hashIndex - {keys[id].hash};
      keys := keys - {id};
      r := Ok(());
    }

    /** The loop visits the ids in any order. */
    method CountByUser(tenant: string, user: string, clock: Readings) returns (count: nat)
      ensures count == ActiveCount(View(), tenant, user, clock)
    {
      hide Among;
      count := 0;
      var todo := keys.Keys;
      ghost var seen: set<string> := {};
      assert Among(keys, seen, tenant, user, clock) == {} by { NoneAmong(keys, tenant, user, clock); }
      while todo != {}
        invariant todo + seen == keys.Keys && todo !! seen
        invariant count == |Among(keys, seen, tenant, user, clock)|
        decreases |todo|
      {
        var id :| id in todo;
        AmongOneMore(keys, seen, id, tenant, user, clock);
        todo := todo - {id};
        seen := seen + {id};
        if keys[id].tenant == tenant && keys[id].user == user && ValidAt(keys[id], clock(id)) {
          count := count + 1;
        }
      }
      assert seen == keys.Keys;
    }
  }

  lemma NoneAmong(keys: map<string, Key>, tenant: string, user: string, clock: Readings)
    ensures Among(keys, {}, tenant, user, clock) == {}
  {}

  // ---------------------------------------------------------------- the index and the map

  /** The index is exactly the inverse of the keys' hashes. */
  ghost predicate Consistent(db: Db) {
    && (forall id :: id in db.keys ==>
          db.keys[id].id == id && db.keys[id].hash in db.index && db.index[db.keys[id].hash] == id)
    && (forall h :: h in db.index ==> db.index[h] in db.keys && db.keys[db.index[h]].hash == h)
  }

  /** Some key in the map is `k` and has this hash: what a linear scan looks for. */
  ghost predicate Scanned(db: Db, hash: string, k: Key) {
    k.hash == hash && exists id :: id in db.keys && db.keys[id] == k
  }

  /** Hash lookup equals a linear scan of the key map, which finds at most one key. */
  lemma LookupIsScan(db: Db, hash: string)
    requires Consistent(db)
    ensures forall k :: FindByHash(db, hash) == Ok(k) <==> Scanned(db, hash, k)
    ensures FindByHash(db, hash).Err? ==> FindByHash(db, hash) == Err(KeyNotFound)
  {
    forall k
      ensures FindByHash(db, hash) == Ok(k) <==> Scanned(db, hash, k)
    {
      if hash in db.index && db.keys[db.index[hash]] == k {
        assert db.index[hash] in db.keys;
      }
    }
  }

  /** Storing a key keeps the index exact precisely when neither its id nor its hash belongs to another
      entry: reusing an id with a new hash leaves the old hash pointing at the new key. */
  lemma PutKeepsIff(db: Db, k: Key)
    requires Consistent(db)
    ensures Consistent(Put(db, k))
       <==> (k.id in db.keys ==> db.keys[k.id].hash == k.hash) && (k.hash in db.index ==> db.index[k.hash] == k.id)
  {
    var t := Put(db, k);
    if k.id in db.keys && db.keys[k.id].hash != k.hash {
      var h := db.keys[k.id].hash;
      assert h in t.index && t.index[h] == k.id && t.keys[k.id].hash != h;
    } else if k.hash in db.index && db.index[k.hash] != k.id {
      var id := db.index[k.hash];
      assert id in t.keys && t.keys[id].hash == k.hash && t.index[k.hash] != id;
    }
  }

  /** Updating never touches the index, so it may not change a hash. */
  lemma ReplaceKeepsIff(db: Db, k: Key)
    requires Consistent(db)
    ensures Consistent(Replace(db, k)) <==> (k.id in db.keys ==> db.keys[k.id].hash == k.hash)
  {
    var t := Replace(db, k);
    if k.id in db.keys && db.keys[k.id].hash != k.hash {
      var h := db.keys[k.id].hash;
      assert h in t.index && t.index[h] == k.id && t.keys[k.id].hash != h;
    }
  }

  lemma RemoveKeeps(db: Db, id: string)
    requires Consistent(db)
    ensures Consistent(Remove(db, id))
    ensures forall h :: FindByHash(Remove(db, id), h)
                     == if id in db.keys && db.keys[id].hash == h then Err(KeyNotFound) else FindByHash(db, h)
  {
    var t := Remove(db, id);
    forall i | i in t.keys
      ensures t.keys[i].id == i && t.keys[i].hash in t.index && t.index[t.keys[i].hash] == i
    {
      assert i in db.keys;
    }
    forall h
      ensures FindByHash(t, h) == if id in db.keys && db.keys[id].hash == h then Err(KeyNotFound) else FindByHash(db, h)
    {
      if h in db.index {
        assert db.index[h] in db.keys;
      }
    }
  }
}
