/** The API-key manager: creating, validating, revoking, rotating and touching keys. Each manager call
    is one atomic step; the clock, the fresh id and the fresh secret are inputs, and the key hash is an
    injective function. */
module ApiKeys {
  import opened Common
  import opened ApiKeyStore

  datatype Config = Config(enabled: bool, prefix: string, defaultExpiry: int, maxKeysPerUser: int)

  datatype Request = Request(tenant: string, user: string, name: string, scopes: seq<string>, expiresIn: int)

  datatype Issued = Issued(key: Key, plaintext: string)

  /** A new identifier and, unless the random source failed, a new secret. */
  datatype Draw = Draw(id: string, secret: Option<string>)

  type Hash = string -> string

  ghost predicate Injective(hash: Hash) {
    forall a, b :: hash(a) == hash(b) ==> a == b
  }

  function ExtractPrefix(plaintext: string, n: nat): (r: string)
    ensures r <= plaintext && |r| == if |plaintext| < n then |plaintext| else n
  {
    if |plaintext| <= n then plaintext else plaintext[..n]
  }

  function Expiry(cfg: Config, expiresIn: int, now: int): Option<int> {
    if expiresIn > 0 then Some(now + expiresIn)
    else if cfg.defaultExpiry > 0 then Some(now + cfg.defaultExpiry)
    else None
  }

  predicate AtCap(cfg: Config, db: Db, tenant: string, user: string, clock: Readings) {
    cfg.maxKeysPerUser > 0 && user != "" && ActiveCount(db, tenant, user, clock) >= cfg.maxKeysPerUser
  }

  function NewKey(cfg: Config, hash: Hash, req: Request, id: string, secret: string, now: int): Key {
    var plaintext := cfg.prefix + secret;
    Key(id, req.tenant, req.user, req.name, hash(plaintext), ExtractPrefix(plaintext, |cfg.prefix| + 8), req.scopes,
        Expiry(cfg, req.expiresIn, now), now, None, None)
  }

  /** What creating a key would answer; nothing is stored unless it is `Ok`. */
  function Creation(cfg: Config, hash: Hash, db: Db, req: Request, draw: Draw, clock: Readings,
                    now: int): Result<Issued> {
    if !cfg.enabled then Err(Disabled)
    else if req.tenant == "" || req.name == "" then Err(InvalidRequest)
    else if AtCap(cfg, db, req.tenant, req.user, clock) then Err(TooManyKeys)
    else if draw.secret.None? then Err(NoEntropy)
    else Ok(Issued(NewKey(cfg, hash, req, draw.id, draw.secret.value, now), cfg.prefix + draw.secret.value))
  }

  function Created(db: Db, r: Result<Issued>): Db {
    if r.Ok? then Put(db, r.value.key) else db
  }

  function Validation(cfg: Config, hash: Hash, db: Db, plaintext: string, now: int): Result<Key> {
    if !cfg.enabled then Err(KeyNotFound)
    else if !(cfg.prefix <= plaintext) then Err(InvalidKey)
    else
      var found := FindByHash(db, hash(plaintext));
      if found.Err? then found
      else if found.value.revoked.Some? then Err(KeyRevoked)
      else if ExpiredAt(found.value, now) then Err(KeyExpired)
      else found
  }

  function Revoked(db: Db, id: string, now: int): Db {
    if id in db.keys then Replace(db, db.keys[id].(revoked := Some(now))) else db
  }

  function Touched(db: Db, id: string, now: int): Db {
    if id in db.keys then Replace(db, db.keys[id].(lastUsed := Some(now))) else db
  }

  /** The request a rotation makes, with the remaining lifetime as read at `t1`. */
  function RotationRequest(old': Key, t1: int): Request {
    var left := if old'.expires.Some? && old'.expires.value - t1 > 0 then old'.expires.value - t1 else 0;
    Request(old'.tenant, old'.user, old'.name + " (rotated)", old'.scopes, left)
  }

  /** Readings of the clock made by one rotation: for the remaining lifetime, while counting, for the
      new key's creation, and for the revocation. */
  datatype Times = Times(t1: int, clock: Readings, t2: int, t3: int)

  function Rotation(cfg: Config, hash: Hash, db: Db, id: string, draw: Draw, t: Times): Result<Issued> {
    if !cfg.enabled then Err(Disabled)
    else if id !in db.keys then Err(KeyNotFound)
    else Creation(cfg, hash, db, RotationRequest(db.keys[id], t.t1), draw, t.clock, t.t2)
  }

  /** The new key is stored before the old one is revoked. */
  function Rotated(db: Db, id: string, r: Result<Issued>, t3: int): Db {
    if r.Ok? then Revoked(Created(db, r), id, t3) else db
  }

  class Manager {
    const cfg: Config
    const hash: Hash
    const store: MemoryStore

    constructor (cfg: Config, hash: Hash, store: MemoryStore)
      ensures this.cfg == cfg && this.hash == hash && this.store == store
    {
      this.cfg, this.hash, this.store := cfg, hash, store;
    }

    method Create(req: Request, draw: Draw, clock: Readings, now: int) returns (r: Result<Issued>)
      modifies store
      ensures r == Creation(cfg, hash, old(store.View()), req, draw, clock, now)
      ensures store.View() == Created(old(store.View()), r)
    {
      if !cfg.enabled {
        return Err(Disabled);
      }
      if req.tenant == "" {
        return Err(InvalidRequest);
      }
      if req.name == "" {
        return Err(InvalidRequest);
      }
      if cfg.maxKeysPerUser > 0 && req.user != "" {
        var count := store.CountByUser(req.tenant, req.user, clock);
        if count >= cfg.maxKeysPerUser {
          return Err(TooManyKeys);
        }
      }
      if draw.secret.None? {
        return Err(NoEntropy);
      }
      var plaintext := cfg.prefix + draw.secret.value;
      var key := Key(draw.id, req.tenant, req.user, req.name, hash(plaintext),
                     ExtractPrefix(plaintext, |cfg.prefix| + 8), req.scopes, None, now, None, None);
      if req.expiresIn > 0 {
        key := key.(expires := Some(now + req.expiresIn));
      } else if cfg.defaultExpiry > 0 {
        key := key.(expires := Some(now + cfg.defaultExpiry));
      }
      store.Create(key);
      r := Ok(Issued(key, plaintext));
    }

    method Validate(plaintext: string, now: int) returns (r: Result<Key>)
      ensures r == Validation(cfg, hash, store.View(), plaintext, now)
      ensures r.Ok? ==> ValidAt(r.value, now)
    {
      if !cfg.enabled {
        return Err(KeyNotFound);
      }
      if !(cfg.prefix <= plaintext) {
        return Err(InvalidKey);
      }
      var found := store.GetByHash(hash(plaintext));
      if found.Err? {
        return found;
      }
      if found.value.revoked.Some? {
        return Err(KeyRevoked);
      }
      if ExpiredAt(found.value, now) {
        return Err(KeyExpired);
      }
      r := found;
    }

    method Revoke(id: string, now: int) returns (r: Result<()>)
      modifies store
      ensures store.View() == if cfg.enabled then Revoked(old(store.View()), id, now) else old(store.View())
      ensures Consistent(old(store.View())) ==>
                r == if !cfg.enabled then Err(Disabled) else if id in old(store.keys) then Ok(()) else Err(KeyNotFound)
    {
      if !cfg.enabled {
        return Err(Disabled);
      }
      var found := store.Get(id);
      if found.Err? {
        return Err(found.error);
      }
      r := store.Update(found.value.(revoked := Some(now)));
    }

    method Rotate(id: string, draw: Draw, t: Times) returns (r: Result<Issued>)
      modifies store
      ensures r == Rotation(cfg, hash, old(store.View()), id, draw, t)
      ensures store.View() == Rotated(old(store.View()), id, r, t.t3)
    {
      if !cfg.enabled {
        return Err(Disabled);
      }
      var found := store.Get(id);
      if found.Err? {
        return Err(found.error);
      }
      var expiresIn := 0;
      if found.value.expires.Some? {
        var remaining := found.value.expires.value - t.t1;
        if remaining > 0 {
          expiresIn := remaining;
        }
      }
      var old' := found.value;
      r := Create(Request(old'.tenant, old'.user, old'.name + " (rotated)", old'.scopes, expiresIn), draw, t.clock,
                  t.t2);
      if r.Err? {
        return;
      }
      var _ := Revoke(id, t.t3);
    }

    method UpdateLastUsed(id: string, now: int) returns (r: Result<()>)
      modifies store
      ensures store.View() == if cfg.enabled then Touched(old(store.View()), id, now) else old(store.View())
      ensures Consistent(old(store.View())) ==>
                r == if cfg.enabled && id !in old(store.keys) then Err(KeyNotFound) else Ok(())
    {
      if !cfg.enabled {
        return Ok(());
      }
      var found := store.Get(id);
      if found.Err? {
        return Err(found.error);
      }
      r := store.Update(found.value.(lastUsed := Some(now)));
    }
  }
}
