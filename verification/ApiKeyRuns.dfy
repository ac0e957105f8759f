/** Whole runs of the API-key manager: the exact index, the life of a key, and the per-user cap. */
module ApiKeyRuns {
  import opened Common
  import opened ApiKeyStore
  import opened ApiKeys

  datatype Op =
    | Create(req: Request, draw: Draw, clock: Readings, now: int)
    | Revoke(id: string, now: int)
    | Rotate(id: string, draw: Draw, times: Times)
    | Touch(id: string, now: int)

  /** `issued` maps every plaintext ever handed out to the id of its key; `clock` is the latest
      reading of the time. */
  datatype State = State(db: Db, issued: map<string, string>, clock: int)

  function Init(start: int): State {
    State(Db(map[], map[]), map[], start)
  }

  function Note(issued: map<string, string>, r: Result<Issued>): map<string, string> {
    if r.Ok? then issued[r.value.plaintext := r.value.key.id] else issued
  }

  function Step(cfg: Config, hash: Hash, s: State, op: Op): State {
    match op
    case Create(req, draw, clock, now) =>
      var r := Creation(cfg, hash, s.db, req, draw, clock, now);
      State(Created(s.db, r), Note(s.issued, r), now)
    case Revoke(id, now) => s.(db := if cfg.enabled then Revoked(s.db, id, now) else s.db, clock := now)
    case Rotate(id, draw, t) =>
      var r := Rotation(cfg, hash, s.db, id, draw, t);
      State(Rotated(s.db, id, r, t.t3), Note(s.issued, r), t.t3)
    case Touch(id, now) => s.(db := if cfg.enabled then Touched(s.db, id, now) else s.db, clock := now)
  }

  /** Drawn ids and secrets are new. */
  ghost predicate Fresh(cfg: Config, s: State, draw: Draw) {
    && draw.id !in s.db.keys
    && (draw.secret.Some? ==> cfg.prefix + draw.secret.value !in s.issued)
  }

  /** Every reading made while counting lies between two instants. */
  ghost predicate Between(clock: Readings, lo: int, hi: int) {
    forall id :: lo <= clock(id) <= hi
  }

  /** What is assumed of the outside: fresh draws and a clock that does not go back. */
  ghost predicate Possible(cfg: Config, s: State, op: Op) {
    match op
    case Create(_, draw, clock, now) => Fresh(cfg, s, draw) && s.clock <= now && Between(clock, s.clock, now)
    case Revoke(_, now) => s.clock <= now
    case Rotate(_, draw, t) =>
      Fresh(cfg, s, draw) && s.clock <= t.t1 <= t.t2 <= t.t3 && Between(t.clock, t.t1, t.t2)
    case Touch(_, now) => s.clock <= now
  }

  ghost predicate PossibleRun(cfg: Config, hash: Hash, s: State, ops: seq<Op>)
    decreases |ops|
  {
    ops == [] || (Possible(cfg, s, ops[0]) && PossibleRun(cfg, hash, Step(cfg, hash, s, ops[0]), ops[1..]))
  }

  function Run(cfg: Config, hash: Hash, s: State, ops: seq<Op>): State
    decreases |ops|
  {
    if ops == [] then s else Run(cfg, hash, Step(cfg, hash, s, ops[0]), ops[1..])
  }

  /** A rotation is a creation followed by a revocation, so its midpoint is the state after a creation. */
  function Midpoint(cfg: Config, s: State, id: string, draw: Draw, t: Times): Op
    requires id in s.db.keys
  {
    Create(RotationRequest(s.db.keys[id], t.t1), draw, t.clock, t.t2)
  }

  lemma RotateSplits(cfg: Config, hash: Hash, s: State, id: string, draw: Draw, t: Times)
    requires cfg.enabled && id in s.db.keys && Rotation(cfg, hash, s.db, id, draw, t).Ok?
    ensures Step(cfg, hash, s, Rotate(id, draw, t))
         == Step(cfg, hash, Step(cfg, hash, s, Midpoint(cfg, s, id, draw, t)), Revoke(id, t.t3))
  {}

  // ---------------------------------------------------------------- the index and the issued plaintexts

  /** The store's index is exact, and the plaintexts handed out are exactly those it can find. */
  ghost predicate Sound(cfg: Config, hash: Hash, s: State) {
    && Consistent(s.db)
    && (forall p :: p in s.issued ==>
          cfg.prefix <= p && s.issued[p] in s.db.keys && s.db.keys[s.issued[p]].hash == hash(p))
    && (forall id :: id in s.db.keys ==> s.db.keys[id].tenant != "" && HasPlaintext(s, id))
  }

  ghost predicate HasPlaintext(s: State, id: string) {
    exists p :: p in s.issued && s.issued[p] == id
  }

  lemma IndexedIsIssued(cfg: Config, hash: Hash, s: State, plaintext: string)
    requires Sound(cfg, hash, s) && Injective(hash)
    ensures hash(plaintext) in s.db.index ==> plaintext in s.issued
  {
    var h := hash(plaintext);
    if h in s.db.index {
      assert HasPlaintext(s, s.db.index[h]);
      var p :| p in s.issued && s.issued[p] == s.db.index[h];
      assert p == plaintext;
    }
  }

  lemma SoundPut(cfg: Config, hash: Hash, s: State, k: Key, plaintext: string, now: int)
    requires Sound(cfg, hash, s) && Injective(hash)
    requires k.id !in s.db.keys && plaintext !in s.issued && k.hash == hash(plaintext) && cfg.prefix <= plaintext
    requires k.tenant != ""
    ensures Sound(cfg, hash, State(Put(s.db, k), s.issued[plaintext := k.id], now))
  {
    hide Injective, HasPlaintext, Consistent;
    var t := State(Put(s.db, k), s.issued[plaintext := k.id], now);
    IndexedIsIssued(cfg, hash, s, plaintext);
    PutKeepsIff(s.db, k);
    forall id | id in t.db.keys ensures HasPlaintext(t, id) {
      PlaintextKept(s, k.id, plaintext, t, id);
    }
  }

  lemma PlaintextKept(s: State, new': string, plaintext: string, t: State, id: string)
    requires id == new' || HasPlaintext(s, id)
    requires t.issued == s.issued[plaintext := new'] && plaintext !in s.issued
    ensures HasPlaintext(t, id)
  {
    if id == new' {
      assert t.issued[plaintext] == id;
    } else {
      var p :| p in s.issued && s.issued[p] == id;
      assert t.issued[p] == id;
    }
  }

  /** Replacing a key by one with the same hash and owner. */
  lemma SoundReplace(cfg: Config, hash: Hash, s: State, k: Key, now: int)
    requires Sound(cfg, hash, s) && k.id in s.db.keys
    requires k.hash == s.db.keys[k.id].hash && k.tenant == s.db.keys[k.id].tenant
    ensures Sound(cfg, hash, State(Replace(s.db, k), s.issued, now))
  {
    var t := State(Replace(s.db, k), s.issued, now);
    ReplaceKeepsIff(s.db, k);
    forall id | id in t.db.keys ensures HasPlaintext(t, id) {
      assert HasPlaintext(s, id);
    }
  }

  lemma SoundCreate(cfg: Config, hash: Hash, s: State, req: Request, draw: Draw, clock: Readings, now: int)
    requires Sound(cfg, hash, s) && Injective(hash) && Fresh(cfg, s, draw)
    ensures Sound(cfg, hash, Step(cfg, hash, s, Create(req, draw, clock, now)))
  {
    hide Sound, AtCap, Expiry, ExtractPrefix;
    var r := Creation(cfg, hash, s.db, req, draw, clock, now);
    if r.Ok? {
      SoundPut(cfg, hash, s, r.value.key, r.value.plaintext, now);
    } else {
      SoundClock(cfg, hash, s, now);
    }
  }

  lemma SoundClock(cfg: Config, hash: Hash, s: State, now: int)
    requires Sound(cfg, hash, s)
    ensures Sound(cfg, hash, s.(clock := now))
  {
    forall id | id in s.db.keys ensures HasPlaintext(s.(clock := now), id) {
      assert HasPlaintext(s, id);
    }
  }

  lemma SoundRevoke(cfg: Config, hash: Hash, s: State, id: string, now: int)
    requires Sound(cfg, hash, s)
    ensures Sound(cfg, hash, Step(cfg, hash, s, Revoke(id, now)))
  {
    if cfg.enabled && id in s.db.keys {
      SoundReplace(cfg, hash, s, s.db.keys[id].(revoked := Some(now)), now);
    } else {
      SoundClock(cfg, hash, s, now);
    }
  }

  lemma SoundTouch(cfg: Config, hash: Hash, s: State, id: string, now: int)
    requires Sound(cfg, hash, s)
    ensures Sound(cfg, hash, Step(cfg, hash, s, Touch(id, now)))
  {
    if cfg.enabled && id in s.db.keys {
      SoundReplace(cfg, hash, s, s.db.keys[id].(lastUsed := Some(now)), now);
    } else {
      SoundClock(cfg, hash, s, now);
    }
  }

  lemma SoundStep(cfg: Config, hash: Hash, s: State, op: Op)
    requires Sound(cfg, hash, s) && Injective(hash) && Possible(cfg, s, op)
    ensures Sound(cfg, hash, Step(cfg, hash, s, op))
  {
    hide Sound, Creation, Step;
    match op
    case Create(req, draw, clock, now) => SoundCreate(cfg, hash, s, req, draw, clock, now);
    case Revoke(id, now) => SoundRevoke(cfg, hash, s, id, now);
    case Touch(id, now) => SoundTouch(cfg, hash, s, id, now);
    case Rotate(id, draw, t) =>
      if Rotation(cfg, hash, s.db, id, draw, t).Ok? {
        var mid := Midpoint(cfg, s, id, draw, t);
        RotateSplits(cfg, hash, s, id, draw, t);
        SoundCreate(cfg, hash, s, mid.req, draw, t.clock, t.t2);
        SoundRevoke(cfg, hash, Step(cfg, hash, s, mid), id, t.t3);
      } else {
        RotateFails(cfg, hash, s, id, draw, t);
        SoundClock(cfg, hash, s, t.t3);
      }
  }

  lemma RotateFails(cfg: Config, hash: Hash, s: State, id: string, draw: Draw, t: Times)
    requires Rotation(cfg, hash, s.db, id, draw, t).Err?
    ensures Step(cfg, hash, s, Rotate(id, draw, t)) == s.(clock := t.t3)
  {}

  /** In every run the index stays exact and knows exactly the plaintexts handed out. */
  lemma {:induction false} SoundRun(cfg: Config, hash: Hash, s: State, ops: seq<Op>)
    requires Sound(cfg, hash, s) && Injective(hash) && PossibleRun(cfg, hash, s, ops)
    ensures Sound(cfg, hash, Run(cfg, hash, s, ops))
    decreases |ops|
  {
    hide Sound, Step, Possible;
    if ops != [] {
      SoundStep(cfg, hash, s, ops[0]);
      SoundRun(cfg, hash, Step(cfg, hash, s, ops[0]), ops[1..]);
    }
  }

  /** Past an expiry instant; no expiry is never past. */
  predicate Outlived(expires: Option<int>, now: int) {
    match expires
    case None => false
    case Some(t) => now > t
  }

  /** Validation, exactly: a plaintext is accepted when it was issued and its key is neither revoked
      nor expired, and otherwise refused for the first reason that applies. */
  lemma ValidateExact(cfg: Config, hash: Hash, start: int, ops: seq<Op>, plaintext: string, now: int)
    requires cfg.enabled && Injective(hash) && PossibleRun(cfg, hash, Init(start), ops)
    ensures var s := Run(cfg, hash, Init(start), ops);
            && (plaintext in s.issued ==> s.issued[plaintext] in s.db.keys)
            && Validation(cfg, hash, s.db, plaintext, now) ==
               if plaintext !in s.issued then Err(if cfg.prefix <= plaintext then KeyNotFound else InvalidKey)
               else var k := s.db.keys[s.issued[plaintext]];
                    if k.revoked != None then Err(KeyRevoked) else if Outlived(k.expires, now) then Err(KeyExpired)
                        else Ok(k)
  {
    hide Run, PossibleRun;
    SoundRun(cfg, hash, Init(start), ops);
    var s := Run(cfg, hash, Init(start), ops);
    SoundValidation(cfg, hash, s, plaintext, now);
  }

  lemma SoundValidation(cfg: Config, hash: Hash, s: State, plaintext: string, now: int)
    requires Sound(cfg, hash, s) && Injective(hash) && cfg.enabled
    ensures (plaintext in s.issued ==> s.issued[plaintext] in s.db.keys)
    ensures Validation(cfg, hash, s.db, plaintext, now) ==
            if plaintext !in s.issued then Err(if cfg.prefix <= plaintext then KeyNotFound else InvalidKey)
            else var k := s.db.keys[s.issued[plaintext]];
                 if k.revoked != None then Err(KeyRevoked) else if Outlived(k.expires, now) then Err(KeyExpired)
                     else Ok(k)
  {
    var h := hash(plaintext);
    if h in s.db.index {
      var id := s.db.index[h];
      assert HasPlaintext(s, id);
      var p :| p in s.issued && s.issued[p] == id;
      assert p == plaintext;
    }
  }

  // ---------------------------------------------------------------- what a run never undoes

  /** Keys stay, keep their owner, hash and expiry, and once revoked stay revoked. */
  ghost predicate Later(a: State, b: State) {
    && (forall p :: p in a.issued ==> p in b.issued && b.issued[p] == a.issued[p])
    && (forall id :: id in a.db.keys ==> id in b.db.keys && Kept(a.db.keys[id], b.db.keys[id]))
  }

  predicate Kept(k: Key, k': Key) {
    && k'.id == k.id && k'.tenant == k.tenant && k'.user == k.user && k'.hash == k.hash && k'.scopes == k.scopes
    && k'.expires == k.expires && (k.revoked.Some? ==> k'.revoked.Some?)
  }

  lemma LaterTrans(a: State, b: State, c: State)
    requires Later(a, b) && Later(b, c)
    ensures Later(a, c)
  {}

  lemma LaterCreate(cfg: Config, hash: Hash, s: State, req: Request, draw: Draw, clock: Readings, now: int)
    requires Fresh(cfg, s, draw)
    ensures Later(s, Step(cfg, hash, s, Create(req, draw, clock, now)))
  {
    hide AtCap, Expiry, ExtractPrefix;
  }

  lemma LaterRevoke(cfg: Config, hash: Hash, s: State, id: string, now: int)
    requires Consistent(s.db)
    ensures Later(s, Step(cfg, hash, s, Revoke(id, now)))
  {}

  lemma LaterTouch(cfg: Config, hash: Hash, s: State, id: string, now: int)
    requires Consistent(s.db)
    ensures Later(s, Step(cfg, hash, s, Touch(id, now)))
  {}

  lemma LaterStep(cfg: Config, hash: Hash, s: State, op: Op)
    requires Sound(cfg, hash, s) && Injective(hash) && Possible(cfg, s, op)
    ensures Later(s, Step(cfg, hash, s, op))
  {
    SoundConsistent(cfg, hash, s);
    hide Creation, Step, Later, Sound, Consistent;
    match op
    case Create(req, draw, clock, now) => LaterCreate(cfg, hash, s, req, draw, clock, now);
    case Revoke(id, now) => LaterRevoke(cfg, hash, s, id, now);
    case Touch(id, now) => LaterTouch(cfg, hash, s, id, now);
    case Rotate(id, draw, t) =>
      if Rotation(cfg, hash, s.db, id, draw, t).Ok? {
        var mid := Midpoint(cfg, s, id, draw, t);
        var m := Step(cfg, hash, s, mid);
        RotateSplits(cfg, hash, s, id, draw, t);
        LaterCreate(cfg, hash, s, mid.req, draw, t.clock, t.t2);
        SoundCreate(cfg, hash, s, mid.req, draw, t.clock, t.t2);
        assert Consistent(m.db) by { SoundConsistent(cfg, hash, m); }
        LaterRevoke(cfg, hash, m, id, t.t3);
        LaterTrans(s, m, Step(cfg, hash, m, Revoke(id, t.t3)));
      } else {
        RotateFails(cfg, hash, s, id, draw, t);
        LaterClock(s, t.t3);
      }
  }

  lemma LaterClock(s: State, now: int)
    ensures Later(s, s.(clock := now))
  {}

  lemma SoundConsistent(cfg: Config, hash: Hash, s: State)
    requires Sound(cfg, hash, s)
    ensures Consistent(s.db)
  {}

  lemma {:induction false} LaterRun(cfg: Config, hash: Hash, s: State, ops: seq<Op>)
    requires Sound(cfg, hash, s) && Injective(hash) && PossibleRun(cfg, hash, s, ops)
    ensures Later(s, Run(cfg, hash, s, ops)) && Sound(cfg, hash, Run(cfg, hash, s, ops))
    decreases |ops|
  {
    if ops == [] {
      LaterClock(s, s.clock);
    } else {
      hide Sound, Step, Possible, Later;
      var t := Step(cfg, hash, s, ops[0]);
      SoundStep(cfg, hash, s, ops[0]);
      LaterStep(cfg, hash, s, ops[0]);
      LaterRun(cfg, hash, t, ops[1..]);
      LaterTrans(s, t, Run(cfg, hash, t, ops[1..]));
    }
  }

  ghost predicate Refused(r: Result<Key>) {
    r == Err(KeyRevoked) || r == Err(KeyExpired)
  }

  /** Refusal is final: a plaintext refused as revoked or expired is so refused at every later instant,
      whatever the manager does in between. */
  lemma RefusalIsFinal(cfg: Config, hash: Hash, start: int, before: seq<Op>, after: seq<Op>, plaintext: string,
                       t1: int, t2: int)
    requires Injective(hash) && t1 <= t2
    requires PossibleRun(cfg, hash, Init(start), before)
    requires PossibleRun(cfg, hash, Run(cfg, hash, Init(start), before), after)
    ensures var s := Run(cfg, hash, Init(start), before);
            var u := Run(cfg, hash, s, after);
            Refused(Validation(cfg, hash, s.db, plaintext, t1)) ==> Refused(Validation(cfg, hash, u.db, plaintext, t2))
  {
    var s := Run(cfg, hash, Init(start), before);
    var u := Run(cfg, hash, s, after);
    hide Run, PossibleRun;
    SoundRun(cfg, hash, Init(start), before);
    LaterRun(cfg, hash, s, after);
    hide Sound, Injective, Validation;
    if cfg.enabled {
      SoundValidation(cfg, hash, s, plaintext, t1);
      SoundValidation(cfg, hash, u, plaintext, t2);
    } else {
      NeverDisabled(cfg, hash, s.db, plaintext, t1);
    }
  }

  lemma NeverDisabled(cfg: Config, hash: Hash, db: Db, plaintext: string, now: int)
    requires !cfg.enabled
    ensures !Refused(Validation(cfg, hash, db, plaintext, now))
  {}

  // ---------------------------------------------------------------- the cap

  function Constant(t: int): Readings {
    (id: string) => t
  }

  /** From the latest reading on, no named user has more valid keys than allowed. */
  ghost predicate Capped(cfg: Config, s: State) {
    cfg.maxKeysPerUser > 0 ==>
      forall tenant, user, t :: user != "" && t >= s.clock ==>
          ActiveCount(s.db, tenant, user, Constant(t)) <= cfg.maxKeysPerUser
  }

  lemma SubsetSize<T>(a: set<T>, b: set<T>)
    requires a <= b
    ensures |a| <= |b|
  {
    assert b == a + (b - a);
  }

  /** Time only makes keys invalid. */
  lemma FewerLater(db: Db, tenant: string, user: string, clock: Readings, t: int)
    requires forall id :: clock(id) <= t
    ensures Actives(db, tenant, user, Constant(t)) <= Actives(db, tenant, user, clock)
    ensures ActiveCount(db, tenant, user, Constant(t)) <= ActiveCount(db, tenant, user, clock)
  {
    SubsetSize(Actives(db, tenant, user, Constant(t)), Actives(db, tenant, user, clock));
  }

  lemma OneMoreKey(db: Db, k: Key, tenant: string, user: string, t: int)
    ensures ActiveCount(Put(db, k), tenant, user, Constant(t))
         <= ActiveCount(db, tenant, user, Constant(t)) + if k.tenant == tenant && k.user == user then 1 else 0
  {
    var a, b := Actives(db, tenant, user, Constant(t)), Actives(Put(db, k), tenant, user, Constant(t));
    if k.tenant == tenant && k.user == user {
      assert b <= a + {k.id};
      SubsetSize(b, a + {k.id});
    } else {
      assert b <= a;
      SubsetSize(b, a);
    }
  }

  lemma CappedCreate(cfg: Config, hash: Hash, s: State, req: Request, draw: Draw, clock: Readings, now: int)
    requires Capped(cfg, s) && s.clock <= now && (forall id :: clock(id) <= now)
    ensures Capped(cfg, Step(cfg, hash, s, Create(req, draw, clock, now)))
  {
    hide Expiry, ExtractPrefix, ActiveCount;
    var r := Creation(cfg, hash, s.db, req, draw, clock, now);
    if r.Ok? && cfg.maxKeysPerUser > 0 {
      forall tenant, user, t | user != "" && t >= now
        ensures ActiveCount(Put(s.db, r.value.key), tenant, user, Constant(t)) <= cfg.maxKeysPerUser
      {
        OneMoreKey(s.db, r.value.key, tenant, user, t);
        FewerLater(s.db, tenant, user, clock, t);
      }
    }
  }

  /** Replacing a key without making it valid or moving it adds nothing. */
  lemma CappedReplace(cfg: Config, s: State, k: Key, now: int)
    requires Capped(cfg, s) && s.clock <= now && k.id in s.db.keys && Kept(s.db.keys[k.id], k)
    ensures Capped(cfg, State(Replace(s.db, k), s.issued, now))
  {
    if cfg.maxKeysPerUser > 0 {
      var db := Replace(s.db, k);
      forall tenant, user, t | user != "" && t >= now
        ensures ActiveCount(db, tenant, user, Constant(t)) <= cfg.maxKeysPerUser
      {
        SubsetSize(Actives(db, tenant, user, Constant(t)), Actives(s.db, tenant, user, Constant(t)));
        assert ActiveCount(s.db, tenant, user, Constant(t)) <= cfg.maxKeysPerUser;
      }
    }
  }

  lemma CappedRevoke(cfg: Config, hash: Hash, s: State, id: string, now: int)
    requires Capped(cfg, s) && s.clock <= now && Consistent(s.db)
    ensures Capped(cfg, Step(cfg, hash, s, Revoke(id, now)))
  {
    hide ActiveCount;
    if cfg.enabled && id in s.db.keys {
      CappedReplace(cfg, s, s.db.keys[id].(revoked := Some(now)), now);
    }
  }

  lemma CappedTouch(cfg: Config, hash: Hash, s: State, id: string, now: int)
    requires Capped(cfg, s) && s.clock <= now && Consistent(s.db)
    ensures Capped(cfg, Step(cfg, hash, s, Touch(id, now)))
  {
    hide ActiveCount;
    if cfg.enabled && id in s.db.keys {
      CappedReplace(cfg, s, s.db.keys[id].(lastUsed := Some(now)), now);
    }
  }

  lemma CappedStep(cfg: Config, hash: Hash, s: State, op: Op)
    requires Sound(cfg, hash, s) && Injective(hash) && Possible(cfg, s, op) && Capped(cfg, s)
    ensures Capped(cfg, Step(cfg, hash, s, op))
    ensures op.Rotate? && op.id in s.db.keys ==> Capped(cfg,
                                                        Step(cfg, hash, s, Midpoint(cfg, s, op.id, op.draw, op.times)))
  {
    SoundConsistent(cfg, hash, s);
    hide Creation, Step, Capped, Sound, Consistent;
    match op
    case Create(req, draw, clock, now) => CappedCreate(cfg, hash, s, req, draw, clock, now);
    case Revoke(id, now) => CappedRevoke(cfg, hash, s, id, now);
    case Touch(id, now) => CappedTouch(cfg, hash, s, id, now);
    case Rotate(id, draw, t) =>
      if id in s.db.keys {
        var mid := Midpoint(cfg, s, id, draw, t);
        CappedCreate(cfg, hash, s, mid.req, draw, t.clock, t.t2);
        if Rotation(cfg, hash, s.db, id, draw, t).Ok? {
          var m := Step(cfg, hash, s, mid);
          RotateSplits(cfg, hash, s, id, draw, t);
          SoundCreate(cfg, hash, s, mid.req, draw, t.clock, t.t2);
          SoundConsistent(cfg, hash, m);
          assert m.clock == t.t2 by { CreateClock(cfg, hash, s, mid); }
          CappedRevoke(cfg, hash, m, id, t.t3);
        }
      }
      if Rotation(cfg, hash, s.db, id, draw, t).Err? {
        RotateFails(cfg, hash, s, id, draw, t);
        CappedClock(cfg, s, t.t3);
      }
  }

  lemma CreateClock(cfg: Config, hash: Hash, s: State, op: Op)
    requires op.Create?
    ensures Step(cfg, hash, s, op).clock == op.now
  {}

  lemma CappedClock(cfg: Config, s: State, now: int)
    requires Capped(cfg, s) && s.clock <= now
    ensures Capped(cfg, s.(clock := now))
  {
    hide ActiveCount;
  }

  lemma {:induction false} CappedRun(cfg: Config, hash: Hash, s: State, ops: seq<Op>)
    requires Sound(cfg, hash, s) && Injective(hash) && PossibleRun(cfg, hash, s, ops) && Capped(cfg, s)
    ensures Capped(cfg, Run(cfg, hash, s, ops))
    decreases |ops|
  {
    hide Sound, Step, Possible, Capped;
    if ops != [] {
      SoundStep(cfg, hash, s, ops[0]);
      CappedStep(cfg, hash, s, ops[0]);
      CappedRun(cfg, hash, Step(cfg, hash, s, ops[0]), ops[1..]);
    }
  }

  /** The cap: in every run no named user ever has more valid keys than allowed, also between the two
      halves of a rotation. */
  lemma CapHolds(cfg: Config, hash: Hash, start: int, ops: seq<Op>, next: Op)
    requires Injective(hash) && PossibleRun(cfg, hash, Init(start), ops)
    requires Possible(cfg, Run(cfg, hash, Init(start), ops), next)
    ensures var s := Run(cfg, hash, Init(start), ops);
            && Capped(cfg, s)
            && Capped(cfg, Step(cfg, hash, s, next))
            && (next.Rotate? && next.id in s.db.keys ==>
                  Capped(cfg, Step(cfg, hash, s, Midpoint(cfg, s, next.id, next.draw, next.times))))
  {
    InitCapped(cfg, start);
    SoundRun(cfg, hash, Init(start), ops);
    hide Run, PossibleRun, Capped, Sound, Possible, Step;
    assert Sound(cfg, hash, Init(start)) by { InitSound(cfg, hash, start); }
    CappedRun(cfg, hash, Init(start), ops);
    CappedStep(cfg, hash, Run(cfg, hash, Init(start), ops), next);
  }

  lemma InitSound(cfg: Config, hash: Hash, start: int)
    ensures Sound(cfg, hash, Init(start))
  {}

  lemma InitCapped(cfg: Config, start: int)
    ensures Capped(cfg, Init(start))
  {}

  // ---------------------------------------------------------------- rotation

  /** When a rotation succeeds; at the cap it fails, and a failed rotation changes nothing. */
  lemma RotateOutcome(cfg: Config, hash: Hash, s: State, id: string, draw: Draw, t: Times)
    requires Sound(cfg, hash, s)
    ensures var r := Rotation(cfg, hash, s.db, id, draw, t);
            && (r.Ok? <==> cfg.enabled && id in s.db.keys && draw.secret.Some? &&
                           !AtCap(cfg, s.db, s.db.keys[id].tenant, s.db.keys[id].user, t.clock))
            && (cfg.enabled && id in s.db.keys && AtCap(cfg, s.db, s.db.keys[id].tenant, s.db.keys[id].user,
                                                        t.clock) ==>
                  r == Err(TooManyKeys))
            && (r.Err? ==> Rotated(s.db, id, r, t.t3) == s.db)
  {
    hide AtCap;
    if id in s.db.keys {
      assert |s.db.keys[id].name + " (rotated)"| > 0;
    }
  }

  /** A successful rotation: the new plaintext is accepted in place of the old one, for the same tenant,
      user and scopes, and no other key changes. */
  lemma RotateHandsOver(cfg: Config, hash: Hash, s: State, id: string, draw: Draw, t: Times, plaintext: string,
                        now: int)
    requires Sound(cfg, hash, s) && Injective(hash) && Possible(cfg, s, Rotate(id, draw, t))
    requires Rotation(cfg, hash, s.db, id, draw, t).Ok?
    requires plaintext in s.issued && s.issued[plaintext] == id
    ensures var r := Rotation(cfg, hash, s.db, id, draw, t).value;
            var u := Step(cfg, hash, s, Rotate(id, draw, t));
            && r.plaintext != plaintext
            && Validation(cfg, hash, u.db, plaintext, now) == Err(KeyRevoked)
            && Validation(cfg, hash, u.db, r.plaintext, now)
                == (if Outlived(r.key.expires, now) then Err(KeyExpired) else Ok(r.key))
            && r.key.tenant == s.db.keys[id].tenant && r.key.user == s.db.keys[id].user
            && r.key.scopes == s.db.keys[id].scopes
            && u.db.keys == s.db.keys[r.key.id := r.key][id := s.db.keys[id].(revoked := Some(t.t3))]
  {
    SoundStep(cfg, hash, s, Rotate(id, draw, t));
    var r := Rotation(cfg, hash, s.db, id, draw, t).value;
    var u := Step(cfg, hash, s, Rotate(id, draw, t));
    assert s.db.keys[id].id == id && cfg.enabled;
    RotatedKeys(cfg, hash, s, id, draw, t);
    hide Sound, Step, Creation, Validation, Rotation, Consistent;
    SoundValidation(cfg, hash, u, plaintext, now);
    SoundValidation(cfg, hash, u, r.plaintext, now);
  }

  lemma RotatedKeys(cfg: Config, hash: Hash, s: State, id: string, draw: Draw, t: Times)
    requires Rotation(cfg, hash, s.db, id, draw, t).Ok? && Fresh(cfg, s, draw)
    requires id in s.db.keys && s.db.keys[id].id == id
    ensures var r := Rotation(cfg, hash, s.db, id, draw, t).value;
            var u := Step(cfg, hash, s, Rotate(id, draw, t));
            && r.key.id != id && r.key.revoked.None? && r.plaintext !in s.issued
            && u.issued == s.issued[r.plaintext := r.key.id]
            && u.db.keys == s.db.keys[r.key.id := r.key][id := s.db.keys[id].(revoked := Some(t.t3))]
            && r.key.tenant == s.db.keys[id].tenant && r.key.user == s.db.keys[id].user
            && r.key.scopes == s.db.keys[id].scopes
  {
    hide AtCap, Expiry, ExtractPrefix;
  }

  /** The expiry of a rotated key: a future one moves by the time between two clock readings, so it is
      the same instant exactly when no time passes; a past one is replaced by the default. */
  lemma RotateExpiry(cfg: Config, hash: Hash, db: Db, id: string, draw: Draw, t: Times)
    requires Rotation(cfg, hash, db, id, draw, t).Ok?
    ensures var old', new' := db.keys[id].expires, Rotation(cfg, hash, db, id, draw, t).value.key.expires;
            && (old'.Some? && old'.value > t.t1 ==>
                new' == Some(old'.value + (t.t2 - t.t1)) && (new' == old' <==> t.t1 == t.t2))
            && (old'.Some? && old'.value <= t.t1 ==> new' == Expiry(cfg, 0, t.t2))
            && (old'.None? ==> (new' == old' <==> cfg.defaultExpiry <= 0))
  {
    hide AtCap, ExtractPrefix;
  }

  // ---------------------------------------------------------------- creation

  /** The user's keys that count towards the cap: neither revoked nor, at their reading, outlived. */
  ghost function Held(db: Db, tenant: string, user: string, clock: Readings): set<string> {
    set id | id in db.keys && db.keys[id].tenant == tenant && db.keys[id].user == user
             && db.keys[id].revoked == None && !Outlived(db.keys[id].expires, clock(id))
  }

  lemma HeldAreActive(db: Db, tenant: string, user: string, clock: Readings)
    ensures Held(db, tenant, user, clock) == Actives(db, tenant, user, clock)
  {}

  /** When a key is created: exactly when the manager is on, tenant and name are given, the random source
      works, and the user (if capped) holds fewer keys than allowed; the error is the first that applies. */
  lemma CreateOutcome(cfg: Config, hash: Hash, db: Db, req: Request, draw: Draw, clock: Readings, now: int)
    ensures var r := Creation(cfg, hash, db, req, draw, clock, now);
            var full := cfg.maxKeysPerUser > 0 && req.user != ""
                        && |Held(db, req.tenant, req.user, clock)| >= cfg.maxKeysPerUser;
            && (r.Ok? <==> cfg.enabled && req.tenant != "" && req.name != "" && !full && draw.secret != None)
            && (r == Err(TooManyKeys) <==> cfg.enabled && req.tenant != "" && req.name != "" && full)
            && (r == Err(InvalidRequest) <==> cfg.enabled && (req.tenant == "" || req.name == ""))
            && (r.Ok? ==>
                  && r.value.plaintext == cfg.prefix + draw.secret.value
                  && Matches(r.value.key, req, draw.id, hash(r.value.plaintext), now)
                  && r.value.key.prefix <= r.value.plaintext
                  && (|draw.secret.value| >= 8 ==> |r.value.key.prefix| == |cfg.prefix| + 8)
                  && r.value.key.expires == (if req.expiresIn > 0 then Some(now + req.expiresIn)
                                             else if cfg.defaultExpiry > 0 then Some(now + cfg.defaultExpiry)
                                                 else None))
  {
    HeldAreActive(db, req.tenant, req.user, clock);
  }

  /** A new key as requested: unused and unrevoked. */
  predicate Matches(k: Key, req: Request, id: string, hash: string, now: int) {
    && k.id == id && k.hash == hash && k.tenant == req.tenant && k.user == req.user && k.name == req.name
    && k.scopes == req.scopes && k.created == now && k.lastUsed == None && k.revoked == None
  }

  /** The life of a key: created at `now` in any run, it is accepted, until it is revoked, at every instant
      up to its expiry and at none after it, whatever the manager does meanwhile. Its expiry is the
      requested time after its creation, or without a request the default time, or never. */
  lemma KeyLives(cfg: Config, hash: Hash, start: int, before: seq<Op>, op: Op, after: seq<Op>, at: int)
    requires Injective(hash) && PossibleRun(cfg, hash, Init(start), before) && op.Create?
    requires var s := Run(cfg, hash, Init(start), before);
             && Possible(cfg, s, op) && PossibleRun(cfg, hash, Step(cfg, hash, s, op), after)
             && Creation(cfg, hash, s.db, op.req, op.draw, op.clock, op.now).Ok?
    ensures var s := Run(cfg, hash, Init(start), before);
            var plaintext := Creation(cfg, hash, s.db, op.req, op.draw, op.clock, op.now).value.plaintext;
            var u := Run(cfg, hash, Step(cfg, hash, s, op), after);
            var life := if op.req.expiresIn > 0 then op.req.expiresIn else cfg.defaultExpiry;
            var answer := Validation(cfg, hash, u.db, plaintext, at);
            && op.draw.id in u.db.keys
            && (u.db.keys[op.draw.id].revoked != None <==> answer == Err(KeyRevoked))
            && (u.db.keys[op.draw.id].revoked == None ==>
                  && (answer == Ok(u.db.keys[op.draw.id]) <==> life <= 0 || at <= op.now + life)
                  && (answer == Err(KeyExpired) <==> life > 0 && at > op.now + life))
  {
    var s := Run(cfg, hash, Init(start), before);
    var t := Step(cfg, hash, s, op);
    var issued := Creation(cfg, hash, s.db, op.req, op.draw, op.clock, op.now).value;
    CreateOutcome(cfg, hash, s.db, op.req, op.draw, op.clock, op.now);
    NewKeyStored(cfg, hash, s, op);
    hide Run, PossibleRun;
    SoundRun(cfg, hash, Init(start), before);
    SoundStep(cfg, hash, s, op);
    LaterRun(cfg, hash, t, after);
    var u := Run(cfg, hash, t, after);
    hide Sound, Step, Creation, Validation, Injective, Possible;
    assert u.issued[issued.plaintext] == op.draw.id;
    assert Kept(issued.key, u.db.keys[op.draw.id]);
    hide Later, Matches;
    SoundValidation(cfg, hash, u, issued.plaintext, at);
  }

  lemma NewKeyStored(cfg: Config, hash: Hash, s: State, op: Op)
    requires op.Create? && Creation(cfg, hash, s.db, op.req, op.draw, op.clock, op.now).Ok?
    ensures var issued := Creation(cfg, hash, s.db, op.req, op.draw, op.clock, op.now).value;
            var t := Step(cfg, hash, s, op);
            && op.draw.id in t.db.keys && t.db.keys[op.draw.id] == issued.key
            && issued.plaintext in t.issued && t.issued[issued.plaintext] == op.draw.id
  {
    hide AtCap, Expiry, ExtractPrefix;
  }
}
