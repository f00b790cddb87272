/** The decryption side of the Vault client: the level-3 cache around a remote call. The
    remote service is a function of the ciphertext, but any single call to it may fail. */
module VaultKms {
  import opened ByteStrings
  import opened Wrappers
  import opened TtlCache
  import Base64
  import CacheManager

  /** `Panicked` is the run-time panic of a log line that slices the first twenty bytes of a
      shorter ciphertext. */
  datatype VaultError = CallFailed | BadPlaintext | Panicked

  type Reply = Result<Bytes, VaultError>

  /** What the service would answer: the plaintext in base64, or nothing it can decrypt. */
  type Remote = Bytes -> Option<Bytes>

  /** The plaintext behind a ciphertext. */
  function Plain(remote: Remote, ciphertext: Bytes): Option<Bytes> {
    match remote(ciphertext)
    case None => None
    case Some(encoded) => Base64.Decode(encoded)
  }

  /** The answer with a plaintext in hand, once it has been logged. */
  function Logged(ciphertext: Bytes, plaintext: Bytes): Reply {
    if |ciphertext| < 20 then Err(Panicked) else Ok(plaintext)
  }

  /** Every remembered plaintext is the one the service would give. */
  ghost predicate Sound(remote: Remote, store: map<Bytes, Entry<Bytes>>) {
    forall c :: c in store ==> Plain(remote, c) == Some(store[c].value)
  }

  lemma SoundAfterSet(remote: Remote, was: Ttl<Bytes, Bytes>, c: Bytes, p: Bytes)
    requires Sound(remote, was.store) && Plain(remote, c) == Some(p)
    ensures forall now, victim :: Sound(remote, was.AfterSet(c, p, 0, now, victim).store)
  {
  }

  class VaultTransitClient {
    const remote: Remote
    const cache: CacheManager.Manager

    constructor (remote: Remote, cache: CacheManager.Manager)
      ensures this.remote == remote && this.cache == cache
    {
      this.remote, this.cache := remote, cache;
    }

    /** The cached answer, if the cache is consulted and holds a good one. */
    function Cached(ciphertext: Bytes, now: int): Option<Bytes>
      reads cache.runtime, cache.kms
    {
      if cache.runtime.cacheLevel >= 3 then cache.kms.State().Hit(ciphertext, now) else None
    }

    /** At every cache level a decryption that succeeds gives the service's own plaintext. A
        plaintext is had exactly when a good one is cached or the service is reachable and can
        decrypt, so a cached one answers through an outage; what is had is answered unless the
        ciphertext is too short to be logged, and left in the cache all the same. */
    method Decrypt(ciphertext: Bytes, reachable: bool) returns (r: Reply, ghost asked: int)
      requires cache.Valid() && Sound(remote, cache.kms.store)
      modifies cache.kms, cache.clock
      ensures cache.Valid() && Sound(remote, cache.kms.store)
      ensures old(cache.clock.now) <= asked <= cache.clock.now
      ensures
        var had := old(Cached(ciphertext, asked)).Some? || (reachable && Plain(remote, ciphertext).Some?);
        && (r.Ok? <==> had && |ciphertext| >= 20)
        && (r == Err(Panicked) <==> had && |ciphertext| < 20)
        && (had && cache.runtime.cacheLevel >= 3 ==> ciphertext in cache.kms.store)
      ensures r.Ok? ==> Plain(remote, ciphertext) == Some(r.value)
      ensures cache.runtime.cacheLevel < 3 ==> cache.kms.State() == old(cache.kms.State())
    {
      asked := cache.clock.now;
      if cache.LevelEnabled(3) {
        var cached := cache.kms.Get(ciphertext);
        asked := cache.clock.now;
        if cached.Some? {
          return Logged(ciphertext, cached.value), asked;
        }
      }
      r := Ask(ciphertext, reachable);
      if r.Ok? {
        if cache.LevelEnabled(3) {
          Remember(ciphertext, r.value);
        }
        r := Logged(ciphertext, r.value);
      }
    }

    method Remember(ciphertext: Bytes, plaintext: Bytes)
      requires cache.Valid() && Sound(remote, cache.kms.store) && Plain(remote, ciphertext) == Some(plaintext)
      modifies cache.kms, cache.clock
      ensures cache.Valid() && Sound(remote, cache.kms.store)
      ensures ciphertext in cache.kms.store && cache.clock.now >= old(cache.clock.now)
    {
      SoundAfterSet(remote, cache.kms.State(), ciphertext, plaintext);
      ghost var victim := cache.kms.Set(ciphertext, plaintext, 0);
    }

    method Ask(ciphertext: Bytes, reachable: bool) returns (r: Reply)
      ensures r == RemoteReply(remote, ciphertext, reachable)
    {
      if !reachable || remote(ciphertext).None? {
        return Err(CallFailed);
      }
      var decoded := Base64.Decode(remote(ciphertext).value);
      if decoded.None? {
        return Err(BadPlaintext);
      }
      return Ok(decoded.value);
    }
  }

  /** What comes back from one remote call. */
  function RemoteReply(remote: Remote, ciphertext: Bytes, reachable: bool): (r: Reply)
    ensures r.Ok? <==> reachable && Plain(remote, ciphertext).Some?
    ensures r.Ok? ==> Plain(remote, ciphertext) == Some(r.value)
    ensures r != Err(Panicked)
  {
    if !reachable || remote(ciphertext).None? then Err(CallFailed)
    else if Plain(remote, ciphertext).None? then Err(BadPlaintext)
    else Ok(Plain(remote, ciphertext).value)
  }

  // ---------------------------------------------------------------------------------------
  // Calls in flight together
  // ---------------------------------------------------------------------------------------

  /** Where a call of `Decrypt` stands, named by what it does next. */
  datatype Stage =
    | TestLevel
    | LookUp
    | AskRemote
    | TestLevelAgain(reply: Reply)
    | Store(plaintext: Bytes)
    | Done(r: Reply)

  datatype Call = Call(ciphertext: Bytes, stage: Stage)

  datatype State = State(now: int, level: int, cache: Ttl<Bytes, Bytes>, calls: map<nat, Call>)

  datatype Step =
    | Begin(id: nat, ciphertext: Bytes)
    | Advance(id: nat, reachable: bool, victim: Option<Bytes>)
    | Tick(elapsed: nat)
    | SetLevel(level: int)
    | ClearAll

  function Moved(s: State, id: nat, stage: Stage): State
    requires id in s.calls
  {
    s.(calls := s.calls[id := s.calls[id].(stage := stage)])
  }

  function Advanced(remote: Remote, s: State, id: nat, reachable: bool, victim: Option<Bytes>): State
    requires id in s.calls
  {
    var c := s.calls[id].ciphertext;
    match s.calls[id].stage
    case TestLevel => Moved(s, id, if s.level >= 3 then LookUp else AskRemote)
    case LookUp =>
      var hit := s.cache.Hit(c, s.now);
      Moved(s.(cache := s.cache.AfterGet(c, s.now)), id,
        if hit.Some? then Done(Logged(c, hit.value)) else AskRemote)
    case AskRemote => Moved(s, id, TestLevelAgain(RemoteReply(remote, c, reachable)))
    case TestLevelAgain(reply) =>
      Moved(s, id,
        match reply
        case Err(e) => Done(Err(e))
        case Ok(p) => if s.level >= 3 then Store(p) else Done(Logged(c, p)))
    case Store(p) => Moved(s.(cache := s.cache.AfterSet(c, p, 0, s.now, victim)), id, Done(Logged(c, p)))
    case Done(_) => s
  }

  function Next(remote: Remote, s: State, step: Step): State {
    match step
    case Begin(id, c) => if id in s.calls then s else s.(calls := s.calls[id := Call(c, TestLevel)])
    case Advance(id, reachable, victim) => if id in s.calls then Advanced(remote, s, id, reachable, victim) else s
    case Tick(elapsed) => s.(now := s.now + elapsed)
    case SetLevel(level) => s.(level := level)
    case ClearAll => s.(cache := s.cache.AfterClear())
  }

  function Run(remote: Remote, s: State, steps: seq<Step>): State
    decreases |steps|
  {
    if steps == [] then s else Run(remote, Next(remote, s, steps[0]), steps[1..])
  }

  /** A call has in hand, or has answered, nothing but what the service says; and it panics
      exactly over a plaintext it had. */
  predicate CallOk(remote: Remote, c: Call) {
    var plain := Plain(remote, c.ciphertext);
    match c.stage
    case TestLevelAgain(Ok(p)) => plain == Some(p)
    case TestLevelAgain(Err(e)) => e != Panicked
    case Store(p) => plain == Some(p)
    case Done(Ok(p)) => plain == Some(p) && |c.ciphertext| >= 20
    case Done(Err(Panicked)) => plain.Some? && |c.ciphertext| < 20
    case _ => true
  }

  ghost predicate Inv(remote: Remote, s: State) {
    Sound(remote, s.cache.store) && forall id :: id in s.calls ==> CallOk(remote, s.calls[id])
  }

  lemma AdvanceKeepsInv(remote: Remote, s: State, id: nat, reachable: bool, victim: Option<Bytes>)
    requires Inv(remote, s) && id in s.calls
    ensures Inv(remote, Advanced(remote, s, id, reachable, victim))
  {
    var s' := Advanced(remote, s, id, reachable, victim);
    assert CallOk(remote, s.calls[id]);
    if s.calls[id].stage.Store? {
      SoundAfterSet(remote, s.cache, s.calls[id].ciphertext, s.calls[id].stage.plaintext);
    }
    assert CallOk(remote, s'.calls[id]);
    assert forall other :: other in s.calls && other != id ==> s'.calls[other] == s.calls[other];
  }

  lemma {:induction false} RunKeepsInv(remote: Remote, s: State, steps: seq<Step>)
    requires Inv(remote, s)
    ensures Inv(remote, Run(remote, s, steps))
    decreases |steps|
  {
    if steps != [] {
      match steps[0] {
        case Advance(id, reachable, victim) =>
          if id in s.calls { AdvanceKeepsInv(remote, s, id, reachable, victim); }
        case Begin(id, c) =>
        case Tick(_) =>
        case SetLevel(_) =>
        case ClearAll =>
      }
      RunKeepsInv(remote, Next(remote, s, steps[0]), steps[1..]);
    }
  }

  /** However the look-ups, remote calls and stores of any number of decryptions interleave
      with outages, expiries, evictions, clears and level changes: every plaintext cached or
      answered is the service's, and a call panics only over a plaintext it had. */
  lemma PlaintextsAreTheServices(remote: Remote, cache: Ttl<Bytes, Bytes>, level: int, steps: seq<Step>, id: nat)
    requires cache.store == map[]
    ensures
      var s := Run(remote, State(0, level, cache, map[]), steps);
      && (forall c, now :: s.cache.Hit(c, now).Some? ==> s.cache.Hit(c, now) == Plain(remote, c))
      && (id in s.calls && s.calls[id].stage.Done? ==>
            var c, r := s.calls[id].ciphertext, s.calls[id].stage.r;
            && (r.Ok? ==> Plain(remote, c) == Some(r.value) && |c| >= 20)
            && (r == Err(Panicked) ==> Plain(remote, c).Some? && |c| < 20))
  {
    RunKeepsInv(remote, State(0, level, cache, map[]), steps);
    var s := Run(remote, State(0, level, cache, map[]), steps);
    if id in s.calls { assert CallOk(remote, s.calls[id]); }
  }
}
