/** The enforcer: information point, decision point and appliers in sequence, over the local
    key-management client. */
module Enforcer {
  import opened PolicyTypes
  import opened Wrappers
  import opened ByteStrings
  import opened Decimal
  import LocalKms
  import opened Pep
  import Engine
  import Provider
  import CacheManager
  import Runtime

  datatype Error = Forbidden | NotFound | Unreadable

  /** What the enforcer's answers depend on besides mode and request. `hmac` is HMAC-SHA256
      as a function about which nothing is known. */
  datatype Policy = Policy(
    system: Engine.System, store: map<string, Classifications>, pepper: Bytes, hmac: (Bytes, Bytes) -> Bytes)
  {
    /** The decision on a request with every cache out of the picture. */
    function Decided(dcs: bool, role: string, action: string, kind: string): Decision {
      Engine.UncachedFor(system, dcs, action, role, kind, if dcs then Provider.StaticGet(store, kind) else map[])
    }

    /** `ComputeHMACLookup` of the normalised id. */
    function LookupOf(externalID: Bytes): Bytes {
      hmac(pepper, LocalKms.NormalizeExternalID(externalID))
    }
  }

  /** The configuration and classifications the server ships with. */
  predicate Defaults(policy: Policy) {
    policy.system.config == DEFAULT_CONFIG && policy.store == STATIC_CLASSIFICATIONS
  }

  /** What a read of a film yields besides its id and title. */
  datatype FilmRead = FilmRead(value: Value, decrypted: seq<string>, masked: seq<string>, denied: seq<string>)

  function ReadFilm(policy: Policy, dcs: bool, role: string, ciphertext: Bytes): Result<FilmRead, Error> {
    ReadTime(LocalKms.Decrypt, dcs, policy.Decided(dcs, role, "film.read", "film"), ciphertext)
  }

  function ReadTime(decrypt: Decryptor, dcs: bool, d: Decision, ciphertext: Bytes): Result<FilmRead, Error> {
    var seen := TimeSeen(decrypt, dcs, d, ciphertext);
    if seen.Broken? then Err(Unreadable)
    else
      Ok(FilmRead(SeenValue(seen),
        if seen.Shown? then ["time_elapsed"] else [],
        if seen.Masked? then ["time_elapsed"] else [],
        if !d.allow then ["title", "time_elapsed"] else if seen.Denied? then ["time_elapsed"] else []))
  }

  datatype SpectatorRead = SpectatorRead(
    name: Value, age: Value, externalID: Value,
    decrypted: multiset<string>, masked: multiset<string>, denied: multiset<string>)

  function ReadSpectator(policy: Policy, dcs: bool, role: string, row: SpectatorRow): Result<SpectatorRead, Error> {
    ReadUnder(LocalKms.Decrypt, policy.Decided(dcs, role, "spectator.read", "spectator"), row)
  }

  function ReadUnder(decrypt: Decryptor, d: Decision, row: SpectatorRow): Result<SpectatorRead, Error> {
    var seen := AllSeen(decrypt, d, row.Ciphertexts());
    if !d.allow then Ok(SpectatorRead(Null, Null, Null, multiset{}, multiset{}, multiset(SPECTATOR_FIELDS)))
    else if seen["name"].Broken? || seen["age"].Broken? || seen["external_id"].Broken? then Err(Unreadable)
    else
      Ok(SpectatorRead(SeenValue(seen["name"]), SeenValue(seen["age"]), SeenValue(seen["external_id"]),
        multiset(Fields(seen, InClear)), multiset(Fields(seen, AsMask)), multiset(Fields(seen, Withheld))))
  }

  /** A spectator's three fields as they are stored. */
  function EncryptedRow(name: Bytes, age: int64, externalID: Bytes): SpectatorRow {
    SpectatorRow(LocalKms.Encrypt(name), LocalKms.Encrypt(Itoa(age)), LocalKms.Encrypt(externalID))
  }

  /** What a read of a hall yields. */
  datatype HallRead = HallRead(name: string, ownerUserID: string, currentFilmID: string, masked: seq<string>)

  /** A hall's name is always shown; the two ids are masked where the action says mask, and
      shown in every other case, denial and refusal included. */
  function ReadHall(policy: Policy, dcs: bool, role: string, name: string, ownerUserID: string, currentFilmID: string)
    : HallRead
  {
    ShapedHall(policy.Decided(dcs, role, "hall.read", "hall").fieldActions, name, ownerUserID, currentFilmID)
  }

  function ShapedHall(actions: map<string, FieldAction>, name: string, ownerUserID: string, currentFilmID: string)
    : HallRead
  {
    var owner, film := Masks(actions, "owner_user_id"), Masks(actions, "current_film_id");
    HallRead(name,
      if owner then MaskUUID(ownerUserID) else ownerUserID,
      if film then MaskUUID(currentFilmID) else currentFilmID,
      (if owner then ["owner_user_id"] else []) + if film then ["current_film_id"] else [])
  }

  predicate Masks(actions: map<string, FieldAction>, field: string) {
    field in actions && actions[field].MaskAfterDecrypt?
  }

  const FILM_CRYPTO: map<string, map<string, string>> :=
    map["time_elapsed" := map["ciphertext_field" := "time_elapsed_ct"]]

  const SPECTATOR_CRYPTO: map<string, map<string, string>> := map[
    "name" := map["ciphertext_field" := "name_ct"],
    "age" := map["ciphertext_field" := "age_ct"],
    "external_id" := map["ciphertext_field" := "external_id_ct"]]

  class DcsEnforcer {
    const provider: Provider.Provider
    const engine: Engine.Engine
    const filmApplier: FilmApplier
    const spectatorApplier: SpectatorApplier
    const runtime: Runtime.Settings
    const cache: CacheManager.Manager
    const rows: map<string, Classifications>
    const hmac: (Bytes, Bytes) -> Bytes

    ghost predicate Valid()
      reads cache, cache.classification, cache.pdp, cache.kms, cache.pepper
    {
      && provider.runtime == engine.runtime == filmApplier.runtime == runtime
      && provider.cache == engine.cache == cache
      && cache.Valid()
      && Engine.Injective(engine.system.digests.key)
      && (forall kind :: provider.store(kind) == Some(Provider.StaticGet(rows, kind)))
      && (forall kind :: kind in rows ==> Engine.ColonFree(rows[kind]))
      && (forall c :: filmApplier.decrypt(c) == LocalKms.Decrypt(c))
      && (forall c :: spectatorApplier.decrypt(c) == LocalKms.Decrypt(c))
      && Provider.RowsSound(provider.store, cache.classification.store)
      && Engine.CacheSound(engine.system, cache.pdp.store)
    }

    function Rules(): Policy {
      Policy.Policy(engine.system, rows, LocalKms.LOCAL_PEPPER, hmac)
    }

    /** The whole pipeline, with its caches, over fresh ones. */
    constructor (runtime: Runtime.Settings, cache: CacheManager.Manager, system: Engine.System,
                 store: map<string, Classifications>, config: Provider.Config, hmac: (Bytes, Bytes) -> Bytes)
      requires cache.Valid() && cache.classification.store == map[] && cache.pdp.store == map[]
      requires Engine.Injective(system.digests.key)
      requires forall kind :: kind in store ==> Engine.ColonFree(store[kind])
      ensures Valid() && this.runtime == runtime && this.cache == cache
      ensures Rules() == Policy.Policy(system, store, LocalKms.LOCAL_PEPPER, hmac)
    {
      provider := new Provider.Provider(runtime, cache, kind => Some(Provider.StaticGet(store, kind)), config);
      rows := store;
      engine := new Engine.Engine(runtime, cache, system);
      filmApplier := new FilmApplier(runtime, LocalKms.Decrypt);
      spectatorApplier := new SpectatorApplier(LocalKms.Decrypt);
      this.runtime, this.cache, this.hmac := runtime, cache, hmac;
    }

    method Build(req: Provider.Input) returns (input: PolicyInput)
      requires Valid()
      modifies cache.classification, cache.clock
      ensures Valid()
      ensures input == Provider.BuildInput(provider.config, req, ClassificationsFor(req.kind))
    {
      var built := provider.Build(req);
      input := built.value;
    }

    /** What a built input is classified by. */
    ghost function ClassificationsFor(kind: string): Classifications
      reads runtime
    {
      if runtime.DcsEnabled() then Provider.StaticGet(rows, kind) else map[]
    }

    method Judge(input: PolicyInput) returns (d: Decision)
      requires Valid() && Engine.TenantsAgree(input) && Engine.ColonFreeInput(input)
      modifies cache.pdp, cache.clock
      ensures Valid()
      ensures d == Engine.Uncached(engine.system, runtime.DcsEnabled(), input)
    {
      var hit;
      d, hit := engine.Evaluate(input);
    }

    /** Build, then evaluate. Whatever the cache level and whatever the caches hold, the
        decision is the uncached one. */
    method Evaluate(p: Principal, request: RequestContext, action: string, kind: string, id: string, ownerID: string,
                    crypto: map<string, map<string, string>>) returns (d: Decision)
      requires Valid()
      modifies cache.classification, cache.pdp, cache.clock
      ensures Valid()
      ensures d == Rules().Decided(runtime.DcsEnabled(), p.role, action, kind)
    {
      var req := Provider.Input(p, action, kind, id, ownerID, [], request, crypto);
      var input := Build(req);
      Provider.BuiltDecision(engine.system, provider.config, runtime.DcsEnabled(), req, ClassificationsFor(kind));
      d := Judge(input);
    }

    method EvaluateFilmUpdateTime(p: Principal, request: RequestContext, filmID: string) returns (d: Decision)
      requires Valid()
      modifies cache.classification, cache.pdp, cache.clock
      ensures Valid()
      ensures d == Rules().Decided(runtime.DcsEnabled(), p.role, "film.update_time", "film")
    {
      d := Evaluate(p, request, "film.update_time", "film", filmID, "", FILM_CRYPTO);
    }

    method EnforceFilmRead(p: Principal, request: RequestContext, filmID: string, title: string, ciphertext: Bytes)
      returns (r: Result<FilmRead, Error>)
      requires Valid()
      modifies cache.classification, cache.pdp, cache.clock
      ensures Valid()
      ensures r == ReadFilm(Rules(), runtime.DcsEnabled(), p.role, ciphertext)
    {
      var d := Evaluate(p, request, "film.read", "film", filmID, "", FILM_CRYPTO);
      SameTimeSeen(filmApplier.decrypt, runtime.DcsEnabled(), d, ciphertext);
      var applied := filmApplier.Apply(d, FilmRow(title, ciphertext));
      if applied.Err? {
        return Err(Unreadable);
      }
      var a := applied.value;
      r := Ok(FilmRead(Lookup(a.payload, "time_elapsed"), a.decrypted, a.masked, a.denied));
    }

    /** Authorises, then encrypts. */
    method EnforceFilmCreate(p: Principal, request: RequestContext, timeElapsed: int64)
      returns (r: Result<Bytes, Error>)
      requires Valid()
      modifies cache.classification, cache.pdp, cache.clock
      ensures Valid()
      ensures r == if Rules().Decided(runtime.DcsEnabled(), p.role, "film.create", "film").allow
                   then Ok(LocalKms.Encrypt(Itoa(timeElapsed))) else Err(Forbidden)
    {
      var d := Evaluate(p, request, "film.create", "film", "", "", map[]);
      if !d.allow {
        return Err(Forbidden);
      }
      r := Ok(LocalKms.Encrypt(Itoa(timeElapsed)));
    }

    method EvaluateSpectatorSearch(p: Principal, request: RequestContext) returns (d: Decision)
      requires Valid()
      modifies cache.classification, cache.pdp, cache.clock
      ensures Valid()
      ensures d == Rules().Decided(runtime.DcsEnabled(), p.role, "search.spectator", "spectator")
    {
      d := Evaluate(p, request, "search.spectator", "spectator", "search", "", SPECTATOR_CRYPTO);
    }

    method EnforceSpectatorRead(p: Principal, request: RequestContext, spectatorID: string, row: SpectatorRow)
      returns (r: Result<SpectatorRead, Error>)
      requires Valid()
      modifies cache.classification, cache.pdp, cache.clock
      ensures Valid()
      ensures r == ReadSpectator(Rules(), runtime.DcsEnabled(), p.role, row)
    {
      var d := Evaluate(p, request, "spectator.read", "spectator", spectatorID, "", SPECTATOR_CRYPTO);
      var applied := spectatorApplier.Apply(d, row);
      r := ToSpectatorRead(spectatorApplier.decrypt, d, row, applied);
      SameRead(spectatorApplier.decrypt, LocalKms.Decrypt, d, row);
    }

    /** Authorises, encrypts the three fields, and computes the lookup of the ticket id. */
    method EnforceSpectatorCreate(p: Principal, request: RequestContext, name: Bytes, age: int64, externalID: Bytes)
      returns (r: Result<(SpectatorRow, Bytes), Error>)
      requires Valid()
      modifies cache.classification, cache.pdp, cache.clock
      ensures Valid()
      ensures r == if Rules().Decided(runtime.DcsEnabled(), p.role, "spectator.create", "spectator").allow
                   then Ok((EncryptedRow(name, age, externalID), Rules().LookupOf(externalID)))
                   else Err(Forbidden)
    {
      var d := Evaluate(p, request, "spectator.create", "spectator", "", "", SPECTATOR_CRYPTO);
      if !d.allow {
        return Err(Forbidden);
      }
      var row := SpectatorRow(LocalKms.Encrypt(name), LocalKms.Encrypt(Itoa(age)), LocalKms.Encrypt(externalID));
      r := Ok((row, hmac(LocalKms.LOCAL_PEPPER, LocalKms.NormalizeExternalID(externalID))));
    }

    method EvaluateHallCreate(p: Principal, request: RequestContext, ownerID: string) returns (d: Decision)
      requires Valid()
      modifies cache.classification, cache.pdp, cache.clock
      ensures Valid()
      ensures d == Rules().Decided(runtime.DcsEnabled(), p.role, "hall.create", "hall")
    {
      d := Evaluate(p, request, "hall.create", "hall", "", ownerID, map[]);
    }

    method EnforceHallRead(p: Principal, request: RequestContext, hallID: string,
                           name: string, ownerUserID: string, currentFilmID: string) returns (r: HallRead)
      requires Valid()
      modifies cache.classification, cache.pdp, cache.clock
      ensures Valid()
      ensures r == ReadHall(Rules(), runtime.DcsEnabled(), p.role, name, ownerUserID, currentFilmID)
    {
      var d := Evaluate(p, request, "hall.read", "hall", hallID, ownerUserID, map[]);
      r := ShapeHall(d.fieldActions, name, ownerUserID, currentFilmID);
    }

    method ShapeHall(actions: map<string, FieldAction>, name: string, ownerUserID: string, currentFilmID: string)
      returns (r: HallRead)
      ensures r == ShapedHall(actions, name, ownerUserID, currentFilmID)
    {
      r := HallRead(name, ownerUserID, currentFilmID, []);
      if "owner_user_id" in actions && actions["owner_user_id"].MaskAfterDecrypt? {
        r := r.(ownerUserID := MaskUUID(ownerUserID), masked := r.masked + ["owner_user_id"]);
      }
      if "current_film_id" in actions && actions["current_film_id"].MaskAfterDecrypt? {
        r := r.(currentFilmID := MaskUUID(currentFilmID), masked := r.masked + ["current_film_id"]);
      }
    }
  }

  lemma SameTimeSeen(decrypt: Decryptor, dcs: bool, d: Decision, ciphertext: Bytes)
    requires forall c :: decrypt(c) == LocalKms.Decrypt(c)
    ensures TimeSeen(decrypt, dcs, d, ciphertext) == TimeSeen(LocalKms.Decrypt, dcs, d, ciphertext)
  {
  }

  lemma SameRead(decrypt: Decryptor, decrypt': Decryptor, d: Decision, row: SpectatorRow)
    requires forall c :: decrypt(c) == decrypt'(c)
    ensures ReadUnder(decrypt, d, row) == ReadUnder(decrypt', d, row)
  {
    assert AllSeen(decrypt, d, row.Ciphertexts()) == AllSeen(decrypt', d, row.Ciphertexts());
  }

  /** The applier's three lists and payload, as the read result. */
  method ToSpectatorRead(ghost decrypt: Decryptor, d: Decision, ghost row: SpectatorRow,
                         applied: Result<ApplyResult, LocalKms.KmsError>)
    returns (r: Result<SpectatorRead, Error>)
    requires !d.allow ==> applied == Ok(ApplyResult(map[], [], [], ["name", "age", "external_id"]))
    requires d.allow ==>
      var seen := AllSeen(decrypt, d, row.Ciphertexts());
      && (applied.Err? <==> exists field :: field in seen && seen[field].Broken?)
      && (applied.Ok? ==> Partition(applied.value, seen))
    ensures r == ReadUnder(decrypt, d, row)
  {
    ghost var seen := AllSeen(decrypt, d, row.Ciphertexts());
    assert seen.Keys == SPECTATOR_FIELDS;
    if applied.Err? {
      return Err(Unreadable);
    }
    var a := applied.value;
    assert !d.allow ==> multiset(a.denied) == multiset(SPECTATOR_FIELDS);
    r := Ok(SpectatorRead(Lookup(a.payload, "name"), Lookup(a.payload, "age"), Lookup(a.payload, "external_id"),
      multiset(a.decrypted), multiset(a.masked), multiset(a.denied)));
  }
}
