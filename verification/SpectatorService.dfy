/** Halls and spectators: creation with encryption and a searchable lookup, and search. */
module SpectatorService {
  import opened PolicyTypes
  import opened Wrappers
  import opened ByteStrings
  import opened Decimal
  import opened Pep
  import opened Enforcer
  import opened Cinema
  import Audit
  import LocalKms
  import Runtime

  datatype SpectatorOutput = SpectatorOutput(id: string, hallID: string, name: Value, age: Value, externalID: Value)

  /** What the services work on, as a value. */
  datatype World = World(halls: seq<Hall>, spectators: seq<Spectator>, audit: seq<Audit.Entry>)

  const NONE: multiset<string> := multiset{}

  type Reader = SpectatorRow -> Result<SpectatorRead, Error>

  /** How a role reads encrypted rows under a policy and a mode. */
  function ReaderFor(policy: Policy, dcs: bool, role: string): Reader {
    row => ReadSpectator(policy, dcs, role, row)
  }

  /** With DCS on, only an admin is given a spectator's id in full. */
  function ShownID(dcs: bool, role: string, id: string): string {
    if dcs && role != "admin" then MaskUUID(id) else id
  }

  function Output(dcs: bool, role: string, s: Spectator, read: SpectatorRead): SpectatorOutput {
    SpectatorOutput(ShownID(dcs, role, s.id), s.hallID, read.name, read.age, read.externalID)
  }

  /** What is written of a refused call. */
  function DenyEntry(p: Principal, request: RequestContext, action: string): Audit.Entry {
    Audit.NewEntry(p, request, action, "spectator", "", "deny", "", Audit.NoDetails, NONE, NONE, NONE)
  }

  function CreateWith(allow: bool, dcs: bool, read: Reader, s: Spectator, w: World, p: Principal,
                      request: RequestContext)
    : (World, Result<SpectatorOutput, Error>)
  {
    if FindHall(w.halls, p.tenantID, s.hallID).None? then (w, Err(NotFound))
    else CreateIn(allow, dcs, read, s, w, p, request)
  }

  /** The rest of it once the hall is known to exist. */
  function CreateIn(allow: bool, dcs: bool, read: Reader, s: Spectator, w: World, p: Principal, request: RequestContext)
    : (World, Result<SpectatorOutput, Error>)
  {
    if !allow then
      (w.(audit := w.audit + [DenyEntry(p, request, "spectator.create")]),
       Err(Forbidden))
    else
      var spectators := w.spectators + [s];
      match read(s.row)
      case Err(e) => (w.(spectators := spectators), Err(e))
      case Ok(result) =>
        (World(w.halls, spectators, w.audit +
          [Audit.NewEntry(p, request, "spectator.create", "spectator", s.id, "allow", "",
           Audit.InHall(s.hallID), result.decrypted, result.masked, result.denied)]),
         Ok(Output(dcs, p.role, s, result)))
  }

  function Gather(dcs: bool, role: string, read: Reader, spectators: seq<Spectator>)
    : Result<seq<SpectatorOutput>, Error>
  {
    if spectators == [] then Ok([])
    else
      var s := spectators[|spectators| - 1];
      match Gather(dcs, role, read, spectators[..|spectators| - 1])
      case Err(e) => Err(e)
      case Ok(outputs) =>
        match read(s.row)
        case Err(e) => Err(e)
        case Ok(result) => Ok(outputs + [Output(dcs, role, s, result)])
  }

  lemma {:induction false} GatherPrefix(dcs: bool, role: string, read: Reader, spectators: seq<Spectator>, i: nat)
    requires i <= |spectators| && Gather(dcs, role, read, spectators[..i]).Err?
    ensures Gather(dcs, role, read, spectators) == Err(Gather(dcs, role, read, spectators[..i]).error)
    decreases |spectators|
  {
    if i < |spectators| {
      assert spectators[..|spectators| - 1][..i] == spectators[..i];
      GatherPrefix(dcs, role, read, spectators[..|spectators| - 1], i);
    } else {
      assert spectators[..i] == spectators;
    }
  }

  function SearchWith(allow: bool, dcs: bool, read: Reader, lookup: Bytes, w: World, p: Principal,
                      request: RequestContext)
    : (World, Result<seq<SpectatorOutput>, Error>)
  {
    if !allow then
      (w.(audit := w.audit + [DenyEntry(p, request, "search.spectator")]),
       Err(Forbidden))
    else
      match Gather(dcs, p.role, read, ByLookup(w.spectators, p.tenantID, lookup))
      case Err(e) => (w, Err(e))
      case Ok(outputs) =>
        (w.(audit := w.audit + [Audit.NewEntry(p, request, "search.spectator", "spectator", "", "allow", "",
           Audit.Found(|outputs|), NONE, NONE, NONE)]),
         Ok(outputs))
  }

  /** What the plaintext of a ticket is filed under. */
  datatype Ticket = Ticket(hallID: string, name: Bytes, age: int64, externalID: Bytes)

  function NewSpectator(policy: Policy, p: Principal, id: string, t: Ticket): Spectator {
    Spectator(p.tenantID, id, t.hallID,
      EncryptedRow(t.name, t.age, t.externalID),
      policy.LookupOf(t.externalID))
  }

  /** The calls under a policy and a mode. `id` is the UUID the call draws. */
  function CreateStep(policy: Policy, dcs: bool, w: World, p: Principal, request: RequestContext, t: Ticket, id: string)
    : (World, Result<SpectatorOutput, Error>)
  {
    CreateWith(policy.Decided(dcs, p.role, "spectator.create", "spectator").allow, dcs, ReaderFor(policy, dcs, p.role),
      NewSpectator(policy, p, id, t), w, p, request)
  }

  function SearchStep(policy: Policy, dcs: bool, w: World, p: Principal, request: RequestContext, externalID: Bytes)
    : (World, Result<seq<SpectatorOutput>, Error>)
  {
    SearchWith(policy.Decided(dcs, p.role, "search.spectator", "spectator").allow, dcs, ReaderFor(policy, dcs, p.role),
      policy.LookupOf(externalID), w, p, request)
  }

  /** What the caller asks for when creating a hall. */
  datatype HallInput = HallInput(name: string, ownerUserID: string, currentFilmID: string)

  datatype HallOutput =
    HallOutput(id: string, name: string, ownerUserID: string, currentFilmID: string, spectatorCount: nat)

  /** The stored hall, `id` being the UUID the call draws. */
  function NewHall(p: Principal, hall: HallInput, id: string): Hall {
    Hall(p.tenantID, id, hall.name, hall.ownerUserID, hall.currentFilmID)
  }

  /** How a hall is shown to its creator: as a read would show it, with no spectators yet. */
  function ShownHall(policy: Policy, dcs: bool, role: string, hall: HallInput, id: string): HallOutput {
    var read := ReadHall(policy, dcs, role, hall.name, hall.ownerUserID, hall.currentFilmID);
    HallOutput(id, read.name, read.ownerUserID, read.currentFilmID, 0)
  }

  function HallStep(policy: Policy, dcs: bool, w: World, p: Principal, hall: HallInput, id: string)
    : (World, Result<HallOutput, Error>)
  {
    if !policy.Decided(dcs, p.role, "hall.create", "hall").allow then (w, Err(Forbidden))
    else (w.(halls := w.halls + [NewHall(p, hall, id)]), Ok(ShownHall(policy, dcs, p.role, hall, id)))
  }

  class Services {
    const repo: SpectatorRepository
    const hallRepo: HallRepository
    const enforcer: DcsEnforcer
    const audit: Audit.Writer
    const runtime: Runtime.Settings

    ghost predicate Valid()
      reads enforcer.cache, enforcer.cache.classification, enforcer.cache.pdp, enforcer.cache.kms, enforcer.cache.pepper
    {
      enforcer.Valid() && enforcer.runtime == runtime
    }

    function Value(): World
      reads repo, hallRepo, audit
    {
      World(hallRepo.halls, repo.spectators, audit.entries)
    }

    constructor (repo: SpectatorRepository, hallRepo: HallRepository, enforcer: DcsEnforcer, audit: Audit.Writer,
                 runtime: Runtime.Settings)
      requires enforcer.Valid() && enforcer.runtime == runtime
      ensures Valid() && this.repo == repo && this.hallRepo == hallRepo
      ensures this.enforcer == enforcer && this.audit == audit && this.runtime == runtime
    {
      this.repo, this.hallRepo, this.enforcer, this.audit, this.runtime := repo, hallRepo, enforcer, audit, runtime;
    }

    method AuditDeny(p: Principal, request: RequestContext, action: string)
      modifies audit
      ensures audit.entries == old(audit.entries) + [DenyEntry(p, request, action)]
    {
      audit.Write(DenyEntry(p, request, action));
    }

    /** The hall service's `Create`. */
    method CreateHall(p: Principal, request: RequestContext, hall: HallInput, id: string)
      returns (r: Result<HallOutput, Error>)
      requires Valid()
      modifies hallRepo, enforcer.cache.classification, enforcer.cache.pdp, enforcer.cache.clock
      ensures Valid()
      ensures (Value(), r) == HallStep(enforcer.Rules(), runtime.DcsEnabled(), old(Value()), p, hall, id)
    {
      var d := enforcer.EvaluateHallCreate(p, request, hall.ownerUserID);
      if !d.allow {
        return Err(Forbidden);
      }
      hallRepo.Create(NewHall(p, hall, id));
      var output := ReadBack(p, request, hall, id);
      r := Ok(output);
    }

    /** The creator's view of a new hall. */
    method ReadBack(p: Principal, request: RequestContext, hall: HallInput, id: string) returns (output: HallOutput)
      requires Valid()
      modifies enforcer.cache.classification, enforcer.cache.pdp, enforcer.cache.clock
      ensures Valid()
      ensures output == ShownHall(enforcer.Rules(), runtime.DcsEnabled(), p.role, hall, id)
    {
      var read := enforcer.EnforceHallRead(p, request, id, hall.name, hall.ownerUserID, hall.currentFilmID);
      output := HallOutput(id, read.name, read.ownerUserID, read.currentFilmID, 0);
    }

    method Create(p: Principal, request: RequestContext, t: Ticket, id: string)
      returns (r: Result<SpectatorOutput, Error>)
      requires Valid()
      modifies repo, audit, enforcer.cache.classification, enforcer.cache.pdp, enforcer.cache.clock
      ensures Valid()
      ensures (Value(), r) == CreateStep(enforcer.Rules(), runtime.DcsEnabled(), old(Value()), p, request, t, id)
    {
      var hall := hallRepo.FindByID(p.tenantID, t.hallID);
      if hall.None? {
        return Err(NotFound);
      }
      r := CreateInHall(p, request, t, id);
    }

    /** The rest of `Create` once the hall is known to exist. */
    method CreateInHall(p: Principal, request: RequestContext, t: Ticket, id: string)
      returns (r: Result<SpectatorOutput, Error>)
      requires Valid()
      modifies repo, audit, enforcer.cache.classification, enforcer.cache.pdp, enforcer.cache.clock
      ensures Valid()
      ensures (Value(), r) ==
        CreateIn(enforcer.Rules().Decided(runtime.DcsEnabled(), p.role, "spectator.create", "spectator").allow,
        runtime.DcsEnabled(), ReaderFor(enforcer.Rules(), runtime.DcsEnabled(), p.role),
        NewSpectator(enforcer.Rules(), p, id, t),
        old(Value()), p, request)
    {
      var encrypted := Encrypted(p, request, t, id);
      if encrypted.Err? {
        AuditDeny(p, request, "spectator.create");
        return Err(encrypted.error);
      }
      r := Persist(p, request, encrypted.value);
    }

    /** The entity to store, if the caller may store it. */
    method Encrypted(p: Principal, request: RequestContext, t: Ticket, id: string) returns (r: Result<Spectator, Error>)
      requires Valid()
      modifies enforcer.cache.classification, enforcer.cache.pdp, enforcer.cache.clock
      ensures Valid()
      ensures r == if enforcer.Rules().Decided(runtime.DcsEnabled(), p.role, "spectator.create", "spectator").allow
                   then Ok(NewSpectator(enforcer.Rules(), p, id, t)) else Err(Forbidden)
    {
      var encrypted := enforcer.EnforceSpectatorCreate(p, request, t.name, t.age, t.externalID);
      if encrypted.Err? {
        return Err(encrypted.error);
      }
      r := Ok(Spectator(p.tenantID, id, t.hallID, encrypted.value.0, encrypted.value.1));
    }

    /** The rest of `Create` once the caller is authorised: store, read back, audit. */
    method Persist(p: Principal, request: RequestContext, s: Spectator) returns (r: Result<SpectatorOutput, Error>)
      requires Valid()
      modifies repo, audit, enforcer.cache.classification, enforcer.cache.pdp, enforcer.cache.clock
      ensures Valid()
      ensures (Value(), r) ==
        CreateIn(true, runtime.DcsEnabled(), ReaderFor(enforcer.Rules(), runtime.DcsEnabled(), p.role), s,
        old(Value()), p, request)
    {
      repo.Create(s);
      var read := Read(p, request, s);
      if read.Ok? {
        AuditCreated(p, request, s, read.value);
        return Ok(Output(runtime.DcsEnabled(), p.role, s, read.value));
      }
      r := Err(read.error);
    }

    method AuditCreated(p: Principal, request: RequestContext, s: Spectator, result: SpectatorRead)
      modifies audit
      ensures audit.entries == old(audit.entries) + [Audit.NewEntry(p, request, "spectator.create", "spectator", s.id,
        "allow", "", Audit.InHall(s.hallID), result.decrypted, result.masked, result.denied)]
    {
      audit.Write(Audit.NewEntry(p, request, "spectator.create", "spectator", s.id, "allow", "", Audit.InHall(s.hallID),
        result.decrypted, result.masked, result.denied));
    }

    /** What the caller is shown of a stored spectator. */
    method Read(p: Principal, request: RequestContext, s: Spectator) returns (r: Result<SpectatorRead, Error>)
      requires Valid()
      modifies enforcer.cache.classification, enforcer.cache.pdp, enforcer.cache.clock
      ensures Valid()
      ensures r == ReaderFor(enforcer.Rules(), runtime.DcsEnabled(), p.role)(s.row)
    {
      r := enforcer.EnforceSpectatorRead(p, request, s.id, s.row);
    }

    method Search(p: Principal, request: RequestContext, externalID: Bytes)
      returns (r: Result<seq<SpectatorOutput>, Error>)
      requires Valid()
      modifies audit, enforcer.cache.classification, enforcer.cache.pdp, enforcer.cache.clock
      ensures Valid()
      ensures (Value(), r) == SearchStep(enforcer.Rules(), runtime.DcsEnabled(), old(Value()), p, request, externalID)
    {
      var d := enforcer.EvaluateSpectatorSearch(p, request);
      if d.allow {
        r := SearchAllowed(p, request, externalID);
      } else {
        AuditDeny(p, request, "search.spectator");
        r := Err(Forbidden);
      }
    }

    /** The rest of `Search` once the caller is authorised. */
    method SearchAllowed(p: Principal, request: RequestContext, externalID: Bytes)
      returns (r: Result<seq<SpectatorOutput>, Error>)
      requires Valid()
      modifies audit, enforcer.cache.classification, enforcer.cache.pdp, enforcer.cache.clock
      ensures Valid()
      ensures (Value(), r) ==
        SearchWith(true, runtime.DcsEnabled(), ReaderFor(enforcer.Rules(), runtime.DcsEnabled(), p.role),
        enforcer.Rules().LookupOf(externalID), old(Value()), p, request)
    {
      var lookup := enforcer.hmac(LocalKms.LOCAL_PEPPER, LocalKms.NormalizeExternalID(externalID));
      var found := repo.FindByExternalIDLookup(p.tenantID, lookup);
      var gathered := ReadAll(p, request, found);
      if gathered.Ok? {
        AuditFound(p, request, |gathered.value|);
      }
      r := gathered;
    }

    method AuditFound(p: Principal, request: RequestContext, count: nat)
      modifies audit
      ensures audit.entries == old(audit.entries) + [Audit.NewEntry(p, request, "search.spectator", "spectator", "",
        "allow", "", Audit.Found(count), NONE, NONE, NONE)]
    {
      audit.Write(Audit.NewEntry(p, request, "search.spectator", "spectator", "", "allow", "", Audit.Found(count),
        NONE, NONE, NONE));
    }

    /** The loop of `Search`: row by row, stopping at the first that cannot be read. */
    method ReadAll(p: Principal, request: RequestContext, spectators: seq<Spectator>)
      returns (r: Result<seq<SpectatorOutput>, Error>)
      requires Valid()
      modifies enforcer.cache.classification, enforcer.cache.pdp, enforcer.cache.clock
      ensures Valid()
      ensures r ==
        Gather(runtime.DcsEnabled(), p.role, ReaderFor(enforcer.Rules(), runtime.DcsEnabled(), p.role), spectators)
    {
      ghost var reader := ReaderFor(enforcer.Rules(), runtime.DcsEnabled(), p.role);
      var out: seq<SpectatorOutput> := [];
      for i := 0 to |spectators|
        invariant Valid()
        invariant Gather(runtime.DcsEnabled(), p.role, reader, spectators[..i]) == Ok(out)
      {
        var s := spectators[i];
        assert spectators[..i + 1][..i] == spectators[..i];
        var read := Read(p, request, s);
        if read.Err? {
          GatherPrefix(runtime.DcsEnabled(), p.role, reader, spectators, i + 1);
          return Err(read.error);
        }
        var result := read.value;
        out := out + [Output(runtime.DcsEnabled(), p.role, s, result)];
      }
      assert spectators[..|spectators|] == spectators;
      r := Ok(out);
    }
  }
}
