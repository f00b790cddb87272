/** The film workflow: authorise, encrypt, store, read back, audit. */
module FilmService {
  import opened PolicyTypes
  import opened Wrappers
  import opened ByteStrings
  import opened Decimal
  import opened Pep
  import opened Enforcer
  import opened Films
  import Audit
  import LocalKms
  import Runtime

  datatype FilmOutput = FilmOutput(id: string, title: string, timeElapsed: Value)

  /** What the service works on, as a value. */
  datatype World = World(films: seq<FilmRecord>, audit: seq<Audit.Entry>)

  const NONE: multiset<string> := multiset{}

  type Reader = Bytes -> Result<FilmRead, Error>

  /** How a role reads ciphertexts under a policy and a mode. */
  function ReaderFor(policy: Policy, dcs: bool, role: string): Reader {
    ciphertext => ReadFilm(policy, dcs, role, ciphertext)
  }

  /** One call of `Create`, what it does to the world and what it answers, given the verdict,
      the ciphertext and the way of reading. */
  function CreateWith(allow: bool, read: Reader, ciphertext: Bytes,
                      w: World, p: Principal, request: RequestContext, title: string, time: int64)
    : (World, Result<FilmOutput, Error>)
  {
    if !allow then
      (w.(audit := w.audit + [DenyEntry(p, request)]),
       Err(Forbidden))
    else
      var films := w.films + [FilmRecord(p.tenantID, GENERATED_ID, title, ciphertext)];
      match read(ciphertext)
      case Err(e) => (w.(films := films), Err(e))
      case Ok(result) =>
        (World(films, w.audit + [Audit.NewEntry(p, request, "film.create", "film", GENERATED_ID, "allow", "",
           Audit.FilmCreated(title, time, GENERATED_ID),
           multiset(result.decrypted), multiset(result.masked), multiset(result.denied))]),
         Ok(FilmOutput(GENERATED_ID, title, result.value)))
  }

  /** What is written of a refused creation. */
  function DenyEntry(p: Principal, request: RequestContext): Audit.Entry {
    Audit.NewEntry(p, request, "film.create", "film", "", "deny", "", Audit.NoDetails, NONE, NONE, NONE)
  }

  function UpdateWith(d: Decision, read: Reader, ciphertext: Bytes, w: World, p: Principal, request: RequestContext,
                      filmID: string)
    : (World, Result<FilmOutput, Error>)
  {
    var i := FirstMatch(w.films, p.tenantID, filmID);
    if !d.allow then
      (w.(audit := w.audit + [UpdateEntry(p, request, filmID, "deny", d)]), Err(Forbidden))
    else if i == |w.films| then (w, Err(NotFound))
    else
      var updated := w.films[i].(timeElapsedCT := ciphertext);
      var films := w.films[i := updated];
      match read(ciphertext)
      case Err(e) => (w.(films := films), Err(e))
      case Ok(result) =>
        (World(films, w.audit + [UpdateEntry(p, request, filmID, "allow", d)]),
         Ok(FilmOutput(updated.id, updated.title, result.value)))
  }

  function UpdateEntry(p: Principal, request: RequestContext, filmID: string, outcome: string, d: Decision)
    : Audit.Entry
  {
    Audit.NewEntry(p, request, "film.update_time", "film", filmID, outcome, d.hash, Audit.NoDetails, NONE, NONE, NONE)
  }

  /** What `List` has gathered after some rows: the outputs, and the fields seen each way. */
  datatype Gathered = Gathered(
    outputs: seq<FilmOutput>, decrypted: set<string>, masked: set<string>, denied: set<string>)

  function SetOf(s: seq<string>): set<string> {
    set x | x in s
  }

  function Gather(read: Reader, films: seq<FilmRecord>): Result<Gathered, Error> {
    if films == [] then Ok(Gathered([], {}, {}, {}))
    else
      var f := films[|films| - 1];
      match Gather(read, films[..|films| - 1])
      case Err(e) => Err(e)
      case Ok(g) =>
        match read(f.timeElapsedCT)
        case Err(e) => Err(e)
        case Ok(result) =>
          Ok(Gathered(g.outputs + [FilmOutput(f.id, f.title, result.value)],
            g.decrypted + SetOf(result.decrypted), g.masked + SetOf(result.masked), g.denied + SetOf(result.denied)))
  }

  function ListWith(read: Reader, w: World, p: Principal, request: RequestContext)
    : (World, Result<seq<FilmOutput>, Error>)
  {
    match Gather(read, OfTenant(w.films, p.tenantID))
    case Err(e) => (w, Err(e))
    case Ok(g) =>
      (w.(audit := w.audit + [Audit.NewEntry(p, request, "film.read", "film", "", "allow", "", Audit.NoDetails,
         multiset(g.decrypted), multiset(g.masked), multiset(g.denied))]),
       Ok(g.outputs))
  }

  /** The three calls under a policy and a mode. */
  function CreateStep(policy: Policy, dcs: bool, w: World, p: Principal, request: RequestContext, title: string,
                      time: int64)
    : (World, Result<FilmOutput, Error>)
  {
    CreateWith(policy.Decided(dcs, p.role, "film.create", "film").allow, ReaderFor(policy, dcs, p.role),
      LocalKms.Encrypt(Itoa(time)), w, p, request, title, time)
  }

  function UpdateStep(policy: Policy, dcs: bool, w: World, p: Principal, request: RequestContext, filmID: string,
                      time: int64)
    : (World, Result<FilmOutput, Error>)
  {
    UpdateWith(policy.Decided(dcs, p.role, "film.update_time", "film"), ReaderFor(policy, dcs, p.role),
      LocalKms.Encrypt(Itoa(time)), w, p, request, filmID)
  }

  function ListStep(policy: Policy, dcs: bool, w: World, p: Principal, request: RequestContext)
    : (World, Result<seq<FilmOutput>, Error>)
  {
    ListWith(ReaderFor(policy, dcs, p.role), w, p, request)
  }

  lemma {:induction false} GatherPrefix(read: Reader, films: seq<FilmRecord>, i: nat)
    requires i <= |films| && Gather(read, films[..i]).Err?
    ensures Gather(read, films) == Err(Gather(read, films[..i]).error)
    decreases |films|
  {
    if i < |films| {
      assert films[..|films| - 1][..i] == films[..i];
      GatherPrefix(read, films[..|films| - 1], i);
    } else {
      assert films[..i] == films;
    }
  }

  class FilmService {
    const repo: FilmRepository
    const enforcer: DcsEnforcer
    const audit: Audit.Writer
    const runtime: Runtime.Settings

    ghost predicate Valid()
      reads enforcer.cache, enforcer.cache.classification, enforcer.cache.pdp, enforcer.cache.kms, enforcer.cache.pepper
    {
      enforcer.Valid() && enforcer.runtime == runtime
    }

    function Value(): World
      reads repo, audit
    {
      World(repo.films, audit.entries)
    }

    constructor (repo: FilmRepository, enforcer: DcsEnforcer, audit: Audit.Writer, runtime: Runtime.Settings)
      requires enforcer.Valid() && enforcer.runtime == runtime
      ensures Valid() && this.repo == repo && this.enforcer == enforcer
      ensures this.audit == audit && this.runtime == runtime
    {
      this.repo, this.enforcer, this.audit, this.runtime := repo, enforcer, audit, runtime;
    }

    method Create(p: Principal, request: RequestContext, title: string, timeElapsed: int64)
      returns (r: Result<FilmOutput, Error>)
      requires Valid()
      modifies repo, audit, enforcer.cache.classification, enforcer.cache.pdp, enforcer.cache.clock
      ensures Valid()
      ensures (Value(), r) ==
        CreateStep(enforcer.Rules(), runtime.DcsEnabled(), old(Value()), p, request, title, timeElapsed)
    {
      var encrypted := enforcer.EnforceFilmCreate(p, request, timeElapsed);
      if encrypted.Err? {
        audit.Write(DenyEntry(p, request));
        return Err(encrypted.error);
      }
      r := Persist(p, request, title, timeElapsed, encrypted.value);
    }

    /** The rest of `Create` once the caller is authorised: store, read back, audit. */
    method Persist(p: Principal, request: RequestContext, title: string, timeElapsed: int64, ciphertext: Bytes)
      returns (r: Result<FilmOutput, Error>)
      requires Valid()
      modifies repo, audit, enforcer.cache.classification, enforcer.cache.pdp, enforcer.cache.clock
      ensures Valid()
      ensures (Value(), r) == CreateWith(true, ReaderFor(enforcer.Rules(), runtime.DcsEnabled(), p.role), ciphertext,
        old(Value()), p, request, title, timeElapsed)
    {
      var created := repo.Create(p.tenantID, title, ciphertext);
      var read := Read(p, request, created);
      if read.Ok? {
        AuditCreated(p, request, created, timeElapsed, read.value);
        return Ok(FilmOutput(created.id, created.title, read.value.value));
      }
      r := Err(read.error);
    }

    method AuditCreated(p: Principal, request: RequestContext, film: FilmRecord, timeElapsed: int64, result: FilmRead)
      modifies audit
      ensures audit.entries == old(audit.entries) + [Audit.NewEntry(p, request, "film.create", "film", film.id,
        "allow", "", Audit.FilmCreated(film.title, timeElapsed, film.id),
        multiset(result.decrypted), multiset(result.masked), multiset(result.denied))]
    {
      audit.Write(Audit.NewEntry(p, request, "film.create", "film", film.id, "allow", "",
        Audit.FilmCreated(film.title, timeElapsed, film.id),
        multiset(result.decrypted), multiset(result.masked), multiset(result.denied)));
    }

    /** What the caller is shown of a stored row. */
    method Read(p: Principal, request: RequestContext, f: FilmRecord) returns (r: Result<FilmRead, Error>)
      requires Valid()
      modifies enforcer.cache.classification, enforcer.cache.pdp, enforcer.cache.clock
      ensures Valid()
      ensures r == ReaderFor(enforcer.Rules(), runtime.DcsEnabled(), p.role)(f.timeElapsedCT)
    {
      r := enforcer.EnforceFilmRead(p, request, f.id, f.title, f.timeElapsedCT);
    }

    method UpdateTime(p: Principal, request: RequestContext, filmID: string, timeElapsed: int64)
      returns (r: Result<FilmOutput, Error>)
      requires Valid()
      modifies repo, audit, enforcer.cache.classification, enforcer.cache.pdp, enforcer.cache.clock
      ensures Valid()
      ensures (Value(), r) ==
        UpdateStep(enforcer.Rules(), runtime.DcsEnabled(), old(Value()), p, request, filmID, timeElapsed)
    {
      var d := enforcer.EvaluateFilmUpdateTime(p, request, filmID);
      if !d.allow {
        audit.Write(UpdateEntry(p, request, filmID, "deny", d));
        return Err(Forbidden);
      }
      r := Overwrite(p, request, filmID, LocalKms.Encrypt(Itoa(timeElapsed)), d);
    }

    /** The rest of `UpdateTime` once the caller is authorised: store, read back, audit. */
    method Overwrite(p: Principal, request: RequestContext, filmID: string, ciphertext: Bytes, d: Decision)
      returns (r: Result<FilmOutput, Error>)
      requires Valid() && d.allow
      modifies repo, audit, enforcer.cache.classification, enforcer.cache.pdp, enforcer.cache.clock
      ensures Valid()
      ensures (Value(), r) == UpdateWith(d, ReaderFor(enforcer.Rules(), runtime.DcsEnabled(), p.role), ciphertext,
        old(Value()), p, request, filmID)
    {
      var updated := repo.UpdateTimeCiphertext(p.tenantID, filmID, ciphertext);
      if updated.None? {
        return Err(NotFound);
      }
      var f := updated.value;
      var read := Read(p, request, f);
      if read.Err? {
        return Err(read.error);
      }
      audit.Write(UpdateEntry(p, request, filmID, "allow", d));
      r := Ok(FilmOutput(f.id, f.title, read.value.value));
    }

    method List(p: Principal, request: RequestContext) returns (r: Result<seq<FilmOutput>, Error>)
      requires Valid()
      modifies audit, enforcer.cache.classification, enforcer.cache.pdp, enforcer.cache.clock
      ensures Valid()
      ensures (Value(), r) == ListStep(enforcer.Rules(), runtime.DcsEnabled(), old(Value()), p, request)
    {
      var films := repo.ListByTenant(p.tenantID);
      var gathered := ReadAll(p, request, films);
      if gathered.Err? {
        return Err(gathered.error);
      }
      WriteListed(p, request, gathered.value);
      r := Ok(gathered.value.outputs);
    }

    method WriteListed(p: Principal, request: RequestContext, g: Gathered)
      modifies audit
      ensures audit.entries == old(audit.entries) + [Audit.NewEntry(p, request, "film.read", "film", "", "allow", "",
        Audit.NoDetails, multiset(g.decrypted), multiset(g.masked), multiset(g.denied))]
    {
      var decrypted := Audit.MapKeys(g.decrypted);
      var masked := Audit.MapKeys(g.masked);
      var denied := Audit.MapKeys(g.denied);
      audit.Write(Audit.NewEntry(p, request, "film.read", "film", "", "allow", "", Audit.NoDetails,
        multiset(decrypted), multiset(masked), multiset(denied)));
    }

    /** The loop of `List`: row by row, stopping at the first that cannot be read. */
    method ReadAll(p: Principal, request: RequestContext, films: seq<FilmRecord>) returns (r: Result<Gathered, Error>)
      requires Valid()
      modifies enforcer.cache.classification, enforcer.cache.pdp, enforcer.cache.clock
      ensures Valid()
      ensures r == Gather(ReaderFor(enforcer.Rules(), runtime.DcsEnabled(), p.role), films)
    {
      ghost var reader := ReaderFor(enforcer.Rules(), runtime.DcsEnabled(), p.role);
      var g := Gathered([], {}, {}, {});
      for i := 0 to |films|
        invariant Valid()
        invariant Gather(reader, films[..i]) == Ok(g)
      {
        var f := films[i];
        assert films[..i + 1][..i] == films[..i];
        var read := Read(p, request, f);
        if read.Err? {
          GatherPrefix(reader, films, i + 1);
          return Err(read.error);
        }
        var result := read.value;
        g := Gathered(g.outputs + [FilmOutput(f.id, f.title, result.value)],
          g.decrypted + SetOf(result.decrypted), g.masked + SetOf(result.masked), g.denied + SetOf(result.denied));
      }
      assert films[..|films|] == films;
      r := Ok(g);
    }
  }
}
