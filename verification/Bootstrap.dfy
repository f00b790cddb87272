/** The server without a database: local keys, static classifications, seeded repositories. */
module Bootstrap {
  import opened PolicyTypes
  import opened Wrappers
  import opened ByteStrings
  import opened Enforcer
  import opened Films
  import Audit
  import CacheManager
  import Cinema
  import Decimal
  import CinemaRuns
  import Engine
  import FilmLedger
  import FilmService
  import LocalKms
  import Provider
  import Runtime
  import SpectatorService
  import TtlCache

  /** The film and the hall the server starts with. */
  function SeedFilms(ciphertext: Bytes): seq<FilmRecord> {
    [FilmRecord("t1", "film-1", "Interstellar", ciphertext)]
  }

  const SEED_HALLS := [Cinema.Hall("t1", "hall-1", "Hall A", "u-admin", "film-1")]

  /** The shipped classifications have no colon, and name three resource types only. */
  lemma StaticIsColonFree()
    ensures forall kind :: kind in STATIC_CLASSIFICATIONS ==> Engine.ColonFree(STATIC_CLASSIFICATIONS[kind])
  {
    forall kind, field | kind in STATIC_CLASSIFICATIONS && field in STATIC_CLASSIFICATIONS[kind]
      ensures NoColon(STATIC_CLASSIFICATIONS[kind][field])
    {
      assert Provider.Known(STATIC_CLASSIFICATIONS[kind][field]);
      KnownHasNoColon(STATIC_CLASSIFICATIONS[kind][field]);
    }
  }

  lemma KnownHasNoColon(c: string)
    requires Provider.Known(c)
    ensures NoColon(c)
  {
  }

  /** The seed's plaintext is a printed number. */
  lemma SeedPlaintext()
    ensures Decimal.Itoa(120) == "120"
  {
    assert Decimal.Digits(1) == "1" && Decimal.Digits(12) == "12" && Decimal.Digits(120) == "120";
  }

  /** The seed meets what the run theorems ask of the state a run starts from: its film reads
      as 120 in the ledger, its halls are distinct, and no spectator is without a hall. */
  lemma SeedIsFit(policy: Policy)
    ensures FilmLedger.WellStored(SeedFilms(SeedTime())) && FilmLedger.Decryptable(SeedFilms(SeedTime()))
    ensures FilmLedger.Ledger(SeedFilms(SeedTime())) == [FilmLedger.Row("t1", "film-1", "Interstellar", 120)]
    ensures
      var w := SpectatorService.World(SEED_HALLS, [], []);
      CinemaRuns.DistinctHalls(w.halls) && CinemaRuns.Housed(w) && CinemaRuns.AllFiled(policy, w.spectators)
  {
    SeedPlaintext();
    LocalKms.IntRoundTrip(120);
    OneFilm(SeedTime(), 120);
  }

  lemma OneFilm(ciphertext: Bytes, time: Decimal.int64)
    requires FilmLedger.HoldsTime(ciphertext) && LocalKms.DecryptInt(ciphertext) == Some(time)
    ensures FilmLedger.WellStored(SeedFilms(ciphertext)) && FilmLedger.Decryptable(SeedFilms(ciphertext))
    ensures FilmLedger.Ledger(SeedFilms(ciphertext)) == [FilmLedger.Row("t1", "film-1", "Interstellar", time)]
  {
  }

  /** The seed's film as the server stores it. */
  function SeedTime(): Bytes {
    LocalKms.Encrypt("120")
  }

  /** Wires the server: whatever the mode, the cache level and the cache sizes asked for, both
      services start valid, under the shipped rules, over the seed. */
  method NewServices(mode: Bytes, level: int, options: CacheManager.Options, config: Provider.Config,
                     digests: Engine.Digests, hmac: (Bytes, Bytes) -> Bytes, now: int)
    returns (films: FilmService.FilmService, cinema: SpectatorService.Services)
    requires Engine.Injective(digests.key)
    ensures films.Valid() && cinema.Valid() && films.enforcer == cinema.enforcer
    ensures Defaults(films.enforcer.Rules())
    ensures films.runtime.Value() == Runtime.State(Runtime.CleanMode(mode), Runtime.CleanLevel(level))
    ensures films.Value() == FilmService.World(SeedFilms(SeedTime()), [])
    ensures cinema.Value() == SpectatorService.World(SEED_HALLS, [], [])
  {
    var enforcer := NewEnforcer(mode, level, options, config, digests, hmac, now);
    var repo := new FilmRepository(SeedFilms(SeedTime()));
    var audit := new Audit.Writer();
    films := new FilmService.FilmService(repo, enforcer, audit, enforcer.runtime);
    var spectators := new Cinema.SpectatorRepository();
    var halls := new Cinema.HallRepository(SEED_HALLS);
    cinema := new SpectatorService.Services(spectators, halls, enforcer, audit, enforcer.runtime);
  }

  method NewEnforcer(mode: Bytes, level: int, options: CacheManager.Options, config: Provider.Config,
                     digests: Engine.Digests, hmac: (Bytes, Bytes) -> Bytes, now: int)
    returns (enforcer: DcsEnforcer)
    requires Engine.Injective(digests.key)
    ensures enforcer.Valid() && Defaults(enforcer.Rules())
    ensures enforcer.runtime.Value() == Runtime.State(Runtime.CleanMode(mode), Runtime.CleanLevel(level))
  {
    var runtime := new Runtime.Settings(mode, level);
    var clock := new TtlCache.Clock(now);
    var cache := new CacheManager.Manager(runtime, clock, options);
    StaticIsColonFree();
    var system := Engine.System(DEFAULT_CONFIG, digests);
    enforcer := new DcsEnforcer(runtime, cache, system, STATIC_CLASSIFICATIONS, config, hmac);
  }
}
