# Cinema DCS: a verified model of the data-centric security pipeline

The repository is a cinema back office in which every read and write passes a policy
pipeline. A provider builds a policy input from the caller, the resource and the
classifications of its fields; an engine decides who may act and how each field is shown;
appliers decrypt, mask or withhold the fields; services store ciphertexts and keep an audit
log. Three caches sit in the pipeline, and an administrator can change its mode and cache
level while it runs.

This project models the Go pipeline and the services on it, and two Python pieces with
properties of their own, and proves what they are for: that caching never changes an answer,
that a service over ciphertexts behaves as one over plaintexts seen through a role, that a
search by keyed digest is a plain filter, that the audit log rebuilds the repository.

## How it is laid out

| file | what it holds |
|---|---|
| `ByteStrings`, `Decimal`, `Base64`, `Sorting`, `Wrappers` | byte strings, decimal numbers, base64 (section 4 of RFC 4648) and string sorting, with the round trips and uniqueness the rest needs |
| `LocalKms`, `VaultKms` | the prefix-and-base64 key client; the cached decryption around a remote service |
| `TtlCache`, `CacheManager`, `Runtime`, `AdminSettings` | the Go cache, the four instances, the settings, the settings change |
| `PolicyTypes`, `Provider`, `Engine` | policy inputs, decisions, cached evaluation |
| `Pipeline`, `Transparency`, `Staleness`, `Disclosure` | the interleaving state machine over all of it and its invariant; and what it gives: answers are the uncached ones, how old they can be, what a read can disclose |
| `Pep`, `Enforcer` | the appliers and the composition of provider, engine and appliers |
| `Films`, `Cinema`, `Audit` | the in-memory repositories and the audit log |
| `FilmService`, `FilmLedger`, `FilmAnswers`, `Linearizability` | the film workflow, the theorems about its runs, what its calls answer and log, and the extension to calls that interleave |
| `SpectatorService`, `CinemaRuns`, `SpectatorViews`, `CinemaAnswers` | halls and spectators, the theorems about their runs, and what their calls answer, refuse and log |
| `Bootstrap` | the seeded server, which meets what the theorems ask of a starting state |
| `PyCache`, `DeepMerge` | the Python cache with insertion-order eviction; the recursive configuration merge |

What the source changes step by step is a class or a method with a loop. Each such method is
proved equal to a function on values (`TTL.Set` to `Ttl.AfterSet`, `FilmService.Create` to
`CreateStep`, and so on), and the theorems about runs are about those functions. Iteration
over a Go map, the choice of an entry to evict and the reading of a clock are left open: the
proofs hold for every choice.

The pipeline under concurrency is a state machine (`Pipeline`). One step is one atomic access
of one call: a reading of the settings, a locked `Get`, `Set` or `Clear`, a query of the
store. Any number of calls are in flight; time passes, entries expire and are evicted, caches
are cleared, the level and the mode change, the classification store changes, in any order.

## Assumptions

- SHA-256 over JSON and HMAC-SHA256 are functions about which nothing is known. The results
  about runs of interleaved calls ask of the digest of cache keys only that it does not collide
  on the payloads of the run's own calls (`NoCollision`). Those about the classes, one call
  after another, ask it of all payloads (`Injective`), an idealisation no digest of fixed length
  meets. The digest of ticket ids need not be collision-free, and the results say exactly what
  a collision costs. The JSON text is taken to tell its objects apart, which it does for
  well-formed UTF-8.
- Strings are bytes; trimming and letter case are the ASCII ones.
- Time never goes backwards. It does not pass within one atomic step.
- There is one pepper for creation and search: the local client's.
- The audit writer works. (The in-memory server is wired with none; see `bootstrap/http.go:260`.)
- The mode is read once in `Build`, once or twice in `Evaluate` (for the key, and to decide),
  and for films once more in `Apply`. In the state machine it may be switched between any of
  them. That the two readings of `Evaluate` agree is not assumed for transparency but proved to
  be its exact condition; `SwitchInBetweenMisleads` is a run in which they do not. That DCS is
  not switched on between `Build` and `Evaluate` is, likewise, the exact condition for an
  allowed decision to be of the store's contents, if those are never empty (`TimelyIff`);
  `LateSwitchMisses` is a run in which it is. What may be shown to whom needs neither condition
  (`Disclosure`).
- The time a call may stay in flight is bounded by a parameter, `latency`. It enters the
  staleness bound because a cached row set lives for its lifetime from when it is stored, not
  from when it was read; `StalenessBoundIsReached` shows it cannot be left out.

## Where the code is not what one would read into it

- `decisionCacheKey` leaves out the resource's tenant. Equal keys give equal DCS decisions
  exactly when the inputs agree on whether their tenants match (`KeyDecides`); `Build` copies
  the principal's tenant, so for built inputs they always do. A classification with a colon
  would break the key (`ColonCollides`, `EntryUniqueIff`); neither store yields one.
- Switching DCS off keeps who is allowed except when the tenants disagree and the action would
  be allowed at all (`SwitchingOffKeepsPermissions`).
- Roles are lower-cased for the field matrix, but compared as written for writing and for
  hardening spectator fields: "Agent" reads times and cannot write.
- A spectator field whose action is "allow" is withheld, like a denied one.
- The film list shows the stored title whatever the decision says of titles.
- A film read under DCS off, or under an action "allow", shows the ciphertext; a spectator read
  under DCS off shows nothing.
- Every film created in memory has the id `film-abcdefgh`; updates reach the first match.
- `mapKeys` is documented as sorted and is not.
- The hall repository's own spectator counts are set to zero on creation and not maintained;
  the counts proved to add up are those of the spectator repository.
- A Go cache entry is good at the very instant it expires, a Python one is not.
- A hall's owner and current film are masked where the action is mask, and shown where it is deny.
- Decrypting through Vault slices the first 20 bytes of the ciphertext for a log line, and panics
  on a shorter one once it has the plaintext.
- A film creation refused by policy carries no decision hash in its audit entry.

## Model

| member | source | states |
|---|---|---|
| Transparency.CachesAreTransparent | backend-go/internal/dcs/pdp/engine.go:30-58 | in every run of any number of interleaved calls with clears, evictions, expiries, level changes, mode switches and store changes, and for every set of keys: every decision stored or returned under one of them, hash included, is the uncached one for the mode its call read, the first mode if it read two that differ, if and only if the two readings agree of each call that asked the cache under one of them and then decided |
| Transparency.AnswerIsRight | backend-go/internal/dcs/pdp/engine.go:33-56 | one call's answer is the uncached one whenever no call of the run disagreed under that call's own key, whatever calls under other keys did |
| Transparency.AnswersAreOfSomeMode | backend-go/internal/dcs/pdp/engine.go:30-58 | however the mode is switched, a returned decision is the uncached one for DCS on or the one for DCS off |
| Transparency.DisagreementShows | backend-go/internal/dcs/pdp/engine.go:34-56 | a call whose readings disagree holds a wrong decision from then on, under the key it asked for |
| Staleness.StalenessIsBounded | backend-go/internal/dcs/pip/provider.go:51-113 | with a store that changes over time, and no call having disagreed under the call's own key: a DCS-on decision for which DCS was not switched on between `Build` and `Evaluate` is the one for the store's contents at an instant at most the classification lifetime plus two call latencies back, or one latency when the rows did not come from the cache, the decision lifetime adding nothing; a DCS-off decision is the one for any contents |
| Staleness.TimelyIff | backend-go/internal/dcs/pip/provider.go:55-67 | for a store whose answers are never empty, an allowed DCS-on decision is of the store's contents at some instant within the bound if and only if DCS was not switched on between the call's `Build` and its `Evaluate`; otherwise it is of no contents at all |
| Staleness.UnclassifiedIsOfNothing | backend-go/internal/dcs/pip/provider.go:54-67 | a call whose `Build` read DCS off is decided as if the store were empty |
| Staleness.RefusalIsOfAll | backend-go/internal/dcs/pdp/engine.go:128-130 | a refusal is the decision for any contents, so it is never out of date |
| Staleness.QuietSwitchesSuffice | backend-go/internal/transport/http/security_handler.go:87-88 | if DCS is switched on only while no call is between a `Build` that read it off and its `Evaluate`, every DCS-on decision of the run is within the bound |
| Staleness.LateSwitchMisses | backend-go/internal/dcs/pip/provider.go:55 | a run, possible for every request and without any cache, in which DCS is switched on after `Build`: the DCS-on answer is that for no classifications, and, if it allows, differs from that for every non-empty contents |
| Staleness.StalenessBoundIsReached | backend-go/internal/dcs/pip/provider.go:105-112 | that bound is exact: whenever the store's rows of one instant never return, some run hands out a decision on them one lifetime and two latencies later, so the lifetime alone is the bound only when calls take no time |
| Pipeline.StepKeepsInv | backend-go/internal/dcs/pdp/engine.go:33-56 | every step keeps: stored decisions are what their keys determine, stored rows are the store's own of a recent enough instant, every call in flight carries what it read; exactly so for the keys under which calls decide in the mode they asked for, and up to the mode for all others |
| Transparency.StoredAnswerIff | backend-go/internal/dcs/pdp/engine.go:34-56 | what a call is about to store is what its key stands for if and only if its two readings of the mode agree, and is right for its second reading in any case |
| Transparency.SwitchInBetweenMisleads | backend-go/internal/dcs/pdp/engine.go:41-55 | for every cacheable request there is a run with switches between one call's two readings after which another call, all of whose readings said off, is answered with the DCS-on decision |
| Disclosure.ShownIffAllOn | backend-go/internal/dcs/pep/film.go:40-93 | of one film read the time is shown in clear if and only if the readings of the mode in `Build`, in `Evaluate` and in `Apply` all say on, the caller may act, the matrix says decrypt and the ciphertext decrypts; masked likewise; withheld if and only if the caller may not act or all three say on and the matrix says deny; and otherwise it is the ciphertext as stored |
| Disclosure.TimeIsShownByMatrix | backend-go/internal/dcs/pep/film.go:48-86 | however calls interleave and switches fall between any readings, a time is shown in clear or masked only where the matrix gives the role that action on the classification read in the store |
| Disclosure.FieldIsShownByMatrix | backend-go/internal/dcs/pep/spectator_applier.go:63-114 | the same of every spectator field |
| Disclosure.OnlyAgentsAndAdminsSeeTimes | backend-go/internal/dcs/pep/film.go:67-79 | under the shipped defaults no switching of modes shows a time in clear to anyone but an agent or an admin |
| Engine.KeyCanonical | backend-go/internal/dcs/pdp/engine.go:220-244 | for colon-free classifications two inputs have one key exactly when mode, action, tenant, role, user, resource type, owner, labels as a multiset and field classifications agree, whatever the map order |
| Engine.KeyDecides | backend-go/internal/dcs/pdp/engine.go:95-153 | under one key the uncached decisions are equal if and only if DCS is off or the inputs agree on whether their tenants match |
| Engine.EntriesFaithful | backend-go/internal/dcs/pdp/engine.go:221-225 | the sorted field entries of two colon-free maps are equal exactly when the maps are |
| Engine.EntriesAnyOrder | backend-go/internal/dcs/pdp/engine.go:221-225 | whichever field is taken first, the entries collected are the same multiset |
| Engine.EntryReadable | backend-go/internal/dcs/pdp/engine.go:221-225 | a classification can be read back from its entry exactly when it holds no colon |
| Engine.EntryUniqueIff | backend-go/internal/dcs/pdp/engine.go:221-225 | a classification shares its entry with no other field and colon-free classification if and only if it holds no colon itself |
| Engine.ColonCollides | backend-go/internal/dcs/pdp/engine.go:221-225 | two field maps with a colon in a classification that share their sorted entries though the decisions on them differ |
| Engine.DecisionShape | backend-go/internal/dcs/pdp/engine.go:132-152 | an allowed decision has one action per input field, a refused one none, and for an agent on a spectator every present hardening field is masked, for every configuration |
| Engine.SwitchingOffKeepsPermissions | backend-go/internal/dcs/pdp/engine.go:186-208 | permission without DCS equals permission with it if and only if the tenants agree or the action would be refused anyway |
| Engine.VerdictIs | backend-go/internal/dcs/pdp/engine.go:100-130 | who may do what, from membership in the four lists alone, and what each reason says of it |
| Engine.MatrixActionIs | backend-go/internal/dcs/pdp/engine.go:155-184 | a field that is not hardened gets the word the matrix has for the lower-case role and its classification, the default one if it has none; unlisted pairs and unknown words deny |
| Engine.HashTells | backend-go/internal/dcs/pdp/engine.go:67-93 | without a collision two hashes agree exactly when verdict, field actions and reason do |
| Engine.StoredAnswerIsSound | backend-go/internal/dcs/pdp/engine.go:54-56 | an answer stored under its own key is right for every input and mode that could look it up |
| Engine.Engine.DecideInput | backend-go/internal/dcs/pdp/engine.go:95-153 | the decision filled field by field in any map order and then hardened in list order is the per-field decision of the specification |
| Engine.Engine.Harden | backend-go/internal/dcs/pdp/engine.go:143-150 | exactly the present fields of the list are masked, whatever its order and duplicates; no field appears or goes |
| Engine.Engine.FillActions | backend-go/internal/dcs/pdp/engine.go:132-141 | every field gets the matrix action of its classification, an empty one counting as the default |
| Engine.Engine.DecisionCacheKey | backend-go/internal/dcs/pdp/engine.go:220-244 | entries collected in any map order and sorted give the canonical key |
| Engine.Engine.DecisionHash | backend-go/internal/dcs/pdp/engine.go:67-93 | the hash over field actions rebuilt in any key order is the digest of the decision itself |
| Engine.Engine.Evaluate | backend-go/internal/dcs/pdp/engine.go:30-58 | at level 2 a film decision is left under its key and a hit is what was there; otherwise the cache is untouched; with a sound cache the answer is the uncached one and the cache stays sound |
| Engine.Contains | backend-go/internal/dcs/pdp/engine.go:211-218 | found exactly when the value is in the slice |
| Provider.BuiltDecision | backend-go/internal/dcs/pip/provider.go:83-95 | a built input names one tenant, carries the store's classifications, and is decided by mode, action, role, type and classifications alone |
| Provider.BuiltCarries | backend-go/internal/dcs/pip/provider.go:54-95 | the input carries the request as it is, in the caller's tenant, with a field for each classified one, and takes from the configuration only what the request leaves empty |
| Provider.Provider.Build | backend-go/internal/dcs/pip/provider.go:51-96 | at every cache level the input is the one the store's contents give, with the context's gaps filled; with DCS on and a failing store there is none; the classification cache is used only with DCS on at level 1 and above |
| Provider.Provider.GetClassificationMap | backend-go/internal/dcs/pip/provider.go:98-113 | the rows are the store's, cached or not, and a failing store is an error; at level 1 rows are left in the cache, below it the cache is untouched |
| Provider.GetByResourceType | backend-go/internal/dcs/pip/db_store.go:31-61 | each field gets the last readable row about it; the fallback answers when the query fails or nothing is readable; without one a failed query is an error |
| Provider.LastRowIs | backend-go/internal/dcs/pip/db_store.go:42-77 | the row that settles a field says one of the four classifications, and no later row about the field does; none settles it when no row does |
| Provider.RowsAreColonFree | backend-go/internal/dcs/pip/db_store.go:64-77 | no classification read from rows holds a colon |
| Bootstrap.StaticIsColonFree | backend-go/internal/bootstrap/http.go:164-181 | no shipped classification holds a colon |
| Bootstrap.SeedIsFit | backend-go/internal/bootstrap/http.go:248-258 | the seeded repositories meet every condition the run theorems put on a starting state, and the seed film reads as 120 |
| Bootstrap.NewServices | backend-go/internal/bootstrap/http.go:125-258 | the wiring gives two valid services on one pipeline under the shipped rules over the seed, for any mode, level and cache sizes |
| Runtime.Settings.Set | backend-go/internal/dcs/runtime/settings.go:28-46 | what is absent stays, an empty mode becomes "on", a negative level becomes 0 |
| Runtime.ModesAre | backend-go/internal/dcs/runtime/settings.go:35-63 | any mode but four switches DCS on; white space alone means "on"; any other mode is kept but for case and the space around it |
| AdminSettings.Patch | backend-go/internal/transport/http/security_handler.go:69-93 | a change is refused whole, with settings and caches as they were, or made whole, with exactly the settings asked for and every cache empty |
| CacheManager.Manager.ClearAll | backend-go/internal/dcs/cache/manager.go:41-46 | all four caches are empty afterwards |
| TtlCache.TTL.Get | backend-go/internal/dcs/cache/ttl.go:34-48 | answers with the stored value through the last instant of its life, and drops only an entry found expired |
| TtlCache.TTL.Set | backend-go/internal/dcs/cache/ttl.go:50-67 | stores the entry with its lifetime, after giving up one entry, any one, if and only if the cache is full; the bound is kept |
| TtlCache.TTL.Clear | backend-go/internal/dcs/cache/ttl.go:69-73 | nothing is stored afterwards |
| TtlCache.NewIs | backend-go/internal/dcs/cache/ttl.go:20-32 | a size below one counts as one and a lifetime below one as a second, all others as themselves |
| TtlCache.EntriesAfter | backend-go/internal/dcs/cache/ttl.go:34-67 | entry by entry, a read takes out the key's if it is past and a Set one victim if and only if the cache is full, puts in the key's, and changes no other |
| TtlCache.RunRefinesTimedMap | backend-go/internal/dcs/cache/ttl.go:20-73 | in every run with any evictions the bound holds and what is stored is the latest Set of its key since the last Clear |
| TtlCache.HitIsLatest | backend-go/internal/dcs/cache/ttl.go:34-48 | in every run a hit is the unbounded timed map's answer |
| TtlCache.JustSetIsPresent | backend-go/internal/dcs/cache/ttl.go:58-66 | in every run the key just set is there, whatever was evicted |
| TtlCache.ExactWithinBound | backend-go/internal/dcs/cache/ttl.go:58-66 | with no more Sets since the last Clear than the bound, the cache answers exactly as the unbounded timed map |
| VaultKms.VaultTransitClient.Decrypt | backend-go/internal/dcs/kms/vault_transit.go:93-141 | at every level a success is the service's plaintext; a plaintext is had exactly when a good one is cached or the service answers, so a cached one answers through an outage; what is had is answered exactly for ciphertexts of at least 20 bytes, the log line panicking on shorter ones |
| VaultKms.PlaintextsAreTheServices | backend-go/internal/dcs/kms/vault_transit.go:93-141 | however the look-ups, remote calls and stores of any number of calls interleave with outages, expiries, evictions, clears and level changes, every plaintext cached or answered is the service's, and a call panics only over a plaintext it had |
| LocalKms.DecryptEncrypt | backend-go/internal/dcs/kms/local.go:18-34 | decryption undoes encryption on every byte string, despite the trim and the prefix test |
| LocalKms.IntRoundTrip | backend-go/internal/dcs/pep/film.go:69-79 | every machine integer survives printing, encrypting, decrypting and parsing |
| LocalKms.EncryptInjective | backend-go/internal/dcs/kms/local.go:18-21 | distinct plaintexts have distinct ciphertexts |
| LocalKms.NormalizeIgnoresSpace | backend-go/internal/dcs/kms/crypto.go:20-22 | white space around an id never reaches its normal form |
| LocalKms.NormalizeIgnoresCase | backend-go/internal/dcs/kms/crypto.go:20-22 | letter case never reaches it either |
| LocalKms.NormalFormIsFixed | backend-go/internal/dcs/kms/crypto.go:20-22 | an id with no white space at its ends and no lower-case letter is its own normal form |
| LocalKms.SameNormalFormIff | backend-go/internal/dcs/kms/crypto.go:20-22 | two ids have one normal form exactly when their trims are equal up to letter case |
| LocalKms.DecryptIs | backend-go/internal/dcs/kms/local.go:23-34 | what does not start with "vault:v1:" is handed back trimmed; the rest fails exactly when it is no base64 |
| ByteStrings.TrimSpaceIs | backend-go/internal/dcs/kms/crypto.go:21 | trimming takes off white space at the two ends, all of it and nothing else |
| ByteStrings.ToUpperIs | backend-go/internal/dcs/kms/crypto.go:21 | upper-casing forgets the case of letters and nothing else |
| ByteStrings.ToLowerIs | backend-go/internal/dcs/pdp/engine.go:157 | lower-casing likewise |
| Base64.DecodeEncode | backend-go/internal/dcs/kms/local.go:19-32 | base64 with padding decodes to what was encoded, for every byte string |
| Base64.EncodeAt | backend-go/internal/dcs/kms/local.go:20 | symbol by symbol, the encoding is the alphabet's for each six bits of the input in turn, padded to a multiple of four |
| Base64.SymbolsAre | backend-go/internal/dcs/kms/local.go:20 | the alphabet is that of table 1 in section 4 of RFC 4648 |
| Base64.PaddedGroup | backend-go/internal/dcs/kms/local.go:29-32 | the bits that padding leaves over are not looked at |
| Base64.DecodeSkipsBreak | backend-go/internal/dcs/kms/local.go:29-32 | line breaks are skipped wherever they stand |
| Decimal.AtoiItoa | backend-go/internal/dcs/enforcer/film.go:208 | parsing undoes printing on all 64-bit integers, the least one included |
| Decimal.DigitsPlaces | backend-go/internal/dcs/enforcer/film.go:208 | the digit `k` places from the right counts the powers `10^k`, and there is no leading zero |
| Decimal.AtoiIs | backend-go/internal/dcs/pep/film.go:74-78 | a number is at most one sign, at least one digit, nothing else, and fits 64 bits |
| Sorting.SortCanonical | backend-go/internal/dcs/pdp/engine.go:225-228 | two string lists sort alike exactly when they are permutations of each other |
| Pep.FilmApplier.Apply | backend-go/internal/dcs/pep/film.go:39-94 | title and elapsed time are shown as action and mode say, the payload has no other field, each list names the time exactly when it was shown that way, and only a failed decryption is an error |
| Pep.SpectatorApplier.Apply | backend-go/internal/dcs/pep/spectator_applier.go:39-115 | for any map order: it fails exactly when a field whose action is decrypt or mask does not decrypt; otherwise a field is in `decrypted` exactly when its action is decrypt, in `masked` exactly when it is mask, in `denied` exactly when it has none, allow or deny, once; and its value is the plaintext, its mask, or null accordingly |
| Pep.ApplyIsOrderIndependent | backend-go/internal/dcs/pep/spectator_applier.go:63-114 | any two successful results on one row have the same payload and the same three sets, which split the three fields, and a payload is null exactly for a denied field |
| Pep.MaskTimeIs | backend-go/internal/dcs/pep/film.go:96-101 | byte by byte: two stars for at most two bytes, else the first byte and three stars |
| Pep.MaskStringIs | backend-go/internal/dcs/pep/mask.go:11-19 | byte by byte: a star for each of at most two bytes, else the first byte and three stars |
| Pep.MasksTell | backend-go/internal/dcs/pep/mask.go:11-19 | exactly what masks tell: whether there are more than two bytes and then the first, and of a shorter text its length |
| Pep.MaskAgeIs | backend-go/internal/dcs/pep/mask.go:24-29 | adults from minors at eighteen, and nothing else |
| Pep.MaskUUIDIs | backend-go/internal/dcs/pep/uuid_mask.go:9-15 | four stars for at most eight bytes, else the first four and an ellipsis |
| Pep.ApplyMaskIs | backend-go/internal/dcs/pep/mask.go:34-49 | which field gets which mask |
| Enforcer.DcsEnforcer.Evaluate | backend-go/internal/dcs/enforcer/film.go:220-245 | the decision through both caches is the uncached one on the store's contents, at every cache level |
| Enforcer.DcsEnforcer.EvaluateFilmUpdateTime | backend-go/internal/dcs/enforcer/film.go:76-91 | the same for updates of a film's time |
| Enforcer.DcsEnforcer.EnforceFilmRead | backend-go/internal/dcs/enforcer/film.go:151-174 | value and field lists are those of the uncached read decision applied to the ciphertext |
| Enforcer.DcsEnforcer.EnforceFilmCreate | backend-go/internal/dcs/enforcer/film.go:179-218 | the ciphertext of the printed time if the caller may create, forbidden otherwise |
| Enforcer.DcsEnforcer.EvaluateSpectatorSearch | backend-go/internal/dcs/enforcer/spectator.go:52-84 | the uncached decision on searching |
| Enforcer.DcsEnforcer.EnforceSpectatorRead | backend-go/internal/dcs/enforcer/spectator.go:87-141 | values and field lists are those of the uncached read decision applied to the three ciphertexts, in any field order |
| Enforcer.DcsEnforcer.EnforceSpectatorCreate | backend-go/internal/dcs/enforcer/spectator.go:146-220 | three ciphertexts and the digest of the normalised ticket id if the caller may create, forbidden otherwise |
| Enforcer.DcsEnforcer.EvaluateHallCreate | backend-go/internal/dcs/enforcer/hall.go:13-42 | the uncached decision on creating halls |
| Enforcer.DcsEnforcer.EnforceHallRead | backend-go/internal/dcs/enforcer/hall.go:78-127 | the name in clear and the two ids masked exactly where the uncached read decision says mask |
| Films.FilmRepository.ListByTenant | backend-go/internal/repository/memory/film_repo.go:22-33 | the tenant's rows in order |
| Films.FilmRepository.UpdateTimeCiphertext | backend-go/internal/repository/memory/film_repo.go:35-46 | the first row with tenant and id gets the ciphertext, no other changes; none is an error |
| Films.FilmRepository.Create | backend-go/internal/repository/memory/film_repo.go:48-62 | one row is appended, under the one generated id |
| Films.GenerateID | backend-go/internal/repository/memory/film_repo.go:65-76 | every generated id is `film-abcdefgh` |
| FilmService.FilmService.Create | backend-go/internal/service/film_workflow.go:77-149 | world and answer after the call, with the caches as they happen to be, are those of the cache-free step: refusal audited, or row appended, read back and audited |
| FilmService.FilmService.UpdateTime | backend-go/internal/service/film_workflow.go:210-269 | the same for updates: refusal audited, missing film reported, or first match rewritten, read back and audited |
| FilmService.FilmService.List | backend-go/internal/service/film_workflow.go:151-208 | the same for lists: every row read in order, the fields seen each way collected without duplicates and audited once |
| Audit.MapKeys | backend-go/internal/service/film_workflow.go:347-353 | every key once, in no particular order |
| FilmLedger.FilmServiceRefinesLedger | backend-go/internal/service/film_workflow.go:77-269 | for every run by any callers with DCS on and the shipped defaults, every answer is the plaintext ledger's seen through the caller's role, and the rows decrypt to the ledger |
| FilmLedger.StepRefines | backend-go/internal/dcs/enforcer/film.go:151-245 | one call of the service is one step of the ledger |
| Linearizability.FilmCallsAreLinearizable | backend-go/internal/service/film_workflow.go:77-269 | interleaved calls by any callers, under any policy and modes, leave the rows of the atomic service run over the calls in the order of their locked accesses, and every call that has answered is in that order, once, with the answer it has there |
| Linearizability.OrderIsRealTime | backend-go/internal/repository/memory/film_repo.go:22-62 | a call that has answered comes in that order before every call that begins later |
| Linearizability.FilmCallsLinearizeToLedger | backend-go/internal/service/film_workflow.go:77-269 | with DCS on and the shipped defaults, interleaved calls answer as the plaintext ledger in that order, and the rows decrypt to it |
| Linearizability.RowKeepsSettled | backend-go/internal/service/film_workflow.go:168-194 | a list read row by row from its snapshot answers what reading all at once would, wherever other calls fall in between |
| FilmLedger.ReadIsView | backend-go/internal/dcs/pep/film.go:39-101 | a read shows the integer to agent and admin, the mask to developer, nothing to any other role |
| FilmLedger.OnlyWritersWrite | backend-go/internal/dcs/pdp/engine.go:107-113 | a run without an agent's or admin's write leaves the ledger as it was |
| FilmLedger.ReadsNeverFail | backend-go/internal/service/film_workflow.go:168-176 | from a decryptable store, in every run under every configuration and mode, no list and no read after a write fails for want of a plaintext |
| FilmLedger.CreateReplays | backend-go/internal/service/film_workflow.go:90-148 | a creation adds one entry; refused, a deny entry and no row; allowed, the row its entry tells of |
| FilmLedger.AuditReplaysRepository | backend-go/internal/service/film_workflow.go:90-148 | in every run the rows, less their times, are the starting ones followed by the creations the log allowed, in order |
| FilmLedger.DevelopersSeeOnlyMasks | backend-go/internal/dcs/pep/film.go:80-101 | two stores that differ only in times with equal masks answer a developer alike, whatever calls follow |
| FilmAnswers.ListShowsTimes | backend-go/internal/service/film_workflow.go:151-208 | with DCS on and the shipped defaults a list answers one output per row of the tenant, in order, with id and title as stored and the time in clear for agents and admins, its first digit at most for developers, nothing for others |
| FilmAnswers.UpdateRewritesFirst | backend-go/internal/service/film_workflow.go:210-269 | an agent's or admin's update rewrites the time of the first row with tenant and id and of no other and answers with it; without such a row it is not found; others are refused; and those change nothing |
| FilmAnswers.CreateAudits | backend-go/internal/service/film_workflow.go:86-148 | what a creation answers and the one entry it writes, allowed or refused |
| FilmAnswers.UpdateAudits | backend-go/internal/service/film_workflow.go:219-257 | an update writes one entry, of the refusal or of the change, with the hash of its decision, and none when there is nothing to change |
| FilmAnswers.ListAudits | backend-go/internal/service/film_workflow.go:164-200 | a list writes one entry, which names the time once under the way it was shown if there was any row |
| FilmAnswers.OffShowsCiphertext | backend-go/internal/dcs/pep/film.go:48-52 | with DCS off a film read answers with the ciphertext |
| Cinema.HallRepository.Create | backend-go/internal/repository/memory/hall_repo.go:48-55 | the hall is appended and its own count set to zero |
| Cinema.HallRepository.FindByID | backend-go/internal/repository/memory/hall_repo.go:77-89 | the first hall with tenant and id, or none |
| Cinema.FindHallFinds | backend-go/internal/repository/memory/hall_repo.go:77-89 | a hall is found exactly when there is one |
| Cinema.SpectatorRepository.Create | backend-go/internal/repository/memory/spectator_repo.go:22-28 | one spectator is appended |
| Cinema.SpectatorRepository.FindByExternalIDLookup | backend-go/internal/repository/memory/spectator_repo.go:30-41 | the tenant's spectators with the digest, in creation order |
| Cinema.SpectatorRepository.CountByHall | backend-go/internal/repository/memory/spectator_repo.go:43-54 | how many of the tenant's spectators are in the hall |
| SpectatorService.Services.CreateHall | backend-go/internal/service/hall_service.go:83-146 | refused, nothing changes; allowed, the hall is appended and answered as a read would show it |
| SpectatorViews.HallReadIsView | backend-go/internal/dcs/enforcer/hall.go:78-127 | with DCS on and the shipped defaults a hall's two ids are masked for a developer and for no one else, roles denied both included |
| SpectatorService.Services.Create | backend-go/internal/service/spectator_service.go:48-146 | world and answer are those of the cache-free step: missing hall reported, refusal audited, or spectator appended, read back and audited |
| SpectatorService.Services.Search | backend-go/internal/service/spectator_service.go:149-228 | the same for searches: refusal audited, or every spectator found read in order and the number audited |
| CinemaRuns.SearchAgreesWithFilter | backend-go/internal/service/spectator_service.go:149-228 | after any run an allowed search succeeds with one output per spectator found, with the row's hall, its fields as the role reads them and its id in full or masked; it misses no spectator of the tenant whose plaintext ticket id is the query up to letter case and surrounding white space, and finds exactly those, in creation order, if and only if no other ticket of the tenant collides with the query |
| CinemaRuns.LookupMissesNone | backend-go/internal/dcs/enforcer/spectator.go:204-218 | collisions or not, among the rows found those holding the ticket are all the tenant has |
| CinemaRuns.LookupIsFilterIff | backend-go/internal/dcs/kms/crypto.go:43-47 | looking up by digest is filtering by ticket if and only if no stored ticket collides with the query |
| CinemaRuns.RunKeepsFiled | backend-go/internal/service/spectator_service.go:56-107 | in every run every stored spectator decrypts and is filed under the digest of its normalised ticket id |
| CinemaRuns.ReadsNeverFail | backend-go/internal/service/spectator_service.go:105-119 | no search and no read after a creation fails for want of a plaintext, in any run, configuration or mode |
| CinemaRuns.IntegrityAndConservation | backend-go/internal/service/spectator_service.go:56-107 | in every run with fresh hall ids every spectator's hall exists in its own tenant, and the counts over a tenant's halls add up to its spectators |
| SpectatorViews.SpectatorReadIsView | backend-go/internal/dcs/pep/spectator_applier.go:63-114 | with DCS on and the shipped defaults a stored spectator reads as the role's view of the plaintext it was created from |
| SpectatorViews.AgentsSeeOnlyMaskedNames | backend-go/internal/dcs/pep/spectator_applier.go:96-105 | two stores that differ only in names with equal masks answer an agent, or anyone but an admin, alike, whatever calls follow |
| CinemaAnswers.CreationShowsTicket | backend-go/internal/service/spectator_service.go:109-145 | with DCS on and the shipped defaults an agent's or admin's creation in a hall answers with the hall, the id in full for an admin and else masked, and name, age and ticket id of the ticket itself as the role may see them |
| CinemaAnswers.SearchShowsTickets | backend-go/internal/service/spectator_service.go:190-215 | after any run from no spectators every output of a search so shows the ticket of some creation in the caller's tenant that was asked for, or collides with what was |
| CinemaAnswers.HallsAreForWriters | backend-go/internal/service/hall_service.go:91-142 | in any mode a hall call is refused, and stores nothing, exactly to those who are neither agent nor admin; theirs is stored as asked and answered in full |
| CinemaAnswers.CreationsAreForWriters | backend-go/internal/service/spectator_service.go:56-107 | in any mode a creation without its hall is not found and changes nothing; in a hall it is refused, and stores nothing, exactly to those who are neither agent nor admin |
| CinemaAnswers.SearchesAreForWriters | backend-go/internal/service/spectator_service.go:157-175 | in any mode a search is refused exactly to those who are neither agent nor admin, and stores nothing |
| CinemaAnswers.OnlyWritersWrite | backend-go/internal/dcs/pdp/engine.go:107-113 | a run of other roles' calls, in any modes, leaves halls and spectators as they were |
| CinemaAnswers.CreationAudits | backend-go/internal/service/spectator_service.go:72-134 | a creation in a hall writes one entry: a refusal, or the spectator's, with its hall and each field under the way it was shown |
| CinemaAnswers.SearchAudits | backend-go/internal/service/spectator_service.go:162-221 | a search writes one entry: a refusal, or the number of its outputs |
| CinemaAnswers.OffShowsNothing | backend-go/internal/dcs/pep/spectator_applier.go:63-70 | with DCS off a spectator read shows no one anything |
| PyCache.TTLCache.Get | backend/app/cache/cache.py:29-38 | answers only before the expiry instant and drops an entry found expired |
| PyCache.TTLCache.Set | backend/app/cache/cache.py:40-47 | a full cache drops its oldest entry, an existing key keeps its place, a new one goes last |
| PyCache.InsertedSurvives | backend/app/cache/cache.py:40-47 | an entry just inserted outlives `max_entries - 1` further sets unless cleared or read when expired |
| PyCache.FreshSetsEvict | backend/app/cache/cache.py:43-47 | the bound is exact: as many sets of fresh keys as complete the window remove it |
| PyCache.AnswersWhileAhead | backend/app/cache/cache.py:29-38 | a read answers exactly while the key's expiry lies ahead |
| PyCache.SetMoves | backend/app/cache/cache.py:40-47 | position by position, what a set makes of the entries |
| DeepMerge.DeepMerge | backend/app/core/dcs_config.py:48-55 | the result is a new dict holding the merge, sharing only what the arguments had, and nothing that existed before is written |
| DeepMerge.MergeMeaning | backend/app/core/dcs_config.py:48-55 | at every key path the merge follows the override where it speaks, the base where the override is silent, and hides the base below an override's leaf |
| DeepMerge.MergeEmpty | backend/app/core/dcs_config.py:48-55 | the empty configuration changes nothing, on either side |
| DeepMerge.MergeIdempotent | backend/app/core/dcs_config.py:48-55 | the same override twice is the override once, and a configuration over itself is itself |

## Left out

- HTTP and gRPC transport, middleware, JSON bodies, tokens and passwords: thin layers over libraries; of the settings handler only the change itself is modelled.
- Postgres repositories and SQL; the in-memory ones are modelled. The classification store is a function of time in `Pipeline`, and static in the enforcer's class.
- Vault's network calls, its encryption and its pepper reads.
- The strength of SHA-256 and HMAC and the text of the JSON they digest.
- Performance spans, performance logs and summaries.
- The frontend.
- Python's own `get_or_set`.
- LocalKms.NormalizeIgnoresSpace: ASCII white space only; the Unicode white space that `strings.TrimSpace` also trims is not part of this model.
- LocalKms.NormalizeIgnoresCase: ASCII letters only; the Unicode letters that `strings.ToUpper` also maps are not part of this model.
- Listing halls, and the hall read as a call of its own.
- UUIDs and hall ids are parameters of the calls that draw them.
- Bootstrap.NewServices: wires a working audit writer, where the in-memory server has none; a nil writer and a failing one are not part of this model.
- The order of names within the field lists of an audit entry: the lists are multisets, since the code gives no order.
- Sharing of one Go map object between a cache and a caller: cached maps are values here, and no modelled code writes to one it got from a cache.
- The order of audit entries of calls that overlap: `Linearizability` is about rows and answers. Spectator and hall calls run one after another.
- Agreement of Go and Python as a theorem: the two differ.
- Enforcer.DcsEnforcer.Evaluate: one call at a time over the static store, which never fails; interleaving, a changing store and a failing one are in `Pipeline`, and a failing one in `Provider.Provider.Build`.
