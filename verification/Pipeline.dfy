/** The decision pipeline under interleaving: any number of calls in flight, each a `Build`
    followed by an `Evaluate`, over the classification cache (level 1) and the decision cache
    (level 2), while time passes, entries expire and are evicted, an administrator changes
    mode and level, and the classification store changes.

    One step is one atomic access: a read of the settings, a locked `Get`, `Set` or `Clear`
    of one cache, one query of the store. */
module Pipeline {
  import opened PolicyTypes
  import opened Wrappers
  import opened ByteStrings
  import Engine
  import Provider
  import Runtime
  import TtlCache

  /** What does not change during a run. `rows(t, kind)` is what the store answers at instant
      `t`, nothing when the query fails; `latency` bounds how long a call stays in flight. */
  datatype World = World(
    system: Engine.System, config: Provider.Config, rows: (int, string) -> Option<Classifications>, latency: nat,
    maxEntries: int, classificationTTL: int, pdpTTL: int)
  {
    /** The classification lifetime in force once the constructor has cleaned it. */
    function Lifetime(): int {
      TtlCache.New<string, Classifications>(maxEntries, classificationTTL).defaultTTL
    }
  }

  /** The assumption on the world: classifications have no colon. */
  ghost predicate Sane(w: World) {
    forall t, kind :: w.rows(t, kind).Some? ==> Engine.ColonFree(w.rows(t, kind).value)
  }

  /** Where the classifications of an input come from: nowhere (DCS was off), or what the
      store said at `readAt`, through the cache or not. */
  datatype Origin = Unclassified | Rows(readAt: int, cached: bool)

  /** Where a call stands, named by what it does next. */
  datatype Stage =
    | ReadModeForBuild
    | TestLevel1
    | GetRows
    | QueryStore
    | TestLevel1Again(cls: Classifications, readAt: int)
    | SetRows(cls: Classifications, readAt: int)
    | TestLevel2(input: PolicyInput, origin: Origin)
    | ReadModeForKey(input: PolicyInput, origin: Origin)
    | GetDecision(input: PolicyInput, origin: Origin, dcs: bool, key: string)
    | ReadModeAndDecide(input: PolicyInput, origin: Origin, asked: Option<(bool, string)>)
    | SetDecision(input: PolicyInput, origin: Origin, dcs: bool, key: string, decision: Decision)
    | Returned(input: PolicyInput, origin: Origin, dcs: bool, decision: Decision, at: int)
    | Failed

  datatype Call = Call(req: Provider.Input, start: int, stage: Stage) {
    predicate Live() { !stage.Returned? && !stage.Failed? }
  }

  datatype State = State(
    now: int, settings: Runtime.State, rows: TtlCache.Ttl<string, Classifications>,
    decisions: TtlCache.Ttl<string, Decision>, calls: map<nat, Call>)

  datatype Step =
    | Begin(id: nat, req: Provider.Input)
    | Advance(id: nat, victim: Option<string>)
    | Tick(elapsed: nat)
    | Administer(mode: Option<Bytes>, level: Option<int>)
    | ClearRows
    | ClearDecisions

  function Initial(w: World, settings: Runtime.State): State {
    State(0, settings, TtlCache.New(w.maxEntries, w.classificationTTL), TtlCache.New(w.maxEntries, w.pdpTTL), map[])
  }

  predicate ModeOn(s: State) { Runtime.Enabled(s.settings.dcsMode) }

  ghost predicate Enabled(w: World, s: State, step: Step) {
    match step
    case Begin(id, _) => id !in s.calls
    case Advance(id, victim) =>
      && id in s.calls && s.calls[id].Live()
      && (s.calls[id].stage.SetRows? ==> s.rows.Evictable(victim))
      && (s.calls[id].stage.SetDecision? ==> s.decisions.Evictable(victim))
    case Tick(elapsed) =>
      forall id :: id in s.calls && s.calls[id].Live() ==> s.now + elapsed <= s.calls[id].start + w.latency
    case Administer(_, _) => true
    case ClearRows => true
    case ClearDecisions => true
  }

  /** A call that asked the decision cache under one of these keys decides, if it must, in the
      mode it asked for: the two readings of its `Evaluate` agree. Every other step is free. */
  ghost predicate AsAsked(w: World, keys: iset<string>, s: State, step: Step) {
    step.Advance? && step.id in s.calls && s.calls[step.id].stage.ReadModeAndDecide? ==>
      var c := s.calls[step.id].stage;
      c.asked.Some? && Engine.KeyString(w.system, c.asked.value.0, c.input) in keys ==>
        c.asked.value.0 == ModeOn(s)
  }

  function Moved(s: State, id: nat, stage: Stage): State
    requires id in s.calls
  {
    s.(calls := s.calls[id := s.calls[id].(stage := stage)])
  }

  ghost function Advanced(w: World, s: State, id: nat, victim: Option<string>): State
    requires id in s.calls && s.calls[id].Live()
  {
    var req := s.calls[id].req;
    match s.calls[id].stage
    case ReadModeForBuild =>
      Moved(s, id, if ModeOn(s) then TestLevel1
                   else TestLevel2(Provider.BuildInput(w.config, req, map[]), Unclassified))
    case TestLevel1 => Moved(s, id, if s.settings.cacheLevel >= 1 then GetRows else QueryStore)
    case GetRows =>
      var hit := s.rows.Hit(req.kind, s.now);
      Moved(s.(rows := s.rows.AfterGet(req.kind, s.now)), id,
        if hit.Some? then
          TestLevel2(Provider.BuildInput(w.config, req, hit.value), Rows(ReadTime(w, s, req.kind), true))
        else QueryStore)
    case QueryStore =>
      var rows := w.rows(s.now, req.kind);
      Moved(s, id, if rows.Some? then TestLevel1Again(rows.value, s.now) else Failed)
    case TestLevel1Again(cls, readAt) =>
      Moved(s, id, if s.settings.cacheLevel >= 1 then SetRows(cls, readAt)
                   else TestLevel2(Provider.BuildInput(w.config, req, cls), Rows(readAt, false)))
    case SetRows(cls, readAt) =>
      Moved(s.(rows := s.rows.AfterSet(req.kind, cls, 0, s.now, victim)), id,
        TestLevel2(Provider.BuildInput(w.config, req, cls), Rows(readAt, false)))
    case TestLevel2(input, origin) =>
      var cacheable := s.settings.cacheLevel >= 2 && Engine.CacheableAction(input.action);
      Moved(s, id, if cacheable then ReadModeForKey(input, origin)
                   else ReadModeAndDecide(input, origin, None))
    case ReadModeForKey(input, origin) =>
      Moved(s, id, GetDecision(input, origin, ModeOn(s), Engine.KeyString(w.system, ModeOn(s), input)))
    case GetDecision(input, origin, dcs, key) =>
      var hit := s.decisions.Hit(key, s.now);
      Moved(s.(decisions := s.decisions.AfterGet(key, s.now)), id,
        if hit.Some? then Returned(input, origin, dcs, hit.value, s.now)
        else ReadModeAndDecide(input, origin, Some((dcs, key))))
    case ReadModeAndDecide(input, origin, asked) =>
      var d := Engine.Uncached(w.system, ModeOn(s), input);
      Moved(s, id, if asked.Some? then SetDecision(input, origin, asked.value.0, asked.value.1, d)
                   else Returned(input, origin, ModeOn(s), d, s.now))
    case SetDecision(input, origin, dcs, key, d) =>
      Moved(s.(decisions := s.decisions.AfterSet(key, d, 0, s.now, victim)), id, Returned(input, origin, dcs, d, s.now))
  }

  ghost function Next(w: World, s: State, step: Step): State
    requires Enabled(w, s, step)
  {
    match step
    case Begin(id, req) => s.(calls := s.calls[id := Call(req, s.now, ReadModeForBuild)])
    case Advance(id, victim) => Advanced(w, s, id, victim)
    case Tick(elapsed) => s.(now := s.now + elapsed)
    case Administer(mode, level) => s.(settings := s.settings.Updated(mode, level))
    case ClearRows => s.(rows := s.rows.AfterClear())
    case ClearDecisions => s.(decisions := s.decisions.AfterClear())
  }

  /** A run that the code can take from `s`, and the state it leads to. */
  ghost predicate Possible(w: World, s: State, steps: seq<Step>)
    decreases |steps|
  {
    steps == [] || (Enabled(w, s, steps[0]) && Possible(w, Next(w, s, steps[0]), steps[1..]))
  }

  ghost function Run(w: World, s: State, steps: seq<Step>): State
    requires Possible(w, s, steps)
    decreases |steps|
  {
    if steps == [] then s else Run(w, Next(w, s, steps[0]), steps[1..])
  }

  /** A run in which the readings agree of every call that asked under one of these keys. */
  ghost predicate AllAsAsked(w: World, keys: iset<string>, s: State, steps: seq<Step>)
    requires Possible(w, s, steps)
    decreases |steps|
  {
    steps == [] || (AsAsked(w, keys, s, steps[0]) && AllAsAsked(w, keys, Next(w, s, steps[0]), steps[1..]))
  }

  /** Of no keys at all, the readings agree in every run. */
  lemma {:induction false} NoneAsked(w: World, s: State, steps: seq<Step>)
    requires Possible(w, s, steps)
    ensures AllAsAsked(w, iset{}, s, steps)
    decreases |steps|
  {
    if steps != [] { NoneAsked(w, Next(w, s, steps[0]), steps[1..]); }
  }

  // ---------------------------------------------------------------------------------------
  // Inputs and their keys
  // ---------------------------------------------------------------------------------------

  /** The input a call has built. */
  function Built(stage: Stage): Option<PolicyInput> {
    match stage
    case TestLevel2(input, _) => Some(input)
    case ReadModeForKey(input, _) => Some(input)
    case GetDecision(input, _, _, _) => Some(input)
    case ReadModeAndDecide(input, _, _) => Some(input)
    case SetDecision(input, _, _, _, _) => Some(input)
    case Returned(input, _, _, _, _) => Some(input)
    case _ => None
  }

  /** The payloads of the keys the calls may use, for either mode. */
  ghost function Payloads(calls: map<nat, Call>): iset<Engine.KeyPayload> {
    iset id, dcs: bool | id in calls && Built(calls[id].stage).Some? ::
      Engine.KeyOf(dcs, Built(calls[id].stage).value)
  }

  ghost predicate DistinctOn(digest: Engine.KeyPayload -> string, used: iset<Engine.KeyPayload>) {
    forall p, q :: p in used && q in used && digest(p) == digest(q) ==> p == q
  }

  /** No two keys of these calls collide: the assumption on the digest, for one run. */
  ghost predicate NoCollision(w: World, calls: map<nat, Call>) {
    DistinctOn(w.system.digests.key, Payloads(calls))
  }

  ghost predicate Covers(used: iset<Engine.KeyPayload>, calls: map<nat, Call>) {
    forall id :: id in calls && Built(calls[id].stage).Some? ==> KeyIn(used, Built(calls[id].stage).value)
  }

  ghost predicate KeyIn(used: iset<Engine.KeyPayload>, input: PolicyInput) {
    Engine.KeyOf(true, input) in used && Engine.KeyOf(false, input) in used
  }

  /** What a call has built it keeps. */
  lemma StepKeepsBuilt(w: World, s: State, step: Step, id: nat)
    requires Enabled(w, s, step) && id in s.calls
    ensures id in Next(w, s, step).calls && Next(w, s, step).calls[id].req == s.calls[id].req
    ensures Built(s.calls[id].stage).Some? ==> Built(Next(w, s, step).calls[id].stage) == Built(s.calls[id].stage)
  {
  }

  lemma {:induction false} EarlierIsCovered(w: World, used: iset<Engine.KeyPayload>, s: State, steps: seq<Step>)
    requires Possible(w, s, steps) && Covers(used, Run(w, s, steps).calls)
    ensures Covers(used, s.calls)
    decreases |steps|
  {
    if steps != [] {
      EarlierIsCovered(w, used, Next(w, s, steps[0]), steps[1..]);
      forall id | id in s.calls && Built(s.calls[id].stage).Some?
        ensures KeyIn(used, Built(s.calls[id].stage).value)
      {
        StepKeepsBuilt(w, s, steps[0], id);
      }
    }
  }

  // ---------------------------------------------------------------------------------------
  // The invariant
  // ---------------------------------------------------------------------------------------

  /** The cached rows are what the store said at `readAt`, and they expire no later than one
      lifetime and one call's latency after that. */
  ghost predicate ReadAt(w: World, now: int, kind: string, e: TtlCache.Entry<Classifications>, readAt: int) {
    w.rows(readAt, kind) == Some(e.value) && readAt <= now && e.expiresAt <= readAt + w.latency + w.Lifetime()
  }

  /** The instant a cached row set was read from the store: history, not program state. */
  ghost function ReadTime(w: World, s: State, kind: string): int {
    if kind in s.rows.store && exists t :: ReadAt(w, s.now, kind, s.rows.store[kind], t) then
      var t :| ReadAt(w, s.now, kind, s.rows.store[kind], t); t
    else 0
  }

  ghost predicate InputOk(w: World, now: int, c: Call, input: PolicyInput, origin: Origin) {
    match origin
    case Unclassified => input == Provider.BuildInput(w.config, c.req, map[])
    case Rows(readAt, cached) =>
      && w.rows(readAt, c.req.kind).Some?
      && input == Provider.BuildInput(w.config, c.req, w.rows(readAt, c.req.kind).value)
      && readAt <= now
      && c.start <= readAt + (if cached then w.latency + w.Lifetime() else 0)
  }

  /** The answer for the mode; or, off the keys whose calls' readings agree, for either. */
  ghost predicate Answers(w: World, keys: iset<string>, dcs: bool, input: PolicyInput, d: Decision) {
    || d == Engine.Uncached(w.system, dcs, input)
    || (Engine.KeyString(w.system, dcs, input) !in keys && d == Engine.Uncached(w.system, !dcs, input))
  }

  /** `d` answers every input of the run that could look it up under `key`. */
  ghost predicate EntryOk(w: World, keys: iset<string>, used: iset<Engine.KeyPayload>, key: string, d: Decision) {
    forall dcs, input |
      Engine.TenantsAgree(input) && Engine.ColonFreeInput(input) && Engine.KeyOf(dcs, input) in used
      && Engine.KeyString(w.system, dcs, input) == key ::
      Answers(w, keys, dcs, input, d)
  }

  ghost predicate DecisionsOk(w: World, keys: iset<string>, used: iset<Engine.KeyPayload>,
                              decisions: map<string, TtlCache.Entry<Decision>>) {
    forall key :: key in decisions ==> EntryOk(w, keys, used, key, decisions[key].value)
  }

  ghost predicate CallOk(w: World, keys: iset<string>, now: int, c: Call) {
    && c.start <= now
    && (c.Live() ==> now <= c.start + w.latency)
    && match c.stage
       case TestLevel1Again(cls, readAt) => w.rows(readAt, c.req.kind) == Some(cls) && c.start <= readAt <= now
       case SetRows(cls, readAt) => w.rows(readAt, c.req.kind) == Some(cls) && c.start <= readAt <= now
       case TestLevel2(input, origin) => InputOk(w, now, c, input, origin)
       case ReadModeForKey(input, origin) => InputOk(w, now, c, input, origin)
       case GetDecision(input, origin, dcs, key) =>
         InputOk(w, now, c, input, origin) && key == Engine.KeyString(w.system, dcs, input)
       case ReadModeAndDecide(input, origin, asked) =>
         InputOk(w, now, c, input, origin) &&
         (asked.Some? ==> asked.value.1 == Engine.KeyString(w.system, asked.value.0, input))
       case SetDecision(input, origin, dcs, key, d) =>
         InputOk(w, now, c, input, origin) && key == Engine.KeyString(w.system, dcs, input) &&
         Answers(w, keys, dcs, input, d)
       case Returned(input, origin, dcs, d, at) =>
         InputOk(w, at, c, input, origin) && Answers(w, keys, dcs, input, d) &&
         c.start <= at <= now && at <= c.start + w.latency
       case _ => true
  }

  ghost predicate RowsOk(w: World, now: int, rows: TtlCache.Ttl<string, Classifications>) {
    && rows.defaultTTL == w.Lifetime()
    && forall kind :: kind in rows.store ==> exists t :: ReadAt(w, now, kind, rows.store[kind], t)
  }

  ghost predicate Inv(w: World, keys: iset<string>, used: iset<Engine.KeyPayload>, s: State) {
    && RowsOk(w, s.now, s.rows)
    && DecisionsOk(w, keys, used, s.decisions.store)
    && forall id :: id in s.calls ==> CallOk(w, keys, s.now, s.calls[id])
  }

  /** What a step is proved under: the invariant, and keys of the run that do not collide. */
  ghost predicate Ready(w: World, keys: iset<string>, used: iset<Engine.KeyPayload>, s: State) {
    Sane(w) && DistinctOn(w.system.digests.key, used) && Covers(used, s.calls) && Inv(w, keys, used, s)
  }

  /** A built input is one the decision cache is sound for. */
  lemma InputIsFit(w: World, now: int, c: Call, input: PolicyInput, origin: Origin)
    requires Sane(w) && InputOk(w, now, c, input, origin)
    ensures Engine.TenantsAgree(input) && Engine.ColonFreeInput(input)
  {
    var cls: Classifications := if origin.Unclassified? then map[] else w.rows(origin.readAt, c.req.kind).value;
    Provider.BuiltDecision(w.system, w.config, true, c.req, cls);
  }

  /** An answer stored under its own key is right for all who can look it up. */
  lemma StoredIsOk(w: World, keys: iset<string>, used: iset<Engine.KeyPayload>,
                   dcs: bool, input: PolicyInput, d: Decision)
    requires DistinctOn(w.system.digests.key, used) && KeyIn(used, input) && Answers(w, keys, dcs, input, d)
    requires Engine.TenantsAgree(input) && Engine.ColonFreeInput(input)
    ensures EntryOk(w, keys, used, Engine.KeyString(w.system, dcs, input), d)
  {
    forall dcs', input' |
      Engine.TenantsAgree(input') && Engine.ColonFreeInput(input') && Engine.KeyOf(dcs', input') in used
      && Engine.KeyString(w.system, dcs', input') == Engine.KeyString(w.system, dcs, input)
      ensures Answers(w, keys, dcs', input', d)
    {
      assert Engine.KeyOf(dcs', input') == Engine.KeyOf(dcs, input);
      Engine.KeyCanonical(dcs, input, dcs', input');
      Engine.KeyDecides(w.system, dcs, input, input');
      Engine.KeyCanonical(!dcs, input, !dcs, input');
      Engine.KeyDecides(w.system, !dcs, input, input');
    }
  }

  lemma RowsStaySound(w: World, keys: iset<string>, s: State, id: nat, victim: Option<string>)
    requires RowsOk(w, s.now, s.rows) && id in s.calls && s.calls[id].Live() && CallOk(w, keys, s.now, s.calls[id])
    ensures RowsOk(w, s.now, Advanced(w, s, id, victim).rows)
  {
    var c := s.calls[id];
    var rows' := Advanced(w, s, id, victim).rows;
    forall kind | kind in rows'.store
      ensures exists t :: ReadAt(w, s.now, kind, rows'.store[kind], t)
    {
      if c.stage.SetRows? && kind == c.req.kind {
        assert ReadAt(w, s.now, kind, rows'.store[kind], c.stage.readAt);
      } else {
        assert rows'.store[kind] == s.rows.store[kind];
      }
    }
  }

  lemma DecisionsStaySound(w: World, keys: iset<string>, used: iset<Engine.KeyPayload>, s: State, id: nat,
                           victim: Option<string>)
    requires Ready(w, keys, used, s) && id in s.calls && s.calls[id].Live()
    ensures DecisionsOk(w, keys, used, Advanced(w, s, id, victim).decisions.store)
  {
    var c := s.calls[id];
    var store' := Advanced(w, s, id, victim).decisions.store;
    if c.stage.SetDecision? {
      InputIsFit(w, s.now, c, c.stage.input, c.stage.origin);
      StoredIsOk(w, keys, used, c.stage.dcs, c.stage.input, c.stage.decision);
    }
    forall key | key in store'
      ensures EntryOk(w, keys, used, key, store'[key].value)
    {
      if !(c.stage.SetDecision? && key == c.stage.key) { assert store'[key] == s.decisions.store[key]; }
    }
  }

  /** The stages of `Build`, those of `Evaluate` up to its first reading of the mode, and
      the rest. */
  predicate Building(stage: Stage) {
    match stage
    case ReadModeForBuild => true
    case TestLevel1 => true
    case GetRows => true
    case QueryStore => true
    case TestLevel1Again(_, _) => true
    case SetRows(_, _) => true
    case _ => false
  }

  predicate Deciding(stage: Stage) {
    stage.GetDecision? || stage.ReadModeAndDecide? || stage.SetDecision?
  }

  lemma BuildingStaysOk(w: World, keys: iset<string>, s: State, id: nat, victim: Option<string>)
    requires RowsOk(w, s.now, s.rows) && id in s.calls && CallOk(w, keys, s.now, s.calls[id])
    requires s.calls[id].Live() && Building(s.calls[id].stage)
    ensures CallOk(w, keys, s.now, Advanced(w, s, id, victim).calls[id])
  {
    var c := s.calls[id];
    if c.stage.GetRows? && s.rows.Hit(c.req.kind, s.now).Some? {
      var t := ReadTime(w, s, c.req.kind);
      assert ReadAt(w, s.now, c.req.kind, s.rows.store[c.req.kind], t);
    }
  }

  lemma TestingStaysOk(w: World, keys: iset<string>, s: State, id: nat, victim: Option<string>)
    requires id in s.calls && CallOk(w, keys, s.now, s.calls[id])
    requires s.calls[id].Live() && !Building(s.calls[id].stage) && !Deciding(s.calls[id].stage)
    ensures CallOk(w, keys, s.now, Advanced(w, s, id, victim).calls[id])
  {
  }

  lemma AskingStaysOk(w: World, keys: iset<string>, used: iset<Engine.KeyPayload>, s: State, id: nat,
                      victim: Option<string>)
    requires Ready(w, keys, used, s) && id in s.calls && s.calls[id].stage.GetDecision?
    ensures CallOk(w, keys, s.now, Advanced(w, s, id, victim).calls[id])
  {
    var c := s.calls[id];
    assert CallOk(w, keys, s.now, c);
    InputIsFit(w, s.now, c, c.stage.input, c.stage.origin);
    HeldAnswers(w, keys, used, s.decisions.store, c.stage.dcs, c.stage.input);
  }

  /** What is held under an input's key is an answer for it. */
  lemma HeldAnswers(w: World, keys: iset<string>, used: iset<Engine.KeyPayload>,
                    store: map<string, TtlCache.Entry<Decision>>, dcs: bool, input: PolicyInput)
    requires DecisionsOk(w, keys, used, store) && KeyIn(used, input)
    requires Engine.TenantsAgree(input) && Engine.ColonFreeInput(input)
    ensures
      var key := Engine.KeyString(w.system, dcs, input);
      key in store ==> Answers(w, keys, dcs, input, store[key].value)
  {
    var key := Engine.KeyString(w.system, dcs, input);
    if key in store { assert EntryOk(w, keys, used, key, store[key].value); }
  }

  lemma DecidingStaysOk(w: World, keys: iset<string>, s: State, id: nat, victim: Option<string>)
    requires id in s.calls && CallOk(w, keys, s.now, s.calls[id])
    requires s.calls[id].stage.ReadModeAndDecide? || s.calls[id].stage.SetDecision?
    requires AsAsked(w, keys, s, Advance(id, victim))
    ensures CallOk(w, keys, s.now, Advanced(w, s, id, victim).calls[id])
  {
  }

  lemma AdvanceKeepsInv(w: World, keys: iset<string>, used: iset<Engine.KeyPayload>, s: State, id: nat,
                        victim: Option<string>)
    requires Ready(w, keys, used, s) && id in s.calls && s.calls[id].Live()
    requires AsAsked(w, keys, s, Advance(id, victim))
    ensures Inv(w, keys, used, Advanced(w, s, id, victim))
  {
    RowsStaySound(w, keys, s, id, victim);
    DecisionsStaySound(w, keys, used, s, id, victim);
    AdvancedStaysOk(w, keys, used, s, id, victim);
    AdvancedTouchesOne(w, s, id, victim);
    var s' := Advanced(w, s, id, victim);
    OthersStayOk(w, keys, s.now, s.calls, id, s'.calls);
  }

  lemma AdvancedTouchesOne(w: World, s: State, id: nat, victim: Option<string>)
    requires id in s.calls && s.calls[id].Live()
    ensures
      var s' := Advanced(w, s, id, victim);
      s'.now == s.now && id in s'.calls && s'.calls == s.calls[id := s'.calls[id]]
  {
  }

  lemma OthersStayOk(w: World, keys: iset<string>, now: int, calls: map<nat, Call>, id: nat, calls': map<nat, Call>)
    requires forall other :: other in calls ==> CallOk(w, keys, now, calls[other])
    requires id in calls' && CallOk(w, keys, now, calls'[id]) && calls' == calls[id := calls'[id]]
    ensures forall other :: other in calls' ==> CallOk(w, keys, now, calls'[other])
  {
  }

  lemma AdvancedStaysOk(w: World, keys: iset<string>, used: iset<Engine.KeyPayload>, s: State, id: nat,
                        victim: Option<string>)
    requires Ready(w, keys, used, s) && id in s.calls && s.calls[id].Live()
    requires AsAsked(w, keys, s, Advance(id, victim))
    ensures CallOk(w, keys, s.now, Advanced(w, s, id, victim).calls[id])
  {
    if Building(s.calls[id].stage) {
      BuildingStaysOk(w, keys, s, id, victim);
    } else if s.calls[id].stage.GetDecision? {
      AskingStaysOk(w, keys, used, s, id, victim);
    } else if Deciding(s.calls[id].stage) {
      DecidingStaysOk(w, keys, s, id, victim);
    } else {
      TestingStaysOk(w, keys, s, id, victim);
    }
  }

  lemma RowsKeep(w: World, now: int, now': int, rows: TtlCache.Ttl<string, Classifications>)
    requires RowsOk(w, now, rows) && now <= now'
    ensures RowsOk(w, now', rows)
  {
    forall kind | kind in rows.store
      ensures exists t {:trigger w.rows(t, kind)} :: ReadAt(w, now', kind, rows.store[kind], t)
    {
      var t :| ReadAt(w, now, kind, rows.store[kind], t);
      assert ReadAt(w, now', kind, rows.store[kind], t);
    }
  }

  lemma CallKeeps(w: World, keys: iset<string>, now: int, now': int, c: Call)
    requires CallOk(w, keys, now, c) && now <= now' && (c.Live() ==> now' <= c.start + w.latency)
    ensures CallOk(w, keys, now', c)
  {
  }

  lemma TickKeepsInv(w: World, keys: iset<string>, used: iset<Engine.KeyPayload>, s: State, elapsed: nat)
    requires Inv(w, keys, used, s) && Enabled(w, s, Tick(elapsed))
    ensures Inv(w, keys, used, Next(w, s, Tick(elapsed)))
  {
    RowsKeep(w, s.now, s.now + elapsed, s.rows);
    forall id | id in s.calls
      ensures CallOk(w, keys, s.now + elapsed, s.calls[id])
    {
      CallKeeps(w, keys, s.now, s.now + elapsed, s.calls[id]);
    }
  }

  /** Every step keeps the invariant, for the keys under which its call decides as it asked. */
  lemma StepKeepsInv(w: World, keys: iset<string>, used: iset<Engine.KeyPayload>, s: State, step: Step)
    requires Ready(w, keys, used, s) && Enabled(w, s, step) && AsAsked(w, keys, s, step)
    ensures Inv(w, keys, used, Next(w, s, step))
  {
    match step {
      case Advance(id, victim) => AdvanceKeepsInv(w, keys, used, s, id, victim);
      case Tick(elapsed) => TickKeepsInv(w, keys, used, s, elapsed);
      case Administer(mode, level) =>
      case Begin(id, req) =>
        assert CallOk(w, keys, s.now, Call(req, s.now, ReadModeForBuild));
      case ClearRows =>
      case ClearDecisions =>
    }
  }

  lemma {:induction false} RunKeepsInv(w: World, keys: iset<string>, used: iset<Engine.KeyPayload>, s: State,
                                       steps: seq<Step>)
    requires Sane(w) && Possible(w, s, steps) && Inv(w, keys, used, s)
    requires DistinctOn(w.system.digests.key, used) && Covers(used, Run(w, s, steps).calls)
    requires AllAsAsked(w, keys, s, steps)
    ensures Inv(w, keys, used, Run(w, s, steps))
    decreases |steps|
  {
    if steps != [] {
      EarlierIsCovered(w, used, s, steps);
      StepKeepsInv(w, keys, used, s, steps[0]);
      RunKeepsInv(w, keys, used, Next(w, s, steps[0]), steps[1..]);
    }
  }

  /** Where a run from the start leaves every call. */
  lemma CallsAreOk(w: World, settings: Runtime.State, keys: iset<string>, steps: seq<Step>)
    requires Sane(w) && Possible(w, Initial(w, settings), steps)
    requires NoCollision(w, Run(w, Initial(w, settings), steps).calls)
    requires AllAsAsked(w, keys, Initial(w, settings), steps)
    ensures
      var s := Run(w, Initial(w, settings), steps);
      forall id :: id in s.calls ==> CallOk(w, keys, s.now, s.calls[id])
  {
    var s := Run(w, Initial(w, settings), steps);
    RunKeepsInv(w, keys, Payloads(s.calls), Initial(w, settings), steps);
  }

  // ---------------------------------------------------------------------------------------
  // Making runs
  // ---------------------------------------------------------------------------------------

  lemma {:induction false} Extend(w: World, s: State, steps: seq<Step>, step: Step) returns (longer: seq<Step>)
    requires Possible(w, s, steps) && Enabled(w, Run(w, s, steps), step)
    ensures Possible(w, s, longer) && Run(w, s, longer) == Next(w, Run(w, s, steps), step)
    ensures longer == steps + [step]
    decreases |steps|
  {
    if steps == [] {
      longer := [step];
    } else {
      var rest := Extend(w, Next(w, s, steps[0]), steps[1..], step);
      longer := [steps[0]] + rest;
      assert longer[1..] == rest;
    }
  }

  lemma Switch(w: World, s0: State, steps: seq<Step>, mode: Bytes) returns (longer: seq<Step>)
    requires Possible(w, s0, steps)
    requires mode != [] && forall i :: 0 <= i < |mode| ==> 'a' <= mode[i] <= 'z'
    ensures Possible(w, s0, longer)
    ensures
      var s := Run(w, s0, steps);
      Run(w, s0, longer) == s.(settings := s.settings.(dcsMode := mode))
    ensures longer == steps + [Administer(Some(mode), None)]
  {
    Runtime.CleanModeFixed(mode);
    longer := Extend(w, s0, steps, Administer(Some(mode), None));
  }
}
