/** How old the classifications behind a decision can be, and which decisions have any. */
module Staleness {
  import opened PolicyTypes
  import opened Wrappers
  import opened Pipeline
  import opened Transparency
  import Engine
  import Provider
  import Runtime
  import TtlCache

  // ---------------------------------------------------------------------------------------
  // Three readings of the mode
  // ---------------------------------------------------------------------------------------

  /** The step is the one in which call `id` commits itself to DCS on, although its input was
      built with DCS off and so without classifications. */
  predicate CommitsUnclassified(s: State, step: Step, id: nat) {
    && step.Advance? && step.id == id && id in s.calls && ModeOn(s)
    && match s.calls[id].stage
       case ReadModeForKey(_, origin) => origin.Unclassified?
       case ReadModeAndDecide(_, origin, asked) => asked.None? && origin.Unclassified?
       case _ => false
  }

  /** DCS was not switched on for call `id` between its `Build` and its `Evaluate`. */
  ghost predicate NotSwitchedOn(w: World, s: State, steps: seq<Step>, id: nat)
    requires Possible(w, s, steps)
    decreases |steps|
  {
    steps == [] || (!CommitsUnclassified(s, steps[0], id) && NotSwitchedOn(w, Next(w, s, steps[0]), steps[1..], id))
  }

  /** A call committed to DCS on without classifications. */
  predicate OnUnclassified(c: Call) {
    match c.stage
    case GetDecision(_, origin, dcs, _) => dcs && origin.Unclassified?
    case ReadModeAndDecide(_, origin, asked) => asked.Some? && asked.value.0 && origin.Unclassified?
    case SetDecision(_, origin, dcs, _, _) => dcs && origin.Unclassified?
    case Returned(_, origin, dcs, _, _) => dcs && origin.Unclassified?
    case _ => false
  }

  lemma StepCommits(w: World, s: State, step: Step, id: nat)
    requires Enabled(w, s, step)
    ensures (id in Next(w, s, step).calls && OnUnclassified(Next(w, s, step).calls[id])) <==>
            (id in s.calls && OnUnclassified(s.calls[id])) || CommitsUnclassified(s, step, id)
  {
  }

  lemma {:induction false} RunCommits(w: World, s: State, steps: seq<Step>, id: nat)
    requires Possible(w, s, steps)
    ensures (id in Run(w, s, steps).calls && OnUnclassified(Run(w, s, steps).calls[id])) <==>
            (id in s.calls && OnUnclassified(s.calls[id])) || !NotSwitchedOn(w, s, steps, id)
    decreases |steps|
  {
    if steps != [] {
      StepCommits(w, s, steps[0], id);
      RunCommits(w, Next(w, s, steps[0]), steps[1..], id);
    }
  }

  // ---------------------------------------------------------------------------------------
  // The bound
  // ---------------------------------------------------------------------------------------

  /** The decision of a returned call, had its rows been `cls`. */
  function DecisionOn(w: World, c: Call, cls: Classifications): Decision
    requires c.stage.Returned?
  {
    Engine.UncachedFor(w.system, c.stage.dcs, c.req.action, c.req.principal.role, c.req.kind, cls)
  }

  /** A returned decision is the one for what the store said at instant `t`. */
  predicate IsOf(w: World, c: Call, t: int)
    requires c.stage.Returned?
  {
    w.rows(t, c.req.kind).Some? && c.stage.decision == DecisionOn(w, c, w.rows(t, c.req.kind).value)
  }

  /** How far back the rows of a returned call may lie. */
  function Age(w: World, cached: bool): int {
    if cached then w.Lifetime() + 2 * w.latency else w.latency
  }

  /** No call of the run disagreed under the key of call `id`. */
  ghost predicate AgreesUnderOwn(w: World, settings: Runtime.State, steps: seq<Step>, id: nat)
    requires Possible(w, Initial(w, settings), steps) && id in Run(w, Initial(w, settings), steps).calls
  {
    AllAsAsked(w, OwnKey(w, Run(w, Initial(w, settings), steps).calls[id]), Initial(w, settings), steps)
  }

  /** Staleness is bounded by the classification lifetime and does not add up with the
      decision lifetime. When no call disagreed under its own key, a DCS-on decision for which
      DCS was not switched on between `Build` and `Evaluate` is the one for the store's
      contents at an instant no further back than one lifetime and two call latencies, or one
      latency alone when the rows did not come from the cache. A DCS-off decision is the one
      for any contents whatever. */
  lemma StalenessIsBounded(w: World, settings: Runtime.State, steps: seq<Step>, id: nat)
    requires Sane(w) && Possible(w, Initial(w, settings), steps)
    requires NoCollision(w, Run(w, Initial(w, settings), steps).calls)
    requires id in Run(w, Initial(w, settings), steps).calls && AgreesUnderOwn(w, settings, steps, id)
    ensures
      var c := Run(w, Initial(w, settings), steps).calls[id];
      c.stage.Returned? && c.stage.dcs && NotSwitchedOn(w, Initial(w, settings), steps, id) ==>
        && c.stage.origin.Rows? && IsOf(w, c, c.stage.origin.readAt)
        && c.stage.origin.readAt <= c.stage.at <= c.stage.origin.readAt + Age(w, c.stage.origin.cached)
    ensures
      var c := Run(w, Initial(w, settings), steps).calls[id];
      c.stage.Returned? && !c.stage.dcs ==> forall cls :: c.stage.decision == DecisionOn(w, c, cls)
  {
    CallsAreOk(w, settings, OwnKey(w, Run(w, Initial(w, settings), steps).calls[id]), steps);
    var c := Run(w, Initial(w, settings), steps).calls[id];
    RunCommits(w, Initial(w, settings), steps, id);
    if c.stage.Returned? {
      ReturnedIsOf(w, Run(w, Initial(w, settings), steps).now, c);
    }
  }

  /** What a returned call's decision is of: the rows its input was built from, or none. */
  lemma ReturnedIsOf(w: World, now: int, c: Call)
    requires c.stage.Returned? && CallOk(w, OwnKey(w, c), now, c)
    ensures c.stage.origin.Rows? ==> IsOf(w, c, c.stage.origin.readAt)
    ensures c.stage.origin.Unclassified? ==> c.stage.decision == DecisionOn(w, c, map[])
  {
    var cls: Classifications :=
      if c.stage.origin.Rows? then w.rows(c.stage.origin.readAt, c.req.kind).value else map[];
    Provider.BuiltDecision(w.system, w.config, c.stage.dcs, c.req, cls);
  }

  /** A call whose `Build` read DCS off is decided as if the store were empty. */
  lemma UnclassifiedIsOfNothing(w: World, settings: Runtime.State, steps: seq<Step>, id: nat)
    requires Sane(w) && Possible(w, Initial(w, settings), steps)
    requires NoCollision(w, Run(w, Initial(w, settings), steps).calls)
    requires id in Run(w, Initial(w, settings), steps).calls && AgreesUnderOwn(w, settings, steps, id)
    ensures
      var c := Run(w, Initial(w, settings), steps).calls[id];
      c.stage.Returned? && c.stage.origin.Unclassified? ==> c.stage.decision == DecisionOn(w, c, map[])
  {
    CallsAreOk(w, settings, OwnKey(w, Run(w, Initial(w, settings), steps).calls[id]), steps);
    var c := Run(w, Initial(w, settings), steps).calls[id];
    if c.stage.Returned? { ReturnedIsOf(w, Run(w, Initial(w, settings), steps).now, c); }
  }

  /** An allowed decision on some classified field is not the one on none. */
  lemma EmptyDiffers(w: World, c: Call, cls: Classifications)
    requires c.stage.Returned? && c.stage.dcs && cls != map[]
    requires DecisionOn(w, c, map[]).allow
    ensures DecisionOn(w, c, map[]) != DecisionOn(w, c, cls)
  {
    var field :| field in cls;
    assert field in DecisionOn(w, c, cls).fieldActions;
    assert field !in DecisionOn(w, c, map[]).fieldActions;
  }

  /** For a store that, when it answers, answers something: an allowed DCS-on decision is the
      one for the store's contents at some instant within the bound if and only if DCS was not
      switched on between the call's `Build` and its `Evaluate`; and if it was, the decision is
      that for the contents at no instant, near or far. */
  lemma TimelyIff(w: World, settings: Runtime.State, steps: seq<Step>, id: nat)
    requires Sane(w) && Possible(w, Initial(w, settings), steps)
    requires NoCollision(w, Run(w, Initial(w, settings), steps).calls)
    requires forall t, kind :: w.rows(t, kind).Some? ==> w.rows(t, kind).value != map[]
    requires id in Run(w, Initial(w, settings), steps).calls && AgreesUnderOwn(w, settings, steps, id)
    requires
      var c := Run(w, Initial(w, settings), steps).calls[id];
      c.stage.Returned? && c.stage.dcs && c.stage.decision.allow
    ensures
      var c := Run(w, Initial(w, settings), steps).calls[id];
      NotSwitchedOn(w, Initial(w, settings), steps, id) <==>
        exists t :: c.stage.at - Age(w, true) <= t <= c.stage.at && IsOf(w, c, t)
    ensures
      var c := Run(w, Initial(w, settings), steps).calls[id];
      !NotSwitchedOn(w, Initial(w, settings), steps, id) ==> forall t :: !IsOf(w, c, t)
  {
    var c := Run(w, Initial(w, settings), steps).calls[id];
    RunCommits(w, Initial(w, settings), steps, id);
    if NotSwitchedOn(w, Initial(w, settings), steps, id) {
      StalenessIsBounded(w, settings, steps, id);
      assert c.stage.at - Age(w, true) <= c.stage.origin.readAt;
    } else {
      UnclassifiedIsOfNothing(w, settings, steps, id);
      forall t
        ensures !IsOf(w, c, t)
      {
        if w.rows(t, c.req.kind).Some? { EmptyDiffers(w, c, w.rows(t, c.req.kind).value); }
      }
    }
  }

  /** A refusal does not look at classifications, so it is never out of date. */
  lemma RefusalIsOfAll(w: World, settings: Runtime.State, steps: seq<Step>, id: nat, cls: Classifications)
    requires Sane(w) && Possible(w, Initial(w, settings), steps)
    requires NoCollision(w, Run(w, Initial(w, settings), steps).calls)
    requires id in Run(w, Initial(w, settings), steps).calls && AgreesUnderOwn(w, settings, steps, id)
    ensures
      var c := Run(w, Initial(w, settings), steps).calls[id];
      c.stage.Returned? && !c.stage.decision.allow ==> c.stage.decision == DecisionOn(w, c, cls)
  {
    CallsAreOk(w, settings, OwnKey(w, Run(w, Initial(w, settings), steps).calls[id]), steps);
    var c := Run(w, Initial(w, settings), steps).calls[id];
    if c.stage.Returned? { ReturnedIsOf(w, Run(w, Initial(w, settings), steps).now, c); }
  }

  // ---------------------------------------------------------------------------------------
  // Runs below level 2
  // ---------------------------------------------------------------------------------------

  /** No step changes the cache level. */
  predicate KeepsLevel(steps: seq<Step>) {
    forall i :: 0 <= i < |steps| ==> steps[i].Administer? ==> steps[i].level.None?
  }

  /** No call has turned to the decision cache. */
  ghost predicate NoneAsks(s: State) {
    forall id :: id in s.calls ==>
      var stage := s.calls[id].stage;
      !stage.ReadModeForKey? && !stage.GetDecision? && !(stage.ReadModeAndDecide? && stage.asked.Some?)
  }

  /** Below level 2 no call reads the mode for a key, so there is nothing to disagree with. */
  lemma {:induction false} LowLevelNeverAsks(w: World, keys: iset<string>, s: State, steps: seq<Step>)
    requires Possible(w, s, steps) && KeepsLevel(steps) && s.settings.cacheLevel < 2 && NoneAsks(s)
    ensures AllAsAsked(w, keys, s, steps)
    decreases |steps|
  {
    if steps != [] {
      assert steps[0].Administer? ==> steps[0].level.None?;
      StepNeverAsks(w, s, steps[0]);
      LowLevelNeverAsks(w, keys, Next(w, s, steps[0]), steps[1..]);
    }
  }

  lemma StepNeverAsks(w: World, s: State, step: Step)
    requires Enabled(w, s, step) && (step.Administer? ==> step.level.None?)
    requires s.settings.cacheLevel < 2 && NoneAsks(s)
    ensures NoneAsks(Next(w, s, step)) && Next(w, s, step).settings.cacheLevel < 2
  {
  }

  // ---------------------------------------------------------------------------------------
  // What an administrator can do about it
  // ---------------------------------------------------------------------------------------

  /** A call that has built its input with DCS off and not yet read the mode again. */
  predicate Pending(c: Call) {
    match c.stage
    case TestLevel2(_, origin) => origin.Unclassified?
    case ReadModeForKey(_, origin) => origin.Unclassified?
    case ReadModeAndDecide(_, origin, asked) => asked.None? && origin.Unclassified?
    case _ => false
  }

  ghost predicate NonePending(s: State) {
    forall id :: id in s.calls ==> !Pending(s.calls[id])
  }

  /** DCS is only ever switched on while no such call is in flight. */
  ghost predicate SwitchedOnInQuiet(w: World, s: State, steps: seq<Step>)
    requires Possible(w, s, steps)
    decreases |steps|
  {
    steps == [] ||
    (&& (ModeOn(Next(w, s, steps[0])) && !ModeOn(s) ==> NonePending(s))
     && SwitchedOnInQuiet(w, Next(w, s, steps[0]), steps[1..]))
  }

  lemma {:induction false} QuietSwitchesCommitNone(w: World, s: State, steps: seq<Step>, id: nat)
    requires Possible(w, s, steps) && SwitchedOnInQuiet(w, s, steps)
    requires ModeOn(s) ==> NonePending(s)
    ensures NotSwitchedOn(w, s, steps, id)
    decreases |steps|
  {
    if steps != [] {
      PendingOnlyWhileOff(w, s, steps[0]);
      QuietSwitchesCommitNone(w, Next(w, s, steps[0]), steps[1..], id);
    }
  }

  lemma PendingOnlyWhileOff(w: World, s: State, step: Step)
    requires Enabled(w, s, step) && (ModeOn(s) ==> NonePending(s))
    requires ModeOn(Next(w, s, step)) && !ModeOn(s) ==> NonePending(s)
    ensures ModeOn(Next(w, s, step)) ==> NonePending(Next(w, s, step))
  {
  }

  /** If DCS is only switched on while no call is between a `Build` that read it off and its
      `Evaluate`, then every DCS-on decision of the run is within the bound. */
  lemma QuietSwitchesSuffice(w: World, settings: Runtime.State, steps: seq<Step>, id: nat)
    requires Sane(w) && Possible(w, Initial(w, settings), steps)
    requires NoCollision(w, Run(w, Initial(w, settings), steps).calls)
    requires SwitchedOnInQuiet(w, Initial(w, settings), steps)
    requires id in Run(w, Initial(w, settings), steps).calls && AgreesUnderOwn(w, settings, steps, id)
    ensures
      var c := Run(w, Initial(w, settings), steps).calls[id];
      c.stage.Returned? && c.stage.dcs ==>
        exists t :: c.stage.at - Age(w, true) <= t <= c.stage.at && IsOf(w, c, t)
  {
    QuietSwitchesCommitNone(w, Initial(w, settings), steps, id);
    StalenessIsBounded(w, settings, steps, id);
    var c := Run(w, Initial(w, settings), steps).calls[id];
    if c.stage.Returned? && c.stage.dcs {
      assert c.stage.at - Age(w, true) <= c.stage.origin.readAt <= c.stage.at;
    }
  }

  /** DCS is switched on between a call's `Build` and its `Evaluate`: its answer has DCS on and
      is that for no classifications at all, although no call's two readings in `Evaluate`
      disagree and no cache is in use. */
  lemma LateSwitchMisses(w: World, req: Provider.Input) returns (steps: seq<Step>)
    ensures Possible(w, Initial(w, Runtime.State("off", 0)), steps)
    ensures forall keys :: AllAsAsked(w, keys, Initial(w, Runtime.State("off", 0)), steps)
    ensures
      var calls := Run(w, Initial(w, Runtime.State("off", 0)), steps).calls;
      && 0 in calls && calls[0].req == req && calls[0].stage.Returned?
      && calls[0].stage.dcs && calls[0].stage.origin.Unclassified?
      && calls[0].stage.decision == DecisionOn(w, calls[0], map[])
      && (calls[0].stage.decision.allow ==>
            forall cls :: cls != map[] ==> calls[0].stage.decision != DecisionOn(w, calls[0], cls))
  {
    var s0 := Initial(w, Runtime.State("off", 0));
    steps := DecideAfterSwitch(w, req);
    var c := Run(w, s0, steps).calls[0];
    Provider.BuiltDecision(w.system, w.config, true, req, map[]);
    if c.stage.decision.allow {
      forall cls: Classifications | cls != map[]
        ensures c.stage.decision != DecisionOn(w, c, cls)
      {
        EmptyDiffers(w, c, cls);
      }
    }
  }

  lemma DecideAfterSwitch(w: World, req: Provider.Input) returns (steps: seq<Step>)
    ensures Possible(w, Initial(w, Runtime.State("off", 0)), steps)
    ensures forall keys :: AllAsAsked(w, keys, Initial(w, Runtime.State("off", 0)), steps)
    ensures
      var input := Provider.BuildInput(w.config, req, map[]);
      Run(w, Initial(w, Runtime.State("off", 0)), steps).calls ==
        map[0 := Call(req, 0, Returned(input, Unclassified, true, Engine.Uncached(w.system, true, input), 0))]
  {
    var s0 := Initial(w, Runtime.State("off", 0));
    steps := BuildWithDcsOff(w, req);
    steps := SwitchOn(w, s0, steps);
    steps := DecideUnasked(w, s0, steps, 0);
    forall keys ensures AllAsAsked(w, keys, s0, steps) {
      LowLevelNeverAsks(w, keys, s0, steps);
    }
  }

  lemma SwitchOn(w: World, s0: State, steps: seq<Step>) returns (longer: seq<Step>)
    requires Possible(w, s0, steps) && KeepsLevel(steps)
    ensures Possible(w, s0, longer) && KeepsLevel(longer)
    ensures
      var s := Run(w, s0, steps);
      Run(w, s0, longer) == s.(settings := s.settings.(dcsMode := "on")) && ModeOn(Run(w, s0, longer))
  {
    longer := Switch(w, s0, steps, "on");
  }

  /** A call that does not use the decision cache decides. */
  lemma DecideUnasked(w: World, s0: State, steps: seq<Step>, id: nat) returns (longer: seq<Step>)
    requires Possible(w, s0, steps) && KeepsLevel(steps)
    requires
      var s := Run(w, s0, steps);
      id in s.calls && s.calls[id].stage.ReadModeAndDecide? && s.calls[id].stage.asked.None?
    ensures Possible(w, s0, longer) && KeepsLevel(longer)
    ensures
      var s := Run(w, s0, steps);
      var c := s.calls[id].stage;
      var d := Engine.Uncached(w.system, ModeOn(s), c.input);
      Run(w, s0, longer) == Moved(s, id, Returned(c.input, c.origin, ModeOn(s), d, s.now))
  {
    longer := Extend(w, s0, steps, Advance(id, None));
  }

  lemma BuildWithDcsOff(w: World, req: Provider.Input) returns (steps: seq<Step>)
    ensures Possible(w, Initial(w, Runtime.State("off", 0)), steps) && KeepsLevel(steps)
    ensures
      var s0, input := Initial(w, Runtime.State("off", 0)), Provider.BuildInput(w.config, req, map[]);
      Run(w, s0, steps) == s0.(calls := map[0 := Call(req, 0, ReadModeAndDecide(input, Unclassified, None))])
  {
    var s0 := Initial(w, Runtime.State("off", 0));
    steps := Extend(w, s0, [], Begin(0, req));
    steps := Extend(w, s0, steps, Advance(0, None));
    steps := Extend(w, s0, steps, Advance(0, None));
  }

  // ---------------------------------------------------------------------------------------
  // Why the bound cannot be lower
  // ---------------------------------------------------------------------------------------

  /** A new call, with DCS on at level 1, up to its look-up of the rows. */
  lemma AskForRows(w: World, s0: State, steps: seq<Step>, id: nat, req: Provider.Input) returns (longer: seq<Step>)
    requires Possible(w, s0, steps) && KeepsLevel(steps)
    requires
      var s := Run(w, s0, steps);
      id !in s.calls && ModeOn(s) && s.settings.cacheLevel == 1
    ensures Possible(w, s0, longer) && KeepsLevel(longer)
    ensures
      var s := Run(w, s0, steps);
      Run(w, s0, longer) == s.(calls := s.calls[id := Call(req, s.now, GetRows)])
  {
    longer := Extend(w, s0, steps, Begin(id, req));
    longer := Extend(w, s0, longer, Advance(id, None));
    longer := Extend(w, s0, longer, Advance(id, None));
  }

  /** A call that finds the classification cache empty, up to its storing of the rows. */
  lemma ReadStore(w: World, s0: State, steps: seq<Step>, id: nat) returns (longer: seq<Step>)
    requires Possible(w, s0, steps) && KeepsLevel(steps)
    requires
      var s := Run(w, s0, steps);
      && id in s.calls && s.calls[id].stage.GetRows?
      && s.settings.cacheLevel == 1 && s.rows.store == map[]
      && w.rows(s.now, s.calls[id].req.kind).Some?
    ensures Possible(w, s0, longer) && KeepsLevel(longer)
    ensures
      var s := Run(w, s0, steps);
      Run(w, s0, longer) == Moved(s, id, SetRows(w.rows(s.now, s.calls[id].req.kind).value, s.now))
  {
    longer := Extend(w, s0, steps, Advance(id, None));
    longer := Extend(w, s0, longer, Advance(id, None));
    longer := Extend(w, s0, longer, Advance(id, None));
  }

  lemma Wait(w: World, s0: State, steps: seq<Step>, elapsed: nat) returns (longer: seq<Step>)
    requires Possible(w, s0, steps) && KeepsLevel(steps) && Enabled(w, Run(w, s0, steps), Tick(elapsed))
    ensures Possible(w, s0, longer) && KeepsLevel(longer)
    ensures
      var s := Run(w, s0, steps);
      Run(w, s0, longer) == s.(now := s.now + elapsed)
  {
    longer := Extend(w, s0, steps, Tick(elapsed));
  }

  lemma StoreRows(w: World, s0: State, steps: seq<Step>, id: nat) returns (longer: seq<Step>)
    requires Possible(w, s0, steps) && KeepsLevel(steps)
    requires
      var s := Run(w, s0, steps);
      && id in s.calls && s.calls[id].stage.SetRows?
      && s.rows == TtlCache.New(w.maxEntries, w.classificationTTL)
    ensures Possible(w, s0, longer) && KeepsLevel(longer)
    ensures
      var s, s' := Run(w, s0, steps), Run(w, s0, longer);
      var c := s.calls[id];
      && id in s'.calls && s' == Moved(s, id, s'.calls[id].stage).(rows := s'.rows) && s'.calls[id].stage.TestLevel2?
      && s'.rows.store == map[c.req.kind := TtlCache.Entry(c.stage.cls, s.now + w.Lifetime())]
  {
    longer := Extend(w, s0, steps, Advance(id, None));
  }

  /** Below level 2 a call decides at once. */
  lemma DecideUncached(w: World, s0: State, steps: seq<Step>, id: nat) returns (longer: seq<Step>)
    requires Possible(w, s0, steps) && KeepsLevel(steps)
    requires
      var s := Run(w, s0, steps);
      id in s.calls && s.calls[id].stage.TestLevel2? && s.settings.cacheLevel == 1
    ensures Possible(w, s0, longer) && KeepsLevel(longer)
    ensures
      var s := Run(w, s0, steps);
      var c := s.calls[id].stage;
      Run(w, s0, longer) ==
        Moved(s, id, Returned(c.input, c.origin, ModeOn(s), Engine.Uncached(w.system, ModeOn(s), c.input), s.now))
  {
    longer := Extend(w, s0, steps, Advance(id, None));
    longer := DecideUnasked(w, s0, longer, id);
  }

  lemma HitRows(w: World, s0: State, steps: seq<Step>, id: nat) returns (longer: seq<Step>)
    requires Possible(w, s0, steps) && KeepsLevel(steps)
    requires
      var s := Run(w, s0, steps);
      id in s.calls && s.calls[id].stage.GetRows? && s.rows.Hit(s.calls[id].req.kind, s.now).Some?
    ensures Possible(w, s0, longer) && KeepsLevel(longer)
    ensures
      var s := Run(w, s0, steps);
      var req := s.calls[id].req;
      Run(w, s0, longer) == Moved(s, id, TestLevel2(
        Provider.BuildInput(w.config, req, s.rows.Hit(req.kind, s.now).value), Rows(ReadTime(w, s, req.kind), true)))
  {
    longer := Extend(w, s0, steps, Advance(id, None));
  }

  lemma ReadLate(w: World, req: Provider.Input) returns (steps: seq<Step>)
    requires w.rows(0, req.kind).Some?
    ensures Possible(w, Initial(w, Runtime.State("on", 1)), steps) && KeepsLevel(steps)
    ensures
      var s0 := Initial(w, Runtime.State("on", 1));
      Run(w, s0, steps) == s0.(now := w.latency, calls := map[0 := Call(req, 0, SetRows(w.rows(0, req.kind).value, 0))])
  {
    var s0 := Initial(w, Runtime.State("on", 1));
    steps := AskForRows(w, s0, [], 0, req);
    steps := ReadStore(w, s0, steps, 0);
    assert Run(w, s0, steps).calls == map[0 := Call(req, 0, SetRows(w.rows(0, req.kind).value, 0))];
    steps := Wait(w, s0, steps, w.latency);
  }

  /** A call reads the store at instant 0 and is as slow as it may be to cache what it read. */
  lemma CacheLate(w: World, req: Provider.Input) returns (steps: seq<Step>)
    requires w.rows(0, req.kind).Some?
    ensures Possible(w, Initial(w, Runtime.State("on", 1)), steps) && KeepsLevel(steps)
    ensures
      var s := Run(w, Initial(w, Runtime.State("on", 1)), steps);
      && s.now == w.latency && s.settings == Runtime.State("on", 1) && s.calls.Keys == {0} && s.calls[0].stage.Returned?
      && s.rows.store == map[req.kind := TtlCache.Entry(w.rows(0, req.kind).value, w.latency + w.Lifetime())]
  {
    var s0 := Initial(w, Runtime.State("on", 1));
    steps := ReadLate(w, req);
    steps := StoreRows(w, s0, steps, 0);
    steps := DecideUncached(w, s0, steps, 0);
  }

  /** The bound of `StalenessIsBounded` is reached: when the rows of instant 0 are never seen
      again, there is a run in which a decision on them is returned one lifetime and two
      latencies later. So the lifetime alone bounds the age of decisions exactly when calls
      take no time. */
  lemma StalenessBoundIsReached(w: World, req: Provider.Input) returns (steps: seq<Step>)
    requires w.rows(0, req.kind).Some? && forall t :: t != 0 ==> w.rows(t, req.kind) != w.rows(0, req.kind)
    ensures Possible(w, Initial(w, Runtime.State("on", 1)), steps)
    ensures forall keys :: AllAsAsked(w, keys, Initial(w, Runtime.State("on", 1)), steps)
    ensures
      var calls := Run(w, Initial(w, Runtime.State("on", 1)), steps).calls;
      && 1 in calls && calls[1].req == req && calls[1].stage.Returned?
      && calls[1].stage.origin == Rows(0, true) && calls[1].stage.at == w.Lifetime() + 2 * w.latency
      && calls[1].stage.input == Provider.BuildInput(w.config, req, w.rows(0, req.kind).value)
  {
    var s0 := Initial(w, Runtime.State("on", 1));
    steps := CacheLate(w, req);
    steps := Wait(w, s0, steps, w.Lifetime());
    steps := AskForRows(w, s0, steps, 1, req);
    ghost var s := Run(w, s0, steps);
    assert ReadAt(w, s.now, req.kind, s.rows.store[req.kind], 0);
    steps := HitRows(w, s0, steps, 1);
    steps := Wait(w, s0, steps, w.latency);
    steps := DecideUncached(w, s0, steps, 1);
    forall keys ensures AllAsAsked(w, keys, s0, steps) {
      LowLevelNeverAsks(w, keys, s0, steps);
    }
  }
}
