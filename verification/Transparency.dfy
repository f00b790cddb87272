/** The caches of the pipeline are transparent in a run exactly when every call decides in the
    mode it asked for. */
module Transparency {
  import opened PolicyTypes
  import opened Wrappers
  import opened Pipeline
  import Engine
  import Provider
  import Runtime
  import TtlCache

  /** A call that has decided, or been told, something else than the uncached decision for the
      mode it read: the first mode it read in `Evaluate`, if it read two. */
  predicate Wrong(w: World, c: Call) {
    match c.stage
    case SetDecision(input, _, dcs, _, d) => d != Engine.Uncached(w.system, dcs, input)
    case Returned(input, _, dcs, d, _) => d != Engine.Uncached(w.system, dcs, input)
    case _ => false
  }

  /** The key of a call that has decided or returned. */
  ghost function OwnKey(w: World, c: Call): iset<string> {
    match c.stage
    case SetDecision(input, _, dcs, _, _) => iset{Engine.KeyString(w.system, dcs, input)}
    case Returned(input, _, dcs, _, _) => iset{Engine.KeyString(w.system, dcs, input)}
    case _ => iset{}
  }

  /** Whatever the interleaving of calls, clears, evictions, expiries, level changes, mode
      switches and store changes, and whichever keys one looks at: every decision stored or
      returned under one of them, its hash included, is the uncached one for the mode its call
      read, if and only if the two readings agree of each call that asked the cache under one
      of them and decided. Disagreement reaches no further than its own key. */
  lemma CachesAreTransparent(w: World, settings: Runtime.State, keys: iset<string>, steps: seq<Step>)
    requires Sane(w) && Possible(w, Initial(w, settings), steps)
    requires NoCollision(w, Run(w, Initial(w, settings), steps).calls)
    ensures
      var calls := Run(w, Initial(w, settings), steps).calls;
      AllAsAsked(w, keys, Initial(w, settings), steps) <==>
        forall id :: id in calls && !(OwnKey(w, calls[id]) !! keys) ==> !Wrong(w, calls[id])
  {
    var s0 := Initial(w, settings);
    var s := Run(w, s0, steps);
    if AllAsAsked(w, keys, s0, steps) {
      forall id | id in s.calls && !(OwnKey(w, s.calls[id]) !! keys)
        ensures !Wrong(w, s.calls[id])
      {
        RightUnder(w, settings, keys, steps, id);
      }
    } else {
      var id := DisagreementShows(w, keys, s0, steps);
    }
  }

  lemma RightUnder(w: World, settings: Runtime.State, keys: iset<string>, steps: seq<Step>, id: nat)
    requires Sane(w) && Possible(w, Initial(w, settings), steps) && AllAsAsked(w, keys, Initial(w, settings), steps)
    requires NoCollision(w, Run(w, Initial(w, settings), steps).calls)
    requires id in Run(w, Initial(w, settings), steps).calls
    requires !(OwnKey(w, Run(w, Initial(w, settings), steps).calls[id]) !! keys)
    ensures !Wrong(w, Run(w, Initial(w, settings), steps).calls[id])
  {
    CallsAreOk(w, settings, keys, steps);
    var s := Run(w, Initial(w, settings), steps);
    OkIsRight(w, keys, s.now, s.calls[id]);
  }

  lemma OkIsRight(w: World, keys: iset<string>, now: int, c: Call)
    requires CallOk(w, keys, now, c) && !(OwnKey(w, c) !! keys)
    ensures !Wrong(w, c)
  {
    var key :| key in OwnKey(w, c) && key in keys;
  }

  /** One call's answer is right whenever no call of the run disagreed under its own key. */
  lemma AnswerIsRight(w: World, settings: Runtime.State, steps: seq<Step>, id: nat)
    requires Sane(w) && Possible(w, Initial(w, settings), steps)
    requires NoCollision(w, Run(w, Initial(w, settings), steps).calls)
    requires id in Run(w, Initial(w, settings), steps).calls
    requires
      AllAsAsked(w, OwnKey(w, Run(w, Initial(w, settings), steps).calls[id]), Initial(w, settings), steps)
    ensures !Wrong(w, Run(w, Initial(w, settings), steps).calls[id])
  {
    var c := Run(w, Initial(w, settings), steps).calls[id];
    CachesAreTransparent(w, settings, OwnKey(w, c), steps);
    if OwnKey(w, c) != iset{} {
      var key :| key in OwnKey(w, c);
    }
  }

  /** Switches and disagreeing readings notwithstanding, nothing is made up: a returned
      decision is the uncached one for DCS on or the one for DCS off. */
  lemma AnswersAreOfSomeMode(w: World, settings: Runtime.State, steps: seq<Step>, id: nat)
    requires Sane(w) && Possible(w, Initial(w, settings), steps)
    requires NoCollision(w, Run(w, Initial(w, settings), steps).calls)
    requires id in Run(w, Initial(w, settings), steps).calls
    ensures
      var c := Run(w, Initial(w, settings), steps).calls[id];
      c.stage.Returned? ==>
        c.stage.decision == Engine.Uncached(w.system, true, c.stage.input) ||
        c.stage.decision == Engine.Uncached(w.system, false, c.stage.input)
  {
    NoneAsked(w, Initial(w, settings), steps);
    CallsAreOk(w, settings, iset{}, steps);
  }

  /** No input is decided alike with DCS on and off, so what a call is about to store under
      its key is what the key stands for exactly when its two readings of the mode agree. It is
      in any case right for the second reading. */
  lemma StoredAnswerIff(w: World, s: State, id: nat, victim: Option<string>)
    requires id in s.calls && s.calls[id].stage.ReadModeAndDecide? && s.calls[id].stage.asked.Some?
    ensures
      var c := s.calls[id].stage;
      var next := Advanced(w, s, id, victim).calls[id].stage;
      next.SetDecision? && next.key == c.asked.value.1 &&
      next.decision == Engine.Uncached(w.system, ModeOn(s), c.input) &&
      (next.decision == Engine.Uncached(w.system, c.asked.value.0, c.input) <==> ModeOn(s) == c.asked.value.0)
  {
    ModesNeverAgree(w.system, s.calls[id].stage.input);
  }

  lemma ModesNeverAgree(system: Engine.System, input: PolicyInput)
    ensures Engine.Uncached(system, true, input).reason != Engine.Uncached(system, false, input).reason
  {
    var (allow, reason) := Engine.Verdict(system.config, input.action, input.principal.role);
    assert reason != "dcs_off";
  }

  lemma WrongStays(w: World, s: State, step: Step, id: nat)
    requires Enabled(w, s, step) && id in s.calls && Wrong(w, s.calls[id])
    ensures
      var calls := Next(w, s, step).calls;
      id in calls && Wrong(w, calls[id]) && OwnKey(w, calls[id]) == OwnKey(w, s.calls[id])
  {
    if step.Advance? {
      AdvancedTouchesOne(w, s, step.id, step.victim);
      if step.id == id { WrongAdvances(w, s, id, step.victim); }
    }
  }

  lemma WrongAdvances(w: World, s: State, id: nat, victim: Option<string>)
    requires id in s.calls && s.calls[id].Live() && Wrong(w, s.calls[id])
    ensures
      var calls := Advanced(w, s, id, victim).calls;
      id in calls && Wrong(w, calls[id]) && OwnKey(w, calls[id]) == OwnKey(w, s.calls[id])
  {
  }

  lemma {:induction false} WrongLasts(w: World, s: State, steps: seq<Step>, id: nat)
    requires Possible(w, s, steps) && id in s.calls && Wrong(w, s.calls[id])
    ensures
      var calls := Run(w, s, steps).calls;
      id in calls && Wrong(w, calls[id]) && OwnKey(w, calls[id]) == OwnKey(w, s.calls[id])
    decreases |steps|
  {
    if steps != [] {
      WrongStays(w, s, steps[0], id);
      WrongLasts(w, Next(w, s, steps[0]), steps[1..], id);
    }
  }

  /** A call whose readings disagree is wrong from then on, under the key it asked for. */
  lemma {:induction false} DisagreementShows(w: World, keys: iset<string>, s: State, steps: seq<Step>) returns (id: nat)
    requires Possible(w, s, steps) && !AllAsAsked(w, keys, s, steps)
    ensures
      var calls := Run(w, s, steps).calls;
      id in calls && Wrong(w, calls[id]) && !(OwnKey(w, calls[id]) !! keys)
    decreases |steps|
  {
    if AsAsked(w, keys, s, steps[0]) {
      id := DisagreementShows(w, keys, Next(w, s, steps[0]), steps[1..]);
    } else {
      id := steps[0].id;
      var c := s.calls[id].stage;
      StoredAnswerIff(w, s, id, steps[0].victim);
      var s' := Next(w, s, steps[0]);
      assert Engine.KeyString(w.system, c.asked.value.0, c.input) in OwnKey(w, s'.calls[id]);
      WrongLasts(w, s', steps[1..], id);
    }
  }

  // ---------------------------------------------------------------------------------------
  // A run in which they disagree
  // ---------------------------------------------------------------------------------------

  /** A call that begins with DCS off at level 2 comes to ask the decision cache. */
  lemma AskWithDcsOff(w: World, s0: State, steps: seq<Step>, id: nat, req: Provider.Input) returns (longer: seq<Step>)
    requires Possible(w, s0, steps)
    requires
      var s := Run(w, s0, steps);
      id !in s.calls && !ModeOn(s) && s.settings.cacheLevel == 2 && Engine.CacheableAction(req.action)
    ensures Possible(w, s0, longer)
    ensures
      var s, input := Run(w, s0, steps), Provider.BuildInput(w.config, req, map[]);
      Run(w, s0, longer) == s.(calls := s.calls[id :=
        Call(req, s.now, GetDecision(input, Unclassified, false, Engine.KeyString(w.system, false, input)))])
  {
    var s, input := Run(w, s0, steps), Provider.BuildInput(w.config, req, map[]);
    longer := Extend(w, s0, steps, Begin(id, req));
    longer := Extend(w, s0, longer, Advance(id, None));
    assert Run(w, s0, longer) == s.(calls := s.calls[id := Call(req, s.now, TestLevel2(input, Unclassified))]);
    longer := Extend(w, s0, longer, Advance(id, None));
    longer := Extend(w, s0, longer, Advance(id, None));
  }

  lemma Miss(w: World, s0: State, steps: seq<Step>, id: nat) returns (longer: seq<Step>)
    requires Possible(w, s0, steps)
    requires
      var s := Run(w, s0, steps);
      id in s.calls && s.calls[id].stage.GetDecision? && s.decisions.store == map[]
    ensures Possible(w, s0, longer)
    ensures
      var s := Run(w, s0, steps);
      var c := s.calls[id].stage;
      Run(w, s0, longer) == Moved(s, id, ReadModeAndDecide(c.input, c.origin, Some((c.dcs, c.key))))
  {
    longer := Extend(w, s0, steps, Advance(id, None));
  }

  lemma DecideFresh(w: World, s0: State, steps: seq<Step>, id: nat) returns (longer: seq<Step>)
    requires Possible(w, s0, steps)
    requires
      var s := Run(w, s0, steps);
      id in s.calls && s.calls[id].stage.ReadModeAndDecide? && s.calls[id].stage.asked.Some?
    ensures Possible(w, s0, longer)
    ensures
      var s := Run(w, s0, steps);
      var c := s.calls[id].stage;
      Run(w, s0, longer) == Moved(s, id,
        SetDecision(c.input, c.origin, c.asked.value.0, c.asked.value.1, Engine.Uncached(w.system, ModeOn(s), c.input)))
  {
    longer := Extend(w, s0, steps, Advance(id, None));
  }

  /** The decision cache is cleared and the call stores its decision. */
  lemma StoreAfterClear(w: World, s0: State, steps: seq<Step>, id: nat) returns (longer: seq<Step>)
    requires Possible(w, s0, steps)
    requires
      var s := Run(w, s0, steps);
      && id in s.calls && s.calls[id].stage.SetDecision?
      && s.decisions == TtlCache.New(w.maxEntries, w.pdpTTL)
    ensures Possible(w, s0, longer)
    ensures
      var s, s' := Run(w, s0, steps), Run(w, s0, longer);
      && s'.calls.Keys == s.calls.Keys && s'.settings == s.settings
      && s'.decisions.Hit(s.calls[id].stage.key, s'.now) == Some(s.calls[id].stage.decision)
  {
    longer := Extend(w, s0, steps, ClearDecisions);
    longer := Extend(w, s0, longer, Advance(id, None));
  }

  lemma HitReturns(w: World, s0: State, steps: seq<Step>, id: nat, d: Decision) returns (longer: seq<Step>)
    requires Possible(w, s0, steps)
    requires
      var s := Run(w, s0, steps);
      id in s.calls && s.calls[id].stage.GetDecision? && s.decisions.Hit(s.calls[id].stage.key, s.now) == Some(d)
    ensures Possible(w, s0, longer)
    ensures
      var s := Run(w, s0, steps);
      var c := s.calls[id].stage;
      var calls := Run(w, s0, longer).calls;
      id in calls && calls[id].stage == Returned(c.input, c.origin, c.dcs, d, s.now)
  {
    longer := Extend(w, s0, steps, Advance(id, None));
  }

  /** With DCS off one call asks and misses; DCS goes on while it decides, and off again
      before it stores. The decision it leaves behind is then handed to a second call, all of
      whose own readings of the mode say off. */
  lemma SwitchInBetweenMisleads(w: World, req: Provider.Input) returns (steps: seq<Step>)
    requires Engine.CacheableAction(req.action)
    ensures Possible(w, Initial(w, Runtime.State("off", 2)), steps)
    ensures
      var calls := Run(w, Initial(w, Runtime.State("off", 2)), steps).calls;
      && 1 in calls && calls[1].stage.Returned? && !calls[1].stage.dcs
      && calls[1].stage.decision != Engine.Uncached(w.system, false, calls[1].stage.input)
  {
    var s0 := Initial(w, Runtime.State("off", 2));
    var input := Provider.BuildInput(w.config, req, map[]);
    var key := Engine.KeyString(w.system, false, input);
    steps := AskWithDcsOff(w, s0, [], 0, req);
    steps := Miss(w, s0, steps, 0);
    steps := Switch(w, s0, steps, "on");
    steps := DecideFresh(w, s0, steps, 0);
    steps := Switch(w, s0, steps, "off");
    steps := StoreAfterClear(w, s0, steps, 0);
    steps := AskWithDcsOff(w, s0, steps, 1, req);
    steps := HitReturns(w, s0, steps, 1, Engine.Uncached(w.system, true, input));
    ModesNeverAgree(w.system, input);
  }
}
