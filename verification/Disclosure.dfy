/** What a read can disclose when the mode is switched while it is under way: the mode is read
    when its input is built, once or twice when it is decided, and, for films, once more when
    the decision is applied. */
module Disclosure {
  import opened PolicyTypes
  import opened Wrappers
  import opened ByteStrings
  import opened Pep
  import opened Pipeline
  import Engine
  import Provider
  import Runtime

  /** The action the matrix gives a field of a request whose rows are `cls`. */
  function MatrixAction(system: Engine.System, req: Provider.Input, cls: Classifications, field: string)
    : Option<FieldAction>
  {
    if field !in cls then None
    else Some(Engine.ActionForField(system.config, req.principal.role, req.kind, field, cls[field]))
  }

  /** One film read whose three readings of the mode are what they are: the time is shown in
      clear if and only if all three say on, the caller may act, the matrix says decrypt and
      the ciphertext decrypts; shown as a mask under the same conditions with the matrix saying
      mask; and withheld if and only if the caller may not act or all three say on and the
      matrix says deny. In all other cases it is the ciphertext, or a failed decryption. */
  lemma ShownIffAllOn(system: Engine.System, config: Provider.Config, req: Provider.Input, cls: Classifications,
                      built: bool, decided: bool, applied: bool, decrypt: Decryptor, ciphertext: Bytes)
    ensures
      var d := Engine.Uncached(system, decided, Provider.BuildInput(config, req, if built then cls else map[]));
      var seen := TimeSeen(decrypt, applied, d, ciphertext);
      var open := built && decided && applied && decrypt(ciphertext).Ok?
        && Engine.Verdict(system.config, req.action, req.principal.role).0;
      && (seen.Shown? <==> open && MatrixAction(system, req, cls, "time_elapsed") == Some(FieldAction.Decrypt))
      && (seen.Masked? <==> open && MatrixAction(system, req, cls, "time_elapsed") == Some(MaskAfterDecrypt))
      && (seen.Denied? <==>
            !Engine.Verdict(system.config, req.action, req.principal.role).0
            || (built && decided && applied && MatrixAction(system, req, cls, "time_elapsed") == Some(Deny)))
      && (seen.Broken? ==> decrypt(ciphertext).Err?)
      && (seen.Raw? ==> seen == Raw(ciphertext))
  {
    var rows: Classifications := if built then cls else map[];
    Provider.BuiltDecision(system, config, decided, req, rows);
  }

  /** A decision's action on a field is the matrix's, from rows the call read in the store. */
  predicate OfMatrix(w: World, c: Call, field: string, action: FieldAction)
    requires c.stage.Returned?
  {
    c.stage.origin.Rows? &&
    var rows := w.rows(c.stage.origin.readAt, c.req.kind);
    rows.Some? && MatrixAction(w.system, c.req, rows.value, field) == Some(action)
  }

  lemma ActionsAreOfMatrix(w: World, now: int, c: Call, field: string)
    requires c.stage.Returned? && CallOk(w, iset{}, now, c) && field in c.stage.decision.fieldActions
    ensures OfMatrix(w, c, field, c.stage.decision.fieldActions[field])
  {
    var cls: Classifications :=
      if c.stage.origin.Rows? then w.rows(c.stage.origin.readAt, c.req.kind).value else map[];
    Provider.BuiltDecision(w.system, w.config, true, c.req, cls);
    Provider.BuiltDecision(w.system, w.config, false, c.req, cls);
  }

  /** However calls interleave and however the mode is switched between any of the readings:
      a film read shows the time in clear, or as a mask, only where the matrix gives the
      caller's role that action on the classification the call read in the store. */
  lemma TimeIsShownByMatrix(w: World, settings: Runtime.State, steps: seq<Step>, id: nat,
                            decrypt: Decryptor, applied: bool, ciphertext: Bytes)
    requires Sane(w) && Possible(w, Initial(w, settings), steps)
    requires NoCollision(w, Run(w, Initial(w, settings), steps).calls)
    requires id in Run(w, Initial(w, settings), steps).calls
    requires Run(w, Initial(w, settings), steps).calls[id].stage.Returned?
    ensures
      var c := Run(w, Initial(w, settings), steps).calls[id];
      var seen := TimeSeen(decrypt, applied, c.stage.decision, ciphertext);
      && (seen.Shown? ==> applied && OfMatrix(w, c, "time_elapsed", FieldAction.Decrypt))
      && (seen.Masked? ==> applied && OfMatrix(w, c, "time_elapsed", MaskAfterDecrypt))
  {
    NoneAsked(w, Initial(w, settings), steps);
    CallsAreOk(w, settings, iset{}, steps);
    var s := Run(w, Initial(w, settings), steps);
    if "time_elapsed" in s.calls[id].stage.decision.fieldActions {
      ActionsAreOfMatrix(w, s.now, s.calls[id], "time_elapsed");
    }
  }

  /** The same of a spectator's fields, which are applied without reading the mode again. */
  lemma FieldIsShownByMatrix(w: World, settings: Runtime.State, steps: seq<Step>, id: nat,
                             decrypt: Decryptor, field: string, ciphertext: Bytes)
    requires Sane(w) && Possible(w, Initial(w, settings), steps)
    requires NoCollision(w, Run(w, Initial(w, settings), steps).calls)
    requires id in Run(w, Initial(w, settings), steps).calls
    requires Run(w, Initial(w, settings), steps).calls[id].stage.Returned?
    ensures
      var c := Run(w, Initial(w, settings), steps).calls[id];
      var seen := FieldSeen(decrypt, c.stage.decision, field, ciphertext);
      && (seen.Shown? ==> OfMatrix(w, c, field, FieldAction.Decrypt))
      && (seen.Masked? ==> OfMatrix(w, c, field, MaskAfterDecrypt))
  {
    NoneAsked(w, Initial(w, settings), steps);
    CallsAreOk(w, settings, iset{}, steps);
    var s := Run(w, Initial(w, settings), steps);
    if field in s.calls[id].stage.decision.fieldActions {
      ActionsAreOfMatrix(w, s.now, s.calls[id], field);
    }
  }

  /** Under the shipped defaults no switching of modes shows a time in clear to anyone but an
      agent or an admin. */
  lemma OnlyAgentsAndAdminsSeeTimes(w: World, settings: Runtime.State, steps: seq<Step>, id: nat,
                                    decrypt: Decryptor, applied: bool, ciphertext: Bytes)
    requires Possible(w, Initial(w, settings), steps)
    requires NoCollision(w, Run(w, Initial(w, settings), steps).calls)
    requires w.system.config == DEFAULT_CONFIG && Sane(w)
    requires forall t :: w.rows(t, "film") == Some(STATIC_CLASSIFICATIONS["film"])
    requires id in Run(w, Initial(w, settings), steps).calls
    ensures
      var c := Run(w, Initial(w, settings), steps).calls[id];
      c.stage.Returned? && c.req.kind == "film" && TimeSeen(decrypt, applied, c.stage.decision, ciphertext).Shown? ==>
        ToLower(c.req.principal.role) == "agent" || ToLower(c.req.principal.role) == "admin"
  {
    var c := Run(w, Initial(w, settings), steps).calls[id];
    if c.stage.Returned? && c.req.kind == "film" && TimeSeen(decrypt, applied, c.stage.decision, ciphertext).Shown? {
      TimeIsShownByMatrix(w, settings, steps, id, decrypt, applied, ciphertext);
      assert STATIC_CLASSIFICATIONS["film"]["time_elapsed"] == "SENSITIVE";
      DecryptsForTwo(c.req.principal.role);
    }
  }

  lemma DecryptsForTwo(role: string)
    requires Engine.ActionForField(DEFAULT_CONFIG, role, "film", "time_elapsed", "SENSITIVE") == FieldAction.Decrypt
    ensures ToLower(role) == "agent" || ToLower(role) == "admin"
  {
  }
}
