/** What each role is shown of a spectator under the shipped defaults, and what it cannot
    learn from it. */
module SpectatorViews {
  import opened PolicyTypes
  import opened Wrappers
  import opened ByteStrings
  import opened Decimal
  import opened Pep
  import opened Enforcer
  import opened Cinema
  import opened SpectatorService
  import opened CinemaRuns
  import Engine
  import LocalKms

  /** The action of a role on personal data, and on merely sensitive data. Reading goes by
      the lower-case role. */
  function PersonalAction(role: string): FieldAction {
    var r := ToLower(role);
    if r == "admin" then FieldAction.Decrypt
    else if r == "agent" || r == "developer" then MaskAfterDecrypt
    else Deny
  }

  function SensitiveAction(role: string): FieldAction {
    var r := ToLower(role);
    if r == "admin" || r == "agent" then FieldAction.Decrypt
    else if r == "developer" then MaskAfterDecrypt
    else Deny
  }

  function TextView(action: FieldAction, plaintext: Bytes): Value {
    if action == FieldAction.Decrypt then Text(plaintext)
    else if action.MaskAfterDecrypt? then Text(MaskString(plaintext))
    else Null
  }

  function AgeView(action: FieldAction, age: int64): Value {
    if action == FieldAction.Decrypt then Number(age)
    else if action.MaskAfterDecrypt? then Text(MaskAge(age))
    else Null
  }

  lemma AgentIsLowerCase()
    ensures ToLower("agent") == "agent"
  {
  }

  lemma ReadVerdict(role: string)
    ensures Engine.Verdict(DEFAULT_CONFIG, "spectator.read", role).0
  {
    assert DEFAULT_CONFIG.readActions[2] == "spectator.read";
  }

  lemma FieldActionsAre(role: string)
    ensures Engine.ActionForField(DEFAULT_CONFIG, role, "spectator", "name", "PII") == PersonalAction(role)
    ensures Engine.ActionForField(DEFAULT_CONFIG, role, "spectator", "external_id", "PII") == PersonalAction(role)
    ensures Engine.ActionForField(DEFAULT_CONFIG, role, "spectator", "age", "SENSITIVE") == SensitiveAction(role)
  {
    AgentIsLowerCase();
    assert "age" !in DEFAULT_CONFIG.spectatorAgentHardeningFields;
  }

  /** A decision gives the three fields these actions. */
  predicate Gives(d: Decision, role: string) {
    && d.allow && SPECTATOR_FIELDS <= d.fieldActions.Keys
    && d.fieldActions["name"] == d.fieldActions["external_id"] == PersonalAction(role)
    && d.fieldActions["age"] == SensitiveAction(role)
  }

  lemma ReadGives(policy: Policy, role: string)
    requires Defaults(policy)
    ensures Gives(policy.Decided(true, role, "spectator.read", "spectator"), role)
  {
    ReadVerdict(role);
    FieldActionsAre(role);
    var cls := STATIC_CLASSIFICATIONS["spectator"];
    assert cls["name"] == "PII" && cls["external_id"] == "PII" && cls["age"] == "SENSITIVE";
  }

  lemma ReadUnderShows(decrypt: Decryptor, d: Decision, role: string, row: SpectatorRow, name: Bytes, age: int64,
                       externalID: Bytes)
    requires Gives(d, role)
    requires decrypt(row.nameCT) == Ok(name) && decrypt(row.ageCT) == Ok(Itoa(age))
    requires decrypt(row.externalIDCT) == Ok(externalID)
    ensures
      var r := ReadUnder(decrypt, d, row);
      && r.Ok?
      && r.value.name == TextView(PersonalAction(role), name)
      && r.value.age == AgeView(SensitiveAction(role), age)
      && r.value.externalID == TextView(PersonalAction(role), externalID)
  {
    AtoiItoa(age);
    var seen := AllSeen(decrypt, d, row.Ciphertexts());
    assert seen["name"] == FieldSeen(decrypt, d, "name", row.nameCT);
    assert seen["age"] == FieldSeen(decrypt, d, "age", row.ageCT);
    assert seen["external_id"] == FieldSeen(decrypt, d, "external_id", row.externalIDCT);
  }

  /** With DCS on and the shipped defaults, what a role is shown of a stored spectator is its
      view of the plaintext the spectator was created from. */
  lemma SpectatorReadIsView(policy: Policy, role: string, p: Principal, id: string, t: Ticket)
    requires Defaults(policy)
    ensures
      var r := ReaderFor(policy, true, role)(NewSpectator(policy, p, id, t).row);
      && r.Ok?
      && r.value.name == TextView(PersonalAction(role), t.name)
      && r.value.age == AgeView(SensitiveAction(role), t.age)
      && r.value.externalID == TextView(PersonalAction(role), t.externalID)
  {
    ReadGives(policy, role);
    LocalKms.DecryptEncrypt(t.name);
    LocalKms.DecryptEncrypt(Itoa(t.age));
    LocalKms.DecryptEncrypt(t.externalID);
    ReadUnderShows(LocalKms.Decrypt, policy.Decided(true, role, "spectator.read", "spectator"), role,
      NewSpectator(policy, p, id, t).row, t.name, t.age, t.externalID);
  }

  /** With DCS on and the shipped defaults a hall's two ids are masked for a developer and for
      no one else: a role the matrix does not know, though denied both, is shown them. */
  lemma HallReadIsView(policy: Policy, role: string, hall: HallInput, id: string)
    requires Defaults(policy)
    ensures ShownHall(policy, true, role, hall, id) ==
      if ToLower(role) == "developer" then
        HallOutput(id, hall.name, MaskUUID(hall.ownerUserID), MaskUUID(hall.currentFilmID), 0)
      else HallOutput(id, hall.name, hall.ownerUserID, hall.currentFilmID, 0)
  {
    HallFieldMasks(policy, role, "owner_user_id");
    HallFieldMasks(policy, role, "current_film_id");
  }

  lemma HallFieldMasks(policy: Policy, role: string, field: string)
    requires Defaults(policy) && (field == "owner_user_id" || field == "current_film_id")
    ensures Masks(policy.Decided(true, role, "hall.read", "hall").fieldActions, field) <==> ToLower(role) == "developer"
  {
    assert DEFAULT_CONFIG.readActions[1] == "hall.read";
    var cls := STATIC_CLASSIFICATIONS["hall"];
    assert field in cls && cls[field] == "INTERNAL";
    InternalMasks(role, field);
  }

  lemma InternalMasks(role: string, field: string)
    ensures Engine.ActionForField(DEFAULT_CONFIG, role, "hall", field, "INTERNAL").MaskAfterDecrypt? <==>
            ToLower(role) == "developer"
  {
  }

  // ---------------------------------------------------------------------------------------
  // Two runs
  // ---------------------------------------------------------------------------------------

  /** Two rows that differ in nothing but names with one mask. */
  predicate Alike(decrypt: Decryptor, s: Spectator, s': Spectator) {
    && s' == s.(row := s.row.(nameCT := s'.row.nameCT))
    && decrypt(s.row.nameCT).Ok? && decrypt(s'.row.nameCT).Ok?
    && MaskString(decrypt(s.row.nameCT).value) == MaskString(decrypt(s'.row.nameCT).value)
  }

  predicate AllAlike(decrypt: Decryptor, a: seq<Spectator>, b: seq<Spectator>) {
    |a| == |b| && forall i :: 0 <= i < |a| ==> Alike(decrypt, a[i], b[i])
  }

  lemma SameReadUnder(decrypt: Decryptor, d: Decision, s: Spectator, s': Spectator)
    requires Alike(decrypt, s, s') && ("name" in d.fieldActions ==> d.fieldActions["name"] != FieldAction.Decrypt)
    ensures ReadUnder(decrypt, d, s.row) == ReadUnder(decrypt, d, s'.row)
  {
    assert FieldSeen(decrypt, d, "name", s.row.nameCT) == FieldSeen(decrypt, d, "name", s'.row.nameCT);
    assert AllSeen(decrypt, d, s.row.Ciphertexts()) == AllSeen(decrypt, d, s'.row.Ciphertexts());
  }

  lemma SameRead(policy: Policy, role: string, s: Spectator, s': Spectator)
    requires Defaults(policy) && ToLower(role) != "admin" && Alike(LocalKms.Decrypt, s, s')
    ensures ReaderFor(policy, true, role)(s.row) == ReaderFor(policy, true, role)(s'.row)
  {
    ReadGives(policy, role);
    SameReadUnder(LocalKms.Decrypt, policy.Decided(true, role, "spectator.read", "spectator"), s, s');
  }

  lemma {:induction false} ByLookupAlike(decrypt: Decryptor, a: seq<Spectator>, b: seq<Spectator>, tenantID: string,
                                         lookup: Bytes)
    requires AllAlike(decrypt, a, b)
    ensures AllAlike(decrypt, ByLookup(a, tenantID, lookup), ByLookup(b, tenantID, lookup))
  {
    if a != [] {
      ByLookupAlike(decrypt, a[..|a| - 1], b[..|b| - 1], tenantID, lookup);
      assert Alike(decrypt, a[|a| - 1], b[|b| - 1]);
    }
  }

  lemma {:induction false} GatherAlike(dcs: bool, role: string, read: Reader, a: seq<Spectator>, b: seq<Spectator>)
    requires |a| == |b| && forall i :: 0 <= i < |a| ==>
      read(a[i].row) == read(b[i].row) && a[i].id == b[i].id && a[i].hallID == b[i].hallID
    ensures Gather(dcs, role, read, a) == Gather(dcs, role, read, b)
  {
    if a != [] { GatherAlike(dcs, role, read, a[..|a| - 1], b[..|b| - 1]); }
  }

  lemma SearchAlike(policy: Policy, w: World, v: World, p: Principal, request: RequestContext, externalID: Bytes)
    requires Defaults(policy) && ToLower(p.role) != "admin" && AllAlike(LocalKms.Decrypt, w.spectators, v.spectators)
    ensures SearchStep(policy, true, w, p, request, externalID).1 ==
      SearchStep(policy, true, v, p, request, externalID).1
  {
    var lookup, read := policy.LookupOf(externalID), ReaderFor(policy, true, p.role);
    ByLookupAlike(LocalKms.Decrypt, w.spectators, v.spectators, p.tenantID, lookup);
    var a, b := ByLookup(w.spectators, p.tenantID, lookup), ByLookup(v.spectators, p.tenantID, lookup);
    forall i | 0 <= i < |a|
      ensures read(a[i].row) == read(b[i].row) && a[i].id == b[i].id && a[i].hallID == b[i].hallID
    {
      assert Alike(LocalKms.Decrypt, a[i], b[i]);
      SameRead(policy, p.role, a[i], b[i]);
    }
    GatherAlike(true, p.role, read, a, b);
    SearchSame(policy.Decided(true, p.role, "search.spectator", "spectator").allow, read, lookup, w, v, p, request);
  }

  lemma SearchSame(allow: bool, read: Reader, lookup: Bytes, w: World, v: World, p: Principal, request: RequestContext)
    requires Gather(true, p.role, read, ByLookup(w.spectators, p.tenantID, lookup))
          == Gather(true, p.role, read, ByLookup(v.spectators, p.tenantID, lookup))
    ensures SearchWith(allow, true, read, lookup, w, p, request).1 ==
      SearchWith(allow, true, read, lookup, v, p, request).1
  {
  }

  lemma SameAppended(decrypt: Decryptor, a: seq<Spectator>, b: seq<Spectator>, s: Spectator)
    requires AllAlike(decrypt, a, b) && decrypt(s.row.nameCT).Ok?
    ensures AllAlike(decrypt, a + [s], b + [s])
  {
    assert Alike(decrypt, s, s);
  }

  lemma CreateAlike(allow: bool, read: Reader, s: Spectator, w: World, v: World, p: Principal, request: RequestContext)
    requires WorldsAlike(w, v) && LocalKms.Decrypt(s.row.nameCT).Ok?
    ensures
      var (w', r) := CreateWith(allow, true, read, s, w, p, request);
      var (v', r') := CreateWith(allow, true, read, s, v, p, request);
      r == r' && WorldsAlike(w', v')
  {
    SameAppended(LocalKms.Decrypt, w.spectators, v.spectators, s);
  }

  predicate WorldsAlike(w: World, v: World) {
    w.halls == v.halls && AllAlike(LocalKms.Decrypt, w.spectators, v.spectators)
  }

  lemma AddAlike(policy: Policy, w: World, v: World, p: Principal, request: RequestContext, t: Ticket, id: string)
    requires WorldsAlike(w, v)
    ensures WorldsAlike(CreateStep(policy, true, w, p, request, t, id).0,
      CreateStep(policy, true, v, p, request, t, id).0)
    ensures CreateStep(policy, true, w, p, request, t, id).1 == CreateStep(policy, true, v, p, request, t, id).1
  {
    LocalKms.DecryptEncrypt(t.name);
    CreateAlike(policy.Decided(true, p.role, "spectator.create", "spectator").allow, ReaderFor(policy, true, p.role),
      NewSpectator(policy, p, id, t), w, v, p, request);
  }

  lemma StepAlike(policy: Policy, w: World, v: World, op: Op)
    requires Defaults(policy) && WorldsAlike(w, v)
    ensures WorldsAlike(Step(policy, w, Call(true, op)).0, Step(policy, v, Call(true, op)).0)
    ensures ToLower(op.p.role) != "admin" ==> Step(policy, w, Call(true, op)).1 == Step(policy, v, Call(true, op)).1
  {
    match op {
      case AddHall(_, _, _, _) =>
      case AddSpectator(p, request, t, id) =>
        AddAlike(policy, w, v, p, request, t, id);
      case Search(p, request, q) =>
        StepAppends(policy, w, Call(true, op));
        StepAppends(policy, v, Call(true, op));
        if ToLower(p.role) != "admin" { SearchAlike(policy, w, v, p, request, q); }
    }
  }

  /** Two stores that differ only in names with equal masks: however the same calls then go
      on with DCS on, every answer to an agent, or to anyone but an admin, is the same. */
  lemma {:induction false} AgentsSeeOnlyMaskedNames(policy: Policy, w: World, v: World, calls: seq<Call>)
    requires Defaults(policy) && WorldsAlike(w, v) && forall k :: 0 <= k < |calls| ==> calls[k].dcs
    ensures |Run(policy, w, calls).1| == |Run(policy, v, calls).1| == |calls|
    ensures forall k :: 0 <= k < |calls| && ToLower(calls[k].op.p.role) != "admin" ==>
      Run(policy, w, calls).1[k] == Run(policy, v, calls).1[k]
    decreases |calls|
  {
    if calls != [] {
      assert calls[0] == Call(true, calls[0].op);
      StepAlike(policy, w, v, calls[0].op);
      AgentsSeeOnlyMaskedNames(policy, Step(policy, w, calls[0]).0, Step(policy, v, calls[0]).0, calls[1..]);
    }
  }
}
