/** What hall and spectator calls answer, to whom they are refused, and what they write into the
    audit log, said of the plaintexts themselves. */
module CinemaAnswers {
  import opened PolicyTypes
  import opened Wrappers
  import opened ByteStrings
  import opened Decimal
  import opened Pep
  import opened Enforcer
  import opened Cinema
  import opened SpectatorService
  import opened CinemaRuns
  import opened FilmAnswers
  import Audit
  import Engine
  import FilmLedger
  import LocalKms
  import SpectatorViews

  // ---------------------------------------------------------------------------------------
  // What is shown of a spectator
  // ---------------------------------------------------------------------------------------

  /** All but the first byte hidden, and that too of a text of at most two. */
  predicate HidesText(shown: string, plaintext: Bytes) {
    && |shown| == (if |plaintext| <= 2 then |plaintext| else 4)
    && forall i :: 0 <= i < |shown| ==> shown[i] == if i == 0 && |plaintext| > 2 then plaintext[0] else '*'
  }

  predicate TextShown(role: string, plaintext: Bytes, value: Value) {
    if SameButCase(role, "admin") then value == Text(plaintext)
    else if SameButCase(role, "agent") || SameButCase(role, "developer") then
      value.Text? && HidesText(value.s, plaintext)
    else value == Null
  }

  predicate AgeShown(role: string, age: int64, value: Value) {
    if SameButCase(role, "admin") || SameButCase(role, "agent") then value == Number(age)
    else if SameButCase(role, "developer") then value == Text(if age >= 18 then "+18" else "-18")
    else value == Null
  }

  /** An id is given in full to "admin", spelt so, and to anyone else by its first four bytes
      at most. */
  predicate IDShown(role: string, id: string, shown: string) {
    if role == "admin" then shown == id
    else if |id| <= 8 then shown == "****"
    else |shown| == 7 && shown[..4] == id[..4] && shown[4..] == "\U{E2}\U{80}\U{A6}"
  }

  /** An output shows a role the spectator that a ticket makes. */
  predicate ShownTo(role: string, output: SpectatorOutput, id: string, t: Ticket) {
    && output.hallID == t.hallID && IDShown(role, id, output.id)
    && TextShown(role, t.name, output.name)
    && AgeShown(role, t.age, output.age)
    && TextShown(role, t.externalID, output.externalID)
  }

  lemma TextViewShows(role: string, plaintext: Bytes)
    ensures TextShown(role, plaintext, SpectatorViews.TextView(SpectatorViews.PersonalAction(role), plaintext))
  {
    LowerIs(role, "agent");
    LowerIs(role, "admin");
    LowerIs(role, "developer");
    MaskStringIs(plaintext);
  }

  lemma AgeViewShows(role: string, age: int64)
    ensures AgeShown(role, age, SpectatorViews.AgeView(SpectatorViews.SensitiveAction(role), age))
  {
    LowerIs(role, "agent");
    LowerIs(role, "admin");
    LowerIs(role, "developer");
  }

  lemma ShownIDShows(role: string, id: string)
    ensures IDShown(role, id, ShownID(true, role, id))
  {
    if role != "admin" {
      MaskUUIDIs(id);
      if |id| <= 8 {
        assert MaskUUID(id) == "****";
      } else {
        assert MaskUUID(id)[4..] == ELLIPSIS;
      }
    }
  }

  lemma OutputShows(policy: Policy, role: string, q: Principal, id: string, t: Ticket)
    requires Defaults(policy)
    ensures
      var read := ReaderFor(policy, true, role)(NewSpectator(policy, q, id, t).row);
      read.Ok? && ShownTo(role, Output(true, role, NewSpectator(policy, q, id, t), read.value), id, t)
  {
    SpectatorViews.SpectatorReadIsView(policy, role, q, id, t);
    TextViewShows(role, t.name);
    TextViewShows(role, t.externalID);
    AgeViewShows(role, t.age);
    ShownIDShows(role, id);
  }

  // ---------------------------------------------------------------------------------------
  // Who is refused
  // ---------------------------------------------------------------------------------------

  /** Under the shipped defaults, in either mode, the three calls are for agents and admins. */
  lemma WritesAllowed(policy: Policy, dcs: bool, role: string)
    requires Defaults(policy)
    ensures policy.Decided(dcs, role, "hall.create", "hall").allow <==> FilmLedger.Writer(role)
    ensures policy.Decided(dcs, role, "spectator.create", "spectator").allow <==> FilmLedger.Writer(role)
    ensures policy.Decided(dcs, role, "search.spectator", "spectator").allow <==> FilmLedger.Writer(role)
  {
    WriteVerdicts(role);
  }

  lemma WriteVerdicts(role: string)
    ensures Engine.Verdict(DEFAULT_CONFIG, "hall.create", role).0 == FilmLedger.Writer(role)
    ensures Engine.Verdict(DEFAULT_CONFIG, "spectator.create", role).0 == FilmLedger.Writer(role)
    ensures Engine.Verdict(DEFAULT_CONFIG, "search.spectator", role).0 == FilmLedger.Writer(role)
    ensures Engine.AllowWithoutDCS(DEFAULT_CONFIG, "hall.create", role) == FilmLedger.Writer(role)
    ensures Engine.AllowWithoutDCS(DEFAULT_CONFIG, "spectator.create", role) == FilmLedger.Writer(role)
    ensures Engine.AllowWithoutDCS(DEFAULT_CONFIG, "search.spectator", role) == FilmLedger.Writer(role)
  {
    var read, write := DEFAULT_CONFIG.readActions, DEFAULT_CONFIG.writeActions;
    assert write[1] == "hall.create" && write[2] == "spectator.create" && write[4] == "search.spectator";
    assert "hall.create" !in read && "spectator.create" !in read && "search.spectator" !in read;
  }

  /** In any mode a hall call is refused, and stores nothing, exactly to those who may not
      write; another's hall is stored as asked, in the caller's tenant, and answered in full. */
  lemma HallsAreForWriters(policy: Policy, dcs: bool, w: World, p: Principal, hall: HallInput, id: string)
    requires Defaults(policy)
    ensures
      var (w', r) := HallStep(policy, dcs, w, p, hall, id);
      && w'.spectators == w.spectators && w'.audit == w.audit
      && (r == Err(Forbidden) <==> !FilmLedger.Writer(p.role))
      && (if FilmLedger.Writer(p.role) then
            && r == Ok(HallOutput(id, hall.name, hall.ownerUserID, hall.currentFilmID, 0))
            && w'.halls == w.halls + [Hall(p.tenantID, id, hall.name, hall.ownerUserID, hall.currentFilmID)]
          else w'.halls == w.halls)
  {
    WritesAllowed(policy, dcs, p.role);
    if FilmLedger.Writer(p.role) {
      WritersAreLower(p.role);
      if dcs { SpectatorViews.HallReadIsView(policy, p.role, hall, id); }
    }
  }

  /** In any mode a search is refused exactly to those who may not write, and stores nothing. */
  lemma SearchesAreForWriters(policy: Policy, dcs: bool, w: World, p: Principal, request: RequestContext, query: Bytes)
    requires Defaults(policy) && AllFiled(policy, w.spectators)
    ensures
      var (w', r) := SearchStep(policy, dcs, w, p, request, query);
      && w'.halls == w.halls && w'.spectators == w.spectators
      && (r == Err(Forbidden) <==> !FilmLedger.Writer(p.role))
  {
    WritesAllowed(policy, dcs, p.role);
    SearchKeeps(FilmLedger.Writer(p.role), dcs, ReaderFor(policy, dcs, p.role), policy.LookupOf(query), w, p, request);
    if FilmLedger.Writer(p.role) { SearchAnswers(policy, dcs, w, p, request, query); }
  }

  /** In any mode a creation without its hall in the caller's tenant is not found and changes
      nothing; in a hall it is refused, and stores nothing, exactly to those who may not write;
      another's spectator is stored. */
  lemma CreationsAreForWriters(policy: Policy, dcs: bool, w: World, p: Principal, request: RequestContext, t: Ticket,
                               id: string)
    requires Defaults(policy)
    ensures
      var (w', r) := CreateStep(policy, dcs, w, p, request, t, id);
      && w'.halls == w.halls
      && (!HasHall(w.halls, p.tenantID, t.hallID) ==> r == Err(NotFound) && w' == w)
      && (HasHall(w.halls, p.tenantID, t.hallID) ==>
            && (r == Err(Forbidden) <==> !FilmLedger.Writer(p.role))
            && w'.spectators ==
               w.spectators + if FilmLedger.Writer(p.role) then [NewSpectator(policy, p, id, t)] else [])
  {
    WritesAllowed(policy, dcs, p.role);
    NewIsReadable(policy, p, id, t);
    RowReads(policy, dcs, p.role, NewSpectator(policy, p, id, t).row);
    CreateWithIsForWriters(FilmLedger.Writer(p.role), dcs, ReaderFor(policy, dcs, p.role),
      NewSpectator(policy, p, id, t), w, p, request);
  }

  lemma CreateWithIsForWriters(allow: bool, dcs: bool, read: Reader, s: Spectator, w: World, p: Principal,
                               request: RequestContext)
    requires read(s.row).Ok?
    ensures
      var (w', r) := CreateWith(allow, dcs, read, s, w, p, request);
      && w'.halls == w.halls
      && (!HasHall(w.halls, p.tenantID, s.hallID) ==> r == Err(NotFound) && w' == w)
      && (HasHall(w.halls, p.tenantID, s.hallID) ==>
            (r == Err(Forbidden) <==> !allow) && w'.spectators == w.spectators + if allow then [s] else [])
  {
    FindHallFinds(w.halls, p.tenantID, s.hallID);
  }

  lemma StepIsForWriters(policy: Policy, w: World, c: Call)
    requires Defaults(policy) && AllFiled(policy, w.spectators) && !FilmLedger.Writer(c.op.p.role)
    ensures Step(policy, w, c).0.halls == w.halls && Step(policy, w, c).0.spectators == w.spectators
  {
    match c.op {
      case AddHall(p, _, hall, id) => HallsAreForWriters(policy, c.dcs, w, p, hall, id);
      case AddSpectator(p, request, t, id) => CreationsAreForWriters(policy, c.dcs, w, p, request, t, id);
      case Search(p, request, q) => SearchesAreForWriters(policy, c.dcs, w, p, request, q);
    }
  }

  /** Only agents and admins write: a run of others' calls leaves halls and spectators alone. */
  lemma {:induction false} OnlyWritersWrite(policy: Policy, w: World, calls: seq<Call>)
    requires Defaults(policy) && AllFiled(policy, w.spectators)
    requires forall k :: 0 <= k < |calls| ==> !FilmLedger.Writer(calls[k].op.p.role)
    ensures Run(policy, w, calls).0.halls == w.halls && Run(policy, w, calls).0.spectators == w.spectators
    decreases |calls|
  {
    if calls != [] {
      StepIsForWriters(policy, w, calls[0]);
      OnlyWritersWrite(policy, Step(policy, w, calls[0]).0, calls[1..]);
    }
  }

  // ---------------------------------------------------------------------------------------
  // What creations and searches answer
  // ---------------------------------------------------------------------------------------

  /** With DCS on and the shipped defaults an agent's or admin's creation in a hall answers with
      the ticket itself as the role may see it. */
  lemma CreationShowsTicket(policy: Policy, w: World, p: Principal, request: RequestContext, t: Ticket, id: string)
    requires Defaults(policy) && HasHall(w.halls, p.tenantID, t.hallID) && FilmLedger.Writer(p.role)
    ensures
      var r := CreateStep(policy, true, w, p, request, t, id).1;
      r.Ok? && ShownTo(p.role, r.value, id, t)
  {
    WritesAllowed(policy, true, p.role);
    OutputShows(policy, p.role, p, id, t);
    FindHallFinds(w.halls, p.tenantID, t.hallID);
    CreateWithAnswers(true, ReaderFor(policy, true, p.role), NewSpectator(policy, p, id, t), w, p, request);
  }

  lemma CreateWithAnswers(dcs: bool, read: Reader, s: Spectator, w: World, p: Principal, request: RequestContext)
    requires read(s.row).Ok? && FindHall(w.halls, p.tenantID, s.hallID).Some?
    ensures CreateWith(true, dcs, read, s, w, p, request).1 == Ok(Output(dcs, p.role, s, read(s.row).value))
  {
  }

  /** With DCS off and the shipped defaults a spectator read shows no one anything. */
  lemma OffShowsNothing(policy: Policy, role: string, row: SpectatorRow)
    requires Defaults(policy)
    ensures
      var r := ReaderFor(policy, false, role)(row);
      && r.Ok? && r.value.name == Null && r.value.age == Null && r.value.externalID == Null
      && r.value.decrypted == multiset{} && r.value.masked == multiset{}
      && r.value.denied == multiset{"name", "age", "external_id"}
  {
    assert DEFAULT_CONFIG.readActions[2] == "spectator.read";
    NoActionsShowNothing(LocalKms.Decrypt, policy.Decided(false, role, "spectator.read", "spectator"), row);
  }

  lemma NoActionsShowNothing(decrypt: Decryptor, d: Decision, row: SpectatorRow)
    requires d.allow && d.fieldActions == map[]
    ensures
      var r := ReadUnder(decrypt, d, row);
      && r.Ok? && r.value.name == Null && r.value.age == Null && r.value.externalID == Null
      && r.value.decrypted == multiset{} && r.value.masked == multiset{}
      && r.value.denied == multiset{"name", "age", "external_id"}
  {
    var seen := AllSeen(decrypt, d, row.Ciphertexts());
    assert seen.Keys == SPECTATOR_FIELDS && forall field :: field in seen ==> seen[field] == Denied;
    FieldsAre(seen, InClear, {});
    FieldsAre(seen, AsMask, {});
    FieldsAre(seen, Withheld, {"name", "age", "external_id"});
  }

  /** A stored spectator is what a creation made of its ticket. */
  predicate MadeBy(policy: Policy, s: Spectator, c: Call) {
    c.op.AddSpectator? && s == NewSpectator(policy, c.op.p, c.op.id, c.op.ticket)
  }

  function Worlds(step: (World, Call) -> World, w: World, calls: seq<Call>): World
    decreases |calls|
  {
    if calls == [] then w else Worlds(step, step(w, calls[0]), calls[1..])
  }

  /** A row that was not there at first was added by one of the steps. */
  lemma {:induction false} RowHasOrigin(step: (World, Call) -> World, made: (Spectator, Call) -> bool,
                                        w: World, calls: seq<Call>, s: Spectator) returns (k: nat)
    requires forall w', c, x :: x in step(w', c).spectators ==> x in w'.spectators || made(x, c)
    requires s in Worlds(step, w, calls).spectators && s !in w.spectators
    ensures k < |calls| && made(s, calls[k])
    decreases |calls|
  {
    var w' := step(w, calls[0]);
    if s in w'.spectators {
      k := 0;
    } else {
      var later := RowHasOrigin(step, made, w', calls[1..], s);
      k := later + 1;
    }
  }

  function StepOf(policy: Policy): (World, Call) -> World {
    (w, c) => Step(policy, w, c).0
  }

  function MakerOf(policy: Policy): (Spectator, Call) -> bool {
    (s, c) => MadeBy(policy, s, c)
  }

  lemma {:induction false} RunIsWorlds(policy: Policy, w: World, calls: seq<Call>)
    ensures Run(policy, w, calls).0 == Worlds(StepOf(policy), w, calls)
    decreases |calls|
  {
    if calls != [] { RunIsWorlds(policy, StepOf(policy)(w, calls[0]), calls[1..]); }
  }

  lemma StepAddsMade(policy: Policy, w: World, c: Call, s: Spectator)
    requires s in Step(policy, w, c).0.spectators
    ensures s in w.spectators || MadeBy(policy, s, c)
  {
    StepAppends(policy, w, c);
  }

  lemma RowIsTicket(policy: Policy, w: World, calls: seq<Call>, s: Spectator) returns (k: nat)
    requires s in Run(policy, w, calls).0.spectators && s !in w.spectators
    ensures k < |calls| && MadeBy(policy, s, calls[k])
  {
    RunIsWorlds(policy, w, calls);
    forall w', c, x | x in StepOf(policy)(w', c).spectators
      ensures x in w'.spectators || MakerOf(policy)(x, c)
    {
      StepAddsMade(policy, w', c, x);
    }
    k := RowHasOrigin(StepOf(policy), MakerOf(policy), w, calls, s);
  }

  /** Two ids with distinct normal forms and one digest. */
  predicate Collides(policy: Policy, a: Bytes, b: Bytes) {
    var x, y := LocalKms.NormalizeExternalID(a), LocalKms.NormalizeExternalID(b);
    x != y && policy.hmac(policy.pepper, x) == policy.hmac(policy.pepper, y)
  }

  /** The output shows the ticket of a creation in the caller's tenant, which was asked for, up
      to letter case and surrounding white space, or collides with what was. */
  predicate Found(policy: Policy, c: Call, p: Principal, query: Bytes, output: SpectatorOutput) {
    && c.op.AddSpectator? && c.op.p.tenantID == p.tenantID && ShownTo(p.role, output, c.op.id, c.op.ticket)
    && (SameButCase(TrimSpace(c.op.ticket.externalID), TrimSpace(query))
        || Collides(policy, c.op.ticket.externalID, query))
  }

  lemma MadeIsFound(policy: Policy, c: Call, s: Spectator, p: Principal, query: Bytes, output: SpectatorOutput)
    requires Defaults(policy) && MadeBy(policy, s, c) && Answers(policy, true, p.role, s, output)
    requires s.tenantID == p.tenantID && s.lookup == policy.LookupOf(query)
    ensures Found(policy, c, p, query, output)
  {
    var op := c.op;
    AnswerShows(policy, p.role, op.p, op.id, op.ticket, output);
    LocalKms.SameNormalFormIff(op.ticket.externalID, query);
  }

  lemma AnswerShows(policy: Policy, role: string, q: Principal, id: string, t: Ticket, output: SpectatorOutput)
    requires Defaults(policy) && Answers(policy, true, role, NewSpectator(policy, q, id, t), output)
    ensures ShownTo(role, output, id, t)
  {
    OutputShows(policy, role, q, id, t);
  }

  /** The row behind an output. */
  lemma SearchedRow(policy: Policy, w: World, p: Principal, request: RequestContext, query: Bytes, i: nat)
    returns (s: Spectator)
    requires Defaults(policy) && FilmLedger.Writer(p.role) && AllFiled(policy, w.spectators)
    requires
      var r := SearchStep(policy, true, w, p, request, query).1;
      r.Ok? && i < |r.value|
    ensures s in w.spectators && s.tenantID == p.tenantID && s.lookup == policy.LookupOf(query)
    ensures Answers(policy, true, p.role, s, SearchStep(policy, true, w, p, request, query).1.value[i])
  {
    WritesAllowed(policy, true, p.role);
    SearchAnswers(policy, true, w, p, request, query);
    ByLookupSelects(w.spectators, p.tenantID, policy.LookupOf(query));
    var found := ByLookup(w.spectators, p.tenantID, policy.LookupOf(query));
    s := found[i];
    assert s in found;
  }

  /** With DCS on and the shipped defaults, after any run from no spectators, every output of an
      agent's or admin's search shows, as the role may see it, the ticket of a creation of the
      run in the caller's tenant whose ticket id is the query, up to letter case and surrounding
      white space, or collides with it. */
  lemma SearchShowsTickets(policy: Policy, w: World, calls: seq<Call>, p: Principal, request: RequestContext,
                           query: Bytes, i: nat) returns (k: nat)
    requires Defaults(policy) && FilmLedger.Writer(p.role) && w.spectators == []
    requires
      var r := SearchStep(policy, true, Run(policy, w, calls).0, p, request, query).1;
      r.Ok? && i < |r.value|
    ensures k < |calls|
    ensures
      Found(policy, calls[k], p, query, SearchStep(policy, true, Run(policy, w, calls).0, p, request, query).1.value[i])
  {
    RunKeepsFiled(policy, w, calls);
    var w' := Run(policy, w, calls).0;
    var s := SearchedRow(policy, w', p, request, query, i);
    k := RowIsTicket(policy, w, calls, s);
    MadeIsFound(policy, calls[k], s, p, query, SearchStep(policy, true, w', p, request, query).1.value[i]);
  }

  // ---------------------------------------------------------------------------------------
  // The audit log
  // ---------------------------------------------------------------------------------------

  /** The three lists of a creator: an agent is shown the age alone in clear, an admin all. */
  predicate CreatorLists(role: string, read: SpectatorRead) {
    && read.denied == multiset{}
    && (role == "admin" ==> read.decrypted == multiset{"name", "age", "external_id"} && read.masked == multiset{})
    && (role == "agent" ==> read.decrypted == multiset{"age"} && read.masked == multiset{"name", "external_id"})
  }

  lemma FieldsAre(seen: map<string, Seen>, fate: Fate, fields: set<string>)
    requires fields <= seen.Keys && forall field :: field in seen ==> (FateOf(seen[field]) == fate <==> field in fields)
    ensures Fields(seen, fate) == fields
  {
  }

  lemma FatesAre(decrypt: Decryptor, d: Decision, role: string, row: SpectatorRow)
    requires SpectatorViews.Gives(d, role) && FilmLedger.Writer(role) && ToLower(role) == role
    requires decrypt(row.nameCT).Ok? && decrypt(row.ageCT).Ok? && decrypt(row.externalIDCT).Ok?
    ensures
      var seen := AllSeen(decrypt, d, row.Ciphertexts());
      && seen.Keys == {"name", "age", "external_id"}
      && FateOf(seen["age"]) == InClear
      && FateOf(seen["name"]) == (if role == "admin" then InClear else AsMask)
      && FateOf(seen["external_id"]) == (if role == "admin" then InClear else AsMask)
      && !seen["name"].Broken? && !seen["age"].Broken? && !seen["external_id"].Broken?
  {
    var seen := AllSeen(decrypt, d, row.Ciphertexts());
    assert seen.Keys == SPECTATOR_FIELDS;
    assert seen["name"] == FieldSeen(decrypt, d, "name", row.nameCT);
    assert seen["age"] == FieldSeen(decrypt, d, "age", row.ageCT);
    assert seen["external_id"] == FieldSeen(decrypt, d, "external_id", row.externalIDCT);
  }

  lemma ReadUnderLists(decrypt: Decryptor, d: Decision, role: string, row: SpectatorRow)
    requires SpectatorViews.Gives(d, role) && FilmLedger.Writer(role) && ToLower(role) == role
    requires decrypt(row.nameCT).Ok? && decrypt(row.ageCT).Ok? && decrypt(row.externalIDCT).Ok?
    ensures ReadUnder(decrypt, d, row).Ok? && CreatorLists(role, ReadUnder(decrypt, d, row).value)
  {
    FatesAre(decrypt, d, role, row);
    var seen := AllSeen(decrypt, d, row.Ciphertexts());
    FieldsAre(seen, Withheld, {});
    FieldsAre(seen, InClear, if role == "admin" then {"name", "age", "external_id"} else {"age"});
    FieldsAre(seen, AsMask, if role == "admin" then {} else {"name", "external_id"});
  }

  /** With DCS on and the shipped defaults a creation in a hall writes one entry: a refusal, or
      the new spectator's, which names its hall and each field under the way it was shown. */
  lemma CreationAudits(policy: Policy, w: World, p: Principal, request: RequestContext, t: Ticket, id: string)
    requires Defaults(policy) && HasHall(w.halls, p.tenantID, t.hallID)
    ensures
      var w' := CreateStep(policy, true, w, p, request, t, id).0;
      && OneMore(w.audit, w'.audit)
      && var e := w'.audit[|w.audit|];
         && Tells(e, p, request, "spectator.create", "spectator", if FilmLedger.Writer(p.role) then id else "",
              if FilmLedger.Writer(p.role) then "allow" else "deny")
         && e.details == (if FilmLedger.Writer(p.role) then Audit.InHall(t.hallID) else Audit.NoDetails)
         && (p.role == "admin" ==> Lists(e, multiset{"name", "age", "external_id"}, multiset{}, multiset{}))
         && (p.role == "agent" ==> Lists(e, multiset{"age"}, multiset{"name", "external_id"}, multiset{}))
         && (!FilmLedger.Writer(p.role) ==> Lists(e, multiset{}, multiset{}, multiset{}))
  {
    var s := NewSpectator(policy, p, id, t);
    WritesAllowed(policy, true, p.role);
    FindHallFinds(w.halls, p.tenantID, t.hallID);
    if FilmLedger.Writer(p.role) { CreatorReads(policy, p, id, t); }
    CreateInAudits(FilmLedger.Writer(p.role), ReaderFor(policy, true, p.role), s, w, p, request);
  }

  lemma CreatorReads(policy: Policy, p: Principal, id: string, t: Ticket)
    requires Defaults(policy) && FilmLedger.Writer(p.role)
    ensures
      var read := ReaderFor(policy, true, p.role)(NewSpectator(policy, p, id, t).row);
      read.Ok? && CreatorLists(p.role, read.value)
  {
    WritersAreLower(p.role);
    SpectatorViews.ReadGives(policy, p.role);
    NewIsReadable(policy, p, id, t);
    ReadUnderLists(LocalKms.Decrypt, policy.Decided(true, p.role, "spectator.read", "spectator"), p.role,
      NewSpectator(policy, p, id, t).row);
  }

  lemma CreateInAudits(allow: bool, read: Reader, s: Spectator, w: World, p: Principal, request: RequestContext)
    requires FindHall(w.halls, p.tenantID, s.hallID).Some?
    requires allow ==> read(s.row).Ok?
    ensures
      var w' := CreateWith(allow, true, read, s, w, p, request).0;
      && OneMore(w.audit, w'.audit)
      && var e := w'.audit[|w.audit|];
         && Tells(e, p, request, "spectator.create", "spectator", if allow then s.id else "",
              if allow then "allow" else "deny")
         && e.details == (if allow then Audit.InHall(s.hallID) else Audit.NoDetails)
         && (if allow then
               var r := read(s.row).value;
               Lists(e, r.decrypted, r.masked, r.denied)
             else Lists(e, multiset{}, multiset{}, multiset{}))
  {
  }

  /** In any mode a search writes one entry: a refusal, or the number of its outputs. */
  lemma SearchAudits(policy: Policy, dcs: bool, w: World, p: Principal, request: RequestContext, query: Bytes)
    requires Defaults(policy) && AllFiled(policy, w.spectators)
    ensures
      var (w', r) := SearchStep(policy, dcs, w, p, request, query);
      && OneMore(w.audit, w'.audit) && (r.Ok? <==> FilmLedger.Writer(p.role))
      && var e := w'.audit[|w.audit|];
         && Tells(e, p, request, "search.spectator", "spectator", "", if r.Ok? then "allow" else "deny")
         && e.details == (if r.Ok? then Audit.Found(|r.value|) else Audit.NoDetails)
         && Lists(e, multiset{}, multiset{}, multiset{})
  {
    WritesAllowed(policy, dcs, p.role);
    if FilmLedger.Writer(p.role) { SearchAnswers(policy, dcs, w, p, request, query); }
    SearchWithAudits(FilmLedger.Writer(p.role), dcs, ReaderFor(policy, dcs, p.role), policy.LookupOf(query),
      w, p, request);
  }

  lemma SearchWithAudits(allow: bool, dcs: bool, read: Reader, lookup: Bytes, w: World, p: Principal,
                         request: RequestContext)
    ensures
      var (w', r) := SearchWith(allow, dcs, read, lookup, w, p, request);
      && (!allow ==> r == Err(Forbidden))
      && (!allow || r.Ok? ==>
            && OneMore(w.audit, w'.audit)
            && var e := w'.audit[|w.audit|];
               && Tells(e, p, request, "search.spectator", "spectator", "", if r.Ok? then "allow" else "deny")
               && e.details == (if r.Ok? then Audit.Found(|r.value|) else Audit.NoDetails)
               && Lists(e, multiset{}, multiset{}, multiset{}))
  {
  }
}
