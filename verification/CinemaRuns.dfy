/** What whole runs of hall and spectator calls amount to: searches that are plain filters,
    halls that exist, counts that add up. */
module CinemaRuns {
  import opened PolicyTypes
  import opened Wrappers
  import opened ByteStrings
  import opened Decimal
  import opened Pep
  import opened Enforcer
  import opened Cinema
  import opened SpectatorService
  import LocalKms

  datatype Op =
    | AddHall(p: Principal, request: RequestContext, hall: HallInput, id: string)
    | AddSpectator(p: Principal, request: RequestContext, ticket: Ticket, id: string)
    | Search(p: Principal, request: RequestContext, externalID: Bytes)

  /** A call, and the mode it runs under. */
  datatype Call = Call(dcs: bool, op: Op)

  datatype Answer =
    | OfHall(hall: Result<HallOutput, Error>)
    | OfSpectator(spectator: Result<SpectatorOutput, Error>)
    | OfSearch(found: Result<seq<SpectatorOutput>, Error>)

  function Step(policy: Policy, w: World, c: Call): (World, Answer) {
    match c.op
    case AddHall(p, _, hall, id) => var (w', r) := HallStep(policy, c.dcs, w, p, hall, id); (w', OfHall(r))
    case AddSpectator(p, request, t, id) =>
      var (w', r) := CreateStep(policy, c.dcs, w, p, request, t, id); (w', OfSpectator(r))
    case Search(p, request, q) => var (w', r) := SearchStep(policy, c.dcs, w, p, request, q); (w', OfSearch(r))
  }

  function Run(policy: Policy, w: World, calls: seq<Call>): (World, seq<Answer>)
    decreases |calls|
  {
    if calls == [] then (w, [])
    else
      var (w', a) := Step(policy, w, calls[0]);
      var (w'', rest) := Run(policy, w', calls[1..]);
      (w'', [a] + rest)
  }

  /** A run only appends, rows first and in order. */
  lemma StepAppends(policy: Policy, w: World, c: Call)
    ensures
      var w' := Step(policy, w, c).0;
      && w.halls <= w'.halls && w.spectators <= w'.spectators
      && (w'.halls == w.halls || (c.op.AddHall? && w'.halls == w.halls + [NewHall(c.op.p, c.op.hall, c.op.id)]))
      && (w'.spectators == w.spectators ||
          (c.op.AddSpectator? && w'.spectators == w.spectators + [NewSpectator(policy, c.op.p, c.op.id, c.op.ticket)]
           && HasHall(w.halls, c.op.p.tenantID, c.op.ticket.hallID)))
  {
    match c.op {
      case AddHall(_, _, _, _) =>
      case AddSpectator(p, request, t, id) =>
        CreateAppends(policy.Decided(c.dcs, p.role, "spectator.create", "spectator").allow, c.dcs,
          ReaderFor(policy, c.dcs, p.role),
          NewSpectator(policy, p, id, t), w, p, request);
      case Search(p, request, q) =>
        SearchKeeps(policy.Decided(c.dcs, p.role, "search.spectator", "spectator").allow, c.dcs,
          ReaderFor(policy, c.dcs, p.role),
          policy.LookupOf(q), w, p, request);
    }
  }

  lemma CreateAppends(allow: bool, dcs: bool, read: Reader, s: Spectator, w: World, p: Principal,
                      request: RequestContext)
    ensures
      var w' := CreateWith(allow, dcs, read, s, w, p, request).0;
      && w'.halls == w.halls
      && (w'.spectators == w.spectators
          || (w'.spectators == w.spectators + [s] && HasHall(w.halls, p.tenantID, s.hallID)))
  {
    FindHallFinds(w.halls, p.tenantID, s.hallID);
  }

  lemma SearchKeeps(allow: bool, dcs: bool, read: Reader, lookup: Bytes, w: World, p: Principal,
                    request: RequestContext)
    ensures
      var w' := SearchWith(allow, dcs, read, lookup, w, p, request).0;
      w'.halls == w.halls && w'.spectators == w.spectators
  {
  }

  // ---------------------------------------------------------------------------------------
  // Stored rows
  // ---------------------------------------------------------------------------------------

  predicate Readable(row: SpectatorRow) {
    LocalKms.Decrypt(row.nameCT).Ok? && LocalKms.Decrypt(row.ageCT).Ok? && LocalKms.Decrypt(row.externalIDCT).Ok?
  }

  /** The normalised ticket id a row holds. */
  function TicketOf(s: Spectator): Bytes {
    match LocalKms.Decrypt(s.row.externalIDCT)
    case Ok(id) => LocalKms.NormalizeExternalID(id)
    case Err(_) => []
  }

  /** A row reads, and its lookup is the digest of its normalised ticket id. */
  predicate Filed(policy: Policy, s: Spectator) {
    Readable(s.row) && s.lookup == policy.hmac(policy.pepper, TicketOf(s))
  }

  predicate AllFiled(policy: Policy, spectators: seq<Spectator>) {
    forall s :: s in spectators ==> Filed(policy, s)
  }

  lemma NewIsFiled(policy: Policy, p: Principal, id: string, t: Ticket)
    ensures Filed(policy, NewSpectator(policy, p, id, t))
    ensures TicketOf(NewSpectator(policy, p, id, t)) == LocalKms.NormalizeExternalID(t.externalID)
  {
    NewIsReadable(policy, p, id, t);
    LocalKms.DecryptEncrypt(t.externalID);
  }

  lemma NewIsReadable(policy: Policy, p: Principal, id: string, t: Ticket)
    ensures Readable(NewSpectator(policy, p, id, t).row)
  {
    LocalKms.DecryptEncrypt(t.name);
    LocalKms.DecryptEncrypt(Itoa(t.age));
    LocalKms.DecryptEncrypt(t.externalID);
  }

  lemma FiledWith(policy: Policy, spectators: seq<Spectator>, s: Spectator)
    requires AllFiled(policy, spectators) && Filed(policy, s)
    ensures AllFiled(policy, spectators + [s])
  {
    forall x | x in spectators + [s]
      ensures Filed(policy, x)
    {
      assert x in spectators || x == s;
    }
  }

  lemma StepKeepsFiled(policy: Policy, w: World, c: Call)
    requires AllFiled(policy, w.spectators)
    ensures AllFiled(policy, Step(policy, w, c).0.spectators)
  {
    StepAppends(policy, w, c);
    if c.op.AddSpectator? {
      NewIsFiled(policy, c.op.p, c.op.id, c.op.ticket);
      FiledWith(policy, w.spectators, NewSpectator(policy, c.op.p, c.op.id, c.op.ticket));
    }
  }

  lemma {:induction false} RunKeepsFiled(policy: Policy, w: World, calls: seq<Call>)
    requires AllFiled(policy, w.spectators)
    ensures AllFiled(policy, Run(policy, w, calls).0.spectators)
    decreases |calls|
  {
    if calls != [] {
      StepKeepsFiled(policy, w, calls[0]);
      RunKeepsFiled(policy, Step(policy, w, calls[0]).0, calls[1..]);
    }
  }

  lemma RowReads(policy: Policy, dcs: bool, role: string, row: SpectatorRow)
    requires Readable(row)
    ensures ReaderFor(policy, dcs, role)(row).Ok?
  {
    RowReadsUnder(LocalKms.Decrypt, policy.Decided(dcs, role, "spectator.read", "spectator"), row);
  }

  lemma RowReadsUnder(decrypt: Decryptor, d: Decision, row: SpectatorRow)
    requires decrypt(row.nameCT).Ok? && decrypt(row.ageCT).Ok? && decrypt(row.externalIDCT).Ok?
    ensures ReadUnder(decrypt, d, row).Ok?
  {
    var seen := AllSeen(decrypt, d, row.Ciphertexts());
    assert seen["name"] == FieldSeen(decrypt, d, "name", row.nameCT);
    assert seen["age"] == FieldSeen(decrypt, d, "age", row.ageCT);
    assert seen["external_id"] == FieldSeen(decrypt, d, "external_id", row.externalIDCT);
  }

  lemma {:induction false} ByLookupSelects(spectators: seq<Spectator>, tenantID: string, lookup: Bytes)
    ensures forall s :: s in ByLookup(spectators, tenantID, lookup) <==>
      s in spectators && s.tenantID == tenantID && s.lookup == lookup
  {
    if spectators != [] { ByLookupSelects(spectators[..|spectators| - 1], tenantID, lookup); }
  }

  lemma {:induction false} GatherReads(dcs: bool, role: string, read: Reader, spectators: seq<Spectator>)
    requires forall s :: s in spectators ==> read(s.row).Ok?
    ensures
      var r := Gather(dcs, role, read, spectators);
      && r.Ok? && |r.value| == |spectators|
      && forall i :: 0 <= i < |spectators| ==>
           r.value[i] == Output(dcs, role, spectators[i], read(spectators[i].row).value)
  {
    if spectators != [] { GatherReads(dcs, role, read, spectators[..|spectators| - 1]); }
  }

  /** The output has the row's hall, its fields as the role reads them, and its id: in full with
      DCS off or for an admin, else masked. */
  predicate Answers(policy: Policy, dcs: bool, role: string, s: Spectator, output: SpectatorOutput) {
    var read := ReaderFor(policy, dcs, role)(s.row);
    && read.Ok? && output.hallID == s.hallID
    && output.name == read.value.name && output.age == read.value.age && output.externalID == read.value.externalID
    && output.id == if !dcs || role == "admin" then s.id else MaskUUID(s.id)
  }

  // ---------------------------------------------------------------------------------------
  // Search is a plain filter
  // ---------------------------------------------------------------------------------------

  /** The tenant's rows that hold `ticket`, in creation order. */
  function Holding(ticketOf: Spectator -> Bytes, spectators: seq<Spectator>, tenantID: string, ticket: Bytes)
    : seq<Spectator>
  {
    if spectators == [] then []
    else
      var s := spectators[|spectators| - 1];
      Holding(ticketOf, spectators[..|spectators| - 1], tenantID, ticket) +
        if s.tenantID == tenantID && ticketOf(s) == ticket then [s] else []
  }

  /** The plain filter: the tenant's rows whose normalised ticket id is `ticket`. */
  function ByTicket(spectators: seq<Spectator>, tenantID: string, ticket: Bytes): seq<Spectator> {
    Holding(TicketOf, spectators, tenantID, ticket)
  }

  /** No stored ticket of the tenant other than `ticket` has its digest. */
  predicate NoCollision(policy: Policy, spectators: seq<Spectator>, tenantID: string, ticket: Bytes) {
    forall s :: s in spectators && s.tenantID == tenantID && s.lookup == policy.hmac(policy.pepper, ticket) ==>
      TicketOf(s) == ticket
  }

  /** The lookup misses no row the filter has. */
  lemma {:induction false} LookupMissesNone(ticketOf: Spectator -> Bytes, digest: Bytes -> Bytes,
                                            spectators: seq<Spectator>, tenantID: string, ticket: Bytes)
    requires forall s :: s in spectators ==> s.lookup == digest(ticketOf(s))
    ensures Holding(ticketOf, ByLookup(spectators, tenantID, digest(ticket)), tenantID, ticket)
         == Holding(ticketOf, spectators, tenantID, ticket)
  {
    if spectators != [] {
      var before, s := spectators[..|spectators| - 1], spectators[|spectators| - 1];
      LookupMissesNone(ticketOf, digest, before, tenantID, ticket);
      assert s.lookup == digest(ticketOf(s));
      if s.tenantID == tenantID && s.lookup == digest(ticket) {
        var found := ByLookup(before, tenantID, digest(ticket));
        assert (found + [s])[..|found + [s]| - 1] == found;
      } else {
        assert ByLookup(spectators, tenantID, digest(ticket)) == ByLookup(before, tenantID, digest(ticket));
      }
    }
  }

  lemma {:induction false} HoldingSelects(ticketOf: Spectator -> Bytes, spectators: seq<Spectator>, tenantID: string,
                                          ticket: Bytes)
    ensures forall s :: s in Holding(ticketOf, spectators, tenantID, ticket)
                   <==> s in spectators && s.tenantID == tenantID && ticketOf(s) == ticket
  {
    if spectators != [] { HoldingSelects(ticketOf, spectators[..|spectators| - 1], tenantID, ticket); }
  }

  lemma {:induction false} LookupIsFilter(ticketOf: Spectator -> Bytes, digest: Bytes -> Bytes,
                                          spectators: seq<Spectator>, tenantID: string, ticket: Bytes)
    requires forall s :: s in spectators ==> s.lookup == digest(ticketOf(s))
    requires forall s :: s in spectators && s.tenantID == tenantID && s.lookup == digest(ticket) ==>
      ticketOf(s) == ticket
    ensures ByLookup(spectators, tenantID, digest(ticket)) == Holding(ticketOf, spectators, tenantID, ticket)
  {
    if spectators != [] {
      LookupIsFilter(ticketOf, digest, spectators[..|spectators| - 1], tenantID, ticket);
    }
  }

  function Digest(policy: Policy): Bytes -> Bytes {
    ticket => policy.hmac(policy.pepper, ticket)
  }

  /** The lookup finds the filter's rows, in creation order and no others, exactly when no
      stored ticket of the tenant collides with the one asked for. */
  lemma LookupIsFilterIff(policy: Policy, spectators: seq<Spectator>, tenantID: string, ticket: Bytes)
    requires AllFiled(policy, spectators)
    ensures ByLookup(spectators, tenantID, policy.hmac(policy.pepper, ticket)) == ByTicket(spectators, tenantID, ticket)
            <==> NoCollision(policy, spectators, tenantID, ticket)
  {
    var lookup := policy.hmac(policy.pepper, ticket);
    assert forall s :: s in spectators ==> Filed(policy, s);
    if NoCollision(policy, spectators, tenantID, ticket) {
      LookupIsFilter(TicketOf, Digest(policy), spectators, tenantID, ticket);
    } else {
      ByLookupSelects(spectators, tenantID, lookup);
      HoldingSelects(TicketOf, spectators, tenantID, ticket);
      var s :| s in spectators && s.tenantID == tenantID && s.lookup == lookup && TicketOf(s) != ticket;
      assert s in ByLookup(spectators, tenantID, lookup) && s !in ByTicket(spectators, tenantID, ticket);
    }
  }

  lemma SearchWithAnswers(dcs: bool, read: Reader, lookup: Bytes, w: World, p: Principal, request: RequestContext)
    requires forall s :: s in ByLookup(w.spectators, p.tenantID, lookup) ==> read(s.row).Ok?
    ensures
      var found := ByLookup(w.spectators, p.tenantID, lookup);
      var r := SearchWith(true, dcs, read, lookup, w, p, request).1;
      && r.Ok? && |r.value| == |found|
      && forall i :: 0 <= i < |found| ==> r.value[i] == Output(dcs, p.role, found[i], read(found[i].row).value)
  {
    GatherReads(dcs, p.role, read, ByLookup(w.spectators, p.tenantID, lookup));
  }

  /** An allowed search over filed rows answers, one output per row found. */
  lemma SearchAnswers(policy: Policy, dcs: bool, w: World, p: Principal, request: RequestContext, externalID: Bytes)
    requires AllFiled(policy, w.spectators)
    requires policy.Decided(dcs, p.role, "search.spectator", "spectator").allow
    ensures
      var found := ByLookup(w.spectators, p.tenantID, policy.LookupOf(externalID));
      var r := SearchStep(policy, dcs, w, p, request, externalID).1;
      && r.Ok? && |r.value| == |found|
      && forall i :: 0 <= i < |found| ==> Answers(policy, dcs, p.role, found[i], r.value[i])
  {
    var lookup := policy.LookupOf(externalID);
    ByLookupSelects(w.spectators, p.tenantID, lookup);
    forall s | s in ByLookup(w.spectators, p.tenantID, lookup)
      ensures ReaderFor(policy, dcs, p.role)(s.row).Ok?
    {
      assert Filed(policy, s);
      RowReads(policy, dcs, p.role, s.row);
    }
    SearchWithAnswers(dcs, ReaderFor(policy, dcs, p.role), lookup, w, p, request);
  }

  /** The spectator's plaintext ticket id is the query, up to letter case and the white space
      around either. */
  predicate Asked(s: Spectator, query: Bytes) {
    match LocalKms.Decrypt(s.row.externalIDCT)
    case Ok(id) => SameButCase(TrimSpace(id), TrimSpace(query))
    case Err(_) => false
  }

  /** The plain filter over plaintexts: the tenant's spectators that were asked for, in order. */
  function Matching(asked: Spectator -> bool, spectators: seq<Spectator>, tenantID: string): seq<Spectator> {
    if spectators == [] then []
    else
      var s := spectators[|spectators| - 1];
      Matching(asked, spectators[..|spectators| - 1], tenantID) + if s.tenantID == tenantID && asked(s) then [s] else []
  }

  function AskedFor(query: Bytes): Spectator -> bool {
    s => Asked(s, query)
  }

  lemma AskedIsTicket(s: Spectator, query: Bytes)
    requires LocalKms.Decrypt(s.row.externalIDCT).Ok?
    ensures Asked(s, query) <==> TicketOf(s) == LocalKms.NormalizeExternalID(query)
  {
    LocalKms.SameNormalFormIff(LocalKms.Decrypt(s.row.externalIDCT).value, query);
  }

  lemma {:induction false} MatchingIsHolding(asked: Spectator -> bool, ticketOf: Spectator -> Bytes,
                                             spectators: seq<Spectator>, tenantID: string, ticket: Bytes)
    requires forall s :: s in spectators ==> (asked(s) <==> ticketOf(s) == ticket)
    ensures Matching(asked, spectators, tenantID) == Holding(ticketOf, spectators, tenantID, ticket)
  {
    if spectators != [] {
      assert asked(spectators[|spectators| - 1]) <==> ticketOf(spectators[|spectators| - 1]) == ticket;
      MatchingIsHolding(asked, ticketOf, spectators[..|spectators| - 1], tenantID, ticket);
    }
  }

  lemma MatchingIsByTicket(policy: Policy, spectators: seq<Spectator>, tenantID: string, query: Bytes)
    requires AllFiled(policy, spectators)
    ensures Matching(AskedFor(query), spectators, tenantID)
         == ByTicket(spectators, tenantID, LocalKms.NormalizeExternalID(query))
  {
    forall s | s in spectators
      ensures AskedFor(query)(s) <==> TicketOf(s) == LocalKms.NormalizeExternalID(query)
    {
      assert Filed(policy, s);
      AskedIsTicket(s, query);
    }
    MatchingIsHolding(AskedFor(query), TicketOf, spectators, tenantID, LocalKms.NormalizeExternalID(query));
  }

  /** No spectator of the tenant that was not asked for has the query's digest. */
  predicate NoneCollides(policy: Policy, spectators: seq<Spectator>, tenantID: string, query: Bytes) {
    forall s :: s in spectators && s.tenantID == tenantID && s.lookup == policy.LookupOf(query) ==> Asked(s, query)
  }

  lemma NoneCollidesIs(policy: Policy, spectators: seq<Spectator>, tenantID: string, query: Bytes)
    requires AllFiled(policy, spectators)
    ensures NoneCollides(policy, spectators, tenantID, query) <==>
      NoCollision(policy, spectators, tenantID, LocalKms.NormalizeExternalID(query))
  {
    forall s | s in spectators
      ensures Asked(s, query) <==> TicketOf(s) == LocalKms.NormalizeExternalID(query)
    {
      assert Filed(policy, s);
      AskedIsTicket(s, query);
    }
  }

  /** What the lookup finds contains the tenant's spectators whose plaintext ticket id is the
      query, up to letter case and surrounding white space, in creation order; and it is just
      those if and only if no other ticket of the tenant collides with the query. */
  lemma LookupIsMatching(policy: Policy, spectators: seq<Spectator>, tenantID: string, query: Bytes)
    requires AllFiled(policy, spectators)
    ensures
      var found := ByLookup(spectators, tenantID, policy.LookupOf(query));
      && Matching(AskedFor(query), found, tenantID) == Matching(AskedFor(query), spectators, tenantID)
      && (found == Matching(AskedFor(query), spectators, tenantID) <==>
            NoneCollides(policy, spectators, tenantID, query))
  {
    var ticket := LocalKms.NormalizeExternalID(query);
    var found := ByLookup(spectators, tenantID, policy.LookupOf(query));
    assert forall s :: s in spectators ==> Filed(policy, s);
    ByLookupSelects(spectators, tenantID, policy.LookupOf(query));
    MatchingIsByTicket(policy, spectators, tenantID, query);
    MatchingIsByTicket(policy, found, tenantID, query);
    NoneCollidesIs(policy, spectators, tenantID, query);
    LookupMissesNone(TicketOf, Digest(policy), spectators, tenantID, ticket);
    LookupIsFilterIff(policy, spectators, tenantID, ticket);
  }

  /** After any run an allowed search answers, one output per spectator found; what it finds
      contains the plain filter's spectators in order, and is the plain filter exactly when the
      query collides with no stored ticket of the tenant. */
  lemma SearchAgreesWithFilter(policy: Policy, w: World, calls: seq<Call>, dcs: bool, p: Principal,
                               request: RequestContext, externalID: Bytes)
    requires AllFiled(policy, w.spectators)
    requires policy.Decided(dcs, p.role, "search.spectator", "spectator").allow
    ensures
      var w' := Run(policy, w, calls).0;
      var found := ByLookup(w'.spectators, p.tenantID, policy.LookupOf(externalID));
      var plain := Matching(AskedFor(externalID), w'.spectators, p.tenantID);
      var r := SearchStep(policy, dcs, w', p, request, externalID).1;
      && r.Ok? && |r.value| == |found|
      && (forall i :: 0 <= i < |found| ==> Answers(policy, dcs, p.role, found[i], r.value[i]))
      && Matching(AskedFor(externalID), found, p.tenantID) == plain
      && (found == plain <==> NoneCollides(policy, w'.spectators, p.tenantID, externalID))
  {
    RunKeepsFiled(policy, w, calls);
    SearchAnswers(policy, dcs, Run(policy, w, calls).0, p, request, externalID);
    LookupIsMatching(policy, Run(policy, w, calls).0.spectators, p.tenantID, externalID);
  }

  // ---------------------------------------------------------------------------------------
  // Reads never fail
  // ---------------------------------------------------------------------------------------

  predicate NotUnreadable(a: Answer) {
    a != OfSpectator(Err(Unreadable)) && a != OfSearch(Err(Unreadable)) && a != OfHall(Err(Unreadable))
  }

  lemma CreateReads(allow: bool, dcs: bool, read: Reader, s: Spectator, w: World, p: Principal, request: RequestContext)
    requires read(s.row).Ok?
    ensures CreateWith(allow, dcs, read, s, w, p, request).1 != Err(Unreadable)
  {
  }

  lemma CreateStepReads(policy: Policy, dcs: bool, w: World, p: Principal, request: RequestContext, t: Ticket,
                        id: string)
    ensures CreateStep(policy, dcs, w, p, request, t, id).1 != Err(Unreadable)
  {
    var s := NewSpectator(policy, p, id, t);
    NewIsReadable(policy, p, id, t);
    RowReads(policy, dcs, p.role, s.row);
    CreateReads(policy.Decided(dcs, p.role, "spectator.create", "spectator").allow, dcs, ReaderFor(policy, dcs, p.role),
      s, w, p, request);
  }

  lemma StepReads(policy: Policy, w: World, c: Call)
    requires AllFiled(policy, w.spectators)
    ensures NotUnreadable(Step(policy, w, c).1)
  {
    match c.op {
      case AddHall(_, _, _, _) =>
      case AddSpectator(p, request, t, id) =>
        CreateStepReads(policy, c.dcs, w, p, request, t, id);
      case Search(p, request, q) =>
        if policy.Decided(c.dcs, p.role, "search.spectator", "spectator").allow {
          SearchAnswers(policy, c.dcs, w, p, request, q);
        }
    }
  }

  /** For any configuration, any modes and any callers, no search and no read after a
      creation ever fails for want of a plaintext. */
  lemma {:induction false} ReadsNeverFail(policy: Policy, w: World, calls: seq<Call>)
    requires AllFiled(policy, w.spectators)
    ensures |Run(policy, w, calls).1| == |calls|
    ensures forall k :: 0 <= k < |calls| ==> NotUnreadable(Run(policy, w, calls).1[k])
    decreases |calls|
  {
    if calls != [] {
      var c := calls[0];
      StepReads(policy, w, c);
      StepKeepsFiled(policy, w, c);
      ReadsNeverFail(policy, Step(policy, w, c).0, calls[1..]);
    }
  }

  // ---------------------------------------------------------------------------------------
  // Halls exist and counts add up
  // ---------------------------------------------------------------------------------------

  predicate DistinctHalls(halls: seq<Hall>) {
    forall i, j :: 0 <= i < j < |halls| && halls[i].tenantID == halls[j].tenantID ==> halls[i].id != halls[j].id
  }

  predicate Housed(w: World) {
    forall s :: s in w.spectators ==> HasHall(w.halls, s.tenantID, s.hallID)
  }

  /** Each hall's id is new to its tenant when it is drawn. */
  predicate FreshHalls(policy: Policy, w: World, calls: seq<Call>)
    decreases |calls|
  {
    calls == [] ||
    (&& (calls[0].op.AddHall? ==> !HasHall(w.halls, calls[0].op.p.tenantID, calls[0].op.id))
     && FreshHalls(policy, Step(policy, w, calls[0]).0, calls[1..]))
  }

  lemma HousedStays(w: World, w': World)
    requires Housed(w) && w.halls <= w'.halls
    requires w'.spectators == w.spectators ||
      (w'.spectators != [] && w'.spectators == w.spectators + [w'.spectators[|w'.spectators| - 1]] &&
       HasHall(w.halls, w'.spectators[|w'.spectators| - 1].tenantID, w'.spectators[|w'.spectators| - 1].hallID))
    ensures Housed(w')
  {
    forall s | s in w'.spectators
      ensures HasHall(w'.halls, s.tenantID, s.hallID)
    {
      assert HasHall(w.halls, s.tenantID, s.hallID);
      var i :| 0 <= i < |w.halls| && w.halls[i].tenantID == s.tenantID && w.halls[i].id == s.hallID;
      assert w'.halls[i] == w.halls[i];
    }
  }

  lemma {:induction false} RunKeepsIntegrity(policy: Policy, w: World, calls: seq<Call>)
    requires DistinctHalls(w.halls) && Housed(w) && FreshHalls(policy, w, calls)
    ensures DistinctHalls(Run(policy, w, calls).0.halls) && Housed(Run(policy, w, calls).0)
    decreases |calls|
  {
    if calls != [] {
      var w' := Step(policy, w, calls[0]).0;
      StepAppends(policy, w, calls[0]);
      HousedStays(w, w');
      RunKeepsIntegrity(policy, w', calls[1..]);
    }
  }

  function TenantCount(spectators: seq<Spectator>, tenantID: string): nat {
    if spectators == [] then 0
    else
      TenantCount(spectators[..|spectators| - 1], tenantID)
      + if spectators[|spectators| - 1].tenantID == tenantID then 1 else 0
  }

  /** `CountByHall` summed over the tenant's halls. */
  function HallSum(spectators: seq<Spectator>, halls: seq<Hall>, tenantID: string): nat {
    if halls == [] then 0
    else
      (if halls[0].tenantID == tenantID then CountIn(spectators, tenantID, halls[0].id) else 0)
      + HallSum(spectators, halls[1..], tenantID)
  }

  /** One spectator more adds one to the sum for each hall entry that is its own. */
  function Entries(halls: seq<Hall>, tenantID: string, id: string): nat {
    if halls == [] then 0
    else (if halls[0].tenantID == tenantID && halls[0].id == id then 1 else 0) + Entries(halls[1..], tenantID, id)
  }

  lemma {:induction false} HallSumAdds(spectators: seq<Spectator>, s: Spectator, halls: seq<Hall>, tenantID: string)
    ensures HallSum(spectators + [s], halls, tenantID) ==
      HallSum(spectators, halls, tenantID) + if s.tenantID == tenantID then Entries(halls, tenantID, s.hallID) else 0
  {
    assert (spectators + [s])[..|spectators|] == spectators;
    if halls != [] { HallSumAdds(spectators, s, halls[1..], tenantID); }
  }

  lemma {:induction false} HallSumEmpty(halls: seq<Hall>, tenantID: string)
    ensures HallSum([], halls, tenantID) == 0
  {
    if halls != [] { HallSumEmpty(halls[1..], tenantID); }
  }

  lemma {:induction false} NoEntries(halls: seq<Hall>, tenantID: string, id: string)
    requires !HasHall(halls, tenantID, id)
    ensures Entries(halls, tenantID, id) == 0
  {
    if halls != [] {
      forall j | 0 <= j < |halls[1..]|
        ensures !(halls[1..][j].tenantID == tenantID && halls[1..][j].id == id)
      {
        assert halls[j + 1] == halls[1..][j];
      }
      NoEntries(halls[1..], tenantID, id);
    }
  }

  lemma {:induction false} OneEntry(halls: seq<Hall>, tenantID: string, id: string)
    requires DistinctHalls(halls) && HasHall(halls, tenantID, id)
    ensures Entries(halls, tenantID, id) == 1
  {
    var rest := halls[1..];
    if halls[0].tenantID == tenantID && halls[0].id == id {
      forall j | 0 <= j < |rest|
        ensures !(rest[j].tenantID == tenantID && rest[j].id == id)
      {
        assert halls[j + 1] == rest[j];
      }
      NoEntries(rest, tenantID, id);
    } else {
      var i :| 0 <= i < |halls| && halls[i].tenantID == tenantID && halls[i].id == id;
      assert rest[i - 1] == halls[i];
      OneEntry(rest, tenantID, id);
    }
  }

  lemma {:induction false} CountsAddUp(spectators: seq<Spectator>, halls: seq<Hall>, tenantID: string)
    requires DistinctHalls(halls)
    requires forall s :: s in spectators ==> HasHall(halls, s.tenantID, s.hallID)
    ensures HallSum(spectators, halls, tenantID) == TenantCount(spectators, tenantID)
  {
    if spectators == [] {
      HallSumEmpty(halls, tenantID);
    } else {
      var before, s := spectators[..|spectators| - 1], spectators[|spectators| - 1];
      CountsAddUp(before, halls, tenantID);
      HallSumAdds(before, s, halls, tenantID);
      OneEntry(halls, s.tenantID, s.hallID);
      assert spectators == before + [s];
    }
  }

  /** In every run that starts from distinct halls and housed spectators and draws fresh hall
      ids, every spectator's hall exists in its own tenant, and the tenant's hall counts add
      up to its number of spectators. */
  lemma IntegrityAndConservation(policy: Policy, w: World, calls: seq<Call>, tenantID: string)
    requires DistinctHalls(w.halls) && Housed(w) && FreshHalls(policy, w, calls)
    ensures
      var w' := Run(policy, w, calls).0;
      Housed(w') && HallSum(w'.spectators, w'.halls, tenantID) == TenantCount(w'.spectators, tenantID)
  {
    RunKeepsIntegrity(policy, w, calls);
    var w' := Run(policy, w, calls).0;
    CountsAddUp(w'.spectators, w'.halls, tenantID);
  }
}
