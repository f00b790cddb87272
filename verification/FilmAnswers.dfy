/** What the film calls answer and what they write into the audit log, said of the plaintexts
    themselves. */
module FilmAnswers {
  import opened PolicyTypes
  import opened Wrappers
  import opened ByteStrings
  import opened Decimal
  import opened Pep
  import opened Enforcer
  import opened Films
  import opened FilmService
  import Audit
  import FilmLedger
  import LocalKms

  /** A printed time with all but its first digit hidden, and that one too if it has fewer than
      three digits. */
  predicate HidesAllButFirst(shown: string, printed: Bytes) {
    && |shown| == (if |printed| <= 2 then 2 else 4)
    && forall i :: 0 <= i < |shown| ==> shown[i] == if i == 0 && |printed| > 2 then printed[0] else '*'
  }

  /** What a role, whatever the case of its letters, is shown of a time. */
  predicate TimeShown(role: string, time: int64, value: Value) {
    if SameButCase(role, "agent") || SameButCase(role, "admin") then value == Number(time)
    else if SameButCase(role, "developer") then value.Text? && HidesAllButFirst(value.s, Itoa(time))
    else value == Null
  }

  lemma LowerIs(role: string, name: string)
    requires forall i :: 0 <= i < |name| ==> !('A' <= name[i] <= 'Z')
    ensures ToLower(role) == name <==> SameButCase(role, name)
  {
    ToLowerIs(role, name);
    ToLowerIs(name, name);
  }

  lemma ViewIsTimeShown(role: string, time: int64)
    ensures TimeShown(role, time, FilmLedger.View(role, time))
  {
    LowerIs(role, "agent");
    LowerIs(role, "admin");
    LowerIs(role, "developer");
    MaskTimeIs(Itoa(time));
  }

  /** With DCS on and the shipped defaults a list answers one output per row of the tenant, in
      order, with id and title as stored; the time in clear for an agent or an admin, its first
      digit at most for a developer, and nothing of it for anyone else. */
  lemma ListShowsTimes(policy: Policy, w: World, p: Principal, request: RequestContext)
    requires Defaults(policy) && FilmLedger.WellStored(w.films)
    ensures
      var own := OfTenant(w.films, p.tenantID);
      var r := ListStep(policy, true, w, p, request).1;
      && r.Ok? && |r.value| == |own|
      && forall i :: 0 <= i < |own| ==>
           && r.value[i].id == own[i].id && r.value[i].title == own[i].title
           && LocalKms.DecryptInt(own[i].timeElapsedCT).Some?
           && TimeShown(p.role, LocalKms.DecryptInt(own[i].timeElapsedCT).value, r.value[i].timeElapsed)
  {
    var own, read := OfTenant(w.films, p.tenantID), ReaderFor(policy, true, p.role);
    FilmLedger.OfTenantSelects(w.films, p.tenantID);
    forall f | f in own
      ensures FilmLedger.HoldsTime(f.timeElapsedCT) && read(f.timeElapsedCT).Ok?
      ensures TimeShown(p.role, FilmLedger.TimeIn(f.timeElapsedCT), read(f.timeElapsedCT).value.value)
    {
      assert f in w.films;
      FilmLedger.ReadIsView(policy, p.role, f.timeElapsedCT);
      ViewIsTimeShown(p.role, FilmLedger.TimeIn(f.timeElapsedCT));
    }
    GatherShows(read, FilmLedger.TimeIn, own, p.role);
    forall i | 0 <= i < |own|
      ensures FilmLedger.HoldsTime(own[i].timeElapsedCT)
    {
      assert own[i] in own;
    }
  }

  lemma GatherShows(read: Reader, time: Bytes -> int64, films: seq<FilmRecord>, role: string)
    requires forall f :: f in films ==>
      read(f.timeElapsedCT).Ok? && TimeShown(role, time(f.timeElapsedCT), read(f.timeElapsedCT).value.value)
    ensures Gather(read, films).Ok? && |Gather(read, films).value.outputs| == |films|
    ensures forall i :: 0 <= i < |films| ==>
      var o := Gather(read, films).value.outputs[i];
      o.id == films[i].id && o.title == films[i].title && TimeShown(role, time(films[i].timeElapsedCT), o.timeElapsed)
  {
    FilmLedger.GatherSucceeds(read, films);
    assert forall i :: 0 <= i < |films| ==> films[i] in films;
  }

  /** The tenant's rows are all those of the tenant, as often as they are stored. */
  lemma {:induction false} OfTenantIs(films: seq<FilmRecord>, tenantID: string, f: FilmRecord)
    ensures multiset(OfTenant(films, tenantID))[f] == if f.tenantID == tenantID then multiset(films)[f] else 0
  {
    if films != [] {
      OfTenantIs(films[..|films| - 1], tenantID, f);
      assert films == films[..|films| - 1] + [films[|films| - 1]];
    }
  }

  /** With DCS on and the shipped defaults an update by an agent or an admin rewrites the time of
      the first row with the tenant and id, and of no other, and answers with that row and the
      new time; without such a row it is not found; anyone else's is refused; and those two
      change no row. */
  lemma UpdateRewritesFirst(policy: Policy, w: World, p: Principal, request: RequestContext, id: string,
                            time: int64, i: nat)
    requires Defaults(policy) && i <= |w.films|
    requires forall j :: 0 <= j < i ==> !(w.films[j].tenantID == p.tenantID && w.films[j].id == id)
    requires i < |w.films| ==> w.films[i].tenantID == p.tenantID && w.films[i].id == id
    ensures
      var (w', r) := UpdateStep(policy, true, w, p, request, id, time);
      if !(p.role == "agent" || p.role == "admin") then r == Err(Forbidden) && w'.films == w.films
      else if i == |w.films| then r == Err(NotFound) && w'.films == w.films
      else
        && r == Ok(FilmOutput(id, w.films[i].title, Number(time)))
        && |w'.films| == |w.films| && (forall j :: 0 <= j < |w.films| && j != i ==> w'.films[j] == w.films[j])
        && w'.films[i].tenantID == p.tenantID && w'.films[i].id == id && w'.films[i].title == w.films[i].title
        && LocalKms.DecryptInt(w'.films[i].timeElapsedCT) == Some(time)
  {
    FilmLedger.DecidedAllows(policy, p.role);
    WriterReads(policy, p.role, time);
    UpdateWithRewrites(policy.Decided(true, p.role, "film.update_time", "film"), ReaderFor(policy, true, p.role),
      LocalKms.Encrypt(Itoa(time)), w, p, request, id, i);
  }

  lemma WriterReads(policy: Policy, role: string, time: int64)
    requires Defaults(policy)
    ensures
      var ciphertext := LocalKms.Encrypt(Itoa(time));
      var r := ReaderFor(policy, true, role)(ciphertext);
      && LocalKms.DecryptInt(ciphertext) == Some(time) && r.Ok?
      && (role == "agent" || role == "admin" ==> r.value.value == Number(time))
  {
    LocalKms.IntRoundTrip(time);
    FilmLedger.WriteIsView(policy, role, time);
    ViewIsTimeShown(role, time);
    WritersAreLower(role);
  }

  lemma UpdateWithRewrites(d: Decision, read: Reader, ciphertext: Bytes, w: World, p: Principal,
                           request: RequestContext, id: string, i: nat)
    requires read(ciphertext).Ok? && i <= |w.films|
    requires forall j :: 0 <= j < i ==> !(w.films[j].tenantID == p.tenantID && w.films[j].id == id)
    requires i < |w.films| ==> w.films[i].tenantID == p.tenantID && w.films[i].id == id
    ensures
      var (w', r) := UpdateWith(d, read, ciphertext, w, p, request, id);
      if !d.allow then r == Err(Forbidden) && w'.films == w.films
      else if i == |w.films| then r == Err(NotFound) && w'.films == w.films
      else
        && r == Ok(FilmOutput(id, w.films[i].title, read(ciphertext).value.value))
        && |w'.films| == |w.films| && (forall j :: 0 <= j < |w.films| && j != i ==> w'.films[j] == w.films[j])
        && w'.films[i] == FilmRecord(p.tenantID, id, w.films[i].title, ciphertext)
  {
    var k := FirstMatch(w.films, p.tenantID, id);
    assert i < |w.films| ==> Matches(w.films[i], p.tenantID, id);
    assert k == i;
  }

  /** With DCS off and the shipped defaults a film read answers anyone with the ciphertext as it
      is stored, and lists no field. */
  lemma OffShowsCiphertext(policy: Policy, role: string, ciphertext: Bytes)
    requires Defaults(policy)
    ensures ReaderFor(policy, false, role)(ciphertext) == Ok(FilmRead(Text(ciphertext), [], [], []))
  {
    assert DEFAULT_CONFIG.readActions[0] == "film.read";
  }

  // ---------------------------------------------------------------------------------------
  // The audit log
  // ---------------------------------------------------------------------------------------

  /** An entry about a call: who called, in which request, did what to what, and how it went. */
  predicate Tells(e: Audit.Entry, p: Principal, request: RequestContext, action: string, kind: string, id: string,
                  outcome: string)
  {
    && e.requestID == request.requestID && e.tenantID == p.tenantID && e.userID == p.userID && e.role == p.role
    && e.action == action && e.resourceType == kind && e.resourceID == id && e.outcome == outcome
  }

  predicate OneMore(before: seq<Audit.Entry>, after: seq<Audit.Entry>) {
    |after| == |before| + 1 && after[..|before|] == before
  }

  predicate Lists(e: Audit.Entry, decrypted: multiset<string>, masked: multiset<string>, denied: multiset<string>) {
    e.decrypted == decrypted && e.masked == masked && e.denied == denied
  }

  /** An update writes one entry, with the hash of its decision: of the refusal, or of the change
      once read back; when there is nothing to change it writes none. */
  lemma UpdateAudits(policy: Policy, dcs: bool, w: World, p: Principal, request: RequestContext, id: string,
                     time: int64)
    ensures
      var d := policy.Decided(dcs, p.role, "film.update_time", "film");
      var (w', r) := UpdateStep(policy, dcs, w, p, request, id, time);
      && (r == Err(Forbidden) <==> !d.allow)
      && (r == Err(NotFound) || r == Err(Unreadable) ==> w'.audit == w.audit)
      && (r == Err(Forbidden) || r.Ok? ==>
            && OneMore(w.audit, w'.audit)
            && var e := w'.audit[|w.audit|];
               && Tells(e, p, request, "film.update_time", "film", id, if r.Ok? then "allow" else "deny")
               && e.decisionHash == d.hash && e.details == Audit.NoDetails
               && Lists(e, multiset{}, multiset{}, multiset{}))
  {
    UpdateWithAudits(policy.Decided(dcs, p.role, "film.update_time", "film"), ReaderFor(policy, dcs, p.role),
      LocalKms.Encrypt(Itoa(time)), w, p, request, id);
    ReadFails(policy, dcs, p.role, LocalKms.Encrypt(Itoa(time)));
  }

  /** The one way a read fails. */
  lemma ReadFails(policy: Policy, dcs: bool, role: string, ciphertext: Bytes)
    ensures
      var r := ReaderFor(policy, dcs, role)(ciphertext);
      r.Err? ==> r == Err(Unreadable)
  {
  }

  lemma UpdateWithAudits(d: Decision, read: Reader, ciphertext: Bytes, w: World, p: Principal, request: RequestContext,
                         id: string)
    requires read(ciphertext).Err? ==> read(ciphertext) == Err(Unreadable)
    ensures
      var (w', r) := UpdateWith(d, read, ciphertext, w, p, request, id);
      && (r == Err(Forbidden) <==> !d.allow)
      && (r == Err(NotFound) || r == Err(Unreadable) ==> w'.audit == w.audit)
      && (r == Err(Forbidden) || r.Ok? ==>
            && OneMore(w.audit, w'.audit)
            && var e := w'.audit[|w.audit|];
               && Tells(e, p, request, "film.update_time", "film", id, if r.Ok? then "allow" else "deny")
               && e.decisionHash == d.hash && e.details == Audit.NoDetails
               && Lists(e, multiset{}, multiset{}, multiset{}))
  {
  }

  /** The field list an audit entry has for a role under the shipped defaults. */
  function TimeIf(b: bool): multiset<string> {
    if b then multiset{"time_elapsed"} else multiset{}
  }

  lemma ReadLists(policy: Policy, role: string, ciphertext: Bytes)
    requires Defaults(policy) && FilmLedger.HoldsTime(ciphertext)
    ensures
      var r := ReaderFor(policy, true, role)(ciphertext);
      var full, part := ToLower(role) == "agent" || ToLower(role) == "admin", ToLower(role) == "developer";
      && r.Ok?
      && r.value.decrypted == (if full then ["time_elapsed"] else [])
      && r.value.masked == (if part then ["time_elapsed"] else [])
      && r.value.denied == (if full || part then [] else ["time_elapsed"])
  {
    FilmLedger.ReadDecision(policy, role);
    TimeIsListed(LocalKms.Decrypt, policy.Decided(true, role, "film.read", "film"), role, ciphertext);
  }

  lemma TimeIsListed(decrypt: Decryptor, d: Decision, role: string, ciphertext: Bytes)
    requires d.allow && "time_elapsed" in d.fieldActions && decrypt(ciphertext).Ok?
    requires d.fieldActions["time_elapsed"] == FilmLedger.TimeActionFor(role)
    ensures
      var r := ReadTime(decrypt, true, d, ciphertext);
      var full, part := ToLower(role) == "agent" || ToLower(role) == "admin", ToLower(role) == "developer";
      && r.Ok?
      && r.value.decrypted == (if full then ["time_elapsed"] else [])
      && r.value.masked == (if part then ["time_elapsed"] else [])
      && r.value.denied == (if full || part then [] else ["time_elapsed"])
  {
  }

  lemma {:induction false} GatherLists(read: Reader, films: seq<FilmRecord>,
                                       decrypted: seq<string>, masked: seq<string>, denied: seq<string>)
    requires forall f :: f in films ==>
      && read(f.timeElapsedCT).Ok?
      && read(f.timeElapsedCT).value.decrypted == decrypted
      && read(f.timeElapsedCT).value.masked == masked && read(f.timeElapsedCT).value.denied == denied
    ensures
      var g := Gather(read, films);
      && g.Ok?
      && g.value.decrypted == (if films == [] then {} else SetOf(decrypted))
      && g.value.masked == (if films == [] then {} else SetOf(masked))
      && g.value.denied == (if films == [] then {} else SetOf(denied))
  {
    if films != [] { GatherLists(read, films[..|films| - 1], decrypted, masked, denied); }
  }

  /** With DCS on and the shipped defaults a list writes one entry, which names the time once
      under the way it was shown, if there was any row to show. */
  lemma ListAudits(policy: Policy, w: World, p: Principal, request: RequestContext)
    requires Defaults(policy) && FilmLedger.WellStored(w.films)
    ensures
      var some := OfTenant(w.films, p.tenantID) != [];
      var full := SameButCase(p.role, "agent") || SameButCase(p.role, "admin");
      var part := SameButCase(p.role, "developer");
      var w' := ListStep(policy, true, w, p, request).0;
      && OneMore(w.audit, w'.audit)
      && var e := w'.audit[|w.audit|];
         && Tells(e, p, request, "film.read", "film", "", "allow")
         && Lists(e, TimeIf(some && full), TimeIf(some && part), TimeIf(some && !full && !part))
  {
    LowerIs(p.role, "agent");
    LowerIs(p.role, "admin");
    LowerIs(p.role, "developer");
    var own, read := OfTenant(w.films, p.tenantID), ReaderFor(policy, true, p.role);
    var full, part := ToLower(p.role) == "agent" || ToLower(p.role) == "admin", ToLower(p.role) == "developer";
    OwnReadLists(policy, w, p);
    GatherLists(read, own, OneIf(full), OneIf(part), OneIf(!full && !part));
    ListWithAudits(read, w, p, request);
    SetIsTimeIf(own != [], full);
    SetIsTimeIf(own != [], part);
    SetIsTimeIf(own != [], !full && !part);
  }

  function OneIf(b: bool): seq<string> {
    if b then ["time_elapsed"] else []
  }

  lemma SetIsTimeIf(some: bool, b: bool)
    ensures multiset(if some then SetOf(OneIf(b)) else {}) == TimeIf(some && b)
  {
    if b { assert SetOf(OneIf(b)) == {"time_elapsed"}; } else { assert SetOf(OneIf(b)) == {}; }
  }

  lemma OwnReadLists(policy: Policy, w: World, p: Principal)
    requires Defaults(policy) && FilmLedger.WellStored(w.films)
    ensures
      var full, part := ToLower(p.role) == "agent" || ToLower(p.role) == "admin", ToLower(p.role) == "developer";
      forall f :: f in OfTenant(w.films, p.tenantID) ==>
        var r := ReaderFor(policy, true, p.role)(f.timeElapsedCT);
        && r.Ok? && r.value.decrypted == OneIf(full) && r.value.masked == OneIf(part)
        && r.value.denied == OneIf(!full && !part)
  {
    FilmLedger.OfTenantSelects(w.films, p.tenantID);
    var full, part := ToLower(p.role) == "agent" || ToLower(p.role) == "admin", ToLower(p.role) == "developer";
    forall f | f in OfTenant(w.films, p.tenantID)
      ensures
        var r := ReaderFor(policy, true, p.role)(f.timeElapsedCT);
        && r.Ok? && r.value.decrypted == OneIf(full) && r.value.masked == OneIf(part)
        && r.value.denied == OneIf(!full && !part)
    {
      assert f in w.films;
      ReadLists(policy, p.role, f.timeElapsedCT);
    }
  }

  lemma ListWithAudits(read: Reader, w: World, p: Principal, request: RequestContext)
    requires Gather(read, OfTenant(w.films, p.tenantID)).Ok?
    ensures
      var g := Gather(read, OfTenant(w.films, p.tenantID)).value;
      var w' := ListWith(read, w, p, request).0;
      && OneMore(w.audit, w'.audit)
      && var e := w'.audit[|w.audit|];
         && Tells(e, p, request, "film.read", "film", "", "allow")
         && Lists(e, multiset(g.decrypted), multiset(g.masked), multiset(g.denied))
  {
  }

  /** With DCS on and the shipped defaults a creation is refused, with a deny entry, to all but
      agents and admins; theirs is stored, answered with the time in clear and logged so. */
  lemma CreateAudits(policy: Policy, w: World, p: Principal, request: RequestContext, title: string, time: int64)
    requires Defaults(policy)
    ensures
      var writer := p.role == "agent" || p.role == "admin";
      var (w', r) := CreateStep(policy, true, w, p, request, title, time);
      && (if writer then r == Ok(FilmOutput("film-abcdefgh", title, Number(time))) else r == Err(Forbidden))
      && OneMore(w.audit, w'.audit)
      && var e := w'.audit[|w.audit|];
         if writer then
           && Tells(e, p, request, "film.create", "film", "film-abcdefgh", "allow")
           && e.details == Audit.FilmCreated(title, time, "film-abcdefgh")
           && Lists(e, TimeIf(true), TimeIf(false), TimeIf(false))
         else
           && Tells(e, p, request, "film.create", "film", "", "deny")
           && Lists(e, TimeIf(false), TimeIf(false), TimeIf(false))
  {
    FilmLedger.DecidedAllows(policy, p.role);
    FilmLedger.WriteIsView(policy, p.role, time);
    ReadLists(policy, p.role, LocalKms.Encrypt(Itoa(time)));
    ViewIsTimeShown(p.role, time);
    WritersAreLower(p.role);
    CreateWithAudits(p.role == "agent" || p.role == "admin", ReaderFor(policy, true, p.role),
      LocalKms.Encrypt(Itoa(time)), w, p, request, title, time);
  }

  lemma WritersAreLower(role: string)
    ensures role == "agent" || role == "admin" ==>
      ToLower(role) == role && (SameButCase(role, "agent") || SameButCase(role, "admin"))
  {
    ToLowerIs(role, role);
  }

  lemma CreateWithAudits(allow: bool, read: Reader, ciphertext: Bytes,
                         w: World, p: Principal, request: RequestContext, title: string, time: int64)
    requires read(ciphertext).Ok?
    requires allow ==>
      var result := read(ciphertext).value;
      result.value == Number(time) && result.decrypted == ["time_elapsed"] && result.masked == [] && result.denied == []
    ensures
      var (w', r) := CreateWith(allow, read, ciphertext, w, p, request, title, time);
      && (if allow then r == Ok(FilmOutput("film-abcdefgh", title, Number(time))) else r == Err(Forbidden))
      && OneMore(w.audit, w'.audit)
      && var e := w'.audit[|w.audit|];
         if allow then
           && Tells(e, p, request, "film.create", "film", "film-abcdefgh", "allow")
           && e.details == Audit.FilmCreated(title, time, "film-abcdefgh")
           && Lists(e, TimeIf(true), TimeIf(false), TimeIf(false))
         else
           && Tells(e, p, request, "film.create", "film", "", "deny")
           && Lists(e, TimeIf(false), TimeIf(false), TimeIf(false))
  {
  }
}
