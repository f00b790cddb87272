/** What whole runs of the film service amount to: a plaintext ledger seen through roles, an
    audit log that replays the repository, and reads that never fail. */
module FilmLedger {
  import opened PolicyTypes
  import opened Wrappers
  import opened ByteStrings
  import opened Decimal
  import opened Pep
  import opened Enforcer
  import opened Films
  import opened FilmService
  import Audit
  import Engine
  import LocalKms

  datatype Op =
    | Create(p: Principal, request: RequestContext, title: string, time: int64)
    | Update(p: Principal, request: RequestContext, filmID: string, time: int64)
    | List(p: Principal, request: RequestContext)

  /** A call, and the mode it runs under. */
  datatype Call = Call(dcs: bool, op: Op)

  datatype Answer = One(film: Result<FilmOutput, Error>) | Many(films: Result<seq<FilmOutput>, Error>)

  function Step(policy: Policy, w: World, c: Call): (World, Answer) {
    match c.op
    case Create(p, request, title, time) =>
      var (w', r) := CreateStep(policy, c.dcs, w, p, request, title, time); (w', One(r))
    case Update(p, request, id, time) => var (w', r) := UpdateStep(policy, c.dcs, w, p, request, id, time); (w', One(r))
    case List(p, request) => var (w', r) := ListStep(policy, c.dcs, w, p, request); (w', Many(r))
  }

  function Run(policy: Policy, w: World, calls: seq<Call>): (World, seq<Answer>)
    decreases |calls|
  {
    if calls == [] then (w, [])
    else
      var (w', a) := Step(policy, w, calls[0]);
      var (w'', rest) := Run(policy, w', calls[1..]);
      (w'', [a] + rest)
  }

  // ---------------------------------------------------------------------------------------
  // Reads never fail
  // ---------------------------------------------------------------------------------------

  predicate Decryptable(films: seq<FilmRecord>) {
    forall i :: 0 <= i < |films| ==> LocalKms.Decrypt(films[i].timeElapsedCT).Ok?
  }

  predicate NotUnreadable(a: Answer) {
    a != One(Err(Unreadable)) && a != Many(Err(Unreadable))
  }

  lemma ReadSucceeds(policy: Policy, dcs: bool, role: string, ciphertext: Bytes)
    requires LocalKms.Decrypt(ciphertext).Ok?
    ensures ReaderFor(policy, dcs, role)(ciphertext).Ok?
  {
  }

  lemma {:induction false} OfTenantSelects(films: seq<FilmRecord>, tenantID: string)
    ensures forall f :: f in OfTenant(films, tenantID) ==> f in films && f.tenantID == tenantID
  {
    if films != [] { OfTenantSelects(films[..|films| - 1], tenantID); }
  }

  lemma {:induction false} GatherSucceeds(read: Reader, films: seq<FilmRecord>)
    requires forall f :: f in films ==> read(f.timeElapsedCT).Ok?
    ensures Gather(read, films).Ok? && |Gather(read, films).value.outputs| == |films|
    ensures forall i :: 0 <= i < |films| ==>
      Gather(read, films).value.outputs[i] ==
        FilmOutput(films[i].id, films[i].title, read(films[i].timeElapsedCT).value.value)
  {
    if films != [] {
      GatherSucceeds(read, films[..|films| - 1]);
    }
  }

  lemma ListReads(policy: Policy, dcs: bool, w: World, p: Principal, request: RequestContext)
    requires Decryptable(w.films)
    ensures ListStep(policy, dcs, w, p, request).0.films == w.films && ListStep(policy, dcs, w, p, request).1.Ok?
  {
    OfTenantSelects(w.films, p.tenantID);
    forall f | f in OfTenant(w.films, p.tenantID)
      ensures ReaderFor(policy, dcs, p.role)(f.timeElapsedCT).Ok?
    {
      ReadSucceeds(policy, dcs, p.role, f.timeElapsedCT);
    }
    GatherSucceeds(ReaderFor(policy, dcs, p.role), OfTenant(w.films, p.tenantID));
  }

  lemma WriteReads(policy: Policy, dcs: bool, role: string, time: int64)
    ensures
      var ciphertext := LocalKms.Encrypt(Itoa(time));
      LocalKms.Decrypt(ciphertext).Ok? && ReaderFor(policy, dcs, role)(ciphertext).Ok?
  {
    LocalKms.IntRoundTrip(time);
    ReadSucceeds(policy, dcs, role, LocalKms.Encrypt(Itoa(time)));
  }

  lemma CreateReads(allow: bool, read: Reader, ciphertext: Bytes,
                    w: World, p: Principal, request: RequestContext, title: string, time: int64)
    requires Decryptable(w.films) && LocalKms.Decrypt(ciphertext).Ok? && read(ciphertext).Ok?
    ensures
      var (w', r) := CreateWith(allow, read, ciphertext, w, p, request, title, time);
      Decryptable(w'.films) && r != Err(Unreadable)
  {
    CreateAppends(allow, read, ciphertext, w, p, request, title, time);
    DecryptableWith(w.films, FilmRecord(p.tenantID, GENERATED_ID, title, ciphertext));
  }

  lemma CreateAppends(allow: bool, read: Reader, ciphertext: Bytes,
                      w: World, p: Principal, request: RequestContext, title: string, time: int64)
    requires read(ciphertext).Ok?
    ensures
      var (w', r) := CreateWith(allow, read, ciphertext, w, p, request, title, time);
      && r != Err(Unreadable)
      && w'.films == w.films + if allow then [FilmRecord(p.tenantID, GENERATED_ID, title, ciphertext)] else []
  {
  }

  lemma DecryptableWith(films: seq<FilmRecord>, f: FilmRecord)
    requires Decryptable(films) && LocalKms.Decrypt(f.timeElapsedCT).Ok?
    ensures Decryptable(films + [f])
  {
  }

  lemma UpdateReads(d: Decision, read: Reader, ciphertext: Bytes, w: World, p: Principal, request: RequestContext,
                    filmID: string)
    requires Decryptable(w.films) && LocalKms.Decrypt(ciphertext).Ok? && read(ciphertext).Ok?
    ensures
      var (w', r) := UpdateWith(d, read, ciphertext, w, p, request, filmID);
      Decryptable(w'.films) && r != Err(Unreadable)
  {
    UpdateReplaces(d, read, ciphertext, w, p, request, filmID);
    var i := FirstMatch(w.films, p.tenantID, filmID);
    if i < |w.films| { StillDecryptable(w.films, i, ciphertext); }
  }

  lemma UpdateReplaces(d: Decision, read: Reader, ciphertext: Bytes, w: World, p: Principal, request: RequestContext,
                       filmID: string)
    requires read(ciphertext).Ok?
    ensures
      var (w', r) := UpdateWith(d, read, ciphertext, w, p, request, filmID);
      var i := FirstMatch(w.films, p.tenantID, filmID);
      && r != Err(Unreadable)
      && w'.films ==
         if d.allow && i < |w.films| then w.films[i := w.films[i].(timeElapsedCT := ciphertext)] else w.films
  {
  }

  lemma StillDecryptable(films: seq<FilmRecord>, i: nat, ciphertext: Bytes)
    requires Decryptable(films) && i < |films| && LocalKms.Decrypt(ciphertext).Ok?
    ensures Decryptable(films[i := films[i].(timeElapsedCT := ciphertext)])
  {
  }

  lemma StepReads(policy: Policy, w: World, c: Call)
    requires Decryptable(w.films)
    ensures Decryptable(Step(policy, w, c).0.films) && NotUnreadable(Step(policy, w, c).1)
  {
    match c.op {
      case Create(p, request, title, time) =>
        WriteReads(policy, c.dcs, p.role, time);
        CreateReads(policy.Decided(c.dcs, p.role, "film.create", "film").allow, ReaderFor(policy, c.dcs, p.role),
          LocalKms.Encrypt(Itoa(time)), w, p, request, title, time);
      case Update(p, request, id, time) =>
        WriteReads(policy, c.dcs, p.role, time);
        UpdateReads(policy.Decided(c.dcs, p.role, "film.update_time", "film"), ReaderFor(policy, c.dcs, p.role),
          LocalKms.Encrypt(Itoa(time)), w, p, request, id);
      case List(p, request) =>
        ListReads(policy, c.dcs, w, p, request);
    }
  }

  /** For any configuration, any modes and any callers: once the seed decrypts, no list, no
      read after a write, ever fails for want of a plaintext. */
  lemma {:induction false} ReadsNeverFail(policy: Policy, w: World, calls: seq<Call>)
    requires Decryptable(w.films)
    ensures Decryptable(Run(policy, w, calls).0.films)
    ensures |Run(policy, w, calls).1| == |calls|
    ensures forall k :: 0 <= k < |calls| ==> NotUnreadable(Run(policy, w, calls).1[k])
    decreases |calls|
  {
    if calls != [] {
      StepReads(policy, w, calls[0]);
      ReadsNeverFail(policy, Step(policy, w, calls[0]).0, calls[1..]);
    }
  }

  // ---------------------------------------------------------------------------------------
  // The audit log replays the repository
  // ---------------------------------------------------------------------------------------

  /** The part of a row that no update touches. */
  function Projection(films: seq<FilmRecord>): seq<(string, string, string)> {
    seq(|films|, i requires 0 <= i < |films| => (films[i].tenantID, films[i].id, films[i].title))
  }

  function Created(e: Audit.Entry): seq<(string, string, string)> {
    if e.action == "film.create" && e.outcome == "allow" && e.details.FilmCreated? then
      [(e.tenantID, e.details.filmID, e.details.title)]
    else []
  }

  function Replay(entries: seq<Audit.Entry>): seq<(string, string, string)> {
    if entries == [] then [] else Created(entries[0]) + Replay(entries[1..])
  }

  lemma {:induction false} ReplayAppend(a: seq<Audit.Entry>, b: seq<Audit.Entry>)
    ensures Replay(a + b) == Replay(a) + Replay(b)
  {
    if a == [] {
      assert a + b == b;
    } else {
      assert (a + b)[1..] == a[1..] + b;
      ReplayAppend(a[1..], b);
    }
  }

  /** One call adds at most one entry, and adds rows exactly as that entry says. */
  predicate Replays(w: World, w': World) {
    && w.audit <= w'.audit && |w'.audit| <= |w.audit| + 1
    && Projection(w'.films) == Projection(w.films) + Replay(w'.audit[|w.audit|..])
  }

  lemma OneEntryReplays(w: World, w': World, e: Audit.Entry)
    requires w'.audit == w.audit + [e] && Projection(w'.films) == Projection(w.films) + Created(e)
    ensures Replays(w, w')
  {
    assert w'.audit[|w.audit|..] == [e];
    assert Replay([e]) == Created(e) + Replay([]);
  }

  /** A refused creation adds one deny entry and no row; an allowed one a row and its entry. */
  lemma CreateReplays(allow: bool, read: Reader, ciphertext: Bytes,
                      w: World, p: Principal, request: RequestContext, title: string, time: int64)
    requires read(ciphertext).Ok?
    ensures
      var (w', r) := CreateWith(allow, read, ciphertext, w, p, request, title, time);
      && Replays(w, w') && |w'.audit| == |w.audit| + 1
      && (r == Err(Forbidden) ==> w'.films == w.films && w'.audit[|w.audit|].outcome == "deny")
  {
    var w' := CreateWith(allow, read, ciphertext, w, p, request, title, time).0;
    OneEntryReplays(w, w', w'.audit[|w.audit|]);
  }

  lemma UpdateReplays(d: Decision, read: Reader, ciphertext: Bytes, w: World, p: Principal, request: RequestContext,
                      filmID: string)
    requires read(ciphertext).Ok?
    ensures Replays(w, UpdateWith(d, read, ciphertext, w, p, request, filmID).0)
  {
    var w' := UpdateWith(d, read, ciphertext, w, p, request, filmID).0;
    assert Projection(w'.films) == Projection(w.films);
    if w'.audit != w.audit { OneEntryReplays(w, w', w'.audit[|w.audit|]); }
  }

  lemma ListReplays(read: Reader, w: World, p: Principal, request: RequestContext)
    ensures Replays(w, ListWith(read, w, p, request).0)
  {
    var w' := ListWith(read, w, p, request).0;
    if w'.audit != w.audit { OneEntryReplays(w, w', w'.audit[|w.audit|]); }
  }

  lemma StepReplays(policy: Policy, w: World, c: Call)
    ensures Replays(w, Step(policy, w, c).0)
  {
    match c.op {
      case Create(p, request, title, time) =>
        WriteReads(policy, c.dcs, p.role, time);
        CreateReplays(policy.Decided(c.dcs, p.role, "film.create", "film").allow, ReaderFor(policy, c.dcs, p.role),
          LocalKms.Encrypt(Itoa(time)), w, p, request, title, time);
      case Update(p, request, id, time) =>
        WriteReads(policy, c.dcs, p.role, time);
        UpdateReplays(policy.Decided(c.dcs, p.role, "film.update_time", "film"), ReaderFor(policy, c.dcs, p.role),
          LocalKms.Encrypt(Itoa(time)), w, p, request, id);
      case List(p, request) =>
        ListReplays(ReaderFor(policy, c.dcs, p.role), w, p, request);
    }
  }

  /** From one world to a later one: the log has grown, and what it gained accounts for the
      rows gained. */
  predicate Accounts(w: World, w': World) {
    w.audit <= w'.audit && Projection(w'.films) == Projection(w.films) + Replay(w'.audit[|w.audit|..])
  }

  lemma AccountsTransitive(w: World, mid: World, w': World)
    requires Accounts(w, mid) && Accounts(mid, w')
    ensures Accounts(w, w')
  {
    var first, second := mid.audit[|w.audit|..], w'.audit[|mid.audit|..];
    Suffixes(w.audit, mid.audit, w'.audit);
    ReplayAppend(first, second);
    Associate(Projection(w.films), Replay(first), Replay(second));
  }

  lemma Associate<T>(a: seq<T>, b: seq<T>, c: seq<T>)
    ensures (a + b) + c == a + (b + c)
  {
  }

  lemma Suffixes<T>(a: seq<T>, b: seq<T>, c: seq<T>)
    requires a <= b <= c
    ensures a <= c && c[|a|..] == b[|a|..] + c[|b|..]
  {
    assert c == b + c[|b|..];
  }

  /** In every run the rows, less their times, are the seed's followed by the creations the
      log allowed, in order: the log alone rebuilds them. */
  lemma {:induction false} AuditReplaysRepository(policy: Policy, w: World, calls: seq<Call>)
    ensures Accounts(w, Run(policy, w, calls).0)
    decreases |calls|
  {
    if calls == [] {
      assert w.audit[|w.audit|..] == [];
    } else {
      var mid := Step(policy, w, calls[0]).0;
      StepReplays(policy, w, calls[0]);
      AuditReplaysRepository(policy, mid, calls[1..]);
      AccountsTransitive(w, mid, Run(policy, mid, calls[1..]).0);
    }
  }

  // ---------------------------------------------------------------------------------------
  // The plaintext ledger
  // ---------------------------------------------------------------------------------------

  datatype Row = Row(tenantID: string, id: string, title: string, time: int64)

  /** What a role is shown of a time. Reading goes by the lower-case role. */
  function View(role: string, time: int64): Value {
    var r := ToLower(role);
    if r == "admin" || r == "agent" then Number(time)
    else if r == "developer" then Text(MaskTime(Itoa(time)))
    else Null
  }

  /** Writing goes by the role as written. */
  predicate Writer(role: string) {
    role == "agent" || role == "admin"
  }

  function RowsOf(ledger: seq<Row>, tenantID: string): seq<Row> {
    if ledger == [] then []
    else
      RowsOf(ledger[..|ledger| - 1], tenantID) +
      if ledger[|ledger| - 1].tenantID == tenantID then [ledger[|ledger| - 1]] else []
  }

  function FirstRow(ledger: seq<Row>, tenantID: string, id: string): (i: nat)
    ensures i <= |ledger|
  {
    if ledger == [] || (ledger[0].tenantID == tenantID && ledger[0].id == id) then 0
    else 1 + FirstRow(ledger[1..], tenantID, id)
  }

  function Shown(role: string, r: Row): FilmOutput {
    FilmOutput(r.id, r.title, View(role, r.time))
  }

  /** The service with the encryption, the policy pipeline and the caches taken away. */
  function LedgerStep(ledger: seq<Row>, op: Op): (seq<Row>, Answer) {
    match op
    case Create(p, _, title, time) =>
      if !Writer(p.role) then (ledger, One(Err(Forbidden)))
      else
        var row := Row(p.tenantID, GENERATED_ID, title, time);
        (ledger + [row], One(Ok(Shown(p.role, row))))
    case Update(p, _, id, time) =>
      var i := FirstRow(ledger, p.tenantID, id);
      if !Writer(p.role) then (ledger, One(Err(Forbidden)))
      else if i == |ledger| then (ledger, One(Err(NotFound)))
      else
        var row := ledger[i].(time := time);
        (ledger[i := row], One(Ok(Shown(p.role, row))))
    case List(p, _) =>
      var rows := RowsOf(ledger, p.tenantID);
      (ledger, Many(Ok(seq(|rows|, i requires 0 <= i < |rows| => Shown(p.role, rows[i])))))
  }

  function LedgerRun(ledger: seq<Row>, calls: seq<Call>): (seq<Row>, seq<Answer>)
    decreases |calls|
  {
    if calls == [] then (ledger, [])
    else
      var (ledger', a) := LedgerStep(ledger, calls[0].op);
      var (ledger'', rest) := LedgerRun(ledger', calls[1..]);
      (ledger'', [a] + rest)
  }

  /** A ciphertext that holds a printed machine integer. */
  predicate HoldsTime(ciphertext: Bytes) {
    && LocalKms.DecryptInt(ciphertext).Some?
    && LocalKms.Decrypt(ciphertext) == Ok(Itoa(LocalKms.DecryptInt(ciphertext).value))
  }

  predicate WellStored(films: seq<FilmRecord>) {
    forall f :: f in films ==> HoldsTime(f.timeElapsedCT)
  }

  function TimeIn(ciphertext: Bytes): int64 {
    var n := LocalKms.DecryptInt(ciphertext);
    if n.Some? then n.value else 0
  }

  function RowFor(time: Bytes -> int64, f: FilmRecord): Row {
    Row(f.tenantID, f.id, f.title, time(f.timeElapsedCT))
  }

  function LedgerBy(time: Bytes -> int64, films: seq<FilmRecord>): seq<Row> {
    seq(|films|, i requires 0 <= i < |films| => RowFor(time, films[i]))
  }

  /** The rows with their times in clear. */
  function Ledger(films: seq<FilmRecord>): seq<Row> {
    LedgerBy(TimeIn, films)
  }

  lemma FilmVerdicts(role: string)
    ensures Engine.Verdict(DEFAULT_CONFIG, "film.read", role).0
    ensures Engine.Verdict(DEFAULT_CONFIG, "film.create", role).0 == Writer(role)
    ensures Engine.Verdict(DEFAULT_CONFIG, "film.update_time", role).0 == Writer(role)
  {
    var reading, writing := DEFAULT_CONFIG.readActions, DEFAULT_CONFIG.writeActions;
    assert reading[0] == "film.read" && writing[0] == "film.create" && writing[3] == "film.update_time";
    assert "film.create" !in reading && "film.update_time" !in reading;
  }

  function TimeActionFor(role: string): FieldAction {
    var r := ToLower(role);
    if r == "admin" || r == "agent" then FieldAction.Decrypt
    else if r == "developer" then MaskAfterDecrypt
    else Deny
  }

  lemma TimeAction(role: string)
    ensures Engine.ActionForField(DEFAULT_CONFIG, role, "film", "time_elapsed", "SENSITIVE") == TimeActionFor(role)
  {
  }

  lemma ReadDecision(policy: Policy, role: string)
    requires Defaults(policy)
    ensures
      var d := policy.Decided(true, role, "film.read", "film");
      d.allow && "time_elapsed" in d.fieldActions && d.fieldActions["time_elapsed"] == TimeActionFor(role)
  {
    FilmVerdicts(role);
    TimeAction(role);
    var cls := STATIC_CLASSIFICATIONS["film"];
    assert "time_elapsed" in cls && cls["time_elapsed"] == "SENSITIVE";
  }

  lemma SeenIsView(dcs: bool, d: Decision, role: string, ciphertext: Bytes)
    requires HoldsTime(ciphertext) && dcs
    requires d.allow && "time_elapsed" in d.fieldActions && d.fieldActions["time_elapsed"] == TimeActionFor(role)
    ensures
      var seen := TimeSeen(LocalKms.Decrypt, dcs, d, ciphertext);
      !seen.Broken? && SeenValue(seen) == View(role, TimeIn(ciphertext))
  {
    AtoiItoa(TimeIn(ciphertext));
  }

  /** With DCS on and the shipped defaults a film read shows exactly the role's view. */
  lemma ReadIsView(policy: Policy, role: string, ciphertext: Bytes)
    requires Defaults(policy) && HoldsTime(ciphertext)
    ensures ReaderFor(policy, true, role)(ciphertext).Ok?
    ensures ReaderFor(policy, true, role)(ciphertext).value.value == View(role, TimeIn(ciphertext))
  {
    ReadDecision(policy, role);
    SeenIsView(true, policy.Decided(true, role, "film.read", "film"), role, ciphertext);
  }

  lemma WriteIsView(policy: Policy, role: string, time: int64)
    requires Defaults(policy)
    ensures
      var ciphertext := LocalKms.Encrypt(Itoa(time));
      && HoldsTime(ciphertext) && TimeIn(ciphertext) == time
      && ReaderFor(policy, true, role)(ciphertext).Ok?
      && ReaderFor(policy, true, role)(ciphertext).value.value == View(role, time)
  {
    LocalKms.IntRoundTrip(time);
    ReadIsView(policy, role, LocalKms.Encrypt(Itoa(time)));
  }

  lemma DecidedAllows(policy: Policy, role: string)
    requires Defaults(policy)
    ensures policy.Decided(true, role, "film.create", "film").allow == Writer(role)
    ensures policy.Decided(true, role, "film.update_time", "film").allow == Writer(role)
  {
    FilmVerdicts(role);
  }

  lemma FirstAgree(time: Bytes -> int64, films: seq<FilmRecord>, tenantID: string, id: string)
    ensures FirstRow(LedgerBy(time, films), tenantID, id) == FirstMatch(films, tenantID, id)
  {
    var i := FirstMatch(films, tenantID, id);
    assert forall j :: 0 <= j < i ==> !Matches(films[j], tenantID, id);
    FirstRowIs(LedgerBy(time, films), tenantID, id, i);
  }

  lemma {:induction false} FirstRowIs(ledger: seq<Row>, tenantID: string, id: string, i: nat)
    requires i <= |ledger| && (i < |ledger| ==> ledger[i].tenantID == tenantID && ledger[i].id == id)
    requires forall j :: 0 <= j < i ==> !(ledger[j].tenantID == tenantID && ledger[j].id == id)
    ensures FirstRow(ledger, tenantID, id) == i
  {
    if i > 0 {
      FirstRowIs(ledger[1..], tenantID, id, i - 1);
    }
  }

  lemma {:induction false} TenantAgree(time: Bytes -> int64, films: seq<FilmRecord>, tenantID: string)
    ensures RowsOf(LedgerBy(time, films), tenantID) == LedgerBy(time, OfTenant(films, tenantID))
  {
    if films != [] {
      var before := films[..|films| - 1];
      TenantAgree(time, before, tenantID);
      assert LedgerBy(time, films)[..|films| - 1] == LedgerBy(time, before);
    }
  }

  /** The ledger's answer to a list, whatever the way of reading shows. */
  lemma ListShows(read: Reader, time: Bytes -> int64, w: World, p: Principal, request: RequestContext)
    requires forall f :: f in w.films ==>
      read(f.timeElapsedCT).Ok? && read(f.timeElapsedCT).value.value == View(p.role, time(f.timeElapsedCT))
    ensures
      var (w', r) := ListWith(read, w, p, request);
      w'.films == w.films && (LedgerBy(time, w.films), Many(r)) == LedgerStep(LedgerBy(time, w.films), List(p, request))
  {
    var own := OfTenant(w.films, p.tenantID);
    OfTenantSelects(w.films, p.tenantID);
    TenantAgree(time, w.films, p.tenantID);
    GatherSucceeds(read, own);
    var outputs := Gather(read, own).value.outputs;
    var rows := RowsOf(LedgerBy(time, w.films), p.tenantID);
    forall i | 0 <= i < |own|
      ensures outputs[i] == Shown(p.role, rows[i])
    {
      assert own[i] in w.films;
    }
    assert outputs == seq(|rows|, i requires 0 <= i < |rows| => Shown(p.role, rows[i]));
  }

  lemma CreateShows(read: Reader, holds: int64 -> Bytes, time: Bytes -> int64,
                    w: World, p: Principal, request: RequestContext, title: string, n: int64)
    requires time(holds(n)) == n && read(holds(n)).Ok? && read(holds(n)).value.value == View(p.role, n)
    ensures
      var (w', r) := CreateWith(Writer(p.role), read, holds(n), w, p, request, title, n);
      (LedgerBy(time, w'.films), One(r)) == LedgerStep(LedgerBy(time, w.films), Create(p, request, title, n))
  {
    var row := FilmRecord(p.tenantID, GENERATED_ID, title, holds(n));
    assert LedgerBy(time, w.films + [row]) == LedgerBy(time, w.films) + [RowFor(time, row)];
  }

  lemma UpdateShows(d: Decision, read: Reader, holds: int64 -> Bytes, time: Bytes -> int64,
                    w: World, p: Principal, request: RequestContext, id: string, n: int64)
    requires time(holds(n)) == n && read(holds(n)).Ok? && read(holds(n)).value.value == View(p.role, n)
    requires d.allow == Writer(p.role)
    ensures
      var (w', r) := UpdateWith(d, read, holds(n), w, p, request, id);
      (LedgerBy(time, w'.films), One(r)) == LedgerStep(LedgerBy(time, w.films), Update(p, request, id, n))
  {
    FirstAgree(time, w.films, p.tenantID, id);
    var i := FirstMatch(w.films, p.tenantID, id);
    if i < |w.films| {
      var updated := w.films[i].(timeElapsedCT := holds(n));
      assert LedgerBy(time, w.films[i := updated]) == LedgerBy(time, w.films)[i := RowFor(time, updated)];
    }
  }

  function Stored(n: int64): Bytes {
    LocalKms.Encrypt(Itoa(n))
  }

  lemma CreateAdds(allow: bool, read: Reader, ciphertext: Bytes,
                   w: World, p: Principal, request: RequestContext, title: string, time: int64)
    ensures forall f :: f in CreateWith(allow, read, ciphertext, w, p, request, title, time).0.films ==>
      f in w.films || f.timeElapsedCT == ciphertext
  {
  }

  lemma UpdatePuts(d: Decision, read: Reader, ciphertext: Bytes, w: World, p: Principal, request: RequestContext,
                   filmID: string)
    ensures forall f :: f in UpdateWith(d, read, ciphertext, w, p, request, filmID).0.films ==>
      f in w.films || f.timeElapsedCT == ciphertext
  {
  }

  lemma StepWellStored(policy: Policy, w: World, op: Op)
    requires Defaults(policy) && WellStored(w.films)
    ensures WellStored(Step(policy, w, Call(true, op)).0.films)
  {
    var read := ReaderFor(policy, true, op.p.role);
    match op {
      case Create(p, request, title, time) =>
        LocalKms.IntRoundTrip(time);
        CreateAdds(policy.Decided(true, p.role, "film.create", "film").allow, read, Stored(time), w, p, request, title,
          time);
      case Update(p, request, id, time) =>
        LocalKms.IntRoundTrip(time);
        UpdatePuts(policy.Decided(true, p.role, "film.update_time", "film"), read, Stored(time), w, p, request, id);
      case List(p, request) =>
        assert ListWith(read, w, p, request).0.films == w.films;
    }
  }

  /** One call of the service is one step of the ledger. */
  lemma StepRefines(policy: Policy, w: World, op: Op)
    requires Defaults(policy) && WellStored(w.films)
    ensures
      var (w', a) := Step(policy, w, Call(true, op));
      (Ledger(w'.films), a) == LedgerStep(Ledger(w.films), op)
  {
    var read := ReaderFor(policy, true, op.p.role);
    match op {
      case Create(p, request, title, time) =>
        DecidedAllows(policy, p.role);
        WriteIsView(policy, p.role, time);
        CreateShows(read, Stored, TimeIn, w, p, request, title, time);
      case Update(p, request, id, time) =>
        DecidedAllows(policy, p.role);
        WriteIsView(policy, p.role, time);
        UpdateShows(policy.Decided(true, p.role, "film.update_time", "film"), read, Stored, TimeIn, w, p, request, id,
          time);
      case List(p, request) =>
        forall f | f in w.films
          ensures read(f.timeElapsedCT).Ok?
          ensures read(f.timeElapsedCT).value.value == View(p.role, TimeIn(f.timeElapsedCT))
        {
          ReadIsView(policy, p.role, f.timeElapsedCT);
        }
        ListShows(read, TimeIn, w, p, request);
    }
  }

  /** The film service refines the plaintext ledger: for every run of creations, updates and
      lists by any principals, with DCS on and the shipped defaults, the answers are the
      ledger's and so, decrypted, are the rows. */
  lemma {:induction false} FilmServiceRefinesLedger(policy: Policy, w: World, calls: seq<Call>)
    requires Defaults(policy) && WellStored(w.films) && forall k :: 0 <= k < |calls| ==> calls[k].dcs
    ensures
      var (w', answers) := Run(policy, w, calls);
      WellStored(w'.films) && (Ledger(w'.films), answers) == LedgerRun(Ledger(w.films), calls)
    decreases |calls|
  {
    if calls != [] {
      StepRefines(policy, w, calls[0].op);
      StepWellStored(policy, w, calls[0].op);
      assert calls[0] == Call(true, calls[0].op);
      FilmServiceRefinesLedger(policy, Step(policy, w, calls[0]).0, calls[1..]);
    }
  }

  /** Only an agent's or an admin's writes change the ledger: a run without any leaves it as
      it was. */
  lemma {:induction false} OnlyWritersWrite(ledger: seq<Row>, calls: seq<Call>)
    requires forall k :: 0 <= k < |calls| ==> calls[k].op.List? || !Writer(calls[k].op.p.role)
    ensures LedgerRun(ledger, calls).0 == ledger
    decreases |calls|
  {
    if calls != [] {
      OnlyWritersWrite(LedgerStep(ledger, calls[0].op).0, calls[1..]);
    }
  }

  // ---------------------------------------------------------------------------------------
  // Two runs
  // ---------------------------------------------------------------------------------------

  /** Ledgers that a developer cannot tell apart. */
  predicate MaskAlike(a: seq<Row>, b: seq<Row>) {
    && |a| == |b|
    && forall i :: 0 <= i < |a| ==>
         a[i] == b[i].(time := a[i].time) && MaskTime(Itoa(a[i].time)) == MaskTime(Itoa(b[i].time))
  }

  predicate SeesOnlyMasks(role: string) {
    ToLower(role) != "admin" && ToLower(role) != "agent"
  }

  lemma {:induction false} RowsOfAlike(a: seq<Row>, b: seq<Row>, tenantID: string)
    requires MaskAlike(a, b)
    ensures MaskAlike(RowsOf(a, tenantID), RowsOf(b, tenantID))
  {
    if a != [] { RowsOfAlike(a[..|a| - 1], b[..|b| - 1], tenantID); }
  }

  lemma {:induction false} FirstRowAlike(a: seq<Row>, b: seq<Row>, tenantID: string, id: string)
    requires MaskAlike(a, b)
    ensures FirstRow(a, tenantID, id) == FirstRow(b, tenantID, id)
  {
    if a != [] { FirstRowAlike(a[1..], b[1..], tenantID, id); }
  }

  lemma ShownAlike(role: string, a: Row, b: Row)
    requires SeesOnlyMasks(role) && a == b.(time := a.time) && MaskTime(Itoa(a.time)) == MaskTime(Itoa(b.time))
    ensures Shown(role, a) == Shown(role, b)
  {
  }

  lemma ListAlike(a: seq<Row>, b: seq<Row>, p: Principal, request: RequestContext)
    requires MaskAlike(a, b) && SeesOnlyMasks(p.role)
    ensures LedgerStep(a, List(p, request)).1 == LedgerStep(b, List(p, request)).1
  {
    RowsOfAlike(a, b, p.tenantID);
    var x, y := RowsOf(a, p.tenantID), RowsOf(b, p.tenantID);
    forall i | 0 <= i < |x|
      ensures Shown(p.role, x[i]) == Shown(p.role, y[i])
    {
      ShownAlike(p.role, x[i], y[i]);
    }
    assert seq(|x|, i requires 0 <= i < |x| => Shown(p.role, x[i])) ==
      seq(|y|, i requires 0 <= i < |y| => Shown(p.role, y[i]));
  }

  lemma StepAlike(a: seq<Row>, b: seq<Row>, op: Op)
    requires MaskAlike(a, b)
    ensures MaskAlike(LedgerStep(a, op).0, LedgerStep(b, op).0)
    ensures SeesOnlyMasks(op.p.role) ==> LedgerStep(a, op).1 == LedgerStep(b, op).1
  {
    match op {
      case Create(_, _, _, _) =>
      case Update(p, _, id, _) => FirstRowAlike(a, b, p.tenantID, id);
      case List(p, request) =>
        if SeesOnlyMasks(p.role) { ListAlike(a, b, p, request); }
    }
  }

  lemma {:induction false} RunAlike(a: seq<Row>, b: seq<Row>, calls: seq<Call>)
    requires MaskAlike(a, b)
    ensures |LedgerRun(a, calls).1| == |LedgerRun(b, calls).1| == |calls|
    ensures forall k :: 0 <= k < |calls| && SeesOnlyMasks(calls[k].op.p.role) ==>
      LedgerRun(a, calls).1[k] == LedgerRun(b, calls).1[k]
    decreases |calls|
  {
    if calls != [] {
      StepAlike(a, b, calls[0].op);
      RunAlike(LedgerStep(a, calls[0].op).0, LedgerStep(b, calls[0].op).0, calls[1..]);
    }
  }

  /** Two film stores that differ only in times with equal masks: however the same calls then
      go on, every answer to a developer, or to a role that may read no time, is the same. */
  lemma DevelopersSeeOnlyMasks(policy: Policy, w: World, v: World, calls: seq<Call>)
    requires Defaults(policy) && WellStored(w.films) && WellStored(v.films)
    requires MaskAlike(Ledger(w.films), Ledger(v.films))
    requires forall k :: 0 <= k < |calls| ==> calls[k].dcs
    ensures |Run(policy, w, calls).1| == |Run(policy, v, calls).1| == |calls|
    ensures forall k :: 0 <= k < |calls| && SeesOnlyMasks(calls[k].op.p.role) ==>
      Run(policy, w, calls).1[k] == Run(policy, v, calls).1[k]
  {
    FilmServiceRefinesLedger(policy, w, calls);
    FilmServiceRefinesLedger(policy, v, calls);
    RunAlike(Ledger(w.films), Ledger(v.films), calls);
  }
}
