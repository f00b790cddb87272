/** The film service under concurrency: the calls of any number of callers interleave, each
    touching the repository in one locked access, and all of them answer as if each had run at
    the instant of its access. */
module Linearizability {
  import opened PolicyTypes
  import opened Wrappers
  import opened ByteStrings
  import opened Decimal
  import opened Enforcer
  import opened Films
  import opened FilmService
  import FilmLedger
  import LocalKms

  type Op = FilmLedger.Op

  type Answer = FilmLedger.Answer

  /** Where a call stands, named by what it does next. */
  datatype Stage =
    | Authorise
    | Access
    | ReadBack(film: FilmRecord)
    | ReadRows(rows: seq<FilmRecord>, done: seq<FilmOutput>)
    | Done(answer: Answer)

  /** A call of the service and the mode it runs under. */
  datatype Flight = Flight(call: FilmLedger.Call, stage: Stage)

  /** The repository, the calls, and, as history, the calls in the order of their instants. */
  datatype State = State(films: seq<FilmRecord>, flights: map<nat, Flight>, order: seq<nat>)

  datatype Step = Begin(id: nat, call: FilmLedger.Call) | Advance(id: nat)

  /** The answer to a write, from the row it wrote. */
  function Reply(read: Reader, film: FilmRecord): Answer {
    match read(film.timeElapsedCT)
    case Err(e) => FilmLedger.One(Err(e))
    case Ok(r) => FilmLedger.One(Ok(FilmOutput(film.id, film.title, r.value)))
  }

  /** The answer to a list, from the rows it was given. */
  function ListReply(read: Reader, rows: seq<FilmRecord>): Answer {
    match Gather(read, rows)
    case Err(e) => FilmLedger.Many(Err(e))
    case Ok(g) => FilmLedger.Many(Ok(g.outputs))
  }

  function ReaderOf(policy: Policy, c: FilmLedger.Call): Reader {
    ReaderFor(policy, c.dcs, c.op.p.role)
  }

  function Allowed(policy: Policy, c: FilmLedger.Call): bool {
    match c.op
    case Create(p, _, _, _) => policy.Decided(c.dcs, p.role, "film.create", "film").allow
    case Update(p, _, _, _) => policy.Decided(c.dcs, p.role, "film.update_time", "film").allow
    case List(_, _) => true
  }

  function Moved(s: State, id: nat, stage: Stage): State
    requires id in s.flights
  {
    s.(flights := s.flights[id := s.flights[id].(stage := stage)])
  }

  /** The locked access of an allowed call: the rows after it, and what the call has from it. */
  function Accessed(films: seq<FilmRecord>, op: Op): (seq<FilmRecord>, Stage) {
    match op
    case Create(p, _, title, time) =>
      var film := FilmRecord(p.tenantID, GENERATED_ID, title, LocalKms.Encrypt(Itoa(time)));
      (films + [film], ReadBack(film))
    case Update(p, _, id, time) =>
      var i := FirstMatch(films, p.tenantID, id);
      if i == |films| then (films, Done(FilmLedger.One(Err(NotFound))))
      else
        var film := films[i].(timeElapsedCT := LocalKms.Encrypt(Itoa(time)));
        (films[i := film], ReadBack(film))
    case List(p, _) => (films, ReadRows(OfTenant(films, p.tenantID), []))
  }

  /** The next read of a list: one row, or none left. */
  function RowRead(read: Reader, rows: seq<FilmRecord>, done: seq<FilmOutput>): Stage {
    if |done| >= |rows| then Done(FilmLedger.Many(Ok(done)))
    else
      var f := rows[|done|];
      match read(f.timeElapsedCT)
      case Err(e) => Done(FilmLedger.Many(Err(e)))
      case Ok(r) => ReadRows(rows, done + [FilmOutput(f.id, f.title, r.value)])
  }

  function Advanced(policy: Policy, s: State, id: nat): State
    requires id in s.flights
  {
    var c := s.flights[id].call;
    match s.flights[id].stage
    case Authorise =>
      if Allowed(policy, c) then Moved(s, id, Access)
      else Moved(s.(order := s.order + [id]), id, Done(FilmLedger.One(Err(Forbidden))))
    case Access =>
      var (films, stage) := Accessed(s.films, c.op);
      Moved(s.(films := films, order := s.order + [id]), id, stage)
    case ReadBack(film) => Moved(s, id, Done(Reply(ReaderOf(policy, c), film)))
    case ReadRows(rows, done) => Moved(s, id, RowRead(ReaderOf(policy, c), rows, done))
    case Done(_) => s
  }

  /** A list asks for no permission beyond that of its reads. */
  function First(c: FilmLedger.Call): Stage {
    if c.op.List? then Access else Authorise
  }

  function Next(policy: Policy, s: State, step: Step): State {
    match step
    case Begin(id, c) => if id in s.flights then s else s.(flights := s.flights[id := Flight(c, First(c))])
    case Advance(id) => if id in s.flights then Advanced(policy, s, id) else s
  }

  function Run(policy: Policy, s: State, steps: seq<Step>): State
    decreases |steps|
  {
    if steps == [] then s else Run(policy, Next(policy, s, steps[0]), steps[1..])
  }

  // ---------------------------------------------------------------------------------------
  // The sequential run behind a concurrent one
  // ---------------------------------------------------------------------------------------

  predicate Ordered(s: State) {
    && (forall i :: 0 <= i < |s.order| ==> s.order[i] in s.flights)
    && (forall i, j :: 0 <= i < j < |s.order| ==> s.order[i] != s.order[j])
  }

  /** The calls in the order of their instants. */
  function History(s: State): seq<FilmLedger.Call>
    requires Ordered(s)
  {
    seq(|s.order|, i requires 0 <= i < |s.order| => s.flights[s.order[i]].call)
  }

  /** A call past its instant is on its way to this answer. */
  predicate Settled(policy: Policy, f: Flight, answer: Answer) {
    var read := ReaderOf(policy, f.call);
    match f.stage
    case ReadBack(film) => answer == Reply(read, film)
    case ReadRows(rows, done) =>
      && |done| <= |rows| && answer == ListReply(read, rows)
      && Gather(read, rows[..|done|]).Ok? && Gather(read, rows[..|done|]).value.outputs == done
    case Done(a) => answer == a
    case _ => false
  }

  /** A call before its instant has its permission, if it has asked for one. */
  predicate Unsettled(policy: Policy, f: Flight) {
    (f.stage.Authorise? && !f.call.op.List?) || (f.stage.Access? && Allowed(policy, f.call))
  }

  /** The state is where a sequential run with these rows and answers would have it. */
  ghost predicate Follows(policy: Policy, s: State, films: seq<FilmRecord>, answers: seq<Answer>) {
    && s.films == films && |answers| == |s.order|
    && (forall i :: 0 <= i < |s.order| ==>
          s.order[i] in s.flights && Settled(policy, s.flights[s.order[i]], answers[i]))
    && (forall id :: id in s.flights && id !in s.order ==> Unsettled(policy, s.flights[id]))
  }

  ghost predicate Inv(policy: Policy, start: World, s: State) {
    && Ordered(s)
    && var (w, answers) := FilmLedger.Run(policy, start, History(s));
       Follows(policy, s, w.films, answers)
  }

  function Fold<W, C, A>(step: (W, C) -> (W, A), w: W, calls: seq<C>): (W, seq<A>)
    decreases |calls|
  {
    if calls == [] then (w, [])
    else
      var (w', a) := step(w, calls[0]);
      var (w'', rest) := Fold(step, w', calls[1..]);
      (w'', [a] + rest)
  }

  lemma {:induction false} FoldSnoc<W, C, A>(step: (W, C) -> (W, A), w: W, calls: seq<C>, c: C)
    ensures
      var (w', answers) := Fold(step, w, calls);
      Fold(step, w, calls + [c]) == (step(w', c).0, answers + [step(w', c).1])
    decreases |calls|
  {
    if calls == [] {
      assert calls + [c] == [c] && [c][1..] == [];
      var a := step(w, c).1;
      assert [a] + [] == [] + [a];
    } else {
      assert (calls + [c])[0] == calls[0] && (calls + [c])[1..] == calls[1..] + [c];
      var (w', first) := step(w, calls[0]);
      var (w'', rest) := Fold(step, w', calls[1..]);
      FoldSnoc(step, w', calls[1..], c);
      assert [first] + (rest + [step(w'', c).1]) == ([first] + rest) + [step(w'', c).1];
    }
  }

  function StepOf(policy: Policy): (World, FilmLedger.Call) -> (World, Answer) {
    (w, c) => FilmLedger.Step(policy, w, c)
  }

  lemma {:induction false} RunIsFold(policy: Policy, w: World, calls: seq<FilmLedger.Call>)
    ensures FilmLedger.Run(policy, w, calls) == Fold(StepOf(policy), w, calls)
    decreases |calls|
  {
    if calls != [] {
      RunIsFold(policy, StepOf(policy)(w, calls[0]).0, calls[1..]);
    }
  }

  lemma RunSnoc(policy: Policy, w: World, calls: seq<FilmLedger.Call>, c: FilmLedger.Call)
    ensures
      var (w', answers) := FilmLedger.Run(policy, w, calls);
      FilmLedger.Run(policy, w, calls + [c]) ==
        (StepOf(policy)(w', c).0, answers + [StepOf(policy)(w', c).1])
  {
    RunIsFold(policy, w, calls);
    RunIsFold(policy, w, calls + [c]);
    FoldSnoc(StepOf(policy), w, calls, c);
  }

  // ---------------------------------------------------------------------------------------
  // Every step keeps it
  // ---------------------------------------------------------------------------------------

  /** The atomic service does what the access does, and its answer is the one that follows. */
  lemma CreateSettles(read: Reader, ciphertext: Bytes, w: World, p: Principal, request: RequestContext,
                      title: string, time: int64)
    ensures
      var film := FilmRecord(p.tenantID, GENERATED_ID, title, ciphertext);
      var (w', r) := CreateWith(true, read, ciphertext, w, p, request, title, time);
      w'.films == w.films + [film] && FilmLedger.One(r) == Reply(read, film)
  {
  }

  lemma UpdateSettles(d: Decision, read: Reader, ciphertext: Bytes, w: World, p: Principal, request: RequestContext,
                      id: string)
    requires d.allow
    ensures
      var i := FirstMatch(w.films, p.tenantID, id);
      var (w', r) := UpdateWith(d, read, ciphertext, w, p, request, id);
      if i == |w.films| then w'.films == w.films && r == Err(NotFound)
      else
        var film := w.films[i].(timeElapsedCT := ciphertext);
        w'.films == w.films[i := film] && FilmLedger.One(r) == Reply(read, film)
  {
  }

  lemma ListSettles(read: Reader, w: World, p: Principal, request: RequestContext)
    ensures
      var (w', r) := ListWith(read, w, p, request);
      w'.films == w.films && FilmLedger.Many(r) == ListReply(read, OfTenant(w.films, p.tenantID))
  {
  }

  lemma AccessSettles(policy: Policy, w: World, c: FilmLedger.Call)
    requires Allowed(policy, c)
    ensures
      var (films, stage) := Accessed(w.films, c.op);
      var (w', a) := FilmLedger.Step(policy, w, c);
      w'.films == films && Settled(policy, Flight(c, stage), a)
  {
    var read := ReaderOf(policy, c);
    match c.op {
      case Create(p, request, title, time) =>
        CreateSettles(read, LocalKms.Encrypt(Itoa(time)), w, p, request, title, time);
      case Update(p, request, id, time) =>
        var d := policy.Decided(c.dcs, p.role, "film.update_time", "film");
        UpdateSettles(d, read, LocalKms.Encrypt(Itoa(time)), w, p, request, id);
      case List(p, request) =>
        ListSettles(read, w, p, request);
        assert Gather(read, OfTenant(w.films, p.tenantID)[..0]) == Ok(Gathered([], {}, {}, {}));
    }
  }

  lemma RefusalSettles(policy: Policy, w: World, c: FilmLedger.Call)
    requires !Allowed(policy, c)
    ensures
      var (w', a) := FilmLedger.Step(policy, w, c);
      w'.films == w.films && a == FilmLedger.One(Err(Forbidden))
  {
  }

  /** One more row of a list: the answer it is on its way to stays the same. */
  lemma RowKeepsSettled(read: Reader, rows: seq<FilmRecord>, done: seq<FilmOutput>)
    requires |done| <= |rows| && Gather(read, rows[..|done|]).Ok?
    requires Gather(read, rows[..|done|]).value.outputs == done
    ensures
      match RowRead(read, rows, done)
      case Done(a) => a == ListReply(read, rows)
      case ReadRows(rows', done') =>
        rows' == rows && |done'| == |done| + 1 <= |rows| && Gather(read, rows[..|done'|]).Ok?
        && Gather(read, rows[..|done'|]).value.outputs == done'
      case _ => false
  {
    if |done| == |rows| {
      assert rows[..|done|] == rows;
    } else {
      var n := |done| + 1;
      assert rows[..n][..n - 1] == rows[..|done|] && rows[..n][n - 1] == rows[|done|];
      if read(rows[|done|].timeElapsedCT).Err? { GatherPrefix(read, rows, n); }
    }
  }

  /** A step past the instant changes the call's stage alone, and not its answer. */
  lemma SettledMoves(policy: Policy, s: State, id: nat, answer: Answer)
    requires id in s.flights && Settled(policy, s.flights[id], answer)
    ensures
      var s' := Advanced(policy, s, id);
      && id in s'.flights && s' == Moved(s, id, s'.flights[id].stage)
      && Settled(policy, s'.flights[id], answer)
  {
    var f := s.flights[id];
    if f.stage.ReadRows? { RowKeepsSettled(ReaderOf(policy, f.call), f.stage.rows, f.stage.done); }
    if f.stage.Done? { assert s.flights[id := f.(stage := f.stage)] == s.flights; }
  }

  lemma MovedFollows(policy: Policy, s: State, id: nat, stage: Stage, answers: seq<Answer>, i: nat)
    requires Ordered(s) && Follows(policy, s, s.films, answers) && i < |s.order| && s.order[i] == id
    requires Settled(policy, s.flights[id].(stage := stage), answers[i])
    ensures
      var s' := Moved(s, id, stage);
      Ordered(s') && History(s') == History(s) && Follows(policy, s', s.films, answers)
  {
    var s' := Moved(s, id, stage);
    forall k | 0 <= k < |s'.order|
      ensures s'.order[k] in s'.flights && Settled(policy, s'.flights[s'.order[k]], answers[k])
    {
      assert k != i ==> s.order[k] != id;
    }
    forall other | other in s'.flights && other !in s'.order
      ensures Unsettled(policy, s'.flights[other])
    {
      assert s.order[i] == id && other != id;
    }
  }

  lemma SettledStays(policy: Policy, start: World, s: State, id: nat)
    requires Inv(policy, start, s) && id in s.order
    ensures Inv(policy, start, Advanced(policy, s, id))
  {
    var answers := FilmLedger.Run(policy, start, History(s)).1;
    var i :| 0 <= i < |s.order| && s.order[i] == id;
    SettledMoves(policy, s, id, answers[i]);
    MovedFollows(policy, s, id, Advanced(policy, s, id).flights[id].stage, answers, i);
  }

  /** The step that is a call's instant. */
  lemma InstantFollows(policy: Policy, s: State, id: nat, films: seq<FilmRecord>, stage: Stage,
                       answers: seq<Answer>, a: Answer)
    requires Ordered(s) && Follows(policy, s, s.films, answers) && id in s.flights && id !in s.order
    requires Settled(policy, Flight(s.flights[id].call, stage), a)
    ensures
      var s' := Moved(s.(films := films, order := s.order + [id]), id, stage);
      && Ordered(s') && History(s') == History(s) + [s.flights[id].call]
      && Follows(policy, s', films, answers + [a])
  {
    var s' := Moved(s.(films := films, order := s.order + [id]), id, stage);
    forall i | 0 <= i < |s'.order|
      ensures s'.order[i] in s'.flights && Settled(policy, s'.flights[s'.order[i]], (answers + [a])[i])
    {
      if i < |s.order| { assert s'.flights[s'.order[i]] == s.flights[s.order[i]]; }
    }
    forall other | other in s'.flights && other !in s'.order
      ensures Unsettled(policy, s'.flights[other])
    {
      assert s'.order[|s.order|] == id;
      assert forall k :: k in s.order ==> k in s'.order;
    }
  }

  lemma InstantKeepsInv(policy: Policy, start: World, s: State, id: nat, films: seq<FilmRecord>, stage: Stage)
    requires Inv(policy, start, s) && id in s.flights && id !in s.order
    requires
      var w := FilmLedger.Run(policy, start, History(s)).0;
      var (w', a) := StepOf(policy)(w, s.flights[id].call);
      w'.films == films && Settled(policy, Flight(s.flights[id].call, stage), a)
    ensures Inv(policy, start, Moved(s.(films := films, order := s.order + [id]), id, stage))
  {
    var c := s.flights[id].call;
    var (w, answers) := FilmLedger.Run(policy, start, History(s));
    RunSnoc(policy, start, History(s), c);
    InstantFollows(policy, s, id, films, stage, answers, StepOf(policy)(w, c).1);
  }

  lemma AdvanceKeepsInv(policy: Policy, start: World, s: State, id: nat)
    requires Inv(policy, start, s) && id in s.flights
    ensures Inv(policy, start, Advanced(policy, s, id))
  {
    if id in s.order {
      SettledStays(policy, start, s, id);
    } else {
      var f := s.flights[id];
      assert Unsettled(policy, f);
      var w := FilmLedger.Run(policy, start, History(s)).0;
      if f.stage.Access? {
        var (films, stage) := Accessed(s.films, f.call.op);
        AccessSettles(policy, w, f.call);
        InstantKeepsInv(policy, start, s, id, films, stage);
      } else if Allowed(policy, f.call) {
        GrantKeepsInv(policy, start, s, id);
      } else {
        RefusalSettles(policy, w, f.call);
        InstantKeepsInv(policy, start, s, id, s.films, Done(FilmLedger.One(Err(Forbidden))));
      }
    }
  }

  lemma GrantKeepsInv(policy: Policy, start: World, s: State, id: nat)
    requires Inv(policy, start, s) && id in s.flights && id !in s.order && Allowed(policy, s.flights[id].call)
    ensures Inv(policy, start, Moved(s, id, Access))
  {
    assert History(Moved(s, id, Access)) == History(s);
  }

  lemma BeginKeepsInv(policy: Policy, start: World, s: State, id: nat, c: FilmLedger.Call)
    requires Inv(policy, start, s) && id !in s.flights
    ensures Inv(policy, start, Next(policy, s, Begin(id, c)))
  {
    assert History(Next(policy, s, Begin(id, c))) == History(s);
  }

  lemma {:induction false} RunKeepsInv(policy: Policy, start: World, s: State, steps: seq<Step>)
    requires Inv(policy, start, s)
    ensures Inv(policy, start, Run(policy, s, steps))
    decreases |steps|
  {
    if steps != [] {
      match steps[0] {
        case Begin(id, c) => if id !in s.flights { BeginKeepsInv(policy, start, s, id, c); }
        case Advance(id) => if id in s.flights { AdvanceKeepsInv(policy, start, s, id); }
      }
      RunKeepsInv(policy, start, Next(policy, s, steps[0]), steps[1..]);
    }
  }

  // ---------------------------------------------------------------------------------------
  // Main results
  // ---------------------------------------------------------------------------------------

  function Initial(films: seq<FilmRecord>): State {
    State(films, map[], [])
  }

  /** Interleaved calls are linearizable, for any policy, modes and callers: the rows are those
      of the atomic service run over the calls in the order of their instants, and every call
      that has answered is in that order, once, with the answer it has there. */
  lemma FilmCallsAreLinearizable(policy: Policy, start: World, steps: seq<Step>)
    ensures
      var s := Run(policy, Initial(start.films), steps);
      && Ordered(s)
      && (forall id :: id in s.flights && s.flights[id].stage.Done? ==> id in s.order)
      && (var (w, answers) := FilmLedger.Run(policy, start, History(s));
          && s.films == w.films && |answers| == |s.order|
          && forall i :: 0 <= i < |s.order| && s.flights[s.order[i]].stage.Done? ==>
               s.flights[s.order[i]].stage.answer == answers[i])
  {
    assert History(Initial(start.films)) == [];
    RunKeepsInv(policy, start, Initial(start.films), steps);
  }

  lemma {:induction false} OrderGrows(policy: Policy, s: State, steps: seq<Step>)
    ensures s.order <= Run(policy, s, steps).order
    decreases |steps|
  {
    if steps != [] { OrderGrows(policy, Next(policy, s, steps[0]), steps[1..]); }
  }

  /** The order respects real time: a call that has answered comes before every call that
      begins later. */
  lemma OrderIsRealTime(policy: Policy, start: World, before: seq<Step>, after: seq<Step>, a: nat, b: nat)
    requires
      var mid := Run(policy, Initial(start.films), before);
      a in mid.flights && mid.flights[a].stage.Done? && b !in mid.flights
    ensures
      var order := Run(policy, Run(policy, Initial(start.films), before), after).order;
      exists i :: 0 <= i < |order| && order[i] == a && forall j :: 0 <= j < |order| && order[j] == b ==> i < j
  {
    var mid := Run(policy, Initial(start.films), before);
    FilmCallsAreLinearizable(policy, start, before);
    OrderGrows(policy, mid, after);
    var order := Run(policy, mid, after).order;
    var i :| 0 <= i < |mid.order| && mid.order[i] == a;
    assert order[i] == a;
    assert forall j :: 0 <= j < |mid.order| ==> order[j] == mid.order[j] && mid.order[j] in mid.flights;
  }

  /** Under the shipped defaults with DCS on, interleaved calls answer as the plaintext ledger
      would in the order of their instants, and the rows decrypt to the ledger. */
  lemma FilmCallsLinearizeToLedger(policy: Policy, start: World, steps: seq<Step>)
    requires Defaults(policy) && FilmLedger.WellStored(start.films)
    requires forall i :: 0 <= i < |steps| && steps[i].Begin? ==> steps[i].call.dcs
    ensures
      var s := Run(policy, Initial(start.films), steps);
      && Ordered(s)
      && (var (ledger, answers) := FilmLedger.LedgerRun(FilmLedger.Ledger(start.films), History(s));
          && FilmLedger.Ledger(s.films) == ledger && |answers| == |s.order|
          && forall i :: 0 <= i < |s.order| && s.flights[s.order[i]].stage.Done? ==>
               s.flights[s.order[i]].stage.answer == answers[i])
  {
    FilmCallsAreLinearizable(policy, start, steps);
    var s := Run(policy, Initial(start.films), steps);
    AllOn(policy, Initial(start.films), steps);
    assert forall k :: 0 <= k < |History(s)| ==> History(s)[k].dcs;
    FilmLedger.FilmServiceRefinesLedger(policy, start, History(s));
  }

  predicate On(s: State) {
    forall id :: id in s.flights ==> s.flights[id].call.dcs
  }

  lemma {:induction false} AllOn(policy: Policy, s: State, steps: seq<Step>)
    requires On(s) && forall i :: 0 <= i < |steps| && steps[i].Begin? ==> steps[i].call.dcs
    ensures On(Run(policy, s, steps))
    decreases |steps|
  {
    if steps != [] {
      StepOn(policy, s, steps[0]);
      AllOn(policy, Next(policy, s, steps[0]), steps[1..]);
    }
  }

  lemma StepOn(policy: Policy, s: State, step: Step)
    requires On(s) && (step.Begin? ==> step.call.dcs)
    ensures On(Next(policy, s, step))
  {
  }
}
