/** The policy enforcement point: masks, and the appliers that turn a decision and an
    encrypted row into what a caller may see. */
module Pep {
  import opened PolicyTypes
  import opened Wrappers
  import opened ByteStrings
  import opened Decimal
  import opened LocalKms
  import Runtime

  /** An `interface{}` in a response. */
  datatype Value = Null | Number(n: int64) | Text(s: string)

  type Decryptor = Bytes -> Result<Bytes, KmsError>

  /** The mask of the film applier. */
  function MaskTime(v: Bytes): Bytes {
    if |v| <= 2 then "**" else v[..1] + "***"
  }

  function Stars(n: nat): Bytes {
    seq(n, i => '*')
  }

  /** The mask of the spectator applier: unlike the film one it keeps short lengths. */
  function MaskString(s: Bytes): Bytes {
    if |s| <= 2 then Stars(|s|) else s[..1] + "***"
  }

  function MaskAge(age: int64): Bytes {
    if age < 18 then "-18" else "+18"
  }

  /** The ellipsis, as its three UTF-8 bytes. */
  const ELLIPSIS: Bytes := "\U{E2}\U{80}\U{A6}"

  function MaskUUID(id: string): string {
    if |id| <= 8 then "****" else id[..4] + ELLIPSIS
  }

  /** A mask of a time shows one byte of it at most: two stars for at most two bytes, otherwise
      the first byte and three stars. */
  lemma MaskTimeIs(v: Bytes)
    ensures |MaskTime(v)| == if |v| <= 2 then 2 else 4
    ensures forall i :: 0 <= i < |MaskTime(v)| ==> MaskTime(v)[i] == if i == 0 && |v| > 2 then v[0] else '*'
  {
  }

  /** A mask of a text shows one byte of it at most, and its length if that is at most two. */
  lemma MaskStringIs(s: Bytes)
    ensures |MaskString(s)| == if |s| <= 2 then |s| else 4
    ensures forall i :: 0 <= i < |MaskString(s)| ==> MaskString(s)[i] == if i == 0 && |s| > 2 then s[0] else '*'
  {
  }

  /** Just what masks tell of times, and of texts: whether there are more than two bytes, and
      then the first; of a shorter text, its length. */
  lemma MasksTell(u: Bytes, v: Bytes)
    ensures MaskTime(u) == MaskTime(v) <==> (|u| > 2 <==> |v| > 2) && (|u| > 2 && |v| > 2 ==> u[0] == v[0])
    ensures MaskString(u) == MaskString(v) <==>
      (|u| > 2 <==> |v| > 2) && (if |u| > 2 && |v| > 2 then u[0] == v[0] else |u| == |v|)
  {
    if |u| > 2 && |v| > 2 {
      assert MaskTime(u)[0] == u[0] && MaskTime(v)[0] == v[0];
      assert MaskString(u)[0] == u[0] && MaskString(v)[0] == v[0];
    }
  }

  /** A mask of an age tells adults from minors, at eighteen, and nothing else. */
  lemma MaskAgeIs(age: int64)
    ensures |MaskAge(age)| == 3 && MaskAge(age)[1..] == "18"
    ensures MaskAge(age)[0] == if age >= 18 then '+' else '-'
  {
  }

  /** A mask of an id shows its first four bytes and an ellipsis, or four stars for an id of at
      most eight bytes. */
  lemma MaskUUIDIs(id: string)
    ensures if |id| <= 8 then MaskUUID(id) == seq(4, i => '*')
            else |MaskUUID(id)| == 7 && MaskUUID(id)[..4] == id[..4]
                 && MaskUUID(id)[4] as int == 0xE2 && MaskUUID(id)[5] as int == 0x80 && MaskUUID(id)[6] as int == 0xA6
  {
    if |id| > 8 {
      assert MaskUUID(id)[4] == ELLIPSIS[0] && MaskUUID(id)[5] == ELLIPSIS[1] && MaskUUID(id)[6] == ELLIPSIS[2];
    }
  }

  predicate HasSuffix(s: string, suffix: string) {
    |suffix| <= |s| && s[|s| - |suffix|..] == suffix
  }

  function ApplyMask(field: string, plaintext: Bytes): string {
    if field == "age" then
      match Atoi(plaintext)
      case None => "***"
      case Some(age) => MaskAge(age)
    else if HasSuffix(field, "_id") && field != "external_id" then MaskUUID(plaintext)
    else MaskString(plaintext)
  }

  /** Which mask a field gets: ages that of ages, or three stars if they are no number; ids that of
      ids, but for the ticket id; everything else that of texts. */
  lemma ApplyMaskIs(field: string, plaintext: Bytes)
    ensures field == "age" ==>
      ApplyMask(field, plaintext) == if Atoi(plaintext).Some? then MaskAge(Atoi(plaintext).value) else "***"
    ensures field == "external_id" ==> ApplyMask(field, plaintext) == MaskString(plaintext)
    ensures field != "age" && field != "external_id" ==>
      ApplyMask(field, plaintext) ==
        if |field| >= 3 && field[|field| - 3..] == "_id" then MaskUUID(plaintext) else MaskString(plaintext)
  {
  }

  function NumberOrText(plaintext: Bytes): Value {
    match Atoi(plaintext)
    case Some(n) => Number(n)
    case None => Text(plaintext)
  }

  /** How one field comes out: in clear, masked, withheld, untouched, or not at all because
      it cannot be decrypted. */
  datatype Seen = Shown(value: Value) | Masked(text: string) | Denied | Raw(text: string) | Broken

  function SeenValue(s: Seen): Value {
    match s
    case Shown(v) => v
    case Masked(t) => Text(t)
    case Raw(t) => Text(t)
    case Denied => Null
    case Broken => Null
  }

  datatype ApplyResult = ApplyResult(
    payload: map<string, Value>, decrypted: seq<string>, masked: seq<string>, denied: seq<string>)

  function Lookup(payload: map<string, Value>, field: string): Value {
    if field in payload then payload[field] else Null
  }

  // ---------------------------------------------------------------------------------------
  // Films
  // ---------------------------------------------------------------------------------------

  datatype FilmRow = FilmRow(title: string, timeElapsedCT: Bytes)

  /** How a film's elapsed time comes out. With DCS off, and for the actions the applier has
      no case for, the ciphertext itself is what is shown. */
  function TimeSeen(decrypt: Decryptor, dcs: bool, d: Decision, ciphertext: Bytes): Seen {
    if !d.allow then Denied
    else if !dcs || "time_elapsed" !in d.fieldActions then Raw(ciphertext)
    else
      match d.fieldActions["time_elapsed"]
      case Allow => Raw(ciphertext)
      case Deny => Denied
      case Decrypt =>
        (match decrypt(ciphertext) case Err(_) => Broken case Ok(p) => Shown(NumberOrText(p)))
      case MaskAfterDecrypt =>
        (match decrypt(ciphertext) case Err(_) => Broken case Ok(p) => Masked(MaskTime(p)))
  }

  /** A title is stored in clear and is masked or withheld where the action says so. With DCS
      on and no action on it, it is left out of the payload. */
  function TitleShown(dcs: bool, d: Decision, title: string): Value {
    if TitleKey(dcs, d) == {} then Null
    else if !dcs then Text(title)
    else
      match d.fieldActions["title"]
      case MaskAfterDecrypt => Text(if |title| <= 2 then "**" else title[..1] + "***")
      case Deny => Null
      case _ => Text(title)
  }

  function TitleKey(dcs: bool, d: Decision): set<string> {
    if d.allow && (!dcs || "title" in d.fieldActions) then {"title"} else {}
  }

  class FilmApplier {
    const runtime: Runtime.Settings
    const decrypt: Decryptor

    constructor (runtime: Runtime.Settings, decrypt: Decryptor)
      ensures this.runtime == runtime && this.decrypt == decrypt
    {
      this.runtime, this.decrypt := runtime, decrypt;
    }

    /** `Apply`: the title comes out as `TitleShown` says, the elapsed time as `TimeSeen` says,
        and each list names the time exactly when it came out that way; only a failed
        decryption is an error. */
    method Apply(d: Decision, row: FilmRow) returns (r: Result<ApplyResult, KmsError>)
      ensures
        var seen := TimeSeen(decrypt, runtime.DcsEnabled(), d, row.timeElapsedCT);
        && (r.Err? <==> seen.Broken?)
        && (r.Ok? ==>
            && r.value.payload.Keys == TitleKey(runtime.DcsEnabled(), d) + (if d.allow then {"time_elapsed"} else {})
            && Lookup(r.value.payload, "title") == TitleShown(runtime.DcsEnabled(), d, row.title)
            && Lookup(r.value.payload, "time_elapsed") == SeenValue(seen)
            && r.value.decrypted == (if seen.Shown? then ["time_elapsed"] else [])
            && r.value.masked == (if seen.Masked? then ["time_elapsed"] else [])
            && r.value.denied ==
               if !d.allow then ["title", "time_elapsed"] else if seen.Denied? then ["time_elapsed"] else [])
    {
      if !d.allow {
        return Ok(ApplyResult(map[], [], [], ["title", "time_elapsed"]));
      }
      var out: map<string, Value> := map[];
      if !runtime.DcsEnabled() {
        out := out["title" := Text(row.title)];
        out := out["time_elapsed" := Text(row.timeElapsedCT)];
        return Ok(ApplyResult(out, [], [], []));
      }
      if "title" in d.fieldActions {
        match d.fieldActions["title"] {
          case MaskAfterDecrypt =>
            out := out["title" := Text(if |row.title| <= 2 then "**" else row.title[..1] + "***")];
          case Deny => out := out["title" := Null];
          case _ => out := out["title" := Text(row.title)];
        }
      }
      if "time_elapsed" !in d.fieldActions {
        return Ok(ApplyResult(out["time_elapsed" := Text(row.timeElapsedCT)], [], [], []));
      }
      match d.fieldActions["time_elapsed"] {
        case Decrypt =>
          match decrypt(row.timeElapsedCT) {
            case Err(e) => return Err(e);
            case Ok(plain) =>
              out := out["time_elapsed" := NumberOrText(plain)];
              return Ok(ApplyResult(out, ["time_elapsed"], [], []));
          }
        case MaskAfterDecrypt =>
          match decrypt(row.timeElapsedCT) {
            case Err(e) => return Err(e);
            case Ok(plain) =>
              out := out["time_elapsed" := Text(MaskTime(plain))];
              return Ok(ApplyResult(out, [], ["time_elapsed"], []));
          }
        case Deny =>
          out := out["time_elapsed" := Null];
          return Ok(ApplyResult(out, [], [], ["time_elapsed"]));
        case Allow =>
          out := out["time_elapsed" := Text(row.timeElapsedCT)];
          return Ok(ApplyResult(out, [], [], []));
      }
    }
  }

  // ---------------------------------------------------------------------------------------
  // Spectators
  // ---------------------------------------------------------------------------------------

  const SPECTATOR_FIELDS := {"name", "age", "external_id"}

  datatype SpectatorRow = SpectatorRow(nameCT: Bytes, ageCT: Bytes, externalIDCT: Bytes) {
    function Ciphertexts(): map<string, Bytes> {
      map["name" := nameCT, "age" := ageCT, "external_id" := externalIDCT]
    }
  }

  /** How a spectator's field comes out. Only the two decrypting actions show anything; even
      "allow" is withheld. */
  function FieldSeen(decrypt: Decryptor, d: Decision, field: string, ciphertext: Bytes): Seen {
    if field !in d.fieldActions || d.fieldActions[field].Deny? || d.fieldActions[field].Allow? then Denied
    else
      match decrypt(ciphertext)
      case Err(_) => Broken
      case Ok(p) =>
        if d.fieldActions[field].MaskAfterDecrypt? then Masked(ApplyMask(field, p))
        else Shown(if field == "age" then NumberOrText(p) else Text(p))
  }

  /** The list a field goes to. */
  datatype Fate = InClear | AsMask | Withheld

  function FateOf(s: Seen): Fate {
    match s
    case Shown(_) => InClear
    case Raw(_) => InClear
    case Masked(_) => AsMask
    case Denied => Withheld
    case Broken => Withheld
  }

  function Fields(seen: map<string, Seen>, fate: Fate): set<string> {
    set field | field in seen && FateOf(seen[field]) == fate
  }

  /** The payload has every field as it is seen, and each list has its fields, once each. */
  predicate Partition(r: ApplyResult, seen: map<string, Seen>) {
    && r.payload == (map field | field in seen :: SeenValue(seen[field]))
    && multiset(r.decrypted) == multiset(Fields(seen, InClear))
    && multiset(r.masked) == multiset(Fields(seen, AsMask))
    && multiset(r.denied) == multiset(Fields(seen, Withheld))
  }

  function AllSeen(decrypt: Decryptor, d: Decision, ciphertexts: map<string, Bytes>): map<string, Seen> {
    map field | field in ciphertexts :: FieldSeen(decrypt, d, field, ciphertexts[field])
  }

  /** A field's place in the three lists is settled by its action alone. */
  predicate ListedByAction(r: ApplyResult, d: Decision) {
    forall field :: field in SPECTATOR_FIELDS ==> FieldListed(r, d, field)
  }

  predicate FieldListed(r: ApplyResult, d: Decision, field: string) {
    var action := if field in d.fieldActions then Some(d.fieldActions[field]) else None;
    && (field in r.decrypted <==> action == Some(FieldAction.Decrypt))
    && (field in r.masked <==> action == Some(MaskAfterDecrypt))
    && (field in r.denied <==> action.None? || action == Some(Allow) || action == Some(Deny))
  }

  /** The action calls for a plaintext, and there is none. */
  predicate Fails(decrypt: Decryptor, d: Decision, field: string, ciphertext: Bytes) {
    && field in d.fieldActions && (d.fieldActions[field].Decrypt? || d.fieldActions[field].MaskAfterDecrypt?)
    && decrypt(ciphertext).Err?
  }

  lemma BrokenIsByAction(decrypt: Decryptor, d: Decision, row: SpectatorRow)
    ensures
      var seen := AllSeen(decrypt, d, row.Ciphertexts());
      (exists field :: field in seen && seen[field].Broken?) <==>
        Fails(decrypt, d, "name", row.nameCT) || Fails(decrypt, d, "age", row.ageCT)
        || Fails(decrypt, d, "external_id", row.externalIDCT)
  {
    var seen := AllSeen(decrypt, d, row.Ciphertexts());
    assert seen.Keys == SPECTATOR_FIELDS;
    assert seen["name"] == FieldSeen(decrypt, d, "name", row.nameCT);
    assert seen["age"] == FieldSeen(decrypt, d, "age", row.ageCT);
    assert seen["external_id"] == FieldSeen(decrypt, d, "external_id", row.externalIDCT);
  }

  /** What the payload shows of the three plaintexts. */
  predicate ShownByAction(decrypt: Decryptor, r: ApplyResult, d: Decision, row: SpectatorRow) {
    && r.payload.Keys == SPECTATOR_FIELDS
    && (forall field :: field in r.denied && field in r.payload ==> r.payload[field].Null?)
    && ("name" in r.decrypted ==> Shows(r.payload["name"], decrypt(row.nameCT), p => Text(p)))
    && ("name" in r.masked ==> Shows(r.payload["name"], decrypt(row.nameCT), p => Text(MaskString(p))))
    && ("external_id" in r.decrypted ==> Shows(r.payload["external_id"], decrypt(row.externalIDCT), p => Text(p)))
    && ("external_id" in r.masked ==>
          Shows(r.payload["external_id"], decrypt(row.externalIDCT), p => Text(MaskString(p))))
    && ("age" in r.decrypted ==> Shows(r.payload["age"], decrypt(row.ageCT), AgeInClear))
    && ("age" in r.masked ==> Shows(r.payload["age"], decrypt(row.ageCT), AgeMasked))
  }

  predicate Shows(value: Value, plaintext: Result<Bytes, KmsError>, show: Bytes -> Value) {
    plaintext.Ok? && value == show(plaintext.value)
  }

  /** An age that is no number is shown as it is, or as three stars. */
  function AgeInClear(plaintext: Bytes): Value {
    match Atoi(plaintext)
    case Some(age) => Number(age)
    case None => Text(plaintext)
  }

  function AgeMasked(plaintext: Bytes): Value {
    match Atoi(plaintext)
    case Some(age) => Text(MaskAge(age))
    case None => Text("***")
  }

  lemma ListsAreByAction(decrypt: Decryptor, d: Decision, row: SpectatorRow, r: ApplyResult)
    requires
      var seen := AllSeen(decrypt, d, row.Ciphertexts());
      Partition(r, seen) && forall field :: field in seen ==> !seen[field].Broken?
    ensures ListedByAction(r, d)
  {
    var seen := AllSeen(decrypt, d, row.Ciphertexts());
    assert seen.Keys == SPECTATOR_FIELDS;
    forall field | field in SPECTATOR_FIELDS
      ensures FieldListed(r, d, field)
    {
      FateIsByAction(decrypt, d, field, row.Ciphertexts()[field]);
      InList(r.decrypted, Fields(seen, InClear), field);
      InList(r.masked, Fields(seen, AsMask), field);
      InList(r.denied, Fields(seen, Withheld), field);
    }
  }

  lemma FateIsByAction(decrypt: Decryptor, d: Decision, field: string, ciphertext: Bytes)
    requires !FieldSeen(decrypt, d, field, ciphertext).Broken?
    ensures
      var action := if field in d.fieldActions then Some(d.fieldActions[field]) else None;
      FateOf(FieldSeen(decrypt, d, field, ciphertext)) ==
        if action == Some(FieldAction.Decrypt) then InClear
        else if action == Some(MaskAfterDecrypt) then AsMask
        else Withheld
  {
  }

  lemma InList(list: seq<string>, fields: set<string>, field: string)
    requires multiset(list) == multiset(fields)
    ensures field in list <==> field in fields
  {
    assert field in list <==> field in multiset(list);
  }

  lemma PayloadIsByAction(decrypt: Decryptor, d: Decision, row: SpectatorRow, r: ApplyResult)
    requires
      var seen := AllSeen(decrypt, d, row.Ciphertexts());
      Partition(r, seen) && forall field :: field in seen ==> !seen[field].Broken?
    ensures ShownByAction(decrypt, r, d, row)
  {
    ListsAreByAction(decrypt, d, row, r);
    var seen := AllSeen(decrypt, d, row.Ciphertexts());
    assert seen["name"] == FieldSeen(decrypt, d, "name", row.nameCT);
    assert seen["age"] == FieldSeen(decrypt, d, "age", row.ageCT);
    assert seen["external_id"] == FieldSeen(decrypt, d, "external_id", row.externalIDCT);
  }

  class SpectatorApplier {
    const decrypt: Decryptor

    constructor (decrypt: Decryptor)
      ensures this.decrypt == decrypt
    {
      this.decrypt := decrypt;
    }

    /** `Apply`, for any order in which the map of fields is iterated: it fails exactly when
        some needed decryption fails, and otherwise sorts the fields into the three lists,
        each field in one and once. */
    method Apply(d: Decision, row: SpectatorRow) returns (r: Result<ApplyResult, KmsError>)
      ensures !d.allow ==> r == Ok(ApplyResult(map[], [], [], ["name", "age", "external_id"]))
      ensures d.allow ==>
        var seen := AllSeen(decrypt, d, row.Ciphertexts());
        && (r.Err? <==> exists field :: field in seen && seen[field].Broken?)
        && (r.Ok? ==> Partition(r.value, seen))
      ensures d.allow && r.Ok? ==> ListedByAction(r.value, d) && ShownByAction(decrypt, r.value, d, row)
      ensures d.allow ==>
        (r.Err? <==> Fails(decrypt, d, "name", row.nameCT) || Fails(decrypt, d, "age", row.ageCT)
                     || Fails(decrypt, d, "external_id", row.externalIDCT))
    {
      if !d.allow {
        return Ok(ApplyResult(map[], [], [], ["name", "age", "external_id"]));
      }
      r := ApplyFields(d, row.Ciphertexts(), AllSeen(decrypt, d, row.Ciphertexts()));
      BrokenIsByAction(decrypt, d, row);
      if r.Ok? {
        ListsAreByAction(decrypt, d, row, r.value);
        PayloadIsByAction(decrypt, d, row, r.value);
      }
    }

    method ApplyFields(d: Decision, fieldMap: map<string, Bytes>, ghost all: map<string, Seen>)
      returns (r: Result<ApplyResult, KmsError>)
      requires all.Keys == fieldMap.Keys && forall f :: f in all ==> all[f] == FieldSeen(decrypt, d, f, fieldMap[f])
      ensures r.Err? <==> exists field :: field in all && all[field].Broken?
      ensures r.Ok? ==> Partition(r.value, all)
    {
      var result := ApplyResult(map[], [], [], []);
      var rest := fieldMap.Keys;
      ghost var done: map<string, Seen> := map[];
      while rest != {}
        invariant rest <= fieldMap.Keys && done.Keys == fieldMap.Keys - rest
        invariant forall f :: f in done ==> done[f] == all[f] && !done[f].Broken?
        invariant Partition(result, done)
        decreases rest
      {
        var field :| field in rest;
        var one := ApplyField(d, field, fieldMap[field]);
        if one.Err? {
          assert all[field].Broken?;
          return Err(one.error);
        }
        result := File(result, done, field, one.value);
        done := done[field := all[field]];
        rest := rest - {field};
      }
      assert done == all;
      return Ok(result);
    }

    /** The end of a turn: the value goes into the payload, the field onto its list. */
    method File(r: ApplyResult, ghost done: map<string, Seen>, field: string, seen: Seen) returns (more: ApplyResult)
      requires field !in done && Partition(r, done)
      ensures Partition(more, done[field := seen])
    {
      OneMoreField(r, done, field, seen);
      more := Appended(r, field, seen);
    }

    /** One turn of the loop: the field's value and the list it goes to. */
    method ApplyField(d: Decision, field: string, ciphertext: Bytes) returns (r: Result<Seen, KmsError>)
      ensures r.Err? <==> FieldSeen(decrypt, d, field, ciphertext).Broken?
      ensures r.Ok? ==> r.value == FieldSeen(decrypt, d, field, ciphertext)
    {
      if field !in d.fieldActions {
        return Ok(Denied);
      }
      match d.fieldActions[field] {
        case Deny => return Ok(Denied);
        case Allow => return Ok(Denied);
        case Decrypt =>
          match decrypt(ciphertext) {
            case Err(e) => return Err(e);
            case Ok(plaintext) =>
              if field == "age" {
                return Ok(Shown(NumberOrText(plaintext)));
              }
              return Ok(Shown(Text(plaintext)));
          }
        case MaskAfterDecrypt =>
          match decrypt(ciphertext) {
            case Err(e) => return Err(e);
            case Ok(plaintext) => return Ok(Masked(ApplyMask(field, plaintext)));
          }
      }
    }
  }

  function Appended(r: ApplyResult, field: string, seen: Seen): ApplyResult {
    ApplyResult(r.payload[field := SeenValue(seen)],
      Listed(r.decrypted, field, seen, InClear),
      Listed(r.masked, field, seen, AsMask),
      Listed(r.denied, field, seen, Withheld))
  }

  function Listed(list: seq<string>, field: string, seen: Seen, fate: Fate): seq<string> {
    if FateOf(seen) == fate then list + [field] else list
  }

  lemma OneMoreListed(list: seq<string>, done: map<string, Seen>, field: string, seen: Seen, fate: Fate)
    requires field !in done && multiset(list) == multiset(Fields(done, fate))
    ensures multiset(Listed(list, field, seen, fate)) == multiset(Fields(done[field := seen], fate))
  {
    var more := Fields(done[field := seen], fate);
    if FateOf(seen) == fate {
      assert more == Fields(done, fate) + {field};
    } else {
      assert more == Fields(done, fate);
    }
  }

  lemma OneMoreField(r: ApplyResult, done: map<string, Seen>, field: string, seen: Seen)
    requires field !in done && Partition(r, done)
    ensures Partition(Appended(r, field, seen), done[field := seen])
  {
    OneMoreListed(r.decrypted, done, field, seen, InClear);
    OneMoreListed(r.masked, done, field, seen, AsMask);
    OneMoreListed(r.denied, done, field, seen, Withheld);
  }

  /** Whatever order the fields were visited in, an allowed decision on a row gives one
      result: any two agree on the payload and, up to order, on the three lists; the lists
      split the three fields between them; and a payload is null exactly for a denied field. */
  lemma ApplyIsOrderIndependent(decrypt: Decryptor, d: Decision, row: SpectatorRow, r: ApplyResult, r': ApplyResult)
    requires
      var seen := AllSeen(decrypt, d, row.Ciphertexts());
      Partition(r, seen) && Partition(r', seen) && forall field :: field in seen ==> !seen[field].Broken?
    ensures r.payload == r'.payload && multiset(r.decrypted) == multiset(r'.decrypted)
    ensures multiset(r.masked) == multiset(r'.masked) && multiset(r.denied) == multiset(r'.denied)
    ensures r.payload.Keys == SPECTATOR_FIELDS
    ensures multiset(r.decrypted) + multiset(r.masked) + multiset(r.denied) == multiset(SPECTATOR_FIELDS)
    ensures forall field :: field in r.payload ==> (r.payload[field].Null? <==> field in r.denied)
  {
    var seen := AllSeen(decrypt, d, row.Ciphertexts());
    assert seen.Keys == SPECTATOR_FIELDS;
    FatesSplit(seen);
    forall field | field in r.payload
      ensures r.payload[field].Null? <==> field in r.denied
    {
      assert field in r.denied <==> field in multiset(r.denied);
      assert field in multiset(r.denied) <==> field in Fields(seen, Withheld);
    }
  }

  lemma FatesSplit(seen: map<string, Seen>)
    ensures multiset(Fields(seen, InClear)) + multiset(Fields(seen, AsMask)) + multiset(Fields(seen, Withheld)) ==
      multiset(seen.Keys)
  {
    var a, b, c := Fields(seen, InClear), Fields(seen, AsMask), Fields(seen, Withheld);
    assert a + b + c == seen.Keys;
    assert multiset(a) + multiset(b) + multiset(c) == multiset(a + b + c);
  }
}
