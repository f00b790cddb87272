/** The policy decision point: the decision function, the key it is cached under, and the
    cached evaluation. */
module Engine {
  import opened PolicyTypes
  import opened Wrappers
  import opened ByteStrings
  import Sorting
  import TtlCache
  import CacheManager
  import Runtime

  // ---------------------------------------------------------------------------------------
  // The decision function
  // ---------------------------------------------------------------------------------------

  function Refusal(reason: string): Decision {
    Decision(false, map[], reason, "")
  }

  /** Who may do what, and why: the first list that names the action settles it. */
  function Verdict(config: PDPConfig, action: string, role: string): (bool, string) {
    var writer := role == "agent" || role == "admin";
    if action in config.readActions then (true, "read_allowed")
    else if action in config.writeActions then (writer, if writer then "write_allowed" else "write_forbidden")
    else if action in config.bootstrapActions then (true, "bootstrap_allowed")
    else if action in config.auditActions then
      (role == "admin", if role == "admin" then "audit_allowed" else "audit_admin_only")
    else (false, "unknown_action")
  }

  function ParseFieldAction(s: string): FieldAction {
    if s == "allow" then Allow
    else if s == "decrypt" then Decrypt
    else if s == "mask_after_decrypt" then MaskAfterDecrypt
    else Deny
  }

  /** The matrix is looked up by the lower-case role; what it does not list is denied. */
  function ActionForClassification(config: PDPConfig, role: string, classification: string): FieldAction {
    var r := ToLower(role);
    if r !in config.roleClassificationActions then Deny
    else if classification !in config.roleClassificationActions[r] then Deny
    else ParseFieldAction(config.roleClassificationActions[r][classification])
  }

  /** The hardening of spectator fields is keyed on the role as written, not lower-cased. */
  predicate Hardened(config: PDPConfig, role: string, kind: string, field: string) {
    kind == "spectator" && role == "agent" && field in config.spectatorAgentHardeningFields
  }

  function ActionForField(config: PDPConfig, role: string, kind: string, field: string, classification: string)
    : FieldAction
  {
    if Hardened(config, role, kind, field) then MaskAfterDecrypt
    else
      ActionForClassification(config, role,
        if classification == "" then config.defaultClassification else classification)
  }

  /** The decision once tenants agree: action, role, resource type and classifications are
      all it looks at. */
  function DecideFor(config: PDPConfig, action: string, role: string, kind: string, cls: Classifications): Decision {
    var (allow, reason) := Verdict(config, action, role);
    if !allow then Refusal(reason)
    else Decision(true, map field | field in cls :: ActionForField(config, role, kind, field, cls[field]), reason, "")
  }

  function ClassificationsOf(fields: map<string, FieldMeta>): Classifications {
    map field | field in fields :: fields[field].classification
  }

  predicate TenantsAgree(input: PolicyInput) {
    input.principal.tenantID == input.resource.tenantID
  }

  function Decide(config: PDPConfig, input: PolicyInput): Decision {
    if !TenantsAgree(input) then Refusal("tenant_mismatch")
    else
      DecideFor(config, input.action, input.principal.role, input.resource.kind,
        ClassificationsOf(input.resource.fields))
  }

  function AllowWithoutDCS(config: PDPConfig, action: string, role: string): bool {
    if action in config.readActions then true
    else if action in config.writeActions then role == "agent" || role == "admin"
    else if action in config.bootstrapActions then true
    else if action in config.auditActions then role == "admin"
    else false
  }

  // ---------------------------------------------------------------------------------------
  // Digests
  // ---------------------------------------------------------------------------------------

  /** The JSON object a cache key is the digest of. */
  datatype KeyPayload = KeyPayload(
    dcs: bool, action: string, tenant: string, role: string, user: string, resource: string, owner: string,
    labels: seq<string>, fields: seq<string>)

  /** The JSON object a decision hash is the digest of. */
  datatype DecisionPayload = DecisionPayload(allow: bool, fieldActions: map<string, FieldAction>, reason: string)

  /** SHA-256 of the JSON encoding, in hex, as two functions about which nothing is known. */
  datatype Digests = Digests(key: KeyPayload -> string, decision: DecisionPayload -> string)

  /** The digest taken to tell all payloads apart. No digest of fixed length does; the results
      about one call after another ask it of the digest as a whole, those about runs of
      interleaved calls only of the payloads of the run. */
  ghost predicate Injective(digest: KeyPayload -> string) {
    forall p, q :: digest(p) == digest(q) ==> p == q
  }

  /** An engine's fixed part. */
  datatype System = System(config: PDPConfig, digests: Digests)

  /** The hash is the digest of verdict, field actions and reason: it can tell decisions apart by
      those and by nothing else, and does so as far as the digest does. */
  function Hashed(system: System, d: Decision): Decision {
    d.(hash := system.digests.decision(DecisionPayload(d.allow, d.fieldActions, d.reason)))
  }

  /** The decision for a mode, action, role, resource type and classifications. */
  function UncachedFor(system: System, dcs: bool, action: string, role: string, kind: string, cls: Classifications)
    : Decision
  {
    Hashed(system,
      if dcs then DecideFor(system.config, action, role, kind, cls)
      else Decision(AllowWithoutDCS(system.config, action, role), map[], "dcs_off", ""))
  }

  /** What `Evaluate` answers with every cache out of the picture. */
  function Uncached(system: System, dcs: bool, input: PolicyInput): Decision {
    Hashed(system,
      if dcs then Decide(system.config, input)
      else Decision(AllowWithoutDCS(system.config, input.action, input.principal.role), map[], "dcs_off", ""))
  }

  // ---------------------------------------------------------------------------------------
  // The cache key
  // ---------------------------------------------------------------------------------------

  function FieldEntry(field: string, classification: string): string {
    field + ":" + classification
  }

  ghost function Pick(keys: set<string>): string
    requires keys != {}
    ensures Pick(keys) in keys
  {
    var k :| k in keys; k
  }

  /** The `field:classification` strings in some order. */
  ghost function Entries(cls: Classifications): seq<string>
    decreases cls.Keys
  {
    if cls.Keys == {} then []
    else
      var field := Pick(cls.Keys);
      [FieldEntry(field, cls[field])] + Entries(cls - {field})
  }

  ghost function KeyOf(dcs: bool, input: PolicyInput): KeyPayload {
    KeyPayload(dcs, input.action, input.principal.tenantID, input.principal.role, input.principal.userID,
      input.resource.kind, input.resource.ownerID, Sorting.SortStrings(input.resource.labels),
      Sorting.SortStrings(Entries(ClassificationsOf(input.resource.fields))))
  }

  /** Whichever field is taken out first, the entries are the same. */
  lemma {:induction false} EntriesAnyOrder(cls: Classifications, field: string)
    requires field in cls
    ensures multiset(Entries(cls)) == multiset{FieldEntry(field, cls[field])} + multiset(Entries(cls - {field}))
    decreases cls.Keys
  {
    var first := Pick(cls.Keys);
    if first != field {
      var both := cls - {first} - {field};
      assert both == cls - {field} - {first};
      EntriesAnyOrder(cls - {first}, field);
      EntriesAnyOrder(cls - {field}, first);
      var ef, eg := FieldEntry(first, cls[first]), FieldEntry(field, cls[field]);
      assert multiset(Entries(cls - {first})) == multiset{eg} + multiset(Entries(both));
      assert multiset(Entries(cls - {field})) == multiset{ef} + multiset(Entries(both));
      assert Entries(cls) == [ef] + Entries(cls - {first});
    }
  }

  /** Every field gives its entry, and nothing else does. */
  lemma {:induction false} EntriesAre(cls: Classifications)
    ensures forall e :: e in Entries(cls) <==> exists field :: field in cls && e == FieldEntry(field, cls[field])
    decreases cls.Keys
  {
    if cls.Keys != {} {
      var first := Pick(cls.Keys);
      EntriesAre(cls - {first});
      forall e
        ensures e in Entries(cls) <==> exists field :: field in cls && e == FieldEntry(field, cls[field])
      {
        var rest := cls - {first};
        if field :| field in cls && e == FieldEntry(field, cls[field]) {
          if field != first { assert field in rest; }
        } else {
          assert forall field :: field in rest ==> field in cls && rest[field] == cls[field];
        }
      }
    }
  }

  /** What an entry says after its last colon. */
  function AfterLastColon(e: string): (r: string)
    ensures |r| <= |e|
  {
    if e == [] || e[|e| - 1] == ':' then [] else AfterLastColon(e[..|e| - 1]) + [e[|e| - 1]]
  }

  /** A classification can be read back from its entry exactly when it has no colon. */
  lemma {:induction false} EntryReadable(field: string, classification: string)
    ensures AfterLastColon(FieldEntry(field, classification)) == classification <==> NoColon(classification)
  {
    AfterLastColonIs(field, classification);
  }

  lemma {:induction false} AfterLastColonIs(field: string, c: string)
    ensures NoColon(AfterLastColon(FieldEntry(field, c)))
    ensures NoColon(c) ==> AfterLastColon(FieldEntry(field, c)) == c
  {
    var e := FieldEntry(field, c);
    if c != [] && e[|e| - 1] != ':' {
      assert e[..|e| - 1] == FieldEntry(field, c[..|c| - 1]);
      AfterLastColonIs(field, c[..|c| - 1]);
    }
  }

  lemma EntrySplits(f: string, c: string, g: string, d: string)
    requires NoColon(c) && NoColon(d)
    requires FieldEntry(f, c) == FieldEntry(g, d)
    ensures f == g && c == d
  {
    EntryReadable(f, c);
    EntryReadable(g, d);
    assert f == FieldEntry(f, c)[..|f|] && g == FieldEntry(g, d)[..|g|];
  }

  ghost predicate ColonFree(cls: Classifications) {
    forall field :: field in cls ==> NoColon(cls[field])
  }

  lemma EntriesInclude(a: Classifications, b: Classifications)
    requires ColonFree(a) && ColonFree(b) && multiset(Entries(a)) == multiset(Entries(b))
    ensures forall field :: field in a ==> field in b && a[field] == b[field]
  {
    EntriesAre(a);
    EntriesAre(b);
    forall field | field in a
      ensures field in b && a[field] == b[field]
    {
      var e := FieldEntry(field, a[field]);
      assert e in Entries(a);
      assert e in multiset(Entries(b));
      assert e in Entries(b);
      var g :| g in b && e == FieldEntry(g, b[g]);
      EntrySplits(field, a[field], g, b[g]);
    }
  }

  /** Without colons the sorted entries are a faithful picture of the map. */
  lemma EntriesFaithful(a: Classifications, b: Classifications)
    requires ColonFree(a) && ColonFree(b)
    ensures Sorting.SortStrings(Entries(a)) == Sorting.SortStrings(Entries(b)) <==> a == b
  {
    Sorting.SortCanonical(Entries(a), Entries(b));
    if multiset(Entries(a)) == multiset(Entries(b)) {
      EntriesInclude(a, b);
      EntriesInclude(b, a);
      assert a.Keys == b.Keys;
    }
  }

  ghost predicate ColonFreeInput(input: PolicyInput) {
    ColonFree(ClassificationsOf(input.resource.fields))
  }

  /** Two inputs share a key exactly when everything the key is about agrees. */
  lemma KeyCanonical(dcs: bool, input: PolicyInput, dcs': bool, input': PolicyInput)
    requires ColonFreeInput(input) && ColonFreeInput(input')
    ensures KeyOf(dcs, input) == KeyOf(dcs', input') <==>
      && dcs == dcs'
      && input.action == input'.action
      && input.principal.tenantID == input'.principal.tenantID
      && input.principal.role == input'.principal.role
      && input.principal.userID == input'.principal.userID
      && input.resource.kind == input'.resource.kind
      && input.resource.ownerID == input'.resource.ownerID
      && multiset(input.resource.labels) == multiset(input'.resource.labels)
      && ClassificationsOf(input.resource.fields) == ClassificationsOf(input'.resource.fields)
  {
    Sorting.SortCanonical(input.resource.labels, input'.resource.labels);
    EntriesFaithful(ClassificationsOf(input.resource.fields), ClassificationsOf(input'.resource.fields));
  }

  /** The key leaves out the resource's tenant. Under one key the DCS decision is therefore
      one decision exactly when the inputs alike agree, or alike disagree, on their tenants;
      with DCS off it always is. */
  lemma KeyDecides(system: System, dcs: bool, input: PolicyInput, input': PolicyInput)
    requires ColonFreeInput(input) && ColonFreeInput(input') && KeyOf(dcs, input) == KeyOf(dcs, input')
    ensures Uncached(system, dcs, input) == Uncached(system, dcs, input')
            <==> (!dcs || (TenantsAgree(input) <==> TenantsAgree(input')))
  {
    KeyCanonical(dcs, input, dcs, input');
    var config, action, role := system.config, input.action, input.principal.role;
    if dcs && TenantsAgree(input) != TenantsAgree(input') {
      var (allow, reason) := Verdict(config, action, role);
      assert reason != "tenant_mismatch";
      assert Uncached(system, dcs, input).reason != Uncached(system, dcs, input').reason;
    }
  }

  /** The last colon of an entry splits it into a field and a classification without colon. */
  lemma {:induction false} SplitAtLastColon(e: string) returns (field: string, classification: string)
    requires ':' in e
    ensures NoColon(classification) && e == FieldEntry(field, classification)
  {
    var last := |e| - 1;
    if e[last] == ':' {
      field, classification := e[..last], "";
    } else {
      var c;
      field, c := SplitAtLastColon(e[..last]);
      classification := c + [e[last]];
    }
  }

  /** Without a colon a classification shares its entry with no other field and colon-free
      classification, and with a colon it always does. */
  lemma EntryUniqueIff(field: string, classification: string)
    ensures NoColon(classification) <==>
      forall g, d :: NoColon(d) && FieldEntry(g, d) == FieldEntry(field, classification) ==>
        g == field && d == classification
  {
    var e := FieldEntry(field, classification);
    if NoColon(classification) {
      forall g, d | NoColon(d) && FieldEntry(g, d) == e
        ensures g == field && d == classification
      {
        EntrySplits(field, classification, g, d);
      }
    } else {
      assert e[|field|] == ':';
      var g, d := SplitAtLastColon(e);
      assert d != classification;
    }
  }

  /** A colon in a classification breaks the key: two field maps share one although the
      decisions about them differ. */
  lemma ColonCollides(digests: Digests)
    ensures
      var a: Classifications, b: Classifications := map["a" := "x:PUBLIC"], map["a:x" := "PUBLIC"];
      && Sorting.SortStrings(Entries(a)) == Sorting.SortStrings(Entries(b))
      && UncachedFor(System(DEFAULT_CONFIG, digests), true, "film.read", "admin", "film", a)
         != UncachedFor(System(DEFAULT_CONFIG, digests), true, "film.read", "admin", "film", b)
  {
    var a: Classifications, b: Classifications := map["a" := "x:PUBLIC"], map["a:x" := "PUBLIC"];
    assert a.Keys == {"a"} && b.Keys == {"a:x"};
    assert Pick(a.Keys) == "a" && Pick(b.Keys) == "a:x";
    assert (a - {"a"}).Keys == {} && (b - {"a:x"}).Keys == {};
    assert FieldEntry("a", "x:PUBLIC") == FieldEntry("a:x", "PUBLIC");
    var da := DecideFor(DEFAULT_CONFIG, "film.read", "admin", "film", a);
    assert "film.read" in DEFAULT_CONFIG.readActions;
    assert "a" in da.fieldActions;
    assert "a" !in b;
  }

  // ---------------------------------------------------------------------------------------
  // Properties of the decision
  // ---------------------------------------------------------------------------------------

  /** Who may do what: reading and bootstrapping is for all, writing for agents and admins,
      auditing for admins; the lists are consulted in this order, and what is on none is for
      no one. The reason names the list, and tells whether the role sufficed. */
  lemma VerdictIs(config: PDPConfig, action: string, role: string)
    ensures
      var (allow, reason) := Verdict(config, action, role);
      var read, write := action in config.readActions, action in config.writeActions;
      var boot, audit := action in config.bootstrapActions, action in config.auditActions;
      && (allow <==> read || (if write then role in {"agent", "admin"} else boot || (audit && role == "admin")))
      && (reason == "read_allowed" <==> read)
      && (reason == "write_allowed" || reason == "write_forbidden" <==> !read && write)
      && (reason == "bootstrap_allowed" <==> !read && !write && boot)
      && (reason == "audit_allowed" || reason == "audit_admin_only" <==> !read && !write && !boot && audit)
      && (reason == "unknown_action" <==> !read && !write && !boot && !audit)
      && (reason in {"write_forbidden", "audit_admin_only", "unknown_action"} <==> !allow)
  {
  }

  /** A field's action is what the matrix has for role and classification, an unlisted pair and
      an unknown word meaning denial. */
  lemma MatrixActionIs(config: PDPConfig, role: string, kind: string, field: string, classification: string)
    requires !(kind == "spectator" && role == "agent" && field in config.spectatorAgentHardeningFields)
    ensures
      var c := if classification == "" then config.defaultClassification else classification;
      var matrix := config.roleClassificationActions;
      var listed := ToLower(role) in matrix && c in matrix[ToLower(role)];
      var action := ActionForField(config, role, kind, field, classification);
      && (action == Allow <==> listed && matrix[ToLower(role)][c] == "allow")
      && (action == FieldAction.Decrypt <==> listed && matrix[ToLower(role)][c] == "decrypt")
      && (action == MaskAfterDecrypt <==> listed && matrix[ToLower(role)][c] == "mask_after_decrypt")
  {
  }

  /** Where the digest does not collide on two decisions, their hashes agree exactly when
      verdict, field actions and reason do. */
  lemma HashTells(system: System, d: Decision, d': Decision)
    requires
      var p := DecisionPayload(d.allow, d.fieldActions, d.reason);
      var q := DecisionPayload(d'.allow, d'.fieldActions, d'.reason);
      system.digests.decision(p) == system.digests.decision(q) ==> p == q
    ensures Hashed(system, d).hash == Hashed(system, d').hash <==>
      d.allow == d'.allow && d.fieldActions == d'.fieldActions && d.reason == d'.reason
  {
  }

  /** An allowed decision has exactly one action per input field, a refused one has none; and
      whatever the matrix says, an agent gets every present hardening field of a spectator
      masked. */
  lemma DecisionShape(config: PDPConfig, input: PolicyInput)
    ensures
      var d := Decide(config, input);
      && d.fieldActions.Keys == (if d.allow then input.resource.fields.Keys else {})
      && (d.allow && input.resource.kind == "spectator" && input.principal.role == "agent" ==>
          forall field :: field in config.spectatorAgentHardeningFields && field in input.resource.fields ==>
            d.fieldActions[field] == MaskAfterDecrypt)
  {
    assert ClassificationsOf(input.resource.fields).Keys == input.resource.fields.Keys;
  }

  /** Switching DCS off changes who is allowed only for inputs whose tenants disagree, and
      there exactly when the action would be allowed at all. */
  lemma SwitchingOffKeepsPermissions(config: PDPConfig, input: PolicyInput)
    ensures AllowWithoutDCS(config, input.action, input.principal.role) == Decide(config, input).allow
            <==> (TenantsAgree(input) || !Verdict(config, input.action, input.principal.role).0)
  {
  }

  // ---------------------------------------------------------------------------------------
  // The cached evaluation
  // ---------------------------------------------------------------------------------------

  predicate CacheableAction(action: string) {
    action == "film.read" || action == "film.update_time" || action == "film.create"
  }

  ghost function KeyString(system: System, dcs: bool, input: PolicyInput): string {
    system.digests.key(KeyOf(dcs, input))
  }

  /** `d` is the answer for every input and mode that could look it up under `key`. */
  ghost predicate EntrySound(system: System, key: string, d: Decision) {
    forall dcs, input | TenantsAgree(input) && ColonFreeInput(input) && KeyString(system, dcs, input) == key ::
      d == Uncached(system, dcs, input)
  }

  ghost predicate CacheSound(system: System, cache: map<string, TtlCache.Entry<Decision>>) {
    forall key :: key in cache ==> EntrySound(system, key, cache[key].value)
  }

  /** An answer stored under its own key is sound. */
  lemma StoredAnswerIsSound(system: System, dcs: bool, input: PolicyInput)
    requires Injective(system.digests.key) && TenantsAgree(input) && ColonFreeInput(input)
    ensures EntrySound(system, KeyString(system, dcs, input), Uncached(system, dcs, input))
  {
    forall dcs', input' |
      TenantsAgree(input') && ColonFreeInput(input')
      && KeyString(system, dcs', input') == KeyString(system, dcs, input)
      ensures Uncached(system, dcs, input) == Uncached(system, dcs', input')
    {
      assert KeyOf(dcs', input') == KeyOf(dcs, input);
      KeyDecides(system, dcs, input, input');
    }
  }

  /** A read only ever removes entries. */
  lemma SoundAfterGet(system: System, c: TtlCache.Ttl<string, Decision>, key: string, now: int)
    requires CacheSound(system, c.store)
    ensures CacheSound(system, c.AfterGet(key, now).store)
  {
    assert forall k :: k in c.AfterGet(key, now).store ==> k in c.store && c.AfterGet(key, now).store[k] == c.store[k];
  }

  /** So does an eviction, and the entry set is sound. */
  lemma SoundAfterSet(system: System, c: TtlCache.Ttl<string, Decision>, key: string, d: Decision, ttl: int, now: int,
                      victim: Option<string>)
    requires CacheSound(system, c.store) && EntrySound(system, key, d)
    ensures CacheSound(system, c.AfterSet(key, d, ttl, now, victim).store)
  {
    var store' := c.AfterSet(key, d, ttl, now, victim).store;
    forall k | k in store'
      ensures EntrySound(system, k, store'[k].value)
    {
      if k != key { assert k in c.store && store'[k] == c.store[k]; }
    }
  }

  /** `contains`. */
  method Contains(slice: seq<string>, value: string) returns (found: bool)
    ensures found == (value in slice)
  {
    for i := 0 to |slice|
      invariant value !in slice[..i]
    {
      if slice[i] == value { return true; }
    }
    return false;
  }

  class Engine {
    const runtime: Runtime.Settings
    const cache: CacheManager.Manager
    const system: System

    constructor (runtime: Runtime.Settings, cache: CacheManager.Manager, system: System)
      ensures this.runtime == runtime && this.cache == cache && this.system == system
    {
      this.runtime, this.cache, this.system := runtime, cache, system;
    }

    /** `decide`: the verdict, then one pass over the fields in whatever order the map gives
        them, then the hardening pass over the configured list. */
    method DecideInput(input: PolicyInput) returns (d: Decision)
      ensures d == Decide(system.config, input)
    {
      if input.principal.tenantID != input.resource.tenantID {
        return Refusal("tenant_mismatch");
      }
      var config, role := system.config, input.principal.role;
      var allow, reason := false, "default_deny";
      var read := Contains(config.readActions, input.action);
      var write := Contains(config.writeActions, input.action);
      var boot := Contains(config.bootstrapActions, input.action);
      var audit := Contains(config.auditActions, input.action);
      if read {
        allow, reason := true, "read_allowed";
      } else if write {
        allow := role == "agent" || role == "admin";
        reason := if allow then "write_allowed" else "write_forbidden";
      } else if boot {
        allow, reason := true, "bootstrap_allowed";
      } else if audit {
        allow := role == "admin";
        reason := if allow then "audit_allowed" else "audit_admin_only";
      } else {
        return Refusal("unknown_action");
      }
      if !allow {
        return Refusal(reason);
      }
      var fieldActions := FillActions(role, input.resource.fields);
      if input.resource.kind == "spectator" && role == "agent" {
        fieldActions := Harden(fieldActions);
      }
      ghost var cls := ClassificationsOf(input.resource.fields);
      assert fieldActions == map f | f in cls :: ActionForField(config, role, input.resource.kind, f, cls[f]);
      d := Decision(true, fieldActions, reason, "");
    }

    method FillActions(role: string, fields: map<string, FieldMeta>) returns (actions: map<string, FieldAction>)
      ensures actions.Keys == fields.Keys
      ensures forall f :: f in fields ==> actions[f] == ActionForClassification(system.config, role,
        if fields[f].classification == "" then system.config.defaultClassification else fields[f].classification)
    {
      actions := map[];
      var rest := fields.Keys;
      while rest != {}
        invariant rest <= fields.Keys && actions.Keys == fields.Keys - rest
        invariant forall f :: f in actions ==> actions[f] == ActionForClassification(system.config, role,
          if fields[f].classification == "" then system.config.defaultClassification else fields[f].classification)
        decreases rest
      {
        var field :| field in rest;
        var classification := fields[field].classification;
        if classification == "" { classification := system.config.defaultClassification; }
        actions := actions[field := ActionForClassification(system.config, role, classification)];
        rest := rest - {field};
      }
    }

    method Harden(actions: map<string, FieldAction>) returns (out: map<string, FieldAction>)
      ensures out.Keys == actions.Keys
      ensures forall f :: f in actions ==>
        out[f] == if f in system.config.spectatorAgentHardeningFields then MaskAfterDecrypt else actions[f]
    {
      out := actions;
      var list := system.config.spectatorAgentHardeningFields;
      for i := 0 to |list|
        invariant out.Keys == actions.Keys
        invariant forall f :: f in actions ==> out[f] == if f in list[..i] then MaskAfterDecrypt else actions[f]
      {
        if list[i] in out { out := out[list[i] := MaskAfterDecrypt]; }
      }
      assert list[..|list|] == list;
    }

    /** `decisionCacheKey`: the entries are collected in map order, then sorted. */
    method DecisionCacheKey(dcs: bool, input: PolicyInput) returns (key: string)
      ensures key == KeyString(system, dcs, input)
    {
      var fields := CollectEntries(input.resource.fields);
      Sorting.SortCanonical(fields, Entries(ClassificationsOf(input.resource.fields)));
      key := system.digests.key(KeyPayload(dcs, input.action, input.principal.tenantID, input.principal.role,
        input.principal.userID, input.resource.kind, input.resource.ownerID,
        Sorting.SortStrings(input.resource.labels), Sorting.SortStrings(fields)));
    }

    method CollectEntries(fields: map<string, FieldMeta>) returns (entries: seq<string>)
      ensures multiset(entries) == multiset(Entries(ClassificationsOf(fields)))
    {
      entries := [];
      var rest := fields.Keys;
      ghost var left := ClassificationsOf(fields);
      while rest != {}
        invariant rest <= fields.Keys && left.Keys == rest
        invariant forall k :: k in rest ==> left[k] == fields[k].classification
        invariant multiset(Entries(ClassificationsOf(fields))) == multiset(entries) + multiset(Entries(left))
        decreases rest
      {
        var k :| k in rest;
        EntriesAnyOrder(left, k);
        entries := entries + [k + ":" + fields[k].classification];
        left, rest := left - {k}, rest - {k};
      }
      assert left.Keys == {};
    }

    /** `DecisionHash`: the field actions are rebuilt from their keys, whatever order those
        came in, so the payload is the decision's own. */
    method DecisionHash(d: Decision) returns (hash: string)
      ensures d.(hash := hash) == Hashed(system, d)
    {
      var actions: map<string, FieldAction> := map[];
      var keys := d.fieldActions.Keys;
      while keys != {}
        invariant keys <= d.fieldActions.Keys && actions == d.fieldActions - keys
        decreases keys
      {
        var k :| k in keys;
        actions := actions[k := d.fieldActions[k]];
        keys := keys - {k};
      }
      assert actions == d.fieldActions;
      hash := system.digests.decision(DecisionPayload(d.allow, actions, d.reason));
    }

    /** The decision computed afresh for the mode in force, with its hash. */
    method Compute(input: PolicyInput) returns (d: Decision)
      ensures d == Uncached(system, runtime.DcsEnabled(), input)
    {
      if !runtime.DcsEnabled() {
        d := Decision(AllowWithoutDCS(system.config, input.action, input.principal.role), map[], "dcs_off", "");
      } else {
        d := DecideInput(input);
      }
      var hash := DecisionHash(d);
      d := d.(hash := hash);
    }

    /** The inputs the cache is sound for. */
    ghost predicate Fit(input: PolicyInput) {
      Injective(system.digests.key) && TenantsAgree(input) && ColonFreeInput(input)
    }

    /** The decision cache has `d` under `key`, perhaps expired. */
    predicate Holds(key: string, d: Decision)
      reads cache.pdp
    {
      key in cache.pdp.store && cache.pdp.store[key].value == d
    }

    method Recall(key: string, ghost dcs: bool, ghost input: PolicyInput) returns (cached: Option<Decision>)
      requires cache.Valid() && key == KeyString(system, dcs, input)
      modifies cache.pdp, cache.clock
      ensures cache.Valid()
      ensures cached.Some? ==> Holds(key, cached.value) && old(Holds(key, cached.value))
      ensures old(CacheSound(system, cache.pdp.store)) ==> CacheSound(system, cache.pdp.store)
      ensures old(CacheSound(system, cache.pdp.store)) && Fit(input) && cached.Some? ==>
        cached.value == Uncached(system, dcs, input)
    {
      ghost var before := cache.pdp.State();
      cached := cache.pdp.Get(key);
      if CacheSound(system, before.store) {
        SoundAfterGet(system, before, key, cache.clock.now);
        if cached.Some? { assert EntrySound(system, key, before.store[key].value); }
      }
    }

    method Remember(key: string, d: Decision, ghost dcs: bool, ghost input: PolicyInput)
      requires cache.Valid() && key == KeyString(system, dcs, input) && d == Uncached(system, dcs, input)
      modifies cache.pdp, cache.clock
      ensures cache.Valid() && Holds(key, d)
      ensures old(CacheSound(system, cache.pdp.store)) && Fit(input) ==> CacheSound(system, cache.pdp.store)
    {
      ghost var before := cache.pdp.State();
      ghost var victim := cache.pdp.Set(key, d, 0);
      if CacheSound(system, before.store) && Fit(input) {
        StoredAnswerIsSound(system, dcs, input);
        SoundAfterSet(system, before, key, d, 0, cache.clock.now, victim);
      }
    }

    /** `Evaluate`. At level 2 and above a film decision is left in the cache under its key,
        and a hit is what was there before; nothing else touches the cache. A fresh answer is
        the uncached one; with a sound cache so is a cached one, and the cache stays sound, as
        long as inputs name one tenant and the classifications have no colon. */
    method Evaluate(input: PolicyInput) returns (d: Decision, hit: bool)
      requires cache.Valid()
      modifies cache.pdp, cache.clock
      ensures cache.Valid()
      ensures !hit ==> d == Uncached(system, runtime.DcsEnabled(), input)
      ensures
        var key := KeyString(system, runtime.DcsEnabled(), input);
        if cache.runtime.cacheLevel >= 2 && input.action in {"film.read", "film.update_time", "film.create"}
        then Holds(key, d) && (hit ==> old(Holds(key, d)))
        else !hit && cache.pdp.State() == old(cache.pdp.State())
      ensures Fit(input) && old(CacheSound(system, cache.pdp.store)) ==>
              CacheSound(system, cache.pdp.store) && d == Uncached(system, runtime.DcsEnabled(), input)
    {
      if cache.LevelEnabled(2) && CacheableAction(input.action) {
        d, hit := EvaluateCached(input);
      } else {
        d := Compute(input);
        hit := false;
      }
    }

    /** `Evaluate` through the decision cache. */
    method EvaluateCached(input: PolicyInput) returns (d: Decision, hit: bool)
      requires cache.Valid()
      modifies cache.pdp, cache.clock
      ensures cache.Valid()
      ensures !hit ==> d == Uncached(system, runtime.DcsEnabled(), input)
      ensures
        var key := KeyString(system, runtime.DcsEnabled(), input);
        Holds(key, d) && (hit ==> old(Holds(key, d)))
      ensures Fit(input) && old(CacheSound(system, cache.pdp.store)) ==>
              CacheSound(system, cache.pdp.store) && d == Uncached(system, runtime.DcsEnabled(), input)
    {
      var key := DecisionCacheKey(runtime.DcsEnabled(), input);
      var cached := Recall(key, runtime.DcsEnabled(), input);
      if cached.Some? {
        return cached.value, true;
      }
      d := Compute(input);
      Remember(key, d, runtime.DcsEnabled(), input);
      hit := false;
    }
  }
}
