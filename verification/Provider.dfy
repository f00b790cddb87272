/** The policy information point: classification stores, the classification cache and the
    building of policy inputs. */
module Provider {
  import opened PolicyTypes
  import opened Wrappers
  import opened ByteStrings
  import Engine
  import CacheManager
  import Runtime
  import TtlCache

  datatype Config = Config(env: string, channel: string, purpose: string, deviceTrust: real)

  datatype Input = Input(
    principal: Principal, action: string, kind: string, id: string, ownerID: string, labels: seq<string>,
    request: RequestContext, cryptoMeta: map<string, map<string, string>>)

  function FieldsFrom(cls: Classifications, cryptoMeta: map<string, map<string, string>>): map<string, FieldMeta> {
    map field | field in cls :: FieldMeta(cls[field], if field in cryptoMeta then cryptoMeta[field] else map[])
  }

  function FilledContext(config: Config, request: RequestContext): RequestContext {
    request.(channel := if request.channel == "" then config.channel else request.channel,
             purpose := if request.purpose == "" then config.purpose else request.purpose,
             env := if request.env == "" then config.env else request.env,
             deviceTrust := if request.deviceTrust == 0.0 then config.deviceTrust else request.deviceTrust)
  }

  /** The policy input for a request, given what the classification store says (nothing, when
      DCS is off). The resource's tenant is the principal's. */
  function BuildInput(config: Config, req: Input, cls: Classifications): PolicyInput {
    PolicyInput(req.principal, req.action,
      Resource(req.kind, req.id, req.ownerID, req.principal.tenantID, req.labels, FieldsFrom(cls, req.cryptoMeta)),
      FilledContext(config, req.request))
  }

  /** A built input names one tenant, carries the classifications unchanged, and so the
      decision on it depends on nothing but mode, action, role, type and classifications. */
  lemma BuiltDecision(system: Engine.System, config: Config, dcs: bool, req: Input, cls: Classifications)
    ensures Engine.TenantsAgree(BuildInput(config, req, cls))
    ensures Engine.ClassificationsOf(BuildInput(config, req, cls).resource.fields) == cls
    ensures Engine.Uncached(system, dcs, BuildInput(config, req, cls))
         == Engine.UncachedFor(system, dcs, req.action, req.principal.role, req.kind, cls)
  {
    assert Engine.ClassificationsOf(FieldsFrom(cls, req.cryptoMeta)) == cls;
  }

  /** A built input carries the request: caller, action and resource as they are, the
      resource in the caller's tenant, a field for each classified one with its crypto metadata,
      and a context in which only what the request leaves empty comes from the configuration. */
  lemma BuiltCarries(config: Config, req: Input, cls: Classifications)
    ensures
      var input := BuildInput(config, req, cls);
      && input.principal == req.principal && input.action == req.action
      && input.resource.kind == req.kind && input.resource.id == req.id && input.resource.ownerID == req.ownerID
      && input.resource.labels == req.labels && input.resource.tenantID == req.principal.tenantID
      && input.resource.fields.Keys == cls.Keys
      && (forall field :: field in cls ==>
            input.resource.fields[field].classification == cls[field] &&
            input.resource.fields[field].crypto == if field in req.cryptoMeta then req.cryptoMeta[field] else map[])
      && input.context.requestID == req.request.requestID && input.context.clientIP == req.request.clientIP
      && FilledFrom(input.context.channel, req.request.channel, config.channel)
      && FilledFrom(input.context.purpose, req.request.purpose, config.purpose)
      && FilledFrom(input.context.env, req.request.env, config.env)
      && (req.request.deviceTrust != 0.0 ==> input.context.deviceTrust == req.request.deviceTrust)
      && (req.request.deviceTrust == 0.0 ==> input.context.deviceTrust == config.deviceTrust)
  {
  }

  predicate FilledFrom(filled: string, given: string, default: string) {
    (given != "" ==> filled == given) && (given == "" ==> filled == default)
  }

  // ---------------------------------------------------------------------------------------
  // Classification stores
  // ---------------------------------------------------------------------------------------

  /** The static store: an unknown resource type has no classified fields. */
  function StaticGet(byResource: map<string, Classifications>, kind: string): Classifications {
    if kind in byResource then byResource[kind] else map[]
  }

  datatype Row = Row(fieldName: string, classification: string)

  predicate Known(s: string) {
    s == "PUBLIC" || s == "INTERNAL" || s == "SENSITIVE" || s == "PII"
  }

  function ParseClassification(s: string): Option<string> {
    if Known(s) then Some(s) else None
  }

  /** The last readable row about a field. */
  function LastRow(rows: seq<Row>, field: string): Option<string> {
    if rows == [] then None
    else
      var row := rows[|rows| - 1];
      if row.fieldName == field && Known(row.classification) then Some(row.classification)
      else LastRow(rows[..|rows| - 1], field)
  }

  /** It is a row about the field that says one of the four classifications, and no later row
      about the field does; there is none when no row does. */
  lemma {:induction false} LastRowIs(rows: seq<Row>, field: string) returns (i: nat)
    ensures LastRow(rows, field).Some? ==>
      && i < |rows| && rows[i].fieldName == field && LastRow(rows, field) == Some(rows[i].classification)
      && rows[i].classification in {"PUBLIC", "INTERNAL", "SENSITIVE", "PII"}
      && forall j :: i < j < |rows| && rows[j].fieldName == field ==>
           rows[j].classification !in {"PUBLIC", "INTERNAL", "SENSITIVE", "PII"}
    ensures LastRow(rows, field).None? ==> forall j :: 0 <= j < |rows| && rows[j].fieldName == field ==>
      rows[j].classification !in {"PUBLIC", "INTERNAL", "SENSITIVE", "PII"}
  {
    i := 0;
    if rows != [] {
      var row := rows[|rows| - 1];
      if row.fieldName == field && Known(row.classification) {
        i := |rows| - 1;
      } else {
        i := LastRowIs(rows[..|rows| - 1], field);
      }
    }
  }

  ghost predicate Readable(rows: seq<Row>) {
    exists i :: 0 <= i < |rows| && Known(rows[i].classification)
  }

  /** The database store: unreadable rows are skipped, later rows win, and the fallback
      answers when the query fails or yields nothing readable. Without a fallback a failed
      query is an error. */
  method GetByResourceType(query: Option<seq<Row>>, fallback: Option<map<string, Classifications>>, kind: string)
    returns (r: Option<Classifications>)
    ensures query.Some? && (Readable(query.value) || fallback.None?) ==>
      r.Some? && forall field: string ::
        (if field in r.value then Some(r.value[field]) else None) == LastRow(query.value, field)
    ensures (query.None? || !Readable(query.value)) && fallback.Some? ==> r == Some(StaticGet(fallback.value, kind))
    ensures query.None? && fallback.None? ==> r.None?
  {
    if query.None? {
      return if fallback.Some? then Some(StaticGet(fallback.value, kind)) else None;
    }
    var rows := query.value;
    var result: Classifications := map[];
    for i := 0 to |rows|
      invariant forall field: string ::
        (if field in result then Some(result[field]) else None) == LastRow(rows[..i], field)
      invariant result != map[] <==> Readable(rows[..i])
    {
      assert rows[..i + 1][..i] == rows[..i];
      var cls := ParseClassification(rows[i].classification);
      if cls.Some? {
        assert rows[..i + 1][i] == rows[i];
        result := result[rows[i].fieldName := cls.value];
        assert rows[i].fieldName in result;
      }
    }
    assert rows[..|rows|] == rows;
    if |result| == 0 && fallback.Some? {
      return Some(StaticGet(fallback.value, kind));
    }
    return Some(result);
  }

  /** What the database store reads has no colon in it. */
  lemma {:induction false} RowsAreColonFree(rows: seq<Row>, field: string)
    ensures LastRow(rows, field).Some? ==> NoColon(LastRow(rows, field).value)
  {
    if rows != [] {
      RowsAreColonFree(rows[..|rows| - 1], field);
      var c := rows[|rows| - 1].classification;
      assert Known(c) ==> NoColon(c);
    }
  }

  // ---------------------------------------------------------------------------------------
  // The provider
  // ---------------------------------------------------------------------------------------

  /** A classification store: what it answers for a resource type, or nothing when it fails. */
  type Store = string -> Option<Classifications>

  /** Every cached row set is the store's own. */
  ghost predicate RowsSound(store: Store, cache: map<string, TtlCache.Entry<Classifications>>) {
    forall kind :: kind in cache ==> store(kind) == Some(cache[kind].value)
  }

  lemma RowsSoundAfterSet(store: Store, c: TtlCache.Ttl<string, Classifications>, kind: string, rows: Classifications)
    requires RowsSound(store, c.store) && store(kind) == Some(rows)
    ensures forall now, victim :: RowsSound(store, c.AfterSet(kind, rows, 0, now, victim).store)
  {
  }

  class Provider {
    const runtime: Runtime.Settings
    const cache: CacheManager.Manager
    const store: Store
    const config: Config

    constructor (runtime: Runtime.Settings, cache: CacheManager.Manager, store: Store, config: Config)
      ensures this.runtime == runtime && this.cache == cache && this.store == store && this.config == config
    {
      this.runtime, this.cache, this.store, this.config := runtime, cache, store, config;
    }

    method Recall(kind: string) returns (cached: Option<Classifications>)
      requires cache.Valid() && RowsSound(store, cache.classification.store)
      modifies cache.classification, cache.clock
      ensures cache.Valid() && RowsSound(store, cache.classification.store)
      ensures cached.Some? ==> cached == store(kind) && kind in cache.classification.store
    {
      cached := cache.classification.Get(kind);
    }

    method Remember(kind: string, rows: Classifications)
      requires cache.Valid() && RowsSound(store, cache.classification.store) && store(kind) == Some(rows)
      modifies cache.classification, cache.clock
      ensures cache.Valid() && RowsSound(store, cache.classification.store) && kind in cache.classification.store
    {
      RowsSoundAfterSet(store, cache.classification.State(), kind, rows);
      ghost var victim := cache.classification.Set(kind, rows, 0);
    }

    /** The rows are the store's, cached or not, and a failing store is an error. At level 1
        and above the rows are left in the cache; below it the cache is not touched. */
    method GetClassificationMap(kind: string) returns (rows: Option<Classifications>)
      requires cache.Valid() && RowsSound(store, cache.classification.store)
      modifies cache.classification, cache.clock
      ensures cache.Valid() && RowsSound(store, cache.classification.store)
      ensures rows == store(kind)
      ensures if cache.runtime.cacheLevel >= 1 then rows.Some? ==> kind in cache.classification.store
              else cache.classification.State() == old(cache.classification.State())
    {
      if cache.LevelEnabled(1) {
        rows := Recall(kind);
        if rows.Some? {
          return;
        }
      }
      rows := store(kind);
      if rows.Some? && cache.LevelEnabled(1) {
        Remember(kind, rows.value);
      }
    }

    /** The field map, filled in whatever order the classification map gives its keys. */
    method FillFields(cls: Classifications, cryptoMeta: map<string, map<string, string>>)
      returns (fields: map<string, FieldMeta>)
      ensures fields == FieldsFrom(cls, cryptoMeta)
    {
      fields := map[];
      var rest := cls.Keys;
      while rest != {}
        invariant rest <= cls.Keys && fields.Keys == cls.Keys - rest
        invariant forall f :: f in fields ==> fields[f] == FieldsFrom(cls, cryptoMeta)[f]
        decreases rest
      {
        var field :| field in rest;
        var meta := FieldMeta(cls[field], map[]);
        if field in cryptoMeta { meta := meta.(crypto := cryptoMeta[field]); }
        fields := fields[field := meta];
        rest := rest - {field};
      }
    }

    /** The context with its gaps filled from the configuration. */
    method FillContext(request: RequestContext) returns (context: RequestContext)
      ensures context == FilledContext(config, request)
    {
      context := request;
      if context.channel == "" { context := context.(channel := config.channel); }
      if context.purpose == "" { context := context.(purpose := config.purpose); }
      if context.env == "" { context := context.(env := config.env); }
      if context.deviceTrust == 0.0 { context := context.(deviceTrust := config.deviceTrust); }
    }

    /** `Build`: at every cache level the input is the one the store's contents give; with DCS
        on and a failing store there is none. */
    method Build(req: Input) returns (input: Option<PolicyInput>)
      requires cache.Valid() && RowsSound(store, cache.classification.store)
      modifies cache.classification, cache.clock
      ensures cache.Valid() && RowsSound(store, cache.classification.store)
      ensures
        var rows := if runtime.DcsEnabled() then store(req.kind) else Some(map[]);
        input == if rows.None? then None else Some(BuildInput(config, req, rows.value))
      ensures if runtime.DcsEnabled() && cache.runtime.cacheLevel >= 1
              then input.Some? ==> req.kind in cache.classification.store
              else cache.classification.State() == old(cache.classification.State())
    {
      var fields: map<string, FieldMeta> := map[];
      if runtime.DcsEnabled() {
        var cls := GetClassificationMap(req.kind);
        if cls.None? {
          return None;
        }
        fields := FillFields(cls.value, req.cryptoMeta);
      } else {
        assert fields == FieldsFrom(map[], req.cryptoMeta);
      }
      var context := FillContext(req.request);
      input := Some(PolicyInput(req.principal, req.action,
        Resource(req.kind, req.id, req.ownerID, req.principal.tenantID, req.labels, fields), context));
    }
  }
}
