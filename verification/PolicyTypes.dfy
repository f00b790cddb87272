/** What the policy pipeline passes around. */
module PolicyTypes {
  datatype FieldAction = Allow | Decrypt | MaskAfterDecrypt | Deny

  datatype Principal = Principal(tenantID: string, userID: string, username: string, role: string, scopes: seq<string>)

  datatype RequestContext = RequestContext(
    requestID: string, clientIP: string, channel: string, purpose: string, deviceTrust: real, env: string)

  datatype FieldMeta = FieldMeta(classification: string, crypto: map<string, string>)

  datatype Resource = Resource(
    kind: string, id: string, ownerID: string, tenantID: string, labels: seq<string>, fields: map<string, FieldMeta>)

  datatype PolicyInput = PolicyInput(principal: Principal, action: string, resource: Resource, context: RequestContext)

  datatype Decision = Decision(allow: bool, fieldActions: map<string, FieldAction>, reason: string, hash: string)

  /** What a classification store says of one resource type: field to classification. */
  type Classifications = map<string, string>

  datatype PDPConfig = PDPConfig(
    defaultClassification: string,
    readActions: seq<string>,
    writeActions: seq<string>,
    bootstrapActions: seq<string>,
    auditActions: seq<string>,
    roleClassificationActions: map<string, map<string, string>>,
    spectatorAgentHardeningFields: seq<string>)

  /** The configuration used when no file is found. */
  const DEFAULT_CONFIG := PDPConfig(
    "INTERNAL",
    ["film.read", "hall.read", "spectator.read"],
    ["film.create", "hall.create", "spectator.create", "film.update_time", "search.spectator"],
    ["bootstrap"],
    ["audit.read", "perf.read"],
    map[
      "admin" := map["PUBLIC" := "allow", "INTERNAL" := "allow", "SENSITIVE" := "decrypt", "PII" := "decrypt"],
      "agent" := map["PUBLIC" := "allow", "INTERNAL" := "allow",
                     "SENSITIVE" := "decrypt", "PII" := "mask_after_decrypt"],
      "developer" := map["PUBLIC" := "allow", "INTERNAL" := "mask_after_decrypt",
                         "SENSITIVE" := "mask_after_decrypt", "PII" := "mask_after_decrypt"]],
    ["name", "external_id"])

  /** The classifications built into the server. */
  const STATIC_CLASSIFICATIONS: map<string, Classifications> := map[
    "film" := map["title" := "PUBLIC", "time_elapsed" := "SENSITIVE"],
    "hall" := map["name" := "PUBLIC", "owner_user_id" := "INTERNAL", "current_film_id" := "INTERNAL"],
    "spectator" := map["name" := "PII", "age" := "SENSITIVE", "external_id" := "PII"]]
}
