/** The administrator's settings change: validate, update, forget everything cached. */
module AdminSettings {
  import opened ByteStrings
  import opened Wrappers
  import CacheManager
  import Runtime

  datatype SettingsError = BadMode | BadLevel

  /** The mode asked for, as the server reads it. */
  function Asked(mode: Bytes): Bytes {
    ToLower(TrimSpace(mode))
  }

  /** Why a change is refused, if it is: the mode is looked at before the level. */
  function Refusal(mode: Option<Bytes>, level: Option<int>): (e: Option<SettingsError>)
    ensures e == Some(BadMode) <==> mode.Some? && Asked(mode.value) != "on" && Asked(mode.value) != "off"
    ensures e == Some(BadLevel) ==> level.Some? && level.value < 0
    ensures e.None? ==> level.Some? ==> level.value >= 0
  {
    if mode.Some? && Asked(mode.value) != "on" && Asked(mode.value) != "off" then Some(BadMode)
    else if level.Some? && level.value < 0 then Some(BadLevel)
    else None
  }

  /** The settings asked for. */
  function Changed(s: Runtime.State, mode: Option<Bytes>, level: Option<nat>): Runtime.State {
    Runtime.State(if mode.None? then s.dcsMode else Asked(mode.value),
                  if level.None? then s.cacheLevel else level.value)
  }

  /** A change that is not refused puts no default in place of what was asked. */
  lemma AcceptedIsAsked(s: Runtime.State, mode: Option<Bytes>, level: Option<int>)
    requires Refusal(mode, level).None?
    ensures s.Updated(mode, level) == Changed(s, mode, level)
    ensures mode.Some? ==> (Runtime.Enabled(s.Updated(mode, level).dcsMode) <==> Asked(mode.value) == "on")
  {
  }

  method Apply(runtime: Runtime.Settings, cache: CacheManager.Manager, mode: Option<Bytes>, level: Option<int>)
    requires cache.Valid()
    modifies runtime, cache.classification, cache.pdp, cache.kms, cache.pepper
    ensures cache.Valid()
    ensures runtime.Value() == old(runtime.Value()).Updated(mode, level)
    ensures cache.classification.store == map[] && cache.pdp.store == map[]
    ensures cache.kms.store == map[] && cache.pepper.store == map[]
  {
    runtime.Set(mode, level);
    cache.ClearAll();
  }

  /** A change is refused whole or made whole. When made, the settings are exactly those asked
      for, with nothing replaced by a default, and no cache holds an entry from before. */
  method Patch(runtime: Runtime.Settings, cache: CacheManager.Manager, mode: Option<Bytes>, level: Option<int>)
    returns (r: Result<Runtime.State, SettingsError>)
    requires cache.Valid()
    modifies runtime, cache.classification, cache.pdp, cache.kms, cache.pepper
    ensures cache.Valid()
    ensures (if r.Err? then Some(r.error) else None) == Refusal(mode, level)
    ensures r.Err? ==>
      && runtime.Value() == old(runtime.Value())
      && cache.classification.State() == old(cache.classification.State())
      && cache.pdp.State() == old(cache.pdp.State())
      && cache.kms.State() == old(cache.kms.State()) && cache.pepper.State() == old(cache.pepper.State())
    ensures r.Ok? ==>
      && r.value == runtime.Value() == Changed(old(runtime.Value()), mode, level)
      && (mode.Some? ==> (runtime.DcsEnabled() <==> Asked(mode.value) == "on"))
      && cache.classification.store == map[] && cache.pdp.store == map[]
      && cache.kms.store == map[] && cache.pepper.store == map[]
  {
    var refusal := Refusal(mode, level);
    if refusal.Some? {
      return Err(refusal.value);
    }
    AcceptedIsAsked(runtime.Value(), mode, level);
    Apply(runtime, cache, mode, level);
    return Ok(runtime.Value());
  }
}
