/** The four caches and the switch that turns them on level by level. */
module CacheManager {
  import opened ByteStrings
  import opened PolicyTypes
  import opened TtlCache
  import Runtime

  datatype Options = Options(
    maxEntries: int, classificationTTL: int, pdpTTL: int, kmsTTL: int, pepperTTL: int)

  class Manager {
    const runtime: Runtime.Settings
    const clock: Clock
    const classification: TTL<string, Classifications>
    const pdp: TTL<string, Decision>
    const kms: TTL<Bytes, Bytes>
    const pepper: TTL<Bytes, Bytes>

    ghost predicate Valid()
      reads this, classification, pdp, kms, pepper
    {
      && classification.State().Valid() && pdp.State().Valid() && kms.State().Valid() && pepper.State().Valid()
      && classification.clock == pdp.clock == kms.clock == pepper.clock == clock
      && kms != pepper
      && (classification as object) != (pdp as object)
    }

    constructor (runtime: Runtime.Settings, clock: Clock, options: Options)
      ensures Valid() && this.runtime == runtime && this.clock == clock
      ensures fresh(classification) && fresh(pdp) && fresh(kms) && fresh(pepper)
      ensures classification.State() == New(options.maxEntries, options.classificationTTL)
      ensures pdp.State() == New(options.maxEntries, options.pdpTTL)
      ensures kms.State() == New(options.maxEntries, options.kmsTTL)
      ensures pepper.State() == New(8, options.pepperTTL)
    {
      this.runtime := runtime;
      this.clock := clock;
      classification := new TTL(options.maxEntries, options.classificationTTL, clock);
      pdp := new TTL(options.maxEntries, options.pdpTTL, clock);
      kms := new TTL(options.maxEntries, options.kmsTTL, clock);
      pepper := new TTL(8, options.pepperTTL, clock);
    }

    predicate LevelEnabled(level: int)
      reads runtime
    {
      runtime.cacheLevel >= level
    }

    method ClearAll()
      requires Valid()
      modifies classification, pdp, kms, pepper
      ensures Valid()
      ensures classification.store == map[] && pdp.store == map[] && kms.store == map[] && pepper.store == map[]
    {
      classification.Clear();
      pdp.Clear();
      kms.Clear();
      pepper.Clear();
    }
  }
}
