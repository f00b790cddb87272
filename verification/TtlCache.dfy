/** The bounded expiring map behind every cache of the Go backend. */
module TtlCache {
  import opened Wrappers

  /** Nanoseconds in `time.Second`, the default when no positive lifetime is given. */
  const SECOND := 1_000_000_000

  datatype Entry<V> = Entry(value: V, expiresAt: int)

  /** The state of one cache as a value: what a step of any run reads and writes. */
  datatype Ttl<K(==), V> = Ttl(store: map<K, Entry<V>>, maxEntries: int, defaultTTL: int) {
    ghost predicate Valid() {
      maxEntries >= 1 && defaultTTL > 0 && |store| <= maxEntries
    }

    /** The lifetime `Set` applies when asked for `ttl`. */
    function Lifetime(ttl: int): int {
      if ttl <= 0 then defaultTTL else ttl
    }

    /** An entry is still good at its very last instant. */
    function Hit(key: K, now: int): Option<V> {
      if key in store && now <= store[key].expiresAt then Some(store[key].value) else None
    }

    /** A read drops the entry it finds expired. */
    function AfterGet(key: K, now: int): Ttl<K, V> {
      if key in store && now > store[key].expiresAt then this.(store := store - {key}) else this
    }

    /** A full cache gives up one entry, any of them, the overwritten one included. */
    predicate Evictable(victim: Option<K>) {
      if |store| >= maxEntries then victim.Some? && victim.value in store else victim.None?
    }

    function Room(victim: Option<K>): map<K, Entry<V>> {
      if victim.Some? then store - {victim.value} else store
    }

    function AfterSet(key: K, value: V, ttl: int, now: int, victim: Option<K>): Ttl<K, V> {
      this.(store := Room(victim)[key := Entry(value, now + Lifetime(ttl))])
    }

    function AfterClear(): Ttl<K, V> {
      this.(store := map[])
    }
  }

  /** An empty cache; a size below one means one entry, a lifetime below one a second. */
  function New<K(==), V>(maxEntries: int, defaultTTL: int): Ttl<K, V> {
    Ttl(map[], if maxEntries < 1 then 1 else maxEntries, if defaultTTL <= 0 then SECOND else defaultTTL)
  }

  lemma NewIs<K, V>(maxEntries: int, defaultTTL: int)
    ensures
      var c := New<K, V>(maxEntries, defaultTTL);
      && c.store == map[] && c.maxEntries >= 1 && c.defaultTTL > 0
      && (if maxEntries >= 1 then c.maxEntries == maxEntries else c.maxEntries == 1)
      && (if defaultTTL > 0 then c.defaultTTL == defaultTTL else c.defaultTTL == 1_000_000_000)
  {
  }

  /** What a read and a `Set` do to the entries: a read takes out the key's entry if its time is
      past, a `Set` takes out one entry if and only if the cache is full, and puts in the key's
      with its lifetime, the default one if none is asked for; nothing else changes. */
  lemma EntriesAfter<K, V>(c: Ttl<K, V>, key: K, value: V, ttl: int, now: int, victim: Option<K>, other: K)
    ensures
      var kept := c.AfterGet(key, now).store;
      && (other in kept <==> other in c.store && !(other == key && c.store[key].expiresAt < now))
      && (other in kept ==> kept[other] == c.store[other])
    ensures c.Evictable(victim) ==>
      var put := c.AfterSet(key, value, ttl, now, victim).store;
      && (victim.Some? <==> |c.store| >= c.maxEntries)
      && key in put && put[key].value == value
      && put[key].expiresAt == now + (if ttl > 0 then ttl else c.defaultTTL)
      && (other != key ==> (other in put <==> other in c.store && victim != Some(other)))
      && (other != key && other in put ==> put[other] == c.store[other])
  {
  }

  /** `time.Now()`: nothing is known of the next reading except that it is not earlier. */
  class Clock {
    var now: int

    constructor (start: int)
      ensures now == start
    {
      now := start;
    }

    method Read() returns (t: int)
      modifies this
      ensures t == now && t >= old(now)
    {
      t :| t >= now;
      now := t;
    }
  }

  class TTL<K(==), V> {
    var store: map<K, Entry<V>>
    const maxEntries: int
    const defaultTTL: int
    const clock: Clock

    function State(): Ttl<K, V>
      reads this
    {
      Ttl(store, maxEntries, defaultTTL)
    }

    constructor (maxEntries: int, defaultTTL: int, clock: Clock)
      ensures State() == New(maxEntries, defaultTTL) && State().Valid()
      ensures this.clock == clock
    {
      this.maxEntries := if maxEntries < 1 then 1 else maxEntries;
      this.defaultTTL := if defaultTTL <= 0 then SECOND else defaultTTL;
      this.clock := clock;
      store := map[];
    }

    method Get(key: K) returns (value: Option<V>)
      requires State().Valid()
      modifies this, clock
      ensures clock.now >= old(clock.now)
      ensures value == old(State()).Hit(key, clock.now)
      ensures State() == old(State()).AfterGet(key, clock.now) && State().Valid()
    {
      if key !in store {
        return None;
      }
      var item := store[key];
      var t := clock.Read();
      if t > item.expiresAt {
        SizeAfterRemove(store, key);
        store := store - {key};
        return None;
      }
      return Some(item.value);
    }

    method Set(key: K, value: V, ttl: int) returns (ghost victim: Option<K>)
      requires State().Valid()
      modifies this, clock
      ensures clock.now >= old(clock.now)
      ensures old(State()).Evictable(victim)
      ensures State() == old(State()).AfterSet(key, value, ttl, clock.now, victim) && State().Valid()
    {
      var lifetime := if ttl <= 0 then defaultTTL else ttl;
      victim := None;
      SetKeepsSize(State(), key, value, ttl, 0, None);
      if |store| >= maxEntries {
        assert store.Keys != {};
        var k :| k in store;
        victim := Some(k);
        SetKeepsSize(State(), key, value, ttl, 0, victim);
        store := store - {k};
      }
      var t := clock.Read();
      store := store[key := Entry(value, t + lifetime)];
    }

    method Clear()
      modifies this
      ensures State() == old(State()).AfterClear()
    {
      store := map[];
    }
  }

  lemma SizeAfterRemove<K, V>(m: map<K, V>, key: K)
    requires key in m
    ensures |m - {key}| == |m| - 1
  {
    assert (m - {key}).Keys == m.Keys - {key};
    assert |(m - {key}).Keys| == |m - {key}|;
  }

  lemma SizeAfterPut<K, V>(m: map<K, V>, key: K, v: V)
    ensures |m[key := v]| == if key in m then |m| else |m| + 1
  {
    assert m[key := v].Keys == m.Keys + {key};
    assert |m[key := v].Keys| == |m[key := v]|;
  }

  /** However full the cache and whatever it evicts, a `Set` never overfills it. */
  lemma SetKeepsSize<K, V>(c: Ttl<K, V>, key: K, value: V, ttl: int, now: int, victim: Option<K>)
    requires c.Valid()
    ensures c.Evictable(victim) ==>
      var c' := c.AfterSet(key, value, ttl, now, victim);
      c'.Valid() && |c'.store| <= |c.store| + 1 && (victim.None? ==> |c'.store| <= c.maxEntries)
  {
    if c.Evictable(victim) {
      if victim.Some? { SizeAfterRemove(c.store, victim.value); }
      SizeAfterPut(c.Room(victim), key, Entry(value, now + c.Lifetime(ttl)));
    }
  }

  lemma GetKeepsSize<K, V>(c: Ttl<K, V>, key: K, now: int)
    requires c.Valid()
    ensures c.AfterGet(key, now).Valid() && |c.AfterGet(key, now).store| <= |c.store|
  {
    if key in c.store { SizeAfterRemove(c.store, key); }
  }

  // ---------------------------------------------------------------------------------------
  // Whole runs against the unbounded timed map they approximate
  // ---------------------------------------------------------------------------------------

  datatype Op<K(==), V> =
    | GetOp(key: K, at: int)
    | SetOp(key: K, value: V, ttl: int, at: int, victim: Option<K>)
    | ClearOp

  function Step<K, V>(c: Ttl<K, V>, op: Op<K, V>): Ttl<K, V> {
    match op
    case GetOp(key, at) => c.AfterGet(key, at)
    case SetOp(key, value, ttl, at, victim) => c.AfterSet(key, value, ttl, at, victim)
    case ClearOp => c.AfterClear()
  }

  function Run<K, V>(c: Ttl<K, V>, ops: seq<Op<K, V>>): Ttl<K, V> {
    if ops == [] then c else Step(Run(c, ops[..|ops| - 1]), ops[|ops| - 1])
  }

  /** The run's evictions are ones the cache could have made. */
  predicate Possible<K, V>(c: Ttl<K, V>, ops: seq<Op<K, V>>) {
    ops == [] ||
    (Possible(c, ops[..|ops| - 1]) &&
     (ops[|ops| - 1].SetOp? ==> Run(c, ops[..|ops| - 1]).Evictable(ops[|ops| - 1].victim)))
  }

  /** The unbounded timed map: the latest `Set` of `key` since the last `Clear`. */
  function Latest<K(==), V>(defaultTTL: int, ops: seq<Op<K, V>>, key: K): Option<Entry<V>> {
    if ops == [] then None
    else
      match ops[|ops| - 1]
      case ClearOp => None
      case SetOp(k, value, ttl, at, _) =>
        if k == key then Some(Entry(value, at + if ttl <= 0 then defaultTTL else ttl))
        else Latest(defaultTTL, ops[..|ops| - 1], key)
      case GetOp(_, _) => Latest(defaultTTL, ops[..|ops| - 1], key)
  }

  function Answer<V>(latest: Option<Entry<V>>, now: int): Option<V> {
    if latest.Some? && now <= latest.value.expiresAt then Some(latest.value.value) else None
  }

  /** In every run: the bound holds, and whatever is stored is the latest `Set` of its key. */
  lemma {:induction false} RunRefinesTimedMap<K, V>(maxEntries: int, defaultTTL: int, ops: seq<Op<K, V>>)
    requires Possible(New(maxEntries, defaultTTL), ops)
    ensures
      var c := Run(New(maxEntries, defaultTTL), ops);
      && c.Valid()
      && c.maxEntries == New<K, V>(maxEntries, defaultTTL).maxEntries
      && c.defaultTTL == New<K, V>(maxEntries, defaultTTL).defaultTTL
      && forall key :: key in c.store ==> Latest(c.defaultTTL, ops, key) == Some(c.store[key])
  {
    if ops != [] {
      var before := ops[..|ops| - 1];
      RunRefinesTimedMap(maxEntries, defaultTTL, before);
      var c := Run(New(maxEntries, defaultTTL), before);
      match ops[|ops| - 1] {
        case ClearOp =>
        case GetOp(key, at) => GetKeepsSize(c, key, at);
        case SetOp(key, value, ttl, at, victim) => SetKeepsSize(c, key, value, ttl, at, victim);
      }
    }
  }

  /** A hit is never wrong: it is the unbounded map's answer. */
  lemma HitIsLatest<K, V>(maxEntries: int, defaultTTL: int, ops: seq<Op<K, V>>, key: K, now: int)
    requires Possible(New(maxEntries, defaultTTL), ops)
    ensures
      var c := Run(New(maxEntries, defaultTTL), ops);
      c.Hit(key, now).Some? ==> c.Hit(key, now) == Answer(Latest(c.defaultTTL, ops, key), now)
  {
    RunRefinesTimedMap(maxEntries, defaultTTL, ops);
  }

  /** The key just set is there, whatever was evicted to make room for it. */
  lemma JustSetIsPresent<K, V>(maxEntries: int, defaultTTL: int, ops: seq<Op<K, V>>, now: int)
    requires ops != [] && ops[|ops| - 1].SetOp?
    requires Possible(New(maxEntries, defaultTTL), ops)
    requires now == ops[|ops| - 1].at
    ensures Run(New(maxEntries, defaultTTL), ops).Hit(ops[|ops| - 1].key, now) == Some(ops[|ops| - 1].value)
  {
    RunRefinesTimedMap(maxEntries, defaultTTL, ops[..|ops| - 1]);
  }

  function SetsSinceClear<K, V>(ops: seq<Op<K, V>>): nat {
    if ops == [] then 0
    else
      match ops[|ops| - 1]
      case ClearOp => 0
      case SetOp(_, _, _, _, _) => SetsSinceClear(ops[..|ops| - 1]) + 1
      case GetOp(_, _) => SetsSinceClear(ops[..|ops| - 1])
  }

  /** No operation of the run is later than `now`, nor earlier than the one before it. */
  predicate Timed<K, V>(ops: seq<Op<K, V>>, now: int) {
    ops == [] ||
    match ops[|ops| - 1]
    case ClearOp => Timed(ops[..|ops| - 1], now)
    case SetOp(_, _, _, at, _) => at <= now && Timed(ops[..|ops| - 1], at)
    case GetOp(_, at) => at <= now && Timed(ops[..|ops| - 1], at)
  }

  /** Until more `Set`s than the bound have come since the last `Clear`, the cache answers
      exactly as the unbounded map does: it never forgets an entry that is still good. */
  lemma {:induction false} ExactWithinBound<K, V>(maxEntries: int, defaultTTL: int, ops: seq<Op<K, V>>,
                                                  key: K, now: int)
    requires Possible(New(maxEntries, defaultTTL), ops) && Timed(ops, now)
    requires SetsSinceClear(ops) <= New<K, V>(maxEntries, defaultTTL).maxEntries
    ensures
      var c := Run(New(maxEntries, defaultTTL), ops);
      && c.Hit(key, now) == Answer(Latest(c.defaultTTL, ops, key), now)
      && |c.store| <= SetsSinceClear(ops)
  {
    RunRefinesTimedMap(maxEntries, defaultTTL, ops);
    if ops != [] {
      var before := ops[..|ops| - 1];
      var c := Run(New(maxEntries, defaultTTL), before);
      RunRefinesTimedMap(maxEntries, defaultTTL, before);
      match ops[|ops| - 1] {
        case ClearOp =>
        case GetOp(k, at) =>
          TimedLater(before, at, now);
          ExactWithinBound(maxEntries, defaultTTL, before, key, now);
          GetKeepsSize(c, k, at);
        case SetOp(k, value, ttl, at, victim) =>
          TimedLater(before, at, now);
          ExactWithinBound(maxEntries, defaultTTL, before, key, now);
          SetKeepsSize(c, k, value, ttl, at, victim);
      }
    }
  }

  lemma TimedLater<K, V>(ops: seq<Op<K, V>>, t: int, now: int)
    requires Timed(ops, t) && t <= now
    ensures Timed(ops, now)
  {
  }
}
