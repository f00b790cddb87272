/** The Python backend's expiring cache: a dict, so entries keep their insertion order and
    the oldest one is evicted. */
module PyCache {
  import opened Wrappers

  datatype Entry<V> = Entry(value: V, expiresAt: int)

  /** A Python dict read in iteration order: one pair per key. */
  type Dict<K(==), V> = seq<(K, Entry<V>)>

  predicate Distinct<K, V>(d: Dict<K, V>) {
    forall i, j :: 0 <= i < j < |d| ==> d[i].0 != d[j].0
  }

  predicate Has<K, V>(d: Dict<K, V>, key: K) {
    exists i :: 0 <= i < |d| && d[i].0 == key
  }

  /** Where `key` stands, or one past the end. */
  function Position<K, V>(d: Dict<K, V>, key: K): (i: nat)
    ensures i <= |d| && (i < |d| <==> Has(d, key))
    ensures i < |d| ==> d[i].0 == key
    ensures forall j :: 0 <= j < i ==> d[j].0 != key
  {
    if d == [] || d[0].0 == key then 0
    else
      var i := Position(d[1..], key);
      assert forall j :: 0 <= j < |d| - 1 ==> d[1..][j] == d[j + 1];
      assert forall j :: 1 <= j < |d| ==> d[j] == d[1..][j - 1];
      i + 1
  }

  function Lookup<K, V>(d: Dict<K, V>, key: K): Option<Entry<V>> {
    var i := Position(d, key);
    if i < |d| then Some(d[i].1) else None
  }

  /** `d[key] = entry`: in place if the key is there, at the end if not. */
  function Assign<K, V>(d: Dict<K, V>, key: K, entry: Entry<V>): Dict<K, V> {
    var i := Position(d, key);
    if i < |d| then d[i := (key, entry)] else d + [(key, entry)]
  }

  function Pop<K, V>(d: Dict<K, V>, key: K): Dict<K, V> {
    var i := Position(d, key);
    if i < |d| then d[..i] + d[i + 1..] else d
  }

  /** `max(1, n)`, for sizes and for lifetimes in seconds. */
  function AtLeastOne(n: int): (m: int)
    ensures m >= 1 && m >= n && (m == 1 || m == n)
  {
    if n < 1 then 1 else n
  }

  /** Expired at its very last instant, unlike the Go cache. */
  function Expired<K, V>(d: Dict<K, V>, key: K, now: int): bool {
    var e := Lookup(d, key);
    e.Some? && e.value.expiresAt <= now
  }

  function AfterGet<K, V>(d: Dict<K, V>, key: K, now: int): Dict<K, V> {
    if Expired(d, key, now) then Pop(d, key) else d
  }

  function GetAnswer<K, V>(d: Dict<K, V>, key: K, now: int): Option<V> {
    var e := Lookup(d, key);
    if e.Some? && !Expired(d, key, now) then Some(e.value.value) else None
  }

  /** What is left once a full dict has dropped its first entry. */
  function Room<K, V>(d: Dict<K, V>, maxEntries: int): Dict<K, V>
    requires maxEntries >= 1
  {
    if |d| >= maxEntries then d[1..] else d
  }

  function AfterSet<K, V>(d: Dict<K, V>, maxEntries: int, key: K, entry: Entry<V>): Dict<K, V>
    requires maxEntries >= 1
  {
    Assign(Room(d, maxEntries), key, entry)
  }

  predicate Sized<K, V>(d: Dict<K, V>, maxEntries: int) {
    Distinct(d) && |d| <= maxEntries
  }

  class TTLCache<K(==), V> {
    const maxEntries: int
    const defaultTTL: int
    var store: Dict<K, V>

    ghost predicate Valid()
      reads this
    {
      maxEntries >= 1 && defaultTTL >= 1 && Sized(store, maxEntries)
    }

    constructor (maxEntries: int, defaultTTLSeconds: int)
      ensures Valid() && store == []
      ensures this.maxEntries == AtLeastOne(maxEntries) && this.defaultTTL == AtLeastOne(defaultTTLSeconds)
    {
      this.maxEntries := AtLeastOne(maxEntries);
      this.defaultTTL := AtLeastOne(defaultTTLSeconds);
      store := [];
    }

    method Get(key: K, now: int) returns (value: Option<V>)
      requires Valid()
      modifies this
      ensures Valid()
      ensures value == GetAnswer(old(store), key, now) && store == AfterGet(old(store), key, now)
    {
      var entry := Lookup(store, key);
      if entry.None? {
        return None;
      }
      if entry.value.expiresAt <= now {
        PopKeeps(store, key);
        store := Pop(store, key);
        return None;
      }
      return Some(entry.value.value);
    }

    method Set(key: K, value: V, ttlSeconds: Option<int>, now: int)
      requires Valid()
      modifies this
      ensures Valid()
      ensures store == AfterSet(old(store), maxEntries, key,
        Entry(value, now + if ttlSeconds.None? then defaultTTL else AtLeastOne(ttlSeconds.value)))
    {
      var ttl := if ttlSeconds.None? then defaultTTL else AtLeastOne(ttlSeconds.value);
      var expiresAt := now + ttl;
      SetKeeps(store, maxEntries, key, Entry(value, expiresAt));
      if |store| >= maxEntries {
        store := store[1..];
      }
      store := Assign(store, key, Entry(value, expiresAt));
    }

    method Clear()
      requires Valid()
      modifies this
      ensures Valid() && store == []
    {
      store := [];
    }
  }

  lemma PopKeeps<K, V>(d: Dict<K, V>, key: K)
    requires Distinct(d)
    ensures Distinct(Pop(d, key)) && |Pop(d, key)| <= |d|
  {
  }

  lemma SetKeeps<K, V>(d: Dict<K, V>, maxEntries: int, key: K, entry: Entry<V>)
    requires maxEntries >= 1 && Sized(d, maxEntries)
    ensures Sized(Room(d, maxEntries), maxEntries)
    ensures Sized(AfterSet(d, maxEntries, key, entry), maxEntries)
    ensures Lookup(AfterSet(d, maxEntries, key, entry), key) == Some(entry)
  {
    var d' := AfterSet(d, maxEntries, key, entry);
    assert d'[Position(Room(d, maxEntries), key)] == (key, entry);
  }

  /** A read answers with a key's value while its expiry lies ahead, and not at that instant. */
  lemma AnswersWhileAhead<K, V>(d: Dict<K, V>, key: K, now: int, v: V)
    requires Distinct(d)
    ensures GetAnswer(d, key, now) == Some(v) <==>
      exists i :: 0 <= i < |d| && d[i].0 == key && d[i].1.value == v && now < d[i].1.expiresAt
  {
    var i := Position(d, key);
    if i < |d| { assert d[i].0 == key; }
  }

  /** What a `Set` makes of the entries: a full cache loses its first; the rest keep value and
      place, but for the key's own, which keeps its place; a new key goes to the end. */
  lemma SetMoves<K, V>(d: Dict<K, V>, maxEntries: int, key: K, entry: Entry<V>)
    requires maxEntries >= 1 && Sized(d, maxEntries)
    ensures
      var kept := if |d| == maxEntries then d[1..] else d;
      var d' := AfterSet(d, maxEntries, key, entry);
      && |d'| == (if Has(kept, key) then |kept| else |kept| + 1)
      && (forall i :: 0 <= i < |kept| ==> d'[i] == if kept[i].0 == key then (key, entry) else kept[i])
      && (!Has(kept, key) ==> d'[|kept|] == (key, entry))
  {
    SetKeeps(d, maxEntries, key, entry);
  }

  /** A read takes out the key's entry if its expiry has come, and nothing else. */
  lemma GetTakesOut<K, V>(d: Dict<K, V>, key: K, now: int, i: nat)
    requires Distinct(d) && i < |d| && d[i].0 == key
    ensures AfterGet(d, key, now) == if d[i].1.expiresAt <= now then d[..i] + d[i + 1..] else d
  {
    PositionIs(d, key, i);
  }

  // ---------------------------------------------------------------------------------------
  // The survival bound
  // ---------------------------------------------------------------------------------------

  datatype Op<K(==), V> =
    | GetOp(key: K, now: int)
    | SetOp(key: K, entry: Entry<V>)
    | ClearOp

  function Step<K, V>(d: Dict<K, V>, maxEntries: int, op: Op<K, V>): Dict<K, V>
    requires maxEntries >= 1
  {
    match op
    case GetOp(key, now) => AfterGet(d, key, now)
    case SetOp(key, entry) => AfterSet(d, maxEntries, key, entry)
    case ClearOp => []
  }

  function Run<K, V>(d: Dict<K, V>, maxEntries: int, ops: seq<Op<K, V>>): Dict<K, V>
    requires maxEntries >= 1
    decreases |ops|
  {
    if ops == [] then d else Run(Step(d, maxEntries, ops[0]), maxEntries, ops[1..])
  }

  function Sets<K, V>(ops: seq<Op<K, V>>): nat {
    if ops == [] then 0 else (if ops[0].SetOp? then 1 else 0) + Sets(ops[1..])
  }

  /** Along the run the cache is never cleared and `key` is never read once expired. */
  predicate Undisturbed<K, V>(d: Dict<K, V>, maxEntries: int, ops: seq<Op<K, V>>, key: K)
    requires maxEntries >= 1
    decreases |ops|
  {
    ops == [] ||
    (&& !ops[0].ClearOp?
     && (ops[0].GetOp? && ops[0].key == key ==> !Expired(d, key, ops[0].now))
     && Undisturbed(Step(d, maxEntries, ops[0]), maxEntries, ops[1..], key))
  }

  /** How many entries stand after `key`. */
  function After<K, V>(d: Dict<K, V>, key: K): int {
    |d| - 1 - Position(d, key)
  }

  lemma PositionIs<K, V>(d: Dict<K, V>, key: K, i: int)
    requires Distinct(d) && 0 <= i < |d| && d[i].0 == key
    ensures Position(d, key) == i
  {
  }

  /** One step: a `Set` puts at most one more entry after `key`, a read puts none, and only
      a `Set` on a full cache headed by `key` can take `key` out. */
  lemma StepKeepsKey<K, V>(d: Dict<K, V>, maxEntries: int, op: Op<K, V>, key: K)
    requires maxEntries >= 1 && Sized(d, maxEntries) && Has(d, key)
    requires !op.ClearOp? && (op.GetOp? && op.key == key ==> !Expired(d, key, op.now))
    requires op.SetOp? ==> After(d, key) < maxEntries - 1
    ensures
      var d' := Step(d, maxEntries, op);
      Sized(d', maxEntries) && Has(d', key) &&
      After(d', key) <= After(d, key) + if op.SetOp? then 1 else 0
  {
    match op {
      case GetOp(k, now) =>
        if Expired(d, k, now) { PopLeaves(d, k, key); }
      case SetOp(k, entry) =>
        SetLeaves(d, maxEntries, k, entry, key);
    }
  }

  lemma PopLeaves<K, V>(d: Dict<K, V>, k: K, key: K)
    requires Distinct(d) && Has(d, key) && k != key
    ensures Distinct(Pop(d, k)) && |Pop(d, k)| <= |d| && Has(Pop(d, k), key) && After(Pop(d, k), key) <= After(d, key)
  {
    var i, j := Position(d, key), Position(d, k);
    PopKeeps(d, k);
    PositionIs(Pop(d, k), key, if j < i then i - 1 else i);
  }

  lemma SetLeaves<K, V>(d: Dict<K, V>, maxEntries: int, k: K, entry: Entry<V>, key: K)
    requires maxEntries >= 1 && Sized(d, maxEntries) && Has(d, key) && After(d, key) < maxEntries - 1
    ensures
      var d' := AfterSet(d, maxEntries, k, entry);
      Sized(d', maxEntries) && Has(d', key) && After(d', key) <= After(d, key) + 1
  {
    SetKeeps(d, maxEntries, k, entry);
    var i := Position(d, key) - if |d| >= maxEntries then 1 else 0;
    var room := Room(d, maxEntries);
    assert room[i].0 == key;
    PositionIs(AfterSet(d, maxEntries, k, entry), key, i);
  }

  /** Counting from a state with `after` entries behind `key`. */
  lemma {:induction false} SurvivesFrom<K, V>(d: Dict<K, V>, maxEntries: int, ops: seq<Op<K, V>>, key: K)
    requires maxEntries >= 1 && Sized(d, maxEntries) && Has(d, key)
    requires Undisturbed(d, maxEntries, ops, key)
    requires After(d, key) + Sets(ops) <= maxEntries - 1
    ensures Has(Run(d, maxEntries, ops), key)
    ensures After(Run(d, maxEntries, ops), key) <= After(d, key) + Sets(ops)
    decreases |ops|
  {
    if ops != [] {
      StepKeepsKey(d, maxEntries, ops[0], key);
      SurvivesFrom(Step(d, maxEntries, ops[0]), maxEntries, ops[1..], key);
    }
  }

  /** A freshly inserted entry stays through at least `maxEntries - 1` further `Set`s, with
      any reads in between. */
  lemma InsertedSurvives<K, V>(d: Dict<K, V>, maxEntries: int, key: K, entry: Entry<V>, ops: seq<Op<K, V>>)
    requires maxEntries >= 1 && Sized(d, maxEntries)
    requires !Has(Room(d, maxEntries), key)
    requires Undisturbed(AfterSet(d, maxEntries, key, entry), maxEntries, ops, key)
    requires Sets(ops) <= maxEntries - 1
    ensures Has(Run(AfterSet(d, maxEntries, key, entry), maxEntries, ops), key)
  {
    SetKeeps(d, maxEntries, key, entry);
    var d' := AfterSet(d, maxEntries, key, entry);
    PositionIs(d', key, |d'| - 1);
    SurvivesFrom(d', maxEntries, ops, key);
  }

  /** Every operation sets a key that is not in the cache, and not `key`. */
  predicate FreshSets<K, V>(d: Dict<K, V>, maxEntries: int, ops: seq<Op<K, V>>, key: K)
    requires maxEntries >= 1
    decreases |ops|
  {
    ops == [] ||
    (&& ops[0].SetOp? && ops[0].key != key && !Has(d, ops[0].key)
     && FreshSets(Step(d, maxEntries, ops[0]), maxEntries, ops[1..], key))
  }

  /** The bound is exact: after as many fresh `Set`s as complete the window, the entry is gone,
      so surviving `maxEntries - 1` of them is the most an inserted entry can be promised. */
  lemma {:induction false} FreshSetsEvict<K, V>(d: Dict<K, V>, maxEntries: int, ops: seq<Op<K, V>>, key: K)
    requires maxEntries >= 1 && Sized(d, maxEntries)
    requires FreshSets(d, maxEntries, ops, key)
    requires Has(d, key) ==> |ops| >= maxEntries - After(d, key)
    ensures !Has(Run(d, maxEntries, ops), key)
    decreases |ops|
  {
    if ops != [] {
      FreshSetMoves(d, maxEntries, ops[0].key, ops[0].entry, key);
      FreshSetsEvict(Step(d, maxEntries, ops[0]), maxEntries, ops[1..], key);
    }
  }

  /** A fresh `Set` puts one more entry after `key`, or evicts it. */
  lemma FreshSetMoves<K, V>(d: Dict<K, V>, maxEntries: int, k: K, entry: Entry<V>, key: K)
    requires maxEntries >= 1 && Sized(d, maxEntries) && k != key && !Has(d, k)
    ensures
      var d' := AfterSet(d, maxEntries, k, entry);
      && Sized(d', maxEntries)
      && (Has(d', key) ==> Has(d, key) && After(d', key) == After(d, key) + 1)
  {
    SetKeeps(d, maxEntries, k, entry);
    var room := Room(d, maxEntries);
    assert !Has(room, k);
    var d' := AfterSet(d, maxEntries, k, entry);
    assert d' == room + [(k, entry)];
    if Has(d', key) {
      var i := Position(d', key);
      assert room[i].0 == key;
      PositionIs(d, key, if |d| >= maxEntries then i + 1 else i);
    }
  }
}
