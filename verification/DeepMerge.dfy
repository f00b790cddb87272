/** The recursive merge of the Python configuration over its defaults. */
module DeepMerge {
  import opened Wrappers

  /** A JSON value as the merge sees it: a dict, or anything else. */
  datatype Json = Scalar(text: string) | Node(items: map<string, Json>)

  /** `override` laid over `base`, as a value. */
  function Merge(base: map<string, Json>, override: map<string, Json>): map<string, Json>
    decreases Node(override)
  {
    map key | key in base.Keys + override.Keys ::
      if key in override then MergeAt(base, override, key) else base[key]
  }

  function MergeAt(base: map<string, Json>, override: map<string, Json>, key: string): Json
    requires key in override
    decreases Node(override), 0
  {
    if override[key].Node? && key in base && base[key].Node? then
      Node(Merge(base[key].items, override[key].items))
    else override[key]
  }

  /** A Python dict: an object that other dicts may share. */
  class Dict {
    var items: map<string, Value>
    /** The dict's contents and the objects they live in. */
    ghost var model: Json
    ghost var Repr: set<Dict>

    ghost predicate Valid()
      reads this, Repr
      decreases model
    {
      && this in Repr
      && model.Node?
      && items.Keys == model.items.Keys
      && forall key :: key in items ==> Holds(items[key], model.items[key])
    }

    ghost predicate Holds(v: Value, j: Json)
      requires model.Node? && j < model
      reads this, Repr
      decreases model, 0
    {
      match v
      case Text(s) => j == Scalar(s)
      case Ref(d) => d in Repr && d.Repr <= Repr && this !in d.Repr && j == d.model && d.Valid()
    }

    /** `dict(base)`: a new dict that shares the nested ones. */
    constructor Copy(base: Dict)
      requires base.Valid()
      ensures items == base.items && model == base.model
      ensures Repr == base.Repr + {this} && Valid()
    {
      items := base.items;
      model := base.model;
      Repr := base.Repr + {this};
      new;
      assert forall key :: key in items ==> base.Holds(items[key], model.items[key]);
    }

    /** `out[key] = val`. */
    method Put(key: string, val: Value, ghost j: Json)
      requires Valid()
      requires match val
        case Text(s) => j == Scalar(s)
        case Ref(d) => d.Valid() && this !in d.Repr && j == d.model
      modifies this
      ensures Valid()
      ensures items == old(items)[key := val] && model == Node(old(model).items[key := j])
      ensures Repr == old(Repr) + if val.Ref? then val.d.Repr else {}
    {
      if val.Ref? { Repr := Repr + val.d.Repr; }
      items := items[key := val];
      model := Node(model.items[key := j]);
      forall k | k in items
        ensures Holds(items[k], model.items[k])
      {
        if k != key {
          assert old(Holds(items[k], model.items[k]));
        }
      }
    }
  }

  datatype Value = Text(s: string) | Ref(d: Dict)

  /** `_deep_merge`: the result is a new object holding the merge, and since the method
      writes nothing that existed before, neither argument nor any dict nested in one changes. */
  method DeepMerge(base: Dict, override: Dict) returns (out: Dict)
    requires base.Valid() && override.Valid()
    ensures fresh(out) && out.Valid()
    ensures forall d :: d in out.Repr ==> d in base.Repr + override.Repr || fresh(d)
    ensures out.model == Node(Merge(base.model.items, override.model.items))
    decreases override.model, 1
  {
    out := new Dict.Copy(base);
    var keys := override.items.Keys;
    ghost var done: set<string> := {};
    while keys != {}
      invariant keys !! done && keys + done == override.items.Keys
      invariant fresh(out) && out.Valid() && base.Valid() && override.Valid()
      invariant forall d :: d in out.Repr ==> d in base.Repr + override.Repr || fresh(d)
      invariant out.model.items == Merge(base.model.items, Restrict(override.model.items, done))
      invariant forall key :: key in keys ==> SameAt(out.items, base.items, key)
      decreases keys
    {
      var key :| key in keys;
      label before:
      MergeKey(out, base, override, key);
      assert forall k :: k in keys - {key} ==> SameAt(out.items, old@before(out.items), k);
      MergeOneMore(base.model.items, override.model.items, done, key);
      keys, done := keys - {key}, done + {key};
    }
    assert Restrict(override.model.items, done) == override.model.items;
  }

  predicate SameAt<T(==)>(a: map<string, T>, b: map<string, T>, key: string) {
    (key in a <==> key in b) && (key in a ==> a[key] == b[key])
  }

  /** The loop body: one key of `override` laid over `out`, where `out` still has what
      `base` has. */
  method MergeKey(out: Dict, base: Dict, override: Dict, key: string)
    requires base.Valid() && override.Valid() && out.Valid()
    requires out !in base.Repr && out !in override.Repr
    requires key in override.items && SameAt(out.items, base.items, key)
    modifies out
    ensures out.Valid()
    ensures forall d :: d in out.Repr ==> d in old(out.Repr) + base.Repr + override.Repr || fresh(d)
    ensures out.model == Node(old(out.model).items[key := MergeAt(base.model.items, override.model.items, key)])
    ensures forall k :: k != key ==> SameAt(out.items, old(out.items), k)
    decreases override.model, 0
  {
    var val := override.items[key];
    ghost var j := override.model.items[key];
    assert override.Holds(val, j);
    assert key in base.items ==> base.Holds(base.items[key], base.model.items[key]);
    if val.Ref? && key in out.items && out.items[key].Ref? {
      var merged := DeepMerge(out.items[key].d, val.d);
      out.Put(key, Ref(merged), merged.model);
    } else {
      out.Put(key, val, j);
    }
  }

  ghost function Restrict(m: map<string, Json>, keys: set<string>): map<string, Json> {
    map key | key in m && key in keys :: m[key]
  }

  lemma MergeOneMore(base: map<string, Json>, override: map<string, Json>, done: set<string>, key: string)
    requires key in override
    ensures Merge(base, Restrict(override, done + {key}))
         == Merge(base, Restrict(override, done))[key := MergeAt(base, override, key)]
  {
    var r, r' := Restrict(override, done), Restrict(override, done + {key});
    var m, m' := Merge(base, r), Merge(base, r');
    forall k
      ensures k in m' <==> k == key || k in m
    {
      MergedAt(base, override, done, k);
      MergedAt(base, override, done + {key}, k);
    }
    assert m'.Keys == m.Keys + {key};
    forall k | k in m'
      ensures m'[k] == if k == key then MergeAt(base, override, key) else m[k]
    {
      MergedAt(base, override, done, k);
      MergedAt(base, override, done + {key}, k);
    }
  }

  lemma MergedAt(base: map<string, Json>, override: map<string, Json>, keys: set<string>, k: string)
    ensures
      var m := Merge(base, Restrict(override, keys));
      && (k in m <==> k in base || (k in override && k in keys))
      && (k in override && k in keys ==> m[k] == MergeAt(base, override, k))
      && (k in base && !(k in override && k in keys) ==> m[k] == base[k])
  {
    var r := Restrict(override, keys);
    assert k in r ==> MergeAt(base, r, k) == MergeAt(base, override, k);
  }

  // ---------------------------------------------------------------------------------------
  // What a merged configuration says at any key path
  // ---------------------------------------------------------------------------------------

  /** A walk down a key path: it arrives, or it finds a key missing, or a value that is no
      dict bars the way. */
  datatype Walk = Arrived(value: Json) | Missing | Barred

  function At(j: Json, path: seq<string>): Walk {
    if path == [] then Arrived(j)
    else if j.Scalar? then Barred
    else if path[0] !in j.items then Missing
    else At(j.items[path[0]], path[1..])
  }

  /** What the merge must answer, from the two walks alone. */
  function Expected(base: Walk, override: Walk): Option<Json> {
    match override
    case Arrived(Node(o)) =>
      if base.Arrived? && base.value.Node? then Some(Node(Merge(base.value.items, o))) else Some(Node(o))
    case Arrived(leaf) => Some(leaf)
    case Missing => if base.Arrived? then Some(base.value) else None
    case Barred => None
  }

  function Found(w: Walk): Option<Json> {
    if w.Arrived? then Some(w.value) else None
  }

  /** At every key path: where the override holds a value the merge holds it too (dicts over
      dicts merged), where the override is silent the base shows through, and a value of the
      override that is no dict hides all the base has below it. */
  lemma {:induction false} MergeMeaning(base: map<string, Json>, override: map<string, Json>, path: seq<string>)
    ensures Found(At(Node(Merge(base, override)), path)) == Expected(At(Node(base), path), At(Node(override), path))
    decreases |path|
  {
    if path != [] {
      var key, rest := path[0], path[1..];
      if key in override && override[key].Node? && key in base && base[key].Node? {
        MergeMeaning(base[key].items, override[key].items, rest);
      }
    }
  }

  lemma {:induction false} MergeEmpty(a: map<string, Json>)
    ensures Merge(a, map[]) == a && Merge(map[], a) == a
  {
    assert Merge(a, map[]).Keys == a.Keys;
    assert Merge(map[], a).Keys == a.Keys;
  }

  /** Laying the same override twice changes nothing more, and a configuration laid over
      itself is itself. */
  lemma {:induction false} MergeIdempotent(a: map<string, Json>, b: map<string, Json>)
    ensures Merge(Merge(a, b), b) == Merge(a, b)
    ensures Merge(b, b) == b
    decreases Node(b)
  {
    var m := Merge(a, b);
    forall key | key in b && b[key].Node?
      ensures Merge(b[key].items, b[key].items) == b[key].items
      ensures m[key].Node? && Merge(m[key].items, b[key].items) == m[key].items
    {
      assert m[key] == MergeAt(a, b, key);
      var below := if key in a && a[key].Node? then a[key].items else map[];
      MergeIdempotent(below, b[key].items);
      MergeEmpty(b[key].items);
    }
    assert Merge(m, b).Keys == m.Keys;
    assert Merge(b, b).Keys == b.Keys;
  }
}
