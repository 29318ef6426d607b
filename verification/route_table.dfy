/** `MQ::NamedRouteCollection`: a Ruby Hash from the normalised topic name to
    the list of bindings for that name. A Ruby Hash remembers insertion order,
    so the model keeps the keys in the order they were first added next to the
    map itself. */
module RouteTable {
  import opened Wrappers
  import opened Names
  import opened Topics

  datatype Collection = Collection(keys: seq<string>, table: map<string, seq<Topic>>)

  /** The keys list is exactly the table's key set, without repetition. */
  ghost predicate Valid(c: Collection) {
    && (forall i, j :: 0 <= i < j < |c.keys| ==> c.keys[i] != c.keys[j])
    && (forall k :: k in c.table <==> k in c.keys)
  }

  /** `NamedRouteCollection.new`. */
  function Empty(): (c: Collection)
    ensures Valid(c)
    ensures forall k :: k !in c.table
  {
    Collection([], map[])
  }

  /** The list under `key`, or the empty list when the key was never added. */
  function Lookup(c: Collection, key: string): seq<Topic> {
    if key in c.table then c.table[key] else []
  }

  /** `add(name, topic)`: `@routes[name.to_s] ||= []` followed by `<< topic`. */
  function Add(c: Collection, name: Name, t: Topic): (r: Collection)
    ensures ToS(name) in r.table
    ensures r.table[ToS(name)] == Lookup(c, ToS(name)) + [t]
    ensures forall k :: k != ToS(name) ==> (k in r.table <==> k in c.table)
    ensures forall k :: k != ToS(name) && k in c.table ==> r.table[k] == c.table[k]
    ensures ToS(name) in c.table ==> r.keys == c.keys
    ensures ToS(name) !in c.table ==> r.keys == c.keys + [ToS(name)]
    ensures Valid(c) ==> Valid(r)
  {
    var key := ToS(name);
    if key in c.table then
      Collection(c.keys, c.table[key := c.table[key] + [t]])
    else
      Collection(c.keys + [key], c.table[key := [t]])
  }

  /** `[](name)`: the list under `name.to_s`, or nil when none was added. */
  function Get(c: Collection, name: Name): (r: Option<seq<Topic>>)
    ensures r.Some? <==> ToS(name) in c.table
    ensures r.Some? ==> r.value == c.table[ToS(name)]
    ensures r.None? ==> Lookup(c, ToS(name)) == []
  {
    if ToS(name) in c.table then Some(c.table[ToS(name)]) else None
  }

  /** `all`: the hash's entries in insertion order. */
  function All(c: Collection): (entries: seq<(string, seq<Topic>)>)
    requires Valid(c)
    ensures |entries| == |c.keys|
    ensures forall i :: 0 <= i < |entries| ==> entries[i].0 == c.keys[i]
    ensures forall k :: k in c.table <==> exists i :: 0 <= i < |entries| && entries[i].0 == k
    ensures forall i :: 0 <= i < |entries| ==> entries[i].1 == c.table[entries[i].0]
  {
    seq(|c.keys|, i requires 0 <= i < |c.keys| => (c.keys[i], c.table[c.keys[i]]))
  }

  /** A Symbol and a String with the same text address the same entry, both
      when adding and when reading. */
  lemma SymbolAndStringAgree(c: Collection, s: string, t: Topic)
    ensures Add(c, Sym(s), t) == Add(c, Str(s), t)
    ensures Get(c, Sym(s)) == Get(c, Str(s))
  {
  }

  /** The topics of `ts` stored under `key`, in order. */
  function Filter(ts: seq<Topic>, key: string): (r: seq<Topic>)
    ensures |r| <= |ts|
    ensures forall t :: t in r ==> t in ts && t.name == key
  {
    if ts == [] then []
    else (if ts[0].name == key then [ts[0]] else []) + Filter(ts[1..], key)
  }

  lemma {:induction false} FilterConcat(a: seq<Topic>, b: seq<Topic>, key: string)
    ensures Filter(a + b, key) == Filter(a, key) + Filter(b, key)
  {
    if a == [] {
      assert a + b == b;
    } else {
      assert (a + b)[1..] == a[1..] + b;
      FilterConcat(a[1..], b, key);
    }
  }

  /** Adding each topic of `ts` under its own name, in order. */
  function AddAll(c: Collection, ts: seq<Topic>): Collection
    decreases ts
  {
    if ts == [] then c else AddAll(Add(c, Str(ts[0].name), ts[0]), ts[1..])
  }

  /** After adding a whole list, every key holds its old bindings followed by
      the list's bindings for that key in list order; nothing is replaced. */
  lemma {:induction false} AddAllGroups(c: Collection, ts: seq<Topic>, key: string)
    ensures Lookup(AddAll(c, ts), key) == Lookup(c, key) + Filter(ts, key)
    ensures Valid(c) ==> Valid(AddAll(c, ts))
    decreases ts
  {
    if ts != [] {
      var c' := Add(c, Str(ts[0].name), ts[0]);
      AddAllGroups(c', ts[1..], key);
      assert Lookup(c', key) == Lookup(c, key) + (if ts[0].name == key then [ts[0]] else []);
    }
  }

  lemma {:induction false} AddAllConcat(c: Collection, a: seq<Topic>, b: seq<Topic>)
    ensures AddAll(c, a + b) == AddAll(AddAll(c, a), b)
    decreases a
  {
    if a == [] {
      assert a + b == b;
    } else {
      assert (a + b)[1..] == a[1..] + b;
      AddAllConcat(Add(c, Str(a[0].name), a[0]), a[1..], b);
    }
  }
}
