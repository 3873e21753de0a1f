/** The reactive store (GameState): a record of top-level fields behind a
    write trap that notifies the listeners of the written field, a
    shallow merge of a saved record over the defaults, and the replay of
    one notification per field after loading.

    Listeners are callbacks in the game; here each is an opaque id and
    every call made to a listener is logged as a `Call`, so that who was
    called, with what and in which order is part of the state. */
module Reactive {

  /** A JSON value, as held by the record and by a parsed save. */
  datatype Value =
    | Null
    | Bool(b: bool)
    | Num(n: real)
    | Str(s: string)
    | Arr(items: seq<Value>)
    | Obj(fields: map<string, Value>)

  /** Identity of a subscribed callback. */
  type ListenerId = nat

  /** One invocation of `listener` with `value`, made by a notification of `field`. */
  datatype Call = Call(field: string, listener: ListenerId, value: Value)

  /** What the save slot yields: nothing stored (or an empty string), text that
      does not parse, or the members of the parsed object in text order. */
  datatype Saved = NoSave | Corrupt | Parsed(members: seq<(string, Value)>)

  predicate Distinct(o: seq<string>) {
    forall i, j :: 0 <= i < j < |o| ==> o[i] != o[j]
  }

  /** `k` appears in the enumeration order `o`. */
  ghost predicate Listed(k: string, o: seq<string>) {
    k in o
  }

  /** `o` lists the keys of `d` once each: it is their enumeration order.
      (The quantifier fires only on Listed, so that a record's lookups do
      not set it off; KeysListedIff states it on plain membership.) */
  ghost predicate KeysListed(d: map<string, Value>, o: seq<string>) {
    (forall k {:trigger Listed(k, o)} :: k in d <==> Listed(k, o)) && Distinct(o)
  }

  lemma KeysListedIff(d: map<string, Value>, o: seq<string>)
    ensures KeysListed(d, o) <==> (forall k :: k in d <==> k in o) && Distinct(o)
  {
    if (forall k :: k in d <==> k in o) && Distinct(o) {
      forall k ensures k in d <==> Listed(k, o) {
      }
    }
    if KeysListed(d, o) {
      forall k ensures k in d <==> k in o {
        assert k in d <==> Listed(k, o);
      }
    }
  }

  /** Enumeration order of the default record. */
  const DefaultOrder: seq<string> := ["coins", "water", "maxWater", "burnedPercent", "upgrades", "lastSave"]

  /** The default record; `now` is the clock reading taken at construction. */
  function Defaults(now: real): (d: map<string, Value>)
    ensures KeysListed(d, DefaultOrder)
  {
    map[
      "coins" := Num(0.0),
      "water" := Num(100.0),
      "maxWater" := Num(100.0),
      "burnedPercent" := Num(0.0),
      "upgrades" := Obj(map["pump" := Num(1.0), "tank" := Num(1.0)]),
      "lastSave" := Num(now)
    ]
  }

  // ---------------------------------------------------------------------
  // Notification

  /** The calls made by notifying field `p` with `v`: each listener of `p`,
      in subscription order; none when `p` has no listeners. */
  function Dispatch(listeners: map<string, seq<ListenerId>>, p: string, v: Value): seq<Call> {
    if p in listeners then
      seq(|listeners[p]|, i requires 0 <= i < |listeners[p]| => Call(p, listeners[p][i], v))
    else []
  }

  /** The calls made by notifying every key of `keys`, in order, with its value in `d`. */
  function Replay(keys: seq<string>, d: map<string, Value>, listeners: map<string, seq<ListenerId>>): seq<Call>
    requires forall k :: k in keys ==> k in d
    decreases |keys|
  {
    if keys == [] then []
    else
      var last := keys[|keys| - 1];
      Replay(keys[..|keys| - 1], d, listeners) + Dispatch(listeners, last, d[last])
  }

  /** With nobody subscribed, replaying the keys calls nobody. */
  lemma {:induction false} ReplayWithoutListeners(keys: seq<string>, d: map<string, Value>)
    requires forall k :: k in keys ==> k in d
    ensures Replay(keys, d, map[]) == []
    decreases |keys|
  {
    if keys != [] {
      ReplayWithoutListeners(keys[..|keys| - 1], d);
    }
  }

  /** The calls in `cs` made by notifications of field `p`, in order. */
  function OnField(cs: seq<Call>, p: string): seq<Call>
    decreases |cs|
  {
    if cs == [] then []
    else OnField(cs[..|cs| - 1], p) + (if cs[|cs| - 1].field == p then [cs[|cs| - 1]] else [])
  }

  lemma {:induction false} OnFieldConcat(a: seq<Call>, b: seq<Call>, p: string)
    ensures OnField(a + b, p) == OnField(a, p) + OnField(b, p)
    decreases |b|
  {
    if b != [] {
      assert (a + b)[..|a + b| - 1] == a + b[..|b| - 1];
      OnFieldConcat(a, b[..|b| - 1], p);
    } else {
      assert a + b == a;
    }
  }

  lemma {:induction false} OnFieldAllOrNone(cs: seq<Call>, p: string, q: string)
    requires forall i :: 0 <= i < |cs| ==> cs[i].field == q
    ensures OnField(cs, p) == if p == q then cs else []
    decreases |cs|
  {
    if cs != [] {
      OnFieldAllOrNone(cs[..|cs| - 1], p, q);
    }
  }

  /** Notifying `p` calls only listeners of `p`, each with `v`, in
      subscription order; no call is attributed to any other field. */
  lemma DispatchReachesOnlyField(listeners: map<string, seq<ListenerId>>, p: string, v: Value, q: string)
    ensures OnField(Dispatch(listeners, p, v), q) == if q == p then Dispatch(listeners, p, v) else []
    ensures |Dispatch(listeners, p, v)| == if p in listeners then |listeners[p]| else 0
    ensures forall i :: 0 <= i < |Dispatch(listeners, p, v)| ==>
              Dispatch(listeners, p, v)[i].listener == listeners[p][i] && Dispatch(listeners, p, v)[i].value == v
  {
    OnFieldAllOrNone(Dispatch(listeners, p, v), q, p);
  }

  /** Replaying distinct keys notifies each key exactly once: the calls made
      for `p` are exactly one dispatch of its value, or none if `p` is not a key. */
  lemma {:induction false} ReplayNotifiesEachKeyOnce(
    keys: seq<string>, d: map<string, Value>, listeners: map<string, seq<ListenerId>>, p: string)
    requires forall k :: k in keys ==> k in d
    requires Distinct(keys)
    ensures OnField(Replay(keys, d, listeners), p) == if p in keys then Dispatch(listeners, p, d[p]) else []
    decreases |keys|
  {
    if keys != [] {
      var init, last := keys[..|keys| - 1], keys[|keys| - 1];
      assert keys == init + [last];
      ReplayNotifiesEachKeyOnce(init, d, listeners, p);
      OnFieldConcat(Replay(init, d, listeners), Dispatch(listeners, last, d[last]), p);
      DispatchReachesOnlyField(listeners, last, d[last], p);
      if p == last {
        assert p !in init;
      }
    }
  }

  // ---------------------------------------------------------------------
  // Saving and loading

  /** Object.assign: copy the members over `d` left to right, a later member
      overwriting an earlier one and the default. */
  function Assign(d: map<string, Value>, ms: seq<(string, Value)>): map<string, Value>
    decreases |ms|
  {
    if ms == [] then d else Assign(d[ms[0].0 := ms[0].1], ms[1..])
  }

  /** The enumeration order after Object.assign: keys new to `d` are appended
      in the order they are first met, known keys keep their place. */
  function AssignOrder(d: map<string, Value>, o: seq<string>, ms: seq<(string, Value)>): seq<string>
    decreases |ms|
  {
    if ms == [] then o
    else AssignOrder(d[ms[0].0 := ms[0].1], if ms[0].0 in d then o else o + [ms[0].0], ms[1..])
  }

  /** The record after loading `saved` over `d`: only a parsed save changes it. */
  function Merged(d: map<string, Value>, saved: Saved): map<string, Value> {
    match saved
    case Parsed(ms) => Assign(d, ms)
    case _ => d
  }

  function MergedOrder(d: map<string, Value>, o: seq<string>, saved: Saved): seq<string> {
    match saved
    case Parsed(ms) => AssignOrder(d, o, ms)
    case _ => o
  }

  /** The members the save writes: every key with its value, in enumeration order. */
  function Snapshot(d: map<string, Value>, o: seq<string>): seq<(string, Value)>
    requires forall k :: k in o ==> k in d
    decreases |o|
  {
    if o == [] then [] else [(o[0], d[o[0]])] + Snapshot(d, o[1..])
  }

  /** The save lists the keys of `o` in order, each with its value in `d`. */
  lemma {:induction false} SnapshotLists(d: map<string, Value>, o: seq<string>)
    requires forall k :: k in o ==> k in d
    ensures |Snapshot(d, o)| == |o|
    ensures forall i :: 0 <= i < |o| ==> Snapshot(d, o)[i] == (o[i], d[o[i]])
    decreases |o|
  {
    if o != [] {
      SnapshotLists(d, o[1..]);
    }
  }

  /** Merging keeps the record's keys listed once each in enumeration order. */
  lemma {:induction false} AssignKeepsKeysListed(d: map<string, Value>, o: seq<string>, ms: seq<(string, Value)>)
    requires KeysListed(d, o)
    ensures KeysListed(Assign(d, ms), AssignOrder(d, o, ms))
    decreases |ms|
  {
    if ms != [] {
      var (k, v) := ms[0];
      var o' := if k in d then o else o + [k];
      assert KeysListed(d[k := v], o') by {
        KeysListedIff(d, o);
        KeysListedIff(d[k := v], o');
        if k !in d {
          forall i, j | 0 <= i < j < |o'| ensures o'[i] != o'[j] {
            if j == |o| {
              assert o'[i] in d;
            }
          }
        }
      }
      AssignKeepsKeysListed(d[k := v], o', ms[1..]);
    }
  }

  /** A key the save does not mention keeps its default value. */
  lemma {:induction false} AssignKeepsUnsaved(d: map<string, Value>, ms: seq<(string, Value)>, k: string)
    requires k in d
    requires forall i :: 0 <= i < |ms| ==> ms[i].0 != k
    ensures k in Assign(d, ms) && Assign(d, ms)[k] == d[k]
    decreases |ms|
  {
    if ms != [] {
      AssignKeepsUnsaved(d[ms[0].0 := ms[0].1], ms[1..], k);
    }
  }

  /** A key the save mentions takes the value of its last mention. */
  lemma {:induction false} AssignTakesLastSaved(d: map<string, Value>, ms: seq<(string, Value)>, j: nat)
    requires j < |ms|
    requires forall i :: j < i < |ms| ==> ms[i].0 != ms[j].0
    ensures ms[j].0 in Assign(d, ms) && Assign(d, ms)[ms[j].0] == ms[j].1
    decreases |ms|
  {
    if j == 0 {
      AssignKeepsUnsaved(d[ms[0].0 := ms[0].1], ms[1..], ms[0].0);
    } else {
      AssignTakesLastSaved(d[ms[0].0 := ms[0].1], ms[1..], j - 1);
    }
  }

  /** Merging a save of `d` over `d0`, key by key: a saved key takes its
      value in `d`, any other key of `d0` keeps its value, and nothing else
      appears. */
  lemma {:induction false} AssignSnapshotAt(d0: map<string, Value>, d: map<string, Value>, o: seq<string>, k: string)
    requires forall k :: k in o ==> k in d
    ensures k in Assign(d0, Snapshot(d, o)) <==> k in d0 || k in o
    ensures k in o ==> Assign(d0, Snapshot(d, o))[k] == d[k]
    ensures k !in o && k in d0 ==> Assign(d0, Snapshot(d, o))[k] == d0[k]
    decreases |o|
  {
    if o != [] {
      var ms := Snapshot(d, o);
      assert ms[0] == (o[0], d[o[0]]) && ms[1..] == Snapshot(d, o[1..]);
      assert k in o <==> k == o[0] || k in o[1..];
      AssignSnapshotAt(d0[o[0] := d[o[0]]], d, o[1..], k);
    }
  }

  /** Loading what was saved restores every field exactly, provided the
      defaults have no key the saved record lacks. */
  lemma SaveLoadRoundTrip(defaults: map<string, Value>, d: map<string, Value>, o: seq<string>)
    requires forall k :: k in d <==> k in o
    requires defaults.Keys <= d.Keys
    ensures Assign(defaults, Snapshot(d, o)) == d
  {
    var r := Assign(defaults, Snapshot(d, o));
    forall k ensures k in r <==> k in d {
      AssignSnapshotAt(defaults, d, o, k);
    }
    forall k | k in r ensures r[k] == d[k] {
      AssignSnapshotAt(defaults, d, o, k);
    }
  }

  lemma {:induction false} NewKeysAppended(
    dc: map<string, Value>, oc: seq<string>, d: map<string, Value>, added: seq<string>)
    requires forall k :: k in added ==> k in d
    requires Distinct(added) && forall k :: k in added ==> k !in dc
    ensures AssignOrder(dc, oc, Snapshot(d, added)) == oc + added
    decreases |added|
  {
    if added == [] {
      assert oc + added == oc;
    } else {
      var k := added[0];
      var ms := Snapshot(d, added);
      assert ms[0] == (k, d[k]) && ms[1..] == Snapshot(d, added[1..]);
      assert AssignOrder(dc, oc, ms) == AssignOrder(dc[k := d[k]], oc + [k], ms[1..]);
      assert forall k' :: k' in added[1..] ==> k' in added;
      assert forall k' :: k' in added[1..] ==> k' != k;
      NewKeysAppended(dc[k := d[k]], oc + [k], d, added[1..]);
      assert oc + [k] + added[1..] == oc + added;
    }
  }

  lemma {:induction false} KnownKeysKeepPlace(
    dc: map<string, Value>, oc: seq<string>, d: map<string, Value>, known: seq<string>, added: seq<string>)
    requires forall k :: k in known + added ==> k in d
    requires forall k :: k in known ==> k in dc
    requires Distinct(added) && forall k :: k in added ==> k !in dc
    ensures AssignOrder(dc, oc, Snapshot(d, known + added)) == oc + added
    decreases |known|
  {
    if known == [] {
      assert known + added == added;
      NewKeysAppended(dc, oc, d, added);
    } else {
      var k := known[0];
      var ms := Snapshot(d, known + added);
      assert (known + added)[1..] == known[1..] + added;
      assert ms[0] == (k, d[k]) && ms[1..] == Snapshot(d, known[1..] + added);
      assert AssignOrder(dc, oc, ms) == AssignOrder(dc[k := d[k]], oc, ms[1..]);
      KnownKeysKeepPlace(dc[k := d[k]], oc, d, known[1..], added);
    }
  }

  /** Loading what was saved also restores the enumeration order, when that
      order starts with the defaults' keys. */
  lemma SaveLoadKeepsOrder(
    defaults: map<string, Value>, defaultOrder: seq<string>, d: map<string, Value>, o: seq<string>)
    requires forall k :: k in defaults <==> k in defaultOrder
    requires (forall k :: k in d <==> k in o) && Distinct(o)
    requires |defaultOrder| <= |o| && o[..|defaultOrder|] == defaultOrder
    ensures AssignOrder(defaults, defaultOrder, Snapshot(d, o)) == o
  {
    var added := o[|defaultOrder|..];
    assert o == defaultOrder + added;
    forall k | k in added ensures k !in defaults {
      var j :| 0 <= j < |added| && added[j] == k;
      assert o[|defaultOrder| + j] == k;
    }
    forall i, j | 0 <= i < j < |added| ensures added[i] != added[j] {
      assert o[|defaultOrder| + i] != o[|defaultOrder| + j];
    }
    KnownKeysKeepPlace(defaults, defaultOrder, d, defaultOrder, added);
  }

  /** Shallow merge: whatever object a save holds last under `upgrades`
      replaces the default one whole, so a default level the save omits
      is gone. */
  lemma MergeIsShallow(now: real, ms: seq<(string, Value)>, j: nat, f: map<string, Value>)
    requires j < |ms| && ms[j] == ("upgrades", Obj(f))
    requires forall i :: j < i < |ms| ==> ms[i].0 != "upgrades"
    ensures var d := Assign(Defaults(now), ms);
            && "upgrades" in d && d["upgrades"] == Obj(f)
            && ("tank" !in f ==> "tank" !in d["upgrades"].fields)
            && ("pump" !in f ==> "pump" !in d["upgrades"].fields)
  {
    AssignTakesLastSaved(Defaults(now), ms, j);
  }

  // ---------------------------------------------------------------------
  // The store

  class GameState {
    /** The record behind the trap. */
    var data: map<string, Value>
    /** Enumeration order of the record's keys. */
    var order: seq<string>
    /** For each field, its listeners in subscription order. */
    var listeners: map<string, seq<ListenerId>>
    /** Every listener call made so far, oldest first. */
    var calls: seq<Call>

    ghost predicate Valid()
      reads this
    {
      KeysListed(data, order)
    }

    /** The default record and no listeners; `now` is the clock at construction. */
    constructor (now: real)
      ensures Valid()
      ensures data == Defaults(now) && order == DefaultOrder
      ensures listeners == map[] && calls == []
    {
      data := Defaults(now);
      order := DefaultOrder;
      listeners := map[];
      calls := [];
    }

    function ListenersOf(p: string): seq<ListenerId>
      reads this
    {
      if p in listeners then listeners[p] else []
    }

    /** Register `callback` for field `p`, after its earlier listeners. */
    method Subscribe(p: string, callback: ListenerId)
      modifies this`listeners
      ensures listeners == old(listeners)[p := old(ListenersOf(p)) + [callback]]
    {
      listeners := listeners[p := ListenersOf(p) + [callback]];
    }

    /** Call every listener of `p` with `v`, in subscription order. */
    method Notify(p: string, v: Value)
      modifies this`calls
      ensures calls == old(calls) + Dispatch(listeners, p, v)
    {
      if p in listeners {
        var ls := listeners[p];
        var i := 0;
        while i < |ls|
          invariant 0 <= i <= |ls|
          invariant calls == old(calls) + Dispatch(listeners, p, v)[..i]
        {
          assert Dispatch(listeners, p, v)[..i + 1] == Dispatch(listeners, p, v)[..i] + [Call(p, ls[i], v)];
          calls := calls + [Call(p, ls[i], v)];
          i := i + 1;
        }
        assert Dispatch(listeners, p, v)[..|ls|] == Dispatch(listeners, p, v);
      }
    }

    /** The write trap: store `v` under `p`, then notify `p`'s listeners. */
    method Set(p: string, v: Value)
      requires Valid()
      modifies this`data, this`order, this`calls
      ensures Valid()
      ensures data == old(data)[p := v]
      ensures order == if p in old(data) then old(order) else old(order) + [p]
      ensures calls == old(calls) + Dispatch(listeners, p, v)
    {
      KeysListedIff(data, order);
      if p !in data {
        forall i, j | 0 <= i < j < |order + [p]| ensures (order + [p])[i] != (order + [p])[j] {
          if j == |order| {
            assert (order + [p])[i] in data;
          }
        }
        order := order + [p];
      }
      data := data[p := v];
      KeysListedIff(data, order);
      Notify(p, v);
    }

    /** A write into the object held by field `p` (such as incrementing one
      upgrade level): the trap sees only top-level writes, so no listener is called. */
    method SetNested(p: string, key: string, v: Value)
      requires Valid() && p in data && data[p].Obj?
      modifies this`data
      ensures Valid()
      ensures data == old(data)[p := Obj(old(data)[p].fields[key := v])]
    {
      data := data[p := Obj(data[p].fields[key := v])];
    }

    /** Merge the saved record, if any parses, shallowly over the current one,
        then notify every field once, in enumeration order. */
    method Load(saved: Saved)
      requires Valid()
      modifies this`data, this`order, this`calls
      ensures Valid() && forall k :: k in order ==> k in data
      ensures data == Merged(old(data), saved)
      ensures order == MergedOrder(old(data), old(order), saved)
      ensures calls == old(calls) + Replay(order, data, listeners)
    {
      if saved.Parsed? {
        AssignKeepsKeysListed(data, order, saved.members);
        data, order := Assign(data, saved.members), AssignOrder(data, order, saved.members);
      }
      KeysListedIff(data, order);
      NotifyAll();
    }

    /** Notify every field once with its current value, in enumeration order. */
    method NotifyAll()
      requires forall k :: k in order ==> k in data
      modifies this`calls
      ensures calls == old(calls) + Replay(order, data, listeners)
    {
      var keys := order;
      var i := 0;
      while i < |keys|
        invariant 0 <= i <= |keys|
        invariant calls == old(calls) + Replay(keys[..i], data, listeners)
      {
        var k := keys[i];
        assert keys[..i + 1][..i] == keys[..i] && keys[..i + 1][i] == k;
        assert Replay(keys[..i + 1], data, listeners) == Replay(keys[..i], data, listeners) + Dispatch(listeners, k, data[k]);
        Notify(k, data[k]);
        i := i + 1;
      }
      assert keys[..|keys|] == keys;
    }

    /** The members that saving writes out: every field once, with its
        current value, in enumeration order. */
    function Save(): (ms: seq<(string, Value)>)
      reads this
      requires Valid()
      ensures |ms| == |order|
      ensures forall i :: 0 <= i < |ms| ==> ms[i].0 == order[i] && ms[i].0 in data && ms[i].1 == data[ms[i].0]
      ensures forall k :: k in data <==> exists i :: 0 <= i < |ms| && ms[i].0 == k
    {
      KeysListedIff(data, order);
      SnapshotLists(data, order);
      Snapshot(data, order)
    }
  }
}
