/**
 * The part of the JavaScript object model that the error library relies on:
 * property keys, values, own properties with their enumerable flag, the
 * ordered own-key list, and the built-in operations the library calls
 * (property assignment, `Object.defineProperty` of a getter, `delete`,
 * `Object.keys`, `Reflect.ownKeys` and `Object.assign`).
 *
 * An object's own properties are a `Shape`: the keys in creation order and
 * a table from key to property.  Pure functions on shapes give the meaning
 * of each built-in; the class `JsObject` holds a shape in its one mutable
 * field `own` and its methods are proved against those functions.
 */
module JsObjects {

  datatype Option<+T> = None | Some(value: T)

  /** A property key: a string, or a symbol (symbols are told apart by identity). */
  datatype Key = Named(name: string) | Symbol(id: nat)

  const NameKey: Key := Named("name")
  const MessageKey: Key := Named("message")
  const StackKey: Key := Named("stack")
  const CauseKey: Key := Named("cause")
  const CauseChainKey: Key := Named("causeChain")

  /** A JavaScript value.  `Hidden(target)` is a cause-hiding view over
      `target`; `Array(items)` is an array value; `Function(id)` is a
      function or class, whose behaviour, when called, is supplied by the
      caller of the model. Numbers are restricted to integers. */
  datatype Value =
    | Undefined
    | Null
    | Bool(b: bool)
    | Num(n: int)
    | Str(s: string)
    | Function(id: nat)
    | Object(ref: JsObject)
    | Hidden(target: JsObject)
    | Array(items: seq<Value>)

  /** An own property.  A getter records the object and key it forwards to,
      together with the value that reading it yields. */
  datatype Property =
    | Data(value: Value, enumerable: bool)
    | Getter(source: JsObject, key: Key, value: Value, enumerable: bool)

  datatype Layout = Layout(keys: seq<Key>, props: map<Key, Property>)

  /** Own keys are listed once each, and exactly the keys of the property table are listed. */
  predicate WellFormed(l: Layout) {
    && (forall i, j | 0 <= i < j < |l.keys| :: l.keys[i] != l.keys[j])
    && (forall k | k in l.props :: k in l.keys)
    && (forall k | k in l.keys :: k in l.props)
  }

  /** The own properties of an object. */
  type Shape = l: Layout | WellFormed(l) witness Layout([], map[])

  const EmptyShape: Shape := Layout([], map[])

  /** Everything a reader can observe of an object: whether it is an `Error`
      instance, the data values it inherits from its prototype chain, and
      its own properties. */
  datatype Snapshot = Snapshot(isError: bool, inherited: map<Key, Value>, own: Shape)

  /** What `Error.prototype` supplies to an error that does not own a `name` or `message`. */
  const ErrorPrototype: map<Key, Value> := map[NameKey := Str("Error"), MessageKey := Str("")]

  /** A plain object with the given own properties (an object literal). */
  function PlainObject(own: Shape): Snapshot {
    Snapshot(false, map[], own)
  }

  /** The objects a value refers to directly. */
  function Referenced(v: Value): set<JsObject> {
    match v
    case Object(o) => {o}
    case Hidden(t) => {t}
    case _ => {}
  }

  /** Decimal digits of a natural number, as `String(n)` writes them. */
  function NatToString(n: nat): (r: string)
    ensures |r| > 0
    ensures forall i | 0 <= i < |r| :: '0' <= r[i] <= '9'
  {
    var d := ['0', '1', '2', '3', '4', '5', '6', '7', '8', '9'][n % 10];
    if n < 10 then [d] else NatToString(n / 10) + [d]
  }

  /** `String(v)` for the values the library turns into text.  Objects,
      arrays and functions stand for their host-defined text by a fixed
      placeholder. */
  function Display(v: Value): string {
    match v
    case Undefined => "undefined"
    case Null => "null"
    case Bool(b) => if b then "true" else "false"
    case Num(n) => if n < 0 then "-" + NatToString(-n) else NatToString(n)
    case Str(s) => s
    case _ => "[object]"
  }

  predicate Owns(s: Shape, k: Key) {
    k in s.props
  }

  /** `o[k]`: an own property's value, else the inherited value, else undefined. */
  function Lookup(o: Snapshot, k: Key): (v: Value)
    ensures Owns(o.own, k) ==> v == o.own.props[k].value
    ensures !Owns(o.own, k) && k !in o.inherited ==> v == Undefined
  {
    if k in o.own.props then o.own.props[k].value
    else if k in o.inherited then o.inherited[k]
    else Undefined
  }

  /** The keys of `ks` that are not `k`, in order. */
  function Without(ks: seq<Key>, k: Key): (r: seq<Key>)
    ensures forall j :: j in r <==> j in ks && j != k
    ensures |r| <= |ks|
  {
    if ks == [] then []
    else if ks[0] == k then Without(ks[1..], k)
    else [ks[0]] + Without(ks[1..], k)
  }

  lemma {:induction false} WithoutDistinct(ks: seq<Key>, k: Key)
    requires forall i, j | 0 <= i < j < |ks| :: ks[i] != ks[j]
    ensures forall i, j | 0 <= i < j < |Without(ks, k)| :: Without(ks, k)[i] != Without(ks, k)[j]
  {
    if ks != [] {
      var tail := ks[1..];
      assert forall i | 0 <= i < |tail| :: tail[i] == ks[i + 1];
      WithoutDistinct(tail, k);
      assert ks[0] !in tail;
      var rest := Without(tail, k);
      if ks[0] != k {
        var r := [ks[0]] + rest;
        assert Without(ks, k) == r;
        assert forall i | 0 < i < |r| :: r[i] == rest[i - 1] && r[i] in tail;
        forall i, j | 0 <= i < j < |r| ensures r[i] != r[j] {
          if i == 0 {
            assert r[j] in tail;
          } else {
            assert r[i] == rest[i - 1] && r[j] == rest[j - 1];
          }
        }
      }
    }
  }

  /** Property assignment `o[k] = v` on an ordinary object: an own property
      keeps its place and its enumerable flag and takes the new value; a key
      the object does not own is added at the end, enumerable. */
  function SetProp(s: Shape, k: Key, v: Value): (r: Shape)
    ensures Owns(r, k) && r.props[k] == Data(v, if Owns(s, k) then s.props[k].enumerable else true)
    ensures r.keys == if Owns(s, k) then s.keys else s.keys + [k]
    ensures forall j | j != k :: (Owns(r, j) <==> Owns(s, j)) && (Owns(s, j) ==> r.props[j] == s.props[j])
  {
    if k in s.props then
      Layout(s.keys, s.props[k := Data(v, s.props[k].enumerable)])
    else
      var l := Layout(s.keys + [k], s.props[k := Data(v, true)]);
      assert forall i | 0 <= i < |s.keys| :: l.keys[i] == s.keys[i];
      l
  }

  /** Defining a data property with an explicit enumerable flag: an own key keeps its place. */
  function DefineValue(s: Shape, k: Key, v: Value, enumerable: bool): (r: Shape)
    ensures Owns(r, k) && r.props[k] == Data(v, enumerable)
    ensures r.keys == if Owns(s, k) then s.keys else s.keys + [k]
    ensures forall j | j != k :: (Owns(r, j) <==> Owns(s, j)) && (Owns(s, j) ==> r.props[j] == s.props[j])
  {
    if k in s.props then
      Layout(s.keys, s.props[k := Data(v, enumerable)])
    else
      var l := Layout(s.keys + [k], s.props[k := Data(v, enumerable)]);
      assert forall i | 0 <= i < |s.keys| :: l.keys[i] == s.keys[i];
      l
  }

  /** `Object.defineProperty(o, k, {get: () => source[k], enumerable: true})` for a key `o` does not own. */
  function DefineGetter(s: Shape, k: Key, source: JsObject, v: Value): (r: Shape)
    requires !Owns(s, k)
    ensures r.keys == s.keys + [k]
    ensures r.props == s.props[k := Getter(source, k, v, true)]
  {
    var l := Layout(s.keys + [k], s.props[k := Getter(source, k, v, true)]);
    assert forall i | 0 <= i < |s.keys| :: l.keys[i] == s.keys[i];
    l
  }

  /** `delete o[k]`. */
  function Delete(s: Shape, k: Key): (r: Shape)
    ensures !Owns(r, k)
    ensures forall j | j != k :: (Owns(r, j) <==> Owns(s, j)) && (Owns(s, j) ==> r.props[j] == s.props[j])
    ensures r.keys == Without(s.keys, k)
  {
    WithoutDistinct(s.keys, k);
    var l := Layout(Without(s.keys, k), s.props - {k});
    assert forall j | j in l.keys :: j in l.props;
    assert forall j | j in l.props :: j in l.keys;
    l
  }

  /** The string keys of `ks`, in order. */
  function StringKeys(ks: seq<Key>): (r: seq<Key>)
    ensures forall k :: k in r <==> k in ks && k.Named?
  {
    if ks == [] then [] else (if ks[0].Named? then [ks[0]] else []) + StringKeys(ks[1..])
  }

  /** The symbol keys of `ks`, in order. */
  function SymbolKeys(ks: seq<Key>): (r: seq<Key>)
    ensures forall k :: k in r <==> k in ks && k.Symbol?
  {
    if ks == [] then [] else (if ks[0].Symbol? then [ks[0]] else []) + SymbolKeys(ks[1..])
  }

  /** `Reflect.ownKeys(o)`: string keys in creation order, then symbols in creation order. */
  function OwnKeys(s: Shape): (r: seq<Key>)
    ensures forall k :: k in r <==> Owns(s, k)
  {
    StringKeys(s.keys) + SymbolKeys(s.keys)
  }

  /** The members of `ks` that are enumerable string keys of `s`, in order. */
  function EnumerableNamed(s: Shape, ks: seq<Key>): (r: seq<Key>)
    ensures forall k :: k in r <==> k in ks && k.Named? && Owns(s, k) && s.props[k].enumerable
  {
    if ks == [] then []
    else
      (if ks[0].Named? && ks[0] in s.props && s.props[ks[0]].enumerable then [ks[0]] else [])
      + EnumerableNamed(s, ks[1..])
  }

  /** `Object.keys(o)`: the enumerable own string keys, in creation order. */
  function EnumerableKeys(s: Shape): (r: seq<Key>)
    ensures forall k :: k in r <==> k.Named? && Owns(s, k) && s.props[k].enumerable
  {
    EnumerableNamed(s, s.keys)
  }

  /** The members of `ks` that are enumerable own keys of `s`, each with its value. */
  function EntriesAt(s: Shape, ks: seq<Key>): seq<(Key, Value)>
  {
    if ks == [] then []
    else
      (if ks[0] in s.props && s.props[ks[0]].enumerable then [(ks[0], s.props[ks[0]].value)] else [])
      + EntriesAt(s, ks[1..])
  }

  /** Every entry is an enumerable own property with its value. */
  lemma {:induction false} EntriesAtSound(s: Shape, ks: seq<Key>)
    ensures forall i | 0 <= i < |EntriesAt(s, ks)| ::
      Owns(s, EntriesAt(s, ks)[i].0) && s.props[EntriesAt(s, ks)[i].0].enumerable
      && EntriesAt(s, ks)[i].1 == s.props[EntriesAt(s, ks)[i].0].value
  {
    if ks != [] {
      var head := if ks[0] in s.props && s.props[ks[0]].enumerable then [(ks[0], s.props[ks[0]].value)] else [];
      var rest := EntriesAt(s, ks[1..]);
      EntriesAtSound(s, ks[1..]);
      var r := EntriesAt(s, ks);
      assert r == head + rest;
      forall i | 0 <= i < |r|
        ensures Owns(s, r[i].0) && s.props[r[i].0].enumerable && r[i].1 == s.props[r[i].0].value
      {
        if i < |head| {
          assert r[i] == head[i];
        } else {
          assert r[i] == rest[i - |head|];
        }
      }
    }
  }

  /** Every enumerable own key among `ks` has an entry. */
  lemma {:induction false} EntriesAtComplete(s: Shape, ks: seq<Key>, k: Key)
    requires k in ks && Owns(s, k) && s.props[k].enumerable
    ensures exists i :: 0 <= i < |EntriesAt(s, ks)| && EntriesAt(s, ks)[i].0 == k
  {
    var head := if ks[0] in s.props && s.props[ks[0]].enumerable then [(ks[0], s.props[ks[0]].value)] else [];
    var rest := EntriesAt(s, ks[1..]);
    assert EntriesAt(s, ks) == head + rest;
    if ks[0] == k {
      assert EntriesAt(s, ks)[0].0 == k;
    } else {
      EntriesAtComplete(s, ks[1..], k);
      var i :| 0 <= i < |rest| && rest[i].0 == k;
      assert EntriesAt(s, ks)[|head| + i] == rest[i];
    }
  }

  /** What `Object.assign` reads from a source object: its enumerable own
      properties, in `Reflect.ownKeys` order, with their values. */
  function Entries(s: Shape): (r: seq<(Key, Value)>)
    ensures forall i | 0 <= i < |r| :: Owns(s, r[i].0) && s.props[r[i].0].enumerable && r[i].1 == s.props[r[i].0].value
    ensures forall k | Owns(s, k) && s.props[k].enumerable :: exists i :: 0 <= i < |r| && r[i].0 == k
  {
    var r := EntriesAt(s, OwnKeys(s));
    EntriesAtSound(s, OwnKeys(s));
    forall k | Owns(s, k) && s.props[k].enumerable
      ensures exists i :: 0 <= i < |r| && r[i].0 == k
    {
      assert k in OwnKeys(s);
      EntriesAtComplete(s, OwnKeys(s), k);
    }
    r
  }

  /** Assigning the entries one after another, as `Object.assign` does for one source. */
  function AssignEntries(s: Shape, es: seq<(Key, Value)>): Shape
  {
    if es == [] then s
    else SetProp(AssignEntries(s, es[..|es| - 1]), es[|es| - 1].0, es[|es| - 1].1)
  }

  /** The keys assigned by `es`. */
  function EntryKeys(es: seq<(Key, Value)>): (r: set<Key>)
    ensures forall k :: k in r <==> exists i :: 0 <= i < |es| && es[i].0 == k
  {
    if es == [] then {}
    else
      var r := EntryKeys(es[..|es| - 1]) + {es[|es| - 1].0};
      assert forall i | 0 <= i < |es| - 1 :: es[..|es| - 1][i] == es[i];
      r
  }

  /** The keys `Object.assign` copies from a source are its own enumerable keys. */
  lemma EntryKeysOfEntries(s: Shape)
    ensures forall k :: k in EntryKeys(Entries(s)) <==> Owns(s, k) && s.props[k].enumerable
  {
  }

  lemma EntriesOfEmpty()
    ensures Entries(EmptyShape) == []
  {
    assert OwnKeys(EmptyShape) == [];
  }

  /** When every assignment of `k` carries the same value `v`, `k` ends with `v`. */
  lemma {:induction false} AssignEntriesAgreeing(s: Shape, es: seq<(Key, Value)>, k: Key, v: Value)
    requires k in EntryKeys(es)
    requires forall i | 0 <= i < |es| && es[i].0 == k :: es[i].1 == v
    ensures Owns(AssignEntries(s, es), k) && AssignEntries(s, es).props[k].value == v
  {
    var n := |es| - 1;
    if es[n].0 != k {
      assert k in EntryKeys(es[..n]) by {
        var i :| 0 <= i < |es| && es[i].0 == k;
        assert es[..n][i] == es[i];
      }
      AssignEntriesAgreeing(s, es[..n], k, v);
    }
  }

  /** Assignment adds each assigned key that was not yet owned, and leaves
      every key it does not assign untouched. */
  lemma {:induction false} AssignEntriesFrame(s: Shape, es: seq<(Key, Value)>)
    ensures var r := AssignEntries(s, es);
      && (forall k :: Owns(r, k) <==> Owns(s, k) || k in EntryKeys(es))
      && (forall k | k !in EntryKeys(es) && Owns(s, k) :: r.props[k] == s.props[k])
      && (forall k | Owns(s, k) :: r.props[k].enumerable == s.props[k].enumerable)
  {
    if es != [] {
      AssignEntriesFrame(s, es[..|es| - 1]);
    }
  }

  /** A key the object did not own and the entries assign ends up owned and enumerable. */
  lemma {:induction false} AssignedFreshEnumerable(s: Shape, es: seq<(Key, Value)>, k: Key)
    requires !Owns(s, k) && k in EntryKeys(es)
    ensures Owns(AssignEntries(s, es), k) && AssignEntries(s, es).props[k].enumerable
  {
    var n := |es| - 1;
    if es[n].0 != k {
      assert k in EntryKeys(es[..n]) by {
        var i :| 0 <= i < |es| && es[i].0 == k;
        assert es[..n][i] == es[i];
      }
      AssignedFreshEnumerable(s, es[..n], k);
    } else if k in EntryKeys(es[..n]) {
      AssignedFreshEnumerable(s, es[..n], k);
    } else {
      AssignEntriesFrame(s, es[..n]);
    }
  }

  /** The keys that assigning `es` onto an object with own keys `ks` adds:
      the assigned keys not in `ks`, each once, in the order of their first
      assignment. */
  function NewKeys(ks: seq<Key>, es: seq<(Key, Value)>): (r: seq<Key>)
    ensures forall k :: k in r <==> k !in ks && k in EntryKeys(es)
  {
    if es == [] then []
    else
      var n := |es| - 1;
      var r := NewKeys(ks, es[..n]);
      if es[n].0 in ks || es[n].0 in r then r else r + [es[n].0]
  }

  /** `Object.assign` keeps the target's keys in place and appends the keys
      it adds in the order they are first assigned. */
  lemma {:induction false} AssignEntriesKeys(s: Shape, es: seq<(Key, Value)>)
    ensures AssignEntries(s, es).keys == s.keys + NewKeys(s.keys, es)
  {
    if es != [] {
      var n := |es| - 1;
      var prev := AssignEntries(s, es[..n]);
      AssignEntriesKeys(s, es[..n]);
      assert Owns(prev, es[n].0) <==> es[n].0 in s.keys + NewKeys(s.keys, es[..n]);
    }
  }

  /** New keys of two runs of assignments one after the other. */
  lemma {:induction false} NewKeysAppend(ks: seq<Key>, es1: seq<(Key, Value)>, es2: seq<(Key, Value)>)
    ensures NewKeys(ks, es1 + es2) == NewKeys(ks, es1) + NewKeys(ks + NewKeys(ks, es1), es2)
  {
    if es2 == [] {
      assert es1 + es2 == es1;
    } else {
      var n := |es2| - 1;
      NewKeysAppend(ks, es1, es2[..n]);
      assert (es1 + es2)[..|es1 + es2| - 1] == es1 + es2[..n];
      assert (es1 + es2)[|es1 + es2| - 1] == es2[n];
    }
  }

  /** The value a key ends with is the value of its last assignment. */
  lemma {:induction false} AssignEntriesLastWins(s: Shape, es: seq<(Key, Value)>, i: nat)
    requires i < |es|
    requires forall j | i < j < |es| :: es[j].0 != es[i].0
    ensures Owns(AssignEntries(s, es), es[i].0) && AssignEntries(s, es).props[es[i].0].value == es[i].1
  {
    if i < |es| - 1 {
      AssignEntriesLastWins(s, es[..|es| - 1], i);
    }
  }

  /** Assigning an object's own entries back onto it changes no value and no flag. */
  lemma {:induction false} AssignOwnEntriesKeepsValues(s: Shape, t: Shape, es: seq<(Key, Value)>)
    requires forall i | 0 <= i < |es| :: Owns(s, es[i].0) && es[i].1 == s.props[es[i].0].value
    requires forall k :: Owns(t, k) <==> Owns(s, k)
    requires forall k | k in s.props && k in t.props :: t.props[k].value == s.props[k].value && t.props[k].enumerable == s.props[k].enumerable
    requires t.keys == s.keys
    ensures var r := AssignEntries(t, es);
      && r.keys == s.keys
      && (forall k :: Owns(r, k) <==> Owns(s, k))
      && (forall k | Owns(s, k) :: r.props[k].value == s.props[k].value && r.props[k].enumerable == s.props[k].enumerable)
  {
    if es != [] {
      AssignOwnEntriesKeepsValues(s, t, es[..|es| - 1]);
    }
  }

  /** An object of the model, with reference identity.  Its own properties
      change in place; whether it is an Error and what it inherits do not. */
  class JsObject {
    const isError: bool
    const inherited: map<Key, Value>
    var own: Shape

    /** Everything a reader can observe of the object now. */
    function Snap(): Snapshot
      reads this
    {
      Snapshot(isError, inherited, own)
    }

    /** `Object.hasOwnProperty.call(this, k)`. */
    predicate HasOwn(k: Key)
      reads this
    {
      Owns(own, k)
    }

    /** `this[k]`. */
    function Get(k: Key): Value
      reads this
    {
      Lookup(Snap(), k)
    }

    /** A new object with the given observable state. */
    constructor (init: Snapshot)
      ensures Snap() == init
    {
      isError, inherited, own := init.isError, init.inherited, init.own;
    }

    /** Gives the object the own properties `s`, which is how a built-in that
        computes the object's new properties from its current ones commits them. */
    method Replace(s: Shape)
      modifies this
      ensures own == s
    {
      own := s;
    }

    /** `this[k] = v`. */
    method Put(k: Key, v: Value)
      modifies this
      ensures own == SetProp(old(own), k, v)
    {
      own := SetProp(own, k, v);
    }

    /** Defines `this[k]` as a data property with the given enumerable flag. */
    method Define(k: Key, v: Value, enumerable: bool)
      modifies this
      ensures own == DefineValue(old(own), k, v, enumerable)
    {
      own := DefineValue(own, k, v, enumerable);
    }

    /** Defines an enumerable getter on a key this object does not own, forwarding to `source[k]`. */
    method DefineForwarder(k: Key, source: JsObject, v: Value)
      requires !HasOwn(k)
      modifies this
      ensures own == DefineGetter(old(own), k, source, v)
    {
      own := DefineGetter(own, k, source, v);
    }

    /** `delete this[k]`. */
    method Remove(k: Key)
      modifies this
      ensures own == Delete(old(own), k)
    {
      own := Delete(own, k);
    }

    /** The loop of `Object.assign` for one source whose entries have been read. */
    method AssignAll(es: seq<(Key, Value)>)
      modifies this
      ensures own == AssignEntries(old(own), es)
    {
      var i := 0;
      while i < |es|
        invariant 0 <= i <= |es|
        invariant own == AssignEntries(old(own), es[..i])
      {
        assert es[..i + 1][..i] == es[..i];
        Put(es[i].0, es[i].1);
        i := i + 1;
      }
      assert es[..i] == es;
    }
  }
}
