/**
 * The cause-hiding view that `hideCause` wraps around an error: a read-only
 * view that reports the same properties as the error except that `cause`
 * and `causeChain` are invisible, and `name`, `message` and `stack` are
 * always present and enumerable.  The three intercepted operations
 * (own-key listing, `in`, own-property descriptor) are functions of the
 * underlying error; every other read goes to the error itself.
 */
module HiddenView {
  import opened JsObjects

  /** `name`, `message` and `stack`: always listed first and reported enumerable. */
  predicate IsForced(k: Key) {
    k == NameKey || k == MessageKey || k == StackKey
  }

  /** `cause` and `causeChain`: never reported. */
  predicate IsCauseField(k: Key) {
    k == CauseKey || k == CauseChainKey
  }

  const ForcedKeys: seq<Key> := [NameKey, MessageKey, StackKey]

  /** The members of `ks` other than the five special keys, in order. */
  function Filtered(ks: seq<Key>): (r: seq<Key>)
    ensures forall k :: k in r <==> k in ks && !IsForced(k) && !IsCauseField(k)
  {
    if ks == [] then []
    else (if IsForced(ks[0]) || IsCauseField(ks[0]) then [] else [ks[0]]) + Filtered(ks[1..])
  }

  /** The `ownKeys` trap: the three forced keys, then the target's own keys
      (as `Reflect.ownKeys` lists them) minus the five special keys. */
  function HiddenOwnKeys(s: Shape): (r: seq<Key>)
    ensures |r| >= 3 && r[..3] == ForcedKeys
    ensures forall k :: k in r <==> IsForced(k) || (Owns(s, k) && !IsCauseField(k))
    ensures forall i | 3 <= i < |r| :: Owns(s, r[i]) && !IsForced(r[i]) && !IsCauseField(r[i])
  {
    var r := ForcedKeys + Filtered(OwnKeys(s));
    assert forall i | 3 <= i < |r| :: r[i] in Filtered(OwnKeys(s));
    r
  }

  /** What a `getOwnPropertyDescriptor` trap answers: no descriptor, a
      descriptor of an own property, or the bare `{enumerable: true}` that
      spreading an absent descriptor produces. */
  datatype Descriptor = NoDescriptor | Described(prop: Property) | EnumerableOnly {
    predicate IsEnumerable() {
      match this
      case NoDescriptor => false
      case Described(p) => p.enumerable
      case EnumerableOnly => true
    }
  }

  /** The property with its enumerable flag set. */
  function AsEnumerable(p: Property): (q: Property)
    ensures q.enumerable && q.value == p.value
    ensures p.Data? <==> q.Data?
    ensures p.Getter? ==> q.source == p.source && q.key == p.key
  {
    match p
    case Data(v, _) => Data(v, true)
    case Getter(src, k, v, _) => Getter(src, k, v, true)
  }

  /** The `getOwnPropertyDescriptor` trap. */
  function HiddenDescriptor(s: Shape, k: Key): (d: Descriptor)
    ensures IsCauseField(k) ==> d == NoDescriptor
    ensures IsForced(k) ==> d.IsEnumerable()
    ensures IsForced(k) && Owns(s, k) ==> d.Described? && d.prop.value == s.props[k].value
    ensures !IsForced(k) && !IsCauseField(k) ==> d == (if Owns(s, k) then Described(s.props[k]) else NoDescriptor)
  {
    if IsCauseField(k) then NoDescriptor
    else if IsForced(k) then
      (if k in s.props then Described(AsEnumerable(s.props[k])) else EnumerableOnly)
    else if k in s.props then Described(s.props[k])
    else NoDescriptor
  }

  /** The `has` trap (`k in view`): the forced keys always, the cause
      fields never, any other key as the target answers, own or inherited. */
  predicate HiddenHas(o: Snapshot, k: Key)
    ensures IsForced(k) ==> HiddenHas(o, k)
    ensures IsCauseField(k) ==> !HiddenHas(o, k)
    ensures !IsForced(k) && !IsCauseField(k) ==> (HiddenHas(o, k) <==> Owns(o.own, k) || k in o.inherited)
  {
    k == NameKey || k == MessageKey || k == StackKey
    || (k != CauseKey && k != CauseChainKey && (k in o.own.props || k in o.inherited))
  }

  /** The members of `ks` that `Object.keys` keeps on the view: string keys
      whose trap descriptor is enumerable. */
  function ViewEnumerable(s: Shape, ks: seq<Key>): (r: seq<Key>)
    ensures forall k :: k in r <==> k in ks && k.Named? && HiddenDescriptor(s, k).IsEnumerable()
  {
    if ks == [] then []
    else
      (if ks[0].Named? && HiddenDescriptor(s, ks[0]).IsEnumerable() then [ks[0]] else [])
      + ViewEnumerable(s, ks[1..])
  }

  /** `Object.keys(view)`. */
  function HiddenKeys(s: Shape): seq<Key>
  {
    ViewEnumerable(s, HiddenOwnKeys(s))
  }

  lemma {:induction false} ViewEnumerableAppend(s: Shape, xs: seq<Key>, ys: seq<Key>)
    ensures ViewEnumerable(s, xs + ys) == ViewEnumerable(s, xs) + ViewEnumerable(s, ys)
  {
    if xs == [] {
      assert xs + ys == ys;
    } else {
      assert (xs + ys)[0] == xs[0];
      assert (xs + ys)[1..] == xs[1..] + ys;
      ViewEnumerableAppend(s, xs[1..], ys);
    }
  }

  lemma {:induction false} FilteredAppend(xs: seq<Key>, ys: seq<Key>)
    ensures Filtered(xs + ys) == Filtered(xs) + Filtered(ys)
  {
    if xs == [] {
      assert xs + ys == ys;
    } else {
      assert (xs + ys)[0] == xs[0];
      assert (xs + ys)[1..] == xs[1..] + ys;
      FilteredAppend(xs[1..], ys);
    }
  }

  lemma {:induction false} EnumerableNamedAppend(s: Shape, xs: seq<Key>, ys: seq<Key>)
    ensures EnumerableNamed(s, xs + ys) == EnumerableNamed(s, xs) + EnumerableNamed(s, ys)
  {
    if xs == [] {
      assert xs + ys == ys;
    } else {
      assert (xs + ys)[0] == xs[0];
      assert (xs + ys)[1..] == xs[1..] + ys;
      EnumerableNamedAppend(s, xs[1..], ys);
    }
  }

  /** On keys other than the special five, the view keeps exactly the enumerable string keys. */
  lemma {:induction false} ViewEnumerableFiltered(s: Shape, ks: seq<Key>)
    ensures ViewEnumerable(s, Filtered(ks)) == Filtered(EnumerableNamed(s, ks))
  {
    if ks != [] {
      ViewEnumerableFiltered(s, ks[1..]);
      var k := ks[0];
      var kept := if k.Named? && k in s.props && s.props[k].enumerable then [k] else [];
      assert EnumerableNamed(s, ks) == kept + EnumerableNamed(s, ks[1..]);
      FilteredAppend(kept, EnumerableNamed(s, ks[1..]));
      if IsForced(k) || IsCauseField(k) {
        assert Filtered(ks) == Filtered(ks[1..]);
        assert Filtered(kept) == [];
      } else {
        assert Filtered(ks) == [k] + Filtered(ks[1..]);
        ViewEnumerableAppend(s, [k], Filtered(ks[1..]));
        assert ViewEnumerable(s, [k]) == kept;
        assert Filtered(kept) == kept;
      }
    }
  }

  lemma {:induction false} EnumerableNamedOfSymbols(s: Shape, ks: seq<Key>)
    ensures EnumerableNamed(s, SymbolKeys(ks)) == []
  {
    if ks != [] {
      EnumerableNamedOfSymbols(s, ks[1..]);
      EnumerableNamedAppend(s, if ks[0].Symbol? then [ks[0]] else [], SymbolKeys(ks[1..]));
    }
  }

  lemma {:induction false} EnumerableNamedOfStrings(s: Shape, ks: seq<Key>)
    ensures EnumerableNamed(s, StringKeys(ks)) == EnumerableNamed(s, ks)
  {
    if ks != [] {
      EnumerableNamedOfStrings(s, ks[1..]);
      EnumerableNamedAppend(s, if ks[0].Named? then [ks[0]] else [], StringKeys(ks[1..]));
    }
  }

  /** `Object.keys` of the view lists `name`, `message` and `stack`, then
      the error's own enumerable string keys in their original order, with
      the five special keys removed. */
  lemma {:induction false} HiddenKeysOrder(s: Shape)
    ensures HiddenKeys(s) == ForcedKeys + Filtered(EnumerableKeys(s))
  {
    var strs, syms := StringKeys(s.keys), SymbolKeys(s.keys);
    var rest := Filtered(strs + syms);
    calc {
      HiddenKeys(s);
      ViewEnumerable(s, ForcedKeys + rest);
      { ViewEnumerableAppend(s, ForcedKeys, rest); }
      ViewEnumerable(s, ForcedKeys) + ViewEnumerable(s, rest);
      { ForcedKeysListed(s); }
      ForcedKeys + ViewEnumerable(s, rest);
      { ViewEnumerableFiltered(s, strs + syms); }
      ForcedKeys + Filtered(EnumerableNamed(s, strs + syms));
      { EnumerableNamedAppend(s, strs, syms); }
      ForcedKeys + Filtered(EnumerableNamed(s, strs) + EnumerableNamed(s, syms));
      { EnumerableNamedOfSymbols(s, s.keys); EnumerableNamedOfStrings(s, s.keys); }
      ForcedKeys + Filtered(EnumerableNamed(s, s.keys) + []);
      { assert EnumerableNamed(s, s.keys) + [] == EnumerableKeys(s); }
      ForcedKeys + Filtered(EnumerableKeys(s));
    }
  }

  lemma {:induction false} ForcedKeysListed(s: Shape)
    ensures ViewEnumerable(s, ForcedKeys) == ForcedKeys
  {
    var d := HiddenDescriptor(s, StackKey);
    assert d.IsEnumerable();
    assert ViewEnumerable(s, [StackKey]) == [StackKey];
    assert ForcedKeys[1..][1..] == [StackKey];
    assert ViewEnumerable(s, [MessageKey, StackKey]) == [MessageKey, StackKey];
    assert ForcedKeys[1..] == [MessageKey, StackKey];
  }
}
