/**
 * The key order a wrapped cause shows.  The cause made by
 * `createError(name, message, {foo, bar})` owns `stack`, `message`,
 * `name`, `foo`, `bar` in that order, and `Object.keys` of the
 * cause-hiding view over it is `name`, `message`, `stack`, `foo`, `bar`
 * (test/unit/wrappers.spec.ts:11-17 and 38-44).
 *
 * Key lists are written as single keys joined by `+`, the form in which
 * assignment appends them.
 */
module CauseViewExample {
  import opened JsObjects
  import opened HiddenView
  import opened Create

  const FooKey: Key := Named("foo")
  const BarKey: Key := Named("bar")

  /** The bag literal `{foo, bar}`. */
  function FooBar(foo: Value, bar: Value): (s: Shape)
    ensures s.keys == [FooKey] + [BarKey]
  {
    Layout([FooKey] + [BarKey], map[FooKey := Data(foo, true), BarKey := Data(bar, true)])
  }

  /** Whether `Object.keys` lists `k`: an enumerable own string key. */
  predicate Listed(s: Shape, k: Key) {
    k.Named? && k in s.props && s.props[k].enumerable
  }

  /** Removing a key that is not listed leaves the list as it is. */
  lemma {:induction false} WithoutAbsent(ks: seq<Key>, k: Key)
    requires k !in ks
    ensures Without(ks, k) == ks
  {
    if ks != [] {
      WithoutAbsent(ks[1..], k);
      assert [ks[0]] + ks[1..] == ks;
    }
  }

  /** `delete` of a key the object does not own changes nothing. */
  lemma DeleteAbsent(s: Shape, k: Key)
    requires !Owns(s, k)
    ensures Delete(s, k) == s
  {
    WithoutAbsent(s.keys, k);
    assert s.props - {k} == s.props;
  }

  /** Two string keys: both are string keys, in order, and neither is a symbol. */
  lemma TwoNamed(a: Key, b: Key)
    requires a.Named? && b.Named?
    ensures StringKeys([a] + [b]) == [a] + [b]
    ensures SymbolKeys([a] + [b]) == []
  {
    assert ([a] + [b])[0] == a && ([a] + [b])[1..] == [b] && [b][1..] == [];
    assert StringKeys([b]) == [b] + StringKeys([]);
    assert SymbolKeys([b]) == [] + SymbolKeys([]);
  }

  /** Two enumerable keys are read as two entries, in order. */
  lemma TwoEntries(s: Shape, a: Key, b: Key)
    requires a in s.props && s.props[a].enumerable
    requires b in s.props && s.props[b].enumerable
    ensures EntriesAt(s, [a] + [b]) == [(a, s.props[a].value)] + [(b, s.props[b].value)]
  {
    assert ([a] + [b])[0] == a && ([a] + [b])[1..] == [b] && [b][1..] == [];
    assert EntriesAt(s, [b]) == [(b, s.props[b].value)] + EntriesAt(s, []);
  }

  /** `Object.assign` reads `foo` and then `bar` from the bag, which owns no selector. */
  lemma FooBarEntries(foo: Value, bar: Value)
    ensures WithoutSelectors(FooBar(foo, bar)) == FooBar(foo, bar)
    ensures Entries(FooBar(foo, bar)) == [(FooKey, foo)] + [(BarKey, bar)]
  {
    var b := FooBar(foo, bar);
    DeleteAbsent(b, BaseClassKey);
    DeleteAbsent(b, FactoryFunctionKey);
    TwoNamed(FooKey, BarKey);
    assert OwnKeys(b) == b.keys;
    TwoEntries(b, FooKey, BarKey);
  }

  /** `foo` and `bar` are distinct from each other and from the error's own keys. */
  lemma FooBarKeysDistinct()
    ensures FooKey !in [StackKey, MessageKey, NameKey] && BarKey !in [StackKey, MessageKey, NameKey]
    ensures FooKey != BarKey
    ensures FooKey != NameKey && FooKey != StackKey && BarKey != NameKey && BarKey != StackKey
  {
  }

  /** Two entries of distinct keys that are new to `ks` add both, in order. */
  lemma NewKeysTwo(ks: seq<Key>, a: Key, va: Value, b: Key, vb: Value)
    requires a !in ks && b !in ks && a != b
    ensures NewKeys(ks, [(a, va)] + [(b, vb)]) == [a] + [b]
  {
    var es := [(a, va)] + [(b, vb)];
    assert es[..1] == [(a, va)] && es[..1][..0] == [];
    assert NewKeys(ks, es[..1]) == [a];
  }

  /** After finishing an object that owns only a non-enumerable `stack` and
      `message` with the bag `{foo, bar}`, `name`, `foo` and `bar` are listed
      and `stack` and `message` are not. */
  lemma FooBarFinishFlags(made: Shape, name: string, stack: string, foo: Value, bar: Value)
    requires forall k :: Owns(made, k) <==> k == StackKey || k == MessageKey
    requires Owns(made, MessageKey) && !made.props[MessageKey].enumerable
    ensures var r := Finish(made, name, stack, FooBar(foo, bar));
      && !Listed(r, StackKey) && !Listed(r, MessageKey)
      && Listed(r, NameKey) && Listed(r, FooKey) && Listed(r, BarKey)
  {
    var b := FooBar(foo, bar);
    FooBarKeysDistinct();
    FinishFrame(made, name, stack, b, StackKey);
    FinishFrame(made, name, stack, b, MessageKey);
    FinishFrame(made, name, stack, b, NameKey);
    FinishAddsEnumerable(made, name, stack, b, FooKey);
    FinishAddsEnumerable(made, name, stack, b, BarKey);
  }

  /** `createError(name, message, {foo, bar})` with no selector gives an
      `Error` owning `stack`, `message`, `name`, `foo`, `bar` in that
      order, of which `stack` and `message` are not enumerable. */
  lemma {:induction false} FooBarErrorKeys(host: Host, name: string, message: string, foo: Value, bar: Value)
    ensures var c := CreatedError(host, CreateErrorFrame, name, message, PlainObject(FooBar(foo, bar)));
      && c.Constructed?
      && c.made.own.keys == [StackKey, MessageKey, NameKey] + ([FooKey] + [BarKey])
      && !Listed(c.made.own, StackKey) && !Listed(c.made.own, MessageKey)
      && Listed(c.made.own, NameKey) && Listed(c.made.own, FooKey) && Listed(c.made.own, BarKey)
  {
    var b := FooBar(foo, bar);
    var m := PlainObject(b);
    var e := NewError(message, host.fullTrace);
    var stack := host.traceAbove(CreateErrorFrame);
    FooBarKeysDistinct();
    FooBarEntries(foo, bar);
    PlainErrorKeyOrder(host, CreateErrorFrame, name, message, m);
    NewKeysTwo([StackKey, MessageKey, NameKey], FooKey, foo, BarKey, bar);
    assert Construct(host, ChooseStrategy(m), name, message, m) == Constructed(e);
    assert CreatedError(host, CreateErrorFrame, name, message, m).made.own == Finish(e.own, name, stack, b);
    FooBarFinishFlags(e.own, name, stack, foo, bar);
  }

  /** Steps of `Object.keys` over a key list written head first. */
  lemma ListedOne(s: Shape, k: Key)
    requires Listed(s, k)
    ensures EnumerableNamed(s, [k]) == [k]
  {
    assert [k][1..] == [];
  }

  lemma KeepHead(s: Shape, k: Key, rest: seq<Key>)
    requires Listed(s, k)
    ensures EnumerableNamed(s, [k] + rest) == [k] + EnumerableNamed(s, rest)
  {
    assert ([k] + rest)[0] == k && ([k] + rest)[1..] == rest;
  }

  lemma SkipHead(s: Shape, k: Key, rest: seq<Key>)
    requires !Listed(s, k)
    ensures EnumerableNamed(s, [k] + rest) == EnumerableNamed(s, rest)
  {
    assert ([k] + rest)[0] == k && ([k] + rest)[1..] == rest;
  }

  /** The error's key list, regrouped head first. */
  lemma FiveKeys()
    ensures [StackKey, MessageKey, NameKey] + ([FooKey] + [BarKey])
            == [StackKey] + ([MessageKey] + ([NameKey] + ([FooKey] + [BarKey])))
  {
  }

  /** `Object.keys` of such an error is `name`, `foo`, `bar`. */
  lemma {:induction false} EnumerableOfFive(s: Shape)
    requires s.keys == [StackKey, MessageKey, NameKey] + ([FooKey] + [BarKey])
    requires !Listed(s, StackKey) && !Listed(s, MessageKey)
    requires Listed(s, NameKey) && Listed(s, FooKey) && Listed(s, BarKey)
    ensures EnumerableKeys(s) == [NameKey] + ([FooKey] + [BarKey])
  {
    FiveKeys();
    ListedOne(s, BarKey);
    KeepHead(s, FooKey, [BarKey]);
    KeepHead(s, NameKey, [FooKey] + [BarKey]);
    SkipHead(s, MessageKey, [NameKey] + ([FooKey] + [BarKey]));
    SkipHead(s, StackKey, [MessageKey] + ([NameKey] + ([FooKey] + [BarKey])));
  }

  /** The view's filter drops `name` and keeps `foo` and `bar`. */
  lemma FilteredNameFooBar()
    ensures Filtered([NameKey] + ([FooKey] + [BarKey])) == [FooKey] + [BarKey]
  {
    assert Filtered([BarKey]) == [BarKey];
    assert Filtered([FooKey] + [BarKey]) == [FooKey] + [BarKey];
  }

  /** The forced keys followed by `foo` and `bar`. */
  lemma ForcedThenFooBar()
    ensures ForcedKeys + ([FooKey] + [BarKey]) == [NameKey, MessageKey, StackKey, FooKey, BarKey]
  {
  }

  /** The cause `createError(name, message, {foo, bar})` seen through the
      cause-hiding view: `Object.keys(error.cause)` is `name`, `message`,
      `stack`, `foo`, `bar`. */
  lemma {:induction false} WrappedCauseKeys(host: Host, name: string, message: string, foo: Value, bar: Value)
    ensures var c := CreatedError(host, CreateErrorFrame, name, message, PlainObject(FooBar(foo, bar)));
      c.Constructed? && HiddenKeys(c.made.own) == [NameKey, MessageKey, StackKey, FooKey, BarKey]
  {
    var c := CreatedError(host, CreateErrorFrame, name, message, PlainObject(FooBar(foo, bar)));
    FooBarErrorKeys(host, name, message, foo, bar);
    EnumerableOfFive(c.made.own);
    HiddenKeysOrder(c.made.own);
    FilteredNameFooBar();
    ForcedThenFooBar();
  }
}
