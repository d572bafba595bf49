/**
 * Error creation (src/lib/create.ts): the property bags are merged into
 * the first one with `Object.assign`, the merged bag selects how the error
 * object is made (a base class, a factory function, or a plain `Error`),
 * and the error then receives the requested name, a stack trace captured
 * above a given frame, and every enumerable property of the bag except the
 * two selectors.
 *
 * Base classes and factory functions are user code: what they produce when
 * run is given by a `Host`, as is the stack text the host would capture.
 */
module Create {
  import opened JsObjects

  /** `BaseClassProp` and `FactoryFunctionProp`, the two selector symbols. */
  const BaseClassKey: Key := Symbol(0)
  const FactoryFunctionKey: Key := Symbol(1)

  /** The number of property-bag parameters `createError` declares. */
  const MaxBags := 10

  /** A function's place in the call stack, used to say where a stack trace starts. */
  datatype Frame = Frame(id: nat)

  /** The frame of `createError` itself. */
  const CreateErrorFrame := Frame(0)

  /** Something thrown: the `TypeError` raised when a selector cannot be
      called, or whatever a user-supplied class or function threw. */
  datatype Thrown = NotAConstructor(selector: Value) | NotCallable(selector: Value) | UserThrew(reason: Value)

  /** The result of running user code that makes an object. */
  datatype Construction = Constructed(made: Snapshot) | Raised(thrown: Thrown)

  /** The behaviour of code outside the library: `new C(name, message, props)`
      and `f(name, message, props)` for the function with a given identity,
      the stack text `new Error` records, and the stack text
      `Error.captureStackTrace` records above a frame. */
  datatype Host = Host(
    construct: (nat, string, string, Snapshot) -> Construction,
    call: (nat, string, string, Snapshot) -> Construction,
    fullTrace: string,
    traceAbove: Frame -> string)

  /** How the error object is made. */
  datatype Strategy = WithBaseClass(ctor: Value) | WithFactory(factory: Value) | PlainError

  /** The result of `createError`: the new error, or the exception it propagates. */
  datatype Outcome = Created(error: JsObject) | Threw(thrown: Thrown)

  /** The call's outcome `r` is the construction `c`: it threw what `c`
      raised, or it returned an error whose state is what `c` made. */
  predicate Reports(r: Outcome, c: Construction)
    reads if r.Created? then {r.error} else {}
  {
    && (r.Threw? <==> c.Raised?)
    && (r.Threw? ==> r.thrown == c.thrown)
    && (r.Created? ==> r.error.Snap() == c.made)
  }

  // ---------------------------------------------------------------------------
  // Merging the property bags

  /** A source of the merging `Object.assign`: a missing bag (`?? {}`), the
      target itself passed again, or another object with the given own properties. */
  datatype Source = Absent | Itself | Other(bag: Shape)

  /** `Object.assign` of one source onto the current target state `m`. */
  function MergeStep(m: Shape, src: Source): Shape
  {
    match src
    case Absent => m
    case Itself => AssignEntries(m, Entries(m))
    case Other(b) => AssignEntries(m, Entries(b))
  }

  /** `Object.assign(target, ...sources)`: the sources in order, later ones last. */
  function Merge(target: Shape, sources: seq<Source>): Shape
  {
    if sources == [] then target
    else MergeStep(Merge(target, sources[..|sources| - 1]), sources[|sources| - 1])
  }

  lemma MergePrefixStep(target: Shape, sources: seq<Source>, i: nat)
    requires i < |sources|
    ensures Merge(target, sources[..i + 1]) == MergeStep(Merge(target, sources[..i]), sources[i])
  {
    assert sources[..i + 1][..i] == sources[..i];
  }

  /** A source that copies key `k`: another object owning `k` as an enumerable property. */
  predicate Supplies(src: Source, k: Key) {
    src.Other? && Owns(src.bag, k) && src.bag.props[k].enumerable
  }

  lemma MergeStepFrame(m: Shape, src: Source, k: Key)
    ensures Owns(MergeStep(m, src), k) <==> Owns(m, k) || Supplies(src, k)
    ensures Owns(m, k) && !Supplies(src, k) ==> MergeStep(m, src).props[k].value == m.props[k].value
    ensures Supplies(src, k) ==> MergeStep(m, src).props[k].value == src.bag.props[k].value
  {
    match src
    case Absent =>
    case Itself =>
      AssignOwnEntriesKeepsValues(m, m, Entries(m));
    case Other(b) =>
      EntryKeysOfEntries(b);
      AssignEntriesFrame(m, Entries(b));
      if Supplies(src, k) {
        AssignEntriesAgreeing(m, Entries(b), k, b.props[k].value);
      }
  }

  /** Whether some source among `sources` supplies `k`. */
  predicate SuppliedBy(sources: seq<Source>, k: Key) {
    exists i :: 0 <= i < |sources| && Supplies(sources[i], k)
  }

  lemma SuppliedByLast(sources: seq<Source>, k: Key)
    requires sources != []
    ensures SuppliedBy(sources, k) <==> SuppliedBy(sources[..|sources| - 1], k) || Supplies(sources[|sources| - 1], k)
  {
    var n := |sources| - 1;
    if SuppliedBy(sources, k) && !Supplies(sources[n], k) {
      var i :| 0 <= i < |sources| && Supplies(sources[i], k);
      assert sources[..n][i] == sources[i];
    }
    if SuppliedBy(sources[..n], k) {
      var i :| 0 <= i < n && Supplies(sources[..n][i], k);
      assert sources[i] == sources[..n][i];
    }
  }

  /** The merged bag owns exactly the keys the target owned and the keys some source supplies. */
  lemma {:induction false} MergeKeys(target: Shape, sources: seq<Source>, k: Key)
    ensures Owns(Merge(target, sources), k) <==> Owns(target, k) || SuppliedBy(sources, k)
  {
    if sources != [] {
      var n := |sources| - 1;
      MergeKeys(target, sources[..n], k);
      MergeStepFrame(Merge(target, sources[..n]), sources[n], k);
      SuppliedByLast(sources, k);
    }
  }

  /** Later bags win: a key takes its value from the last source that supplies it. */
  lemma {:induction false} MergeLastWins(target: Shape, sources: seq<Source>, j: nat, k: Key)
    requires j < |sources| && Supplies(sources[j], k)
    requires forall i | j < i < |sources| :: !Supplies(sources[i], k)
    ensures Owns(Merge(target, sources), k)
    ensures Merge(target, sources).props[k].value == sources[j].bag.props[k].value
  {
    var n := |sources| - 1;
    var before := Merge(target, sources[..n]);
    MergeStepFrame(before, sources[n], k);
    if j < n {
      assert sources[..n][j] == sources[j];
      MergeLastWins(target, sources[..n], j, k);
    }
  }

  /** A key no source supplies keeps the value the target had. */
  lemma {:induction false} MergeKeepsTarget(target: Shape, sources: seq<Source>, k: Key)
    requires Owns(target, k)
    requires !SuppliedBy(sources, k)
    ensures Owns(Merge(target, sources), k)
    ensures Merge(target, sources).props[k].value == target.props[k].value
  {
    if sources != [] {
      var n := |sources| - 1;
      SuppliedByLast(sources, k);
      MergeKeepsTarget(target, sources[..n], k);
      MergeStepFrame(Merge(target, sources[..n]), sources[n], k);
    }
  }

  /** The entries the sources hand to `Object.assign` that can add a key:
      those of every other object, in order.  A missing bag adds nothing,
      and the target passed again only reassigns keys it owns. */
  function SuppliedEntries(sources: seq<Source>): seq<(Key, Value)>
  {
    if sources == [] then []
    else
      var n := |sources| - 1;
      SuppliedEntries(sources[..n]) + (if sources[n].Other? then Entries(sources[n].bag) else [])
  }

  lemma ConcatAssoc(a: seq<Key>, b: seq<Key>, c: seq<Key>)
    ensures a + (b + c) == (a + b) + c
  {
  }

  /** The merged bag keeps the first bag's keys in their order, then lists
      each key the later bags add, in the order it is first supplied. */
  lemma {:induction false} MergeKeyOrder(target: Shape, sources: seq<Source>)
    ensures Merge(target, sources).keys == target.keys + NewKeys(target.keys, SuppliedEntries(sources))
  {
    if sources != [] {
      var n := |sources| - 1;
      var m := Merge(target, sources[..n]);
      var before := SuppliedEntries(sources[..n]);
      var added := NewKeys(target.keys, before);
      MergeKeyOrder(target, sources[..n]);
      assert m.keys == target.keys + added;
      assert Merge(target, sources) == MergeStep(m, sources[n]);
      match sources[n]
      case Absent =>
        assert SuppliedEntries(sources) == before + [] == before;
      case Itself =>
        assert SuppliedEntries(sources) == before + [] == before;
        AssignOwnEntriesKeepsValues(m, m, Entries(m));
      case Other(b) =>
        assert SuppliedEntries(sources) == before + Entries(b);
        AssignEntriesKeys(m, Entries(b));
        NewKeysAppend(target.keys, before, Entries(b));
        ConcatAssoc(target.keys, added, NewKeys(m.keys, Entries(b)));
    }
  }

  /** Each missing bag replaced by an empty object literal. */
  function EmptyForAbsent(sources: seq<Source>): (r: seq<Source>)
    ensures |r| == |sources|
    ensures forall i | 0 <= i < |r| :: r[i] == if sources[i].Absent? then Other(EmptyShape) else sources[i]
  {
    seq(|sources|, i requires 0 <= i < |sources| => if sources[i].Absent? then Other(EmptyShape) else sources[i])
  }

  /** A missing bag merges exactly as the empty bag `{}` it is replaced by. */
  lemma {:induction false} AbsentMergesAsEmpty(target: Shape, sources: seq<Source>)
    ensures Merge(target, EmptyForAbsent(sources)) == Merge(target, sources)
  {
    if sources != [] {
      var n := |sources| - 1;
      assert EmptyForAbsent(sources)[..n] == EmptyForAbsent(sources[..n]);
      AbsentMergesAsEmpty(target, sources[..n]);
      EntriesOfEmpty();
    }
  }

  // ---------------------------------------------------------------------------
  // The bags as objects in the heap

  function BagObjects(bags: seq<Option<JsObject>>): set<JsObject> {
    set b | b in bags && b.Some? :: b.value
  }

  /** The objects `createError` may change: the first bag, which is the merge target. */
  function FirstBag(bags: seq<Option<JsObject>>): set<JsObject> {
    if |bags| > 0 && bags[0].Some? then {bags[0].value} else {}
  }

  /** How a later bag enters the merge whose target is `first`. */
  function SourceOf(b: Option<JsObject>, first: Option<JsObject>): Source
    reads BagObjects([b])
  {
    match b
    case None => Absent
    case Some(o) => if b == first then Itself else (assert o in BagObjects([b]); Other(o.own))
  }

  function SourcesOf(rest: seq<Option<JsObject>>, first: Option<JsObject>): (r: seq<Source>)
    reads BagObjects(rest)
    ensures |r| == |rest|
    ensures forall i | 0 <= i < |rest| && rest[i].None? :: r[i] == Absent
    ensures forall i | 0 <= i < |rest| && rest[i].Some? && rest[i] == first :: r[i] == Itself
    ensures forall i | 0 <= i < |rest| && rest[i].Some? && rest[i] != first ::
      rest[i].value in BagObjects(rest) && r[i] == Other(rest[i].value.own)
  {
    if rest == [] then []
    else
      var n := |rest| - 1;
      assert BagObjects([rest[n]]) <= BagObjects(rest);
      SourcesOf(rest[..n], first) + [SourceOf(rest[n], first)]
  }

  /** The merged bag `Object.assign(p1 ?? {}, p2 ?? {}, …)` as the selectors
      and the user's class or factory see it. */
  function MergedBag(bags: seq<Option<JsObject>>): Snapshot
    reads BagObjects(bags)
  {
    var first := if |bags| > 0 then bags[0] else None;
    var rest := if |bags| > 0 then bags[1..] else [];
    assert BagObjects(rest) <= BagObjects(bags);
    match first
    case None => PlainObject(Merge(EmptyShape, SourcesOf(rest, first)))
    case Some(p1) =>
      assert p1 in BagObjects(bags);
      Snapshot(p1.isError, p1.inherited, Merge(p1.own, SourcesOf(rest, first)))
  }

  // ---------------------------------------------------------------------------
  // Choosing and running the strategy

  /** `hasBaseClass(p)`: `p` owns the base-class selector. */
  predicate HasBaseClass(p: Shape) {
    Owns(p, BaseClassKey)
  }

  /** `hasFactoryFunction(p)`: `p` owns the factory selector. */
  predicate HasFactoryFunction(p: Shape) {
    Owns(p, FactoryFunctionKey)
  }

  /** The base class wins over the factory; with neither, a plain `Error` is made. */
  function ChooseStrategy(bag: Snapshot): (st: Strategy)
    ensures st.WithBaseClass? <==> HasBaseClass(bag.own)
    ensures st.WithFactory? <==> !HasBaseClass(bag.own) && HasFactoryFunction(bag.own)
    ensures st.PlainError? <==> !HasBaseClass(bag.own) && !HasFactoryFunction(bag.own)
    ensures st.WithBaseClass? ==> st.ctor == Lookup(bag, BaseClassKey)
    ensures st.WithFactory? ==> st.factory == Lookup(bag, FactoryFunctionKey)
  {
    if HasBaseClass(bag.own) then WithBaseClass(bag.own.props[BaseClassKey].value)
    else if HasFactoryFunction(bag.own) then WithFactory(bag.own.props[FactoryFunctionKey].value)
    else PlainError
  }

  /** `new Error(message)`: an `Error` instance owning a non-enumerable
      `stack` and `message`, inheriting `name`. */
  function NewError(message: string, trace: string): (e: Snapshot)
    ensures e.isError && e.inherited == ErrorPrototype
    ensures forall k :: Owns(e.own, k) <==> k == StackKey || k == MessageKey
    ensures Owns(e.own, StackKey) && Owns(e.own, MessageKey)
    ensures Lookup(e, MessageKey) == Str(message) && Lookup(e, NameKey) == Str("Error")
    ensures !e.own.props[MessageKey].enumerable && !e.own.props[StackKey].enumerable
    ensures EnumerableKeys(e.own) == []
  {
    var l := Layout([StackKey, MessageKey],
                    map[StackKey := Data(Str(trace), false), MessageKey := Data(Str(message), false)]);
    assert EnumerableNamed(l, l.keys[1..]) == [];
    Snapshot(true, ErrorPrototype, l)
  }

  /** Runs the chosen strategy on the merged bag.  A selector that is not a
      function raises a `TypeError` (`new` or a call of a non-function). */
  function Construct(host: Host, st: Strategy, name: string, message: string, bag: Snapshot): (c: Construction)
    ensures st.PlainError? ==> c.Constructed? && c.made == NewError(message, host.fullTrace)
    ensures st.WithBaseClass? ==> c == (if st.ctor.Function? then host.construct(st.ctor.id, name, message, bag)
                                        else Raised(NotAConstructor(st.ctor)))
    ensures st.WithFactory? ==> c == (if st.factory.Function? then host.call(st.factory.id, name, message, bag)
                                      else Raised(NotCallable(st.factory)))
  {
    match st
    case WithBaseClass(ctor) =>
      if ctor.Function? then host.construct(ctor.id, name, message, bag) else Raised(NotAConstructor(ctor))
    case WithFactory(f) =>
      if f.Function? then host.call(f.id, name, message, bag) else Raised(NotCallable(f))
    case PlainError => Constructed(NewError(message, host.fullTrace))
  }

  // ---------------------------------------------------------------------------
  // Finishing the error

  /** The bag after `delete props[BaseClassProp]` and `delete props[FactoryFunctionProp]`. */
  function WithoutSelectors(bag: Shape): (r: Shape)
    ensures !HasBaseClass(r) && !HasFactoryFunction(r)
    ensures forall k | k != BaseClassKey && k != FactoryFunctionKey ::
      (Owns(r, k) <==> Owns(bag, k)) && (Owns(bag, k) ==> r.props[k] == bag.props[k])
  {
    Delete(Delete(bag, BaseClassKey), FactoryFunctionKey)
  }

  /** The error's own properties after `error.name = name`, the stack capture
      and `Object.assign(error, bag)`. */
  function Finish(made: Shape, name: string, stack: string, bag: Shape): Shape
  {
    AssignEntries(DefineValue(SetProp(made, NameKey, Str(name)), StackKey, Str(stack), false), Entries(bag))
  }

  /** Everything an observer of the new error sees, or the exception that
      escapes, for a merged bag `m`. */
  function CreatedError(host: Host, startingAbove: Frame, name: string, message: string, m: Snapshot): Construction
  {
    var c := Construct(host, ChooseStrategy(m), name, message, m);
    if c.Raised? then c
    else Constructed(Snapshot(c.made.isError, c.made.inherited,
                              Finish(c.made.own, name, host.traceAbove(startingAbove), WithoutSelectors(m.own))))
  }

  /** Whether the bag hands `k` to `Object.assign`: an own enumerable property. */
  predicate Copies(bag: Shape, k: Key) {
    Owns(bag, k) && bag.props[k].enumerable
  }

  /** The error owns what the constructor produced, `name`, `stack`, and
      every key the bag copies; the bag's values take precedence, and every
      other property keeps what the constructor gave it. */
  lemma FinishFrame(made: Shape, name: string, stack: string, bag: Shape, k: Key)
    ensures var r := Finish(made, name, stack, bag);
      && (Owns(r, k) <==> (Owns(made, k) || k == NameKey || k == StackKey || Copies(bag, k)))
      && (Copies(bag, k) ==> r.props[k].value == bag.props[k].value)
      && (!Copies(bag, k) && k == NameKey ==> r.props[k] == Data(Str(name), if Owns(made, k) then made.props[k].enumerable else true))
      && (!Copies(bag, k) && k == StackKey ==> r.props[k] == Data(Str(stack), false))
      && (!Copies(bag, k) && k != NameKey && k != StackKey && Owns(made, k) ==> r.props[k] == made.props[k])
  {
    var named := DefineValue(SetProp(made, NameKey, Str(name)), StackKey, Str(stack), false);
    EntryKeysOfEntries(bag);
    AssignEntriesFrame(named, Entries(bag));
    if Copies(bag, k) {
      AssignEntriesAgreeing(named, Entries(bag), k, bag.props[k].value);
    }
  }

  /** The error keeps the constructed object's keys in their order, then
      `name` and `stack` when it did not own them, then each key the bag
      adds, in the bag's `Reflect.ownKeys` order. */
  lemma {:induction false} FinishKeyOrder(made: Shape, name: string, stack: string, bag: Shape)
    ensures var named := made.keys + (if Owns(made, NameKey) then [] else [NameKey])
                                   + (if Owns(made, StackKey) then [] else [StackKey]);
      Finish(made, name, stack, bag).keys == named + NewKeys(named, Entries(bag))
  {
    var s1 := SetProp(made, NameKey, Str(name));
    var s2 := DefineValue(s1, StackKey, Str(stack), false);
    var withName := made.keys + (if Owns(made, NameKey) then [] else [NameKey]);
    assert s1.keys == withName;
    assert Owns(s1, StackKey) <==> Owns(made, StackKey);
    var named := withName + (if Owns(made, StackKey) then [] else [StackKey]);
    assert s2.keys == named;
    AssignEntriesKeys(s2, Entries(bag));
    assert Finish(made, name, stack, bag) == AssignEntries(s2, Entries(bag));
  }

  /** A plain `Error` lists `stack`, `message`, `name`, then the keys the
      bag adds in its own order, which is the order `Object.keys` and the
      cause-hiding view build on. */
  lemma {:induction false} PlainErrorKeyOrder(host: Host, startingAbove: Frame, name: string, message: string, m: Snapshot)
    requires !HasBaseClass(m.own) && !HasFactoryFunction(m.own)
    ensures var c := CreatedError(host, startingAbove, name, message, m);
      var base := [StackKey, MessageKey, NameKey];
      && c.Constructed?
      && c.made.own.keys == base + NewKeys(base, Entries(WithoutSelectors(m.own)))
  {
    var e := NewError(message, host.fullTrace);
    assert Construct(host, ChooseStrategy(m), name, message, m) == Constructed(e);
    var stack := host.traceAbove(startingAbove);
    var bag := WithoutSelectors(m.own);
    assert e.own.keys + [NameKey] + [] == [StackKey, MessageKey, NameKey];
    FinishKeyOrder(e.own, name, stack, bag);
    assert CreatedError(host, startingAbove, name, message, m).made.own == Finish(e.own, name, stack, bag);
  }

  /** The error is named `name` unless the bag supplies its own `name`, which then wins. */
  lemma {:induction false} FinishName(made: Shape, name: string, stack: string, bag: Shape)
    ensures var r := Finish(made, name, stack, bag);
      Owns(r, NameKey) &&
      r.props[NameKey].value == if Copies(bag, NameKey) then bag.props[NameKey].value else Str(name)
  {
    FinishFrame(made, name, stack, bag, NameKey);
  }

  /** The captured stack text stays unless the bag supplies a `stack` of its own;
      the captured `stack` is not enumerable. */
  lemma {:induction false} FinishStack(made: Shape, name: string, stack: string, bag: Shape)
    requires !Copies(bag, StackKey)
    ensures var r := Finish(made, name, stack, bag);
      Owns(r, StackKey) && r.props[StackKey] == Data(Str(stack), false)
  {
    FinishFrame(made, name, stack, bag, StackKey);
  }

  /** A key the bag copies onto an object that did not own it is enumerable there. */
  lemma FinishAddsEnumerable(made: Shape, name: string, stack: string, bag: Shape, k: Key)
    requires Copies(bag, k) && !Owns(made, k) && k != NameKey && k != StackKey
    ensures Owns(Finish(made, name, stack, bag), k) && Finish(made, name, stack, bag).props[k].enumerable
  {
    var named := DefineValue(SetProp(made, NameKey, Str(name)), StackKey, Str(stack), false);
    EntryKeysOfEntries(bag);
    AssignedFreshEnumerable(named, Entries(bag), k);
  }

  /** With neither selector in the merged bag, the result is an `Error`
      instance whose message is the given one, unless the bag supplies a
      `message` of its own. */
  lemma {:induction false} PlainErrorCarriesMessage(host: Host, startingAbove: Frame, name: string, message: string, m: Snapshot)
    requires !HasBaseClass(m.own) && !HasFactoryFunction(m.own)
    ensures var c := CreatedError(host, startingAbove, name, message, m);
      && c.Constructed? && c.made.isError
      && Lookup(c.made, MessageKey) == if Copies(m.own, MessageKey) then m.own.props[MessageKey].value else Str(message)
  {
    var e := NewError(message, host.fullTrace);
    var bag := WithoutSelectors(m.own);
    PlainErrorMade(host, startingAbove, name, message, m);
    assert e.own.props[MessageKey].value == Str(message);
    FinishMessage(e.own, name, host.traceAbove(startingAbove), bag);
    assert Copies(bag, MessageKey) <==> Copies(m.own, MessageKey);
  }

  /** Without selectors the error is the finished `new Error(message)`. */
  lemma PlainErrorMade(host: Host, startingAbove: Frame, name: string, message: string, m: Snapshot)
    requires !HasBaseClass(m.own) && !HasFactoryFunction(m.own)
    ensures CreatedError(host, startingAbove, name, message, m)
      == Constructed(Snapshot(true, ErrorPrototype,
           Finish(NewError(message, host.fullTrace).own, name, host.traceAbove(startingAbove), WithoutSelectors(m.own))))
  {
    assert Construct(host, ChooseStrategy(m), name, message, m) == Constructed(NewError(message, host.fullTrace));
  }

  /** An own `message` keeps its value unless the bag supplies one. */
  lemma FinishMessage(made: Shape, name: string, stack: string, bag: Shape)
    requires Owns(made, MessageKey)
    ensures var r := Finish(made, name, stack, bag);
      Owns(r, MessageKey) &&
      r.props[MessageKey].value == if Copies(bag, MessageKey) then bag.props[MessageKey].value else made.props[MessageKey].value
  {
    FinishFrame(made, name, stack, bag, MessageKey);
  }

  /** The selectors never reach the error from the bag: they are present on
      the result only if the constructed object itself owns them. */
  lemma {:induction false} CreatedErrorOmitsSelectors(host: Host, startingAbove: Frame, name: string, message: string, m: Snapshot)
    ensures var c := CreatedError(host, startingAbove, name, message, m);
      var made := Construct(host, ChooseStrategy(m), name, message, m);
      c.Constructed? ==>
        && (HasBaseClass(c.made.own) <==> HasBaseClass(made.made.own))
        && (HasFactoryFunction(c.made.own) <==> HasFactoryFunction(made.made.own))
  {
    var made := Construct(host, ChooseStrategy(m), name, message, m);
    if made.Constructed? {
      FinishFrame(made.made.own, name, host.traceAbove(startingAbove), WithoutSelectors(m.own), BaseClassKey);
      FinishFrame(made.made.own, name, host.traceAbove(startingAbove), WithoutSelectors(m.own), FactoryFunctionKey);
    }
  }

  /** Every enumerable property of the merged bag other than the selectors
      ends up on the error with the bag's value; `name` too, overriding the argument. */
  lemma {:induction false} CreatedErrorCopiesBag(host: Host, startingAbove: Frame, name: string, message: string, m: Snapshot, k: Key)
    requires Copies(m.own, k)
    requires k != BaseClassKey && k != FactoryFunctionKey
    ensures var c := CreatedError(host, startingAbove, name, message, m);
      c.Constructed? ==> Lookup(c.made, k) == m.own.props[k].value
  {
    var made := Construct(host, ChooseStrategy(m), name, message, m);
    if made.Constructed? {
      FinishFrame(made.made.own, name, host.traceAbove(startingAbove), WithoutSelectors(m.own), k);
    }
  }

  /** Without a `name` in the bag, the error is named by the argument,
      whatever the user's class or factory set. */
  lemma {:induction false} CreatedErrorName(host: Host, startingAbove: Frame, name: string, message: string, m: Snapshot)
    requires !Copies(m.own, NameKey)
    ensures var c := CreatedError(host, startingAbove, name, message, m);
      c.Constructed? ==> Lookup(c.made, NameKey) == Str(name)
  {
    var made := Construct(host, ChooseStrategy(m), name, message, m);
    if made.Constructed? {
      FinishName(made.made.own, name, host.traceAbove(startingAbove), WithoutSelectors(m.own));
    }
  }

  // ---------------------------------------------------------------------------
  // The operations

  /** `Object.assign(p1 ?? {}, p2 ?? {}, …)`: the first bag, or a new
      empty object when there is none, receives the later bags in order. */
  method MergeBags(bags: seq<Option<JsObject>>) returns (target: JsObject)
    modifies FirstBag(bags)
    ensures target.Snap() == old(MergedBag(bags))
    ensures if |bags| > 0 && bags[0].Some? then target == bags[0].value else fresh(target)
  {
    var first := if |bags| > 0 then bags[0] else None;
    var rest := if |bags| > 0 then bags[1..] else [];
    assert BagObjects(rest) <= BagObjects(bags);
    ghost var sources := SourcesOf(rest, first);
    // The own properties the target accumulates; bags are read as they are at that point.
    var merged := if first.Some? then first.value.own else EmptyShape;
    ghost var start := merged;
    var i := 0;
    while i < |rest|
      invariant 0 <= i <= |rest|
      invariant merged == Merge(start, sources[..i])
    {
      if rest[i].Some? {
        if rest[i] == first {
          merged := AssignEntries(merged, Entries(merged));
        } else {
          merged := AssignEntries(merged, Entries(rest[i].value.own));
        }
      }
      MergePrefixStep(start, sources, i);
      i := i + 1;
    }
    assert sources[..i] == sources;
    if first.Some? {
      target := first.value;
      assert target in BagObjects(bags);
      target.Replace(merged);
    } else {
      target := new JsObject(PlainObject(merged));
    }
  }

  /** The steps after merging: make the error with the strategy the merged
      bag selects, name it, capture its stack, remove the selectors from the
      bag and copy the bag onto the error. */
  method BuildError(host: Host, startingAbove: Frame, name: string, message: string, bag: JsObject)
    returns (r: Outcome)
    modifies bag
    ensures Reports(r, CreatedError(host, startingAbove, name, message, old(bag.Snap())))
    ensures r.Created? ==> fresh(r.error)
    ensures bag.own == if r.Threw? then old(bag.own) else WithoutSelectors(old(bag.own))
  {
    var m := bag.Snap();
    var c := Construct(host, ChooseStrategy(m), name, message, m);
    if c.Raised? {
      return Threw(c.thrown);
    }
    var stack := host.traceAbove(startingAbove);
    ghost var finished := Snapshot(c.made.isError, c.made.inherited, Finish(c.made.own, name, stack, WithoutSelectors(m.own)));
    assert CreatedError(host, startingAbove, name, message, m) == Constructed(finished);
    var error := new JsObject(c.made);
    error.Put(NameKey, Str(name));
    error.Define(StackKey, Str(stack), false);
    ghost var named := error.own;
    assert named == DefineValue(SetProp(c.made.own, NameKey, Str(name)), StackKey, Str(stack), false);
    bag.Remove(BaseClassKey);
    bag.Remove(FactoryFunctionKey);
    assert bag.own == WithoutSelectors(m.own);
    assert error.own == named;
    error.AssignAll(Entries(bag.own));
    assert error.own == Finish(c.made.own, name, stack, WithoutSelectors(m.own));
    r := Created(error);
  }

  /** `createErrorStartingAbove(startingAbove, name, message, p1, …, p10)`. */
  method CreateErrorStartingAbove(host: Host, startingAbove: Frame, name: string, message: string,
                                  bags: seq<Option<JsObject>>)
    returns (r: Outcome)
    requires |bags| <= MaxBags
    modifies FirstBag(bags)
    ensures Reports(r, CreatedError(host, startingAbove, name, message, old(MergedBag(bags))))
    ensures r.Created? ==> fresh(r.error)
    ensures |bags| > 0 && bags[0].Some? ==>
      bags[0].value.own == if r.Threw? then old(MergedBag(bags)).own
                               else WithoutSelectors(old(MergedBag(bags)).own)
  {
    var target := MergeBags(bags);
    r := BuildError(host, startingAbove, name, message, target);
  }

  /** `createError(name, message, p1, …, p10)`: the same, with the stack
      trace starting above `createError`. */
  method CreateError(host: Host, name: string, message: string, bags: seq<Option<JsObject>>)
    returns (r: Outcome)
    requires |bags| <= MaxBags
    modifies FirstBag(bags)
    ensures Reports(r, CreatedError(host, CreateErrorFrame, name, message, old(MergedBag(bags))))
    ensures r.Created? ==> fresh(r.error)
    ensures |bags| > 0 && bags[0].Some? ==>
      bags[0].value.own == if r.Threw? then old(MergedBag(bags)).own
                               else WithoutSelectors(old(MergedBag(bags)).own)
  {
    r := CreateErrorStartingAbove(host, CreateErrorFrame, name, message, bags);
  }
}
