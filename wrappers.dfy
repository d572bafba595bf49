/**
 * The wrapping façade (src/lib/wrappers.ts): `wrapError(cause, name,
 * message, p1, …, p10)` resolves its name, message and bags against the
 * cause, creates an error with `createError` and attaches the cause with
 * `setErrorCause`; `wrapFailure` runs a thunk and wraps what it throws;
 * `createErrorWrapper` fixes the arguments of `wrapError` for later causes.
 *
 * `WrapOutcome` states the result of `wrapError` as a function of the
 * states before the call; the methods are proved against it.
 */
module Wrappers {
  import opened JsObjects
  import opened HiddenView
  import opened Create
  import opened Cause

  /** The `name` or `message` argument: absent (`undefined` or `null`), a
      string, or a function of the cause. */
  datatype TextSource = Omitted | Given(text: string) | Derived(f: Snapshot -> string)

  /** A property-bag argument: absent, an object passed as it is, or a
      function of the cause whose result is a new plain object with the
      given own properties. */
  datatype BagSource = NoBag | Literal(bag: JsObject) | Computed(f: Snapshot -> Shape)

  /** `typeof t === "function" ? t(cause) : t`, then `?? cause[fallback]`:
      a function is applied to the cause, an absent argument falls back to
      the cause's property, and any string, the empty one included, is kept. */
  function ResolveText(t: TextSource, c: Snapshot, fallback: Key): (v: Value)
    ensures t.Omitted? ==> v == Lookup(c, fallback)
    ensures t.Given? ==> v == Str(t.text)
    ensures t.Derived? ==> v == Str(t.f(c))
  {
    match t
    case Omitted => Lookup(c, fallback)
    case Given(s) => Str(s)
    case Derived(f) => Str(f(c))
  }

  /** A bag argument once resolved against the cause: missing, an existing
      object together with its state at the call, or a new plain object made
      by a bag function. */
  datatype Arg = Missing | Existing(obj: JsObject, state: Snapshot) | Made(own: Shape)

  function LiteralObjects(bags: seq<BagSource>): set<JsObject> {
    set i | 0 <= i < |bags| && bags[i].Literal? :: bags[i].bag
  }

  function ArgOf(b: BagSource, c: Snapshot): (a: Arg)
    reads LiteralObjects([b])
  {
    match b
    case NoBag => Missing
    case Literal(o) => (assert [b][0] == b; Existing(o, o.Snap()))
    case Computed(f) => Made(f(c))
  }

  /** `typeof p === "function" ? p(cause) : p` for each bag, in its position. */
  function ArgsOf(bags: seq<BagSource>, c: Snapshot): (args: seq<Arg>)
    reads LiteralObjects(bags)
    ensures |args| == |bags|
    ensures forall i | 0 <= i < |bags| :: LiteralObjects([bags[i]]) <= LiteralObjects(bags) && args[i] == ArgOf(bags[i], c)
  {
    if bags == [] then []
    else
      var n := |bags| - 1;
      assert LiteralObjects([bags[n]]) <= LiteralObjects(bags);
      assert LiteralObjects(bags[..n]) <= LiteralObjects(bags);
      ArgsOf(bags[..n], c) + [ArgOf(bags[n], c)]
  }

  /** How a later argument enters the merge whose target is the argument
      `first`: the target itself again, or another object's properties; an
      object made by a bag function is always a new object. */
  function ArgSource(a: Arg, first: Arg): Source {
    match a
    case Missing => Absent
    case Existing(o, st) => if first.Existing? && first.obj == o then Itself else Other(st.own)
    case Made(s) => Other(s)
  }

  function ArgSources(rest: seq<Arg>, first: Arg): (r: seq<Source>)
    ensures |r| == |rest|
    ensures forall i | 0 <= i < |rest| :: r[i] == ArgSource(rest[i], first)
  {
    seq(|rest|, i requires 0 <= i < |rest| => ArgSource(rest[i], first))
  }

  /** The merged bag `createError` computes from the resolved arguments. */
  function ArgsMerged(args: seq<Arg>): Snapshot
  {
    var first := if |args| > 0 then args[0] else Missing;
    var rest := if |args| > 0 then args[1..] else [];
    var target := match first
      case Missing => PlainObject(EmptyShape)
      case Existing(_, st) => st
      case Made(s) => PlainObject(s);
    Snapshot(target.isError, target.inherited, Merge(target.own, ArgSources(rest, first)))
  }

  /** The cause as `setErrorCause` reads it: `createError` has removed the
      selectors from it when the cause itself was the first bag. */
  function CauseAfter(cause: JsObject, c: Snapshot, args: seq<Arg>, m: Snapshot): Snapshot {
    if |args| > 0 && args[0].Existing? && args[0].obj == cause then Snapshot(c.isError, c.inherited, WithoutSelectors(m.own))
    else c
  }

  /** The error `wrapError` returns, or what escapes from `createError`,
      for the cause `cause` whose state was `c`, the resolved name and
      message, the resolved arguments and their merged bag `m`. */
  function WrapOutcome(host: Host, cause: JsObject, c: Snapshot, name: string, message: string,
                       args: seq<Arg>, m: Snapshot): Construction
  {
    var created := CreatedError(host, CreateErrorFrame, name, message, m);
    if created.Raised? then created
    else Constructed(Snapshot(created.made.isError, created.made.inherited,
                              CauseAttached(created.made, cause, CauseAfter(cause, c, args, m), false)))
  }

  /** A value given for a key in the bags beats the cause's value for that
      key: the wrapper error holds the bag's value (other than for the keys
      `setErrorCause` writes itself). */
  lemma {:induction false} WrapBagBeatsCause(host: Host, cause: JsObject, c: Snapshot, name: string, message: string,
                                            args: seq<Arg>, m: Snapshot, k: Key)
    requires Copies(m.own, k)
    requires k != BaseClassKey && k != FactoryFunctionKey && !IsCauseField(k) && k != StackKey
    ensures var w := WrapOutcome(host, cause, c, name, message, args, m);
      w.Constructed? ==> Owns(w.made.own, k) && w.made.own.props[k].value == m.own.props[k].value
  {
    var created := CreatedError(host, CreateErrorFrame, name, message, m);
    if created.Constructed? {
      var made := Construct(host, ChooseStrategy(m), name, message, m);
      FinishFrame(made.made.own, name, host.traceAbove(CreateErrorFrame), WithoutSelectors(m.own), k);
      AttachedFrame(created.made, cause, CauseAfter(cause, c, args, m), false, k);
    }
  }

  /** With a plain `Error` (no selector in the bags), each enumerable
      string key of the cause that the bags do not supply, other than the
      five special keys, appears on the wrapper error as a getter that
      forwards to the cause and reads the cause's value. */
  lemma {:induction false} WrapForwardsCauseKeys(host: Host, cause: JsObject, c: Snapshot, name: string, message: string,
                                                args: seq<Arg>, m: Snapshot, k: Key)
    requires !HasBaseClass(m.own) && !HasFactoryFunction(m.own)
    requires k.Named? && !IsForced(k) && !IsCauseField(k) && !Copies(m.own, k)
    requires var ca := CauseAfter(cause, c, args, m); Owns(ca.own, k) && ca.own.props[k].enumerable
    ensures var w := WrapOutcome(host, cause, c, name, message, args, m);
      var ca := CauseAfter(cause, c, args, m);
      && w.Constructed?
      && Owns(w.made.own, k)
      && w.made.own.props[k] == Getter(cause, k, ca.own.props[k].value, true)
  {
    var e := NewError(message, host.fullTrace);
    assert Construct(host, ChooseStrategy(m), name, message, m) == Constructed(e);
    var created := CreatedError(host, CreateErrorFrame, name, message, m);
    FinishFrame(e.own, name, host.traceAbove(CreateErrorFrame), WithoutSelectors(m.own), k);
    AttachedFrame(created.made, cause, CauseAfter(cause, c, args, m), false, k);
  }

  /** Without a `name` in the bags, the wrapper error is named by the
      resolved name. */
  lemma {:induction false} WrapName(host: Host, cause: JsObject, c: Snapshot, name: string, message: string,
                                   args: seq<Arg>, m: Snapshot)
    requires !Copies(m.own, NameKey)
    ensures var w := WrapOutcome(host, cause, c, name, message, args, m);
      w.Constructed? ==> Owns(w.made.own, NameKey) && w.made.own.props[NameKey].value == Str(name)
  {
    var created := CreatedError(host, CreateErrorFrame, name, message, m);
    if created.Constructed? {
      var made := Construct(host, ChooseStrategy(m), name, message, m);
      FinishFrame(made.made.own, name, host.traceAbove(CreateErrorFrame), WithoutSelectors(m.own), NameKey);
      AttachedFrame(created.made, cause, CauseAfter(cause, c, args, m), false, NameKey);
    }
  }

  // ---------------------------------------------------------------------------
  // The operations

  /** The bag `createError` may change: the first bag, when it is an object passed as it is. */
  function FirstLiteral(bags: seq<BagSource>): set<JsObject> {
    if |bags| > 0 && bags[0].Literal? then {bags[0].bag} else {}
  }

  /** Evaluates the bag arguments: each bag function is called on the cause
      and gives a new object; any other bag is passed on unchanged. */
  method ResolveBags(cause: JsObject, bags: seq<BagSource>) returns (objs: seq<Option<JsObject>>)
    ensures |objs| == |bags|
    ensures forall i | 0 <= i < |bags| :: bags[i].NoBag? <==> objs[i].None?
    ensures forall i | 0 <= i < |bags| && bags[i].Literal? :: objs[i] == Some(bags[i].bag)
    ensures forall i | 0 <= i < |bags| && bags[i].Computed? ::
      objs[i].Some? && fresh(objs[i].value) && objs[i].value.Snap() == PlainObject(bags[i].f(cause.Snap()))
    ensures forall i | 1 <= i < |bags| && bags[i].Computed? :: objs[i] != objs[0]
  {
    objs := [];
    var i := 0;
    while i < |bags|
      invariant 0 <= i <= |bags| && |objs| == i
      invariant forall j | 0 <= j < i :: bags[j].NoBag? <==> objs[j].None?
      invariant forall j | 0 <= j < i && bags[j].Literal? :: objs[j] == Some(bags[j].bag)
      invariant forall j | 0 <= j < i && bags[j].Computed? ::
        objs[j].Some? && fresh(objs[j].value) && objs[j].value.Snap() == PlainObject(bags[j].f(cause.Snap()))
      invariant forall j | 1 <= j < i && bags[j].Computed? :: objs[j] != objs[0]
    {
      var next: Option<JsObject>;
      match bags[i] {
        case NoBag =>
          next := None;
        case Literal(o) =>
          next := Some(o);
        case Computed(f) =>
          var made := new JsObject(PlainObject(f(cause.Snap())));
          next := Some(made);
      }
      objs := objs + [next];
      i := i + 1;
    }
  }

  /** In the state after `ResolveBags`, the objects it returned merge as the
      resolved arguments do. */
  lemma ResolvedMergeAgrees(objs: seq<Option<JsObject>>, args: seq<Arg>)
    requires |objs| == |args|
    requires forall i | 0 <= i < |args| :: args[i].Missing? <==> objs[i].None?
    requires forall i | 0 <= i < |args| && args[i].Existing? :: objs[i] == Some(args[i].obj) && args[i].obj.Snap() == args[i].state
    requires forall i | 0 <= i < |args| && args[i].Made? ::
      objs[i].Some? && objs[i].value.Snap() == PlainObject(args[i].own)
    requires forall i | 1 <= i < |args| ::
      objs[i].Some? && objs[i] == objs[0] <==> args[i].Existing? && args[0].Existing? && args[i].obj == args[0].obj
    ensures MergedBag(objs) == ArgsMerged(args)
  {
    if |args| > 0 {
      var first, rest := objs[0], objs[1..];
      var a0, arest := args[0], args[1..];
      assert BagObjects(rest) <= BagObjects(objs);
      var s1 := SourcesOf(rest, first);
      var s2 := ArgSources(arest, a0);
      forall i | 0 <= i < |rest| ensures s1[i] == s2[i] {
        assert rest[i] == objs[i + 1] && arest[i] == args[i + 1];
      }
      assert s1 == s2;
    }
  }

  /** `wrapError(cause, name, message, p1, …, p10)`.  The names and
      messages fall back to the cause's own, which are strings because the
      cause is an `Error`. */
  method WrapError(host: Host, cause: JsObject, name: TextSource, message: TextSource, bags: seq<BagSource>)
    returns (r: Outcome)
    requires |bags| <= MaxBags
    requires ResolveText(name, cause.Snap(), NameKey).Str?
    requires ResolveText(message, cause.Snap(), MessageKey).Str?
    modifies FirstLiteral(bags)
    ensures var c := old(cause.Snap());
      var args := old(ArgsOf(bags, c));
      Reports(r, WrapOutcome(host, cause, c, ResolveText(name, c, NameKey).s, ResolveText(message, c, MessageKey).s,
                             args, ArgsMerged(args)))
    ensures r.Created? ==> fresh(r.error)
    ensures |bags| > 0 && bags[0].Literal? ==>
      var args := old(ArgsOf(bags, cause.Snap()));
      bags[0].bag.own == if r.Threw? then ArgsMerged(args).own else WithoutSelectors(ArgsMerged(args).own)
  {
    ghost var c := cause.Snap();
    ghost var args := ArgsOf(bags, c);
    ghost var m := ArgsMerged(args);
    var errorName := ResolveText(name, cause.Snap(), NameKey);
    var errorMessage := ResolveText(message, cause.Snap(), MessageKey);
    var objs := ResolveBags(cause, bags);
    assert forall i | 0 <= i < |args| && args[i].Existing? :: args[i].obj.Snap() == args[i].state;
    ResolvedMergeAgrees(objs, args);
    assert MergedBag(objs) == m;
    r := CreateAndAttach(host, cause, errorName.s, errorMessage.s, objs, args, c, m);
  }

  /** `setErrorCause(createError(name, message, …objs), cause)`, where the
      bag objects `objs` are the resolved arguments `args` with merged bag `m`. */
  method CreateAndAttach(host: Host, cause: JsObject, name: string, message: string,
                         objs: seq<Option<JsObject>>, ghost args: seq<Arg>, ghost c: Snapshot, ghost m: Snapshot)
    returns (r: Outcome)
    requires |objs| <= MaxBags && |args| == |objs|
    requires cause.Snap() == c
    requires |objs| > 0 ==> (objs[0] == Some(cause) <==> args[0].Existing? && args[0].obj == cause)
    requires MergedBag(objs) == m
    modifies FirstBag(objs)
    ensures Reports(r, WrapOutcome(host, cause, c, name, message, args, m))
    ensures r.Created? ==> fresh(r.error)
    ensures |objs| > 0 && objs[0].Some? ==>
      objs[0].value.own == if r.Threw? then m.own else WithoutSelectors(m.own)
  {
    var created := CreateFor(host, cause, name, message, objs, args, c);
    if created.Threw? {
      return Threw(created.thrown);
    }
    ghost var made := created.error.Snap();
    ghost var stripped := WithoutSelectors(m.own);
    // The new error is fresh, so attaching the cause to it leaves the first bag alone.
    if |objs| > 0 && objs[0].Some? {
      assert objs[0].value.own == stripped;
      assert created.error != objs[0].value;
    }
    var error := SetErrorCause(created.error, cause);
    assert error.own == CauseAttached(made, cause, CauseAfter(cause, c, args, m), false);
    r := Created(error);
  }

  /** The `createError` call of `wrapError`, and the state in which it leaves the cause. */
  method CreateFor(host: Host, cause: JsObject, name: string, message: string,
                   objs: seq<Option<JsObject>>, ghost args: seq<Arg>, ghost c: Snapshot)
    returns (r: Outcome)
    requires |objs| <= MaxBags && |args| == |objs|
    requires cause.Snap() == c
    requires |objs| > 0 ==> (objs[0] == Some(cause) <==> args[0].Existing? && args[0].obj == cause)
    modifies FirstBag(objs)
    ensures Reports(r, CreatedError(host, CreateErrorFrame, name, message, old(MergedBag(objs))))
    ensures r.Created? ==> fresh(r.error) && cause.Snap() == CauseAfter(cause, c, args, old(MergedBag(objs)))
    ensures |objs| > 0 && objs[0].Some? ==>
      objs[0].value.own == if r.Threw? then old(MergedBag(objs)).own else WithoutSelectors(old(MergedBag(objs)).own)
  {
    r := CreateError(host, name, message, objs);
    if r.Created? && !(|objs| > 0 && objs[0] == Some(cause)) {
      assert cause !in FirstBag(objs);
    }
  }

  /** What `wrapFailure` gets from running its thunk: a value, or a thrown error. */
  datatype Attempt<T> = Returned(value: T) | Failed(thrown: JsObject)

  /** How `wrapFailure` completes: it returns a value, throws the wrapper
      error, or propagates what `createError` threw while building it. */
  datatype Completion<T> = Normal(value: T) | ThrewWrapped(error: JsObject) | ThrewFromWrap(thrown: Thrown)

  /** `wrapFailure(fallible, name, message, p1, …, p10)`: the thunk's value
      when it returns, and otherwise never a value: the failure is rethrown
      wrapped by `wrapError`. */
  method WrapFailure<T>(host: Host, fallible: Attempt<T>, name: TextSource, message: TextSource, bags: seq<BagSource>)
    returns (r: Completion<T>)
    requires |bags| <= MaxBags
    requires fallible.Failed? ==> ResolveText(name, fallible.thrown.Snap(), NameKey).Str?
    requires fallible.Failed? ==> ResolveText(message, fallible.thrown.Snap(), MessageKey).Str?
    modifies FirstLiteral(bags)
    ensures fallible.Returned? ==> r == Normal(fallible.value) && unchanged(FirstLiteral(bags))
    ensures fallible.Failed? ==> !r.Normal?
    ensures fallible.Failed? ==>
      var cause := fallible.thrown;
      var c := old(cause.Snap());
      var args := old(ArgsOf(bags, c));
      var w := WrapOutcome(host, cause, c, ResolveText(name, c, NameKey).s, ResolveText(message, c, MessageKey).s,
                           args, ArgsMerged(args));
      && (r.ThrewFromWrap? <==> w.Raised?)
      && (r.ThrewFromWrap? ==> r.thrown == w.thrown)
      && (r.ThrewWrapped? ==> fresh(r.error) && r.error.Snap() == w.made)
      && (|bags| > 0 && bags[0].Literal? ==>
            bags[0].bag.own == if r.ThrewFromWrap? then ArgsMerged(args).own else WithoutSelectors(ArgsMerged(args).own))
  {
    match fallible
    case Returned(v) =>
      r := Normal(v);
    case Failed(cause) =>
      var wrapped := WrapError(host, cause, name, message, bags);
      r := if wrapped.Created? then ThrewWrapped(wrapped.error) else ThrewFromWrap(wrapped.thrown);
  }

  /** The function `createErrorWrapper(name, message, p1, …, p10)` returns,
      as the arguments it closes over. */
  datatype ErrorWrapper = ErrorWrapper(name: TextSource, message: TextSource, bags: seq<BagSource>) {

    /** Calling the wrapper on a cause is `wrapError` with the closed-over arguments. */
    method Wrap(host: Host, cause: JsObject) returns (r: Outcome)
      requires |bags| <= MaxBags
      requires ResolveText(name, cause.Snap(), NameKey).Str?
      requires ResolveText(message, cause.Snap(), MessageKey).Str?
      modifies FirstLiteral(bags)
      ensures var c := old(cause.Snap());
        var args := old(ArgsOf(bags, c));
        Reports(r, WrapOutcome(host, cause, c, ResolveText(name, c, NameKey).s, ResolveText(message, c, MessageKey).s,
                               args, ArgsMerged(args)))
      ensures r.Created? ==> fresh(r.error)
      ensures |bags| > 0 && bags[0].Literal? ==>
        var args := old(ArgsOf(bags, cause.Snap()));
        bags[0].bag.own == if r.Threw? then ArgsMerged(args).own else WithoutSelectors(ArgsMerged(args).own)
    {
      r := WrapError(host, cause, name, message, bags);
    }
  }
}
