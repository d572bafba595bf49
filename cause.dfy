/**
 * Attaching a cause to an error (src/lib/cause.ts).  `setErrorCause(self,
 * cause)` changes `self` in place: it sets `cause` to a cause-hiding view of
 * the cause and `causeChain` to that view followed by the cause's own
 * chain, adds a forwarding getter for every enumerable key of the cause
 * that `self` lacks, and appends a "caused by" line to `self.stack`.
 *
 * `CauseAttached` states the resulting own properties of `self` as a
 * function of the states before the call; the method is proved against it
 * and the lemmas state what that function promises.
 */
module Cause {
  import opened JsObjects
  import opened HiddenView
  import opened TypeUtils

  /** `v instanceof Error`.  A view answers as its error does. */
  predicate IsErrorValue(v: Value) {
    match v
    case Object(o) => o.isError
    case Hidden(t) => t.isError
    case _ => false
  }

  /** `hasCause(e)`: `e` owns `causeChain` and `cause`, the chain is an
      array of errors, and the cause is an error. */
  predicate HasCause(s: Shape) {
    && Owns(s, CauseChainKey)
    && Owns(s, CauseKey)
    && s.props[CauseChainKey].value.Array?
    && (forall i | 0 <= i < |s.props[CauseChainKey].value.items| :: IsErrorValue(s.props[CauseChainKey].value.items[i]))
    && IsErrorValue(s.props[CauseKey].value)
  }

  /** The chain a cause contributes: empty unless it passes `hasCause`. */
  function InheritedChain(c: Shape): (r: seq<Value>)
    ensures HasCause(c) ==> r == c.props[CauseChainKey].value.items
    ensures !HasCause(c) ==> r == []
  {
    if HasCause(c) then c.props[CauseChainKey].value.items else []
  }

  /** The new `causeChain`: the view of the cause, then the cause's own chain. */
  function ChainFor(c: Shape, view: Value): (r: seq<Value>)
    ensures |r| == 1 + |InheritedChain(c)| && r[0] == view && r[1..] == InheritedChain(c)
  {
    [view] + InheritedChain(c)
  }

  /** The `forEach` loop over `keys`: each key `self` does not own (at that
      point) gains an enumerable getter forwarding to `source[key]`, whose
      value is read from `src`. */
  function ForwardMissing(s: Shape, keys: seq<Key>, source: JsObject, src: Snapshot): Shape
  {
    if keys == [] then s
    else ForwardOne(ForwardMissing(s, keys[..|keys| - 1], source, src), keys[|keys| - 1], source, src)
  }

  /** One round of the loop: a getter for `k` unless `k` is already owned. */
  function ForwardOne(m: Shape, k: Key, source: JsObject, src: Snapshot): Shape
  {
    if Owns(m, k) then m else DefineGetter(m, k, source, Lookup(src, k))
  }

  /** `${v ?? ""}`. */
  function OrEmpty(v: Value): string {
    if v == Undefined || v == Null then "" else Display(v)
  }

  /** What follows "caused by": the cause's stack if it owns one holding a
      string, else its name and message. */
  function CausedByText(c: Snapshot): string {
    if Owns(c.own, StackKey) && c.own.props[StackKey].value.Str? then c.own.props[StackKey].value.s
    else Display(Lookup(c, NameKey)) + ": " + Display(Lookup(c, MessageKey))
  }

  const CausedByPrefix := "\n  caused by "

  /** `Object.assign(self, {cause: view, causeChain: chain})`. */
  function WithCauseFields(s: Shape, view: Value, chain: seq<Value>): Shape
  {
    SetProp(SetProp(s, CauseKey, view), CauseChainKey, Array(chain))
  }

  /** What a read of `cause` sees: the cause as it was before the call or,
      when the cause is `self`, self's current properties. */
  function Seen(c: Snapshot, now: Shape, same: bool): Snapshot
  {
    if same then Snapshot(c.isError, c.inherited, now) else c
  }

  /** `self.stack = `${self.stack ?? ""}\n  caused by …``. */
  function WithCausedBy(me: Snapshot, c: Snapshot): Shape
  {
    SetProp(me.own, StackKey, Str(OrEmpty(Lookup(me, StackKey)) + CausedByPrefix + CausedByText(c)))
  }

  /** `self` after `Object.assign(self, {cause: view, causeChain: chain})`,
      for the cause `cause` whose own properties were `c`. */
  function Linked(me: Shape, cause: JsObject, c: Shape): Shape
  {
    WithCauseFields(me, Hidden(cause), ChainFor(c, Hidden(cause)))
  }

  /** `self` after the `forEach` loop over `Object.keys(cause)`. */
  function Forwarded(me: Snapshot, cause: JsObject, c: Snapshot, same: bool): Shape
  {
    var s1 := Linked(me.own, cause, c.own);
    ForwardMissing(s1, EnumerableKeys(Seen(c, s1, same).own), cause, Seen(c, s1, same))
  }

  /** The own properties of `self` after `setErrorCause(self, cause)`, where
      `me` and `c` are `self` and `cause` before the call and `same` says
      whether they are one object. */
  function CauseAttached(me: Snapshot, cause: JsObject, c: Snapshot, same: bool): Shape
  {
    var s2 := Forwarded(me, cause, c, same);
    WithCausedBy(Snapshot(me.isError, me.inherited, s2), Seen(c, s2, same))
  }

  // ---------------------------------------------------------------------------
  // What the forwarding loop does

  /** The loop adds exactly the keys of `keys` that `s` lacked, as getters
      forwarding to `source`, and leaves every owned key alone. */
  lemma {:induction false} ForwardMissingFrame(s: Shape, keys: seq<Key>, source: JsObject, src: Snapshot, k: Key)
    ensures var r := ForwardMissing(s, keys, source, src);
      && (Owns(r, k) <==> Owns(s, k) || k in keys)
      && (Owns(s, k) ==> r.props[k] == s.props[k])
      && (!Owns(s, k) && k in keys ==> r.props[k] == Getter(source, k, Lookup(src, k), true))
  {
    if keys != [] {
      var n := |keys| - 1;
      ForwardMissingFrame(s, keys[..n], source, src, k);
      assert keys == keys[..n] + [keys[n]];
    }
  }

  lemma ForwardMissingStep(s: Shape, keys: seq<Key>, i: nat, source: JsObject, src: Snapshot)
    requires i < |keys|
    ensures ForwardMissing(s, keys[..i + 1], source, src)
            == ForwardOne(ForwardMissing(s, keys[..i], source, src), keys[i], source, src)
  {
    assert keys[..i + 1][..i] == keys[..i];
  }

  /** When `self` already owns every key, the loop changes nothing. */
  lemma {:induction false} ForwardMissingOwned(s: Shape, keys: seq<Key>, source: JsObject, src: Snapshot)
    requires forall k | k in keys :: Owns(s, k)
    ensures ForwardMissing(s, keys, source, src) == s
  {
    if keys != [] {
      ForwardMissingOwned(s, keys[..|keys| - 1], source, src);
    }
  }

  // ---------------------------------------------------------------------------
  // What `setErrorCause` promises

  /** Key by key: after the call `self` owns what it owned, `cause`,
      `causeChain`, `stack`, and, when the cause is another object, the
      cause's enumerable string keys.  `cause` holds the view of the cause
      and `causeChain` the new chain; keys `self` owned, other than the three
      written, are untouched; a key only the cause had reads through a
      getter forwarding to the cause (except `stack`, which the last step
      overwrites). */
  lemma {:induction false} ForwardedFrame(me: Snapshot, cause: JsObject, c: Snapshot, same: bool, k: Key)
    ensures var r := Forwarded(me, cause, c, same);
      && (Owns(r, k) <==> || Owns(me.own, k) || IsCauseField(k)
                          || (!same && k.Named? && Owns(c.own, k) && c.own.props[k].enumerable))
      && (k == CauseKey ==> r.props[k].value == Hidden(cause))
      && (k == CauseChainKey ==> r.props[k].value == Array(ChainFor(c.own, Hidden(cause))))
      && (Owns(me.own, k) && !IsCauseField(k) ==> r.props[k] == me.own.props[k])
      && (!same && k.Named? && Owns(c.own, k) && c.own.props[k].enumerable && !Owns(me.own, k) && !IsCauseField(k)
          ==> r.props[k] == Getter(cause, k, c.own.props[k].value, true))
  {
    var s1 := Linked(me.own, cause, c.own);
    var c1 := Seen(c, s1, same);
    var keys := EnumerableKeys(c1.own);
    ForwardMissingFrame(s1, keys, cause, c1, k);
    if same {
      assert k in keys ==> Owns(s1, k);
    }
  }

  lemma {:induction false} AttachedFrame(me: Snapshot, cause: JsObject, c: Snapshot, same: bool, k: Key)
    ensures var r := CauseAttached(me, cause, c, same);
      && (Owns(r, k) <==> || Owns(me.own, k) || IsCauseField(k) || k == StackKey
                          || (!same && k.Named? && Owns(c.own, k) && c.own.props[k].enumerable))
      && (k == CauseKey ==> r.props[k].value == Hidden(cause))
      && (k == CauseChainKey ==> r.props[k].value == Array(ChainFor(c.own, Hidden(cause))))
      && (Owns(me.own, k) && !IsCauseField(k) && k != StackKey ==> r.props[k] == me.own.props[k])
      && (!same && k.Named? && Owns(c.own, k) && c.own.props[k].enumerable
          && !Owns(me.own, k) && !IsCauseField(k) && k != StackKey
          ==> r.props[k] == Getter(cause, k, c.own.props[k].value, true))
  {
    ForwardedFrame(me, cause, c, same, k);
  }

  /** `self.cause` is the view of the cause and `self.causeChain` is that
      same view followed by the cause's chain. */
  lemma {:induction false} AttachedCauseAndChain(me: Snapshot, cause: JsObject, c: Snapshot, same: bool)
    ensures var r := CauseAttached(me, cause, c, same);
      && Owns(r, CauseKey) && r.props[CauseKey].value == Hidden(cause)
      && Owns(r, CauseChainKey) && r.props[CauseChainKey].value == Array(ChainFor(c.own, Hidden(cause)))
  {
    AttachedFrame(me, cause, c, same, CauseKey);
    AttachedFrame(me, cause, c, same, CauseChainKey);
  }

  /** Attaching an error as cause makes `self` pass `hasCause`, with a chain
      one longer than the cause's own. */
  lemma {:induction false} AttachEstablishesHasCause(me: Snapshot, cause: JsObject, c: Snapshot, same: bool)
    requires cause.isError
    ensures var r := CauseAttached(me, cause, c, same);
      && HasCause(r)
      && InheritedChain(r) == [Hidden(cause)] + InheritedChain(c.own)
  {
    AttachedCauseAndChain(me, cause, c, same);
    var r := CauseAttached(me, cause, c, same);
    var chain := ChainFor(c.own, Hidden(cause));
    assert r.props[CauseChainKey].value.items == chain;
    forall i | 0 <= i < |chain| ensures IsErrorValue(chain[i]) {
      if i > 0 {
        assert chain[i] == InheritedChain(c.own)[i - 1];
      }
    }
    assert HasCause(r);
  }

  /** Errors chained twice: when B has been given cause C and A is then
      given cause B, A's chain is [view of B, view of C]. */
  lemma {:induction false} ChainAccumulates(a: Snapshot, b: JsObject, bBefore: Snapshot, cObj: JsObject, c: Snapshot)
    requires b.isError && cObj.isError
    requires !HasCause(c.own)
    ensures var bAfter := Snapshot(b.isError, b.inherited, CauseAttached(bBefore, cObj, c, false));
      InheritedChain(CauseAttached(a, b, bAfter, false)) == [Hidden(b), Hidden(cObj)]
  {
    var bAfter := Snapshot(b.isError, b.inherited, CauseAttached(bBefore, cObj, c, false));
    AttachEstablishesHasCause(bBefore, cObj, c, false);
    assert InheritedChain(bAfter.own) == [Hidden(cObj)];
    AttachEstablishesHasCause(a, b, bAfter, false);
  }

  /** An error given itself as cause gains no getters: it owns every key it lists. */
  lemma {:induction false} SelfCauseAddsNoGetters(me: Snapshot, cause: JsObject)
    ensures Forwarded(me, cause, me, true) == Linked(me.own, cause, me.own)
  {
    var s1 := Linked(me.own, cause, me.own);
    ForwardMissingOwned(s1, EnumerableKeys(s1), cause, Seen(me, s1, true));
  }

  /** The new stack of an error given another object as cause: the stack
      `self` read before the call (its own, else an inherited one, else
      nothing, which reads as ""), then "\n  caused by ", then the cause's
      stack when it owns a string one, or else "name: message".  When `self`
      has no stack of its own but the cause has an enumerable one, the loop
      has just given `self` a getter for `stack`; the assignment that follows
      then reads the cause's stack through that getter. */
  lemma {:induction false} AttachedStack(me: Snapshot, cause: JsObject, c: Snapshot)
    ensures var r := CauseAttached(me, cause, c, false);
      var before := if !Owns(me.own, StackKey) && Owns(c.own, StackKey) && c.own.props[StackKey].enumerable
                    then c.own.props[StackKey].value
                    else Lookup(me, StackKey);
      && Owns(r, StackKey)
      && r.props[StackKey].value
         == Str(OrEmpty(before) + "\n  caused by "
                + if Owns(c.own, StackKey) && c.own.props[StackKey].value.Str? then c.own.props[StackKey].value.s
                  else Display(Lookup(c, NameKey)) + ": " + Display(Lookup(c, MessageKey)))
  {
    ForwardedFrame(me, cause, c, false, StackKey);
  }

  // ---------------------------------------------------------------------------
  // The operation

  /** The `forEach` loop of `setErrorCause` when the cause is another
      object: for each key in order that `self` does not own, an enumerable
      getter forwarding to `cause[key]`. */
  method ForwardKeys(self: JsObject, cause: JsObject, keys: seq<Key>)
    requires self != cause
    modifies self
    ensures self.own == ForwardMissing(old(self.own), keys, cause, old(cause.Snap()))
  {
    ghost var s0 := self.own;
    ghost var c0 := cause.Snap();
    var i := 0;
    while i < |keys|
      invariant 0 <= i <= |keys|
      invariant self.own == ForwardMissing(s0, keys[..i], cause, c0)
    {
      var key := keys[i];
      ghost var next := ForwardOne(self.own, key, cause, c0);
      ForwardMissingStep(s0, keys, i, cause, c0);
      if !self.HasOwn(key) {
        self.DefineForwarder(key, cause, cause.Get(key));
      }
      assert self.own == next;
      i := i + 1;
    }
    assert keys[..i] == keys;
  }

  /** The text after "caused by": `cause.stack` when `hasStack(cause)`, else
      `${cause.name}: ${cause.message}`. */
  method DescribeCause(cause: JsObject) returns (text: string)
    ensures text == CausedByText(cause.Snap())
  {
    if HasStack(Object(cause)) {
      text := cause.Get(StackKey).s;
    } else {
      text := Display(cause.Get(NameKey)) + ": " + Display(cause.Get(MessageKey));
    }
  }

  /** `setErrorCause(self, cause)`: changes `self` in place and returns it;
      `cause` is only read. */
  method SetErrorCause(self: JsObject, cause: JsObject) returns (withCause: JsObject)
    modifies self
    ensures withCause == self
    ensures self.own == CauseAttached(old(self.Snap()), cause, old(cause.Snap()), self == cause)
    ensures self != cause ==> cause.own == old(cause.own)
  {
    ghost var me := self.Snap();
    ghost var c := cause.Snap();
    ghost var same := self == cause;
    var view := Hidden(cause);
    var chain := [view] + (if HasCause(cause.own) then cause.own.props[CauseChainKey].value.items else []);
    assert chain == ChainFor(c.own, view);
    self.Put(CauseKey, view);
    self.Put(CauseChainKey, Array(chain));
    ghost var s1 := self.own;
    assert s1 == Linked(me.own, cause, c.own);
    assert cause.Snap() == Seen(c, s1, same);
    var keys := EnumerableKeys(cause.own);
    if self != cause {
      ForwardKeys(self, cause, keys);
    } else {
      // `self` owns every key `Object.keys(self)` lists, so the loop defines nothing.
      ForwardMissingOwned(s1, keys, cause, cause.Snap());
    }
    ghost var s2 := self.own;
    assert cause.Snap() == Seen(c, s2, same);
    var before := self.Get(StackKey);
    var tail := DescribeCause(cause);
    self.Put(StackKey, Str(OrEmpty(before) + CausedByPrefix + tail));
    withCause := self;
  }
}
