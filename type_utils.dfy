/**
 * The two run-time type tests the library uses: `isObject` and `hasStack`
 * (src/lib/type-utils.ts).
 */
module TypeUtils {
  import opened JsObjects
  import opened HiddenView

  /** `typeof v`.  A cause-hiding view is a proxy over an error object, so it
      reports what the error reports. */
  function TypeOf(v: Value): string {
    match v
    case Undefined => "undefined"
    case Null => "object"
    case Bool(_) => "boolean"
    case Num(_) => "number"
    case Str(_) => "string"
    case Function(_) => "function"
    case Object(_) => "object"
    case Hidden(_) => "object"
    case Array(_) => "object"
  }

  /** `isObject(x)`: `x` is not null and `typeof x` is "object". */
  predicate IsObject(x: Value)
    ensures IsObject(x) <==> x != Null && TypeOf(x) == "object"
  {
    x.Object? || x.Hidden? || x.Array?
  }

  /** `Object.hasOwnProperty.call(x, k)` on an object.  On a view the
      question goes to its descriptor trap; an array owns `length` (its
      index keys are not needed here and are not modelled). */
  predicate OwnsProperty(x: Value, k: Key)
    reads Referenced(x)
    requires IsObject(x)
  {
    match x
    case Object(o) => o.HasOwn(k)
    case Hidden(t) => HiddenDescriptor(t.own, k) != NoDescriptor
    case Array(_) => k == Named("length")
  }

  /** `x[k]` on an object.  A view forwards reads to its error. */
  function GetValue(x: Value, k: Key): Value
    reads Referenced(x)
    requires IsObject(x)
  {
    match x
    case Object(o) => o.Get(k)
    case Hidden(t) => t.Get(k)
    case Array(items) => if k == Named("length") then Num(|items|) else Undefined
  }

  /** `hasStack(e)`: `e` is an object that owns a `stack` property holding a string. */
  predicate HasStack(e: Value)
    reads Referenced(e)
    ensures HasStack(e) ==> IsObject(e)
    ensures HasStack(e) ==> OwnsProperty(e, StackKey) && GetValue(e, StackKey).Str?
    ensures e.Object? && !e.ref.HasOwn(StackKey) ==> !HasStack(e)
    ensures e.Object? && e.ref.HasOwn(StackKey) ==> (HasStack(e) <==> e.ref.own.props[StackKey].value.Str?)
    ensures e.Hidden? ==> (HasStack(e) <==> e.target.Get(StackKey).Str?)
  {
    IsObject(e) && OwnsProperty(e, StackKey) && TypeOf(GetValue(e, StackKey)) == "string"
  }
}
