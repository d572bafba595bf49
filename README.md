# er: errors with properties and causes, in Dafny

This project models the core of the TypeScript library `er`. The library builds error objects and gives them extra properties. It also chains errors into causes. The model covers four parts.

- **`createError` / `createErrorStartingAbove`** (`create.dfy`, module `Create`):
  - Merges up to ten optional property bags into the first one with `Object.assign`. Later bags win.
  - Makes the error in one of three ways: the base-class selector, then the factory-function selector, then a plain `new Error(message)`.
  - Names the error, captures its stack, deletes both selectors from the bag, and copies the bag onto the error.
- **`setErrorCause`, `hasCause` and `hideCause`** (`cause.dfy` and `hide_cause.dfy`, modules `Cause` and `HiddenView`):
  - `setErrorCause` changes `self` in place. It sets `cause` to a cause-hiding view of the cause. It sets `causeChain` to that view followed by the cause's own chain. It adds a forwarding getter for every enumerable string key of the cause that `self` lacks. It appends a "caused by" line to `stack`.
  - The view's three traps (own keys, `has`, own-property descriptor) are pure functions of the underlying error's properties.
- **`wrapError`, `wrapFailure` and `createErrorWrapper`** (`wrappers.dfy`, module `Wrappers`):
  - Resolve the name, message and bags against the cause.
  - Compose `createError` and `setErrorCause`.
- **`isObject` and `hasStack`** (`type_utils.dfy`, module `TypeUtils`).

`cause_view_example.dfy` (module `CauseViewExample`) works through the case the `wrapError` unit tests check: the cause `createError(name, message, {foo, bar})` and the key order `Object.keys` gives through the cause-hiding view.

`js_objects.dfy` (module `JsObjects`) holds the part of the JavaScript object model these operations rely on:
- an object's own properties are a `Shape`: the own keys in creation order plus a table from key to property;
- each property is a data value or a getter, with an enumerable flag;
- the built-ins the library calls are pure functions on shapes: assignment, `defineProperty`, `delete`, `Object.keys`, `Reflect.ownKeys` and the reading and writing halves of `Object.assign`.

The class `JsObject` holds a shape in the mutable field `own`, and its methods are proved against those functions. Errors and bags are `JsObject`s, so identity is observable. For example, the view in `causeChain[0]` is over the very cause that `cause` hides, and a bag passed twice to `Object.assign` is read in its current state.

The stateful operations are methods. Each ensures that the new state equals a specification function of the old state:
- `MergeBags` against `MergedBag`;
- `CreateError` against `CreatedError`, and the first bag against `MergedBag`, without selectors unless construction threw;
- `SetErrorCause` against `CauseAttached`;
- `WrapError` against `WrapOutcome`, and an object passed as the first bag against `ArgsMerged`, without selectors unless `createError` threw.

The lemmas state what those functions promise. Code the library calls but does not own is a parameter of the model, never a fixed behaviour:
- user classes and factories, and the stack text the host records, are a `Host` record;
- name, message and bag functions are function values.

## Model

| member | source | states |
|---|---|---|
| JsObjects.Lookup | src/lib/cause.ts:51 | reading `o[k]` yields the own property's value; a key neither owned nor inherited reads as `undefined` |
| JsObjects.SetProp | src/lib/create.ts:116 | assignment keeps an own key's place and enumerable flag; a new key goes last and is enumerable; every other key is untouched |
| JsObjects.DefineValue | src/lib/create.ts:117 | defining a data property sets exactly the given value and flag; an own key keeps its place and other keys are untouched |
| JsObjects.DefineGetter | src/lib/cause.ts:50-53 | a getter for a key not yet owned is appended to the key order, forwarding to the source and enumerable |
| JsObjects.Delete | src/lib/create.ts:118-119 | `delete` removes exactly that key from the property table and from the key order; the rest is kept |
| JsObjects.OwnKeys | src/lib/cause.ts:103 | `Reflect.ownKeys` lists exactly the own keys |
| JsObjects.EnumerableKeys | src/lib/cause.ts:48 | `Object.keys` lists exactly the enumerable own string keys |
| JsObjects.Entries | src/lib/create.ts:95-106 | `Object.assign` reads every enumerable own property of a source, each with its value, and nothing else |
| JsObjects.EntryKeysOfEntries | src/lib/create.ts:120 | the keys `Object.assign` copies from a source are exactly its enumerable own keys |
| JsObjects.AssignEntriesFrame | src/lib/create.ts:120 | after `Object.assign` the target owns what it owned plus every copied key; uncopied keys are untouched and enumerable flags are kept |
| JsObjects.AssignEntriesLastWins | src/lib/create.ts:95-106 | a key ends with the value of its last assignment |
| JsObjects.AssignedFreshEnumerable | src/lib/create.ts:120 | a key the target did not own that an assignment run sets ends up owned and enumerable |
| JsObjects.NewKeys | src/lib/create.ts:120 | the keys an assignment run adds are exactly the assigned keys the target did not own |
| JsObjects.AssignEntriesKeys | src/lib/create.ts:120 | `Object.assign` keeps the target's keys in their places and appends the keys it adds, each once, in the order of their first assignment |
| JsObjects.NewKeysAppend | src/lib/create.ts:95-106 | the keys two runs of assignments add are those of the first run, then those the second adds to the grown key list |
| JsObjects.AssignEntriesAgreeing | src/lib/create.ts:120 | a key every assignment gives the same value ends with that value |
| JsObjects.AssignOwnEntriesKeepsValues | src/lib/create.ts:95-106 | assigning an object's own entries back onto it changes no key, value, flag or order |
| JsObjects.JsObject.constructor | src/lib/create.ts:113 | a new object has exactly the given observable state |
| JsObjects.JsObject.Replace | src/lib/create.ts:95-106 | the object's own properties become the computed ones |
| JsObjects.JsObject.Put | src/lib/create.ts:116 | `o[k] = v` changes the object as `SetProp` says |
| JsObjects.JsObject.Define | src/lib/create.ts:117 | defining a data property changes the object as `DefineValue` says |
| JsObjects.JsObject.DefineForwarder | src/lib/cause.ts:50-53 | `Object.defineProperty` of a forwarding getter changes the object as `DefineGetter` says |
| JsObjects.JsObject.Remove | src/lib/create.ts:118-119 | `delete o[k]` changes the object as `Delete` says |
| JsObjects.JsObject.AssignAll | src/lib/create.ts:120 | the assignment loop of `Object.assign` leaves the target as `AssignEntries` says |
| HiddenView.Filtered | src/lib/cause.ts:103-110 | the filter keeps exactly the keys other than `cause`, `causeChain`, `stack`, `message` and `name` |
| HiddenView.HiddenOwnKeys | src/lib/cause.ts:98-112 | the `ownKeys` trap lists `name`, `message`, `stack` first, then only the error's own keys other than the five special ones |
| HiddenView.AsEnumerable | src/lib/cause.ts:81-84 | spreading a descriptor with `enumerable: true` keeps its value and its kind (data or getter, with the getter's source and key) and makes it enumerable |
| HiddenView.HiddenDescriptor | src/lib/cause.ts:76-87 | there is no descriptor for `cause` and `causeChain`; `name`, `message` and `stack` are always enumerable and keep the error's value; any other key is the error's own descriptor |
| HiddenView.HiddenHas | src/lib/cause.ts:89-96 | `k in view` is true for `name`, `message` and `stack`, false for `cause` and `causeChain`, and otherwise holds when the error owns or inherits `k` |
| HiddenView.ViewEnumerable | src/lib/cause.ts:76-87 | `Object.keys` on the view keeps exactly the string keys whose trap descriptor is enumerable |
| HiddenView.HiddenKeysOrder | src/lib/cause.ts:98-111 | `Object.keys(view)` is `name`, `message`, `stack`, then the error's enumerable string keys in their order, without the five special keys |
| TypeUtils.IsObject | src/lib/type-utils.ts:1-3 | `isObject(x)` holds exactly when `x` is not null and `typeof x` is "object" |
| TypeUtils.HasStack | src/lib/type-utils.ts:5-11 | `hasStack` implies `isObject`; it needs an own `stack` (an inherited one does not count) holding a string |
| Cause.HasCause | src/lib/cause.ts:24-32 | `hasCause(e)`: `e` owns `causeChain` and `cause`, the chain is an array whose every element is an `Error`, and the cause is an `Error` |
| Cause.InheritedChain | src/lib/cause.ts:45 | the chain a cause contributes is its `causeChain` when `hasCause` holds, and empty otherwise |
| Cause.ChainFor | src/lib/cause.ts:45 | the new chain is the view, then the cause's contributed chain; its length is one more |
| Cause.ForwardMissingFrame | src/lib/cause.ts:48-55 | the loop adds exactly the listed keys `self` lacked, each as an enumerable getter forwarding to the cause with the cause's value; owned keys are untouched |
| Cause.ForwardMissingOwned | src/lib/cause.ts:48-55 | when `self` owns every listed key, the loop changes nothing |
| Cause.ForwardedFrame | src/lib/cause.ts:42-55 | after the assignment and the loop, `self` owns its old keys, `cause`, `causeChain`, and the cause's enumerable string keys when the cause is another object; values are as set, as kept, or forwarded |
| Cause.AttachedFrame | src/lib/cause.ts:42-63 | key by key: what `self` owns after `setErrorCause`; `cause` and `causeChain` hold the view and the new chain; old keys except `stack` are unchanged; keys only the cause had are forwarding getters |
| Cause.AttachedCauseAndChain | src/lib/cause.ts:42-46 | `self.cause` is the view of the cause and `self.causeChain` is that same view followed by the cause's chain |
| Cause.AttachEstablishesHasCause | src/lib/cause.ts:24-46 | attaching an error as cause makes `hasCause(self)` hold, with chain `[view] + old chain` |
| Cause.ChainAccumulates | src/lib/cause.ts:45 | wrapping twice gives the chain `[view of B, view of C]`, of length 2 |
| Cause.SelfCauseAddsNoGetters | src/lib/cause.ts:48-55 | an error given itself as cause gains no getter |
| Cause.AttachedStack | src/lib/cause.ts:57-63 | for a cause other than `self`, whether or not `self` owns a stack: the new stack is the stack `self` read before (own, else inherited, else "" for `?? ""`), then "\n  caused by ", then the cause's stack when it owns a string one, else "name: message"; when only the cause owns an enumerable stack, the old text is the cause's stack read through the forwarding getter |
| Cause.ForwardKeys | src/lib/cause.ts:48-55 | the `forEach` loop changes `self` as `ForwardMissing` says |
| Cause.DescribeCause | src/lib/cause.ts:57-62 | the text after "caused by" is the cause's stack when `hasStack(cause)`, else its name and message |
| Cause.SetErrorCause | src/lib/cause.ts:38-66 | returns `self`; `self` ends as `CauseAttached` of the states before the call; the cause is not written |
| Create.MergeStepFrame | src/lib/create.ts:95-106 | one `Object.assign` source adds the keys it supplies with its values; other keys keep their values; the target passed again changes no value |
| Create.MergeKeys | src/lib/create.ts:95-106 | the merged bag owns exactly the first bag's keys and the keys some later bag supplies |
| Create.MergeLastWins | src/lib/create.ts:95-106 | a key takes its value from the last bag that supplies it |
| Create.MergeKeepsTarget | src/lib/create.ts:95-106 | a key of the first bag that no later bag supplies keeps its value |
| Create.AbsentMergesAsEmpty | src/lib/create.ts:96-105 | a missing bag merges exactly as the `{}` it is replaced by |
| Create.MergeKeyOrder | src/lib/create.ts:95-106 | the merged bag keeps the first bag's key order and appends the keys the later bags add, in the order they are first supplied |
| Create.HasBaseClass | src/lib/create.ts:20-24 | `hasBaseClass(p)`: the bag owns the base-class selector symbol; an inherited one does not count |
| Create.HasFactoryFunction | src/lib/create.ts:26-33 | `hasFactoryFunction(p)`: the bag owns the factory selector symbol; an inherited one does not count |
| Create.ChooseStrategy | src/lib/create.ts:108-115 | an owned base-class selector wins even when the factory selector is also owned; the factory is used only without it; a plain `Error` is made with neither |
| Create.NewError | src/lib/create.ts:113 | `new Error(message)` is an `Error` owning exactly non-enumerable `stack` and `message`, and inheriting the name "Error" |
| Create.Construct | src/lib/create.ts:108-115 | the selected class is constructed, or the factory called, with (name, message, bag); a selector that is not a function throws a `TypeError` |
| Create.WithoutSelectors | src/lib/create.ts:118-119 | the bag loses both selectors and keeps every other key and property |
| Create.FinishFrame | src/lib/create.ts:116-120 | the error owns what was constructed plus `name`, `stack` and every key the bag copies; bag values win, the name and stack are as set otherwise, and other constructed properties stay |
| Create.FinishName | src/lib/create.ts:116-120 | the error's `name` is the bag's `name` if the bag has one, else the given name |
| Create.FinishStack | src/lib/create.ts:117-120 | without a `stack` in the bag, the captured stack stays and is not enumerable |
| Create.FinishAddsEnumerable | src/lib/create.ts:116-120 | a key the bag copies that the constructed object did not own, other than `name` and `stack`, is an enumerable own key of the error |
| Create.FinishKeyOrder | src/lib/create.ts:116-120 | the error keeps the constructed keys in order, then `name` and `stack` when they were not owned, then the keys the bag adds in the bag's order |
| Create.PlainErrorMade | src/lib/create.ts:111-120 | with neither selector the result is the finished `new Error(message)` |
| Create.PlainErrorKeyOrder | src/lib/create.ts:111-120 | with neither selector the error's own keys are `stack`, `message`, `name`, then the keys the bag adds in the bag's order |
| Create.FinishMessage | src/lib/create.ts:113-120 | an own `message` keeps its value unless the bag supplies one |
| Create.PlainErrorCarriesMessage | src/lib/create.ts:111-115 | with neither selector the result is an `Error` whose message is the given one, unless the bag supplies one |
| Create.CreatedErrorOmitsSelectors | src/lib/create.ts:118-120 | the selectors never reach the error from the bag |
| Create.CreatedErrorCopiesBag | src/lib/create.ts:120 | every enumerable bag key except the selectors is on the error with the bag's value, overriding what the constructor set |
| Create.CreatedErrorName | src/lib/create.ts:116 | without a `name` in the bags, the error's name is the given one, whatever the class or factory set |
| Create.MergeBags | src/lib/create.ts:95-106 | the target is the first bag, changed in place, or a new object; it ends as `MergedBag` of the bags before the call |
| Create.BuildError | src/lib/create.ts:108-120 | the error, or the exception, is `CreatedError` of the bag; the bag loses its selectors unless construction threw |
| Create.CreateErrorStartingAbove | src/lib/create.ts:69-121 | the result is `CreatedError` of the merged bags; the first bag is left as the merged bag, without selectors once an error is made |
| Create.CreateError | src/lib/create.ts:148-162 | behaves as `createErrorStartingAbove` with the stack starting above `createError` |
| Wrappers.ResolveText | src/lib/wrappers.ts:50-54 | a function is applied to the cause; an absent argument falls back to the cause's property; any string, "" included, is kept |
| Wrappers.ArgsOf | src/lib/wrappers.ts:55-64 | each bag is resolved in its own position; there are as many results as bags |
| Wrappers.WrapBagBeatsCause | src/lib/wrappers.ts:52-66 | a value a bag gives for a key is the wrapper error's value for it, even when the cause has that key |
| Wrappers.WrapForwardsCauseKeys | src/lib/wrappers.ts:52-66 | with a plain `Error`, each enumerable key of the cause that the bags do not give (apart from the five special keys) is a getter on the wrapper error that reads the cause's value |
| Wrappers.WrapName | src/lib/wrappers.ts:52-66 | without a `name` in the bags, the wrapper error is named by the resolved name |
| Wrappers.ResolveBags | src/lib/wrappers.ts:55-64 | an object bag is passed as it is; a bag function's result is a new plain object; a missing bag stays missing |
| Wrappers.ResolvedMergeAgrees | src/lib/wrappers.ts:52-65 | the objects passed to `createError` merge as the resolved arguments describe |
| Wrappers.CreateFor | src/lib/wrappers.ts:52-65 | `createError` on the resolved arguments gives `CreatedError`; the first bag ends as the merged bag, without selectors once an error is made; the cause is unchanged unless it was the first bag, when it lost its selectors |
| Wrappers.CreateAndAttach | src/lib/wrappers.ts:52-66 | `setErrorCause(createError(…), cause)` gives `WrapOutcome`; the first bag ends as the merged bag, without selectors unless `createError` threw |
| Wrappers.WrapError | src/lib/wrappers.ts:11-67 | the result, or the exception from `createError`, is `WrapOutcome` of the cause and the resolved name, message and bags; an object passed as the first bag is the `Object.assign` target and ends as the merged bag, without selectors unless `createError` threw |
| Wrappers.WrapFailure | src/lib/wrappers.ts:115-161 | a thunk's value is returned and nothing changes; a failure is never swallowed: it becomes the thrown `wrapError` of it, and an object passed as the first bag ends as `wrapError` leaves it |
| Wrappers.ErrorWrapper.Wrap | src/lib/wrappers.ts:203-204 | calling the wrapper on a cause is `wrapError` with the closed-over arguments; a closed-over first bag object is merged into and stripped of its selectors on every call, as `wrapError` states |
| CauseViewExample.FooBarErrorKeys | test/unit/wrappers.spec.ts:11-17 | `createError(name, message, {foo, bar})` owns `stack`, `message`, `name`, `foo`, `bar` in that order, and only the last three are enumerable |
| CauseViewExample.WrappedCauseKeys | test/unit/wrappers.spec.ts:38-44 | `Object.keys` of the cause-hiding view over that error is `name`, `message`, `stack`, `foo`, `bar` |

## Left out

- `Error.captureStackTrace`: the frame format the host records is not modelled. The stack text is the opaque `Host.traceAbove(frame)`, and the text `new Error` records is `Host.fullTrace`.
- `wrapRejection` (src/lib/wrappers.ts:69-113) is not modelled. It is a promise continuation whose logic is the `wrapError` call already modelled.
- The TypeScript type-level machinery has no run-time behaviour and is not modelled. This covers `ErrorWithProps`, `ErrorType`, `WithConflictingErrorType`, `CauseChain` and `ExtendedCauseChain`.
- User base classes and factories are results of `Host`, and name, message and bag functions are pure functions of the cause's state. Four consequences:
  - they cannot change their arguments;
  - a factory that returns a non-object is not represented;
  - a bag function always returns a new plain object, never an existing one;
  - a class or factory always yields a new object. A factory that returns an existing object, such as the bag or the cause, is not represented. `BuildError` promises a fresh error, and `WrapOutcome` takes the new error to be distinct from the cause; both rely on this.
- The view has no `getPrototypeOf` or `get` trap, so `instanceof` and reads on it answer as the error does, and the model follows that (`Cause.IsErrorValue`, `TypeUtils.GetValue`). Writes through the view (`set`) are not modelled, and neither is prototype traversal beyond the fixed `inherited` map.
- HiddenView.HiddenDescriptor: the Proxy invariant checks on trap results are not modelled. For a `name`, `message` or `stack` the error does not own, the trap reports the bare `{enumerable: true}`. That completes to a non-configurable descriptor for a key the target lacks, so the host always throws a `TypeError` there. The model returns the descriptor instead.
- HiddenView.HiddenKeysOrder: as a consequence, `Object.keys(view)` throws a `TypeError` when the error does not own all of `name`, `message` and `stack`. For example, a plain `new Error("x")` inherits `name`. The lemma gives the key list the traps describe, not that exception. `JSON.stringify(view)` is affected the same way.
- TypeUtils.HasStack: for a view (`Hidden`) over an error that does not own `stack`, `Object.hasOwnProperty.call(view, "stack")` throws a `TypeError`. The model treats the view as owning `stack` and reads the error's `stack` wherever it comes from.
- Getters are snapshots. A forwarding getter records the cause and key, plus the value read when it was defined. Later changes to the cause are not reflected through it.
- Writing to a key that holds an own getter without a setter throws a `TypeError`. The model does not throw; it replaces the getter with a data property and carries on. `Object.assign` throws here in any mode, and the plain assignments throw in strict code. The write happens in these places:
  - the merging `Object.assign(p1, …)` (src/lib/create.ts:95-106), when the first bag owns a getter that a later bag supplies, for example a bag made by an earlier `wrapError`;
  - `error.name = name` (src/lib/create.ts:116), when the constructed object owns a getter-only `name`;
  - `Object.assign(error, props)` (src/lib/create.ts:120), when a user class or factory yields an object with a getter-only own key that the bag supplies;
  - `Object.assign(self, {cause, causeChain})` (src/lib/cause.ts:42-46), when `self` owns a getter for `cause` or `causeChain`;
  - `withCause.stack = …` (src/lib/cause.ts:58, 60), when `self` lacks an own `stack` and the cause has an enumerable one.
- Only the enumerable flag of a property is modelled. Writable and configurable flags, frozen or non-extensible objects, and the errors they cause are not.
- `Reflect.ownKeys` lists string keys in creation order, then symbols. Integer-like keys, which the host lists first in numeric order, are not distinguished. An array value exposes only `length`.
- Numbers are integers. Objects, arrays and functions are displayed by a fixed placeholder where the library builds text from them.
- WrapError: requires the resolved name and message to be strings. For an omitted argument, that means the cause's `name` and `message` are strings, as they are for an `Error`. A name or message function returning `null` is not modelled.
- ErrorWrapper.Wrap: the same requirement as `WrapError`.
- WrapFailure: the same requirement, for the thrown object. A failure that is not an object is not represented, because the thunk's outcome is a returned value or a thrown object.
- The bag parameters are a sequence of at most ten (`MaxBags`), matching the ten declared parameters.
- The merging `Object.assign(p1 ?? {}, …)` (`MergeBags`) is modelled as computing the target's new properties and then committing them with `Replace`. The target passed again as a later source is read in its current state. The model does not include the intermediate states an observer could see during that copy. The other two calls are stepwise: `Object.assign(error, props)` is the `AssignAll` loop, and `Object.assign(self, {…})` is two `Put`s.
