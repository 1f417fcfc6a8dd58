# Vue 2 observer core, modelled in Dafny

This project models the reactivity core of Vue 2 (`core/observer/index.js` and
`core/observer/array.js`) and proves what it guarantees:

- `observe` attaches an `Observer` to a plain object or array, or returns the
  Observer it already carries.
- The `Observer` constructor walks a plain object. `defineReactive` turns each
  own enumerable property into a getter/setter pair.
- The reactive getter subscribes the active watcher (`Dep.target`) to the
  property's dep, to its child Observer's dep and, through `dependArray`, to
  the deps of nested array elements.
- The reactive setter stores the new value, re-observes it and notifies the
  property's dep once.
- `set` and `del` add and remove properties reactively.
- An array that carries an Observer goes through seven intercepting mutators.
  They run the native method, observe what was inserted and notify the array's
  dep.

The state is explicit:

- `Heap.Obj` is a heap object: kind, elements, own property descriptors in key
  order, the internal fields that program-written accessors use, the `__ob__`
  marker, the interceptor flag, and the `_isVue`, VNode and extensible flags.
- `Heap.ObserverRec` is an Observer record: `value`, `dep` and `vmCount`.
- `Heap.Slot` is the closure state of one `defineReactive` call: `dep`, `val`,
  `childOb`, the captured getter and setter, and `shallow`.
- `Observing.World` is the whole world. It adds a subscriber map (a dep and the
  watchers subscribed to it) and a notification log (the deps notified, in order).

A ghost rank orders the heap, so that everything an object holds ranks below
it. This makes the recursive functions and proofs terminate.

`Observer.Runtime` is a class holding the world, `shouldObserve` and
`Dep.target`. Its entry points (`Observe`, `DefineReactive`, `Get`, `Assign`,
`Mutate`, `Set`, `Del`) read the current `shouldObserve` and `Dep.target` from
those fields and pass them down to the methods they reach. `SetTarget` stands for
`pushTarget`/`popTarget` of `core/observer/dep.js`, which is not part of this
model. `AddObject` stands for the program creating a fresh object or array
(a literal), holding only values already in the heap. Its methods follow the source step by step: loops for `walk`,
`observeArray` and `dependArray`, and recursion through `observe`,
`defineReactive` and the setter. Each method is proved to end in the world
that the matching ghost function of `Observing` or `Writing` computes. The
lemmas of `ObserveFacts`, `Fated`, `WalkFacts`, `TrackFacts` and `WriteFacts`
then state what those functions guarantee. `ArrayNative` models the seven
native `Array.prototype` methods (section 23.1.3 of ECMA-262) as functions on
element sequences. `ArrayMethods` models the interceptor's method table.

## Model

| member | source | states |
|---|---|---|
| Observer.Runtime.constructor | vue-src/src/core/observer/index.js:25 | The runtime starts from an empty, well-formed heap, with `shouldObserve` on and no `Dep.target`. |
| Observer.Runtime.ToggleObserving | vue-src/src/core/observer/index.js:27-29 | `shouldObserve` takes the given value. Every later entry point passes it on as the gate of `observe`. |
| Observer.Runtime.Depend | vue-src/src/core/observer/index.js:188 | With an active subscriber, it joins the dep's subscriber set. Without one, nothing changes. |
| Observer.Runtime.Notify | vue-src/src/core/observer/index.js:218 | One entry for the dep is appended to the notification log. Nothing else changes. |
| Observer.Runtime.Observe | vue-src/src/core/observer/index.js:121-141 | `observe` under the runtime's current `shouldObserve` and `Dep.target`: ends in the world `ObserveW` gives for those two values. |
| Observer.Runtime.ObserveUnder | vue-src/src/core/observer/index.js:121-141 | Ends in the world `ObserveW` describes and returns its Observer. The properties of that result are in ObserveFacts.ObserveResult and ObserveFacts.ObserveExisting. |
| Observer.Runtime.NewObserver | vue-src/src/core/observer/index.js:46-64 | Attaches a fresh Observer. An array is patched and its elements observed; a plain object is walked. Ends in `NewObserverW`. |
| Observer.Runtime.Walk | vue-src/src/core/observer/index.js:72-77 | `defineReactive` runs on exactly the own enumerable keys (`Object.keys`), in key order. The result is stated in WalkFacts.NewObserverObject. |
| Observer.Runtime.DefineEach | vue-src/src/core/observer/index.js:74-76 | The loop of `walk`. Its invariant ties round `i` to the walk over the first `i` keys. |
| Observer.Runtime.WalkKey | vue-src/src/core/observer/index.js:75 | One round of `walk` moves the world from the walk over `i` keys to the walk over `i + 1`. |
| Observer.Runtime.ObserveArray | vue-src/src/core/observer/index.js:82-86 | The loop observes each item in order. Its invariant ties round `i` to observing the first `i` items. |
| Observer.Runtime.ObserveItem | vue-src/src/core/observer/index.js:84 | One round of `observeArray`. |
| Observer.Runtime.DefineReactive | vue-src/src/core/observer/index.js:152-181 | `defineReactive` under the runtime's current `shouldObserve` and `Dep.target`: ends in `DefineReactiveW` for those two values. |
| Observer.Runtime.DefineReactiveUnder | vue-src/src/core/observer/index.js:152-181 | Uses up a fresh dep id and returns early on a non-configurable property. Otherwise it reads the value (unless given, or unless the property is getter-only) and observes it (unless shallow). It installs the reactive pair only where `Object.defineProperty` can: on an existing key, or on an extensible object. |
| Observer.Runtime.Bind | vue-src/src/core/observer/index.js:177-181 | `childOb = !shallow && observe(val)`, then the reactive descriptor over one new slot, installed only where `Object.defineProperty` can install it: on an existing key, or on an extensible object. Otherwise only the observe step has happened. |
| Observer.Runtime.CallGetter | vue-src/src/core/observer/index.js:184 | Returns what the getter returns. A program-written getter subscribes to nothing; a reactive one subscribes to what its slot tracks. |
| Observer.Runtime.ReactiveGet | vue-src/src/core/observer/index.js:182-199 | Returns the slot's value. `Dep.target` is subscribed to exactly `Tracked(s)`: the property dep, the child Observer's dep and `dependArray`'s deps. Without a target, nothing changes. |
| Observer.Runtime.DependArray | vue-src/src/core/observer/index.js:299-307 | Subscribes the target to exactly `ArrayDeps(a)`: the deps of the elements' Observers and, recursively, of nested arrays. |
| Observer.Runtime.DependElem | vue-src/src/core/observer/index.js:301-305 | One element: its Observer's dep, then a nested array's deps. |
| Observer.Runtime.Get | vue-src/src/core/observer/index.js:182-199 | The program's read `obj[key]` while the runtime's `Dep.target` is active: the value, and that target subscribed to what the property tracks. |
| Observer.Runtime.GetUnder | vue-src/src/core/observer/index.js:174 | `obj[key]` on an own property gives its value or its getter's result, subscribing to what that getter tracks. |
| Observer.Runtime.ReactiveSet | vue-src/src/core/observer/index.js:200-219 | Ends in the world `ReactiveSetW` describes. What that world is, is stated by the WriteFacts.Setter* lemmas. |
| Observer.Runtime.ReadCurrent | vue-src/src/core/observer/index.js:201 | Returns the property's current value; only the captured getter may subscribe. |
| Observer.Runtime.StoreNew | vue-src/src/core/observer/index.js:212-216 | Stores through the captured setter, or into `val`. |
| Observer.Runtime.CallSetter | vue-src/src/core/observer/index.js:213 | A program-written setter writes its internal field; a reactive one runs that slot's setter. |
| Observer.Runtime.Commit | vue-src/src/core/observer/index.js:217-218 | Recomputes `childOb`, then notifies once. |
| Observer.Runtime.ChildObserve | vue-src/src/core/observer/index.js:217 | No Observer when shallow; otherwise `observe(newVal)`. |
| Observer.Runtime.Assign | vue-src/src/core/observer/index.js:200-219 | The program's assignment `obj[key] = val` under the runtime's current `shouldObserve` and `Dep.target`; a reactive property runs its setter. Ends in `AssignW` for those values. |
| Observer.Runtime.AssignUnder | vue-src/src/core/observer/index.js:242 | `target[key] = val` as an assignment behaves. The cases are in WriteFacts.AssignFacts. |
| Observer.Runtime.Mutate | vue-src/src/core/observer/array.js:31-56 | The program's call of a mutator under the runtime's current `shouldObserve` and `Dep.target`: ends in `MutateW` for those values. |
| Observer.Runtime.MutateUnder | vue-src/src/core/observer/array.js:31-56 | A call of one of the seven mutators: the native method, then on an intercepted array `observeArray(inserted)` and one notify. Returns the native result. |
| Observer.Runtime.Set | vue-src/src/core/observer/index.js:228-262 | `set` under the runtime's current `shouldObserve` and `Dep.target`: returns `val` and ends in `SetW` for those values. |
| Observer.Runtime.SetUnder | vue-src/src/core/observer/index.js:228-262 | Returns `val` and ends in the world `SetW` describes, with the same branch order as the source. |
| Observer.Runtime.SetIndex | vue-src/src/core/observer/index.js:235-239 | Grows the array to the index, then intercepted `splice(key, 1, val)`. |
| Observer.Runtime.SetNew | vue-src/src/core/observer/index.js:259-260 | `defineReactive(ob.value, key, val)`, then one notify of the Observer's dep. |
| Observer.Runtime.Del | vue-src/src/core/observer/index.js:267-293 | `del` under the runtime's current `shouldObserve` and `Dep.target`: ends in `DelW` for those values. |
| Observer.Runtime.DelUnder | vue-src/src/core/observer/index.js:267-293 | Ends in the world `DelW` describes, with the same branch order as the source. |
| ObserveFacts.ObserveResult | vue-src/src/core/observer/index.js:121-141 | `observe` returns an Observer iff the value is a non-VNode object that has one or passes the gate. An existing Observer is the one returned; a new one is fresh and its `value` is the object. `vmCount` grows by exactly 1 iff `asRootData`. |
| ObserveFacts.ObserveExisting | vue-src/src/core/observer/index.js:126-140 | On an object that already has an Observer, `observe` returns it. As root data, the world changes only in that Observer's `vmCount`, which grows by one. Otherwise the world is unchanged. |
| ObserveFacts.ObserveRefuses | vue-src/src/core/observer/index.js:122-136 | On a primitive, a VNode, or an unobserved value that fails the gate (`shouldObserve`, array or plain object, extensible, not `_isVue`), `observe` returns nothing and changes nothing. |
| ObserveFacts.SettledObserve | vue-src/src/core/observer/index.js:126-127 | Observing a value that already carries its Observer returns that Observer and leaves the world unchanged. |
| ObserveFacts.ObserveIdempotent | vue-src/src/core/observer/index.js:121-141 | After `observe(v)`, observing `v` again returns the same Observer and changes nothing. |
| ObserveFacts.ObserveArrayIdempotent | vue-src/src/core/observer/index.js:82-86 | After `observeArray(items)`, observing any item again changes nothing. |
| ObserveFacts.NewObserverArray | vue-src/src/core/observer/index.js:53-60 | On an array, the constructor installs the interceptor, keeps the elements, and leaves every element settled. |
| ObserveFacts.DefineReactiveSkips | vue-src/src/core/observer/index.js:160-168 | On a non-configurable property, `defineReactive` changes nothing but uses up one dep id. |
| ObserveFacts.DefineReactiveBinds | vue-src/src/core/observer/index.js:160-181 | Otherwise nothing is notified. Where `Object.defineProperty` can install the property (an existing key, or an extensible object), it becomes the reactive pair of a new slot; on a new key of a non-extensible object, the object itself is left unchanged. The slot closes over the fresh dep; the given value, or else the current value unless the property is getter-only; that value's Observer (none when shallow); and the former getter and setter. |
| ObserveFacts.BindShallow | vue-src/src/core/observer/index.js:177-181 | When shallow, the pair is bound over the value with no child Observer; where the property cannot be defined, the world is unchanged. |
| ObserveFacts.BindDeep | vue-src/src/core/observer/index.js:177-181 | When not shallow, the pair keeps the Observer that observing the value yields; where the property cannot be defined, the world is the one observing the value leaves. |
| ObserveFacts.BindBinds | vue-src/src/core/observer/index.js:177-181 | Both cases together: an unchanged log, and the bound slot where the property can be defined, or else no install. |
| Fated.ObserveFated | vue-src/src/core/observer/index.js:121-141 | `observe(v)` changes only objects ranked up to `v` and keeps what each object keeps for life. It touches no Observer record unless `asRootData`, and leaves `v` settled with the returned Observer. |
| Fated.NewObserverFated | vue-src/src/core/observer/index.js:46-52 | The object carries the new Observer, recorded as `(value, fresh dep, vmCount 0)`. No other Observer changes. |
| Fated.WalkFated | vue-src/src/core/observer/index.js:72-77 | `walk` changes only what lies within the object and touches no Observer record. |
| Fated.ObserveArrayFated | vue-src/src/core/observer/index.js:82-86 | `observeArray` changes only objects within reach of the items, touches no Observer record, and settles each item it has visited. |
| Fated.DefineReactiveFated | vue-src/src/core/observer/index.js:152-181 | `defineReactive` changes only what lies within the object and touches no Observer record. |
| WalkFacts.NewObserverObject | vue-src/src/core/observer/index.js:46-77 | On a plain object, the constructor adds the marker of a fresh Observer `(value, fresh dep, vmCount 0)`. Each own enumerable configurable property becomes a reactive pair. Every other property (non-enumerable or non-configurable), the key order, the elements and the flags stay as they were. |
| WalkFacts.WalkWalks | vue-src/src/core/observer/index.js:72-77 | After the walk over the first `i` keys, exactly the configurable properties among them are reactive; the rest of the object is unchanged. |
| WalkFacts.NewObserverWalks | vue-src/src/core/observer/index.js:62 | On a plain object, the constructor is attaching the Observer followed by the walk over its enumerable keys. |
| WalkFacts.DefineStep | vue-src/src/core/observer/index.js:165-181 | `defineReactive` on an own property either leaves the object alone (non-configurable) or replaces just that property by a reactive pair. |
| TrackFacts.TrackedReaches | vue-src/src/core/observer/index.js:182-199 | A reactive read subscribes to the property's dep, to everything a captured reactive getter subscribes to, to the child Observer's dep and, for an array value, to all `dependArray` reaches. |
| TrackFacts.TrackedInHeap | vue-src/src/core/observer/index.js:182-199 | A reactive read subscribes only to deps of properties and of Observers of the heap. |
| TrackFacts.ArrayDepsReach | vue-src/src/core/observer/index.js:299-307 | `dependArray(a)` reaches the Observer dep of every element that has one, and everything it reaches inside each nested array. |
| TrackFacts.ArrayDepsObserved | vue-src/src/core/observer/index.js:299-307 | `dependArray` subscribes only to deps of Observers. |
| TrackFacts.PropTrackedCases | vue-src/src/core/observer/index.js:182-199 | Reading a data property or a missing key subscribes to nothing. Reading a reactive property subscribes to what its getter tracks. Without a target, the subscriber map is unchanged. |
| WriteFacts.SetterSkips | vue-src/src/core/observer/index.js:201-211 | When the new value is `===` the current one (NaN onto NaN included), or the property is getter-only, the setter stores nothing and notifies nothing. Only its read may subscribe. |
| WriteFacts.SetterWritesSlot | vue-src/src/core/observer/index.js:212-218 | Without a captured setter, `val` becomes the new value and reading gives it back. `childOb` becomes the new value's Observer (none when shallow). Exactly one notify of the property's dep. |
| WriteFacts.SetterWritesField | vue-src/src/core/observer/index.js:212-218 | A program-written setter gets the new value in its field, and reading gives it back when the getter reads that field. `childOb` is recomputed, followed by exactly one notify. |
| WriteFacts.SetterWritesChained | vue-src/src/core/observer/index.js:212-218 | A captured reactive setter runs first, with whatever it notifies. The property's own dep is then notified once, last, and `childOb` is recomputed. |
| WriteFacts.SetterNotifiesIffWrites | vue-src/src/core/observer/index.js:200-219 | The log is unchanged iff the setter skips. Otherwise the log grows and ends with the property's dep. |
| WriteFacts.CommitFacts | vue-src/src/core/observer/index.js:217-218 | The end of the setter: the child Observer is that of the new value (none when shallow), then exactly one log entry. |
| WriteFacts.StoreFacts | vue-src/src/core/observer/index.js:212-216 | The store goes into `val`, into a program-written setter's field, or through a reactive setter, without notifying in the first two cases. |
| WriteFacts.StoreChained | vue-src/src/core/observer/index.js:212-213 | A captured reactive setter belongs to the same object and is run as the store. |
| WriteFacts.AssignFacts | vue-src/src/core/observer/index.js:242 | The cases of `target[key] = val`. A data property takes the value in place. A new key on an extensible object is appended as an enumerable, configurable data property. In both cases nothing else in the world changes. A reactive accessor runs its setter. A getter-only accessor, a non-extensible object or an inherited `__proto__` is left unchanged. Plain assignment never notifies. |
| WriteFacts.InterceptedIffPatched | vue-src/src/core/observer/array.js:15-16 | Lookup of a mutator's name finds the interceptor exactly on a patched array, and `Array.prototype` otherwise. |
| WriteFacts.MutateFacts | vue-src/src/core/observer/array.js:31-56 | A mutator returns the native result and leaves exactly the native elements. On an intercepted array, every inserted element is settled and the Observer's dep is notified exactly once. Beyond the array's elements, observing the inserted values changes only what lies below the array in the heap and no existing Observer record; with nothing inserted, the world is exactly the new elements plus that one notification. On a plain array, nothing else changes. |
| WriteFacts.MutateSettles | vue-src/src/core/observer/array.js:52 | After an intercepted call, observing any inserted element again changes nothing. |
| WriteFacts.SetIndexFacts | vue-src/src/core/observer/index.js:235-239 | `set(arr, n, val)` yields length `max(len, n + 1)`, `val` at `n`, the other elements in place and `undefined` in the gap; the array's other fields are unchanged. An observed array gets one notify and `val` settled, and beyond the elements only what lies below the array in the heap may change, with no existing Observer record touched. A plain array gets no notify and nothing else changes. |
| WriteFacts.SetExisting | vue-src/src/core/observer/index.js:241-258 | `set` on an existing key is a plain assignment (no notify of its own) when the key is not one of `Object.prototype`, or when the object has no Observer and is no Vue instance. |
| WriteFacts.SetRefused | vue-src/src/core/observer/index.js:246-253 | `set` of a new key on a Vue instance or on root data changes nothing. |
| WriteFacts.SetUntracked | vue-src/src/core/observer/index.js:255-258 | `set` of a new key on an object without an Observer assigns a plain data property, notifies nothing and changes nothing else in the world. An inherited `__proto__` reaches the prototype setter and changes no own property. |
| WriteFacts.SetReactive | vue-src/src/core/observer/index.js:241-261 | `set` of a new key on an observed object makes it reactive over `val` and its Observer, then notifies the object's Observer exactly once. An own key named like one of `Object.prototype` (such as `toString`) takes the same route because `key in Object.prototype` holds: `set` notifies although the key exists. A configurable such key is redefined reactively over its former getter and setter; a non-configurable one is left as it was, and only a dep id is used up before the notify. |
| WriteFacts.DelIndexFacts | vue-src/src/core/observer/index.js:273-276 | `del(arr, n)` removes the element at `n`, if any, and nothing else in the world changes. An observed array gets one notify; a plain array gets none. |
| WriteFacts.DelRefused | vue-src/src/core/observer/index.js:277-287 | `del` changes nothing in three cases: a Vue instance or root data, a key that is not an own property, or a non-configurable key. |
| WriteFacts.DelDeletes | vue-src/src/core/observer/index.js:288-292 | `del` of an own configurable property removes it from the properties and the key order, and nothing else in the world changes. An observed object gets one notify; without an Observer, nothing is notified. |
| ArrayMethods.MutatorNamed | vue-src/src/core/observer/array.js:18-26 | A name has a mutator iff it is one of the seven listed in `methodsToPatch`, and that mutator carries that name. |
| ArrayMethods.NamesRoundTrip | vue-src/src/core/observer/array.js:18-26 | Every mutator's name is listed and names that mutator. |
| ArrayMethods.ArrayMethodsTable | vue-src/src/core/observer/array.js:16-34 | `arrayMethods` defines exactly the names of `methodsToPatch`, each as the mutator carrying that name. |
| ArrayMethods.BuildArrayMethods | vue-src/src/core/observer/array.js:31-34 | The `forEach` of `def` calls yields exactly `ArrayMethodsTable`: the seven names, each defined as the mutator of that name. |
| ArrayMethods.Lookup | vue-src/src/core/observer/array.js:15-16 | A name resolves to the interceptor, looked up in `ArrayMethodsTable`, iff the array is patched and the name is one of the seven, and then to the mutator of that name. Every other name resolves as on an unpatched array, to `Array.prototype`. |
| ArrayMethods.InsertedAreTheNewElements | vue-src/src/core/observer/array.js:39-50 | `inserted` (all args for push/unshift, `args.slice(2)` for splice, none otherwise) is exactly what the native call adds. Remaining plus handed-back elements equal the old elements plus `inserted`, as multisets. |
| ArrayMethods.PopConserves | vue-src/src/core/observer/array.js:33-35 | `pop` hands back exactly the element it removes. |
| ArrayMethods.ShiftConserves | vue-src/src/core/observer/array.js:33-35 | `shift` hands back exactly the element it removes. |
| ArrayMethods.SpliceConserves | vue-src/src/core/observer/array.js:33-35 | `splice` removes exactly what it hands back and adds exactly its items. |
| ArrayNative.RelativeIndex | vue-src/src/core/observer/array.js:35 | The start position of `splice` never exceeds the length, and a start already within `[0, len]` is taken as given. |
| ArrayNative.SpliceDeleteCount | vue-src/src/core/observer/array.js:35 | The delete count of `splice` never runs past the end of the array. |
| ArrayNative.SortPermutes | vue-src/src/core/observer/array.js:35 | Native `sort` returns a permutation of the elements. |
| ArrayNative.ReversedAt | vue-src/src/core/observer/array.js:35 | Native `reverse` mirrors positions. |
| ArrayNative.ReverseInvolutive | vue-src/src/core/observer/array.js:35 | Reversing twice restores the array. |
| ArrayNative.ReversedPermutes | vue-src/src/core/observer/array.js:35 | `reverse` only reorders. |
| ArrayNative.PopUndoesPush | vue-src/src/core/observer/array.js:35 | `pop` after a one-element `push` restores the array and returns the element. |
| ArrayNative.ShiftUndoesUnshift | vue-src/src/core/observer/array.js:35 | `shift` after a one-element `unshift` restores the array and returns the element. |
| ArrayNative.SpliceUndo | vue-src/src/core/observer/array.js:35 | Splicing the removed elements back in place of the inserted ones restores the array. |
| ArrayNative.WriteBySplice | vue-src/src/core/observer/index.js:236-237 | After growing the length to `key` and `splice(key, 1, val)`: length `max(len, key + 1)`, `val` at `key`, the other elements kept and `undefined` in the gap. |
| ArrayNative.DeleteBySplice | vue-src/src/core/observer/index.js:274 | `splice(key, 1)` on a valid index removes exactly the element at `key`, if there is one. |
| Values.SameValueIsIdentity | vue-src/src/core/observer/index.js:203 | `newVal === value \|\| (newVal !== newVal && value !== value)` holds exactly when the two model values are identical (NaN onto NaN included). |
| Values.IndexKeyRoundTrip | vue-src/src/core/observer/index.js:235 | Every index `n` has a valid key that reads back as `n`, so a numeric key and its decimal name address the same element. The converse does not hold for keys such as `"01"`. |

## Left out

- `Dep` and `Watcher` internals are not part of this model. `dep.depend()` adds `Dep.target` to a set of subscribers; `dep.notify()` appends the dep to a log instead of running watchers. The order and effect of watcher runs is not modelled.
- `Dep.target` and `shouldObserve` are fields of `Observer.Runtime`. The entry points read them, and the methods they reach take the two values as parameters. Nothing they reach changes either one.
- `protoAugment` and `copyAugment` (index.js:96-113) are one `patched` flag on the array. Method lookup on a patched array is `ArrayMethods.Lookup`; whether `__proto__` exists (`hasProto`) is not modelled.
- `isServerRendering()` is taken to be false.
- Development-only warnings and `customSetter` (index.js:207-209, 229-233, 248-251, 268-272, 279-282) are not modelled; they do not change state in production.
- Cyclic object graphs are not modelled. A ghost rank orders the heap, and values written by `set`, the setter and the mutators must rank below their target. On a cycle, the source's `observe` stops at the existing `__ob__`; the model does not have cycles to stop at.
- Strict-mode `TypeError`s are modelled as "no change" to the object. That covers assigning to a getter-only accessor, adding a key to a non-extensible object, `delete` of a non-configurable property, and `Object.defineProperty` of a new key on a non-extensible object. In the source, the exception escapes `set`/`del`, and `del` never reaches `ob.dep.notify()`.
- Observer.Runtime.DefineReactive: on a new key of a non-extensible object, `Object.defineProperty` throws in the source and the exception reaches the caller. The model does not propagate it. It skips the install, and keeps what came before it: the fresh dep id, the read of the value and the observe of it.
- Observer.Runtime.DefineReactiveUnder: the same unpropagated `TypeError` as `Observer.Runtime.DefineReactive`.
- Observing.DefineReactiveW: the same unpropagated `TypeError` as `Observer.Runtime.DefineReactive`.
- ObserveFacts.DefineReactiveBinds: where the property cannot be defined, it states the object unchanged and the log unchanged; the thrown exception is not modelled.
- Observer.Runtime.Get: array index keys and `length` are ordinary own properties in the model, kept apart from the array's elements. So `arr[i]` and `arr.length` are not modelled as reads of the elements. Vue never reads an array this way: `walk` runs only on plain objects, and `set`/`del` take the element path.
- Observer.Runtime.GetUnder: the same array-key limit as `Observer.Runtime.Get`.
- Observer.Runtime.Assign: `arr[i] = v` and `arr.length = n` are not modelled as element writes. They write an ordinary own property, kept apart from the elements.
- Observer.Runtime.AssignUnder: the same array-key limit as `Observer.Runtime.Assign`.
- WriteFacts.AssignFacts: the same array-key limit as `Observer.Runtime.Assign`. The stated cases hold for property keys of plain objects and for non-index keys of arrays.
- Observer.Runtime.DefineReactive: `defineReactive(arr, i)` on an array index defines an ordinary own property, kept apart from the elements. Vue reaches `defineReactive` only from `walk` (plain objects) and from `set` on non-array targets.
- Observer.Runtime.AddObject: the `__ob__` marker is a field of its own, apart from the properties. So an own property named `"__ob__"` that the program creates is an ordinary property. In the source, `def(value, '__ob__', this)` overwrites it with the Observer and makes it non-enumerable, so `walk` skips it. In the model, `walk` makes it reactive.
- Observer.Runtime.Get: reading `obj.__ob__` does not return the Observer, since Observers are not values of the model. It reads a program-made `"__ob__"` property, if any.
- Observer.Runtime.Assign: `obj.__ob__ = v` writes an ordinary property and leaves the marker in place. In the source it replaces the Observer that `__ob__` holds.
- Observer.Runtime.Walk: a program-made enumerable own `"__ob__"` property is made reactive, as under `Observer.Runtime.AddObject`.
- Writable data properties are assumed. A non-writable data property would also reject the assignment.
- Observer.Runtime.Assign: assigning an inherited `__proto__` runs the prototype setter of `Object.prototype`. Prototypes are not modelled, so the model promises only that no own property changes.
- Observer.Runtime.AssignUnder: the same inherited `__proto__` limit as `Observer.Runtime.Assign`.
- WriteFacts.AssignFacts: for an inherited `__proto__`, the prototype change that the assignment makes is not stated. Prototypes are not modelled.
- WriteFacts.SetUntracked: `set(obj, '__proto__', v)` on an object without an Observer changes the prototype. The model promises only that no own property changes.
- `Object.keys` order: `Heap.EnumerableKeys` lists keys in creation order. JavaScript lists integer-like keys first, in ascending order, so `walk` may define such keys in a different order than the model does.
- ArrayNative.RelativeIndex: `ToIntegerOrInfinity` reads only optionally signed decimal digit strings as numbers. Strings such as `" 2"`, `"1e1"` or `"0x10"`, and objects (through `valueOf`/`toString`), are read as 0. Infinite arguments are not modelled.
- ArrayNative.SpliceDeleteCount: the delete count is read by the same `ToInteger` as the start, with the same limits.
- Observer.Runtime.Mutate: array lengths are unbounded. The source throws a `RangeError` when a mutator would make the length exceed 2^32 − 1; the model makes no such check.
- Observer.Runtime.MutateUnder: the same unbounded lengths and the same `ToInteger` limits as `Observer.Runtime.Mutate`.
- Observer.Runtime.SetIndex: an index of 2^32 − 1 or more makes `target.length = …` throw a `RangeError` in the source. The model grows the array to any index.
- WriteFacts.SetIndexFacts: the length `max(len, n + 1)` is stated for every `n`, without the 2^32 − 1 bound at which the source throws.
- Observer.Runtime.Set: `key in target` is modelled as an own property, or a name of `Object.prototype`, or, for arrays, of `Array.prototype`. Keys inherited from other prototypes are not modelled. `Addressable` keeps `set` and `del` away from `__ob__` and from an array's `length` and method names. On a plain object, `set` of an inherited `__proto__` changes no own property; its prototype change is not modelled.
- Values.IndexKeyRoundTrip: `isValidArrayIndex` is modelled on non-empty digit strings only. The library helper also accepts keys such as `"1.0"` or `"1e3"`; the model treats those as ordinary property keys. Keys are strings (`String(key)`), so a number key is modelled by its decimal name.
- The `sort` comparator is a parameter `lt`; a comparator that is not a consistent order is not modelled. Numbers are integers (plus NaN), with no floating-point arithmetic.
- Program-written accessors are modelled as a getter that reads and a setter that writes one internal field of their object. Other accessor code is not modelled.
- `core/instance/init.js`, `core/instance/index.js` and `platforms/web/entry-runtime-with-compiler.js` are callers of the core (`initData` calls `observe(data, true)`) and are not part of this model.
