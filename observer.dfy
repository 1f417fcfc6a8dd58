/**
 * The observer runtime of `core/observer/index.js` and `array.js`: `observe`,
 * the `Observer` constructor with `walk` and `observeArray`, `defineReactive`
 * with its reactive getter and setter, `set`, `del`, `dependArray` and the
 * patched array mutators, all acting on one explicit world.
 *
 * `Dep.depend` adds the active subscriber (`Dep.target`) to a dependency set,
 * and `Dep.notify` appends the dep to the world's notification log instead of
 * running subscribers. The entry points (`Observe`, `DefineReactive`, `Get`,
 * `Assign`, `Mutate`, `Set`, `Del`) read the switch `shouldObserve` and the
 * active subscriber `Dep.target` from the runtime's fields of those names,
 * which only `ToggleObserving` and `SetTarget` change. The methods they reach
 * take the two values as parameters `so` and `t`: nothing they do changes either.
 */
module Observer {
  import opened Wrappers
  import opened Values
  import opened Heap
  import opened ArrayNative
  import opened ArrayMethods
  import opened Steps
  import opened Growth
  import opened Observing
  import opened Writing

  /** The observer's state: the world, the `shouldObserve` switch and `Dep.target`. */
  class Runtime {
    var world: World
    var shouldObserve: bool
    var target: Option<SubId>

    ghost predicate Valid()
      reads this`world
    {
      WorldOk(world)
    }

    /** An empty heap with observation switched on and no active subscriber. */
    constructor ()
      ensures Valid() && world == World(Store(map[], map[], map[], map[]), Ids(0, 0, 0, 0), map[], [])
      ensures shouldObserve && target == None
    {
      world := World(Store(map[], map[], map[], map[]), Ids(0, 0, 0, 0), map[], []);
      shouldObserve := true;
      target := None;
    }

    /** `toggleObserving(value)`. */
    method ToggleObserving(value: bool)
      modifies this`shouldObserve
      ensures shouldObserve == value
    {
      shouldObserve := value;
    }

    /** Installs `t` as `Dep.target` (what `pushTarget`/`popTarget` do around a subscriber's run). */
    method SetTarget(t: Option<SubId>)
      modifies this`target
      ensures target == t
    {
      target := t;
    }

    /** `observe(value, asRootData)` under the current switch and subscriber. */
    method Observe(v: Value, asRoot: bool) returns (r: Option<ObsId>)
      requires Valid() && (v.Ref? ==> v.id in world.st.objs)
      modifies this`world
      ensures Observed(world, r) == ObserveW(old(world), v, asRoot, shouldObserve, target)
    {
      r := ObserveUnder(v, asRoot, shouldObserve, target);
    }

    /** `defineReactive(obj, key, val, undefined, shallow)` under the current switch and subscriber. */
    method DefineReactive(x: ObjId, k: Key, given: Option<Value>, shallow: bool)
      requires Valid() && x in world.st.objs && x in world.st.rank
      requires given.Some? ==> Below(world.st.rank, given.value, world.st.rank[x])
      modifies this`world
      ensures world == DefineReactiveW(old(world), x, k, given, shallow, shouldObserve, target)
    {
      DefineReactiveUnder(x, k, given, shallow, shouldObserve, target);
    }

    /** The program's read `obj[key]` of an own property, while `Dep.target` is active. */
    method Get(x: ObjId, key: Key) returns (v: Value)
      requires Valid() && x in world.st.objs
      modifies this`world
      ensures v == PropValue(old(world.st), x, key)
      ensures world == old(world).(subs := Subscribed(old(world.subs), PropTracked(old(world.st), x, key), target))
    {
      v := GetUnder(x, key, target);
    }

    /** The program's assignment `obj[key] = val`, which runs a reactive setter where there is one. */
    method Assign(x: ObjId, key: Key, v: Value)
      requires Valid() && x in world.st.objs && Below(world.st.rank, v, world.st.rank[x])
      modifies this`world
      ensures world == AssignW(old(world), x, key, v, shouldObserve, target)
    {
      AssignUnder(x, key, v, shouldObserve, target);
    }

    /** The program's call `arr.m(...args)` of one of the seven mutators. */
    method Mutate(x: ObjId, m: Mutator, args: seq<Value>, lt: (Value, Value) -> bool) returns (res: NativeResult)
      requires Valid() && x in world.st.objs && x in world.st.rank && world.st.objs[x].kind.ArrayKind?
      requires forall i :: 0 <= i < |args| ==> Below(world.st.rank, args[i], world.st.rank[x])
      modifies this`world
      ensures Mutated(world, res) == MutateW(old(world), x, m, args, lt, shouldObserve, target)
    {
      res := MutateUnder(x, m, args, lt, shouldObserve, target);
    }

    /**
     * Adds a program-made object of rank `r` to the heap: it carries no Observer
     * and no reactive accessor, and everything it holds ranks below `r`.
     */
    method AddObject(o: Obj, r: nat) returns (x: ObjId)
      requires Valid() && FreshObj(world.st.rank, o, r)
      modifies this`world
      ensures Valid() && x == old(world.ids.obj) && x !in old(world.st.objs)
      ensures world == old(world).(st := old(world.st).(objs := old(world.st.objs)[x := o], rank := old(world.st.rank)[x := r]),
                                   ids := old(world.ids).(obj := x + 1))
    {
      x := world.ids.obj;
      AddObjectValid(world.st, world.ids, o, r);
      world := world.(st := world.st.(objs := world.st.objs[x := o], rank := world.st.rank[x := r]),
                      ids := world.ids.(obj := x + 1));
    }

    /** `dep.depend()`: the active subscriber, if any, joins dep `d`. */
    method Depend(d: DepId, t: Option<SubId>)
      modifies this`world
      ensures world == old(world).(subs := Subscribed(old(world.subs), {d}, t))
    {
      if t.Some? {
        var m := world.subs;
        SubscribedAt(m, {d}, t, d);
        world := world.(subs := m[d := SubsOf(m, d) + {t.value}]);
        forall e | e in world.subs.Keys ensures world.subs[e] == Subscribed(m, {d}, t)[e] {
          SubscribedAt(m, {d}, t, e);
        }
      } else {
        SubscribedNothing(world.subs, t);
      }
    }

    /** `dep.notify()`: one entry in the log. */
    method Notify(d: DepId)
      modifies this`world
      ensures world == old(world).(log := old(world.log) + [d])
    {
      world := world.(log := world.log + [d]);
    }

    /**
     * `getter.call(obj)`: a program-written getter reads its internal field, a
     * reactive one runs `reactiveGetter`.
     */
    method CallGetter(f: Fn, owner: ObjId, t: Option<SubId>) returns (v: Value)
      requires Valid() && (f.ReactiveFn? ==> f.slot in world.st.slots)
      modifies this`world
      ensures v == FnValue(old(world.st), f, owner)
      ensures world == old(world).(subs := Subscribed(old(world.subs), FnTracked(old(world.st), Some(f)), t))
      decreases if f.ReactiveFn? then f.slot + 1 else 0, 1
    {
      match f
      case UserFn(field) =>
        var objs := world.st.objs;
        v := if owner in objs && field in objs[owner].internal then objs[owner].internal[field] else Undef;
        SubscribedNothing(world.subs, t);
      case ReactiveFn(s) =>
        v := ReactiveGet(s, t);
    }

    /**
     * `reactiveGetter` of slot `s`: the captured getter's result or the value
     * slot; with an active subscriber, the property's dep, the child Observer's
     * dep and, for an array value, `dependArray` collect it.
     */
    method ReactiveGet(s: SlotId, t: Option<SubId>) returns (v: Value)
      requires Valid() && s in world.st.slots
      modifies this`world
      ensures v == SlotValue(old(world.st), s)
      ensures world == old(world).(subs := Subscribed(old(world.subs), Tracked(old(world.st), s), t))
      decreases s + 1, 0
    {
      ghost var st, d0 := world.st, world.subs;
      var sl := world.st.slots[s];
      assert Link(st.slots, s, sl.getter);
      if sl.getter.Some? {
        v := CallGetter(sl.getter.value, sl.owner, t);
      } else {
        v := sl.val;
        SubscribedNothing(d0, t);
      }
      ghost var f := FnTracked(st, sl.getter);
      if t.Some? {
        Depend(sl.dep, t);
        SubscribedCompose(d0, f, {sl.dep}, t);
        ghost var x := world.subs;
        if sl.childOb.Some? {
          SlotOkOf(st.observers, st.rank, st.slots, s);
          var od := world.st.observers[sl.childOb.value].dep;
          Depend(od, t);
          SlotValueBelow(st, s);
          ghost var y := world.subs;
          if v.Ref? && world.st.objs[v.id].kind.ArrayKind? {
            DependArray(v.id, t);
            SubscribedCompose(x, {od}, ArrayDeps(st, v.id), t);
          } else {
            SubscribedNothing(y, t);
            SubscribedCompose(x, {od}, {}, t);
          }
        } else {
          SubscribedNothing(x, t);
        }
        SubscribedCompose(d0, f + {sl.dep}, ChildTracked(st, sl.childOb, SlotValue(st, s)), t);
      }
    }

    /**
     * `dependArray(value)`: every element carrying an Observer collects the
     * active subscriber in its dep, and nested arrays are visited in turn.
     */
    method DependArray(a: ObjId, t: Option<SubId>)
      requires Valid() && a in world.st.objs
      modifies this`world
      ensures world == old(world).(subs := Subscribed(old(world.subs), ArrayDeps(old(world.st), a), t))
      decreases world.st.rank[a] + 1, 1
    {
      ghost var w0 := world;
      ghost var st, d0 := world.st, world.subs;
      SubscribedNothing(d0, t);
      var elems := world.st.objs[a].elems;
      var i: nat := 0;
      while i < |elems|
        invariant i <= |elems|
        invariant world == w0.(subs := Subscribed(d0, ElemsDeps(st, a, i), t))
      {
        ElemBelow(st, a, i);
        ElemsDepsStep(st, a, i);
        DependElem(elems[i], t);
        SubscribedCompose(d0, ElemsDeps(st, a, i), ElemDeps(st, elems[i]), t);
        i := i + 1;
      }
    }

    /** One round of `dependArray`'s loop: `e.__ob__.dep.depend()`, then `dependArray(e)` for an array `e`. */
    method DependElem(e: Value, t: Option<SubId>)
      requires Valid() && (e.Ref? ==> e.id in world.st.objs)
      modifies this`world
      ensures world == old(world).(subs := Subscribed(old(world.subs), ElemDeps(old(world.st), e), t))
      decreases if e.Ref? then world.st.rank[e.id] + 1 else 0, 2
    {
      ghost var st, x := world.st, world.subs;
      if e.Ref? && world.st.objs[e.id].ob.Some? {
        Depend(world.st.observers[world.st.objs[e.id].ob.value].dep, t);
      } else {
        SubscribedNothing(x, t);
      }
      ghost var y := world.subs;
      if e.Ref? && world.st.objs[e.id].kind.ArrayKind? {
        DependArray(e.id, t);
      } else {
        SubscribedNothing(y, t);
      }
      SubscribedCompose(x, MarkerDeps(st, e), NestedDeps(st, e), t);
    }

    /** `obj[key]` for an own property: its value, or what its getter returns. */
    method GetUnder(x: ObjId, key: Key, t: Option<SubId>) returns (v: Value)
      requires Valid() && x in world.st.objs
      modifies this`world
      ensures v == PropValue(old(world.st), x, key)
      ensures world == old(world).(subs := Subscribed(old(world.subs), PropTracked(old(world.st), x, key), t))
    {
      var o := world.st.objs[x];
      if key in o.props && o.props[key].Accessor? {
        var g := o.props[key].getFn;
        if g.Some? {
          AccessorOwned(world.st.objs, world.st.slots, x, key);
          v := CallGetter(g.value, x, t);
        } else {
          v := Undef;
          SubscribedNothing(world.subs, t);
        }
      } else if key in o.props {
        v := o.props[key].value;
        SubscribedNothing(world.subs, t);
      } else {
        v := Undef;
        SubscribedNothing(world.subs, t);
      }
    }

    /**
     * `observe(value, asRootData)`: the Observer of an object value, created
     * when the value has none and passes the gate; a root data object counts
     * one more Vue instance using it.
     */
    method ObserveUnder(v: Value, asRoot: bool, so: bool, t: Option<SubId>) returns (r: Option<ObsId>)
      requires Valid() && (v.Ref? ==> v.id in world.st.objs)
      modifies this`world
      ensures Observed(world, r) == ObserveW(old(world), v, asRoot, so, t)
      decreases if v.Ref? && v.id in world.st.rank then world.st.rank[v.id] + 1 else 0, 3, 0
    {
      if !v.Ref? || world.st.objs[v.id].isVNode {
        r := None;
      } else if world.st.objs[v.id].ob.Some? {
        r := world.st.objs[v.id].ob;
        if asRoot {
          world := CountW(world, r.value);
        }
      } else if Eligible(world.st.objs[v.id], so) {
        r := Some(world.ids.obs);
        NewObserver(v.id, so, t);
        if asRoot {
          world := CountW(world, r.value);
        }
      } else {
        r := None;
      }
    }

    /**
     * `new Observer(value)`: attach a fresh Observer; an array gets the
     * intercepting mutators and its elements observed, a plain object is walked.
     */
    method NewObserver(x: ObjId, so: bool, t: Option<SubId>)
      requires Valid() && x in world.st.objs && world.st.objs[x].ob.None? && Eligible(world.st.objs[x], so)
      requires !world.st.objs[x].isVNode
      modifies this`world
      ensures world == NewObserverW(old(world), x, so, t)
      decreases world.st.rank[x] + 1, 2
    {
      ghost var r := world.st.rank[x];
      world := AttachW(world, x);
      if world.st.objs[x].kind.ArrayKind? {
        world := PatchW(world, x);
        ObjOkOf(world.st.objs, world.st.rank, x);
        ObserveArray(world.st.objs[x].elems, r, so, t);
      } else {
        Walk(x, so, t);
      }
    }

    /** `walk(obj)`: `defineReactive(obj, key)` for each own enumerable key, in order. */
    method Walk(x: ObjId, so: bool, t: Option<SubId>)
      requires Valid() && x in world.st.objs && x in world.st.rank
      modifies this`world
      ensures world == WalkW(old(world), x, EnumerableKeys(old(world.st.objs[x].keys), old(world.st.objs[x].props)),
                             |EnumerableKeys(old(world.st.objs[x].keys), old(world.st.objs[x].props))|, so, t)
      decreases world.st.rank[x] + 1, 1
    {
      var keys := EnumerableKeys(world.st.objs[x].keys, world.st.objs[x].props);
      DefineEach(x, keys, so, t);
    }

    /** The loop of `walk`: `defineReactive(obj, keys[i])` for `i` from 0 to `keys.length - 1`. */
    method DefineEach(x: ObjId, keys: seq<Key>, so: bool, t: Option<SubId>)
      requires Valid() && x in world.st.objs && x in world.st.rank
      modifies this`world
      ensures world == WalkW(old(world), x, keys, |keys|, so, t)
      decreases world.st.rank[x] + 1, 0, 3
    {
      ghost var w0 := world;
      var i: nat := 0;
      while i < |keys|
        invariant i <= |keys|
        invariant world == WalkW(w0, x, keys, i, so, t)
      {
        WalkKey(w0, x, keys, i, so, t);
        i := i + 1;
      }
    }

    /** One round of `walk`'s loop: `defineReactive(obj, keys[i])`. */
    method WalkKey(ghost w0: World, x: ObjId, keys: seq<Key>, i: nat, so: bool, t: Option<SubId>)
      requires WorldOk(w0) && x in w0.st.objs && x in w0.st.rank && i < |keys|
      requires Valid() && world == WalkW(w0, x, keys, i, so, t)
      modifies this`world
      ensures world == WalkW(w0, x, keys, i + 1, so, t)
      decreases w0.st.rank[x] + 1, 0, 2
    {
      WalkWNext(w0, x, keys, i, so, t);
      DefineReactiveUnder(x, keys[i], None, false, so, t);
    }

    /** `observeArray(items)`: `observe(items[i])` for each item, in order. */
    method ObserveArray(items: seq<Value>, ghost n: nat, so: bool, t: Option<SubId>)
      requires Valid() && forall j :: 0 <= j < |items| ==> Below(world.st.rank, items[j], n)
      modifies this`world
      ensures world == ObserveArrayW(old(world), items, |items|, n, so, t)
      decreases n, 4
    {
      ghost var w0 := world;
      var i: nat := 0;
      while i < |items|
        invariant i <= |items|
        invariant world == ObserveArrayW(w0, items, i, n, so, t)
      {
        ObserveItem(w0, items, i, n, so, t);
        i := i + 1;
      }
    }

    /** One round of `observeArray`'s loop: `observe(items[i])`. */
    method ObserveItem(ghost w0: World, items: seq<Value>, i: nat, ghost n: nat, so: bool, t: Option<SubId>)
      requires WorldOk(w0) && i < |items| && forall j :: 0 <= j < |items| ==> Below(w0.st.rank, items[j], n)
      requires Valid() && world == ObserveArrayW(w0, items, i, n, so, t)
      modifies this`world
      ensures world == ObserveArrayW(w0, items, i + 1, n, so, t)
      decreases n, 3, 1
    {
      ObserveArrayWNext(w0, items, i, n, so, t);
      var _ := ObserveUnder(items[i], false, so, t);
    }

    /**
     * `defineReactive(obj, key, val, customSetter, shallow)`, where `given` is
     * `val` when the caller passes one.
     */
    method DefineReactiveUnder(x: ObjId, k: Key, given: Option<Value>, shallow: bool, so: bool, t: Option<SubId>)
      requires Valid() && x in world.st.objs && x in world.st.rank
      requires given.Some? ==> Below(world.st.rank, given.value, world.st.rank[x])
      modifies this`world
      ensures world == DefineReactiveW(old(world), x, k, given, shallow, so, t)
      decreases world.st.rank[x] + 1, 0, 1
    {
      ghost var w0 := world;
      var dep := world.ids.dep;
      world := NewDepW(world);
      var p := OwnProp(world.st.objs[x], k);
      if p.Some? && !p.value.configurable {
        return;
      }
      var val := Undef;
      if given.Some? {
        val := given.value;
      } else if GetterIn(p).None? || SetterIn(p).Some? {
        val := GetUnder(x, k, t);
      }
      assert val == BindValue(w0.st, x, k, given) && world == BindWorld(w0, x, k, given, t);
      DefineReactiveWBinds(w0, x, k, given, shallow, so, t);
      Bind(x, k, p, val, shallow, dep, so, t);
    }

    /**
     * The rest of `defineReactive`: `childOb = !shallow && observe(val)`, then
     * `Object.defineProperty` with the reactive getter and setter, which
     * installs nothing for an absent key of a non-extensible object.
     */
    method Bind(x: ObjId, k: Key, p: Option<Prop>, val: Value, shallow: bool, dep: DepId, so: bool, t: Option<SubId>)
      requires Valid() && x in world.st.objs && x in world.st.rank && Below(world.st.rank, val, world.st.rank[x])
      requires dep < world.ids.dep
      requires FnOwned(world.st.slots, GetterIn(p), x) && FnOwned(world.st.slots, SetterIn(p), x)
      modifies this`world
      ensures world == BindW(old(world), x, k, p, val, shallow, dep, so, t)
      decreases world.st.rank[x] + 1, 0, 0
    {
      var definable := Definable(world.st.objs[x], p);
      if shallow {
        if definable {
          world := InstallW(world, x, k, Slot(x, dep, val, None, GetterIn(p), SetterIn(p), true));
        }
      } else {
        BindWDeep(world, x, k, p, val, dep, so, t);
        var childOb := ObserveUnder(val, false, so, t);
        if definable {
          world := InstallW(world, x, k, Slot(x, dep, val, childOb, GetterIn(p), SetterIn(p), false));
        }
      }
    }
    /**
     * `reactiveSetter(newVal)` of slot `s`: read the current value, return when
     * it is the same (NaN included) or the property is getter-only, otherwise
     * store through the captured setter or in `val`, recompute `childOb` and notify.
     */
    method ReactiveSet(s: SlotId, newVal: Value, so: bool, t: Option<SubId>)
      requires Valid() && s in world.st.slots && Below(world.st.rank, newVal, world.st.rank[world.st.slots[s].owner])
      modifies this`world
      ensures world == ReactiveSetW(old(world), s, newVal, so, t)
      decreases s + 1, 0, 1
    {
      ghost var w0 := world;
      var sl := world.st.slots[s];
      ReactiveSetWSteps(w0, s, newVal, so, t);
      var value := ReadCurrent(s, t);
      if SkipsWrite(sl, newVal, value) {
        return;
      }
      StoreNew(s, newVal, so, t);
      Commit(s, newVal, so, t);
    }

    /** `getter ? getter.call(obj) : val`. */
    method ReadCurrent(s: SlotId, t: Option<SubId>) returns (value: Value)
      requires Valid() && s in world.st.slots
      modifies this`world
      ensures value == SlotValue(old(world.st), s) && world == ReadW(old(world), s, t)
    {
      var sl := world.st.slots[s];
      assert Link(world.st.slots, s, sl.getter);
      if sl.getter.Some? {
        value := CallGetter(sl.getter.value, sl.owner, t);
      } else {
        value := sl.val;
        SubscribedNothing(world.subs, t);
      }
    }

    /** `setter ? setter.call(obj, newVal) : val = newVal`. */
    method StoreNew(s: SlotId, newVal: Value, so: bool, t: Option<SubId>)
      requires Valid() && s in world.st.slots && Below(world.st.rank, newVal, world.st.rank[world.st.slots[s].owner])
      modifies this`world
      ensures world == StoreW(old(world), s, newVal, so, t)
      decreases s + 1, 0, 0
    {
      var sl := world.st.slots[s];
      SlotOkOf(world.st.observers, world.st.rank, world.st.slots, s);
      assert Link(world.st.slots, s, sl.setter);
      if sl.setter.Some? {
        CallSetter(sl.setter.value, sl.owner, newVal, so, t);
      } else {
        world := WriteSlotW(world, s, newVal);
      }
    }

    /** `setter.call(owner, v)` for a captured setter. */
    method CallSetter(f: Fn, owner: ObjId, v: Value, so: bool, t: Option<SubId>)
      requires Valid() && owner in world.st.objs && owner in world.st.rank && Below(world.st.rank, v, world.st.rank[owner])
      requires FnOwned(world.st.slots, Some(f), owner)
      modifies this`world
      ensures world == FnSetW(old(world), f, owner, v, so, t)
      decreases if f.ReactiveFn? then f.slot + 1 else 0, 1, 0
    {
      match f
      case UserFn(field) =>
        world := StoreInternalW(world, owner, field, v);
      case ReactiveFn(s') =>
        ReactiveSet(s', v, so, t);
    }

    /** The end of the reactive setter: `childOb = !shallow && observe(newVal)`, then `dep.notify()`. */
    method Commit(s: SlotId, newVal: Value, so: bool, t: Option<SubId>)
      requires Valid() && s in world.st.slots && Below(world.st.rank, newVal, world.st.rank[world.st.slots[s].owner])
      modifies this`world
      ensures world == CommitW(old(world), s, newVal, so, t)
    {
      var sl := world.st.slots[s];
      var childOb := ChildObserve(s, newVal, so, t);
      world := ChildW(world, s, childOb);
      Notify(sl.dep);
    }

    /** `!shallow && observe(newVal)`. */
    method ChildObserve(s: SlotId, newVal: Value, so: bool, t: Option<SubId>) returns (childOb: Option<ObsId>)
      requires Valid() && s in world.st.slots && Below(world.st.rank, newVal, world.st.rank[world.st.slots[s].owner])
      modifies this`world
      ensures Observed(world, childOb) == ChildObserveW(old(world), s, newVal, so, t)
    {
      SlotOkOf(world.st.observers, world.st.rank, world.st.slots, s);
      childOb := None;
      if !world.st.slots[s].shallow {
        childOb := ObserveUnder(newVal, false, so, t);
      }
    }

    /** `target[key] = val` as `set` makes it. */
    method AssignUnder(x: ObjId, key: Key, v: Value, so: bool, t: Option<SubId>)
      requires Valid() && x in world.st.objs && Below(world.st.rank, v, world.st.rank[x])
      modifies this`world
      ensures world == AssignW(old(world), x, key, v, so, t)
    {
      ghost var w0 := world;
      var o := world.st.objs[x];
      ObjOkOf(world.st.objs, world.st.rank, x);
      AssignWCases(world, x, key, v, so, t);
      if key in o.props {
        var p := o.props[key];
        if p.Data? {
          world := DefineDataW(world, x, key, v, p.enumerable, p.configurable);
        } else if p.setFn.Some? {
          AccessorOwned(world.st.objs, world.st.slots, x, key);
          CallSetter(p.setFn.value, x, v, so, t);
        }
      } else if key != ProtoKey && o.extensible {
        assert AssignW(w0, x, key, v, so, t) == DefineDataW(w0, x, key, v, true, true);
        world := DefineDataW(world, x, key, v, true, true);
      }
    }

    /**
     * `arr.m(...args)` for one of the seven mutators: the native method, then,
     * on an array carrying the interceptor, `ob.observeArray(inserted)` and
     * `ob.dep.notify()`; the result is the native method's.
     */
    method MutateUnder(x: ObjId, m: Mutator, args: seq<Value>, lt: (Value, Value) -> bool, so: bool, t: Option<SubId>)
      returns (res: NativeResult)
      requires Valid() && x in world.st.objs && x in world.st.rank && world.st.objs[x].kind.ArrayKind?
      requires forall i :: 0 <= i < |args| ==> Below(world.st.rank, args[i], world.st.rank[x])
      modifies this`world
      ensures Mutated(world, res) == MutateW(old(world), x, m, args, lt, so, t)
    {
      var o := world.st.objs[x];
      ObjOkOf(world.st.objs, world.st.rank, x);
      var out := Apply(m, o.elems, args, lt);
      ElemsBelow(world.st, x, m, args, lt);
      world := ReplaceW(world, x, out.elems);
      res := out.result;
      if Lookup(o.patched, NameOf(m)).Intercepted? {
        var ins := Inserted(m, args);
        InsertedBelow(world.st.rank, m, args, world.st.rank[x]);
        ObserveArray(ins, world.st.rank[x], so, t);
        Notify(world.st.observers[o.ob.value].dep);
      }
    }

    /** `set(target, key, val)` under the current switch and subscriber, returning `val`. */
    method Set(x: ObjId, key: Key, v: Value) returns (r: Value)
      requires Valid() && x in world.st.objs && Addressable(world.st.objs[x], key)
      requires Below(world.st.rank, v, world.st.rank[x])
      modifies this`world
      ensures r == v && world == SetW(old(world), x, key, v, shouldObserve, target)
    {
      r := SetUnder(x, key, v, shouldObserve, target);
    }

    /** `set(target, key, val)`, returning `val`. */
    method SetUnder(x: ObjId, key: Key, v: Value, so: bool, t: Option<SubId>) returns (r: Value)
      requires Valid() && x in world.st.objs && Addressable(world.st.objs[x], key)
      requires Below(world.st.rank, v, world.st.rank[x])
      modifies this`world
      ensures r == v && world == SetW(old(world), x, key, v, so, t)
    {
      r := v;
      var o := world.st.objs[x];
      ObjOkOf(world.st.objs, world.st.rank, x);
      SetWCases(world, x, key, v, so, t);
      if o.kind.ArrayKind? && IsValidArrayIndex(key) {
        SetIndex(x, key, v, so, t);
        return;
      }
      if key in o.props && key !in ObjectPrototypeKeys {
        AssignUnder(x, key, v, so, t);
        return;
      }
      var refuses := o.isVue || (o.ob.Some? && world.st.observers[o.ob.value].vmCount > 0);
      assert refuses == Refuses(world.st, x);
      if refuses {
        return;
      }
      if o.ob.None? {
        AssignUnder(x, key, v, so, t);
        return;
      }
      SetNew(x, key, v, so, t);
    }

    /** `set` on an array index: `target.length = Math.max(target.length, key)`, then `target.splice(key, 1, val)`. */
    method SetIndex(x: ObjId, key: Key, v: Value, so: bool, t: Option<SubId>)
      requires Valid() && x in world.st.objs && world.st.objs[x].kind.ArrayKind? && IsValidArrayIndex(key)
      requires Below(world.st.rank, v, world.st.rank[x])
      modifies this`world
      ensures world == SetIndexW(old(world), x, key, v, so, t)
    {
      ObjOkOf(world.st.objs, world.st.rank, x);
      PaddedBelow(world.st, x, IndexValue(key));
      world := ReplaceW(world, x, Padded(world.st.objs[x].elems, IndexValue(key)));
      var _ := MutateUnder(x, Splice, [Str(key), Num(1), v], NoOrder, so, t);
    }

    /** `set` of a new key on an observed object: `defineReactive(ob.value, key, val)`, then `ob.dep.notify()`. */
    method SetNew(x: ObjId, key: Key, v: Value, so: bool, t: Option<SubId>)
      requires Valid() && x in world.st.objs && world.st.objs[x].ob.Some? && Below(world.st.rank, v, world.st.rank[x])
      modifies this`world
      ensures world == SetNewW(old(world), x, key, v, so, t)
    {
      var b := world.st.objs[x].ob.value;
      var y := world.st.observers[b].value;
      assert y == x;
      ObjOkOf(world.st.objs, world.st.rank, x);
      DefineReactiveUnder(y, key, Some(v), false, so, t);
      Notify(world.st.observers[b].dep);
    }

    /** `del(target, key)` under the current switch and subscriber. */
    method Del(x: ObjId, key: Key)
      requires Valid() && x in world.st.objs && Addressable(world.st.objs[x], key)
      modifies this`world
      ensures world == DelW(old(world), x, key, shouldObserve, target)
    {
      DelUnder(x, key, shouldObserve, target);
    }

    /** `del(target, key)`. */
    method DelUnder(x: ObjId, key: Key, so: bool, t: Option<SubId>)
      requires Valid() && x in world.st.objs && Addressable(world.st.objs[x], key)
      modifies this`world
      ensures world == DelW(old(world), x, key, so, t)
    {
      var o := world.st.objs[x];
      ObjOkOf(world.st.objs, world.st.rank, x);
      if o.kind.ArrayKind? && IsValidArrayIndex(key) {
        var _ := MutateUnder(x, Splice, [Str(key), Num(1)], NoOrder, so, t);
        return;
      }
      var refuses := o.isVue || (o.ob.Some? && world.st.observers[o.ob.value].vmCount > 0);
      assert refuses == Refuses(world.st, x);
      if refuses || key !in o.props || !o.props[key].configurable {
        return;
      }
      world := DeleteW(world, x, key);
      if o.ob.Some? {
        Notify(world.st.observers[o.ob.value].dep);
      }
    }
  }
}
