/**
 * What the writes do, proved about the functions of `Writing`: when the
 * reactive setter stores and notifies, what reading the property gives
 * afterwards, what an assignment, a mutator call, `set` and `del` leave in the
 * target and in the notification log.
 */
module WriteFacts {
  import opened Wrappers
  import opened Values
  import opened Heap
  import opened ArrayNative
  import opened ArrayMethods
  import opened Steps
  import opened Growth
  import opened Observing
  import opened Fated
  import opened ObserveFacts
  import opened Writing

  // The reactive setter

  /**
   * The setter stores nothing and notifies nothing when the new value is the
   * current one (NaN onto NaN included) or the property is getter-only; only
   * its read of the current value may subscribe the active subscriber.
   */
  lemma SetterSkips(w: World, s: SlotId, newVal: Value, so: bool, t: Option<SubId>)
    requires WorldOk(w) && s in w.st.slots && Below(w.st.rank, newVal, w.st.rank[w.st.slots[s].owner])
    requires SkipsWrite(w.st.slots[s], newVal, SlotValue(w.st, s))
    ensures var r := ReactiveSetW(w, s, newVal, so, t);
      && r.st == w.st && r.ids == w.ids && r.log == w.log
      && r.subs == Subscribed(w.subs, FnTracked(w.st, w.st.slots[s].getter), t)
  {
    ReactiveSetWSteps(w, s, newVal, so, t);
  }

  /** The end of the setter: the child Observer becomes that of the new value (none when shallow), then one notification. */
  lemma CommitFacts(w: World, s: SlotId, newVal: Value, so: bool, t: Option<SubId>)
    requires WorldOk(w) && s in w.st.slots && Below(w.st.rank, newVal, w.st.rank[w.st.slots[s].owner])
    ensures var r := CommitW(w, s, newVal, so, t);
      var sl := w.st.slots[s];
      && r.log == w.log + [sl.dep] && s in r.st.slots
      && r.st.slots[s] == sl.(childOb := if sl.shallow then None else ObOf(r.st, newVal))
      && sl.owner in r.st.objs && r.st.objs[sl.owner].internal == w.st.objs[sl.owner].internal
  {
    SlotOkOf(w.st.observers, w.st.rank, w.st.slots, s);
  }

  /** The store of the setter: into the value slot, into a program-written setter's field, or through a reactive setter. */
  lemma StoreFacts(w: World, s: SlotId, newVal: Value, so: bool, t: Option<SubId>)
    requires WorldOk(w) && s in w.st.slots && Below(w.st.rank, newVal, w.st.rank[w.st.slots[s].owner])
    ensures var r := StoreW(w, s, newVal, so, t);
      var sl := w.st.slots[s];
      && s in r.st.slots && SameFrame(sl, r.st.slots[s]) && sl.owner in r.st.objs && w.log <= r.log
      && (sl.setter.None? ==> r.log == w.log && r.st.slots[s] == sl.(val := newVal))
      && (sl.setter.Some? && sl.setter.value.UserFn? ==>
            && r.log == w.log && r.st.slots[s] == sl
            && r.st.objs[sl.owner].internal == w.st.objs[sl.owner].internal[sl.setter.value.field := newVal])
  {
    var sl := w.st.slots[s];
    if sl.setter.None? {
      StoreSlot(w, s, newVal, so, t);
    } else if sl.setter.value.UserFn? {
      StoreField(w, s, newVal, so, t);
    } else {
      StoreChained(w, s, newVal, so, t);
    }
  }

  /** The store into the value slot: the slot takes the new value. */
  lemma StoreSlot(w: World, s: SlotId, newVal: Value, so: bool, t: Option<SubId>)
    requires WorldOk(w) && s in w.st.slots && Below(w.st.rank, newVal, w.st.rank[w.st.slots[s].owner])
    requires w.st.slots[s].setter.None?
    ensures var r := StoreW(w, s, newVal, so, t);
      && s in r.st.slots && r.st.slots[s] == w.st.slots[s].(val := newVal) && r.log == w.log
      && w.st.slots[s].owner in r.st.objs
  {
    SlotOkOf(w.st.observers, w.st.rank, w.st.slots, s);
  }

  /** The store through a program-written setter: its field of the owner takes the new value. */
  lemma StoreField(w: World, s: SlotId, newVal: Value, so: bool, t: Option<SubId>)
    requires WorldOk(w) && s in w.st.slots && Below(w.st.rank, newVal, w.st.rank[w.st.slots[s].owner])
    requires w.st.slots[s].setter.Some? && w.st.slots[s].setter.value.UserFn?
    ensures var r := StoreW(w, s, newVal, so, t);
      var sl := w.st.slots[s];
      && s in r.st.slots && r.st.slots[s] == sl && r.log == w.log && sl.owner in r.st.objs
      && r.st.objs[sl.owner].internal == w.st.objs[sl.owner].internal[sl.setter.value.field := newVal]
  {
    SlotOkOf(w.st.observers, w.st.rank, w.st.slots, s);
    assert Link(w.st.slots, s, w.st.slots[s].setter);
  }

  /** A captured reactive setter is run as the store. */
  lemma StoreChained(w: World, s: SlotId, newVal: Value, so: bool, t: Option<SubId>)
    requires WorldOk(w) && s in w.st.slots && Below(w.st.rank, newVal, w.st.rank[w.st.slots[s].owner])
    requires w.st.slots[s].setter.Some? && w.st.slots[s].setter.value.ReactiveFn?
    ensures var s' := w.st.slots[s].setter.value.slot;
      && s' in w.st.slots && w.st.slots[s'].owner == w.st.slots[s].owner
      && StoreW(w, s, newVal, so, t) == ReactiveSetW(w, s', newVal, so, t)
  {
    assert Link(w.st.slots, s, w.st.slots[s].setter);
  }

  /** The setter without a captured setter: the value slot takes the new value, and reading the property gives it. */
  lemma SetterWritesSlot(w: World, s: SlotId, newVal: Value, so: bool, t: Option<SubId>)
    requires WorldOk(w) && s in w.st.slots && Below(w.st.rank, newVal, w.st.rank[w.st.slots[s].owner])
    requires !SkipsWrite(w.st.slots[s], newVal, SlotValue(w.st, s)) && w.st.slots[s].setter.None?
    ensures var r := ReactiveSetW(w, s, newVal, so, t);
      var sl := w.st.slots[s];
      && s in r.st.slots && r.st.slots[s].val == newVal && SlotValue(r.st, s) == newVal
      && r.st.slots[s].childOb == (if sl.shallow then None else ObOf(r.st, newVal))
      && r.log == w.log + [sl.dep]
  {
    ReactiveSetWSteps(w, s, newVal, so, t);
    var w1 := ReadW(w, s, t);
    StoreSlot(w1, s, newVal, so, t);
    CommitFacts(StoreW(w1, s, newVal, so, t), s, newVal, so, t);
  }

  /**
   * The setter with a program-written captured setter: the new value goes
   * into the setter's field, and reading the property gives it when the
   * captured getter reads that same field.
   */
  lemma SetterWritesField(w: World, s: SlotId, newVal: Value, so: bool, t: Option<SubId>)
    requires WorldOk(w) && s in w.st.slots && Below(w.st.rank, newVal, w.st.rank[w.st.slots[s].owner])
    requires !SkipsWrite(w.st.slots[s], newVal, SlotValue(w.st, s))
    requires w.st.slots[s].setter.Some? && w.st.slots[s].setter.value.UserFn?
    ensures var r := ReactiveSetW(w, s, newVal, so, t);
      var sl := w.st.slots[s];
      && s in r.st.slots && sl.owner in r.st.objs
      && r.st.objs[sl.owner].internal == w.st.objs[sl.owner].internal[sl.setter.value.field := newVal]
      && r.st.slots[s].childOb == (if sl.shallow then None else ObOf(r.st, newVal))
      && r.log == w.log + [sl.dep]
      && (sl.getter == sl.setter ==> SlotValue(r.st, s) == newVal)
  {
    ReactiveSetWSteps(w, s, newVal, so, t);
    var w1 := ReadW(w, s, t);
    StoreField(w1, s, newVal, so, t);
    CommitFacts(StoreW(w1, s, newVal, so, t), s, newVal, so, t);
    FieldGetterReads(ReactiveSetW(w, s, newVal, so, t).st, s);
  }

  /** A property whose captured getter is program-written reads the getter's field of its owner. */
  lemma FieldGetterReads(st: Store, s: SlotId)
    requires Chained(st.slots) && s in st.slots
    ensures var sl := st.slots[s];
      sl.getter.Some? && sl.getter.value.UserFn? && sl.owner in st.objs && sl.getter.value.field in st.objs[sl.owner].internal
      ==> SlotValue(st, s) == st.objs[sl.owner].internal[sl.getter.value.field]
  {
  }

  /**
   * The setter with a captured reactive setter: that setter runs first, with
   * whatever it notifies, and the property's own dep is notified once after it.
   */
  lemma SetterWritesChained(w: World, s: SlotId, newVal: Value, so: bool, t: Option<SubId>)
    requires WorldOk(w) && s in w.st.slots && Below(w.st.rank, newVal, w.st.rank[w.st.slots[s].owner])
    requires !SkipsWrite(w.st.slots[s], newVal, SlotValue(w.st, s))
    requires w.st.slots[s].setter.Some? && w.st.slots[s].setter.value.ReactiveFn?
    ensures var r := ReactiveSetW(w, s, newVal, so, t);
      var sl := w.st.slots[s];
      var w1 := ReadW(w, s, t);
      && sl.setter.value.slot in w1.st.slots && w1.st.slots[sl.setter.value.slot].owner == sl.owner
      && var inner := ReactiveSetW(w1, sl.setter.value.slot, newVal, so, t);
      && w.log <= inner.log && r.log == inner.log + [sl.dep]
      && s in r.st.slots && r.st.slots[s].childOb == (if sl.shallow then None else ObOf(r.st, newVal))
  {
    ReactiveSetWSteps(w, s, newVal, so, t);
    var w1 := ReadW(w, s, t);
    StoreChained(w1, s, newVal, so, t);
    StoreFacts(w1, s, newVal, so, t);
    var w2 := StoreW(w1, s, newVal, so, t);
    CommitFacts(w2, s, newVal, so, t);
  }

  /**
   * The setter notifies exactly when it writes: the log is unchanged when it
   * skips, and grows, ending with the property's dep, when it does not.
   */
  lemma SetterNotifiesIffWrites(w: World, s: SlotId, newVal: Value, so: bool, t: Option<SubId>)
    requires WorldOk(w) && s in w.st.slots && Below(w.st.rank, newVal, w.st.rank[w.st.slots[s].owner])
    ensures var r := ReactiveSetW(w, s, newVal, so, t);
      && (r.log == w.log <==> SkipsWrite(w.st.slots[s], newVal, SlotValue(w.st, s)))
      && (r.log != w.log ==> r.log[|r.log| - 1] == w.st.slots[s].dep)
  {
    if SkipsWrite(w.st.slots[s], newVal, SlotValue(w.st, s)) {
      SetterSkips(w, s, newVal, so, t);
    } else {
      ReactiveSetWSteps(w, s, newVal, so, t);
      var w1 := ReadW(w, s, t);
      StoreFacts(w1, s, newVal, so, t);
      var w2 := StoreW(w1, s, newVal, so, t);
      CommitFacts(w2, s, newVal, so, t);
      var r := CommitW(w2, s, newVal, so, t);
      assert |r.log| == |w2.log| + 1 && |w2.log| >= |w.log|;
    }
  }

  // Assignment

  /**
   * `target[key] = val`: a data property takes the value in place; a new key
   * other than `__proto__` on an extensible object becomes an enumerable,
   * configurable data property at the end of the key order; neither notifies.
   * A reactive setter runs the reactive setter; a getter-only property, a
   * non-extensible object or an inherited `__proto__` is left as it was.
   * The two data cases change object `x` and nothing else.
   */
  lemma AssignFacts(w: World, x: ObjId, key: Key, v: Value, so: bool, t: Option<SubId>)
    requires WorldOk(w) && x in w.st.objs && Below(w.st.rank, v, w.st.rank[x])
    ensures var r := AssignW(w, x, key, v, so, t);
      var o := w.st.objs[x];
      && x in r.st.objs
      && (key in o.props && o.props[key].Data? ==>
            && r.st.objs[x] == WithProp(o, key, Data(v, o.props[key].enumerable, o.props[key].configurable))
            && r == w.(st := w.st.(objs := w.st.objs[x := r.st.objs[x]]))
            && r.log == w.log && PropValue(r.st, x, key) == v)
      && (key !in o.props && key != ProtoKey && o.extensible ==>
            && r.st.objs[x] == WithProp(o, key, Data(v, true, true)) && r.st.objs[x].keys == o.keys + [key]
            && r == w.(st := w.st.(objs := w.st.objs[x := r.st.objs[x]]))
            && r.log == w.log && PropValue(r.st, x, key) == v)
      && (key in o.props && o.props[key].Accessor? && o.props[key].setFn.Some? && o.props[key].setFn.value.ReactiveFn? ==>
            var s := o.props[key].setFn.value.slot;
            s in w.st.slots && w.st.slots[s].owner == x && r == ReactiveSetW(w, s, v, so, t))
      && ((key in o.props && o.props[key].Accessor? && o.props[key].setFn.None?) || (key !in o.props && (key == ProtoKey || !o.extensible)) ==> r == w)
  {
    var o := w.st.objs[x];
    if key in o.props && o.props[key].Data? {
      AssignData(w, x, key, v, so, t);
    } else if key !in o.props {
      AssignNew(w, x, key, v, so, t);
    } else {
      AssignAccessor(w, x, key, v, so, t);
    }
  }

  /** The data-property case of `AssignFacts`. */
  lemma AssignData(w: World, x: ObjId, key: Key, v: Value, so: bool, t: Option<SubId>)
    requires WorldOk(w) && x in w.st.objs && Below(w.st.rank, v, w.st.rank[x])
    requires key in w.st.objs[x].props && w.st.objs[x].props[key].Data?
    ensures var r := AssignW(w, x, key, v, so, t);
      var o := w.st.objs[x];
      && x in r.st.objs
      && r.st.objs[x] == WithProp(o, key, Data(v, o.props[key].enumerable, o.props[key].configurable))
      && r == w.(st := w.st.(objs := w.st.objs[x := r.st.objs[x]]))
      && r.log == w.log && PropValue(r.st, x, key) == v
  {
    AssignWCases(w, x, key, v, so, t);
    ObjOkOf(w.st.objs, w.st.rank, x);
  }

  /** The new-key case of `AssignFacts`. */
  lemma AssignNew(w: World, x: ObjId, key: Key, v: Value, so: bool, t: Option<SubId>)
    requires WorldOk(w) && x in w.st.objs && Below(w.st.rank, v, w.st.rank[x]) && key !in w.st.objs[x].props
    ensures var r := AssignW(w, x, key, v, so, t);
      var o := w.st.objs[x];
      && x in r.st.objs
      && (key != ProtoKey && o.extensible ==>
            && r.st.objs[x] == WithProp(o, key, Data(v, true, true)) && r.st.objs[x].keys == o.keys + [key]
            && r == w.(st := w.st.(objs := w.st.objs[x := r.st.objs[x]]))
            && r.log == w.log && PropValue(r.st, x, key) == v)
      && (key == ProtoKey || !o.extensible ==> r == w)
  {
    AssignWCases(w, x, key, v, so, t);
    ObjOkOf(w.st.objs, w.st.rank, x);
  }

  /** The accessor case of `AssignFacts`. */
  lemma AssignAccessor(w: World, x: ObjId, key: Key, v: Value, so: bool, t: Option<SubId>)
    requires WorldOk(w) && x in w.st.objs && Below(w.st.rank, v, w.st.rank[x])
    requires key in w.st.objs[x].props && w.st.objs[x].props[key].Accessor?
    ensures var r := AssignW(w, x, key, v, so, t);
      var p := w.st.objs[x].props[key];
      && (p.setFn.Some? && p.setFn.value.ReactiveFn? ==>
            var s := p.setFn.value.slot;
            s in w.st.slots && w.st.slots[s].owner == x && r == ReactiveSetW(w, s, v, so, t))
      && (p.setFn.None? ==> r == w)
  {
    AssignWCases(w, x, key, v, so, t);
    ObjOkOf(w.st.objs, w.st.rank, x);
    AccessorOwned(w.st.objs, w.st.slots, x, key);
  }

  // The array mutators

  /** An array carries the interceptor exactly when method lookup on it finds one of the seven mutators intercepted. */
  lemma InterceptedIffPatched(patched: bool, m: Mutator)
    ensures Lookup(patched, NameOf(m)) == if patched then Intercepted(m) else Prototype(NameOf(m))
  {
    NamesRoundTrip(m);
  }

  /**
   * What a mutator call `r` on array `x` should leave, given the native
   * outcome `out` and the inserted arguments `ins`: the native result, exactly
   * the native elements and nothing else changed in the array.
   *
   * On an array with the interceptor: exactly one notification of the array's
   * Observer; every inserted element settled; beyond the new elements, only
   * what observing the inserted elements may do (objects ranked below the
   * array may gain an Observer and reactive properties, objects ranked as high
   * or higher are untouched, and no existing Observer record changes); and
   * when nothing was inserted, nothing but the elements and the log changes.
   * On an array without the interceptor, nothing else changes at all.
   */
  ghost predicate MutatedAs(w: World, x: ObjId, out: Outcome, ins: seq<Value>, so: bool, r: Mutated)
    requires x in w.st.objs && x in w.st.rank
  {
    var o := w.st.objs[x];
    var replaced := w.st.(objs := w.st.objs[x := o.(elems := out.elems)]);
    && r.result == out.result
    && x in r.w.st.objs && r.w.st.objs[x] == o.(elems := out.elems)
    && (o.patched ==>
          && o.ob.Some? && o.ob.value in w.st.observers
          && r.w.log == w.log + [w.st.observers[o.ob.value].dep]
          && AllSettled(r.w.st, ins, |ins|, so)
          && Fates(replaced, r.w.st, so, w.st.rank[x]) && ObsFates(replaced, r.w.st)
          && (ins == [] ==> r.w == w.(st := replaced, log := w.log + [w.st.observers[o.ob.value].dep])))
    && (!o.patched ==> r.w == w.(st := replaced))
  }

  /**
   * A mutator call returns what the native method returns and leaves in the
   * array exactly the elements the native method leaves, the rest of the
   * array untouched. On an array with the interceptor, every inserted element
   * is settled afterwards and the array's Observer notifies exactly once; on
   * one without, nothing is notified and nothing else changes.
   */
  lemma MutateFacts(w: World, x: ObjId, m: Mutator, args: seq<Value>, lt: (Value, Value) -> bool, so: bool,
                    t: Option<SubId>)
    requires WorldOk(w) && x in w.st.objs && x in w.st.rank && w.st.objs[x].kind.ArrayKind?
    requires forall i :: 0 <= i < |args| ==> Below(w.st.rank, args[i], w.st.rank[x])
    ensures MutatedAs(w, x, Apply(m, w.st.objs[x].elems, args, lt), Inserted(m, args), so, MutateW(w, x, m, args, lt, so, t))
  {
    if w.st.objs[x].patched {
      MutatePatched(w, x, m, args, lt, so, t);
    } else {
      MutateUnpatched(w, x, m, args, lt, so, t);
    }
  }

  /** The patched case of `MutateFacts`. */
  lemma MutatePatched(w: World, x: ObjId, m: Mutator, args: seq<Value>, lt: (Value, Value) -> bool, so: bool,
                      t: Option<SubId>)
    requires WorldOk(w) && x in w.st.objs && x in w.st.rank && w.st.objs[x].kind.ArrayKind? && w.st.objs[x].patched
    requires forall i :: 0 <= i < |args| ==> Below(w.st.rank, args[i], w.st.rank[x])
    ensures MutatedAs(w, x, Apply(m, w.st.objs[x].elems, args, lt), Inserted(m, args), so, MutateW(w, x, m, args, lt, so, t))
  {
    var o := w.st.objs[x];
    ObjOkOf(w.st.objs, w.st.rank, x);
    InterceptedIffPatched(o.patched, m);
    var out := Apply(m, o.elems, args, lt);
    ElemsBelow(w.st, x, m, args, lt);
    InsertedBelow(w.st.rank, m, args, w.st.rank[x]);
    ReplaceThenObserve(w, x, out.elems, Inserted(m, args), so, t);
    ReplaceThenObserveFrame(w, x, out.elems, Inserted(m, args), so, t);
  }

  /** Replacing the elements of observed array `x`, then observing `ins`: `x` keeps `es` and its Observer, and `ins` is settled. */
  lemma ReplaceThenObserve(w: World, x: ObjId, es: seq<Value>, ins: seq<Value>, so: bool, t: Option<SubId>)
    requires WorldOk(w) && x in w.st.objs && x in w.st.rank && w.st.objs[x].ob.Some?
    requires forall i :: 0 <= i < |es| ==> Below(w.st.rank, es[i], w.st.rank[x])
    requires forall i :: 0 <= i < |ins| ==> Below(w.st.rank, ins[i], w.st.rank[x])
    ensures var w1 := ReplaceW(w, x, es);
      var w2 := ObserveArrayW(w1, ins, |ins|, w.st.rank[x], so, t);
      var b := w.st.objs[x].ob.value;
      && x in w2.st.objs && w2.st.objs[x] == w.st.objs[x].(elems := es)
      && b in w.st.observers && b in w2.st.observers && w2.st.observers[b].dep == w.st.observers[b].dep
      && w2.log == w1.log && w1.log == w.log
      && AllSettled(w2.st, ins, |ins|, so)
  {
    var o := w.st.objs[x];
    var w1 := ReplaceW(w, x, es);
    var w2 := ObserveArrayW(w1, ins, |ins|, w.st.rank[x], so, t);
    ObserveArrayFated(w1, ins, |ins|, w.st.rank[x], so, t);
    assert ObjFate(w1.st, w2.st, x, so, w.st.rank[x]);
    assert ObsFate(w1.st, w2.st, o.ob.value);
  }

  /** The frame of `ReplaceThenObserve`: only the elements of `x` change, then only what lies below `x`; nothing inserted, nothing observed. */
  lemma ReplaceThenObserveFrame(w: World, x: ObjId, es: seq<Value>, ins: seq<Value>, so: bool, t: Option<SubId>)
    requires WorldOk(w) && x in w.st.objs && x in w.st.rank && w.st.objs[x].ob.Some?
    requires forall i :: 0 <= i < |es| ==> Below(w.st.rank, es[i], w.st.rank[x])
    requires forall i :: 0 <= i < |ins| ==> Below(w.st.rank, ins[i], w.st.rank[x])
    ensures var w1 := ReplaceW(w, x, es);
      var w2 := ObserveArrayW(w1, ins, |ins|, w.st.rank[x], so, t);
      && w1.st == w.st.(objs := w.st.objs[x := w.st.objs[x].(elems := es)])
      && Fates(w1.st, w2.st, so, w.st.rank[x]) && ObsFates(w1.st, w2.st)
      && (ins == [] ==> w2 == w1)
  {
    ObserveArrayFated(ReplaceW(w, x, es), ins, |ins|, w.st.rank[x], so, t);
  }

  /** The unpatched case of `MutateFacts`. */
  lemma MutateUnpatched(w: World, x: ObjId, m: Mutator, args: seq<Value>, lt: (Value, Value) -> bool, so: bool,
                        t: Option<SubId>)
    requires WorldOk(w) && x in w.st.objs && x in w.st.rank && w.st.objs[x].kind.ArrayKind? && !w.st.objs[x].patched
    requires forall i :: 0 <= i < |args| ==> Below(w.st.rank, args[i], w.st.rank[x])
    ensures var r := MutateW(w, x, m, args, lt, so, t);
      var o := w.st.objs[x];
      var out := Apply(m, o.elems, args, lt);
      r == Mutated(w.(st := w.st.(objs := w.st.objs[x := o.(elems := out.elems)])), out.result)
  {
    InterceptedIffPatched(false, m);
  }

  /** After an intercepted mutator call, observing any inserted element again returns its Observer and changes nothing. */
  lemma MutateSettles(w: World, x: ObjId, m: Mutator, args: seq<Value>, lt: (Value, Value) -> bool, so: bool,
                      t: Option<SubId>, j: nat)
    requires WorldOk(w) && x in w.st.objs && x in w.st.rank && w.st.objs[x].kind.ArrayKind? && w.st.objs[x].patched
    requires forall i :: 0 <= i < |args| ==> Below(w.st.rank, args[i], w.st.rank[x])
    requires j < |Inserted(m, args)|
    ensures var r := MutateW(w, x, m, args, lt, so, t).w;
      var e := Inserted(m, args)[j];
      && (e.Ref? ==> e.id in r.st.objs)
      && ObserveW(r, e, false, so, t) == Observed(r, ObOf(r.st, e))
  {
    var r := MutateW(w, x, m, args, lt, so, t).w;
    var e := Inserted(m, args)[j];
    MutateFacts(w, x, m, args, lt, so, t);
    InsertedBelow(w.st.rank, m, args, w.st.rank[x]);
    assert Below(w.st.rank, e, w.st.rank[x]);
    assert Settled(r.st, e, so);
    SettledObserve(r, e, so, t);
  }

  // set

  /**
   * `set` on an array index `n`: the array ends with length
   * max(old length, n + 1), `val` at `n`, every other old element in place
   * and `undefined` in any gap; an observed array notifies once, through the
   * intercepted `splice`, and `val` is settled. The array's other fields stay;
   * beyond its elements, an observed array sees only what observing `val` may
   * do, and on a plain array nothing else changes.
   */
  lemma SetIndexFacts(w: World, x: ObjId, key: Key, v: Value, so: bool, t: Option<SubId>)
    requires WorldOk(w) && x in w.st.objs && w.st.objs[x].kind.ArrayKind? && IsValidArrayIndex(key)
    requires Addressable(w.st.objs[x], key) && Below(w.st.rank, v, w.st.rank[x])
    ensures var r := SetW(w, x, key, v, so, t);
      var o := w.st.objs[x];
      var n := IndexValue(key);
      && x in r.st.objs
      && var es := r.st.objs[x].elems;
      && |es| == (if n < |o.elems| then |o.elems| else n + 1) && es[n] == v
      && (forall i :: 0 <= i < |es| && i != n ==> es[i] == if i < |o.elems| then o.elems[i] else Undef)
      && (o.patched ==> o.ob.Some? && o.ob.value in w.st.observers && r.log == w.log + [w.st.observers[o.ob.value].dep]
                        && Settled(r.st, v, so))
      && (!o.patched ==> r.log == w.log)
      && var final := w.st.(objs := w.st.objs[x := o.(elems := es)]);
      && r.st.objs[x] == o.(elems := es)
      && (o.patched ==> Fates(final, r.st, so, w.st.rank[x]) && ObsFates(final, r.st))
      && (!o.patched ==> r == w.(st := final))
  {
    SetWCases(w, x, key, v, so, t);
    SetIndexWFacts(w, x, key, v, so, t);
  }

  /** A mutator call on `x` after its elements were replaced: the frame `MutatedAs` states, read against the world before the replacement. */
  lemma MutatedFrame(w: World, w1: World, x: ObjId, es: seq<Value>, out: Outcome, ins: seq<Value>, so: bool, r: Mutated)
    requires x in w.st.objs && x in w.st.rank
    requires w1 == w.(st := w.st.(objs := w.st.objs[x := w.st.objs[x].(elems := es)]))
    requires MutatedAs(w1, x, out, ins, so, r)
    ensures var o := w.st.objs[x];
      var final := w.st.(objs := w.st.objs[x := o.(elems := out.elems)]);
      && x in r.w.st.objs && r.w.st.objs[x] == o.(elems := out.elems)
      && (o.patched ==> Fates(final, r.w.st, so, w.st.rank[x]) && ObsFates(final, r.w.st))
      && (!o.patched ==> r.w == w.(st := final))
  {
    var o := w.st.objs[x];
    assert w1.st.(objs := w1.st.objs[x := w1.st.objs[x].(elems := out.elems)])
        == w.st.(objs := w.st.objs[x := o.(elems := out.elems)]);
  }

  /** The array-index branch of `set`, what `SetIndexFacts` states of `set` itself. */
  lemma SetIndexWFacts(w: World, x: ObjId, key: Key, v: Value, so: bool, t: Option<SubId>)
    requires WorldOk(w) && x in w.st.objs && w.st.objs[x].kind.ArrayKind? && IsValidArrayIndex(key)
    requires Below(w.st.rank, v, w.st.rank[x])
    ensures var r := SetIndexW(w, x, key, v, so, t);
      var o := w.st.objs[x];
      var n := IndexValue(key);
      && x in r.st.objs
      && var es := r.st.objs[x].elems;
      && |es| == (if n < |o.elems| then |o.elems| else n + 1) && es[n] == v
      && (forall i :: 0 <= i < |es| && i != n ==> es[i] == if i < |o.elems| then o.elems[i] else Undef)
      && (o.patched ==> o.ob.Some? && o.ob.value in w.st.observers && r.log == w.log + [w.st.observers[o.ob.value].dep]
                        && Settled(r.st, v, so))
      && (!o.patched ==> r.log == w.log)
      && var final := w.st.(objs := w.st.objs[x := o.(elems := es)]);
      && r.st.objs[x] == o.(elems := es)
      && (o.patched ==> Fates(final, r.st, so, w.st.rank[x]) && ObsFates(final, r.st))
      && (!o.patched ==> r == w.(st := final))
  {
    var o := w.st.objs[x];
    ObjOkOf(w.st.objs, w.st.rank, x);
    var n := IndexValue(key);
    PaddedBelow(w.st, x, n);
    var w1 := ReplaceW(w, x, Padded(o.elems, n));
    assert w1.st.objs[x] == o.(elems := Padded(o.elems, n));
    var args := [Str(key), Num(1), v];
    MutateFacts(w1, x, Splice, args, NoOrder, so, t);
    MutatedFrame(w, w1, x, Padded(o.elems, n), Apply(Splice, Padded(o.elems, n), args, NoOrder), Inserted(Splice, args), so,
                 MutateW(w1, x, Splice, args, NoOrder, so, t));
    WriteBySplice(o.elems, key, v, NoOrder);
    if o.patched {
      IndexSpliceInserts(key, v);
      var r := MutateW(w1, x, Splice, args, NoOrder, so, t).w;
      assert AllSettled(r.st, [v], 1, so);
      assert Settled(r.st, [v][0], so);
    }
  }

  /**
   * `set` of a key that already exists on the object: a plain assignment,
   * which `set` itself does not follow with a notification. An own key named
   * like one of `Object.prototype` takes this route only on an object without
   * an Observer (and not a Vue instance).
   */
  lemma SetExisting(w: World, x: ObjId, key: Key, v: Value, so: bool, t: Option<SubId>)
    requires WorldOk(w) && x in w.st.objs && Addressable(w.st.objs[x], key) && Below(w.st.rank, v, w.st.rank[x])
    requires !(w.st.objs[x].kind.ArrayKind? && IsValidArrayIndex(key))
    requires key in w.st.objs[x].props && (key !in ObjectPrototypeKeys || (!Refuses(w.st, x) && w.st.objs[x].ob.None?))
    ensures SetW(w, x, key, v, so, t) == AssignW(w, x, key, v, so, t)
  {
    SetWCases(w, x, key, v, so, t);
  }

  /** `set` on a Vue instance or on root data, for a key it does not already have: nothing changes. */
  lemma SetRefused(w: World, x: ObjId, key: Key, v: Value, so: bool, t: Option<SubId>)
    requires WorldOk(w) && x in w.st.objs && Addressable(w.st.objs[x], key) && Below(w.st.rank, v, w.st.rank[x])
    requires !(w.st.objs[x].kind.ArrayKind? && IsValidArrayIndex(key))
    requires !(key in w.st.objs[x].props && key !in ObjectPrototypeKeys) && Refuses(w.st, x)
    ensures SetW(w, x, key, v, so, t) == w
  {
    SetWCases(w, x, key, v, so, t);
  }

  /**
   * `set` of a new key on an object without an Observer: the key is assigned
   * as an untracked data property and nothing is notified (an inherited
   * `__proto__` only reaches the prototype setter, so no own property changes).
   */
  lemma SetUntracked(w: World, x: ObjId, key: Key, v: Value, so: bool, t: Option<SubId>)
    requires WorldOk(w) && x in w.st.objs && Addressable(w.st.objs[x], key) && Below(w.st.rank, v, w.st.rank[x])
    requires !(w.st.objs[x].kind.ArrayKind? && IsValidArrayIndex(key))
    requires key !in w.st.objs[x].props && !Refuses(w.st, x) && w.st.objs[x].ob.None?
    ensures var r := SetW(w, x, key, v, so, t);
      var o := w.st.objs[x];
      && r.log == w.log && x in r.st.objs
      && r.st.objs[x] == (if key != ProtoKey && o.extensible then WithProp(o, key, Data(v, true, true)) else o)
      && r == w.(st := w.st.(objs := w.st.objs[x := r.st.objs[x]]))
  {
    SetWCases(w, x, key, v, so, t);
    AssignFacts(w, x, key, v, so, t);
  }

  /**
   * `set` of a new key on an observed object: the key becomes a reactive
   * property (closing over the given value and that value's Observer), and
   * the object's Observer notifies exactly once. The same route is taken by
   * an own key named like one of `Object.prototype` (`key in Object.prototype`
   * holds for it), so `set` notifies although the key exists: a configurable
   * one is redefined reactively over its former getter and setter, and a
   * non-configurable one is left as it was, with only the notification.
   */
  lemma SetReactive(w: World, x: ObjId, key: Key, v: Value, so: bool, t: Option<SubId>)
    requires WorldOk(w) && x in w.st.objs && Addressable(w.st.objs[x], key) && Below(w.st.rank, v, w.st.rank[x])
    requires !(w.st.objs[x].kind.ArrayKind? && IsValidArrayIndex(key))
    requires (key !in w.st.objs[x].props || key in ObjectPrototypeKeys) && !Refuses(w.st, x) && w.st.objs[x].ob.Some?
    ensures var r := SetW(w, x, key, v, so, t);
      var o := w.st.objs[x];
      var b := o.ob.value;
      && b in w.st.observers && r.log == w.log + [w.st.observers[b].dep]
      && (key !in o.props ==> Bound(w.st, r.st, x, key, Slot(x, w.ids.dep, v, ObOf(r.st, v), None, None, false)))
      && (!NonConfigurable(o, key) ==>
            Bound(w.st, r.st, x, key, Slot(x, w.ids.dep, v, ObOf(r.st, v), GetterIn(OwnProp(o, key)), SetterIn(OwnProp(o, key)), false)))
      && (NonConfigurable(o, key) ==> r == w.(ids := w.ids.(dep := w.ids.dep + 1), log := r.log))
  {
    SetWCases(w, x, key, v, so, t);
    var o := w.st.objs[x];
    var b := o.ob.value;
    assert w.st.observers[b].value == x;
    ObjOkOf(w.st.objs, w.st.rank, x);
    if NonConfigurable(o, key) {
      DefineReactiveSkips(w, x, key, Some(v), false, so, t);
    } else {
      DefineReactiveBinds(w, x, key, Some(v), false, so, t);
      DefineReactiveFated(w, x, key, Some(v), false, so, t);
      assert ObsFate(w.st, DefineReactiveW(w, x, key, Some(v), false, so, t).st, b);
    }
  }

  // del

  /**
   * `del` on an array index `n`: the element at `n`, if any, is taken out
   * and nothing else changes in the array; an observed array notifies once,
   * through the intercepted `splice`. Nothing else in the world changes.
   */
  lemma DelIndexFacts(w: World, x: ObjId, key: Key, so: bool, t: Option<SubId>)
    requires WorldOk(w) && x in w.st.objs && w.st.objs[x].kind.ArrayKind? && IsValidArrayIndex(key)
    requires Addressable(w.st.objs[x], key)
    ensures var r := DelW(w, x, key, so, t);
      var o := w.st.objs[x];
      var n := IndexValue(key);
      && x in r.st.objs
      && r.st.objs[x] == o.(elems := if n < |o.elems| then o.elems[..n] + o.elems[n + 1..] else o.elems)
      && (o.patched ==> o.ob.Some? && o.ob.value in w.st.observers && r.log == w.log + [w.st.observers[o.ob.value].dep])
      && (!o.patched ==> r.log == w.log)
      && r == w.(st := w.st.(objs := w.st.objs[x := r.st.objs[x]]), log := r.log)
  {
    ObjOkOf(w.st.objs, w.st.rank, x);
    MutateFacts(w, x, Splice, [Str(key), Num(1)], NoOrder, so, t);
    assert Inserted(Splice, [Str(key), Num(1)]) == [];
    DeleteBySplice(w.st.objs[x].elems, key, NoOrder);
  }

  /** `del` changes nothing on a Vue instance or root data, for a key that is not an own property, or a non-configurable one. */
  lemma DelRefused(w: World, x: ObjId, key: Key, so: bool, t: Option<SubId>)
    requires WorldOk(w) && x in w.st.objs && Addressable(w.st.objs[x], key)
    requires !(w.st.objs[x].kind.ArrayKind? && IsValidArrayIndex(key))
    requires Refuses(w.st, x) || key !in w.st.objs[x].props || !w.st.objs[x].props[key].configurable
    ensures DelW(w, x, key, so, t) == w
  {
  }

  /**
   * `del` of an own configurable property: the property is gone, with its
   * key taken out of the key order, and the object's Observer, if it has one,
   * notifies exactly once; without an Observer nothing is notified. Nothing
   * else in the world changes.
   */
  lemma DelDeletes(w: World, x: ObjId, key: Key, so: bool, t: Option<SubId>)
    requires WorldOk(w) && x in w.st.objs && Addressable(w.st.objs[x], key)
    requires !(w.st.objs[x].kind.ArrayKind? && IsValidArrayIndex(key))
    requires !Refuses(w.st, x) && key in w.st.objs[x].props && w.st.objs[x].props[key].configurable
    ensures var r := DelW(w, x, key, so, t);
      var o := w.st.objs[x];
      && x in r.st.objs && r.st.objs[x] == WithoutProp(o, key) && key !in r.st.objs[x].props
      && (o.ob.Some? ==> o.ob.value in w.st.observers && r.log == w.log + [w.st.observers[o.ob.value].dep])
      && (o.ob.None? ==> r.log == w.log)
      && r == w.(st := w.st.(objs := w.st.objs[x := WithoutProp(o, key)]), log := r.log)
  {
  }
}
