/**
 * What the writes of the observer core do, as functions from the world before
 * to the world after: the reactive setter `reactiveSetter` with the captured
 * setter it may call, a plain assignment `target[key] = val`, a call of one of
 * the seven array mutators (through the interceptor on an observed array),
 * `set` and `del`. The runtime's methods are proved to compute exactly these.
 */
module Writing {
  import opened Wrappers
  import opened Values
  import opened Heap
  import opened ArrayNative
  import opened ArrayMethods
  import opened Steps
  import opened Growth
  import opened Observing
  import opened Fated

  /**
   * What every write keeps: the objects and their ranks, the Observers and the
   * slots there are, and of each slot everything but its value and child
   * Observer; ids only grow, and the notification log only grows at its end.
   */
  ghost predicate Wrote(a: World, b: World) {
    && b.st.rank == a.st.rank && b.st.objs.Keys == a.st.objs.Keys && IdsGrow(a.ids, b.ids) && a.log <= b.log
    && a.st.observers.Keys <= b.st.observers.Keys && SlotFramesKept(a.st, b.st)
  }

  /** Slot `b` is slot `a` with at most its value and child Observer changed. */
  predicate SameFrame(a: Slot, b: Slot) {
    b.owner == a.owner && b.dep == a.dep && b.getter == a.getter && b.setter == a.setter && b.shallow == a.shallow
  }

  ghost predicate SlotFramesKept(a: Store, b: Store) {
    forall s :: s in a.slots ==> s in b.slots && SameFrame(a.slots[s], b.slots[s])
  }

  lemma WroteTrans(a: World, b: World, c: World)
    requires Wrote(a, b) && Wrote(b, c)
    ensures Wrote(a, c)
  {
  }

  lemma KeptWrote(a: World, b: World)
    requires Kept(a, b)
    ensures Wrote(a, b)
  {
  }

  /** `dep.notify()`, one entry in the log. */
  function NotifyW(w: World, d: DepId): (r: World)
    ensures r.st == w.st && r.ids == w.ids && r.subs == w.subs
  {
    w.(log := w.log + [d])
  }

  /** The closure's `val = newVal`. */
  function WriteSlotW(w: World, s: SlotId, v: Value): (r: World)
    requires WorldOk(w) && s in w.st.slots && Below(w.st.rank, v, w.st.rank[w.st.slots[s].owner])
    ensures WorldOk(r) && Wrote(w, r) && r.log == w.log
  {
    SlotOkOf(w.st.observers, w.st.rank, w.st.slots, s);
    WriteSlotValid(w.st, w.ids, s, v, w.st.slots[s].childOb);
    w.(st := Store(w.st.objs, w.st.observers, Written(w.st.slots, s, v, w.st.slots[s].childOb), w.st.rank))
  }

  /** The closure's `childOb = ...`. */
  function ChildW(w: World, s: SlotId, c: Option<ObsId>): (r: World)
    requires WorldOk(w) && s in w.st.slots && (c.Some? ==> c.value in w.st.observers)
    ensures WorldOk(r) && Wrote(w, r) && r.log == w.log
  {
    SlotOkOf(w.st.observers, w.st.rank, w.st.slots, s);
    WriteSlotValid(w.st, w.ids, s, w.st.slots[s].val, c);
    w.(st := Store(w.st.objs, w.st.observers, Written(w.st.slots, s, w.st.slots[s].val, c), w.st.rank))
  }

  /** A program-written setter storing `v` in its internal field of object `x`. */
  function StoreInternalW(w: World, x: ObjId, f: Key, v: Value): (r: World)
    requires WorldOk(w) && x in w.st.objs && Below(w.st.rank, v, w.st.rank[x])
    ensures WorldOk(r) && Wrote(w, r) && r.log == w.log
  {
    WriteInternalValid(w.st, w.ids, x, f, v);
    w.(st := Store(Stored(w.st.objs, x, f, v), w.st.observers, w.st.slots, w.st.rank))
  }

  /** Own data property `k` of `x` defined as `Data(v, enumerable, configurable)`. */
  function DefineDataW(w: World, x: ObjId, k: Key, v: Value, enumerable: bool, configurable: bool): (r: World)
    requires WorldOk(w) && x in w.st.objs && Below(w.st.rank, v, w.st.rank[x])
    ensures WorldOk(r) && Wrote(w, r) && r.log == w.log
  {
    DefineOwnValid(w.st, w.ids, x, k, Data(v, enumerable, configurable));
    w.(st := Store(Defined(w.st.objs, x, k, Data(v, enumerable, configurable)), w.st.observers, w.st.slots, w.st.rank))
  }

  /** `delete obj[k]`. */
  function DeleteW(w: World, x: ObjId, k: Key): (r: World)
    requires WorldOk(w) && x in w.st.objs
    ensures WorldOk(r) && Wrote(w, r) && r.log == w.log
  {
    DeleteValid(w.st, w.ids, x, k);
    w.(st := Store(Deleted(w.st.objs, x, k), w.st.observers, w.st.slots, w.st.rank))
  }

  /** The elements of array `x` replaced by `es`. */
  function ReplaceW(w: World, x: ObjId, es: seq<Value>): (r: World)
    requires WorldOk(w) && x in w.st.objs && forall i :: 0 <= i < |es| ==> Below(w.st.rank, es[i], w.st.rank[x])
    ensures WorldOk(r) && Wrote(w, r) && r.log == w.log
  {
    SetElemsValid(w.st, w.ids, x, es);
    w.(st := Store(Replaced(w.st.objs, x, es), w.st.observers, w.st.slots, w.st.rank))
  }

  // The reactive setter and the captured setter it calls, by recursion on the
  // slot ids: a captured reactive setter belongs to an older slot.

  /**
   * `reactiveSetter(newVal)` of slot `s`: read the current value through the
   * captured getter (or from `val`); nothing more when it is the same value or
   * the property is getter-only; otherwise store the new value, recompute the
   * child Observer and notify the property's dep.
   */
  ghost function ReactiveSetW(w: World, s: SlotId, newVal: Value, so: bool, t: Option<SubId>): (r: World)
    requires WorldOk(w) && s in w.st.slots && Below(w.st.rank, newVal, w.st.rank[w.st.slots[s].owner])
    ensures WorldOk(r) && Wrote(w, r)
    decreases s + 1, 0, 1
  {
    var sl := w.st.slots[s];
    var w1 := ReadW(w, s, t);
    KeptWrote(w, w1);
    if SkipsWrite(sl, newVal, SlotValue(w.st, s)) then w1
    else
      var w2 := StoreW(w1, s, newVal, so, t);
      WroteTrans(w, w1, w2);
      var r := CommitW(w2, s, newVal, so, t);
      WroteTrans(w, w2, r);
      r
  }

  /** The three stages of the reactive setter, each on the world the previous one leaves. */
  lemma ReactiveSetWSteps(w: World, s: SlotId, newVal: Value, so: bool, t: Option<SubId>)
    requires WorldOk(w) && s in w.st.slots && Below(w.st.rank, newVal, w.st.rank[w.st.slots[s].owner])
    ensures var w1 := ReadW(w, s, t);
      && WorldOk(w1) && w1.st == w.st
      && ReactiveSetW(w, s, newVal, so, t)
         == if SkipsWrite(w.st.slots[s], newVal, SlotValue(w.st, s)) then w1
            else CommitW(StoreW(w1, s, newVal, so, t), s, newVal, so, t)
  {
  }

  /** The setter's read of the current value, `getter ? getter.call(obj) : val`, with what that call tracks. */
  ghost function ReadW(w: World, s: SlotId, t: Option<SubId>): (r: World)
    requires WorldOk(w) && s in w.st.slots
    ensures r == w.(subs := Subscribed(w.subs, FnTracked(w.st, w.st.slots[s].getter), t))
    ensures WorldOk(r) && Kept(w, r)
  {
    assert Link(w.st.slots, s, w.st.slots[s].getter);
    w.(subs := Subscribed(w.subs, FnTracked(w.st, w.st.slots[s].getter), t))
  }

  /** The setter returns early: the value is unchanged (NaN onto NaN included), or the property is getter-only. */
  predicate SkipsWrite(sl: Slot, newVal: Value, value: Value) {
    SameValue(newVal, value) || (sl.getter.Some? && sl.setter.None?)
  }

  /** `setter ? setter.call(obj, newVal) : val = newVal`. */
  ghost function StoreW(w: World, s: SlotId, newVal: Value, so: bool, t: Option<SubId>): (r: World)
    requires WorldOk(w) && s in w.st.slots && Below(w.st.rank, newVal, w.st.rank[w.st.slots[s].owner])
    ensures WorldOk(r) && Wrote(w, r)
    decreases s + 1, 0, 0
  {
    var sl := w.st.slots[s];
    SlotOkOf(w.st.observers, w.st.rank, w.st.slots, s);
    assert Link(w.st.slots, s, sl.setter);
    if sl.setter.Some? then FnSetW(w, sl.setter.value, sl.owner, newVal, so, t)
    else WriteSlotW(w, s, newVal)
  }

  /** `f.call(owner, v)` for a captured setter: a program-written one stores its field, a reactive one runs its slot's setter. */
  ghost function FnSetW(w: World, f: Fn, owner: ObjId, v: Value, so: bool, t: Option<SubId>): (r: World)
    requires WorldOk(w) && owner in w.st.objs && owner in w.st.rank && Below(w.st.rank, v, w.st.rank[owner])
    requires FnOwned(w.st.slots, Some(f), owner)
    ensures WorldOk(r) && Wrote(w, r)
    decreases if f.ReactiveFn? then f.slot + 1 else 0, 1, 0
  {
    match f
    case UserFn(field) => StoreInternalW(w, owner, field, v)
    case ReactiveFn(s') => ReactiveSetW(w, s', v, so, t)
  }

  /** The end of the setter: `childOb = !shallow && observe(newVal)`, then `dep.notify()`. */
  ghost function CommitW(w: World, s: SlotId, newVal: Value, so: bool, t: Option<SubId>): (r: World)
    requires WorldOk(w) && s in w.st.slots && Below(w.st.rank, newVal, w.st.rank[w.st.slots[s].owner])
    ensures WorldOk(r) && Wrote(w, r)
  {
    var o := ChildObserveW(w, s, newVal, so, t);
    KeptWrote(w, o.w);
    var r := ChildW(o.w, s, o.ob);
    WroteTrans(w, o.w, r);
    NotifyW(r, w.st.slots[s].dep)
  }

  /**
   * `!shallow && observe(newVal)`: the Observer the new value carries
   * afterwards (none when shallow); the setter's own slot and the internal
   * fields of every object stay as they were.
   */
  ghost function ChildObserveW(w: World, s: SlotId, newVal: Value, so: bool, t: Option<SubId>): (r: Observed)
    requires WorldOk(w) && s in w.st.slots && Below(w.st.rank, newVal, w.st.rank[w.st.slots[s].owner])
    ensures WorldOk(r.w) && Kept(w, r.w) && (r.ob.Some? ==> r.ob.value in r.w.st.observers)
    ensures r.ob == if w.st.slots[s].shallow then None else ObOf(r.w.st, newVal)
    ensures s in r.w.st.slots && r.w.st.slots[s] == w.st.slots[s]
    ensures forall y :: y in w.st.objs ==> y in r.w.st.objs && r.w.st.objs[y].internal == w.st.objs[y].internal
  {
    SlotOkOf(w.st.observers, w.st.rank, w.st.slots, s);
    if w.st.slots[s].shallow then Observed(w, None)
    else
      ObserveFated(w, newVal, false, so, t);
      InternalsKept(w.st, ObserveW(w, newVal, false, so, t).w.st, so, Reach(w.st.rank, newVal));
      ObserveW(w, newVal, false, so, t)
  }

  /** Observing keeps every object's internal fields. */
  lemma InternalsKept(a: Store, b: Store, so: bool, r: int)
    requires Fates(a, b, so, r)
    ensures forall y :: y in a.objs ==> y in b.objs && b.objs[y].internal == a.objs[y].internal
  {
    forall y | y in a.objs ensures y in b.objs && b.objs[y].internal == a.objs[y].internal {
      assert ObjFate(a, b, y, so, r);
    }
  }

  /**
   * The plain assignment `target[key] = val` that `set` makes: a data property
   * takes the value, an accessor's setter is called, a new key becomes an
   * enumerable, configurable data property. Assigning to a getter-only
   * accessor or adding to a non-extensible object changes nothing, and so does
   * a `__proto__` that is not an own property: the assignment runs the setter
   * inherited from `Object.prototype`, which changes the prototype (not part of
   * this model) and no own property.
   */
  ghost function AssignW(w: World, x: ObjId, key: Key, v: Value, so: bool, t: Option<SubId>): (r: World)
    requires WorldOk(w) && x in w.st.objs && Below(w.st.rank, v, w.st.rank[x])
    ensures WorldOk(r) && Wrote(w, r)
  {
    var o := w.st.objs[x];
    ObjOkOf(w.st.objs, w.st.rank, x);
    if key in o.props then
      var p := o.props[key];
      if p.Data? then DefineDataW(w, x, key, v, p.enumerable, p.configurable)
      else if p.setFn.Some? then
        AccessorOwned(w.st.objs, w.st.slots, x, key);
        FnSetW(w, p.setFn.value, x, v, so, t)
      else w
    else if key != ProtoKey && o.extensible then DefineDataW(w, x, key, v, true, true)
    else w
  }

  /** The branch of the assignment taken, with the function it reduces to. */
  lemma AssignWCases(w: World, x: ObjId, key: Key, v: Value, so: bool, t: Option<SubId>)
    requires WorldOk(w) && x in w.st.objs && Below(w.st.rank, v, w.st.rank[x])
    ensures var o := w.st.objs[x];
      AssignW(w, x, key, v, so, t)
      == if key !in o.props then (if key != ProtoKey && o.extensible then DefineDataW(w, x, key, v, true, true) else w)
         else if o.props[key].Data? then DefineDataW(w, x, key, v, o.props[key].enumerable, o.props[key].configurable)
         else if o.props[key].setFn.Some? then FnSetW(w, o.props[key].setFn.value, x, v, so, t)
         else w
  {
  }

  /** What a mutator call leaves behind: the world after it and what the call returns. */
  datatype Mutated = Mutated(w: World, result: NativeResult)

  /** Every element the native call leaves in the array was there before or is one of the arguments. */
  lemma ApplyElemsFrom(m: Mutator, s: seq<Value>, args: seq<Value>, lt: (Value, Value) -> bool, e: Value)
    requires e in Apply(m, s, args, lt).elems
    ensures e in s || e in args
  {
    var o := Apply(m, s, args, lt);
    InsertedAreTheNewElements(m, s, args, lt);
    assert e in multiset(o.elems);
    assert e in multiset(s) + multiset(Inserted(m, args));
    if e !in s {
      assert e in Inserted(m, args);
      if m == Splice && |args| > 2 {
        assert e in args[2..];
      }
    }
  }

  /**
   * `arr.m(...args)` on array `x`: the native method runs on the elements;
   * when the array has the interceptor, the inserted arguments are then
   * observed and the array's Observer notifies once. The call returns what the
   * native method returns.
   */
  ghost function MutateW(w: World, x: ObjId, m: Mutator, args: seq<Value>, lt: (Value, Value) -> bool, so: bool,
                         t: Option<SubId>): (r: Mutated)
    requires WorldOk(w) && x in w.st.objs && x in w.st.rank && w.st.objs[x].kind.ArrayKind?
    requires forall i :: 0 <= i < |args| ==> Below(w.st.rank, args[i], w.st.rank[x])
    ensures WorldOk(r.w) && Wrote(w, r.w)
  {
    var o := w.st.objs[x];
    ObjOkOf(w.st.objs, w.st.rank, x);
    var out := Apply(m, o.elems, args, lt);
    ElemsBelow(w.st, x, m, args, lt);
    var w1 := ReplaceW(w, x, out.elems);
    if Lookup(o.patched, NameOf(m)).Intercepted? then
      var ins := Inserted(m, args);
      InsertedBelow(w1.st.rank, m, args, w.st.rank[x]);
      var w2 := ObserveArrayW(w1, ins, |ins|, w.st.rank[x], so, t);
      KeptWrote(w1, w2);
      WroteTrans(w, w1, w2);
      var b := o.ob.value;
      Mutated(NotifyW(w2, w2.st.observers[b].dep), out.result)
    else Mutated(w1, out.result)
  }

  lemma ElemsBelow(st: Store, x: ObjId, m: Mutator, args: seq<Value>, lt: (Value, Value) -> bool)
    requires x in st.rank && x in st.objs && ObjOk(st.rank, x, st.objs[x])
    requires forall i :: 0 <= i < |args| ==> Below(st.rank, args[i], st.rank[x])
    ensures var es := Apply(m, st.objs[x].elems, args, lt).elems;
      forall i :: 0 <= i < |es| ==> Below(st.rank, es[i], st.rank[x])
  {
    var s := st.objs[x].elems;
    var es := Apply(m, s, args, lt).elems;
    forall i | 0 <= i < |es| ensures Below(st.rank, es[i], st.rank[x]) {
      ApplyElemsFrom(m, s, args, lt, es[i]);
    }
  }

  lemma InsertedBelow(rank: map<ObjId, nat>, m: Mutator, args: seq<Value>, n: nat)
    requires forall i :: 0 <= i < |args| ==> Below(rank, args[i], n)
    ensures var ins := Inserted(m, args); forall i :: 0 <= i < |ins| ==> Below(rank, ins[i], n)
  {
    var ins := Inserted(m, args);
    forall i | 0 <= i < |ins| ensures Below(rank, ins[i], n) {
      if m == Splice {
        assert ins[i] == args[i + 2];
      }
    }
  }

  /** The keys `set` and `del` are modelled for: not the `__ob__` marker, and on an array not `length` or an inherited method name. */
  predicate Addressable(o: Obj, key: Key) {
    key != "__ob__" && (o.kind.ArrayKind? ==> IsValidArrayIndex(key) || (key != "length" && key !in ArrayPrototypeKeys))
  }

  /** The names `Array.prototype` defines beyond those of `Object.prototype`. */
  const ArrayPrototypeKeys: set<Key> := {
    "length", "at", "concat", "copyWithin", "entries", "every", "fill", "filter", "find", "findIndex", "findLast",
    "findLastIndex", "flat", "flatMap", "forEach", "includes", "indexOf", "join", "keys", "lastIndexOf", "map", "pop",
    "push", "reduce", "reduceRight", "reverse", "shift", "slice", "some", "sort", "splice", "unshift", "values"
  }

  /** `splice` consults no comparator; any will do. */
  function NoOrder(a: Value, b: Value): bool {
    false
  }

  /** The Observer `set` and `del` find on `x` refuses the change: `target._isVue || (ob && ob.vmCount)`. */
  ghost predicate Refuses(st: Store, x: ObjId)
    requires x in st.objs
  {
    st.objs[x].isVue || (st.objs[x].ob.Some? && st.objs[x].ob.value in st.observers && st.observers[st.objs[x].ob.value].vmCount > 0)
  }

  /**
   * `set(target, key, val)`: an array index is written by growing the array
   * and splicing `val` in; an existing key (not one of `Object.prototype`) is
   * assigned; a Vue instance or root data is left alone; without an Observer
   * the key is assigned; otherwise it becomes reactive and the Observer notifies.
   */
  ghost function SetW(w: World, x: ObjId, key: Key, v: Value, so: bool, t: Option<SubId>): (r: World)
    requires WorldOk(w) && x in w.st.objs && Addressable(w.st.objs[x], key)
    requires Below(w.st.rank, v, w.st.rank[x])
    ensures WorldOk(r) && Wrote(w, r)
  {
    var o := w.st.objs[x];
    ObjOkOf(w.st.objs, w.st.rank, x);
    if o.kind.ArrayKind? && IsValidArrayIndex(key) then SetIndexW(w, x, key, v, so, t)
    else if key in o.props && key !in ObjectPrototypeKeys then AssignW(w, x, key, v, so, t)
    else if Refuses(w.st, x) then w
    else if o.ob.None? then AssignW(w, x, key, v, so, t)
    else SetNewW(w, x, key, v, so, t)
  }

  /** The branch of `set` taken, with the function it reduces to. */
  lemma SetWCases(w: World, x: ObjId, key: Key, v: Value, so: bool, t: Option<SubId>)
    requires WorldOk(w) && x in w.st.objs && Addressable(w.st.objs[x], key)
    requires Below(w.st.rank, v, w.st.rank[x])
    ensures var o := w.st.objs[x];
      SetW(w, x, key, v, so, t)
      == if o.kind.ArrayKind? && IsValidArrayIndex(key) then SetIndexW(w, x, key, v, so, t)
         else if key in o.props && key !in ObjectPrototypeKeys then AssignW(w, x, key, v, so, t)
         else if Refuses(w.st, x) then w
         else if o.ob.None? then AssignW(w, x, key, v, so, t)
         else SetNewW(w, x, key, v, so, t)
  {
  }

  /** `set` on an array index: `target.length = Math.max(target.length, key)`, then `target.splice(key, 1, val)`. */
  ghost function SetIndexW(w: World, x: ObjId, key: Key, v: Value, so: bool, t: Option<SubId>): (r: World)
    requires WorldOk(w) && x in w.st.objs && w.st.objs[x].kind.ArrayKind? && IsValidArrayIndex(key)
    requires Below(w.st.rank, v, w.st.rank[x])
    ensures WorldOk(r) && Wrote(w, r)
  {
    var o := w.st.objs[x];
    ObjOkOf(w.st.objs, w.st.rank, x);
    PaddedBelow(w.st, x, IndexValue(key));
    var w1 := ReplaceW(w, x, Padded(o.elems, IndexValue(key)));
    var r := MutateW(w1, x, Splice, [Str(key), Num(1), v], NoOrder, so, t).w;
    WroteTrans(w, w1, r);
    r
  }

  /** The `splice(key, 1, val)` of `set` inserts exactly `val`. */
  lemma IndexSpliceInserts(key: Key, v: Value)
    ensures Inserted(Splice, [Str(key), Num(1), v]) == [v]
  {
    assert [Str(key), Num(1), v][2..] == [v];
  }

  lemma PaddedBelow(st: Store, x: ObjId, n: nat)
    requires x in st.rank && x in st.objs && ObjOk(st.rank, x, st.objs[x])
    ensures var es := Padded(st.objs[x].elems, n); forall i :: 0 <= i < |es| ==> Below(st.rank, es[i], st.rank[x])
  {
  }

  /** `set` of a new key on an observed object: `defineReactive(ob.value, key, val)`, then `ob.dep.notify()`. */
  ghost function SetNewW(w: World, x: ObjId, key: Key, v: Value, so: bool, t: Option<SubId>): (r: World)
    requires WorldOk(w) && x in w.st.objs && w.st.objs[x].ob.Some? && Below(w.st.rank, v, w.st.rank[x])
    ensures WorldOk(r) && Wrote(w, r)
  {
    var b := w.st.objs[x].ob.value;
    var y := w.st.observers[b].value;
    assert y == x;
    var w1 := DefineReactiveW(w, y, key, Some(v), false, so, t);
    KeptWrote(w, w1);
    NotifyW(w1, w1.st.observers[b].dep)
  }

  /**
   * `del(target, key)`: an array index is spliced out; a Vue instance or root
   * data is left alone, and so is a key that is not an own property;
   * otherwise the property is deleted and the Observer, if any, notifies.
   * Deleting a non-configurable property changes nothing.
   */
  ghost function DelW(w: World, x: ObjId, key: Key, so: bool, t: Option<SubId>): (r: World)
    requires WorldOk(w) && x in w.st.objs && Addressable(w.st.objs[x], key)
    ensures WorldOk(r) && Wrote(w, r)
  {
    var o := w.st.objs[x];
    ObjOkOf(w.st.objs, w.st.rank, x);
    if o.kind.ArrayKind? && IsValidArrayIndex(key) then MutateW(w, x, Splice, [Str(key), Num(1)], NoOrder, so, t).w
    else if Refuses(w.st, x) then w
    else if key !in o.props then w
    else if !o.props[key].configurable then w
    else
      var w1 := DeleteW(w, x, key);
      if o.ob.None? then w1 else NotifyW(w1, w1.st.observers[o.ob.value].dep)
  }
}
