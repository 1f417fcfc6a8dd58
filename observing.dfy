/**
 * What `observe`, the Observer constructor, `walk`, `observeArray` and
 * `defineReactive` do, as functions from the world before a call to the world
 * after it. The runtime's methods are proved to compute exactly these.
 */
module Observing {
  import opened Wrappers
  import opened Values
  import opened Heap
  import opened Steps
  import opened Growth

  /**
   * The heap, the next ids handed out, every dep's subscribers, and the
   * `dep.notify()` calls made so far, in order.
   */
  datatype World = World(st: Store, ids: Ids, subs: map<DepId, set<SubId>>, log: seq<DepId>)

  /** What `observe` leaves behind: the world after it and the Observer it returns. */
  datatype Observed = Observed(w: World, ob: Option<ObsId>)

  ghost predicate WorldOk(w: World) {
    RuntimeOk(w.st, w.ids)
  }

  /**
   * What every step of observing keeps: the objects and their ranks, the
   * Observers and slots there are, and the notification log; ids only grow.
   */
  ghost predicate Kept(a: World, b: World) {
    && b.st.rank == a.st.rank && b.st.objs.Keys == a.st.objs.Keys && IdsGrow(a.ids, b.ids)
    && a.st.observers.Keys <= b.st.observers.Keys && SlotsKept(a.st, b.st) && b.log == a.log
  }

  lemma KeptTrans(a: World, b: World, c: World)
    requires Kept(a, b) && Kept(b, c)
    ensures Kept(a, c)
  {
  }

  /** `new Dep()`. */
  function NewDepW(w: World): (r: World)
    requires WorldOk(w)
    ensures WorldOk(r) && Kept(w, r)
  {
    NewDepValid(w.st, w.ids);
    w.(ids := w.ids.(dep := w.ids.dep + 1))
  }

  /** The constructor's `def(value, '__ob__', this)`, with a fresh Observer id and a fresh dep. */
  function AttachW(w: World, x: ObjId): (r: World)
    requires WorldOk(w) && x in w.st.objs && w.st.objs[x].ob.None? && w.st.objs[x].extensible && !w.st.objs[x].isVNode
    ensures WorldOk(r) && Kept(w, r)
    ensures r.st.objs[x].ob == Some(w.ids.obs) && w.ids.obs in r.st.observers
  {
    var b := w.ids.obs;
    var st' := Store(Attached(w.st.objs, x, b), w.st.observers[b := ObserverRec(x, w.ids.dep, 0)], w.st.slots, w.st.rank);
    var n' := Ids(w.ids.obj, b + 1, w.ids.dep + 1, w.ids.slot);
    AttachValid(w.st, w.ids, x, st', n');
    World(st', n', w.subs, w.log)
  }

  /** `protoAugment(value, arrayMethods)`: the array now finds the intercepting mutators. */
  function PatchW(w: World, x: ObjId): (r: World)
    requires WorldOk(w) && x in w.st.objs && w.st.objs[x].ob.Some? && w.st.objs[x].kind.ArrayKind?
    ensures WorldOk(r) && Kept(w, r)
  {
    PatchValid(w.st, w.ids, x);
    w.(st := w.st.(objs := Patched(w.st.objs, x)))
  }

  /** `ob.vmCount++`. */
  function CountW(w: World, b: ObsId): (r: World)
    requires WorldOk(w) && b in w.st.observers
    ensures WorldOk(r) && Kept(w, r)
  {
    CountValid(w.st, w.ids, b);
    w.(st := w.st.(observers := Counted(w.st.observers, b)))
  }

  /** A fresh slot for the closure `defineReactive` creates, installed as the getter and setter of `k`. */
  function InstallW(w: World, x: ObjId, k: Key, sl: Slot): (r: World)
    requires WorldOk(w) && x in w.st.objs && sl.owner == x && SlotOk(w.st.observers, w.st.rank, sl) && sl.dep < w.ids.dep
    requires FnOwned(w.st.slots, sl.getter, x) && FnOwned(w.st.slots, sl.setter, x)
    ensures WorldOk(r) && Kept(w, r)
  {
    var s := w.ids.slot;
    AddSlotValid(w.st, w.ids, sl);
    var st1 := Store(w.st.objs, w.st.observers, w.st.slots[s := sl], w.st.rank);
    var n1 := w.ids.(slot := s + 1);
    DefineOwnValid(st1, n1, x, k, ReactiveProp(s));
    World(Store(Defined(w.st.objs, x, k, ReactiveProp(s)), w.st.observers, st1.slots, w.st.rank), n1, w.subs, w.log)
  }

  /** What `InstallW` changes: one fresh slot and the one property. */
  lemma InstallWShape(w: World, x: ObjId, k: Key, sl: Slot)
    requires WorldOk(w) && x in w.st.objs && sl.owner == x && SlotOk(w.st.observers, w.st.rank, sl) && sl.dep < w.ids.dep
    requires FnOwned(w.st.slots, sl.getter, x) && FnOwned(w.st.slots, sl.setter, x)
    ensures var r := InstallW(w, x, k, sl);
      && w.ids.slot !in w.st.slots && r.ids.slot == w.ids.slot + 1 && r.log == w.log
      && r.st.slots == w.st.slots[w.ids.slot := sl] && r.st.objs == Defined(w.st.objs, x, k, ReactiveProp(w.ids.slot))
  {
  }

  /** The getter and setter `defineReactive` captures belong to slots of the object. */
  lemma CapturedOwned(a: World, b: World, x: ObjId, k: Key)
    requires WorldOk(a) && x in a.st.objs && Kept(a, b)
    ensures FnOwned(b.st.slots, GetterIn(OwnProp(a.st.objs[x], k)), x)
    ensures FnOwned(b.st.slots, SetterIn(OwnProp(a.st.objs[x], k)), x)
  {
    if k in a.st.objs[x].props {
      AccessorOwned(a.st.objs, a.st.slots, x, k);
    }
  }

  /**
   * `observe(value, asRootData)`: no Observer for a primitive or a VNode; the
   * one already attached; a new one for an object that passes the gate; none
   * otherwise. A root data object's Observer counts one more Vue instance.
   */
  ghost function ObserveW(w: World, v: Value, asRoot: bool, so: bool, t: Option<SubId>): (r: Observed)
    requires WorldOk(w) && (v.Ref? ==> v.id in w.st.objs)
    ensures WorldOk(r.w) && Kept(w, r.w)
    ensures r.ob.Some? ==> r.ob.value in r.w.st.observers
    decreases Reach(w.st.rank, v), 3
  {
    if !v.Ref? || w.st.objs[v.id].isVNode then Observed(w, None)
    else if w.st.objs[v.id].ob.Some? then
      var b := w.st.objs[v.id].ob.value;
      if asRoot then Observed(CountW(w, b), Some(b)) else Observed(w, Some(b))
    else if Eligible(w.st.objs[v.id], so) then
      var w1 := NewObserverW(w, v.id, so, t);
      var b := w.ids.obs;
      if asRoot then Observed(CountW(w1, b), Some(b)) else Observed(w1, Some(b))
    else Observed(w, None)
  }

  /**
   * `new Observer(value)`: attach a fresh Observer; install the interceptor on
   * an array and observe its elements, walk a plain object.
   */
  ghost function NewObserverW(w: World, x: ObjId, so: bool, t: Option<SubId>): (r: World)
    requires WorldOk(w) && x in w.st.objs && w.st.objs[x].ob.None? && Eligible(w.st.objs[x], so)
    requires !w.st.objs[x].isVNode
    ensures WorldOk(r) && Kept(w, r)
    ensures w.ids.obs in r.st.observers
    decreases Reach(w.st.rank, Ref(x)), 2
  {
    ObjOkOf(w.st.objs, w.st.rank, x);
    assert w.st.rank[x] < Reach(w.st.rank, Ref(x));
    var w1 := AttachW(w, x);
    ObjOkOf(w1.st.objs, w1.st.rank, x);
    if w.st.objs[x].kind.ArrayKind? then
      var w2 := PatchW(w1, x);
      ObjOkOf(w2.st.objs, w2.st.rank, x);
      var items := w2.st.objs[x].elems;
      var r := ObserveArrayW(w2, items, |items|, w.st.rank[x], so, t);
      KeptTrans(w, w1, w2);
      KeptTrans(w, w2, r);
      r
    else
      var keys := EnumerableKeys(w1.st.objs[x].keys, w1.st.objs[x].props);
      var r := WalkW(w1, x, keys, |keys|, so, t);
      KeptTrans(w, w1, r);
      r
  }

  /** `walk(obj)` after its first `i` keys: `defineReactive(obj, keys[j])` for each `j < i`, in order. */
  ghost function WalkW(w: World, x: ObjId, keys: seq<Key>, i: nat, so: bool, t: Option<SubId>): (r: World)
    requires WorldOk(w) && x in w.st.objs && x in w.st.rank && i <= |keys|
    ensures WorldOk(r) && Kept(w, r)
    decreases Reach(w.st.rank, Ref(x)), 1, i
  {
    if i == 0 then w
    else
      var w1 := WalkW(w, x, keys, i - 1, so, t);
      var r := DefineReactiveW(w1, x, keys[i - 1], None, false, so, t);
      KeptTrans(w, w1, r);
      r
  }

  /** One more round of `walk`'s loop. */
  lemma WalkWNext(w: World, x: ObjId, keys: seq<Key>, i: nat, so: bool, t: Option<SubId>)
    requires WorldOk(w) && x in w.st.objs && x in w.st.rank && i < |keys|
    ensures var a := WalkW(w, x, keys, i, so, t);
      && WorldOk(a) && x in a.st.objs && x in a.st.rank
      && WalkW(w, x, keys, i + 1, so, t) == DefineReactiveW(a, x, keys[i], None, false, so, t)
  {
  }

  /** `observeArray(items)` after its first `i` items: `observe(items[j])` for each `j < i`, in order. */
  ghost function ObserveArrayW(w: World, items: seq<Value>, i: nat, n: nat, so: bool, t: Option<SubId>): (r: World)
    requires WorldOk(w) && i <= |items| && forall j :: 0 <= j < |items| ==> Below(w.st.rank, items[j], n)
    ensures WorldOk(r) && Kept(w, r)
    decreases n, 4, i
  {
    if i == 0 then w
    else
      var w1 := ObserveArrayW(w, items, i - 1, n, so, t);
      assert Below(w1.st.rank, items[i - 1], n);
      var r := ObserveW(w1, items[i - 1], false, so, t).w;
      KeptTrans(w, w1, r);
      r
  }

  /** One more round of `observeArray`'s loop. */
  lemma ObserveArrayWNext(w: World, items: seq<Value>, i: nat, n: nat, so: bool, t: Option<SubId>)
    requires WorldOk(w) && i < |items| && forall j :: 0 <= j < |items| ==> Below(w.st.rank, items[j], n)
    ensures var a := ObserveArrayW(w, items, i, n, so, t);
      && WorldOk(a) && (items[i].Ref? ==> items[i].id in a.st.objs)
      && ObserveArrayW(w, items, i + 1, n, so, t) == ObserveW(a, items[i], false, so, t).w
  {
    assert Below(w.st.rank, items[i], n);
  }

  /**
   * `defineReactive(obj, key, val, customSetter, shallow)`: a fresh dep; a
   * non-configurable property is left alone; otherwise the value is `val`
   * when given, else `obj[key]` read through the property unless it is
   * getter-only, and the property is bound to it. On a new key of a
   * non-extensible object `Object.defineProperty` throws; the install is
   * skipped and what came before it stays.
   */
  ghost function DefineReactiveW(w: World, x: ObjId, k: Key, given: Option<Value>, shallow: bool, so: bool,
                                 t: Option<SubId>): (r: World)
    requires WorldOk(w) && x in w.st.objs && x in w.st.rank
    requires given.Some? ==> Below(w.st.rank, given.value, w.st.rank[x])
    ensures WorldOk(r) && Kept(w, r)
    decreases Reach(w.st.rank, Ref(x)), 0, 1
  {
    if NonConfigurable(w.st.objs[x], k) then NewDepW(w)
    else
      var w2 := BindWorld(w, x, k, given, t);
      CapturedOwned(w, w2, x, k);
      var r := BindW(w2, x, k, OwnProp(w.st.objs[x], k), BindValue(w.st, x, k, given), shallow, w.ids.dep, so, t);
      KeptTrans(w, w2, r);
      r
  }

  /** `defineReactive` on a configurable or absent property is the binding over the fresh dep and the value it reads. */
  lemma DefineReactiveWBinds(w: World, x: ObjId, k: Key, given: Option<Value>, shallow: bool, so: bool, t: Option<SubId>)
    requires WorldOk(w) && x in w.st.objs && x in w.st.rank
    requires given.Some? ==> Below(w.st.rank, given.value, w.st.rank[x])
    requires !NonConfigurable(w.st.objs[x], k)
    ensures var w2 := BindWorld(w, x, k, given, t);
      FnOwned(w2.st.slots, GetterIn(OwnProp(w.st.objs[x], k)), x) && FnOwned(w2.st.slots, SetterIn(OwnProp(w.st.objs[x], k)), x)
    ensures DefineReactiveW(w, x, k, given, shallow, so, t)
        == BindW(BindWorld(w, x, k, given, t), x, k, OwnProp(w.st.objs[x], k), BindValue(w.st, x, k, given), shallow, w.ids.dep, so, t)
  {
    CapturedOwned(w, BindWorld(w, x, k, given, t), x, k);
  }

  /** The binding when not shallow: the value is observed first, and its Observer goes into the slot. */
  lemma BindWDeep(w: World, x: ObjId, k: Key, p: Option<Prop>, val: Value, dep: DepId, so: bool, t: Option<SubId>)
    requires WorldOk(w) && x in w.st.objs && x in w.st.rank && Below(w.st.rank, val, w.st.rank[x]) && dep < w.ids.dep
    requires FnOwned(w.st.slots, GetterIn(p), x) && FnOwned(w.st.slots, SetterIn(p), x)
    ensures var o := ObserveW(w, val, false, so, t);
      && x in o.w.st.objs && dep < o.w.ids.dep && FnOwned(o.w.st.slots, GetterIn(p), x) && FnOwned(o.w.st.slots, SetterIn(p), x)
      && SlotOk(o.w.st.observers, o.w.st.rank, Slot(x, dep, val, o.ob, GetterIn(p), SetterIn(p), false))
    ensures var o := ObserveW(w, val, false, so, t);
      BindW(w, x, k, p, val, false, dep, so, t)
      == if Definable(w.st.objs[x], p) then InstallW(o.w, x, k, Slot(x, dep, val, o.ob, GetterIn(p), SetterIn(p), false)) else o.w
  {
    DeepSlotOk(w, x, p, val, dep, so, t);
  }

  /** After observing the value, the slot that closes over it and its Observer can be installed on `x`. */
  lemma DeepSlotOk(w: World, x: ObjId, p: Option<Prop>, val: Value, dep: DepId, so: bool, t: Option<SubId>)
    requires WorldOk(w) && x in w.st.objs && x in w.st.rank && Below(w.st.rank, val, w.st.rank[x]) && dep < w.ids.dep
    requires FnOwned(w.st.slots, GetterIn(p), x) && FnOwned(w.st.slots, SetterIn(p), x)
    ensures var o := ObserveW(w, val, false, so, t);
      && x in o.w.st.objs && dep < o.w.ids.dep && FnOwned(o.w.st.slots, GetterIn(p), x) && FnOwned(o.w.st.slots, SetterIn(p), x)
      && SlotOk(o.w.st.observers, o.w.st.rank, Slot(x, dep, val, o.ob, GetterIn(p), SetterIn(p), false))
  {
    var o := ObserveW(w, val, false, so, t);
    FnOwnedKept(w, o.w, GetterIn(p), x);
    FnOwnedKept(w, o.w, SetterIn(p), x);
  }

  /** The value `defineReactive` binds: `val` when given, else the property's initial value. */
  ghost function BindValue(st: Store, x: ObjId, k: Key, given: Option<Value>): (v: Value)
    requires HeapOk(st) && x in st.objs && x in st.rank
    requires given.Some? ==> Below(st.rank, given.value, st.rank[x])
    ensures Below(st.rank, v, st.rank[x])
  {
    PropValueBelow(st, x, k);
    if given.Some? then given.value else InitialValue(st, x, k)
  }

  /**
   * The world `defineReactive` binds in: one more dep id, and when it reads
   * the current value through the property, whatever that read tracked.
   */
  ghost function BindWorld(w: World, x: ObjId, k: Key, given: Option<Value>, t: Option<SubId>): (r: World)
    requires WorldOk(w) && x in w.st.objs
    ensures r.st == w.st && r.ids == w.ids.(dep := w.ids.dep + 1) && r.log == w.log
    ensures WorldOk(r) && Kept(w, r)
  {
    var p := OwnProp(w.st.objs[x], k);
    var w1 := NewDepW(w);
    if given.None? && (GetterIn(p).None? || SetterIn(p).Some?) then w1.(subs := Subscribed(w.subs, PropTracked(w.st, x, k), t))
    else w1
  }

  /**
   * The rest of `defineReactive`: observe the value unless shallow, then
   * install a getter/setter pair closing over the dep, the value, the child
   * Observer and the property's own getter and setter. When the key is absent
   * and the object is not extensible, `Object.defineProperty` throws and only
   * the observing has happened.
   */
  ghost function BindW(w: World, x: ObjId, k: Key, p: Option<Prop>, val: Value, shallow: bool, dep: DepId, so: bool,
                       t: Option<SubId>): (r: World)
    requires WorldOk(w) && x in w.st.objs && x in w.st.rank && Below(w.st.rank, val, w.st.rank[x]) && dep < w.ids.dep
    requires FnOwned(w.st.slots, GetterIn(p), x) && FnOwned(w.st.slots, SetterIn(p), x)
    ensures WorldOk(r) && Kept(w, r)
    decreases Reach(w.st.rank, Ref(x)), 0, 0
  {
    var o := if shallow then Observed(w, None) else ObserveW(w, val, false, so, t);
    if Definable(w.st.objs[x], p) then
      FnOwnedKept(w, o.w, GetterIn(p), x);
      FnOwnedKept(w, o.w, SetterIn(p), x);
      var r := InstallW(o.w, x, k, Slot(x, dep, val, o.ob, GetterIn(p), SetterIn(p), shallow));
      KeptTrans(w, o.w, r);
      r
    else o.w
  }

  lemma FnOwnedKept(a: World, b: World, f: Option<Fn>, x: ObjId)
    requires FnOwned(a.st.slots, f, x) && Kept(a, b)
    ensures FnOwned(b.st.slots, f, x)
  {
  }
}
