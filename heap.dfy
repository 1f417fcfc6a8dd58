/**
 * The state the observer works on, written out explicitly: heap objects with
 * their own properties and hidden `__ob__` marker, Observer records, the
 * closures that `defineReactive` creates (one "slot" per intercepted property)
 * and a rank that orders the heap. The functions here read that state without
 * changing it; `Observer.Runtime` changes it.
 */
module Heap {
  import opened Wrappers
  import opened Values

  type ObsId = nat
  type DepId = nat
  type SlotId = nat
  type SubId = nat
  type Key = string

  /** `Array.isArray`, `isPlainObject` (`[object Object]`), or any other object (Date, function, ...). */
  datatype Kind = ArrayKind | PlainKind | OtherKind

  /**
   * A getter or setter function found in a property descriptor: one written by
   * the program, which reads or writes an internal field of the object it is
   * called on, or a reactive getter/setter pair that `defineReactive` created.
   */
  datatype Fn = UserFn(field: Key) | ReactiveFn(slot: SlotId)

  /** An own property descriptor. */
  datatype Prop =
    | Data(value: Value, enumerable: bool, configurable: bool)
    | Accessor(getFn: Option<Fn>, setFn: Option<Fn>, enumerable: bool, configurable: bool)

  /**
   * A heap object: its kind, its array elements, its own properties with their
   * insertion order `keys`, the internal fields its user-written accessors use,
   * the Observer its `__ob__` marker names, whether the array interceptor is
   * installed, and the flags `observe` tests.
   */
  datatype Obj = Obj(
    kind: Kind,
    elems: seq<Value>,
    props: map<Key, Prop>,
    keys: seq<Key>,
    internal: map<Key, Value>,
    ob: Option<ObsId>,
    patched: bool,
    extensible: bool,
    isVue: bool,
    isVNode: bool)

  /** An Observer: the value it is attached to, its own dep and its root-data count. */
  datatype ObserverRec = ObserverRec(value: ObjId, dep: DepId, vmCount: nat)

  /**
   * The closure state of one `defineReactive` call: the object, the property's
   * dep, the value slot `val`, the child Observer `childOb`, the captured
   * getter and setter, and the `shallow` flag.
   */
  datatype Slot = Slot(
    owner: ObjId,
    dep: DepId,
    val: Value,
    childOb: Option<ObsId>,
    getter: Option<Fn>,
    setter: Option<Fn>,
    shallow: bool)

  /**
   * Objects, Observers and slots, with the rank that makes the object graph
   * acyclic: everything an object holds ranks below it.
   */
  datatype Store = Store(
    objs: map<ObjId, Obj>,
    observers: map<ObsId, ObserverRec>,
    slots: map<SlotId, Slot>,
    rank: map<ObjId, nat>)

  /** The descriptor `defineReactive` installs: enumerable, configurable, with its reactive getter and setter. */
  function ReactiveProp(s: SlotId): Prop {
    Accessor(Some(ReactiveFn(s)), Some(ReactiveFn(s)), true, true)
  }

  function GetterOf(p: Prop): Option<Fn> {
    if p.Accessor? then p.getFn else None
  }

  function SetterOf(p: Prop): Option<Fn> {
    if p.Accessor? then p.setFn else None
  }

  /** The names `Object.prototype` defines; `key in Object.prototype` holds exactly for these. */
  const ObjectPrototypeKeys: set<Key> := {
    "constructor", "hasOwnProperty", "isPrototypeOf", "propertyIsEnumerable", "toLocaleString",
    "toString", "valueOf", "__proto__", "__defineGetter__", "__defineSetter__",
    "__lookupGetter__", "__lookupSetter__"
  }

  /** The one accessor `Object.prototype` defines: assigning it sets the prototype. */
  const ProtoKey: Key := "__proto__"

  /** The value is not a reference, or refers to an object ranked below `r`. */
  ghost predicate Below(rank: map<ObjId, nat>, v: Value, r: nat) {
    v.Ref? ==> v.id in rank && rank[v.id] < r
  }

  ghost predicate NoDuplicates(keys: seq<Key>) {
    forall i, j :: 0 <= i < j < |keys| ==> keys[i] != keys[j]
  }

  /**
   * The local shape of object `x`: only observed arrays are patched, its key
   * order lists its properties once each, and every value it holds ranks below it.
   */
  ghost predicate ObjOk(rank: map<ObjId, nat>, x: ObjId, o: Obj)
    requires x in rank
  {
    && (o.patched ==> o.ob.Some? && o.kind.ArrayKind?)
    && (forall k :: k in o.props <==> k in o.keys)
    && NoDuplicates(o.keys)
    && (forall i :: 0 <= i < |o.elems| ==> Below(rank, o.elems[i], rank[x]))
    && (forall k :: k in o.props && o.props[k].Data? ==> Below(rank, o.props[k].value, rank[x]))
    && (forall f :: f in o.internal ==> Below(rank, o.internal[f], rank[x]))
  }

  /** A reactive accessor function found on object `x` belongs to a slot of `x`. */
  predicate FnOwned(slots: map<SlotId, Slot>, f: Option<Fn>, x: ObjId) {
    f.Some? && f.value.ReactiveFn? ==> f.value.slot in slots && slots[f.value.slot].owner == x
  }

  /** A reactive getter or setter captured by slot `s` belongs to an older slot of the same object. */
  predicate Link(slots: map<SlotId, Slot>, s: SlotId, f: Option<Fn>)
    requires s in slots
  {
    FnOwned(slots, f, slots[s].owner) && (f.Some? && f.value.ReactiveFn? ==> f.value.slot < s)
  }

  /** Every slot's captured accessors are older slots, so a chain of captured reactive getters ends. */
  predicate Chained(slots: map<SlotId, Slot>) {
    forall s :: s in slots ==> Link(slots, s, slots[s].getter) && Link(slots, s, slots[s].setter)
  }

  /** A slot's object exists, its value ranks below that object, and its child Observer exists. */
  ghost predicate SlotOk(observers: map<ObsId, ObserverRec>, rank: map<ObjId, nat>, sl: Slot) {
    && sl.owner in rank
    && Below(rank, sl.val, rank[sl.owner])
    && (sl.childOb.Some? ==> sl.childOb.value in observers)
  }

  /** Exactly the objects are ranked. */
  ghost predicate Ranked(objs: map<ObjId, Obj>, rank: map<ObjId, nat>) {
    forall x :: x in objs <==> x in rank
  }

  ghost predicate ObjsOk(objs: map<ObjId, Obj>, rank: map<ObjId, nat>) {
    forall x {:trigger ObjOk(rank, x, objs[x])} :: x in objs && x in rank ==> ObjOk(rank, x, objs[x])
  }

  /** Each `__ob__` marker names an Observer of that object, and each Observer is named by its object's marker. */
  ghost predicate MarkersLinked(objs: map<ObjId, Obj>, observers: map<ObsId, ObserverRec>) {
    && (forall x :: x in objs && objs[x].ob.Some? ==>
          objs[x].ob.value in observers && observers[objs[x].ob.value].value == x)
    && (forall b :: b in observers ==> observers[b].value in objs && objs[observers[b].value].ob == Some(b))
  }

  /** Every reactive accessor on an object belongs to a slot of that object. */
  ghost predicate AccessorsOwned(objs: map<ObjId, Obj>, slots: map<SlotId, Slot>) {
    forall x, k :: x in objs && k in objs[x].props ==>
      FnOwned(slots, GetterOf(objs[x].props[k]), x) && FnOwned(slots, SetterOf(objs[x].props[k]), x)
  }

  ghost predicate SlotsOk(observers: map<ObsId, ObserverRec>, rank: map<ObjId, nat>, slots: map<SlotId, Slot>) {
    forall s :: s in slots ==> SlotOk(observers, rank, slots[s])
  }

  /** The heap invariant: objects, Observers and slots are well formed and refer to one another consistently. */
  ghost predicate HeapOk(st: Store) {
    && Ranked(st.objs, st.rank)
    && ObjsOk(st.objs, st.rank)
    && MarkersLinked(st.objs, st.observers)
    && AccessorsOwned(st.objs, st.slots)
    && Chained(st.slots)
    && SlotsOk(st.observers, st.rank, st.slots)
  }

  /** At most one Observer is attached to an object. */
  lemma ObserverUnique(st: Store, b1: ObsId, b2: ObsId)
    requires HeapOk(st)
    requires b1 in st.observers && b2 in st.observers && st.observers[b1].value == st.observers[b2].value
    ensures b1 == b2
  {
  }

  /** Ranks of existing objects are kept by `rank'`. */
  ghost predicate RankExtends(rank: map<ObjId, nat>, rank': map<ObjId, nat>) {
    forall z :: z in rank ==> z in rank' && rank'[z] == rank[z]
  }

  // Each conjunct of the heap invariant under each kind of update, proved on
  // the maps it reads alone.

  lemma RankedUpdate(objs: map<ObjId, Obj>, rank: map<ObjId, nat>, x: ObjId, o': Obj)
    requires Ranked(objs, rank) && x in objs
    ensures Ranked(objs[x := o'], rank)
  {
  }

  lemma RankedAdd(objs: map<ObjId, Obj>, rank: map<ObjId, nat>, x: ObjId, o: Obj, r: nat)
    requires Ranked(objs, rank)
    ensures Ranked(objs[x := o], rank[x := r])
  {
  }

  lemma RankExtendsAdd(rank: map<ObjId, nat>, x: ObjId, r: nat)
    requires x !in rank
    ensures RankExtends(rank, rank[x := r])
  {
  }

  lemma ObjsUpdate(objs: map<ObjId, Obj>, rank: map<ObjId, nat>, x: ObjId, o': Obj)
    requires ObjsOk(objs, rank) && x in rank && ObjOk(rank, x, o')
    ensures ObjsOk(objs[x := o'], rank)
  {
  }

  lemma ObjsRankGrow(objs: map<ObjId, Obj>, rank: map<ObjId, nat>, rank': map<ObjId, nat>)
    requires ObjsOk(objs, rank) && Ranked(objs, rank) && RankExtends(rank, rank')
    ensures ObjsOk(objs, rank')
  {
    forall y | y in objs && y in rank' ensures ObjOk(rank', y, objs[y]) {
      assert ObjOk(rank, y, objs[y]);
    }
  }

  /** Setting the marker or the interceptor flag keeps an object's local shape, given the interceptor condition. */
  lemma ObjOkFlags(rank: map<ObjId, nat>, x: ObjId, o: Obj, ob: Option<ObsId>, patched: bool)
    requires x in rank && ObjOk(rank, x, o)
    requires patched ==> ob.Some? && o.kind.ArrayKind?
    ensures ObjOk(rank, x, o.(ob := ob, patched := patched))
  {
  }

  lemma MarkersUpdate(objs: map<ObjId, Obj>, observers: map<ObsId, ObserverRec>, x: ObjId, o': Obj)
    requires MarkersLinked(objs, observers) && x in objs && o'.ob == objs[x].ob
    ensures MarkersLinked(objs[x := o'], observers)
  {
  }

  lemma MarkersAdd(objs: map<ObjId, Obj>, observers: map<ObsId, ObserverRec>, x: ObjId, o: Obj)
    requires MarkersLinked(objs, observers) && x !in objs && o.ob.None?
    ensures MarkersLinked(objs[x := o], observers)
  {
  }

  lemma MarkersAttach(objs: map<ObjId, Obj>, observers: map<ObsId, ObserverRec>, x: ObjId, b: ObsId, d: DepId)
    requires MarkersLinked(objs, observers) && x in objs && objs[x].ob.None? && b !in observers
    ensures MarkersLinked(objs[x := objs[x].(ob := Some(b))], observers[b := ObserverRec(x, d, 0)])
  {
    var objs', observers' := objs[x := objs[x].(ob := Some(b))], observers[b := ObserverRec(x, d, 0)];
    forall c | c in observers' ensures observers'[c].value in objs' && objs'[observers'[c].value].ob == Some(c) {
      if c != b {
        assert objs[observers[c].value].ob == Some(c);
      }
    }
  }

  lemma MarkersCount(objs: map<ObjId, Obj>, observers: map<ObsId, ObserverRec>, b: ObsId, n: nat)
    requires MarkersLinked(objs, observers) && b in observers
    ensures MarkersLinked(objs, observers[b := observers[b].(vmCount := n)])
  {
  }

  lemma AccessorsUpdate(objs: map<ObjId, Obj>, slots: map<SlotId, Slot>, x: ObjId, o': Obj)
    requires AccessorsOwned(objs, slots)
    requires forall k :: k in o'.props ==> FnOwned(slots, GetterOf(o'.props[k]), x) && FnOwned(slots, SetterOf(o'.props[k]), x)
    ensures AccessorsOwned(objs[x := o'], slots)
  {
    var objs' := objs[x := o'];
    forall y, k | y in objs' && k in objs'[y].props
      ensures FnOwned(slots, GetterOf(objs'[y].props[k]), y) && FnOwned(slots, SetterOf(objs'[y].props[k]), y)
    {
      if y != x { assert objs'[y] == objs[y]; }
    }
  }

  /** An object that keeps its properties keeps owning its accessors. */
  lemma AccessorsKeep(objs: map<ObjId, Obj>, slots: map<SlotId, Slot>, x: ObjId, o': Obj)
    requires AccessorsOwned(objs, slots) && x in objs && o'.props == objs[x].props
    ensures AccessorsOwned(objs[x := o'], slots)
  {
    AccessorsUpdate(objs, slots, x, o');
  }

  /** Slots that keep their objects keep owning the accessors they owned. */
  lemma AccessorsSlotsGrow(objs: map<ObjId, Obj>, slots: map<SlotId, Slot>, slots': map<SlotId, Slot>)
    requires AccessorsOwned(objs, slots)
    requires forall t :: t in slots ==> t in slots' && slots'[t].owner == slots[t].owner
    ensures AccessorsOwned(objs, slots')
  {
    forall y, k | y in objs && k in objs[y].props
      ensures FnOwned(slots', GetterOf(objs[y].props[k]), y) && FnOwned(slots', SetterOf(objs[y].props[k]), y)
    {
      assert FnOwned(slots, GetterOf(objs[y].props[k]), y) && FnOwned(slots, SetterOf(objs[y].props[k]), y);
    }
  }

  lemma AccessorsSlotPut(objs: map<ObjId, Obj>, slots: map<SlotId, Slot>, s: SlotId, sl: Slot)
    requires AccessorsOwned(objs, slots) && (s in slots ==> sl.owner == slots[s].owner)
    ensures AccessorsOwned(objs, slots[s := sl])
  {
    AccessorsSlotsGrow(objs, slots, slots[s := sl]);
  }

  lemma ChainedAdd(slots: map<SlotId, Slot>, s: SlotId, sl: Slot)
    requires Chained(slots) && (forall t :: t in slots ==> t < s)
    requires FnOwned(slots, sl.getter, sl.owner) && FnOwned(slots, sl.setter, sl.owner)
    ensures Chained(slots[s := sl])
  {
    var slots' := slots[s := sl];
    forall t | t in slots' ensures Link(slots', t, slots'[t].getter) && Link(slots', t, slots'[t].setter) {
      if t != s { assert Link(slots, t, slots[t].getter) && Link(slots, t, slots[t].setter); }
    }
  }

  lemma ChainedUpdate(slots: map<SlotId, Slot>, s: SlotId, sl: Slot)
    requires Chained(slots) && s in slots
    requires sl.owner == slots[s].owner && sl.getter == slots[s].getter && sl.setter == slots[s].setter
    ensures Chained(slots[s := sl])
  {
    var slots' := slots[s := sl];
    forall t | t in slots' ensures Link(slots', t, slots'[t].getter) && Link(slots', t, slots'[t].setter) {
      assert Link(slots, t, slots[t].getter) && Link(slots, t, slots[t].setter);
    }
  }

  lemma SlotsPut(observers: map<ObsId, ObserverRec>, rank: map<ObjId, nat>, slots: map<SlotId, Slot>, s: SlotId, sl: Slot)
    requires SlotsOk(observers, rank, slots) && SlotOk(observers, rank, sl)
    ensures SlotsOk(observers, rank, slots[s := sl])
  {
  }

  lemma SlotsObserversGrow(observers: map<ObsId, ObserverRec>, rank: map<ObjId, nat>, slots: map<SlotId, Slot>,
                           b: ObsId, rec: ObserverRec)
    requires SlotsOk(observers, rank, slots)
    ensures SlotsOk(observers[b := rec], rank, slots)
  {
    forall s | s in slots ensures SlotOk(observers[b := rec], rank, slots[s]) {
      assert SlotOk(observers, rank, slots[s]);
    }
  }

  lemma SlotsRankGrow(observers: map<ObsId, ObserverRec>, rank: map<ObjId, nat>, rank': map<ObjId, nat>,
                      slots: map<SlotId, Slot>)
    requires SlotsOk(observers, rank, slots) && RankExtends(rank, rank')
    ensures SlotsOk(observers, rank', slots)
  {
    forall s | s in slots ensures SlotOk(observers, rank', slots[s]) {
      assert SlotOk(observers, rank, slots[s]);
    }
  }

  /**
   * An object the program creates: no Observer, no interceptor, its key order
   * lists its properties once each, it holds only values ranked below `r`, and
   * its accessors are program-written.
   */
  ghost predicate FreshObj(rank: map<ObjId, nat>, o: Obj, r: nat) {
    && o.ob.None? && !o.patched
    && (forall k :: k in o.props <==> k in o.keys)
    && NoDuplicates(o.keys)
    && (forall i :: 0 <= i < |o.elems| ==> Below(rank, o.elems[i], r))
    && (forall k :: k in o.props && o.props[k].Data? ==> Below(rank, o.props[k].value, r))
    && (forall f :: f in o.internal ==> Below(rank, o.internal[f], r))
    && (forall k :: k in o.props ==> !(GetterOf(o.props[k]).Some? && GetterOf(o.props[k]).value.ReactiveFn?))
    && (forall k :: k in o.props ==> !(SetterOf(o.props[k]).Some? && SetterOf(o.props[k]).value.ReactiveFn?))
  }

  lemma FreshObjShape(rank: map<ObjId, nat>, x: ObjId, o: Obj, r: nat)
    requires FreshObj(rank, o, r) && x !in rank
    ensures ObjOk(rank[x := r], x, o)
  {
  }

  lemma FreshObjAccessors(slots: map<SlotId, Slot>, x: ObjId, o: Obj, rank: map<ObjId, nat>, r: nat)
    requires FreshObj(rank, o, r)
    ensures forall k :: k in o.props ==> FnOwned(slots, GetterOf(o.props[k]), x) && FnOwned(slots, SetterOf(o.props[k]), x)
  {
  }

  // The heap invariant under the updates the runtime makes.

  /** Replacing object `x` by a well-formed `o'` with the same marker. */
  lemma UpdateObjOk(st: Store, x: ObjId, o': Obj)
    requires HeapOk(st) && x in st.objs && o'.ob == st.objs[x].ob
    requires ObjOk(st.rank, x, o')
    requires forall k :: k in o'.props ==> FnOwned(st.slots, GetterOf(o'.props[k]), x) && FnOwned(st.slots, SetterOf(o'.props[k]), x)
    ensures HeapOk(st.(objs := st.objs[x := o']))
  {
    RankedUpdate(st.objs, st.rank, x, o');
    ObjsUpdate(st.objs, st.rank, x, o');
    MarkersUpdate(st.objs, st.observers, x, o');
    AccessorsUpdate(st.objs, st.slots, x, o');
  }

  /** Adding a fresh object of rank `r` that the program made. */
  lemma FreshObjOk(st: Store, x: ObjId, o: Obj, r: nat)
    requires HeapOk(st) && x !in st.objs && FreshObj(st.rank, o, r)
    ensures HeapOk(Store(st.objs[x := o], st.observers, st.slots, st.rank[x := r]))
  {
    var rank' := st.rank[x := r];
    assert x !in st.rank;
    RankExtendsAdd(st.rank, x, r);
    FreshObjShape(st.rank, x, o, r);
    FreshObjAccessors(st.slots, x, o, st.rank, r);
    RankedAdd(st.objs, st.rank, x, o, r);
    ObjsRankGrow(st.objs, st.rank, rank');
    ObjsUpdate(st.objs, rank', x, o);
    MarkersAdd(st.objs, st.observers, x, o);
    AccessorsUpdate(st.objs, st.slots, x, o);
    SlotsRankGrow(st.observers, st.rank, rank', st.slots);
  }

  /** Attaching a fresh Observer `b` to an unobserved object `x`. */
  lemma AttachOk(st: Store, x: ObjId, b: ObsId, d: DepId)
    requires HeapOk(st) && x in st.objs && st.objs[x].ob.None? && b !in st.observers
    ensures HeapOk(Store(st.objs[x := st.objs[x].(ob := Some(b))], st.observers[b := ObserverRec(x, d, 0)],
                         st.slots, st.rank))
  {
    var o := st.objs[x];
    var o' := o.(ob := Some(b));
    assert ObjOk(st.rank, x, o);
    ObjOkFlags(st.rank, x, o, Some(b), o.patched);
    RankedUpdate(st.objs, st.rank, x, o');
    ObjsUpdate(st.objs, st.rank, x, o');
    MarkersAttach(st.objs, st.observers, x, b, d);
    AccessorsKeep(st.objs, st.slots, x, o');
    SlotsObserversGrow(st.observers, st.rank, st.slots, b, ObserverRec(x, d, 0));
  }

  /** Installing the array interceptor on an observed array. */
  lemma PatchOk(st: Store, x: ObjId)
    requires HeapOk(st) && x in st.objs && st.objs[x].ob.Some? && st.objs[x].kind.ArrayKind?
    ensures HeapOk(st.(objs := st.objs[x := st.objs[x].(patched := true)]))
  {
    var o := st.objs[x];
    var o' := o.(patched := true);
    assert ObjOk(st.rank, x, o);
    ObjOkFlags(st.rank, x, o, o.ob, true);
    RankedUpdate(st.objs, st.rank, x, o');
    ObjsUpdate(st.objs, st.rank, x, o');
    MarkersUpdate(st.objs, st.observers, x, o');
    AccessorsKeep(st.objs, st.slots, x, o');
  }

  /** Changing an Observer's root-data count. */
  lemma CountOk(st: Store, b: ObsId, n: nat)
    requires HeapOk(st) && b in st.observers
    ensures HeapOk(st.(observers := st.observers[b := st.observers[b].(vmCount := n)]))
  {
    MarkersCount(st.objs, st.observers, b, n);
    SlotsObserversGrow(st.observers, st.rank, st.slots, b, st.observers[b].(vmCount := n));
  }

  /** Adding slot `s`, newer than every slot, whose captured accessors belong to its object. */
  lemma AddSlotOk(st: Store, s: SlotId, sl: Slot)
    requires HeapOk(st) && (forall t :: t in st.slots ==> t < s)
    requires SlotOk(st.observers, st.rank, sl)
    requires FnOwned(st.slots, sl.getter, sl.owner) && FnOwned(st.slots, sl.setter, sl.owner)
    ensures HeapOk(st.(slots := st.slots[s := sl]))
  {
    assert s !in st.slots;
    AccessorsSlotPut(st.objs, st.slots, s, sl);
    ChainedAdd(st.slots, s, sl);
    SlotsPut(st.observers, st.rank, st.slots, s, sl);
  }

  /** Changing a slot's value and child Observer. */
  lemma UpdateSlotOk(st: Store, s: SlotId, v: Value, c: Option<ObsId>)
    requires HeapOk(st) && s in st.slots
    requires SlotOk(st.observers, st.rank, st.slots[s].(val := v, childOb := c))
    ensures HeapOk(Store(st.objs, st.observers, st.slots[s := st.slots[s].(val := v, childOb := c)], st.rank))
  {
    var sl := st.slots[s].(val := v, childOb := c);
    AccessorsSlotPut(st.objs, st.slots, s, sl);
    ChainedUpdate(st.slots, s, sl);
    SlotsPut(st.observers, st.rank, st.slots, s, sl);
  }

  /**
   * What calling accessor function `f` on object `owner` returns: a user getter
   * reads its internal field, a reactive getter what its slot's getter returns.
   */
  function FnValue(st: Store, f: Fn, owner: ObjId): Value
    requires Chained(st.slots) && (f.ReactiveFn? ==> f.slot in st.slots)
    decreases if f.ReactiveFn? then f.slot + 1 else 0, 1
  {
    match f
    case UserFn(field) =>
      if owner in st.objs && field in st.objs[owner].internal then st.objs[owner].internal[field] else Undef
    case ReactiveFn(s) => SlotValue(st, s)
  }

  /** What the reactive getter of slot `s` returns: the captured getter's result, or else the value slot. */
  function SlotValue(st: Store, s: SlotId): Value
    requires Chained(st.slots) && s in st.slots
    decreases s + 1, 0
  {
    var sl := st.slots[s];
    match sl.getter
    case None => sl.val
    case Some(f) => FnValue(st, f, sl.owner)
  }

  /** `obj[key]` for an own property key (and `undefined` for an absent one or a missing getter). */
  ghost function PropValue(st: Store, x: ObjId, key: Key): Value
    requires HeapOk(st) && x in st.objs
  {
    if key !in st.objs[x].props then Undef
    else match st.objs[x].props[key]
      case Data(v, _, _) => v
      case Accessor(g, _, _, _) => if g.None? then Undef else FnValue(st, g.value, x)
  }

  /** An internal field of `x` ranks below `x`. */
  lemma InternalBelow(objs: map<ObjId, Obj>, rank: map<ObjId, nat>, x: ObjId, f: Key)
    requires ObjsOk(objs, rank) && x in objs && x in rank && f in objs[x].internal
    ensures Below(rank, objs[x].internal[f], rank[x])
  {
    assert ObjOk(rank, x, objs[x]);
  }

  /** Whatever a reactive getter of object `owner` returns ranks below `owner`. */
  lemma {:induction false} SlotValueBelow(st: Store, s: SlotId)
    requires Chained(st.slots) && SlotsOk(st.observers, st.rank, st.slots) && ObjsOk(st.objs, st.rank)
    requires s in st.slots
    ensures st.slots[s].owner in st.rank && Below(st.rank, SlotValue(st, s), st.rank[st.slots[s].owner])
    decreases s
  {
    var sl := st.slots[s];
    assert SlotOk(st.observers, st.rank, sl);
    match sl.getter
    case None =>
    case Some(UserFn(field)) =>
      if sl.owner in st.objs && field in st.objs[sl.owner].internal {
        InternalBelow(st.objs, st.rank, sl.owner, field);
      }
    case Some(ReactiveFn(t)) =>
      assert Link(st.slots, s, sl.getter);
      SlotValueBelow(st, t);
  }

  /** `obj[key]` ranks below `obj`. */
  lemma PropValueBelow(st: Store, x: ObjId, key: Key)
    requires HeapOk(st) && x in st.objs
    ensures x in st.rank && Below(st.rank, PropValue(st, x, key), st.rank[x])
  {
    var o := st.objs[x];
    assert x in st.rank;
    if key in o.props {
      match o.props[key]
      case Data(v, _, _) =>
        DataBelow(st.objs, st.rank, x, key);
      case Accessor(g, _, _, _) =>
        if g.Some? && g.value.ReactiveFn? {
          AccessorOwned(st.objs, st.slots, x, key);
          SlotValueBelow(st, g.value.slot);
        } else if g.Some? && x in st.objs && g.value.field in o.internal {
          InternalBelow(st.objs, st.rank, x, g.value.field);
        }
    }
  }

  lemma DataBelow(objs: map<ObjId, Obj>, rank: map<ObjId, nat>, x: ObjId, k: Key)
    requires ObjsOk(objs, rank) && x in objs && x in rank && k in objs[x].props && objs[x].props[k].Data?
    ensures Below(rank, objs[x].props[k].value, rank[x])
  {
    assert ObjOk(rank, x, objs[x]);
  }

  lemma AccessorOwned(objs: map<ObjId, Obj>, slots: map<SlotId, Slot>, x: ObjId, k: Key)
    requires AccessorsOwned(objs, slots) && x in objs && k in objs[x].props
    ensures FnOwned(slots, GetterOf(objs[x].props[k]), x) && FnOwned(slots, SetterOf(objs[x].props[k]), x)
  {
  }

  /**
   * The value a reactive getter returns does not change when only new slots
   * and objects appear and existing objects keep their internal fields.
   */
  lemma {:induction false} SlotValueStable(a: Store, b: Store, s: SlotId)
    requires Chained(a.slots) && Chained(b.slots) && s in a.slots
    requires forall t :: t in a.slots ==> a.slots[t].owner in a.objs
    requires forall t :: t in a.slots ==> t in b.slots && b.slots[t] == a.slots[t]
    requires forall x :: x in a.objs ==> x in b.objs && b.objs[x].internal == a.objs[x].internal
    ensures SlotValue(b, s) == SlotValue(a, s)
    decreases s
  {
    var sl := a.slots[s];
    assert b.slots[s] == sl;
    match sl.getter
    case None =>
    case Some(UserFn(field)) =>
      assert b.objs[sl.owner].internal == a.objs[sl.owner].internal;
    case Some(ReactiveFn(t)) =>
      assert Link(a.slots, s, sl.getter);
      SlotValueStable(a, b, t);
  }

  /** The subscribers of dep `d`; a dep never touched has none. */
  function SubsOf(deps: map<DepId, set<SubId>>, d: DepId): set<SubId> {
    if d in deps then deps[d] else {}
  }

  function TargetSet(t: Option<SubId>): set<SubId> {
    if t.Some? then {t.value} else {}
  }

  /** `m` with the active subscriber `t` added to every dep in `ds`; without an active subscriber, `m` itself. */
  function Subscribed(m: map<DepId, set<SubId>>, ds: set<DepId>, t: Option<SubId>): (r: map<DepId, set<SubId>>)
    ensures t.None? ==> r == m
  {
    if t.None? then m
    else map d | d in m.Keys + ds :: SubsOf(m, d) + (if d in ds then {t.value} else {})
  }

  /** Dependency sets only ever gain the active subscriber. */
  ghost predicate OnlyTargetAdded(before: map<DepId, set<SubId>>, after: map<DepId, set<SubId>>, t: Option<SubId>) {
    (t.None? ==> after == before) &&
    forall d :: SubsOf(before, d) <= SubsOf(after, d) <= SubsOf(before, d) + TargetSet(t)
  }

  lemma SubscribedAt(m: map<DepId, set<SubId>>, ds: set<DepId>, t: Option<SubId>, d: DepId)
    requires t.Some?
    ensures var r := Subscribed(m, ds, t);
            && r.Keys == m.Keys + ds
            && SubsOf(r, d) == if d in ds then SubsOf(m, d) + {t.value} else SubsOf(m, d)
  {
  }

  /** Two rounds of tracking add the subscriber to the union of what each added it to. */
  lemma SubscribedCompose(m: map<DepId, set<SubId>>, d1: set<DepId>, d2: set<DepId>, t: Option<SubId>)
    ensures Subscribed(Subscribed(m, d1, t), d2, t) == Subscribed(m, d1 + d2, t)
  {
    if t.Some? {
      var m1 := Subscribed(m, d1, t);
      var a, b := Subscribed(m1, d2, t), Subscribed(m, d1 + d2, t);
      forall d | d in a.Keys ensures d in b.Keys && a[d] == b[d] {
        SubscribedAt(m, d1, t, d);
        SubscribedAt(m1, d2, t, d);
        SubscribedAt(m, d1 + d2, t, d);
        var s, x := SubsOf(m, d), {t.value};
        if d in d1 && d in d2 {
          assert s + x + x == s + x;
        }
      }
      forall d | d in b.Keys ensures d in a.Keys {
        SubscribedAt(m, d1, t, d);
        SubscribedAt(m1, d2, t, d);
        SubscribedAt(m, d1 + d2, t, d);
      }
    }
  }

  /** Tracking nothing changes nothing. */
  lemma SubscribedNothing(m: map<DepId, set<SubId>>, t: Option<SubId>)
    ensures Subscribed(m, {}, t) == m
  {
    var a := Subscribed(m, {}, t);
    if t.Some? {
      assert a.Keys == m.Keys;
      forall d | d in m.Keys ensures a[d] == m[d] {
        assert SubsOf(a, d) == SubsOf(m, d);
      }
    }
  }

  lemma SubscribedOnlyTarget(m: map<DepId, set<SubId>>, ds: set<DepId>, t: Option<SubId>)
    ensures OnlyTargetAdded(m, Subscribed(m, ds, t), t)
  {
  }

  ghost function ObserverDeps(observers: map<ObsId, ObserverRec>): set<DepId> {
    set b | b in observers :: observers[b].dep
  }

  ghost function SlotDeps(slots: map<SlotId, Slot>): set<DepId> {
    set s | s in slots :: slots[s].dep
  }

  /** An element of array `a` is an object of the heap ranked below `a`, or no object at all. */
  lemma ElemBelow(st: Store, a: ObjId, i: nat)
    requires HeapOk(st) && a in st.objs && i < |st.objs[a].elems|
    ensures a in st.rank && var e := st.objs[a].elems[i]; e.Ref? ==> e.id in st.objs && st.rank[e.id] < st.rank[a]
  {
    assert ObjOk(st.rank, a, st.objs[a]);
  }

  /** The Observer-level deps `dependArray` reaches from the elements `value[0..n)` of array `a`. */
  ghost function ElemsDeps(st: Store, a: ObjId, n: nat): (ds: set<DepId>)
    requires HeapOk(st) && a in st.objs && n <= |st.objs[a].elems|
    decreases st.rank[a] + 1, 1, n
  {
    if n == 0 then {}
    else
      ElemBelow(st, a, n - 1);
      ElemsDeps(st, a, n - 1) + ElemDeps(st, st.objs[a].elems[n - 1])
  }

  /** One more element adds its own dep and what lies within it. */
  lemma ElemsDepsStep(st: Store, a: ObjId, i: nat)
    requires HeapOk(st) && a in st.objs && i < |st.objs[a].elems|
    ensures var e := st.objs[a].elems[i];
            && (e.Ref? ==> e.id in st.objs)
            && ElemsDeps(st, a, i + 1) == ElemsDeps(st, a, i) + (MarkerDeps(st, e) + NestedDeps(st, e))
  {
    ElemBelow(st, a, i);
  }

  /** One element: its own `__ob__.dep`, and, if it is an array, everything within it. */
  ghost function ElemDeps(st: Store, e: Value): (ds: set<DepId>)
    requires HeapOk(st) && (e.Ref? ==> e.id in st.objs)
    decreases if e.Ref? then st.rank[e.id] + 1 else 0, 3
  {
    MarkerDeps(st, e) + NestedDeps(st, e)
  }

  /** The dep of the Observer an element carries, if any. */
  ghost function MarkerDeps(st: Store, e: Value): set<DepId>
    requires e.Ref? ==> e.id in st.objs
  {
    if e.Ref? && st.objs[e.id].ob.Some? && st.objs[e.id].ob.value in st.observers then
      {st.observers[st.objs[e.id].ob.value].dep}
    else {}
  }

  /** What `dependArray` reaches inside an element that is itself an array. */
  ghost function NestedDeps(st: Store, e: Value): set<DepId>
    requires HeapOk(st) && (e.Ref? ==> e.id in st.objs)
    decreases if e.Ref? then st.rank[e.id] + 1 else 0, 2
  {
    if e.Ref? && st.objs[e.id].kind.ArrayKind? then ArrayDeps(st, e.id) else {}
  }

  /** Everything `dependArray(a)` adds the active subscriber to. */
  ghost function ArrayDeps(st: Store, a: ObjId): (ds: set<DepId>)
    requires HeapOk(st) && a in st.objs
    decreases st.rank[a] + 1, 1, |st.objs[a].elems| + 1
  {
    ElemsDeps(st, a, |st.objs[a].elems|)
  }

  /** The deps a call of accessor `f` adds the active subscriber to. */
  ghost function FnTracked(st: Store, f: Option<Fn>): (ds: set<DepId>)
    requires HeapOk(st) && (f.Some? && f.value.ReactiveFn? ==> f.value.slot in st.slots)
    decreases if f.Some? && f.value.ReactiveFn? then f.value.slot + 1 else 0, 1
  {
    if f.Some? && f.value.ReactiveFn? then Tracked(st, f.value.slot) else {}
  }

  /**
   * The deps the reactive getter of slot `s` adds the active subscriber to: those
   * of the captured getter, the property's own dep, and, when there is a child
   * Observer, its dep and, for an array value, everything `dependArray` reaches.
   */
  ghost function Tracked(st: Store, s: SlotId): (ds: set<DepId>)
    requires HeapOk(st) && s in st.slots
    decreases s + 1, 0
  {
    var sl := st.slots[s];
    FnTracked(st, sl.getter) + {sl.dep} + ChildTracked(st, sl.childOb, SlotValue(st, s))
  }

  /** The deps reading own property `key` of `x` adds the active subscriber to: those of its getter, if any. */
  ghost function PropTracked(st: Store, x: ObjId, key: Key): set<DepId>
    requires HeapOk(st) && x in st.objs
  {
    if key in st.objs[x].props then
      AccessorOwned(st.objs, st.slots, x, key);
      FnTracked(st, GetterOf(st.objs[x].props[key]))
    else {}
  }

  /** The child Observer's dep and, when the value is an array, what `dependArray` reaches from it. */
  ghost function ChildTracked(st: Store, childOb: Option<ObsId>, v: Value): set<DepId>
    requires HeapOk(st)
  {
    if childOb.Some? && childOb.value in st.observers then
      {st.observers[childOb.value].dep}
      + (if v.Ref? && v.id in st.objs && st.objs[v.id].kind.ArrayKind? then ArrayDeps(st, v.id) else {})
    else {}
  }

  /**
   * `Object.keys(o)` taken as the own enumerable keys in the order they were
   * created. JavaScript lists the integer-like keys first, in ascending
   * numeric order; that reordering is not part of this model.
   */
  function EnumerableKeys(keys: seq<Key>, props: map<Key, Prop>): (r: seq<Key>)
    ensures forall k :: k in r <==> k in keys && k in props && props[k].enumerable
    ensures NoDuplicates(keys) ==> NoDuplicates(r)
    decreases |keys|
  {
    if keys == [] then []
    else
      var rest := EnumerableKeys(keys[1..], props);
      if keys[0] in props && props[keys[0]].enumerable then [keys[0]] + rest else rest
  }

  /** An Observer is attached only to an eligible object that is no VNode, and it stays extensible. */
  ghost predicate MarkersEligible(objs: map<ObjId, Obj>) {
    forall x :: x in objs && objs[x].ob.Some? ==> objs[x].extensible && !objs[x].isVNode
  }

  /** The next object, Observer, dep and slot ids the runtime hands out. */
  datatype Ids = Ids(obj: nat, obs: nat, dep: nat, slot: nat)

  /** Every id in use is below the next one handed out, and so is every dep an Observer or slot holds. */
  ghost predicate ObjIdsBelow(objs: map<ObjId, Obj>, next: nat) {
    forall x :: x in objs ==> x < next
  }

  ghost predicate ObsIdsBelow(observers: map<ObsId, ObserverRec>, next: nat, nextDep: nat) {
    forall b :: b in observers ==> b < next && observers[b].dep < nextDep
  }

  ghost predicate SlotIdsBelow(slots: map<SlotId, Slot>, next: nat, nextDep: nat) {
    forall s :: s in slots ==> s < next && slots[s].dep < nextDep
  }

  /** The invariant of the runtime: a well-formed heap, Observers only on eligible objects, fresh ids fresh. */
  ghost predicate RuntimeOk(st: Store, n: Ids) {
    && HeapOk(st) && MarkersEligible(st.objs)
    && ObjIdsBelow(st.objs, n.obj) && ObsIdsBelow(st.observers, n.obs, n.dep) && SlotIdsBelow(st.slots, n.slot, n.dep)
  }
}
