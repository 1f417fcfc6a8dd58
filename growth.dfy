/**
 * How the heap may change while values are observed: what `observe` tests,
 * what an object, an Observer and a slot keep for the rest of their lives,
 * and the relation between the heap before and after a call of `observe`,
 * the Observer constructor, `walk`, `observeArray` or `defineReactive`.
 */
module Growth {
  import opened Wrappers
  import opened Values
  import opened Heap
  import opened Steps

  /**
   * `observe`'s gate for a value without an Observer: observation is on, the
   * value is an array or a plain object, it is extensible and it is not a Vue
   * instance (server rendering is taken to be off).
   */
  predicate Eligible(o: Obj, shouldObserve: bool) {
    shouldObserve && (o.kind.ArrayKind? || o.kind.PlainKind?) && o.extensible && !o.isVue
  }

  /** `observe` returns an Observer for this object: it is no VNode, and it has one already or may get one. */
  predicate Observable(o: Obj, shouldObserve: bool) {
    !o.isVNode && (o.ob.Some? || Eligible(o, shouldObserve))
  }

  /** The Observer an object value carries in its `__ob__` marker. */
  function ObOf(st: Store, v: Value): Option<ObsId> {
    if v.Ref? && v.id in st.objs then st.objs[v.id].ob else None
  }

  /**
   * What an object keeps for the rest of its life: its kind and flags, its
   * Observer once it has one, the interceptor once installed. It gains an
   * Observer only if it was eligible.
   */
  ghost predicate Persists(a: Obj, b: Obj, shouldObserve: bool) {
    && b.kind == a.kind && b.extensible == a.extensible && b.isVue == a.isVue && b.isVNode == a.isVNode
    && (a.ob.Some? ==> b.ob == a.ob)
    && (a.ob.None? && b.ob.Some? ==> Eligible(a, shouldObserve))
    && (a.patched ==> b.patched)
  }

  /** Observing hands out Observer, dep and slot ids and never creates an object. */
  predicate IdsGrow(a: Ids, b: Ids) {
    b.obj == a.obj && a.obs <= b.obs && a.dep <= b.dep && a.slot <= b.slot
  }

  /** Existing slots keep their value and child Observer as well. */
  ghost predicate SlotsKept(a: Store, b: Store) {
    forall s :: s in a.slots ==> s in b.slots && b.slots[s] == a.slots[s]
  }

  function OwnProp(o: Obj, k: Key): Option<Prop> {
    if k in o.props then Some(o.props[k]) else None
  }

  /**
   * Whether `Object.defineProperty` can install a property of `o` whose former
   * own descriptor is `p`: an existing (configurable) property can be
   * redefined, and a new one can only be added to an extensible object;
   * otherwise the call throws a `TypeError`.
   */
  predicate Definable(o: Obj, p: Option<Prop>) {
    p.Some? || o.extensible
  }

  function GetterIn(p: Option<Prop>): Option<Fn> {
    if p.Some? then GetterOf(p.value) else None
  }

  function SetterIn(p: Option<Prop>): Option<Fn> {
    if p.Some? then SetterOf(p.value) else None
  }

  /** The value `defineReactive(obj, key)` reads when called without a value: `obj[key]` unless the property is getter-only. */
  ghost function InitialValue(st: Store, x: ObjId, k: Key): Value
    requires HeapOk(st) && x in st.objs
  {
    var p := OwnProp(st.objs[x], k);
    if p.None? || GetterOf(p.value).None? || SetterOf(p.value).Some? then PropValue(st, x, k) else Undef
  }

  /** `defineReactive` leaves a property alone when its descriptor says `configurable: false`. */
  predicate NonConfigurable(o: Obj, k: Key) {
    k in o.props && !o.props[k].configurable
  }

  /** The ranks below which `observe(v)` may change objects: up to that of `v`, none at all for a primitive. */
  function Reach(rank: map<ObjId, nat>, v: Value): nat {
    if v.Ref? && v.id in rank then rank[v.id] + 1 else 0
  }

  /**
   * What object `y` keeps while observing changes objects ranked below `r`:
   * its kind and flags, its elements and internal fields, its Observer once
   * it has one (gaining one only if eligible) and the interceptor once
   * installed; ranked `r` or more it is untouched.
   */
  ghost predicate ObjFate(a: Store, b: Store, y: ObjId, so: bool, r: int) {
    y in a.objs ==>
      && y in b.objs && Persists(a.objs[y], b.objs[y], so)
      && b.objs[y].elems == a.objs[y].elems && b.objs[y].internal == a.objs[y].internal
      && (y in a.rank && a.rank[y] >= r ==> b.objs[y] == a.objs[y])
  }

  /** Every object meets its `ObjFate`. */
  ghost predicate Fates(a: Store, b: Store, so: bool, r: int) {
    forall y {:trigger ObjFate(a, b, y, so, r)} :: ObjFate(a, b, y, so, r)
  }

  /** Observer `ob`, if it exists, is exactly as it was. */
  ghost predicate ObsFate(a: Store, b: Store, ob: ObsId) {
    ob in a.observers ==> ob in b.observers && b.observers[ob] == a.observers[ob]
  }

  ghost predicate ObsFates(a: Store, b: Store) {
    forall ob {:trigger ObsFate(a, b, ob)} :: ObsFate(a, b, ob)
  }

  lemma FatesTrans(a: Store, b: Store, c: Store, so: bool, r1: int, r2: int, r: int)
    requires Fates(a, b, so, r1) && Fates(b, c, so, r2) && b.rank == a.rank && r1 <= r && r2 <= r
    ensures Fates(a, c, so, r)
  {
    forall y ensures ObjFate(a, c, y, so, r) {
      assert ObjFate(a, b, y, so, r1) && ObjFate(b, c, y, so, r2);
    }
  }

  lemma FatesRefl(a: Store, so: bool, r: int)
    ensures Fates(a, a, so, r) && ObsFates(a, a)
  {
    forall y ensures ObjFate(a, a, y, so, r) {
    }
    forall ob ensures ObsFate(a, a, ob) {
    }
  }

  lemma ObsFatesTrans(a: Store, b: Store, c: Store)
    requires ObsFates(a, b) && ObsFates(b, c)
    ensures ObsFates(a, c)
  {
    forall ob ensures ObsFate(a, c, ob) {
      assert ObsFate(a, b, ob) && ObsFate(b, c, ob);
    }
  }

  /**
   * `observe(v)` has nothing left to do: `v` is no object, or it carries an
   * Observer, or it may not get one.
   */
  ghost predicate Settled(st: Store, v: Value, so: bool) {
    v.Ref? && v.id in st.objs ==> st.objs[v.id].ob.Some? || !Observable(st.objs[v.id], so)
  }

  /** The first `i` items are settled. */
  ghost predicate AllSettled(st: Store, items: seq<Value>, i: nat, so: bool)
    requires i <= |items|
  {
    forall j :: 0 <= j < i ==> Settled(st, items[j], so)
  }

  lemma AllSettledNext(st: Store, items: seq<Value>, i: nat, so: bool)
    requires i < |items| && AllSettled(st, items, i, so) && Settled(st, items[i], so)
    ensures AllSettled(st, items, i + 1, so)
  {
  }

  /** Settled values stay settled while observing goes on. */
  lemma AllSettledKept(a: Store, b: Store, items: seq<Value>, i: nat, so: bool, r: int)
    requires i <= |items| && AllSettled(a, items, i, so) && Fates(a, b, so, r) && b.objs.Keys == a.objs.Keys
    ensures AllSettled(b, items, i, so)
  {
    forall j | 0 <= j < i ensures Settled(b, items[j], so) {
      if items[j].Ref? {
        assert Settled(a, items[j], so) && ObjFate(a, b, items[j].id, so, r);
      }
    }
  }

  /** Property `k` of `x` is the reactive pair of slot `s`, fresh and holding `sl`; the rest of `x` is as it was. */
  ghost predicate BoundIn(a: Store, r: Store, x: ObjId, k: Key, s: SlotId, sl: Slot)
    requires x in a.objs
  {
    && s !in a.slots && s in r.slots && x in r.objs
    && r.objs[x] == WithProp(a.objs[x], k, ReactiveProp(s))
    && r.slots[s] == sl
  }

  /** Property `k` of `x` is the reactive pair of some fresh slot holding `sl`. */
  ghost predicate Bound(a: Store, r: Store, x: ObjId, k: Key, sl: Slot)
    requires x in a.objs
  {
    exists s :: BoundIn(a, r, x, k, s, sl)
  }

  lemma BoundWitness(a: Store, r: Store, x: ObjId, k: Key, s: SlotId, sl: Slot)
    requires x in a.objs && BoundIn(a, r, x, k, s, sl)
    ensures Bound(a, r, x, k, sl)
  {
  }

  /** Installing slot `sl` as property `k` of `x` in `b`, which kept `x` and the slots of `a`, binds `k` over `a`. */
  lemma BoundByInstall(a: Store, b: Store, r: Store, x: ObjId, k: Key, s: SlotId, sl: Slot, v: Value)
    requires x in a.objs && x in b.objs && b.objs[x] == a.objs[x] && SlotsKept(a, b) && s !in b.slots
    requires r.objs == Defined(b.objs, x, k, ReactiveProp(s)) && r.slots == b.slots[s := sl]
    ensures BoundIn(a, r, x, k, s, sl) && ObOf(r, v) == ObOf(b, v)
  {
  }

  // The primitive heap updates observing makes, each within its `Fates`.

  lemma AttachFated(st: Store, x: ObjId, b: ObsId, d: DepId, so: bool)
    requires x in st.objs && x in st.rank && st.objs[x].ob.None? && Eligible(st.objs[x], so) && b !in st.observers
    ensures var st' := Store(Attached(st.objs, x, b), st.observers[b := ObserverRec(x, d, 0)], st.slots, st.rank);
      Fates(st, st', so, Reach(st.rank, Ref(x))) && ObsFates(st, st')
  {
    var st' := Store(Attached(st.objs, x, b), st.observers[b := ObserverRec(x, d, 0)], st.slots, st.rank);
    forall y ensures ObjFate(st, st', y, so, Reach(st.rank, Ref(x))) {
    }
    forall ob ensures ObsFate(st, st', ob) {
    }
  }

  lemma PatchFated(st: Store, x: ObjId, so: bool)
    requires x in st.objs && x in st.rank
    ensures var st' := Store(Patched(st.objs, x), st.observers, st.slots, st.rank);
      Fates(st, st', so, Reach(st.rank, Ref(x))) && ObsFates(st, st')
  {
    var st' := Store(Patched(st.objs, x), st.observers, st.slots, st.rank);
    forall y ensures ObjFate(st, st', y, so, Reach(st.rank, Ref(x))) {
    }
  }

  lemma CountFated(st: Store, b: ObsId, so: bool)
    requires b in st.observers
    ensures Fates(st, Store(st.objs, Counted(st.observers, b), st.slots, st.rank), so, 0)
  {
    var st' := Store(st.objs, Counted(st.observers, b), st.slots, st.rank);
    forall y ensures ObjFate(st, st', y, so, 0) {
    }
  }

  lemma InstallFated(st: Store, x: ObjId, k: Key, p: Prop, s: SlotId, sl: Slot, so: bool)
    requires x in st.objs && x in st.rank
    ensures var st' := Store(Defined(st.objs, x, k, p), st.observers, st.slots[s := sl], st.rank);
      Fates(st, st', so, Reach(st.rank, Ref(x))) && ObsFates(st, st')
  {
    var st' := Store(Defined(st.objs, x, k, p), st.observers, st.slots[s := sl], st.rank);
    forall y ensures ObjFate(st, st', y, so, Reach(st.rank, Ref(x))) {
    }
  }
}
