/**
 * The runtime invariant under each primitive change the observer makes to the
 * heap: adding an object, attaching an Observer, counting a root, patching an
 * array, defining or deleting an own property, adding or writing a slot,
 * writing an internal field and replacing array elements.
 */
module Steps {
  import opened Wrappers
  import opened Values
  import opened Heap

  /** Object `o` with own property `k` defined as `p`; a new key goes to the end of the key order. */
  function WithProp(o: Obj, k: Key, p: Prop): Obj {
    o.(props := o.props[k := p], keys := if k in o.keys then o.keys else o.keys + [k])
  }

  /** The key order with `k` taken out. */
  function Without(keys: seq<Key>, k: Key): (r: seq<Key>)
    ensures forall j :: j in r <==> j in keys && j != k
    decreases |keys|
  {
    if keys == [] then []
    else
      var rest := Without(keys[1..], k);
      if keys[0] == k then rest else [keys[0]] + rest
  }

  /** Taking a key out of a key order without repetitions leaves one without repetitions. */
  lemma {:induction false} WithoutNoDuplicates(keys: seq<Key>, k: Key)
    requires NoDuplicates(keys)
    ensures NoDuplicates(Without(keys, k))
    decreases |keys|
  {
    if keys != [] {
      var tail := keys[1..];
      assert NoDuplicates(tail) by {
        forall i, j | 0 <= i < j < |tail| ensures tail[i] != tail[j] {
          assert tail[i] == keys[i + 1] && tail[j] == keys[j + 1];
        }
      }
      WithoutNoDuplicates(tail, k);
      var rest := Without(tail, k);
      if keys[0] != k {
        assert keys[0] !in tail by {
          forall j | 0 <= j < |tail| ensures tail[j] != keys[0] {
            assert tail[j] == keys[j + 1];
          }
        }
        var r := [keys[0]] + rest;
        forall i, j | 0 <= i < j < |r| ensures r[i] != r[j] {
          if i == 0 {
            assert r[j] == rest[j - 1];
          } else {
            assert r[i] == rest[i - 1] && r[j] == rest[j - 1];
          }
        }
      }
    }
  }

  /** Object `o` with own property `k` deleted. */
  function WithoutProp(o: Obj, k: Key): Obj {
    o.(props := o.props - {k}, keys := Without(o.keys, k))
  }

  // The primitive heap updates, named so that a change and its invariant lemma
  // speak of the same term.

  /** `__ob__` of `x` set to Observer `b`. */
  function Attached(objs: map<ObjId, Obj>, x: ObjId, b: ObsId): map<ObjId, Obj>
    requires x in objs
  {
    objs[x := objs[x].(ob := Some(b))]
  }

  /** One more root-data use of Observer `b`. */
  function Counted(observers: map<ObsId, ObserverRec>, b: ObsId): map<ObsId, ObserverRec>
    requires b in observers
  {
    observers[b := observers[b].(vmCount := observers[b].vmCount + 1)]
  }

  /** Array `x` with the interceptor installed. */
  function Patched(objs: map<ObjId, Obj>, x: ObjId): map<ObjId, Obj>
    requires x in objs
  {
    objs[x := objs[x].(patched := true)]
  }

  function Defined(objs: map<ObjId, Obj>, x: ObjId, k: Key, p: Prop): map<ObjId, Obj>
    requires x in objs
  {
    objs[x := WithProp(objs[x], k, p)]
  }

  function Deleted(objs: map<ObjId, Obj>, x: ObjId, k: Key): map<ObjId, Obj>
    requires x in objs
  {
    objs[x := WithoutProp(objs[x], k)]
  }

  /** Internal field `f` of `x` set to `v`. */
  function Stored(objs: map<ObjId, Obj>, x: ObjId, f: Key, v: Value): map<ObjId, Obj>
    requires x in objs
  {
    objs[x := objs[x].(internal := objs[x].internal[f := v])]
  }

  /** The elements of `x` replaced by `es`. */
  function Replaced(objs: map<ObjId, Obj>, x: ObjId, es: seq<Value>): map<ObjId, Obj>
    requires x in objs
  {
    objs[x := objs[x].(elems := es)]
  }

  /** Slot `s` holding value `v` and child Observer `c`. */
  function Written(slots: map<SlotId, Slot>, s: SlotId, v: Value, c: Option<ObsId>): map<SlotId, Slot>
    requires s in slots
  {
    slots[s := slots[s].(val := v, childOb := c)]
  }

  /** A descriptor object `x` may hold: a data value ranked below `x`, and reactive accessors of `x`'s own slots. */
  ghost predicate PropFits(st: Store, x: ObjId, p: Prop)
    requires x in st.rank
  {
    && (p.Data? ==> Below(st.rank, p.value, st.rank[x]))
    && FnOwned(st.slots, GetterOf(p), x) && FnOwned(st.slots, SetterOf(p), x)
  }

  lemma WithPropOk(rank: map<ObjId, nat>, x: ObjId, o: Obj, k: Key, p: Prop)
    requires x in rank && ObjOk(rank, x, o)
    requires p.Data? ==> Below(rank, p.value, rank[x])
    ensures ObjOk(rank, x, WithProp(o, k, p))
  {
    var keys := WithProp(o, k, p).keys;
    forall i, j | 0 <= i < j < |keys| ensures keys[i] != keys[j] {
      if j == |o.keys| {
        assert keys[j] == k && keys[i] == o.keys[i];
      }
    }
  }

  lemma WithoutPropOk(rank: map<ObjId, nat>, x: ObjId, o: Obj, k: Key)
    requires x in rank && ObjOk(rank, x, o)
    ensures ObjOk(rank, x, WithoutProp(o, k))
  {
    WithoutNoDuplicates(o.keys, k);
  }

  lemma EligibleUpdate(objs: map<ObjId, Obj>, x: ObjId, o': Obj)
    requires MarkersEligible(objs) && (o'.ob.Some? ==> o'.extensible && !o'.isVNode)
    ensures MarkersEligible(objs[x := o'])
  {
  }

  lemma ObjIdsPut(objs: map<ObjId, Obj>, n: nat, x: ObjId, o: Obj, n': nat)
    requires ObjIdsBelow(objs, n) && n <= n' && x < n'
    ensures ObjIdsBelow(objs[x := o], n')
  {
  }

  lemma ObsIdsPut(observers: map<ObsId, ObserverRec>, n: nat, nd: nat, b: ObsId, rec: ObserverRec, n': nat, nd': nat)
    requires ObsIdsBelow(observers, n, nd) && n <= n' && nd <= nd' && b < n' && rec.dep < nd'
    ensures ObsIdsBelow(observers[b := rec], n', nd')
  {
  }

  lemma ObsIdsGrow(observers: map<ObsId, ObserverRec>, n: nat, nd: nat, nd': nat)
    requires ObsIdsBelow(observers, n, nd) && nd <= nd'
    ensures ObsIdsBelow(observers, n, nd')
  {
  }

  lemma SlotIdsPut(slots: map<SlotId, Slot>, n: nat, nd: nat, s: SlotId, sl: Slot, n': nat)
    requires SlotIdsBelow(slots, n, nd) && n <= n' && s < n' && sl.dep < nd
    ensures SlotIdsBelow(slots[s := sl], n', nd)
  {
  }

  lemma SlotIdsGrow(slots: map<SlotId, Slot>, n: nat, nd: nat, nd': nat)
    requires SlotIdsBelow(slots, n, nd) && nd <= nd'
    ensures SlotIdsBelow(slots, n, nd')
  {
  }

  /** A new dep id leaves the invariant intact. */
  lemma NewDepValid(st: Store, n: Ids)
    requires RuntimeOk(st, n)
    ensures RuntimeOk(st, Ids(n.obj, n.obs, n.dep + 1, n.slot))
  {
    ObsIdsGrow(st.observers, n.obs, n.dep, n.dep + 1);
    SlotIdsGrow(st.slots, n.slot, n.dep, n.dep + 1);
  }

  /** Replacing object `x` by `o'`, which keeps its marker, is locally well formed and holds only accessors of `x`. */
  lemma UpdateObjValid(st: Store, n: Ids, x: ObjId, o': Obj)
    requires RuntimeOk(st, n) && x in st.objs && o'.ob == st.objs[x].ob
    requires ObjOk(st.rank, x, o')
    requires forall k :: k in o'.props ==> FnOwned(st.slots, GetterOf(o'.props[k]), x) && FnOwned(st.slots, SetterOf(o'.props[k]), x)
    requires o'.ob.Some? ==> o'.extensible && !o'.isVNode
    ensures RuntimeOk(st.(objs := st.objs[x := o']), n)
  {
    UpdateObjOk(st, x, o');
    EligibleUpdate(st.objs, x, o');
    ObjIdsPut(st.objs, n.obj, x, o', n.obj);
  }

  lemma AddObjectValid(st: Store, n: Ids, o: Obj, r: nat)
    requires RuntimeOk(st, n) && FreshObj(st.rank, o, r)
    ensures n.obj !in st.objs
    ensures RuntimeOk(Store(st.objs[n.obj := o], st.observers, st.slots, st.rank[n.obj := r]), Ids(n.obj + 1, n.obs, n.dep, n.slot))
  {
    FreshObjOk(st, n.obj, o, r);
    EligibleUpdate(st.objs, n.obj, o);
    ObjIdsPut(st.objs, n.obj, n.obj, o, n.obj + 1);
  }

  /** Attaching a new Observer to `x`, stated for the store `st'` and ids `n'` it produces. */
  lemma AttachValid(st: Store, n: Ids, x: ObjId, st': Store, n': Ids)
    requires RuntimeOk(st, n) && x in st.objs && st.objs[x].ob.None?
    requires st.objs[x].extensible && !st.objs[x].isVNode
    requires st' == Store(Attached(st.objs, x, n.obs), st.observers[n.obs := ObserverRec(x, n.dep, 0)], st.slots, st.rank)
    requires n' == Ids(n.obj, n.obs + 1, n.dep + 1, n.slot)
    ensures n.obs !in st.observers && RuntimeOk(st', n')
  {
    var o' := st.objs[x].(ob := Some(n.obs));
    AttachOk(st, x, n.obs, n.dep);
    EligibleUpdate(st.objs, x, o');
    ObjIdsPut(st.objs, n.obj, x, o', n.obj);
    ObsIdsPut(st.observers, n.obs, n.dep, n.obs, ObserverRec(x, n.dep, 0), n.obs + 1, n.dep + 1);
    SlotIdsGrow(st.slots, n.slot, n.dep, n.dep + 1);
  }

  lemma CountValid(st: Store, n: Ids, b: ObsId)
    requires RuntimeOk(st, n) && b in st.observers
    ensures RuntimeOk(Store(st.objs, Counted(st.observers, b), st.slots, st.rank), n)
  {
    CountOk(st, b, st.observers[b].vmCount + 1);
    ObsIdsPut(st.observers, n.obs, n.dep, b, st.observers[b].(vmCount := st.observers[b].vmCount + 1), n.obs, n.dep);
  }

  lemma PatchValid(st: Store, n: Ids, x: ObjId)
    requires RuntimeOk(st, n) && x in st.objs && st.objs[x].ob.Some? && st.objs[x].kind.ArrayKind?
    ensures RuntimeOk(Store(Patched(st.objs, x), st.observers, st.slots, st.rank), n)
  {
    var o' := st.objs[x].(patched := true);
    PatchOk(st, x);
    EligibleUpdate(st.objs, x, o');
    ObjIdsPut(st.objs, n.obj, x, o', n.obj);
  }

  lemma DefineOwnValid(st: Store, n: Ids, x: ObjId, k: Key, p: Prop)
    requires RuntimeOk(st, n) && x in st.objs && PropFits(st, x, p)
    ensures RuntimeOk(Store(Defined(st.objs, x, k, p), st.observers, st.slots, st.rank), n)
  {
    var o := st.objs[x];
    ObjOkOf(st.objs, st.rank, x);
    WithPropOk(st.rank, x, o, k, p);
    WithPropAccessors(st.objs, st.slots, x, k, p);
    UpdateObjValid(st, n, x, WithProp(o, k, p));
  }

  lemma DeleteValid(st: Store, n: Ids, x: ObjId, k: Key)
    requires RuntimeOk(st, n) && x in st.objs
    ensures RuntimeOk(Store(Deleted(st.objs, x, k), st.observers, st.slots, st.rank), n)
  {
    var o := st.objs[x];
    ObjOkOf(st.objs, st.rank, x);
    WithoutPropOk(st.rank, x, o, k);
    WithoutPropAccessors(st.objs, st.slots, x, k);
    UpdateObjValid(st, n, x, WithoutProp(o, k));
  }

  lemma WriteInternalValid(st: Store, n: Ids, x: ObjId, f: Key, v: Value)
    requires RuntimeOk(st, n) && x in st.objs && Below(st.rank, v, st.rank[x])
    ensures RuntimeOk(Store(Stored(st.objs, x, f, v), st.observers, st.slots, st.rank), n)
  {
    var o := st.objs[x];
    var o' := o.(internal := o.internal[f := v]);
    ObjOkOf(st.objs, st.rank, x);
    InternalOk(st.rank, x, o, f, v);
    AccessorsOf(st.objs, st.slots, x);
    UpdateObjValid(st, n, x, o');
  }

  lemma SetElemsValid(st: Store, n: Ids, x: ObjId, es: seq<Value>)
    requires RuntimeOk(st, n) && x in st.objs
    requires forall i :: 0 <= i < |es| ==> Below(st.rank, es[i], st.rank[x])
    ensures RuntimeOk(Store(Replaced(st.objs, x, es), st.observers, st.slots, st.rank), n)
  {
    var o := st.objs[x];
    ObjOkOf(st.objs, st.rank, x);
    ElemsOk(st.rank, x, o, es);
    AccessorsOf(st.objs, st.slots, x);
    UpdateObjValid(st, n, x, o.(elems := es));
  }

  lemma AddSlotValid(st: Store, n: Ids, sl: Slot)
    requires RuntimeOk(st, n) && SlotOk(st.observers, st.rank, sl) && sl.dep < n.dep
    requires FnOwned(st.slots, sl.getter, sl.owner) && FnOwned(st.slots, sl.setter, sl.owner)
    ensures n.slot !in st.slots
    ensures RuntimeOk(Store(st.objs, st.observers, st.slots[n.slot := sl], st.rank), Ids(n.obj, n.obs, n.dep, n.slot + 1))
  {
    AddSlotOk(st, n.slot, sl);
    SlotIdsPut(st.slots, n.slot, n.dep, n.slot, sl, n.slot + 1);
  }

  lemma WriteSlotValid(st: Store, n: Ids, s: SlotId, v: Value, c: Option<ObsId>)
    requires RuntimeOk(st, n) && s in st.slots
    requires Below(st.rank, v, st.rank[st.slots[s].owner]) && (c.Some? ==> c.value in st.observers)
    ensures RuntimeOk(Store(st.objs, st.observers, Written(st.slots, s, v, c), st.rank), n)
  {
    var sl := st.slots[s];
    SlotOkOf(st.observers, st.rank, st.slots, s);
    UpdateSlotOk(st, s, v, c);
    SlotIdsPut(st.slots, n.slot, n.dep, s, sl.(val := v, childOb := c), n.slot);
  }

  lemma ObjOkOf(objs: map<ObjId, Obj>, rank: map<ObjId, nat>, x: ObjId)
    requires ObjsOk(objs, rank) && Ranked(objs, rank) && x in objs
    ensures x in rank && ObjOk(rank, x, objs[x])
  {
  }

  lemma SlotOkOf(observers: map<ObsId, ObserverRec>, rank: map<ObjId, nat>, slots: map<SlotId, Slot>, s: SlotId)
    requires SlotsOk(observers, rank, slots) && s in slots
    ensures SlotOk(observers, rank, slots[s])
  {
  }

  lemma AccessorsOf(objs: map<ObjId, Obj>, slots: map<SlotId, Slot>, x: ObjId)
    requires AccessorsOwned(objs, slots) && x in objs
    ensures forall k :: k in objs[x].props ==> FnOwned(slots, GetterOf(objs[x].props[k]), x) && FnOwned(slots, SetterOf(objs[x].props[k]), x)
  {
  }

  lemma WithPropAccessors(objs: map<ObjId, Obj>, slots: map<SlotId, Slot>, x: ObjId, k: Key, p: Prop)
    requires AccessorsOwned(objs, slots) && x in objs
    requires FnOwned(slots, GetterOf(p), x) && FnOwned(slots, SetterOf(p), x)
    ensures var o' := WithProp(objs[x], k, p);
            forall j :: j in o'.props ==> FnOwned(slots, GetterOf(o'.props[j]), x) && FnOwned(slots, SetterOf(o'.props[j]), x)
  {
    AccessorsOf(objs, slots, x);
  }

  lemma WithoutPropAccessors(objs: map<ObjId, Obj>, slots: map<SlotId, Slot>, x: ObjId, k: Key)
    requires AccessorsOwned(objs, slots) && x in objs
    ensures var o' := WithoutProp(objs[x], k);
            forall j :: j in o'.props ==> FnOwned(slots, GetterOf(o'.props[j]), x) && FnOwned(slots, SetterOf(o'.props[j]), x)
  {
    AccessorsOf(objs, slots, x);
  }

  lemma InternalOk(rank: map<ObjId, nat>, x: ObjId, o: Obj, f: Key, v: Value)
    requires x in rank && ObjOk(rank, x, o) && Below(rank, v, rank[x])
    ensures ObjOk(rank, x, o.(internal := o.internal[f := v]))
  {
  }

  lemma ElemsOk(rank: map<ObjId, nat>, x: ObjId, o: Obj, es: seq<Value>)
    requires x in rank && ObjOk(rank, x, o) && forall i :: 0 <= i < |es| ==> Below(rank, es[i], rank[x])
    ensures ObjOk(rank, x, o.(elems := es))
  {
  }
}
