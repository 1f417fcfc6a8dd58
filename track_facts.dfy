/**
 * What a read subscribes the active subscriber to, proved about `Tracked`
 * and `ArrayDeps`: the property's own dep, the child Observer's dep, the dep
 * of every Observer `dependArray` meets among the elements of an array value
 * and, recursively, of nested arrays — and nothing but deps of properties and
 * Observers of the heap.
 */
module TrackFacts {
  import opened Wrappers
  import opened Values
  import opened Heap

  /** Every element contributes what lies within it to the deps of the first `n` elements, once it is among them. */
  lemma {:induction false} ElemsDepsGrow(st: Store, a: ObjId, i: nat, n: nat)
    requires HeapOk(st) && a in st.objs && i < n <= |st.objs[a].elems|
    ensures var e := st.objs[a].elems[i];
      (e.Ref? ==> e.id in st.objs) && ElemDeps(st, e) <= ElemsDeps(st, a, n)
    decreases n
  {
    ElemBelow(st, a, i);
    ElemsDepsStep(st, a, n - 1);
    if i < n - 1 {
      ElemsDepsGrow(st, a, i, n - 1);
    }
  }

  /**
   * `dependArray(a)` reaches the dep of the Observer of every element that has
   * one, and everything it reaches inside every element that is an array.
   */
  lemma ArrayDepsReach(st: Store, a: ObjId, i: nat)
    requires HeapOk(st) && a in st.objs && i < |st.objs[a].elems|
    ensures var e := st.objs[a].elems[i];
      && (e.Ref? ==> e.id in st.objs)
      && (e.Ref? && st.objs[e.id].ob.Some? ==>
            st.objs[e.id].ob.value in st.observers && st.observers[st.objs[e.id].ob.value].dep in ArrayDeps(st, a))
      && (e.Ref? && st.objs[e.id].kind.ArrayKind? ==> ArrayDeps(st, e.id) <= ArrayDeps(st, a))
  {
    ElemsDepsGrow(st, a, i, |st.objs[a].elems|);
  }

  /** `dependArray(a)` subscribes only to deps of Observers. */
  lemma {:induction false} ArrayDepsObserved(st: Store, a: ObjId)
    requires HeapOk(st) && a in st.objs
    ensures ArrayDeps(st, a) <= ObserverDeps(st.observers)
    decreases st.rank[a] + 1, 1
  {
    ElemsDepsObserved(st, a, |st.objs[a].elems|);
  }

  lemma {:induction false} ElemsDepsObserved(st: Store, a: ObjId, n: nat)
    requires HeapOk(st) && a in st.objs && n <= |st.objs[a].elems|
    ensures ElemsDeps(st, a, n) <= ObserverDeps(st.observers)
    decreases st.rank[a] + 1, 0, n
  {
    if n > 0 {
      ElemsDepsObserved(st, a, n - 1);
      ElemsDepsStep(st, a, n - 1);
      ElemBelow(st, a, n - 1);
      var e := st.objs[a].elems[n - 1];
      if e.Ref? && st.objs[e.id].ob.Some? && st.objs[e.id].ob.value in st.observers {
        assert st.observers[st.objs[e.id].ob.value].dep in ObserverDeps(st.observers);
      }
      if e.Ref? && st.objs[e.id].kind.ArrayKind? {
        ArrayDepsObserved(st, e.id);
      }
    }
  }

  /**
   * The reactive getter of slot `s` subscribes to the property's dep, to the
   * child Observer's dep when there is one and, when the value is an array,
   * to what `dependArray` reaches from it, after what its captured getter
   * subscribes to.
   */
  lemma TrackedReaches(st: Store, s: SlotId)
    requires HeapOk(st) && s in st.slots
    ensures var sl := st.slots[s];
      && sl.dep in Tracked(st, s)
      && (sl.getter.Some? && sl.getter.value.ReactiveFn? ==>
            sl.getter.value.slot in st.slots && Tracked(st, sl.getter.value.slot) <= Tracked(st, s))
      && (sl.childOb.Some? ==> sl.childOb.value in st.observers && st.observers[sl.childOb.value].dep in Tracked(st, s))
      && var v := SlotValue(st, s);
      && (sl.childOb.Some? && v.Ref? && v.id in st.objs && st.objs[v.id].kind.ArrayKind? ==>
            ArrayDeps(st, v.id) <= Tracked(st, s))
  {
    assert SlotOk(st.observers, st.rank, st.slots[s]);
    assert Link(st.slots, s, st.slots[s].getter);
  }

  /** A read subscribes only to deps of reactive properties and of Observers. */
  lemma {:induction false} TrackedInHeap(st: Store, s: SlotId)
    requires HeapOk(st) && s in st.slots
    ensures Tracked(st, s) <= SlotDeps(st.slots) + ObserverDeps(st.observers)
    decreases s
  {
    var sl := st.slots[s];
    assert SlotOk(st.observers, st.rank, sl);
    assert Link(st.slots, s, sl.getter);
    assert sl.dep in SlotDeps(st.slots);
    if sl.getter.Some? && sl.getter.value.ReactiveFn? {
      TrackedInHeap(st, sl.getter.value.slot);
    }
    var v := SlotValue(st, s);
    if sl.childOb.Some? {
      assert st.observers[sl.childOb.value].dep in ObserverDeps(st.observers);
      if v.Ref? && v.id in st.objs && st.objs[v.id].kind.ArrayKind? {
        ArrayDepsObserved(st, v.id);
      }
    }
  }

  /**
   * Reading own property `key` of `x` subscribes to nothing for a data
   * property or a missing key, and to what the reactive getter subscribes to
   * for a reactive property; without an active subscriber nothing changes.
   */
  lemma PropTrackedCases(st: Store, x: ObjId, key: Key, s: SlotId, m: map<DepId, set<SubId>>)
    requires HeapOk(st) && x in st.objs
    ensures (key !in st.objs[x].props || st.objs[x].props[key].Data?) ==> PropTracked(st, x, key) == {}
    ensures key in st.objs[x].props && st.objs[x].props[key] == ReactiveProp(s) && s in st.slots ==>
      PropTracked(st, x, key) == Tracked(st, s)
    ensures Subscribed(m, PropTracked(st, x, key), None) == m
  {
  }
}
