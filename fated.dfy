/**
 * How far each step of observing reaches into the heap: `observe(v)` changes
 * only objects ranked up to `v`'s, keeps what every object keeps for life
 * (`Fates`), touches no Observer unless `v` is root data, and leaves `v`
 * settled. One lemma per function of `Observing`, by the same recursion.
 */
module Fated {
  import opened Wrappers
  import opened Values
  import opened Heap
  import opened Steps
  import opened Growth
  import opened Observing

  /** `observe(v)`: the Observer returned is the one `v` carries afterwards; the reach of the change; `v` is settled. */
  lemma ObserveFated(w: World, v: Value, asRoot: bool, so: bool, t: Option<SubId>)
    requires WorldOk(w) && (v.Ref? ==> v.id in w.st.objs)
    ensures var r := ObserveW(w, v, asRoot, so, t);
      && r.ob == ObOf(r.w.st, v)
      && Fates(w.st, r.w.st, so, Reach(w.st.rank, v)) && (!asRoot ==> ObsFates(w.st, r.w.st)) && Settled(r.w.st, v, so)
    decreases Reach(w.st.rank, v), 3
  {
    if !v.Ref? || w.st.objs[v.id].isVNode || (w.st.objs[v.id].ob.None? && !Eligible(w.st.objs[v.id], so)) {
      FatesRefl(w.st, so, Reach(w.st.rank, v));
    } else if w.st.objs[v.id].ob.Some? {
      if asRoot {
        CountFated(w.st, w.st.objs[v.id].ob.value, so);
      } else {
        FatesRefl(w.st, so, Reach(w.st.rank, v));
      }
    } else {
      var w1 := NewObserverW(w, v.id, so, t);
      NewObserverFated(w, v.id, so, t);
      if asRoot {
        CountFated(w1.st, w.ids.obs, so);
        FatesTrans(w.st, w1.st, CountW(w1, w.ids.obs).st, so, Reach(w.st.rank, v), 0, Reach(w.st.rank, v));
      }
    }
  }

  /** The Observer constructor: `x` carries the fresh Observer, which is as created; the reach of the change. */
  lemma NewObserverFated(w: World, x: ObjId, so: bool, t: Option<SubId>)
    requires WorldOk(w) && x in w.st.objs && w.st.objs[x].ob.None? && Eligible(w.st.objs[x], so)
    requires !w.st.objs[x].isVNode
    ensures var r := NewObserverW(w, x, so, t);
      && r.st.objs[x].ob == Some(w.ids.obs) && r.st.observers[w.ids.obs] == ObserverRec(x, w.ids.dep, 0)
      && Fates(w.st, r.st, so, Reach(w.st.rank, Ref(x))) && ObsFates(w.st, r.st)
    decreases Reach(w.st.rank, Ref(x)), 2
  {
    var R := Reach(w.st.rank, Ref(x));
    var w1 := AttachW(w, x);
    AttachFated(w.st, x, w.ids.obs, w.ids.dep, so);
    ObjOkOf(w1.st.objs, w1.st.rank, x);
    if w.st.objs[x].kind.ArrayKind? {
      var w2 := PatchW(w1, x);
      PatchFated(w1.st, x, so);
      ObjOkOf(w2.st.objs, w2.st.rank, x);
      var items := w2.st.objs[x].elems;
      var r := ObserveArrayW(w2, items, |items|, w.st.rank[x], so, t);
      ObserveArrayFated(w2, items, |items|, w.st.rank[x], so, t);
      FatesTrans(w.st, w1.st, w2.st, so, R, R, R);
      FatesTrans(w.st, w2.st, r.st, so, R, w.st.rank[x], R);
      ObsFatesTrans(w.st, w1.st, w2.st);
      ObsFatesTrans(w.st, w2.st, r.st);
      assert ObjFate(w2.st, r.st, x, so, w.st.rank[x]) && ObsFate(w2.st, r.st, w.ids.obs);
    } else {
      var keys := EnumerableKeys(w1.st.objs[x].keys, w1.st.objs[x].props);
      var r := WalkW(w1, x, keys, |keys|, so, t);
      WalkFated(w1, x, keys, |keys|, so, t);
      FatesTrans(w.st, w1.st, r.st, so, R, R, R);
      ObsFatesTrans(w.st, w1.st, r.st);
      assert ObjFate(w1.st, r.st, x, so, R) && ObsFate(w1.st, r.st, w.ids.obs);
    }
  }

  /** `walk`: the reach of the change is that of `x`, and no Observer changes. */
  lemma WalkFated(w: World, x: ObjId, keys: seq<Key>, i: nat, so: bool, t: Option<SubId>)
    requires WorldOk(w) && x in w.st.objs && x in w.st.rank && i <= |keys|
    ensures var r := WalkW(w, x, keys, i, so, t);
      Fates(w.st, r.st, so, Reach(w.st.rank, Ref(x))) && ObsFates(w.st, r.st)
    decreases Reach(w.st.rank, Ref(x)), 1, i
  {
    if i == 0 {
      FatesRefl(w.st, so, Reach(w.st.rank, Ref(x)));
    } else {
      var w1 := WalkW(w, x, keys, i - 1, so, t);
      WalkFated(w, x, keys, i - 1, so, t);
      var r := DefineReactiveW(w1, x, keys[i - 1], None, false, so, t);
      DefineReactiveFated(w1, x, keys[i - 1], None, false, so, t);
      FatesTrans(w.st, w1.st, r.st, so, Reach(w.st.rank, Ref(x)), Reach(w.st.rank, Ref(x)), Reach(w.st.rank, Ref(x)));
      ObsFatesTrans(w.st, w1.st, r.st);
    }
  }

  /** What one more `observe(items[i - 1])` adds to the first `i - 1` rounds of `observeArray`. */
  lemma ObserveArrayStep(w: World, w1: World, r: World, items: seq<Value>, i: nat, n: nat, so: bool)
    requires 0 < i <= |items| && Kept(w, w1) && Kept(w1, r) && Reach(w1.st.rank, items[i - 1]) <= n
    requires Fates(w.st, w1.st, so, n) && ObsFates(w.st, w1.st) && AllSettled(w1.st, items, i - 1, so)
    requires Fates(w1.st, r.st, so, Reach(w1.st.rank, items[i - 1])) && ObsFates(w1.st, r.st) && Settled(r.st, items[i - 1], so)
    ensures Fates(w.st, r.st, so, n) && ObsFates(w.st, r.st) && AllSettled(r.st, items, i, so)
  {
    AllSettledKept(w1.st, r.st, items, i - 1, so, Reach(w1.st.rank, items[i - 1]));
    AllSettledNext(r.st, items, i - 1, so);
    FatesTrans(w.st, w1.st, r.st, so, n, Reach(w1.st.rank, items[i - 1]), n);
    ObsFatesTrans(w.st, w1.st, r.st);
  }

  /** `observeArray`: objects ranked `n` or more are untouched, no Observer changes, and the first `i` items are settled. */
  lemma ObserveArrayFated(w: World, items: seq<Value>, i: nat, n: nat, so: bool, t: Option<SubId>)
    requires WorldOk(w) && i <= |items| && forall j :: 0 <= j < |items| ==> Below(w.st.rank, items[j], n)
    ensures var r := ObserveArrayW(w, items, i, n, so, t);
      Fates(w.st, r.st, so, n) && ObsFates(w.st, r.st) && AllSettled(r.st, items, i, so)
    decreases n, 4, i
  {
    if i == 0 {
      FatesRefl(w.st, so, n);
    } else {
      var w1 := ObserveArrayW(w, items, i - 1, n, so, t);
      ObserveArrayFated(w, items, i - 1, n, so, t);
      assert Below(w1.st.rank, items[i - 1], n);
      var r := ObserveW(w1, items[i - 1], false, so, t).w;
      ObserveFated(w1, items[i - 1], false, so, t);
      ObserveArrayStep(w, w1, r, items, i, n, so);
    }
  }

  /** `defineReactive`: the reach of the change is that of `x`, and no Observer changes. */
  lemma DefineReactiveFated(w: World, x: ObjId, k: Key, given: Option<Value>, shallow: bool, so: bool, t: Option<SubId>)
    requires WorldOk(w) && x in w.st.objs && x in w.st.rank
    requires given.Some? ==> Below(w.st.rank, given.value, w.st.rank[x])
    ensures var r := DefineReactiveW(w, x, k, given, shallow, so, t);
      Fates(w.st, r.st, so, Reach(w.st.rank, Ref(x))) && ObsFates(w.st, r.st)
    decreases Reach(w.st.rank, Ref(x)), 0, 2
  {
    if NonConfigurable(w.st.objs[x], k) {
      FatesRefl(w.st, so, Reach(w.st.rank, Ref(x)));
    } else {
      var w2 := BindWorld(w, x, k, given, t);
      CapturedOwned(w, w2, x, k);
      BindFated(w2, x, k, OwnProp(w.st.objs[x], k), BindValue(w.st, x, k, given), shallow, w.ids.dep, so, t);
    }
  }

  /** The binding half of `defineReactive`: the reach of the change is that of `x`, and no Observer changes. */
  lemma BindFated(w: World, x: ObjId, k: Key, p: Option<Prop>, val: Value, shallow: bool, dep: DepId, so: bool,
                  t: Option<SubId>)
    requires WorldOk(w) && x in w.st.objs && x in w.st.rank && Below(w.st.rank, val, w.st.rank[x]) && dep < w.ids.dep
    requires FnOwned(w.st.slots, GetterIn(p), x) && FnOwned(w.st.slots, SetterIn(p), x)
    ensures var r := BindW(w, x, k, p, val, shallow, dep, so, t);
      Fates(w.st, r.st, so, Reach(w.st.rank, Ref(x))) && ObsFates(w.st, r.st)
    decreases Reach(w.st.rank, Ref(x)), 0, 1
  {
    if shallow && Definable(w.st.objs[x], p) {
      InstallWFated(w, x, k, Slot(x, dep, val, None, GetterIn(p), SetterIn(p), true), so);
    } else if shallow {
      FatesRefl(w.st, so, Reach(w.st.rank, Ref(x)));
    } else {
      BindDeepFated(w, x, k, p, val, dep, so, t);
    }
  }

  lemma BindDeepFated(w: World, x: ObjId, k: Key, p: Option<Prop>, val: Value, dep: DepId, so: bool, t: Option<SubId>)
    requires WorldOk(w) && x in w.st.objs && x in w.st.rank && Below(w.st.rank, val, w.st.rank[x]) && dep < w.ids.dep
    requires FnOwned(w.st.slots, GetterIn(p), x) && FnOwned(w.st.slots, SetterIn(p), x)
    ensures var r := BindW(w, x, k, p, val, false, dep, so, t);
      Fates(w.st, r.st, so, Reach(w.st.rank, Ref(x))) && ObsFates(w.st, r.st)
    decreases Reach(w.st.rank, Ref(x)), 0, 0
  {
    {
      var o := ObserveW(w, val, false, so, t);
      ObserveFated(w, val, false, so, t);
      BindWDeep(w, x, k, p, val, dep, so, t);
      if Definable(w.st.objs[x], p) {
        InstallAfter(w.st, o.w, x, k, Slot(x, dep, val, o.ob, GetterIn(p), SetterIn(p), false), so, Reach(w.st.rank, val));
      } else {
        FatesRefl(o.w.st, so, 0);
        FatesTrans(w.st, o.w.st, o.w.st, so, Reach(w.st.rank, val), 0, Reach(w.st.rank, Ref(x)));
      }
    }
  }

  /** Installing a slot after a change of reach `r0`, at most that of `x`: the reach of the whole is that of `x`. */
  lemma InstallAfter(a: Store, o: World, x: ObjId, k: Key, sl: Slot, so: bool, r0: int)
    requires WorldOk(o) && x in o.st.objs && sl.owner == x && SlotOk(o.st.observers, o.st.rank, sl) && sl.dep < o.ids.dep
    requires FnOwned(o.st.slots, sl.getter, x) && FnOwned(o.st.slots, sl.setter, x)
    requires o.st.rank == a.rank && r0 <= Reach(a.rank, Ref(x)) && Fates(a, o.st, so, r0) && ObsFates(a, o.st)
    ensures Fates(a, InstallW(o, x, k, sl).st, so, Reach(a.rank, Ref(x))) && ObsFates(a, InstallW(o, x, k, sl).st)
  {
    InstallWFated(o, x, k, sl, so);
    FatesTrans(a, o.st, InstallW(o, x, k, sl).st, so, r0, Reach(a.rank, Ref(x)), Reach(a.rank, Ref(x)));
    ObsFatesTrans(a, o.st, InstallW(o, x, k, sl).st);
  }

  lemma InstallWFated(w: World, x: ObjId, k: Key, sl: Slot, so: bool)
    requires WorldOk(w) && x in w.st.objs && sl.owner == x && SlotOk(w.st.observers, w.st.rank, sl) && sl.dep < w.ids.dep
    requires FnOwned(w.st.slots, sl.getter, x) && FnOwned(w.st.slots, sl.setter, x)
    ensures x in w.st.rank
    ensures Fates(w.st, InstallW(w, x, k, sl).st, so, Reach(w.st.rank, Ref(x))) && ObsFates(w.st, InstallW(w, x, k, sl).st)
  {
    ObjOkOf(w.st.objs, w.st.rank, x);
    InstallFated(w.st, x, k, ReactiveProp(w.ids.slot), w.ids.slot, sl, so);
  }
}
