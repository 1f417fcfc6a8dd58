/**
 * What observing does, proved about the functions of `Observing`: which
 * values get an Observer, which one `observe` returns, how root data is
 * counted, that observing twice changes nothing more, and what the Observer
 * constructor, `observeArray`, `walk` and `defineReactive` leave behind.
 */
module ObserveFacts {
  import opened Wrappers
  import opened Values
  import opened Heap
  import opened Steps
  import opened Growth
  import opened Observing
  import opened Fated

  /**
   * `observe(v, asRootData)` returns an Observer exactly for an object that is
   * no VNode and has one already or passes the gate; an existing Observer is
   * the one returned, a new one is fresh, and root data counts one more use.
   */
  lemma ObserveResult(w: World, v: Value, asRoot: bool, so: bool, t: Option<SubId>)
    requires WorldOk(w) && (v.Ref? ==> v.id in w.st.objs)
    ensures var r := ObserveW(w, v, asRoot, so, t);
      && (r.ob.Some? <==> v.Ref? && Observable(w.st.objs[v.id], so))
      && (v.Ref? && w.st.objs[v.id].ob.Some? ==> r.ob == w.st.objs[v.id].ob)
      && (v.Ref? && w.st.objs[v.id].ob.None? && r.ob.Some? ==> r.ob == Some(w.ids.obs) && w.ids.obs !in w.st.observers)
      && (r.ob.Some? ==> r.w.st.observers[r.ob.value].value == v.id)
      && (r.ob.Some? ==>
            var before := if r.ob.value in w.st.observers then w.st.observers[r.ob.value].vmCount else 0;
            r.w.st.observers[r.ob.value].vmCount == before + (if asRoot then 1 else 0))
  {
    ObserveFated(w, v, asRoot, so, t);
    if v.Ref? && !w.st.objs[v.id].isVNode {
      if w.st.objs[v.id].ob.Some? {
      } else if Eligible(w.st.objs[v.id], so) {
        NewObserverFated(w, v.id, so, t);
        assert w.ids.obs !in w.st.observers;
      }
    }
  }

  /**
   * `observe` of an object that already carries an Observer returns that
   * Observer and changes nothing else: as root data it only counts one more
   * Vue instance in that Observer's `vmCount`.
   */
  lemma ObserveExisting(w: World, v: Value, asRoot: bool, so: bool, t: Option<SubId>)
    requires WorldOk(w) && v.Ref? && v.id in w.st.objs && !w.st.objs[v.id].isVNode && w.st.objs[v.id].ob.Some?
    ensures var b := w.st.objs[v.id].ob.value;
      var r := ObserveW(w, v, asRoot, so, t);
      && b in w.st.observers && r.ob == Some(b)
      && r.w == if asRoot then w.(st := w.st.(observers := w.st.observers[b := w.st.observers[b].(vmCount := w.st.observers[b].vmCount + 1)]))
                else w
  {
  }

  /** Without a root count and without a new Observer, `observe` changes nothing at all. */
  lemma ObserveRefuses(w: World, v: Value, asRoot: bool, so: bool, t: Option<SubId>)
    requires WorldOk(w) && (v.Ref? ==> v.id in w.st.objs)
    requires !v.Ref? || w.st.objs[v.id].isVNode || (w.st.objs[v.id].ob.None? && !Eligible(w.st.objs[v.id], so))
    ensures ObserveW(w, v, asRoot, so, t) == Observed(w, None)
  {
  }

  /** Observing a settled value returns the Observer it carries and changes nothing. */
  lemma SettledObserve(w: World, v: Value, so: bool, t: Option<SubId>)
    requires WorldOk(w) && (v.Ref? ==> v.id in w.st.objs) && Settled(w.st, v, so)
    ensures ObserveW(w, v, false, so, t) == Observed(w, ObOf(w.st, v))
  {
  }

  /**
   * After `observe(v)`, `v` is settled, and observing it again returns the
   * same Observer and changes nothing.
   */
  lemma ObserveIdempotent(w: World, v: Value, asRoot: bool, so: bool, t: Option<SubId>)
    requires WorldOk(w) && (v.Ref? ==> v.id in w.st.objs)
    ensures var r := ObserveW(w, v, asRoot, so, t);
      && Settled(r.w.st, v, so)
      && ObserveW(r.w, v, false, so, t) == Observed(r.w, r.ob)
  {
    var r := ObserveW(w, v, asRoot, so, t);
    ObserveFated(w, v, asRoot, so, t);
    SettledObserve(r.w, v, so, t);
  }

  /** After `observeArray(items)`, observing any of the items again changes nothing. */
  lemma ObserveArrayIdempotent(w: World, items: seq<Value>, n: nat, so: bool, t: Option<SubId>, j: nat)
    requires WorldOk(w) && j < |items| && forall i :: 0 <= i < |items| ==> Below(w.st.rank, items[i], n)
    ensures var r := ObserveArrayW(w, items, |items|, n, so, t);
      && (items[j].Ref? ==> items[j].id in r.st.objs)
      && ObserveW(r, items[j], false, so, t) == Observed(r, ObOf(r.st, items[j]))
  {
    var r := ObserveArrayW(w, items, |items|, n, so, t);
    ObserveArrayFated(w, items, |items|, n, so, t);
    assert Below(w.st.rank, items[j], n);
    assert Settled(r.st, items[j], so);
    SettledObserve(r, items[j], so, t);
  }

  /**
   * The Observer constructor on an array: the array gets the interceptor, and
   * every element is settled, so each one that may be observed now carries an
   * Observer. The array's elements themselves are not changed.
   */
  lemma NewObserverArray(w: World, x: ObjId, so: bool, t: Option<SubId>)
    requires WorldOk(w) && x in w.st.objs && w.st.objs[x].ob.None? && Eligible(w.st.objs[x], so)
    requires !w.st.objs[x].isVNode && w.st.objs[x].kind.ArrayKind?
    ensures var r := NewObserverW(w, x, so, t);
      var items := w.st.objs[x].elems;
      && r.st.objs[x].patched && r.st.objs[x].elems == items
      && AllSettled(r.st, items, |items|, so)
  {
    var w1 := AttachW(w, x);
    var w2 := PatchW(w1, x);
    ObjOkOf(w2.st.objs, w2.st.rank, x);
    var items := w2.st.objs[x].elems;
    var r := ObserveArrayW(w2, items, |items|, w.st.rank[x], so, t);
    ObserveArrayFated(w2, items, |items|, w.st.rank[x], so, t);
    assert ObjFate(w2.st, r.st, x, so, w.st.rank[x]);
  }

  /** `defineReactive` leaves a non-configurable property, and everything else, as it was; it only uses up a dep id. */
  lemma DefineReactiveSkips(w: World, x: ObjId, k: Key, given: Option<Value>, shallow: bool, so: bool, t: Option<SubId>)
    requires WorldOk(w) && x in w.st.objs && x in w.st.rank
    requires given.Some? ==> Below(w.st.rank, given.value, w.st.rank[x])
    requires NonConfigurable(w.st.objs[x], k)
    ensures DefineReactiveW(w, x, k, given, shallow, so, t) == w.(ids := w.ids.(dep := w.ids.dep + 1))
  {
  }

  /**
   * The binding half of `defineReactive` when shallow: the pair is installed
   * over the value alone; where `Object.defineProperty` throws, nothing changes.
   */
  lemma BindShallow(w: World, x: ObjId, k: Key, p: Option<Prop>, val: Value, dep: DepId, so: bool,
                     t: Option<SubId>)
    requires WorldOk(w) && x in w.st.objs && x in w.st.rank && Below(w.st.rank, val, w.st.rank[x]) && dep < w.ids.dep
    requires FnOwned(w.st.slots, GetterIn(p), x) && FnOwned(w.st.slots, SetterIn(p), x)
    ensures var r := BindW(w, x, k, p, val, true, dep, so, t);
      && (Definable(w.st.objs[x], p) ==> r.log == w.log && Bound(w.st, r.st, x, k, Slot(x, dep, val, None, GetterIn(p), SetterIn(p), true)))
      && (!Definable(w.st.objs[x], p) ==> r == w)
  {
    if Definable(w.st.objs[x], p) {
      InstallBinds(w.st, w, x, k, Slot(x, dep, val, None, GetterIn(p), SetterIn(p), true), val);
    }
  }

  /**
   * The binding half of `defineReactive` otherwise: the value is observed
   * first, and the pair keeps its Observer; where `Object.defineProperty`
   * throws, only the observing has happened.
   */
  lemma BindDeep(w: World, x: ObjId, k: Key, p: Option<Prop>, val: Value, dep: DepId, so: bool,
                     t: Option<SubId>)
    requires WorldOk(w) && x in w.st.objs && x in w.st.rank && Below(w.st.rank, val, w.st.rank[x]) && dep < w.ids.dep
    requires FnOwned(w.st.slots, GetterIn(p), x) && FnOwned(w.st.slots, SetterIn(p), x)
    ensures var r := BindW(w, x, k, p, val, false, dep, so, t);
      && (Definable(w.st.objs[x], p) ==> r.log == w.log && Bound(w.st, r.st, x, k, Slot(x, dep, val, ObOf(r.st, val), GetterIn(p), SetterIn(p), false)))
      && (!Definable(w.st.objs[x], p) ==> r == ObserveW(w, val, false, so, t).w)
  {
    BindWDeep(w, x, k, p, val, dep, so, t);
    if Definable(w.st.objs[x], p) {
      var o := ObserveW(w, val, false, so, t);
      ObserveFated(w, val, false, so, t);
      ObservedKeepsOwner(w, o.w, x, so, Reach(w.st.rank, val));
      InstallBinds(w.st, o.w, x, k, Slot(x, dep, val, o.ob, GetterIn(p), SetterIn(p), false), val);
    }
  }

  /** Observing a value ranked below `x` keeps `x` as it was, and the slots. */
  lemma ObservedKeepsOwner(a: World, b: World, x: ObjId, so: bool, r: int)
    requires x in a.st.objs && x in a.st.rank && a.st.rank[x] >= r && Fates(a.st, b.st, so, r) && Kept(a, b)
    ensures x in b.st.objs && b.st.objs[x] == a.st.objs[x] && SlotsKept(a.st, b.st)
  {
    assert ObjFate(a.st, b.st, x, so, r);
  }

  /** Installing slot `sl` in `o`, which kept `x` and the slots of `a`: property `k` is bound over `a`. */
  lemma InstallBinds(a: Store, o: World, x: ObjId, k: Key, sl: Slot, v: Value)
    requires WorldOk(o) && x in o.st.objs && sl.owner == x && SlotOk(o.st.observers, o.st.rank, sl) && sl.dep < o.ids.dep
    requires FnOwned(o.st.slots, sl.getter, x) && FnOwned(o.st.slots, sl.setter, x)
    requires x in a.objs && o.st.objs[x] == a.objs[x] && SlotsKept(a, o.st)
    ensures var r := InstallW(o, x, k, sl);
      && r.log == o.log && r.ids.slot == o.ids.slot + 1
      && BoundIn(a, r.st, x, k, o.ids.slot, sl) && ObOf(r.st, v) == ObOf(o.st, v)
  {
    InstallWShape(o, x, k, sl);
    BoundByInstall(a, o.st, InstallW(o, x, k, sl).st, x, k, o.ids.slot, sl, v);
  }

  /**
   * `defineReactive` on a configurable or absent property: property `k` of
   * `x` becomes the reactive getter/setter pair of a fresh slot, which closes
   * over the fresh dep, the value (the one given, else the property's current
   * value unless it is getter-only), the Observer of that value (none when
   * shallow) and the property's former getter and setter. Nothing else of `x`
   * changes, and nothing is notified. An absent key of a non-extensible
   * object is where `Object.defineProperty` throws: `x` stays as it was.
   */
  lemma DefineReactiveBinds(w: World, x: ObjId, k: Key, given: Option<Value>, shallow: bool, so: bool, t: Option<SubId>)
    requires WorldOk(w) && x in w.st.objs && x in w.st.rank
    requires given.Some? ==> Below(w.st.rank, given.value, w.st.rank[x])
    requires !NonConfigurable(w.st.objs[x], k)
    ensures var r := DefineReactiveW(w, x, k, given, shallow, so, t);
      var p := OwnProp(w.st.objs[x], k);
      var val := BindValue(w.st, x, k, given);
      && r.log == w.log && x in r.st.objs
      && (Definable(w.st.objs[x], p) ==>
            Bound(w.st, r.st, x, k, Slot(x, w.ids.dep, val, if shallow then None else ObOf(r.st, val), GetterIn(p), SetterIn(p), shallow)))
      && (!Definable(w.st.objs[x], p) ==> r.st.objs[x] == w.st.objs[x])
  {
    var p := OwnProp(w.st.objs[x], k);
    var val := BindValue(w.st, x, k, given);
    var w2 := BindWorld(w, x, k, given, t);
    DefineReactiveWBinds(w, x, k, given, shallow, so, t);
    BindBinds(w2, x, k, p, val, shallow, w.ids.dep, so, t);
    if !Definable(w.st.objs[x], p) && !shallow {
      ObserveFated(w2, val, false, so, t);
      ObservedKeepsOwner(w2, ObserveW(w2, val, false, so, t).w, x, so, Reach(w2.st.rank, val));
    }
  }

  /** The binding half of `defineReactive`, shallow or not; nothing is installed where `Object.defineProperty` throws. */
  lemma BindBinds(w: World, x: ObjId, k: Key, p: Option<Prop>, val: Value, shallow: bool, dep: DepId, so: bool,
                  t: Option<SubId>)
    requires WorldOk(w) && x in w.st.objs && x in w.st.rank && Below(w.st.rank, val, w.st.rank[x]) && dep < w.ids.dep
    requires FnOwned(w.st.slots, GetterIn(p), x) && FnOwned(w.st.slots, SetterIn(p), x)
    ensures var r := BindW(w, x, k, p, val, shallow, dep, so, t);
      && r.log == w.log
      && (Definable(w.st.objs[x], p) ==>
            Bound(w.st, r.st, x, k, Slot(x, dep, val, if shallow then None else ObOf(r.st, val), GetterIn(p), SetterIn(p), shallow)))
      && (!Definable(w.st.objs[x], p) ==> r == if shallow then w else ObserveW(w, val, false, so, t).w)
  {
    if shallow {
      BindShallow(w, x, k, p, val, dep, so, t);
    } else {
      BindDeep(w, x, k, p, val, dep, so, t);
    }
  }
}
