/**
 * What `walk` leaves in a plain object: every own enumerable, configurable
 * property becomes a reactive getter/setter pair; the non-enumerable and the
 * non-configurable ones, the key order and the rest of the object stay as
 * they were.
 */
module WalkFacts {
  import opened Wrappers
  import opened Values
  import opened Heap
  import opened Steps
  import opened Growth
  import opened Observing
  import opened Fated
  import opened ObserveFacts

  /** A property installed by `defineReactive`: the getter and setter of one slot. */
  predicate IsReactive(p: Prop) {
    p.Accessor? && p.getFn.Some? && p.getFn.value.ReactiveFn? && p == ReactiveProp(p.getFn.value.slot)
  }

  /**
   * Object `o` is `o0` after `defineReactive` on each key of `done`: every
   * configurable property named in `done` is a reactive pair, every other
   * property is as it was, and nothing else of the object has changed.
   */
  predicate WalkedOver(o0: Obj, o: Obj, done: seq<Key>) {
    && o == o0.(props := o.props)
    && o.props.Keys == o0.props.Keys
    && forall k :: k in o0.props ==>
         if k in done && o0.props[k].configurable then IsReactive(o.props[k]) else o.props[k] == o0.props[k]
  }

  /** Binding property `k` replaces that property by a reactive pair and changes nothing else of the object. */
  lemma BoundIsReactive(a: Store, r: Store, x: ObjId, k: Key, sl: Slot)
    requires x in a.objs && Bound(a, r, x, k, sl) && k in a.objs[x].keys
    ensures x in r.objs && k in r.objs[x].props && IsReactive(r.objs[x].props[k])
    ensures r.objs[x] == a.objs[x].(props := a.objs[x].props[k := r.objs[x].props[k]])
  {
    var s :| BoundIn(a, r, x, k, s, sl);
  }

  /**
   * What `defineReactive(obj, k)` does to the object itself: nothing when the
   * property is non-configurable, and otherwise property `k` becomes a
   * reactive pair and nothing else changes.
   */
  predicate DefinedOver(o: Obj, o': Obj, k: Key) {
    if NonConfigurable(o, k) then o' == o
    else k in o'.props && IsReactive(o'.props[k]) && o' == o.(props := o.props[k := o'.props[k]])
  }

  /** One more key defined keeps `WalkedOver`. */
  lemma WalkedOverStep(o0: Obj, o: Obj, o': Obj, done: seq<Key>, k: Key)
    requires WalkedOver(o0, o, done) && k in o0.props && DefinedOver(o, o', k)
    ensures WalkedOver(o0, o', done + [k])
  {
    forall j | j in o0.props
      ensures if j in done + [k] && o0.props[j].configurable then IsReactive(o'.props[j]) else o'.props[j] == o0.props[j]
    {
      if j != k {
        assert o'.props[j] == o.props[j];
      }
    }
  }

  /** `defineReactive` on an own property of `x` does to `x` what `DefinedOver` says. */
  lemma DefineStep(w: World, x: ObjId, k: Key, so: bool, t: Option<SubId>)
    requires WorldOk(w) && x in w.st.objs && x in w.st.rank && k in w.st.objs[x].props
    ensures var r := DefineReactiveW(w, x, k, None, false, so, t);
      x in r.st.objs && DefinedOver(w.st.objs[x], r.st.objs[x], k)
  {
    if NonConfigurable(w.st.objs[x], k) {
      DefineReactiveSkips(w, x, k, None, false, so, t);
    } else {
      DefineReactiveBinds(w, x, k, None, false, so, t);
      ObjOkOf(w.st.objs, w.st.rank, x);
      var p := OwnProp(w.st.objs[x], k);
      var val := BindValue(w.st, x, k, None);
      var r := DefineReactiveW(w, x, k, None, false, so, t);
      BoundIsReactive(w.st, r.st, x, k, Slot(x, w.ids.dep, val, ObOf(r.st, val), GetterIn(p), SetterIn(p), false));
    }
  }

  /**
   * `walk` over the first `i` of `keys`, all of them own properties of `x`:
   * `x` is what it was after `defineReactive` on each of those keys.
   */
  lemma {:induction false} WalkWalks(w: World, x: ObjId, keys: seq<Key>, i: nat, so: bool, t: Option<SubId>)
    requires WorldOk(w) && x in w.st.objs && x in w.st.rank && i <= |keys|
    requires forall j :: 0 <= j < |keys| ==> keys[j] in w.st.objs[x].props
    ensures var r := WalkW(w, x, keys, i, so, t);
      x in r.st.objs && WalkedOver(w.st.objs[x], r.st.objs[x], keys[..i])
    decreases i
  {
    if i > 0 {
      WalkWalks(w, x, keys, i - 1, so, t);
      WalkWNext(w, x, keys, i - 1, so, t);
      var a := WalkW(w, x, keys, i - 1, so, t);
      DefineStep(a, x, keys[i - 1], so, t);
      var r := DefineReactiveW(a, x, keys[i - 1], None, false, so, t);
      WalkedOverStep(w.st.objs[x], a.st.objs[x], r.st.objs[x], keys[..i - 1], keys[i - 1]);
      PrefixGrows(keys, i);
    }
  }

  /**
   * The Observer constructor on a plain object: the object carries the new
   * Observer, which counts no Vue instance yet and holds a fresh dep; each
   * own enumerable, configurable property has become a reactive pair, and
   * every other property, the key order, the elements and the flags are as
   * they were.
   */
  lemma NewObserverObject(w: World, x: ObjId, so: bool, t: Option<SubId>)
    requires WorldOk(w) && x in w.st.objs && w.st.objs[x].ob.None? && Eligible(w.st.objs[x], so)
    requires !w.st.objs[x].isVNode && !w.st.objs[x].kind.ArrayKind?
    ensures var r := NewObserverW(w, x, so, t);
      var o := w.st.objs[x];
      && x in r.st.objs && r.st.objs[x].ob == Some(w.ids.obs) && w.ids.obs !in w.st.observers
      && r.st.observers[w.ids.obs] == ObserverRec(x, w.ids.dep, 0)
      && r.st.objs[x] == o.(ob := Some(w.ids.obs), props := r.st.objs[x].props)
      && r.st.objs[x].props.Keys == o.props.Keys
      && forall k :: k in o.props ==>
           if o.props[k].enumerable && o.props[k].configurable then IsReactive(r.st.objs[x].props[k])
           else r.st.objs[x].props[k] == o.props[k]
  {
    NewObserverFated(w, x, so, t);
    NewObserverWalks(w, x, so, t);
    var w1 := AttachW(w, x);
    var o1 := w1.st.objs[x];
    var keys := EnumerableKeys(o1.keys, o1.props);
    var r := WalkW(w1, x, keys, |keys|, so, t);
    WalkedAll(w.st.objs[x], o1, r.st.objs[x], keys);
  }

  /** The Observer constructor on a plain object is the walk of its enumerable keys, after attaching the Observer. */
  lemma NewObserverWalks(w: World, x: ObjId, so: bool, t: Option<SubId>)
    requires WorldOk(w) && x in w.st.objs && w.st.objs[x].ob.None? && Eligible(w.st.objs[x], so)
    requires !w.st.objs[x].isVNode && !w.st.objs[x].kind.ArrayKind?
    ensures var w1 := AttachW(w, x);
      var o1 := w1.st.objs[x];
      var keys := EnumerableKeys(o1.keys, o1.props);
      && WorldOk(w1) && x in w1.st.objs && x in w1.st.rank && o1 == w.st.objs[x].(ob := Some(w.ids.obs))
      && (forall k :: k in keys <==> k in o1.props && o1.props[k].enumerable)
      && x in WalkW(w1, x, keys, |keys|, so, t).st.objs
      && WalkedOver(o1, WalkW(w1, x, keys, |keys|, so, t).st.objs[x], keys)
      && NewObserverW(w, x, so, t) == WalkW(w1, x, keys, |keys|, so, t)
  {
    var w1 := AttachW(w, x);
    ObjOkOf(w1.st.objs, w1.st.rank, x);
    var o1 := w1.st.objs[x];
    var keys := EnumerableKeys(o1.keys, o1.props);
    WalkWalks(w1, x, keys, |keys|, so, t);
    WholePrefix(keys);
  }

  /** Walking exactly the enumerable keys of `o1` makes each enumerable, configurable property reactive and keeps the rest. */
  lemma WalkedAll(o: Obj, o1: Obj, ro: Obj, keys: seq<Key>)
    requires o1 == o.(ob := o1.ob) && WalkedOver(o1, ro, keys)
    requires forall k :: k in keys <==> k in o1.props && o1.props[k].enumerable
    ensures ro == o.(ob := o1.ob, props := ro.props) && ro.props.Keys == o.props.Keys
    ensures forall k :: k in o.props ==>
      if o.props[k].enumerable && o.props[k].configurable then IsReactive(ro.props[k]) else ro.props[k] == o.props[k]
  {
  }

  lemma WholePrefix(s: seq<Key>)
    ensures s[..|s|] == s
  {
  }

  lemma PrefixGrows(s: seq<Key>, i: nat)
    requires 0 < i <= |s|
    ensures s[..i] == s[..i - 1] + [s[i - 1]]
  {
  }
}
