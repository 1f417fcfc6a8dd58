/**
 * The array interceptor's method table: which method names it overrides, how
 * a method call on an array is resolved, and which arguments of a mutating
 * call count as inserted elements.
 */
module ArrayMethods {
  import opened Wrappers
  import opened Values
  import opened ArrayNative

  /** The names `methodsToPatch` lists, in its order. */
  const MethodsToPatch: seq<string> := ["push", "pop", "shift", "unshift", "splice", "sort", "reverse"]

  function NameOf(m: Mutator): (name: string) {
    match m
    case Push => "push"
    case Pop => "pop"
    case Shift => "shift"
    case Unshift => "unshift"
    case Splice => "splice"
    case Sort => "sort"
    case Reverse => "reverse"
  }

  /** The mutator `arrayMethods` defines under a name, if any. */
  function MutatorNamed(name: string): (r: Option<Mutator>)
    ensures r.Some? <==> name in MethodsToPatch
    ensures r.Some? ==> NameOf(r.value) == name
  {
    if name == "push" then Some(Push)
    else if name == "pop" then Some(Pop)
    else if name == "shift" then Some(Shift)
    else if name == "unshift" then Some(Unshift)
    else if name == "splice" then Some(Splice)
    else if name == "sort" then Some(Sort)
    else if name == "reverse" then Some(Reverse)
    else None
  }

  /** Every mutator is defined under its own name. */
  lemma NamesRoundTrip(m: Mutator)
    ensures NameOf(m) in MethodsToPatch && MutatorNamed(NameOf(m)) == Some(m)
  {
  }

  /** The table `arrayMethods` holds: every name of `methodsToPatch`, defined as the mutator of that name. */
  function ArrayMethodsTable(): (table: map<string, Mutator>)
    ensures forall name :: name in table <==> name in MethodsToPatch
    ensures forall name :: name in table ==> NameOf(table[name]) == name
  {
    map name | name in MethodsToPatch :: MutatorNamed(name).value
  }

  /**
   * Building `arrayMethods`: one `def(arrayMethods, method, mutator)` per
   * name of `methodsToPatch`. The table defines exactly those seven names,
   * each as the mutator of that name.
   */
  method BuildArrayMethods() returns (table: map<string, Mutator>)
    ensures forall name :: name in table <==> name in MethodsToPatch
    ensures forall name :: name in table ==> NameOf(table[name]) == name && MutatorNamed(name) == Some(table[name])
    ensures table == ArrayMethodsTable()
  {
    table := map[];
    for i := 0 to |MethodsToPatch|
      invariant forall name :: name in table <==> name in MethodsToPatch[..i]
      invariant forall name :: name in table ==> NameOf(table[name]) == name && MutatorNamed(name) == Some(table[name])
    {
      var name := MethodsToPatch[i];
      assert MethodsToPatch[..i + 1] == MethodsToPatch[..i] + [name];
      var m := MutatorNamed(name);
      table := table[name := m.value];
    }
    assert MethodsToPatch[..|MethodsToPatch|] == MethodsToPatch;
    assert forall name :: name in table ==> table[name] == ArrayMethodsTable()[name];
  }

  /** Where a method looked up on an array comes from. */
  datatype Resolved = Intercepted(m: Mutator) | Prototype(name: string)

  /**
   * Method lookup on an array: a patched array finds the seven mutators in
   * `arrayMethods` and everything else further up, in `Array.prototype`; an
   * unpatched array finds everything in `Array.prototype`.
   */
  function Lookup(patched: bool, name: string): (r: Resolved)
    ensures r.Intercepted? <==> patched && name in MethodsToPatch
    ensures r.Intercepted? ==> NameOf(r.m) == name && MutatorNamed(name) == Some(r.m)
    ensures name !in MethodsToPatch ==> r == Lookup(false, name)
  {
    var table := ArrayMethodsTable();
    if patched && name in table then Intercepted(table[name]) else Prototype(name)
  }

  /** The arguments a mutating call inserts: all for push and unshift, `args.slice(2)` for splice, none otherwise. */
  function Inserted(m: Mutator, args: seq<Value>): (ins: seq<Value>) {
    match m
    case Push => args
    case Unshift => args
    case Splice => SpliceItems(args)
    case _ => []
  }

  /**
   * The inserted arguments are exactly the elements a native call adds: what
   * the array holds afterwards plus what the call handed back equals what the
   * array held before plus the inserted arguments.
   */
  lemma InsertedAreTheNewElements(m: Mutator, s: seq<Value>, args: seq<Value>, lt: (Value, Value) -> bool)
    ensures var o := Apply(m, s, args, lt);
            multiset(o.elems) + multiset(Removed(m, s, o)) == multiset(s) + multiset(Inserted(m, args))
  {
    match m
    case Pop => PopConserves(s, lt);
    case Shift => ShiftConserves(s, lt);
    case Splice => SpliceConserves(s, args, lt);
    case Sort => SortPermutes(s, lt);
    case Reverse => ReversedPermutes(s);
    case Push =>
    case Unshift =>
  }

  lemma PopConserves(s: seq<Value>, lt: (Value, Value) -> bool)
    ensures var o := Apply(Pop, s, [], lt);
            multiset(o.elems) + multiset(Removed(Pop, s, o)) == multiset(s)
  {
    if s != [] {
      assert s == s[..|s| - 1] + [s[|s| - 1]];
    }
  }

  lemma ShiftConserves(s: seq<Value>, lt: (Value, Value) -> bool)
    ensures var o := Apply(Shift, s, [], lt);
            multiset(o.elems) + multiset(Removed(Shift, s, o)) == multiset(s)
  {
    if s != [] {
      assert s == [s[0]] + s[1..];
    }
  }

  lemma SpliceConserves(s: seq<Value>, args: seq<Value>, lt: (Value, Value) -> bool)
    ensures var o := Apply(Splice, s, args, lt);
            multiset(o.elems) + multiset(Removed(Splice, s, o)) == multiset(s) + multiset(SpliceItems(args))
  {
    var start, count := SpliceStart(s, args), SpliceDeleteCount(s, args);
    var items := SpliceItems(args);
    assert s == s[..start] + s[start..start + count] + s[start + count..];
    assert multiset(s[..start] + items + s[start + count..])
        == multiset(s[..start]) + multiset(items) + multiset(s[start + count..]);
  }
}
