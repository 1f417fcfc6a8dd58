/**
 * The seven Array.prototype operations that the interceptor wraps, as pure
 * functions on an array's element sequence (section 23.1.3 of ECMA-262,
 * restricted to the values of this model). A call yields the new elements and
 * the value the native method returns.
 */
module ArrayNative {
  import opened Values

  /** The seven structure-changing array methods. */
  datatype Mutator = Push | Pop | Shift | Unshift | Splice | Sort | Reverse

  /** What a native call returns: a value, a newly created array with the given elements, or the receiver. */
  datatype NativeResult = Returned(value: Value) | NewArray(elems: seq<Value>) | ThisArray

  /** The elements after a native call, and its return value. */
  datatype Outcome = Outcome(elems: seq<Value>, result: NativeResult)

  /** ToIntegerOrInfinity on model values: a string is read by `StringToInteger`, an object as 0. */
  function ToInteger(v: Value): (k: int) {
    match v
    case Num(n) => n
    case Bool(b) => if b then 1 else 0
    case Str(s) => StringToInteger(s)
    case _ => 0
  }

  /**
   * The integer a string converts to: a run of decimal digits with an optional
   * sign is the number it denotes, and every other string is NaN, that is 0.
   */
  function StringToInteger(s: string): (k: int)
    ensures AllDigits(s) ==> k == IndexValue(s)
  {
    if AllDigits(s) then IndexValue(s)
    else if |s| > 1 && s[0] == '-' && AllDigits(s[1..]) then -(IndexValue(s[1..]) as int)
    else if |s| > 1 && s[0] == '+' && AllDigits(s[1..]) then IndexValue(s[1..])
    else 0
  }

  /** The `i`-th argument, `undefined` when absent. */
  function Arg(args: seq<Value>, i: nat): (v: Value) {
    if i < |args| then args[i] else Undef
  }

  /** A position relative to a length: negative values count from the end; the result is clamped to [0, len]. */
  function RelativeIndex(v: Value, len: nat): (r: nat)
    ensures r <= len
    ensures 0 <= ToInteger(v) <= len ==> r == ToInteger(v)
  {
    var k := ToInteger(v);
    if k < 0 then (if len + k < 0 then 0 else len + k)
    else if k < len then k else len
  }

  function SpliceStart(s: seq<Value>, args: seq<Value>): (start: nat)
    ensures start <= |s|
  {
    RelativeIndex(Arg(args, 0), |s|)
  }

  /** No arguments delete nothing, a start alone deletes to the end, otherwise the count is clamped. */
  function SpliceDeleteCount(s: seq<Value>, args: seq<Value>): (count: nat)
    ensures SpliceStart(s, args) + count <= |s|
  {
    var start := SpliceStart(s, args);
    if |args| == 0 then 0
    else if |args| == 1 then |s| - start
    else
      var k := ToInteger(args[1]);
      if k < 0 then 0 else if k < |s| - start then k else |s| - start
  }

  /** The arguments of `splice` after start and delete count: the elements it inserts. */
  function SpliceItems(args: seq<Value>): (items: seq<Value>) {
    if |args| <= 2 then [] else args[2..]
  }

  /** The sort order: `undefined` goes last and is never compared; `lt` is the comparator's verdict. */
  function SortsBefore(lt: (Value, Value) -> bool, a: Value, b: Value): bool {
    if a.Undef? then false else if b.Undef? then true else lt(a, b)
  }

  /** Stable insertion of `x` into a sorted prefix: it goes after every element it does not sort before. */
  function InsertSorted(s: seq<Value>, x: Value, lt: (Value, Value) -> bool): (r: seq<Value>)
    decreases |s|
  {
    if s == [] || !SortsBefore(lt, x, s[|s| - 1]) then s + [x]
    else InsertSorted(s[..|s| - 1], x, lt) + [s[|s| - 1]]
  }

  /** `Array.prototype.sort` as a stable insertion sort under the comparison `lt`. */
  function SortElems(s: seq<Value>, lt: (Value, Value) -> bool): (r: seq<Value>)
    decreases |s|
  {
    if s == [] then [] else InsertSorted(SortElems(s[..|s| - 1], lt), s[|s| - 1], lt)
  }

  /** `Array.prototype.reverse`: the elements in the opposite order. */
  function Reversed(s: seq<Value>): (r: seq<Value>)
    decreases |s|
  {
    if s == [] then [] else [s[|s| - 1]] + Reversed(s[..|s| - 1])
  }

  /**
   * The native method `m` applied to elements `s` with arguments `args`; `lt`
   * stands for the comparator `sort` consults.
   */
  function Apply(m: Mutator, s: seq<Value>, args: seq<Value>, lt: (Value, Value) -> bool): (out: Outcome) {
    match m
    case Push => Outcome(s + args, Returned(Num(|s| + |args|)))
    case Pop =>
      if s == [] then Outcome(s, Returned(Undef)) else Outcome(s[..|s| - 1], Returned(s[|s| - 1]))
    case Shift =>
      if s == [] then Outcome(s, Returned(Undef)) else Outcome(s[1..], Returned(s[0]))
    case Unshift => Outcome(args + s, Returned(Num(|args| + |s|)))
    case Splice =>
      var start, count := SpliceStart(s, args), SpliceDeleteCount(s, args);
      Outcome(s[..start] + SpliceItems(args) + s[start + count..], NewArray(s[start..start + count]))
    case Sort => Outcome(SortElems(s, lt), ThisArray)
    case Reverse => Outcome(Reversed(s), ThisArray)
  }

  /** The elements a native call takes out of the array and hands back to its caller. */
  function Removed(m: Mutator, s: seq<Value>, o: Outcome): (r: seq<Value>) {
    match m
    case Pop => if s == [] then [] else [s[|s| - 1]]
    case Shift => if s == [] then [] else [s[0]]
    case Splice => if o.result.NewArray? then o.result.elems else []
    case _ => []
  }

  lemma {:induction false} InsertSortedPermutes(s: seq<Value>, x: Value, lt: (Value, Value) -> bool)
    ensures multiset(InsertSorted(s, x, lt)) == multiset(s) + multiset{x}
    decreases |s|
  {
    if s == [] || !SortsBefore(lt, x, s[|s| - 1]) {
    } else {
      var front := s[..|s| - 1];
      InsertSortedPermutes(front, x, lt);
      assert s == front + [s[|s| - 1]];
    }
  }

  /** Sorting only reorders: the result is a permutation of the input. */
  lemma {:induction false} SortPermutes(s: seq<Value>, lt: (Value, Value) -> bool)
    ensures multiset(SortElems(s, lt)) == multiset(s)
    decreases |s|
  {
    if s != [] {
      var front := s[..|s| - 1];
      SortPermutes(front, lt);
      InsertSortedPermutes(SortElems(front, lt), s[|s| - 1], lt);
      assert s == front + [s[|s| - 1]];
    }
  }

  /** Reversal mirrors positions. */
  lemma {:induction false} ReversedAt(s: seq<Value>, k: nat)
    requires k < |s|
    ensures |Reversed(s)| == |s| && Reversed(s)[k] == s[|s| - 1 - k]
    decreases |s|
  {
    var front := s[..|s| - 1];
    if k > 0 {
      ReversedAt(front, k - 1);
    } else if |front| > 0 {
      ReversedAt(front, 0);
    }
    ReversedLength(front);
  }

  lemma {:induction false} ReversedLength(s: seq<Value>)
    ensures |Reversed(s)| == |s|
    decreases |s|
  {
    if s != [] {
      ReversedLength(s[..|s| - 1]);
    }
  }

  /** Reversing twice restores the array. */
  lemma ReverseInvolutive(s: seq<Value>)
    ensures Reversed(Reversed(s)) == s
  {
    ReversedLength(s);
    ReversedLength(Reversed(s));
    forall k | 0 <= k < |s|
      ensures Reversed(Reversed(s))[k] == s[k]
    {
      ReversedAt(Reversed(s), k);
      ReversedAt(s, |s| - 1 - k);
    }
  }

  lemma {:induction false} ReversedPermutes(s: seq<Value>)
    ensures multiset(Reversed(s)) == multiset(s)
    decreases |s|
  {
    if s != [] {
      var front := s[..|s| - 1];
      ReversedPermutes(front);
      assert s == front + [s[|s| - 1]];
    }
  }

  /** `pop` undoes a one-element `push`, returning the pushed element. */
  lemma PopUndoesPush(s: seq<Value>, x: Value, lt: (Value, Value) -> bool)
    ensures Apply(Pop, Apply(Push, s, [x], lt).elems, [], lt) == Outcome(s, Returned(x))
  {
    assert (s + [x])[..|s|] == s;
  }

  /** `shift` undoes a one-element `unshift`, returning the inserted element. */
  lemma ShiftUndoesUnshift(s: seq<Value>, x: Value, lt: (Value, Value) -> bool)
    ensures Apply(Shift, Apply(Unshift, s, [x], lt).elems, [], lt) == Outcome(s, Returned(x))
  {
    assert ([x] + s)[1..] == s;
  }

  /**
   * A splice is undone by splicing the removed elements back in place of the
   * inserted ones, which hands the inserted ones back.
   */
  lemma SpliceUndo(s: seq<Value>, args: seq<Value>, lt: (Value, Value) -> bool)
    ensures var start, items := SpliceStart(s, args), SpliceItems(args);
            var o := Apply(Splice, s, args, lt);
            && o.result.NewArray?
            && Apply(Splice, o.elems, [Num(start), Num(|items|)] + o.result.elems, lt)
               == Outcome(s, NewArray(items))
  {
    var start, count, items := SpliceStart(s, args), SpliceDeleteCount(s, args), SpliceItems(args);
    var removed := s[start..start + count];
    var t := s[..start] + items + s[start + count..];
    var back := [Num(start), Num(|items|)] + removed;
    assert SpliceStart(t, back) == start;
    assert SpliceDeleteCount(t, back) == |items|;
    assert SpliceItems(back) == removed;
    assert t[..start] == s[..start];
    assert t[start..start + |items|] == items;
    assert t[start + |items|..] == s[start + count..];
    assert s[..start] + removed + s[start + count..] == s;
  }

  /** `target.length = Math.max(target.length, n)`: grows the array to length `n` with `undefined` (holes). */
  function Padded(s: seq<Value>, n: nat): (r: seq<Value>)
    ensures |r| == if n <= |s| then |s| else n
    ensures forall i :: 0 <= i < |r| ==> r[i] == if i < |s| then s[i] else Undef
  {
    if n <= |s| then s else s + seq(n - |s|, _ => Undef)
  }

  /**
   * Growing to index `n` and then `splice(n, 1, v)` writes `v` at `n`: the array
   * ends with length max(old length, n + 1), `v` at `n`, every other old element
   * in place and `undefined` in the gap.
   */
  lemma WriteBySplice(s: seq<Value>, key: string, v: Value, lt: (Value, Value) -> bool)
    requires IsValidArrayIndex(key)
    ensures var n := IndexValue(key);
            var r := Apply(Splice, Padded(s, n), [Str(key), Num(1), v], lt).elems;
            && |r| == (if n < |s| then |s| else n + 1)
            && r[n] == v
            && forall i :: 0 <= i < |r| && i != n ==> r[i] == if i < |s| then s[i] else Undef
  {
    var n := IndexValue(key);
    var p := Padded(s, n);
    var args := [Str(key), Num(1), v];
    assert ToInteger(Str(key)) == n;
    assert SpliceStart(p, args) == n;
    assert SpliceItems(args) == [v];
    var c := if n < |s| then 1 else 0;
    assert SpliceDeleteCount(p, args) == c;
    assert Apply(Splice, p, args, lt).elems == p[..n] + [v] + p[n + c..];
    ReplaceAt(p, n, c, v);
  }

  /** Replacing the `c` elements at `n` (one, or none at the end) by `v`. */
  lemma ReplaceAt(p: seq<Value>, n: nat, c: nat, v: Value)
    requires n + c <= |p| && (c == 1 || (c == 0 && n == |p|))
    ensures var r := p[..n] + [v] + p[n + c..];
            && |r| == |p| - c + 1 && r[n] == v
            && forall i :: 0 <= i < |r| && i != n ==> r[i] == p[i]
  {
  }

  /** `splice(n, 1)` at a valid index takes out the element at `n`, if there is one, and nothing else. */
  lemma DeleteBySplice(s: seq<Value>, key: string, lt: (Value, Value) -> bool)
    requires IsValidArrayIndex(key)
    ensures var n := IndexValue(key);
            var o := Apply(Splice, s, [Str(key), Num(1)], lt);
            && o.elems == (if n < |s| then s[..n] + s[n + 1..] else s)
            && o.result == NewArray(if n < |s| then [s[n]] else [])
  {
    var n := IndexValue(key);
    var args := [Str(key), Num(1)];
    assert ToInteger(Str(key)) == n;
    assert SpliceItems(args) == [];
    if n < |s| {
      assert SpliceStart(s, args) == n;
      assert SpliceDeleteCount(s, args) == 1;
      assert Apply(Splice, s, args, lt) == Outcome(s[..n] + [] + s[n + 1..], NewArray(s[n..n + 1]));
      assert s[..n] + [] + s[n + 1..] == s[..n] + s[n + 1..];
      assert s[n..n + 1] == [s[n]];
    } else {
      assert SpliceStart(s, args) == |s|;
      assert SpliceDeleteCount(s, args) == 0;
      assert Apply(Splice, s, args, lt) == Outcome(s[..|s|] + [] + s[|s|..], NewArray(s[|s|..|s|]));
      assert s[..|s|] + [] + s[|s|..] == s;
    }
  }
}
