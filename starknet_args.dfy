/** How the test utilities turn nested Python values into the flat felt
    sequence that StarkNet calldata is: `to_starknet_args` and
    `dict_to_tuple`. */
module StarknetArgs {
  import opened Wrappers

  /** The Python values these helpers see. A dict keeps its insertion
      order: `keys[i]` is the key of `values[i]`. */
  datatype Arg =
    | Felt(value: int)
    | Tuple(items: seq<Arg>)
    | List(items: seq<Arg>)
    | Dict(keys: seq<string>, values: seq<Arg>)

  datatype ArgsError = NotIterable

  /** What the source iterates over: a dict's values, or a tuple's or a
      list's items. */
  function Elements(data: Arg): seq<Arg>
    requires !data.Felt?
  {
    if data.Dict? then data.values else data.items
  }

  // ---------------------------------------------------------------------
  // Reference definition of the flattening
  // ---------------------------------------------------------------------

  /** What one element adds to the output: a scalar itself, a tuple or a
      dict its flattened elements, a list its length and then its
      flattened elements. */
  function Piece(d: Arg): seq<int>
  {
    match d
    case Felt(v) => [v]
    case Tuple(xs) => FlattenAll(xs)
    case List(xs) => [|xs|] + FlattenAll(xs)
    case Dict(_, vs) => FlattenAll(vs)
  }

  /** The pieces of a sequence of elements, in order. */
  function FlattenAll(xs: seq<Arg>): seq<int>
  {
    if xs == [] then [] else FlattenAll(xs[..|xs| - 1]) + Piece(xs[|xs| - 1])
  }

  /** The number of scalars anywhere inside `d`. */
  function Scalars(d: Arg): nat
  {
    match d
    case Felt(_) => 1
    case Tuple(xs) => ScalarsAll(xs)
    case List(xs) => ScalarsAll(xs)
    case Dict(_, vs) => ScalarsAll(vs)
  }

  function ScalarsAll(xs: seq<Arg>): nat
  {
    if xs == [] then 0 else ScalarsAll(xs[..|xs| - 1]) + Scalars(xs[|xs| - 1])
  }

  /** The number of lists anywhere inside `d`, `d` itself included. */
  function Lists(d: Arg): nat
  {
    match d
    case Felt(_) => 0
    case Tuple(xs) => ListsAll(xs)
    case List(xs) => 1 + ListsAll(xs)
    case Dict(_, vs) => ListsAll(vs)
  }

  function ListsAll(xs: seq<Arg>): nat
  {
    if xs == [] then 0 else ListsAll(xs[..|xs| - 1]) + Lists(xs[|xs| - 1])
  }

  // ---------------------------------------------------------------------
  // to_starknet_args
  // ---------------------------------------------------------------------

  /** `to_starknet_args`: walk the elements of `data` in order, appending
      scalars, splicing in the flattening of nested tuples and dicts, and
      for each nested list its length followed by its flattening. Iterating
      over a bare number raises TypeError in the source. */
  method ToStarknetArgs(data: Arg) returns (r: Result<seq<int>, ArgsError>)
    ensures data.Felt? ==> r == Failure(NotIterable)
    ensures !data.Felt? ==> r == Success(FlattenAll(Elements(data)))
    decreases data
  {
    if data.Felt? {
      return Failure(NotIterable);
    }
    var values := Elements(data);
    var items: seq<int> := [];
    for i := 0 to |values|
      invariant items == FlattenAll(values[..i])
    {
      var d := values[i];
      assert values[..i + 1][..i] == values[..i];
      if d.Dict? || d.Tuple? {
        var inner := ToStarknetArgs(d);
        items := items + inner.value;
      } else if d.List? {
        // `tuple(d)` has the same elements as `d`, so the call on it
        // yields the same flattening.
        var inner := ToStarknetArgs(d);
        items := items + [|d.items|] + inner.value;
      } else {
        items := items + [d.value];
      }
    }
    assert values[..|values|] == values;
    return Success(items);
  }

  // ---------------------------------------------------------------------
  // Properties of the flattening
  // ---------------------------------------------------------------------

  /** Flattening distributes over concatenation. */
  lemma {:induction false} FlattenAllAppend(xs: seq<Arg>, ys: seq<Arg>)
    ensures FlattenAll(xs + ys) == FlattenAll(xs) + FlattenAll(ys)
    decreases |ys|
  {
    if ys == [] {
      assert xs + ys == xs;
    } else {
      var init := ys[..|ys| - 1];
      assert (xs + ys)[..|xs + ys| - 1] == xs + init;
      assert (xs + ys)[|xs + ys| - 1] == ys[|ys| - 1];
      FlattenAllAppend(xs, init);
    }
  }

  /** Every scalar lands in the output and each list adds one length
      prefix; nothing else is emitted. */
  lemma {:induction false} PieceLength(d: Arg)
    ensures |Piece(d)| == Scalars(d) + Lists(d)
    decreases d, 1
  {
    match d
    case Felt(_) =>
    case Tuple(xs) => FlattenAllLength(xs);
    case List(xs) => FlattenAllLength(xs);
    case Dict(_, vs) => FlattenAllLength(vs);
  }

  lemma {:induction false} FlattenAllLength(xs: seq<Arg>)
    ensures |FlattenAll(xs)| == ScalarsAll(xs) + ListsAll(xs)
    decreases xs, 0
  {
    if xs != [] {
      FlattenAllLength(xs[..|xs| - 1]);
      PieceLength(xs[|xs| - 1]);
    }
  }

  /** A sequence of scalars flattens to those scalars, unchanged and in
      order (the flat tuples the tests pass as calldata). */
  lemma {:induction false} FlattenScalars(xs: seq<Arg>)
    requires forall i :: 0 <= i < |xs| ==> xs[i].Felt?
    ensures |FlattenAll(xs)| == |xs|
    ensures forall i :: 0 <= i < |xs| ==> FlattenAll(xs)[i] == xs[i].value
  {
    if xs != [] {
      FlattenScalars(xs[..|xs| - 1]);
    }
  }

  /** Lists nested anywhere keep their length prefix: a tuple holding one
      list of scalars flattens to the length and then the scalars. */
  lemma ListOfScalars(xs: seq<Arg>)
    requires forall i :: 0 <= i < |xs| ==> xs[i].Felt?
    ensures Piece(List(xs)) == [|xs|] + seq(|xs|, i requires 0 <= i < |xs| => xs[i].value)
  {
    FlattenScalars(xs);
  }

  /** Sequences whose elements flatten alike flatten alike. */
  lemma {:induction false} FlattenAllPointwise(xs: seq<Arg>, ys: seq<Arg>)
    requires |xs| == |ys|
    requires forall i :: 0 <= i < |xs| ==> Piece(xs[i]) == Piece(ys[i])
    ensures FlattenAll(xs) == FlattenAll(ys)
  {
    if xs != [] {
      FlattenAllPointwise(xs[..|xs| - 1], ys[..|ys| - 1]);
    }
  }

  // ---------------------------------------------------------------------
  // dict_to_tuple
  // ---------------------------------------------------------------------

  /** No dict occurs anywhere inside `a`. */
  predicate DictFree(a: Arg)
  {
    match a
    case Felt(_) => true
    case Tuple(xs) => forall i :: 0 <= i < |xs| ==> DictFree(xs[i])
    case List(xs) => forall i :: 0 <= i < |xs| ==> DictFree(xs[i])
    case Dict(_, _) => false
  }

  /** Every value reached through dicts alone, that is not itself a dict,
      is free of dicts: what `dict_to_tuple` needs to leave no dict behind,
      since it converts only the values whose type is dict. */
  predicate PassedThroughDictFree(d: Arg)
    requires d.Dict?
  {
    forall i :: 0 <= i < |d.values| ==>
      if d.values[i].Dict? then PassedThroughDictFree(d.values[i]) else DictFree(d.values[i])
  }

  /** `dict_to_tuple`: the dict's values in key order, nested dicts
      converted in turn, every other value passed through as it is. */
  function DictToTuple(d: Arg): (t: Arg)
    requires d.Dict?
    ensures t.Tuple? && |t.items| == |d.values|
    ensures forall i :: 0 <= i < |d.values| && !d.values[i].Dict? ==> t.items[i] == d.values[i]
    ensures forall i :: 0 <= i < |d.values| && d.values[i].Dict? ==>
      t.items[i] == DictToTuple(d.values[i])
    ensures forall i :: 0 <= i < |t.items| ==> !t.items[i].Dict?
    ensures DictFree(t) <==> PassedThroughDictFree(d)
    decreases d
  {
    Tuple(seq(|d.values|, i requires 0 <= i < |d.values| =>
      if d.values[i].Dict? then DictToTuple(d.values[i]) else d.values[i]))
  }

  /** Dicts nested in dicts, however deep, all become tuples. */
  lemma NestedDictsConverted()
    ensures DictToTuple(Dict(["a"], [Dict(["b"], [Dict(["c"], [Felt(1)])])]))
         == Tuple([Tuple([Tuple([Felt(1)])])])
  {
    var inner := Dict(["c"], [Felt(1)]);
    var middle := Dict(["b"], [inner]);
    assert DictToTuple(inner) == Tuple([Felt(1)]);
    assert DictToTuple(middle) == Tuple([Tuple([Felt(1)])]);
  }

  /** A dict inside a tuple value is passed through as it is, so the result
      of `dict_to_tuple` can still hold a dict deeper down. */
  lemma DictInsideTupleKept()
    ensures DictToTuple(Dict(["a"], [Tuple([Dict(["b"], [Felt(1)])])]))
         == Tuple([Tuple([Dict(["b"], [Felt(1)])])])
    ensures !DictFree(DictToTuple(Dict(["a"], [Tuple([Dict(["b"], [Felt(1)])])])))
  {
    var v := Tuple([Dict(["b"], [Felt(1)])]);
    var t := DictToTuple(Dict(["a"], [v]));
    assert t.items[0] == v;
    assert !DictFree(v) by {
      assert v.items[0] == Dict(["b"], [Felt(1)]);
    }
  }

  /** Converting a dict to a tuple does not change its flattening, so the
      two may be passed to `to_starknet_args` interchangeably. */
  lemma {:induction false} FlattenDictToTuple(d: Arg)
    requires d.Dict?
    ensures Piece(DictToTuple(d)) == Piece(d)
    decreases d
  {
    var t := DictToTuple(d);
    forall i | 0 <= i < |d.values|
      ensures Piece(t.items[i]) == Piece(d.values[i])
    {
      if d.values[i].Dict? {
        FlattenDictToTuple(d.values[i]);
      }
    }
    FlattenAllPointwise(t.items, d.values);
  }
}
