/**
 * Tuple prefixes. A heterogeneous tuple is a sequence of tagged values; the
 * double is kept as its literal, since nothing here computes with it.
 */
module Tuple {

  datatype Value =
    | IntValue(i: int)
    | DoubleValue(literal: string)
    | StringValue(s: string)

  type Tuple = seq<Value>

  /** args_size returns sizeof...(Args), the length of the pack; here the
      pack is counted element by element and the count is proved to be that
      length. */
  function ArgsSize(args: seq<Value>): (n: nat)
    ensures n == |args|
  {
    if args == [] then 0 else 1 + ArgsSize(args[1..])
  }

  /** std::make_index_sequence<N>: the indices 0, 1, ..., N - 1 in order. */
  function MakeIndexSequence(n: nat): (indices: seq<nat>)
    ensures |indices| == n
    ensures forall k :: 0 <= k < n ==> indices[k] == k
  {
    if n == 0 then [] else MakeIndexSequence(n - 1) + [n - 1]
  }

  /** fisrt_of_impl: the tuple of the elements std::get<Is>(t)..., one per
      index of the pack, in the pack's order. */
  function FirstOfImpl(t: Tuple, indices: seq<nat>): (r: Tuple)
    requires forall k :: 0 <= k < |indices| ==> indices[k] < |t|
    ensures |r| == |indices|
    ensures forall k :: 0 <= k < |indices| ==> r[k] == t[indices[k]]
  {
    if indices == [] then [] else [t[indices[0]]] + FirstOfImpl(t, indices[1..])
  }

  /** first_of<N>: the first N elements of `t`; N may not exceed the size of
      the tuple (the static_assert in first_of). */
  function FirstOf(t: Tuple, n: nat): (r: Tuple)
    requires n <= |t|
    ensures |r| == n
    ensures forall i :: 0 <= i < n ==> r[i] == t[i]
    ensures r == t[..n]
  {
    FirstOfImpl(t, MakeIndexSequence(n))
  }

  /** The full prefix is the tuple itself and the empty prefix is empty. */
  lemma FirstOfBounds(t: Tuple)
    ensures FirstOf(t, |t|) == t
    ensures FirstOf(t, 0) == []
  {
  }

  /** A prefix of a prefix is a prefix of the original tuple. */
  lemma FirstOfFirstOf(t: Tuple, m: nat, n: nat)
    requires n <= m <= |t|
    ensures FirstOf(FirstOf(t, m), n) == FirstOf(t, n)
  {
  }

  /** The demo's tuple (1, 2.0, "3"). */
  const Demo: Tuple := [IntValue(1), DoubleValue("2.0"), StringValue("3")]

  lemma DemoChecks()
    ensures ArgsSize(Demo) == 3
    ensures FirstOf(Demo, 3) == Demo
    ensures FirstOf(Demo, 2) == [IntValue(1), DoubleValue("2.0")]
    ensures FirstOf(Demo, 0) == []
  {
  }
}
