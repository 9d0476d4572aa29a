/** Index dispatch (`variadic_switch<T0, ..., Tn-1>`): the tag set 0..n-1, where
    a runtime index i selects the type marker `type<Ti>`. Type markers are values
    of an arbitrary type `M`, listed in declaration order. */
module Variadic {
  import opened Outcomes
  import opened TagSets
  import opened Dispatch

  /** The adapter wrapped around the caller's visitor: index tag i becomes the
      marker of the i-th type. Only indices in 0..n-1 ever reach it; other
      indices are mapped to the first type to keep the function total. */
  function Adapter<M, R>(types: seq<M>, handler: M -> R): (visitor: int -> R)
    requires |types| > 0
  {
    i => handler(types[if 0 <= i < |types| then i else 0])
  }

  /** Strict index dispatch: the visitor applied to the index-th type marker, or
      failure for an index outside 0..n-1. */
  function VariadicVisit<M, R>(types: seq<M>, handler: M -> R, index: int): (r: Outcome<R>)
    ensures 0 <= index < |types| ==> r == Matched(handler(types[index]))
    ensures !(0 <= index < |types|) ==> r == Unmatched
  {
    if |types| == 0 then Unmatched
    else
      RangeMembership(0, |types|, index);
      Visit(Range(0, |types|), Adapter(types, handler), index)
  }

  /** Defaulted index dispatch: the visitor applied to the index-th type marker,
      or `default` for an index outside 0..n-1. */
  function VariadicVisitNothrow<M, R>(types: seq<M>, handler: M -> R, index: int, default: R): (r: R)
    ensures 0 <= index < |types| ==> r == handler(types[index])
    ensures !(0 <= index < |types|) ==> r == default
  {
    if |types| == 0 then default
    else
      RangeMembership(0, |types|, index);
      VisitNothrow(Range(0, |types|), Adapter(types, handler), index, default)
  }

  /** The index tag set is exactly 0..n-1 without duplicates, one tag per type. */
  lemma IndexTagsAreTagSet<M>(types: seq<M>)
    ensures |Range(0, |types|)| == |types|
    ensures Distinct(Range(0, |types|))
    ensures forall i :: 0 <= i < |types| ==> Range(0, |types|)[i] == i
  {
  }

  /** The defaulted index dispatcher is the strict one with the failure replaced
      by the default. */
  lemma VariadicNothrowAgreesWithVisit<M, R>(types: seq<M>, handler: M -> R, index: int, default: R)
    ensures VariadicVisitNothrow(types, handler, index, default) == VariadicVisit(types, handler, index).GetOr(default)
  {
  }

  /** Three types whose `id()` is their position. */
  datatype IdType = Type0 | Type1 | Type2

  function GetId(t: IdType): (id: int) {
    match t
    case Type0 => 0
    case Type1 => 1
    case Type2 => 2
  }

  /** Index dispatch over [Type0, Type1, Type2] with the `GetId` visitor: index i
      in 0..2 yields i, index 3 fails, and the defaulted form yields -1 for 3. */
  lemma DispatchTestValues()
    ensures forall i :: 0 <= i < 3 ==> VariadicVisit([Type0, Type1, Type2], GetId, i) == Matched(i)
    ensures VariadicVisit([Type0, Type1, Type2], GetId, 3) == Unmatched
    ensures forall i :: 0 <= i < 3 ==> VariadicVisitNothrow([Type0, Type1, Type2], GetId, i, -1) == i
    ensures VariadicVisitNothrow([Type0, Type1, Type2], GetId, 3, -1) == -1
  {
  }

  /** Repeated strict index dispatch: one result per call, in call order, up to
      the first index outside 0..n-1. `invoked` lists the indices whose type
      markers the visitor received. */
  function VariadicVisitEach<M, R>(types: seq<M>, handler: M -> R, indices: seq<int>): (run: Run<R>)
    ensures |run.results| <= |indices|
    ensures run.threw <==> |run.results| < |indices|
    ensures forall i :: 0 <= i < |run.results| ==>
      0 <= indices[i] < |types| && run.results[i] == handler(types[indices[i]])
    ensures run.threw ==> !(0 <= indices[|run.results|] < |types|)
    ensures run.invoked == indices[..|run.results|]
  {
    if |indices| == 0 then Run([], [], false)
    else
      match VariadicVisit(types, handler, indices[0])
      case Unmatched => Run([], [], true)
      case Matched(x) =>
        var rest := VariadicVisitEach(types, handler, indices[1..]);
        assert indices[..1 + |rest.results|] == [indices[0]] + indices[1..][..|rest.results|];
        Run([x] + rest.results, [indices[0]] + rest.invoked, rest.threw)
  }

  /** Index dispatch in a loop over 0, 1, 2 visits the first, second and third
      type, once each and in that order, and never fails. */
  lemma ExampleLoopVisitsTypesInOrder<M, R>(t0: M, t1: M, t2: M, handler: M -> R)
    ensures VariadicVisitEach([t0, t1, t2], handler, [0, 1, 2])
      == Run([handler(t0), handler(t1), handler(t2)], [0, 1, 2], false)
  {
  }
}
