/** The integral switch: match a runtime value against a closed list of tags and
    hand the visitor the matching tag's marker `std::integral_constant<T, tag>`.
    A marker carries nothing but its tag, so the visitor is modelled as a function
    of the tag value, and every case shares the one result type `R` (the
    `std::common_type` of all cases in the source). */
module Dispatch {
  import opened Outcomes
  import opened TagSets

  /** Strict dispatch (`integral_switch<T, v...>::visit`): the visitor applied to
      the tag equal to `value`, or `Unmatched` (the `std::invalid_argument` throw)
      when no tag equals it. */
  function Visit<R>(tags: seq<int>, handler: int -> R, value: int): (r: Outcome<R>)
    ensures r.Matched? <==> value in tags
    ensures r.Matched? ==> r.value == handler(value)
  {
    if |tags| == 0 then Unmatched
    else if tags[0] == value then Matched(handler(tags[0]))
    else Visit(tags[1..], handler, value)
  }

  /** Defaulted dispatch (`visit_nothrow`): the visitor's result for the matching
      tag, or `default` when no tag matches. It never fails. */
  function VisitNothrow<R>(tags: seq<int>, handler: int -> R, value: int, default: R): (r: R)
    ensures value in tags ==> r == handler(value)
    ensures value !in tags ==> r == default
  {
    if |tags| == 0 then default
    else if tags[0] == value then handler(tags[0])
    else VisitNothrow(tags[1..], handler, value, default)
  }

  /** `visit_nothrow` is `visit` with the throw replaced by the default: equal on
      every matched value, the default on every unmatched one. */
  lemma NothrowAgreesWithVisit<R>(tags: seq<int>, handler: int -> R, value: int, default: R)
    ensures VisitNothrow(tags, handler, value, default) == Visit(tags, handler, value).GetOr(default)
    ensures Visit(tags, handler, value).Unmatched? ==> VisitNothrow(tags, handler, value, default) == default
  {
  }

  /** One strict call, together with the markers the visitor was invoked with,
      in invocation order. */
  datatype Call<R> = Call(outcome: Outcome<R>, invoked: seq<int>)

  /** The same search as `Visit`, recording each visitor invocation: a match
      invokes the visitor once, with the matching tag, and returns at once; a miss
      invokes it never. */
  function VisitTraced<R>(tags: seq<int>, handler: int -> R, value: int): (c: Call<R>)
    ensures c.outcome == Visit(tags, handler, value)
    ensures value in tags ==> c.invoked == [value]
    ensures value !in tags ==> c.invoked == []
  {
    if |tags| == 0 then Call(Unmatched, [])
    else if tags[0] == value then Call(Matched(handler(tags[0])), [tags[0]])
    else VisitTraced(tags[1..], handler, value)
  }

  /** The results of calling strict `visit` once per value, in call order, and
      the markers the visitor received over all those calls; a throw ends the
      sequence of calls. */
  datatype Run<R> = Run(results: seq<R>, invoked: seq<int>, threw: bool)

  /** Repeated strict visits: one result per call, in call order, up to the first
      value that matches no tag. Each call's visitor invocations come from
      `VisitTraced`, so the visitor receives exactly the matched values, once
      each and in order, and nothing for the call that throws. */
  function VisitEach<R>(tags: seq<int>, handler: int -> R, values: seq<int>): (run: Run<R>)
    ensures |run.results| <= |values|
    ensures run.threw <==> |run.results| < |values|
    ensures forall i :: 0 <= i < |run.results| ==> values[i] in tags && run.results[i] == handler(values[i])
    ensures run.threw ==> values[|run.results|] !in tags
    ensures run.invoked == values[..|run.results|]
  {
    if |values| == 0 then Run([], [], false)
    else
      var call := VisitTraced(tags, handler, values[0]);
      match call.outcome
      case Unmatched => Run([], call.invoked, true)
      case Matched(x) =>
        var rest := VisitEach(tags, handler, values[1..]);
        assert values[..1 + |rest.results|] == [values[0]] + values[1..][..|rest.results|];
        Run([x] + rest.results, call.invoked + rest.invoked, rest.threw)
  }

  /** Visiting tags 0, 1, 2 of the tag set [0, 1, 2] in a loop yields the
      visitor's three outputs in that order, invokes it with 0, 1, 2 once each,
      and never throws. */
  lemma ExampleLoopInOrder<R>(handler: int -> R)
    ensures VisitEach([0, 1, 2], handler, [0, 1, 2]) == Run([handler(0), handler(1), handler(2)], [0, 1, 2], false)
  {
  }

  /** The tag set [0, 1, 2] with a visitor mapping 0, 1, 2 to 10, 20, 30: each tag
      dispatches to its value, 3 throws, and the defaulted form gives -1 for 3. */
  lemma SimpleTestValues(handler: int -> int)
    requires handler(0) == 10 && handler(1) == 20 && handler(2) == 30
    ensures Visit([0, 1, 2], handler, 0) == Matched(10)
    ensures Visit([0, 1, 2], handler, 1) == Matched(20)
    ensures Visit([0, 1, 2], handler, 2) == Matched(30)
    ensures Visit([0, 1, 2], handler, 3) == Unmatched
    ensures VisitNothrow([0, 1, 2], handler, 0, -1) == 10
    ensures VisitNothrow([0, 1, 2], handler, 1, -1) == 20
    ensures VisitNothrow([0, 1, 2], handler, 2, -1) == 30
    ensures VisitNothrow([0, 1, 2], handler, 3, -1) == -1
  {
  }
}
