# integral_switch, modelled in Dafny

`integral_switch<T, v...>` turns a runtime integral value into a call of a
visitor with a compile-time marker `std::integral_constant<T, tag>` for the tag
equal to the value. The tags `v...` form a closed, ordered list fixed at build
time. Every case must yield one common result type. A value that equals no tag
makes the strict `visit` throw `std::invalid_argument` (the intended behaviour;
the shipped header throws for every value other than 0, 1 and 2, see Findings). The tests also use two
operations the shipped header does not define, modelled here from the tests
alone: `visit_nothrow`, which returns a caller-supplied default instead of
throwing, and `variadic_switch<T0, ..., Tn-1>`, which dispatches a runtime
index i in 0..n-1 to the marker `type<Ti>`.

Modules, one per component:

- `Outcomes` (outcomes.dfy): `Outcome<R> = Matched(value) | Unmatched`. `Unmatched` is the throw.
- `TagSets` (tagsets.dfy): tag lists, `Distinct`, the ascending list `Range(lo, hi)`, and `Flatten` for blocks.
- `Dispatch` (dispatch.dfy): the generic strict and defaulted dispatchers, a version that records the visitor's invocations, and repeated visits in call order.
- `Chunked` (chunked.dfy): the generator's layout of a large tag list as blocks of 32 cases, tried in order, as a function and as a loop.
- `Header` (header.dfy): `visit` as the shipped header writes it, with literal labels 0, 1, 2.
- `Variadic` (variadic.dfy): index dispatch over a list of type markers.

A marker carries nothing but its tag's value. So the visitor is a function
`int -> R` of the tag, and `R` is the single result type every case shares.
For the same reason the model needs no distinctness assumption on the tags. If
a value occurred twice, either occurrence would hand the visitor the same
marker, so no first-match or last-match rule is chosen. `Distinct` is still
proved of the index tag set 0..n-1.

The shipped header's `switch` names the literal labels 0, 1 and 2 and never
consults the pack `v...` (see Findings). The rest of the model uses the generic
dispatcher `Dispatch.Visit`, which matches against the tags. The block-chunked
form is proved equal to it.

Dispatch is a pure function of the tags, the visitor and the value. Every
member here is a Dafny function, so repeated calls with the same arguments give
the same result, and a miss stays a miss.

## Model

| member | source | states |
|---|---|---|
| Dispatch.Visit | include/integral_switch.h:8-28 | the result is a match exactly when the value is one of the tags, and a match carries the visitor's result for that same tag; otherwise the call fails |
| Dispatch.VisitNothrow | test/simple_test.cpp:25-28 | on a tag the visitor's result for that tag, on any other value the supplied default; it never fails |
| Dispatch.NothrowAgreesWithVisit | test/simple_test.cpp:41-53 | the defaulted dispatcher equals the strict one on every matched value and gives the default wherever the strict one fails |
| Dispatch.VisitTraced | include/integral_switch.h:17-27 | a match invokes the visitor exactly once, with the matching tag's marker, and returns at once; a miss invokes it zero times |
| Dispatch.VisitEach | test/example_test.cpp:26-37 | repeated strict visits yield one visitor result per call, in call order, each for its own value, and stop at the first value that matches no tag; the visitor receives exactly the matched values, once each and in order, and nothing on the call that throws |
| Dispatch.ExampleLoopInOrder | test/example_test.cpp:30-36 | visiting 0, 1, 2 over the tags [0, 1, 2] yields the visitor's outputs for 0, 1, 2 in that order, invokes it with 0, 1, 2 once each, and does not throw |
| Dispatch.SimpleTestValues | test/simple_test.cpp:41-53 | with the visitor 0, 1, 2 to 10, 20, 30, strict dispatch returns 10, 20, 30 and fails at 3; defaulted dispatch returns -1 at 3 |
| TagSets.Range | test/switch_test.cpp:14-18 | the ascending tag list lo..hi-1 has hi-lo elements and holds lo+i at position i |
| TagSets.RangeMembership | test/switch_test.cpp:14-18 | a value is a tag of lo..hi-1 exactly when lo <= value < hi |
| TagSets.RangeDistinct | test/switch_test.cpp:14-18 | an ascending tag list has no duplicates |
| Chunked.Blocks | script/gen-integral-switch.py:27-33 | cutting the tags into blocks keeps every tag in order, leaves no block empty and no block longer than the height, and only the last block may be shorter |
| Chunked.VisitBlocks | script/gen-integral-switch.py:27-33 | trying the blocks' switches in order gives the same result as one flat search over all their tags |
| Chunked.ChunkedEqualsFlat | script/gen-integral-switch.py:27-33 | for every positive height, chunked dispatch equals flat dispatch on every value and visitor |
| Chunked.VisitChunked | script/gen-integral-switch.py:27-33 | the loop over blocks of 32 matches exactly the values that are tags and returns the visitor's result for that tag |
| Chunked.SixtyEightTagBoundaries | test/switch_test.cpp:20-42 | over tags 0..67 with the identity visitor there are three blocks starting at 0, 32 and 64; 0, 32, 64 and 67 dispatch to themselves in the flat, chunked and defaulted forms, and 68 fails or gives -1 |
| Header.HeaderVisit | include/integral_switch.h:17-27 | as written: the values 0, 1 and 2 call the visitor with that label and anything else fails; the result depends only on the value and the visitor, never on the tags |
| Header.HeaderAgreesOnZeroOneTwo | include/integral_switch.h:17-27 | on the tags [0, 1, 2] the literal three-case switch agrees with the generic dispatcher for every value and visitor |
| Header.HeaderCorrectExactlyForZeroOneTwo | include/integral_switch.h:8-27 | the literal switch agrees with the generic dispatcher on every value if and only if the tags, as a set, are exactly {0, 1, 2} |
| Header.HeaderDropsTag32 | include/integral_switch.h:17-27 | as written, the header fails on 32 over tags 0..67, where the generic dispatcher returns 32 |
| Header.HeaderInventsTagZero | include/integral_switch.h:17-27 | as written, the header calls the visitor with marker 0 over the single tag 5, where the generic dispatcher fails |
| Variadic.VariadicVisit | test/test_dispatch.cpp:41-49 | an index i in 0..n-1 hands the visitor the i-th type marker; every other index fails |
| Variadic.VariadicVisitNothrow | test/test_dispatch.cpp:51-54 | an index i in 0..n-1 hands the visitor the i-th type marker; every other index gives the default |
| Variadic.IndexTagsAreTagSet | test/test_dispatch.cpp:41 | the index tag set is 0..n-1, one tag per type, without duplicates |
| Variadic.VariadicNothrowAgreesWithVisit | test/test_dispatch.cpp:46-54 | defaulted index dispatch is strict index dispatch with the failure replaced by the default |
| Variadic.DispatchTestValues | test/test_dispatch.cpp:43-55 | over [Type0, Type1, Type2] with the id visitor, indices 0..2 yield 0..2, index 3 fails, and the defaulted form yields -1 at 3 |
| Variadic.VariadicVisitEach | test/test_example.cpp:78-89 | repeated strict index dispatch yields, per call and in call order, the visitor's result for that index's type, and stops at the first index outside 0..n-1; the visitor receives exactly the in-range indices' markers, in order |
| Variadic.ExampleLoopVisitsTypesInOrder | test/test_example.cpp:72-89 | index dispatch in a loop over 0, 1, 2 visits the first, second and third type once each, in that order, without a failure |

## Left out

- The common result type (`std::common_type` over every case, include/integral_switch.h:11-12) is Dafny's single type parameter `R`. A visitor whose cases disagree cannot be written, so a build-time rejection has nothing to model.
- Integral width and call-site conversions are not modelled. Tags and values are unbounded `int`. Passing the literal 68 where `std::size_t` is expected, or the default -1 into a `std::size_t` result, converts implicitly in C++; the model compares exact integers.
- The visitor's side effects are not modelled. Printing to standard output in the example tests is the visitor's returned output, collected in call order by `Dispatch.VisitEach`.
- Perfect forwarding of the visitor, `constexpr` evaluation and `static_assert` checks are compile-time mechanics. Only their values are modelled.
- The exception's message text ("value") is not kept; `Unmatched` carries no detail.
- The generator scripts, lint and benchmark scripts, and the serializer example are not modelled. They run subprocesses, render templates, plot and do file I/O. Only the generator's default switch height, 32, is used.
- The text of the generated header is not among the sources this model follows. `visit_nothrow`, `variadic_switch` and the chain of switches of height 32 are modelled from the tests that call them and from the generator's height argument (script/gen-integral-switch.py:27-33), not from their C++ definitions.
- Dispatch.Visit: an empty tag pack is a compile error in the source, because `std::common_type<>` has no `type` member and the return type of `visit` cannot be formed (include/integral_switch.h:11-15). The model accepts the empty list and answers every value with `Unmatched`.
- Variadic.VariadicVisit: likewise, `variadic_switch<>` with no types would not compile in the source; the model answers every index with `Unmatched` (and the defaulted form with the default).

## Findings

| source | as written | input that shows it | evidently intended | confidence | as-written member | corrected member |
|---|---|---|---|---|---|---|
| include/integral_switch.h:17-27 | the switch has the literal labels 0, 1 and 2 and ignores the tag pack `v...` | tags 0..67, value 32: throws, where test/switch_test.cpp:26 expects 32; tags [5], value 0: calls the visitor with marker 0, which is not a tag | match the value against every tag of `v...` and throw only when none equals it | high (not executed) | Header.HeaderVisit, with Header.HeaderDropsTag32 and Header.HeaderInventsTagZero | Dispatch.Visit |
