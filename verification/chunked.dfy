/** Dispatch over blocks of tags. The header generator lays a large tag pack out
    as a chain of flat switch statements of a fixed height (32 cases by default),
    tried one after another until one matches or the tags run out. */
module Chunked {
  import opened Outcomes
  import opened TagSets
  import opened Dispatch

  /** The generator's default switch height. */
  const Height: nat := 32

  /** The tags cut, in order, into consecutive blocks of `height` tags; only the
      last block may be shorter, and no block is empty. */
  function Blocks(tags: seq<int>, height: nat): (blocks: seq<seq<int>>)
    requires height > 0
    decreases |tags|
    ensures Flatten(blocks) == tags
    ensures forall i :: 0 <= i < |blocks| ==> 0 < |blocks[i]| <= height
    ensures forall i :: 0 <= i < |blocks| - 1 ==> |blocks[i]| == height
  {
    if |tags| == 0 then []
    else if |tags| <= height then [tags]
    else [tags[..height]] + Blocks(tags[height..], height)
  }

  /** Try each block's flat switch in order; the first block that matches decides,
      and a value no block matches fails. */
  function VisitBlocks<R>(blocks: seq<seq<int>>, handler: int -> R, value: int): (r: Outcome<R>)
    ensures r == Visit(Flatten(blocks), handler, value)
  {
    if |blocks| == 0 then Unmatched
    else
      match Visit(blocks[0], handler, value)
      case Matched(x) => Matched(x)
      case Unmatched => VisitBlocks(blocks[1..], handler, value)
  }

  /** Splitting the tags into blocks of any positive height loses no case and adds
      none: chunked dispatch equals the flat search over the whole tag list. */
  lemma ChunkedEqualsFlat<R>(tags: seq<int>, height: nat, handler: int -> R, value: int)
    requires height > 0
    ensures VisitBlocks(Blocks(tags, height), handler, value) == Visit(tags, handler, value)
  {
  }

  /** The generated chain of switches as a loop over block starts: each round runs
      one flat switch over at most `Height` tags and returns on a match. */
  method VisitChunked<R>(tags: seq<int>, handler: int -> R, value: int) returns (r: Outcome<R>)
    ensures r.Matched? <==> value in tags
    ensures r.Matched? ==> r.value == handler(value)
  {
    var start := 0;
    while start < |tags|
      invariant 0 <= start <= |tags|
      invariant value !in tags[..start]
    {
      var end := if |tags| - start <= Height then |tags| else start + Height;
      var block := tags[start..end];
      r := Visit(block, handler, value);
      if r.Matched? {
        assert value in tags by {
          var k :| 0 <= k < |block| && block[k] == value;
          assert tags[start + k] == value;
        }
        return;
      }
      assert tags[..end] == tags[..start] + block;
      start := end;
    }
    assert tags[..start] == tags;
    r := Unmatched;
  }

  /** The 68 ascending tags 0..67 with the identity visitor: the first tag of
      each block of 32 (0, 32, 64) and the last tag (67) dispatch to themselves,
      and 68 fails, for the flat, chunked and defaulted forms alike. */
  lemma SixtyEightTagBoundaries()
    ensures |Blocks(Range(0, 68), Height)| == 3
    ensures Blocks(Range(0, 68), Height)[1][0] == 32
    ensures Blocks(Range(0, 68), Height)[2][0] == 64
    ensures forall v :: v in [0, 32, 64, 67] ==>
      Visit(Range(0, 68), t => t, v) == Matched(v)
      && VisitBlocks(Blocks(Range(0, 68), Height), t => t, v) == Matched(v)
      && VisitNothrow(Range(0, 68), t => t, v, -1) == v
    ensures Visit(Range(0, 68), t => t, 68) == Unmatched
    ensures VisitBlocks(Blocks(Range(0, 68), Height), t => t, 68) == Unmatched
    ensures VisitNothrow(Range(0, 68), t => t, 68, -1) == -1
  {
  }
}
