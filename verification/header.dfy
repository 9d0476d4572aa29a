/** `visit` exactly as the shipped header writes it. Its switch lists the literal
    labels 0, 1 and 2 and never consults the tag pack `v...`, so it is correct
    only for tag sets holding exactly those three values. */
module Header {
  import opened Outcomes
  import opened TagSets
  import opened Dispatch

  /** The header's switch: labels 0, 1, 2 call the visitor with that label's
      marker, anything else throws. The tag list is not consulted. */
  function HeaderVisit<R>(tags: seq<int>, handler: int -> R, value: int): (r: Outcome<R>)
    ensures r.Matched? <==> 0 <= value <= 2
    ensures r.Matched? ==> r.value == handler(value)
  {
    match value
    case 0 => Matched(handler(0))
    case 1 => Matched(handler(1))
    case 2 => Matched(handler(2))
    case _ => Unmatched
  }

  /** On the tag set [0, 1, 2], used by the simple and example tests, the literal
      switch and the generic dispatcher agree on every value and visitor. */
  lemma HeaderAgreesOnZeroOneTwo<R>(handler: int -> R, value: int)
    ensures HeaderVisit([0, 1, 2], handler, value) == Visit([0, 1, 2], handler, value)
  {
  }

  /** The literal switch agrees with the generic dispatcher for a visitor exactly
      when the tags, taken as a set, are {0, 1, 2}. */
  lemma HeaderCorrectExactlyForZeroOneTwo<R>(tags: seq<int>, handler: int -> R)
    ensures (forall v :: HeaderVisit(tags, handler, v) == Visit(tags, handler, v))
        <==> (forall v :: v in tags <==> 0 <= v <= 2)
  {
    if forall v :: HeaderVisit(tags, handler, v) == Visit(tags, handler, v) {
      forall v ensures v in tags <==> 0 <= v <= 2 {
        assert HeaderVisit(tags, handler, v).Matched? <==> 0 <= v <= 2;
      }
    }
  }

  /** The 68-tag switch 0..67 with the identity visitor: as written, the header
      throws for 32, where the generic dispatcher returns 32. */
  lemma HeaderDropsTag32()
    ensures HeaderVisit(Range(0, 68), t => t, 32) == Unmatched
    ensures Visit(Range(0, 68), t => t, 32) == Matched(32)
  {
    RangeMembership(0, 68, 32);
  }

  /** With the single tag 5, the header calls the visitor with the marker for 0,
      a value that is not a tag at all, where the generic dispatcher throws. */
  lemma HeaderInventsTagZero<R>(handler: int -> R)
    ensures HeaderVisit([5], handler, 0) == Matched(handler(0))
    ensures Visit([5], handler, 0) == Unmatched
  {
  }
}
