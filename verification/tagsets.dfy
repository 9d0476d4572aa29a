/** Ordered collections of integral tags. A tag set is the template pack `v...`
    of `integral_switch<T, v...>`, kept in declaration order. */
module TagSets {

  /** No tag occurs twice. */
  predicate Distinct(tags: seq<int>) {
    forall i, j :: 0 <= i < j < |tags| ==> tags[i] != tags[j]
  }

  /** The ascending tags lo, lo + 1, ..., hi - 1 (empty when hi <= lo). */
  function Range(lo: int, hi: int): (r: seq<int>)
    decreases hi - lo
    ensures |r| == if lo <= hi then hi - lo else 0
    ensures forall i :: 0 <= i < |r| ==> r[i] == lo + i
  {
    if hi <= lo then [] else [lo] + Range(lo + 1, hi)
  }

  /** A value is one of the tags of Range(lo, hi) exactly when it lies in [lo, hi). */
  lemma RangeMembership(lo: int, hi: int, v: int)
    ensures v in Range(lo, hi) <==> lo <= v < hi
  {
    var r := Range(lo, hi);
    if lo <= v < hi {
      assert r[v - lo] == v;
    }
  }

  /** Range(lo, hi) is a tag set: ascending, hence without duplicates. */
  lemma RangeDistinct(lo: int, hi: int)
    ensures Distinct(Range(lo, hi))
  {
  }

  /** The tags of a sequence of blocks, in block order. */
  function Flatten(blocks: seq<seq<int>>): (tags: seq<int>) {
    if |blocks| == 0 then [] else blocks[0] + Flatten(blocks[1..])
  }
}
